/**
 * The gallery's `filtered` list: the history items that pass the type filter and
 * whose prompt contains the search term, ignoring letter case, in history order.
 */
module Gallery {
  import opened Types
  import opened Text

  /** The filter selector: 'all', 'image' or 'video'. */
  datatype TypeFilter = All | Only(kind: MediaType)

  predicate MatchesFilter(item: GenerationItem, filter: TypeFilter) {
    filter.All? || item.kind == filter.kind
  }

  predicate MatchesSearch(item: GenerationItem, term: string) {
    Contains(Lower(item.prompt), Lower(term))
  }

  predicate Keep(item: GenerationItem, filter: TypeFilter, term: string) {
    MatchesFilter(item, filter) && MatchesSearch(item, term)
  }

  /** history.filter(item => matchesFilter && matchesSearch) */
  function Filtered(history: seq<GenerationItem>, filter: TypeFilter, term: string): (r: seq<GenerationItem>)
    ensures |r| <= |history|
  {
    if history == [] then []
    else if Keep(history[0], filter, term) then [history[0]] + Filtered(history[1..], filter, term)
    else Filtered(history[1..], filter, term)
  }

  /** Every position moved one place to the right. */
  function Shift(positions: seq<nat>): (r: seq<nat>)
    ensures |r| == |positions|
    ensures forall i :: 0 <= i < |r| ==> r[i] == positions[i] + 1
  {
    seq(|positions|, i requires 0 <= i < |positions| => positions[i] + 1)
  }

  /** The positions of the history whose items pass both tests, in increasing order. */
  ghost function KeptPositions(history: seq<GenerationItem>, filter: TypeFilter, term: string): seq<nat>
  {
    if history == [] then []
    else
      var rest := Shift(KeptPositions(history[1..], filter, term));
      if Keep(history[0], filter, term) then [0] + rest else rest
  }

  /** Positions selecting `items` from the tail of `history` select them from `history` once shifted. */
  lemma ShiftSelect(history: seq<GenerationItem>, pos: seq<nat>, items: seq<GenerationItem>)
    requires history != [] && |pos| == |items|
    requires forall i :: 0 <= i < |pos| ==> pos[i] < |history[1..]| && items[i] == history[1..][pos[i]]
    ensures forall i :: 0 <= i < |pos| ==> Shift(pos)[i] < |history| && items[i] == history[Shift(pos)[i]]
  {
  }

  /** Selecting position 0 first puts the head of `history` first. */
  lemma ConsSelect(history: seq<GenerationItem>, pos: seq<nat>, items: seq<GenerationItem>)
    requires history != [] && |pos| == |items|
    requires forall i :: 0 <= i < |pos| ==> pos[i] < |history| && items[i] == history[pos[i]]
    ensures forall i :: 0 <= i < |pos| + 1 ==>
      ([0] + pos)[i] < |history| && ([history[0]] + items)[i] == history[([0] + pos)[i]]
  {
    forall i | 0 <= i < |pos| + 1
      ensures ([0] + pos)[i] < |history| && ([history[0]] + items)[i] == history[([0] + pos)[i]]
    {
      if i > 0 {
        assert ([0] + pos)[i] == pos[i - 1] && ([history[0]] + items)[i] == items[i - 1];
      }
    }
  }

  /** The result holds, in order, the items at the kept positions. */
  lemma {:induction false} KeptPositionsSelect(history: seq<GenerationItem>, filter: TypeFilter, term: string)
    ensures |KeptPositions(history, filter, term)| == |Filtered(history, filter, term)|
    ensures forall i :: 0 <= i < |KeptPositions(history, filter, term)| ==>
      KeptPositions(history, filter, term)[i] < |history| &&
      Filtered(history, filter, term)[i] == history[KeptPositions(history, filter, term)[i]]
  {
    if history != [] {
      var tail := history[1..];
      KeptPositionsSelect(tail, filter, term);
      var pos, kept := KeptPositions(tail, filter, term), Filtered(tail, filter, term);
      ShiftSelect(history, pos, kept);
      if Keep(history[0], filter, term) {
        ConsSelect(history, Shift(pos), kept);
      }
    }
  }

  /** The kept positions are strictly increasing and in range. */
  lemma {:induction false} KeptPositionsIncreasing(history: seq<GenerationItem>, filter: TypeFilter, term: string)
    ensures forall i :: 0 <= i < |KeptPositions(history, filter, term)| ==>
      KeptPositions(history, filter, term)[i] < |history|
    ensures forall i, j :: 0 <= i < j < |KeptPositions(history, filter, term)| ==>
      KeptPositions(history, filter, term)[i] < KeptPositions(history, filter, term)[j]
  {
    if history != [] {
      KeptPositionsIncreasing(history[1..], filter, term);
    }
  }

  /** A position is kept exactly when its item passes both tests. */
  lemma {:induction false} KeptPositionsExact(history: seq<GenerationItem>, filter: TypeFilter, term: string)
    ensures forall p :: p in KeptPositions(history, filter, term) <==>
      0 <= p < |history| && Keep(history[p], filter, term)
  {
    if history != [] {
      var tail := history[1..];
      KeptPositionsExact(tail, filter, term);
      var rest := KeptPositions(tail, filter, term);
      forall p ensures p in Shift(rest) <==> 1 <= p < |history| && Keep(history[p], filter, term) {
        if p in Shift(rest) {
          var i :| 0 <= i < |rest| && Shift(rest)[i] == p;
          assert rest[i] in rest;
        }
        if 1 <= p < |history| {
          assert history[p] == tail[p - 1];
          if p - 1 in rest {
            var i :| 0 <= i < |rest| && rest[i] == p - 1;
            assert Shift(rest)[i] == p;
          }
        }
      }
    }
  }

  /**
   * The result is exactly the kept items of the history, in history order: `idx`
   * lists, increasing, the positions of the history that the result holds, every
   * one of them passes both tests, and every position that passes both is listed.
   */
  lemma FilteredPositions(history: seq<GenerationItem>, filter: TypeFilter, term: string)
    returns (idx: seq<nat>)
    ensures |idx| == |Filtered(history, filter, term)|
    ensures forall i :: 0 <= i < |idx| ==>
      idx[i] < |history| && Filtered(history, filter, term)[i] == history[idx[i]]
    ensures forall i, j :: 0 <= i < j < |idx| ==> idx[i] < idx[j]
    ensures forall i :: 0 <= i < |idx| ==> Keep(history[idx[i]], filter, term)
    ensures forall p :: 0 <= p < |history| && Keep(history[p], filter, term) ==> p in idx
  {
    idx := KeptPositions(history, filter, term);
    KeptPositionsSelect(history, filter, term);
    KeptPositionsIncreasing(history, filter, term);
    KeptPositionsExact(history, filter, term);
  }

  /** Soundness: every item shown passes the type filter and the search. */
  lemma {:induction false} FilteredSound(history: seq<GenerationItem>, filter: TypeFilter, term: string)
    ensures forall x :: x in Filtered(history, filter, term) ==>
      (filter.All? || x.kind == filter.kind) && Contains(Lower(x.prompt), Lower(term))
  {
    if history != [] {
      FilteredSound(history[1..], filter, term);
    }
  }

  /** Completeness: every history item that passes both tests is shown. */
  lemma {:induction false} FilteredComplete(history: seq<GenerationItem>, filter: TypeFilter, term: string)
    ensures forall x ::
      (x in history && (filter.All? || x.kind == filter.kind) && Contains(Lower(x.prompt), Lower(term)))
      ==> x in Filtered(history, filter, term)
  {
    if history != [] {
      FilteredComplete(history[1..], filter, term);
      assert forall x :: x in history ==> x == history[0] || x in history[1..];
    }
  }

  /** Filtering distributes over concatenation, so the result keeps the history's order. */
  lemma {:induction false} FilteredAppend(a: seq<GenerationItem>, b: seq<GenerationItem>, filter: TypeFilter, term: string)
    ensures Filtered(a + b, filter, term) == Filtered(a, filter, term) + Filtered(b, filter, term)
  {
    if a != [] {
      assert (a + b)[0] == a[0] && (a + b)[1..] == a[1..] + b;
      FilteredAppend(a[1..], b, filter, term);
      var rest := Filtered(a[1..], filter, term) + Filtered(b, filter, term);
      if Keep(a[0], filter, term) {
        assert Filtered(a + b, filter, term) == [a[0]] + rest;
        assert Filtered(a, filter, term) == [a[0]] + Filtered(a[1..], filter, term);
      } else {
        assert Filtered(a + b, filter, term) == rest;
      }
    } else {
      assert a + b == b;
    }
  }

  /** With filter 'all' and an empty search box the whole history is shown. */
  lemma {:induction false} FilteredShowsAll(history: seq<GenerationItem>)
    ensures Filtered(history, All, "") == history
  {
    if history != [] {
      FilteredShowsAll(history[1..]);
      assert Keep(history[0], All, "");
    }
  }

  /** An empty search term shows exactly the items whose type passes the filter. */
  lemma {:induction false} FilteredEmptyTerm(history: seq<GenerationItem>, filter: TypeFilter)
    ensures forall x :: x in Filtered(history, filter, "") <==> x in history && MatchesFilter(x, filter)
  {
    if history != [] {
      FilteredEmptyTerm(history[1..], filter);
      assert MatchesSearch(history[0], "");
      assert forall x :: x in history <==> x == history[0] || x in history[1..];
    }
  }

  /** The letter case of the search term does not change the result. */
  lemma {:induction false} FilteredIgnoresTermCase(history: seq<GenerationItem>, filter: TypeFilter, term: string, other: string)
    requires Lower(term) == Lower(other)
    ensures Filtered(history, filter, term) == Filtered(history, filter, other)
  {
    if history != [] {
      FilteredIgnoresTermCase(history[1..], filter, term, other);
    }
  }

  /** In particular, searching for the lower-cased term gives the same result. */
  lemma FilteredLowerTerm(history: seq<GenerationItem>, filter: TypeFilter, term: string)
    ensures Filtered(history, filter, Lower(term)) == Filtered(history, filter, term)
  {
    LowerIdempotent(term);
    FilteredIgnoresTermCase(history, filter, Lower(term), term);
  }

  /**
   * A two-item history, an image of a cat and a video of a dog: the 'video' filter
   * shows only the dog, and searching "CAT" with 'all' shows only the cat.
   */
  lemma TwoItemExample(cat: GenerationItem, dog: GenerationItem)
    requires cat.kind == Image && cat.prompt == "cat"
    requires dog.kind == Video && dog.prompt == "dog"
    ensures Filtered([cat, dog], Only(Video), "") == [dog]
    ensures Filtered([cat, dog], All, "CAT") == [cat]
  {
    assert Lower("CAT") == "cat";
    assert Lower("cat") == "cat" && Lower("dog") == "dog";
    assert StartsWith("cat", "cat");
    assert !Contains("dog", "cat") by {
      assert "dog"[..3] == "dog" && "dog"[0] != "cat"[0];
      assert "dog"[1..] == "og" && "og"[1..] == "g" && "g"[1..] == [];
    }
    assert [cat, dog][1..] == [dog];
  }
}
