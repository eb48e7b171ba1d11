/**
 * The string operations the application applies to prompts and messages:
 * String.prototype.trim, toLowerCase (folded to ASCII here) and includes.
 */
module Text {

  /** The characters `trim` removes: ECMAScript WhiteSpace and LineTerminator. */
  predicate IsWhitespace(c: char) {
    || c == '\t' || c == '\n' || c == '\U{000B}' || c == '\U{000C}' || c == '\r' || c == ' '
    || c == '\U{00A0}' || c == '\U{1680}' || ('\U{2000}' <= c <= '\U{200A}')
    || c == '\U{2028}' || c == '\U{2029}' || c == '\U{202F}' || c == '\U{205F}'
    || c == '\U{3000}' || c == '\U{FEFF}'
  }

  /** All characters of `s` are whitespace (vacuously so for the empty string). */
  predicate AllWhitespace(s: string) {
    forall k :: 0 <= k < |s| ==> IsWhitespace(s[k])
  }

  /** How many whitespace characters `s` starts with. */
  function LeadingSpace(s: string): (n: nat)
    ensures n <= |s|
    ensures forall k :: 0 <= k < n ==> IsWhitespace(s[k])
    ensures n < |s| ==> !IsWhitespace(s[n])
  {
    if s != [] && IsWhitespace(s[0]) then 1 + LeadingSpace(s[1..]) else 0
  }

  /** How many whitespace characters `s` ends with. */
  function TrailingSpace(s: string): (n: nat)
    ensures n <= |s|
    ensures forall k :: |s| - n <= k < |s| ==> IsWhitespace(s[k])
    ensures n < |s| ==> !IsWhitespace(s[|s| - n - 1])
  {
    if s != [] && IsWhitespace(s[|s| - 1]) then 1 + TrailingSpace(s[..|s| - 1]) else 0
  }

  /** `s` with its leading whitespace removed: a suffix of `s`, and what was cut is all whitespace. */
  function TrimStart(s: string): (r: string)
    ensures |r| <= |s| && r == s[|s| - |r|..]
    ensures AllWhitespace(s[..|s| - |r|])
    ensures r != [] ==> !IsWhitespace(r[0])
  {
    s[LeadingSpace(s)..]
  }

  /** `s` with its trailing whitespace removed: a prefix of `s`, and what was cut is all whitespace. */
  function TrimEnd(s: string): (r: string)
    ensures |r| <= |s| && r == s[..|r|]
    ensures AllWhitespace(s[|r|..])
    ensures r != [] ==> !IsWhitespace(r[|r| - 1])
  {
    s[..|s| - TrailingSpace(s)]
  }

  /** Trimming the start and then the end cuts a whitespace-only prefix and suffix. */
  lemma TrimCuts(s: string, i: nat)
    requires i == |s| - |TrimStart(s)|
    ensures i + |TrimEnd(TrimStart(s))| <= |s|
    ensures TrimEnd(TrimStart(s)) == s[i..i + |TrimEnd(TrimStart(s))|]
    ensures AllWhitespace(s[..i]) && AllWhitespace(s[i + |TrimEnd(TrimStart(s))|..])
  {
    var t := TrimStart(s);
    var r := TrimEnd(t);
    assert t == s[i..] && r == t[..|r|];
    assert s[i + |r|..] == t[|r|..];
  }

  /** String.prototype.trim: the infix of `s` that neither starts nor ends with whitespace. */
  function Trim(s: string): (r: string)
    ensures |r| <= |s|
    ensures exists i :: 0 <= i <= |s| - |r| && r == s[i..i + |r|] && AllWhitespace(s[..i]) && AllWhitespace(s[i + |r|..])
    ensures r != [] ==> !IsWhitespace(r[0]) && !IsWhitespace(r[|r| - 1])
  {
    TrimCuts(s, |s| - |TrimStart(s)|);
    TrimEnd(TrimStart(s))
  }

  /**
   * The guard `!prompt.trim()`: the prompt is blank when nothing but whitespace is
   * in it, that is when its leading whitespace runs to the end.
   */
  predicate IsBlank(s: string): (b: bool)
    ensures b <==> LeadingSpace(s) == |s|
  {
    AllWhitespace(s)
  }

  /** A prompt is blank exactly when trimming it leaves the empty string. */
  lemma BlankIffTrimEmpty(s: string)
    ensures IsBlank(s) <==> Trim(s) == []
  {
    var t := TrimStart(s);
    if Trim(s) == [] {
      assert s == s[..|s| - |t|] + t;
      assert AllWhitespace(t[0..]);
    } else {
      assert !IsWhitespace(Trim(s)[0]);
      assert Trim(s)[0] == s[|s| - |t|];
    }
  }

  /** Trimming is idempotent. */
  lemma TrimIdempotent(s: string)
    ensures Trim(Trim(s)) == Trim(s)
  {
  }

  /** Lower-case folding of one character; only the ASCII letters are folded in this model. */
  function LowerChar(c: char): (d: char)
    ensures 'A' <= c <= 'Z' ==> d as int == c as int + 32
    ensures !('A' <= c <= 'Z') ==> d == c
  {
    if 'A' <= c <= 'Z' then (c as int + 32) as char else c
  }

  /** toLowerCase, character by character. */
  function Lower(s: string): (r: string)
    ensures |r| == |s|
    ensures forall k :: 0 <= k < |s| ==> r[k] == LowerChar(s[k])
  {
    seq(|s|, k requires 0 <= k < |s| => LowerChar(s[k]))
  }

  /** Lower-casing twice is lower-casing once. */
  lemma LowerIdempotent(s: string)
    ensures Lower(Lower(s)) == Lower(s)
  {
  }

  /** `t` is a prefix of `s`. */
  predicate StartsWith(s: string, t: string) {
    |t| <= |s| && s[..|t|] == t
  }

  /** `t` occurs in `s` starting at position `i`. */
  predicate OccursAt(s: string, t: string, i: nat) {
    i + |t| <= |s| && s[i..i + |t|] == t
  }

  /** String.prototype.includes: `t` occurs somewhere in `s`; the empty string occurs everywhere. */
  predicate Contains(s: string, t: string): (b: bool)
    ensures b <==> exists i: nat :: OccursAt(s, t, i)
    decreases |s|
  {
    if StartsWith(s, t) then
      assert OccursAt(s, t, 0);
      true
    else if s == [] then false
    else
      assert forall j: nat :: OccursAt(s[1..], t, j) ==> OccursAt(s, t, j + 1) by {
        forall j: nat | OccursAt(s[1..], t, j) ensures OccursAt(s, t, j + 1) {
          assert s[j + 1..j + 1 + |t|] == s[1..][j..j + |t|];
        }
      }
      assert forall i: nat :: OccursAt(s, t, i) ==> OccursAt(s[1..], t, i - 1) by {
        forall i: nat | OccursAt(s, t, i) ensures i != 0 && OccursAt(s[1..], t, i - 1) {
          assert i != 0;
          assert s[1..][i - 1..i - 1 + |t|] == s[i..i + |t|];
        }
      }
      Contains(s[1..], t)
  }

  /** A string contains each of its infixes: in particular `p + m + q` contains `m`. */
  lemma ContainsMiddle(p: string, m: string, q: string)
    ensures Contains(p + m + q, m)
  {
    var s := p + m + q;
    assert s[|p|..|p| + |m|] == m;
    assert OccursAt(s, m, |p|);
  }

  /** `message || fallback`: the message, or the fallback when the message is empty. */
  function MessageOr(message: string, fallback: string): (r: string)
    ensures message != [] ==> r == message
    ensures message == [] ==> r == fallback
  {
    if message != [] then message else fallback
  }
}
