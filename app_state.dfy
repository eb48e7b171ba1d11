/**
 * The application shell: the active tab, the history list (newest first), the
 * user profile, and the local key-value storage the history is saved to.
 */
module AppState {
  import opened Wrappers
  import opened Types

  /** The storage key the history is saved under. */
  const HistoryKey: string := "creative_history"

  const InitialProfile: UserProfile :=
    UserProfile("Creative Pro", false, 20, "https://picsum.photos/seed/user/100/100")

  /**
   * Local storage: key to saved history. The JSON text is abstracted to the list it
   * encodes, so serialising and parsing are lossless here.
   */
  type Storage = map<string, seq<GenerationItem>>

  /** What the start-up effect adopts: a saved history if there is one, else the empty list. */
  function Load(storage: Storage): (history: seq<GenerationItem>)
    ensures HistoryKey !in storage ==> history == []
    ensures HistoryKey in storage ==> history == storage[HistoryKey]
  {
    if HistoryKey in storage then storage[HistoryKey] else []
  }

  /** The save effect: writes the whole history under the key and touches no other key. */
  function Save(storage: Storage, history: seq<GenerationItem>): (r: Storage)
    ensures Load(r) == history
    ensures r.Keys == storage.Keys + {HistoryKey}
    ensures forall k :: k in storage && k != HistoryKey ==> r[k] == storage[k]
  {
    storage[HistoryKey := history]
  }

  /** A history that was saved and is then loaded again (a restart) comes back unchanged. */
  lemma LoadAfterSave(storage: Storage, history: seq<GenerationItem>)
    ensures Load(Save(storage, history)) == history
  {
  }

  /** A restart with nothing saved starts from the empty history; saving that reloads it as empty. */
  lemma LoadEmpty(storage: Storage)
    requires HistoryKey !in storage
    ensures Load(storage) == [] && Load(Save(storage, [])) == []
  {
  }

  /** The profile updater `{ ...prev, isVip: !prev.isVip }`. */
  function ToggledVip(u: UserProfile): (r: UserProfile)
    ensures r.isVip == !u.isVip
    ensures r.name == u.name && r.credits == u.credits && r.avatar == u.avatar
  {
    u.(isVip := !u.isVip)
  }

  /** Toggling twice gives back the original profile. */
  lemma ToggledVipTwice(u: UserProfile)
    ensures ToggledVip(ToggledVip(u)) == u
  {
  }

  /** The views the main area can render. */
  datatype View = PlanningView | ImageWorkshopView | VideoStudioView | GalleryView

  /** The view rendered for a tab; the profile tab renders none. */
  function ViewFor(tab: AppTab): (v: Option<View>)
    ensures v.None? <==> tab == ProfileTab
  {
    match tab
    case PlanningTab => Some(PlanningView)
    case ImageWorkshopTab => Some(ImageWorkshopView)
    case VideoStudioTab => Some(VideoStudioView)
    case GalleryTab => Some(GalleryView)
    case ProfileTab => None
  }

  /** The tab a view belongs to. */
  function TabFor(v: View): AppTab {
    match v
    case PlanningView => PlanningTab
    case ImageWorkshopView => ImageWorkshopTab
    case VideoStudioView => VideoStudioTab
    case GalleryView => GalleryTab
  }

  /** Each rendered view belongs to exactly one tab, so different tabs never show the same view. */
  lemma ViewForTabFor(tab: AppTab, v: View)
    ensures ViewFor(tab) == Some(v) <==> TabFor(v) == tab
  {
  }

  class App {
    var activeTab: AppTab
    var history: seq<GenerationItem>
    var user: UserProfile
    var storage: Storage

    /** The saved history and the one in memory agree. */
    ghost predicate Persisted()
      reads this
    {
      HistoryKey in storage && storage[HistoryKey] == history
    }

    /**
     * Mounting the application over the storage left by an earlier session: the
     * initial state, then the load effect, then the save effect.
     */
    constructor (saved: Storage)
      ensures activeTab == ImageWorkshopTab && user == InitialProfile
      ensures history == Load(saved)
      ensures storage == Save(saved, history) && Persisted()
    {
      activeTab := ImageWorkshopTab;
      history := [];
      user := InitialProfile;
      storage := saved;
      new;
      if HistoryKey in saved {
        history := saved[HistoryKey];
      }
      storage := storage[HistoryKey := history];
    }

    /** The view shown in the main area: a function of the active tab alone. */
    function CurrentView(): (v: Option<View>)
      reads this
      ensures v.None? <==> activeTab == ProfileTab
      ensures v.Some? ==> TabFor(v.value) == activeTab
    {
      ViewFor(activeTab)
    }

    /** `addHistory`: prepend the item, then save the whole list. */
    method AddHistory(item: GenerationItem)
      modifies this
      ensures history == [item] + old(history)
      ensures |history| == |old(history)| + 1 && history[0] == item && history[1..] == old(history)
      ensures storage == Save(old(storage), history) && Persisted()
      ensures activeTab == old(activeTab) && user == old(user)
    {
      history := [item] + history;
      storage := Save(storage, history);
    }

    /** `toggleVip`: flip the VIP flag; nothing else changes. */
    method ToggleVip()
      modifies this`user
      ensures user == ToggledVip(old(user))
    {
      user := user.(isVip := !user.isVip);
    }

    /**
     * A navigation button: select a tab; nothing else changes. The buttons offer
     * every tab but the profile tab, so the tab selected always renders a view.
     */
    method SelectTab(tab: AppTab)
      requires tab != ProfileTab
      modifies this`activeTab
      ensures activeTab == tab
      ensures CurrentView().Some?
    {
      activeTab := tab;
    }
  }

  /**
   * Closing the application and opening it again over the same storage gives back
   * the history that was on screen, on the image workshop tab, with a fresh profile.
   */
  method Reopen(app: App) returns (next: App)
    requires app.Persisted()
    ensures next.history == app.history && next.Persisted()
    ensures next.activeTab == ImageWorkshopTab && next.user == InitialProfile
  {
    next := new App(app.storage);
  }
}
