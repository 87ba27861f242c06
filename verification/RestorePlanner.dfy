/**
 The planner with the collections it fills: the live panes of each saved tab, the tabs made for
 sessions without a pane, and the plugin sessions grouped by their tab. It computes the same plan.
 */
module RestorePlanner {
  import opened Basics
  import opened RestorePlan
  import L = SyntheticLayout

  /** The entries of one kind of place, for one tab. */
  function Part(log: seq<Entry>, place: Place, tabId: TabId): seq<Entry> {
    if log == [] then []
    else
      var last := log[|log| - 1];
      Part(log[..|log| - 1], place, tabId) + if last.place == place && last.tabId == tabId then [last] else []
  }

  function OfPlace(log: seq<Entry>, place: Place): seq<Entry> {
    if log == [] then []
    else
      var last := log[|log| - 1];
      OfPlace(log[..|log| - 1], place) + if last.place == place then [last] else []
  }

  lemma LogThen(log: seq<Entry>, e: Entry, place: Place, t: TabId)
    ensures Part(log + [e], place, t) == Part(log, place, t) + if e.place == place && e.tabId == t then [e] else []
    ensures OfPlace(log + [e], place) == OfPlace(log, place) + if e.place == place then [e] else []
    ensures ExtraTabs(log + [e], place)
            == if e.place == place && e.tabId !in ExtraTabs(log, place) then ExtraTabs(log, place) + [e.tabId]
               else ExtraTabs(log, place)
  {
    assert (log + [e])[..|log|] == log;
  }

  /** A map from tabs to their panes that holds exactly the entries of this place. */
  ghost predicate Groups(m: map<TabId, seq<Entry>>, log: seq<Entry>, place: Place) {
    forall t :: GroupedAt(m, log, place, t)
  }

  predicate GroupedAt(m: map<TabId, seq<Entry>>, log: seq<Entry>, place: Place, t: TabId) {
    Part(log, place, t) == (if t in m then m[t] else []) && (t in m ==> m[t] != [])
  }

  function Put(m: map<TabId, seq<Entry>>, e: Entry): map<TabId, seq<Entry>> {
    m[e.tabId := (if e.tabId in m then m[e.tabId] else []) + [e]]
  }

  lemma GroupsThen(m: map<TabId, seq<Entry>>, log: seq<Entry>, place: Place, e: Entry)
    requires Groups(m, log, place)
    ensures e.place == place ==> Groups(Put(m, e), log + [e], place)
    ensures e.place != place ==> Groups(m, log + [e], place)
  {
    if e.place == place {
      PutGroups(m, log, place, e);
    } else {
      forall t
        ensures GroupedAt(m, log + [e], place, t)
      {
        assert GroupedAt(m, log, place, t);
        PartThen(log, e, place, t);
      }
    }
  }

  lemma PutGroups(m: map<TabId, seq<Entry>>, log: seq<Entry>, place: Place, e: Entry)
    requires Groups(m, log, place) && e.place == place
    ensures Groups(Put(m, e), log + [e], place)
  {
    forall t
      ensures GroupedAt(Put(m, e), log + [e], place, t)
    {
      assert GroupedAt(m, log, place, t);
      PartThen(log, e, place, t);
    }
  }

  lemma PartThen(log: seq<Entry>, e: Entry, place: Place, t: TabId)
    ensures Part(log + [e], place, t) == if e.place == place && e.tabId == t then Part(log, place, t) + [e]
            else Part(log, place, t)
  {
    assert (log + [e])[..|log|] == log;
  }

  // ---------------------------------------------------------------- parts and tabs agree

  lemma {:induction false} PartIsLive(log: seq<Entry>, place: Place, t: TabId)
    requires forall e | e in log && e.tabId == t :: e.place == place
    ensures Part(log, place, t) == LiveOf(log, t)
  {
    if log != [] {
      assert log[|log| - 1] in log;
      assert forall e | e in log[..|log| - 1] :: e in log;
      PartIsLive(log[..|log| - 1], place, t);
    }
  }

  lemma OtherPlaces(inp: Inputs, uuid: nat -> string, d: Entry, e: Entry, next: nat)
    requires FreshIds(inp, uuid) && WellFormed(inp)
    requires Grounded(inp, uuid, d, next) && Grounded(inp, uuid, e, next) && d.tabId == e.tabId
    ensures d.place == e.place
  {
    OpenIsSaved(inp, d.tabId);
  }

  lemma OpenIsSaved(inp: Inputs, t: TabId)
    requires WellFormed(inp)
    ensures t in TabIds(Open(inp)) ==> IsSaved(inp, t) && t !in RegisteredIds(inp.registry)
  {
    OpenTabs(inp.saved, RegisteredIds(inp.registry));
    if t in TabIds(Open(inp)) {
      var i :| 0 <= i < |inp.saved| && TabIds(inp.saved)[i] == t;
      assert inp.saved[i].tabId == t;
    }
  }

  /** In each tab of the plan the live panes are those of one place. */
  lemma PartOfSaved(inp: Inputs, uuid: nat -> string, st: Planner, t: TabId)
    requires FreshIds(inp, uuid) && WellFormed(inp) && AllGrounded(inp, uuid, st)
    ensures t in TabIds(Open(inp)) ==> Part(st.log, InSavedTab, t) == LiveOf(st.log, t)
  {
    if t in TabIds(Open(inp)) {
      forall e | e in st.log && e.tabId == t
        ensures e.place == InSavedTab
      {
        assert Grounded(inp, uuid, e, st.next);
        OpenIsSaved(inp, t);
      }
      PartIsLive(st.log, InSavedTab, t);
    }
  }

  lemma PartOfExtra(inp: Inputs, uuid: nat -> string, st: Planner, place: Place, t: TabId)
    requires FreshIds(inp, uuid) && WellFormed(inp) && AllGrounded(inp, uuid, st)
    ensures t in ExtraTabs(st.log, place) ==> Part(st.log, place, t) == LiveOf(st.log, t)
  {
    if t in ExtraTabs(st.log, place) {
      ExtraTabsMean(st.log, place);
      var d :| d in st.log && d.place == place && d.tabId == t;
      assert Grounded(inp, uuid, d, st.next);
      forall e | e in st.log && e.tabId == t
        ensures e.place == place
      {
        assert Grounded(inp, uuid, e, st.next);
        OtherPlaces(inp, uuid, d, e, st.next);
      }
      PartIsLive(st.log, place, t);
    }
  }

  // ---------------------------------------------------------------- a new tab holds one session

  function TabsOf(entries: seq<Entry>): seq<TabId> {
    seq(|entries|, i requires 0 <= i < |entries| => entries[i].tabId)
  }

  ghost predicate OneEach(st: Planner) {
    ExtraTabs(st.log, InNewTab) == TabsOf(OfPlace(st.log, InNewTab))
  }

  lemma OtherKeepsOneEach(st: Planner, e: Entry)
    requires OneEach(st) && !e.place.InNewTab?
    ensures OneEach(st.(log := st.log + [e]))
  {
    LogThen(st.log, e, InNewTab, e.tabId);
  }

  lemma AdoptKeepsOneEach(inp: Inputs, uuid: nat -> string, st: Planner, id: Identity)
    requires FreshIds(inp, uuid) && AllGrounded(inp, uuid, st) && OneEach(st)
    ensures OneEach(Adopt(inp, uuid, st, id))
  {
    NewIdIsNew(inp, uuid, st);
    NewKeepsOneEach(st, Entry(InNewTab, uuid(st.next + 1), uuid(st.next), id));
  }

  lemma NewKeepsOneEach(st: Planner, e: Entry)
    requires OneEach(st) && e.place.InNewTab? && e.tabId !in ExtraTabs(st.log, InNewTab)
    ensures OneEach(st.(log := st.log + [e]))
  {
    LogThen(st.log, e, InNewTab, e.tabId);
    assert TabsOf(OfPlace(st.log, InNewTab) + [e]) == TabsOf(OfPlace(st.log, InNewTab)) + [e.tabId];
  }

  lemma NewIdIsNew(inp: Inputs, uuid: nat -> string, st: Planner)
    requires FreshIds(inp, uuid) && AllGrounded(inp, uuid, st)
    ensures uuid(st.next + 1) !in ExtraTabs(st.log, InNewTab)
  {
    ExtraTabsMean(st.log, InNewTab);
    forall d | d in st.log && d.place == InNewTab
      ensures d.tabId != uuid(st.next + 1)
    {
      assert Grounded(inp, uuid, d, st.next);
    }
  }

  lemma {:induction false} AttachOneEach(inp: Inputs, uuid: nat -> string, n: nat)
    requires FreshIds(inp, uuid) && n <= |inp.attached|
    ensures OneEach(AttachAll(inp, uuid, n))
  {
    if n > 0 {
      AttachOneEach(inp, uuid, n - 1);
      var st, s := AttachAll(inp, uuid, n - 1), inp.attached[n - 1];
      AttachGrounds(inp, uuid, n - 1);
      AdoptKeepsOneEach(inp, uuid, st, s.identity);
      var view := FirstOpenView(Open(inp), s.views);
      if view.Some? && TabOfPane(Open(inp), view.value).Some? {
        OtherKeepsOneEach(st, Entry(InSavedTab, TabOfPane(Open(inp), view.value).value, view.value, s.identity));
      }
    }
  }

  lemma {:induction false} TelnetOneEach(inp: Inputs, uuid: nat -> string, n: nat)
    requires FreshIds(inp, uuid) && n <= |inp.telnet|
    ensures OneEach(TelnetAll(inp, uuid, n))
  {
    if n == 0 {
      AttachOneEach(inp, uuid, |inp.attached|);
    } else {
      TelnetOneEach(inp, uuid, n - 1);
      var st, s := TelnetAll(inp, uuid, n - 1), inp.telnet[n - 1];
      TelnetGrounds(inp, uuid, n - 1);
      AdoptKeepsOneEach(inp, uuid, st, s.identity);
      var pane := FindTelnet(PanesOf(Open(inp)), st.unused, s.endpoint);
      if pane.Some? && TabOfPane(Open(inp), pane.value).Some? {
        OtherKeepsOneEach(st, Entry(InSavedTab, TabOfPane(Open(inp), pane.value).value, pane.value, s.identity));
      }
    }
  }

  lemma {:induction false} PluginOneEach(inp: Inputs, uuid: nat -> string, n: nat)
    requires FreshIds(inp, uuid) && n <= |inp.plugin|
    ensures OneEach(PluginAll(inp, uuid, n))
  {
    if n == 0 {
      TelnetOneEach(inp, uuid, |inp.telnet|);
    } else {
      PluginOneEach(inp, uuid, n - 1);
      var st, s := PluginAll(inp, uuid, n - 1), inp.plugin[n - 1];
      if PluginPlace(inp, s).Some? {
        OtherKeepsOneEach(st, Entry(PluginPlace(inp, s).value, s.tabId, s.paneId, s.identity));
      }
    }
  }

  lemma {:induction false} PartOfPlace(log: seq<Entry>, place: Place, t: TabId)
    ensures Part(log, place, t) == LiveOf(OfPlace(log, place), t)
  {
    if log != [] {
      var init, last := log[..|log| - 1], log[|log| - 1];
      PartOfPlace(init, place, t);
      var before := OfPlace(init, place);
      assert (before + [last])[..|before|] == before;
      assert before + [] == before;
    }
  }

  lemma {:induction false} NotAmong(entries: seq<Entry>, t: TabId)
    requires t !in TabsOf(entries)
    ensures LiveOf(entries, t) == []
  {
    if entries != [] {
      var init := entries[..|entries| - 1];
      assert TabsOf(entries) == TabsOf(init) + [entries[|entries| - 1].tabId];
      NotAmong(init, t);
    }
  }

  lemma {:induction false} AloneInTab(entries: seq<Entry>, i: nat)
    requires Distinct(TabsOf(entries)) && i < |entries|
    ensures LiveOf(entries, entries[i].tabId) == [entries[i]]
  {
    var n := |entries| - 1;
    var init := entries[..n];
    assert TabsOf(entries) == TabsOf(init) + [entries[n].tabId];
    if i == n {
      forall k | 0 <= k < n
        ensures TabsOf(init)[k] != entries[n].tabId
      {
        assert TabsOf(entries)[k] != TabsOf(entries)[n];
      }
      NotAmong(init, entries[n].tabId);
    } else {
      assert TabsOf(entries)[i] != TabsOf(entries)[n];
      forall j, k | 0 <= j < k < n
        ensures TabsOf(init)[j] != TabsOf(init)[k]
      {
        assert TabsOf(entries)[j] != TabsOf(entries)[k];
      }
      AloneInTab(init, i);
    }
  }

  /** Each new tab of the plan holds exactly the session it was made for. */
  lemma NewTabHoldsOne(inp: Inputs, uuid: nat -> string, i: nat)
    requires FreshIds(inp, uuid) && WellFormed(inp)
    requires i < |OfPlace(Placed(inp, uuid), InNewTab)|
    ensures var log := Placed(inp, uuid);
            var e := OfPlace(log, InNewTab)[i];
            LiveOf(log, e.tabId) == [e]
  {
    var st := PluginAll(inp, uuid, |inp.plugin|);
    var made := OfPlace(st.log, InNewTab);
    PluginOneEach(inp, uuid, |inp.plugin|);
    PluginGrounds(inp, uuid, |inp.plugin|);
    ExtraTabsMean(st.log, InNewTab);
    AloneInTab(made, i);
    PartOfPlace(st.log, InNewTab, made[i].tabId);
    assert TabsOf(made)[i] == made[i].tabId;
    PartOfExtra(inp, uuid, st, InNewTab, made[i].tabId);
  }

  function SeedsFor(ids: seq<TabId>, log: seq<Entry>, autoReconnect: bool): seq<Seed> {
    seq(|ids|, i requires 0 <= i < |ids| => Seed(ids[i], autoReconnect, LiveOf(log, ids[i])))
  }

  lemma SeedsJoin(a: seq<TabId>, b: seq<TabId>, log: seq<Entry>, autoReconnect: bool)
    ensures SeedsFor(a + b, log, autoReconnect) == SeedsFor(a, log, autoReconnect) + SeedsFor(b, log, autoReconnect)
  {
  }

  lemma SeedsOfPlan(inp: Inputs, log: seq<Entry>, restoreHistory: bool)
    ensures var auto := log == [] && restoreHistory;
            SeedsFor(PlanTabs(inp, log, restoreHistory), log, auto)
            == (if log != [] || restoreHistory then SeedsFor(TabIds(Open(inp)), log, auto) else [])
               + SeedsFor(ExtraTabs(log, InNewTab), log, false) + SeedsFor(ExtraTabs(log, InPluginTab), log, false)
  {
    var auto := log == [] && restoreHistory;
    var a := if log != [] || restoreHistory then TabIds(Open(inp)) else [];
    SeedsJoin(a + ExtraTabs(log, InNewTab), ExtraTabs(log, InPluginTab), log, auto);
    SeedsJoin(a, ExtraTabs(log, InNewTab), log, auto);
  }

  lemma SeedsNext(ids: seq<TabId>, n: nat, log: seq<Entry>, autoReconnect: bool)
    requires n < |ids|
    ensures SeedsFor(ids[..n + 1], log, autoReconnect)
            == SeedsFor(ids[..n], log, autoReconnect) + [Seed(ids[n], autoReconnect, LiveOf(log, ids[n]))]
  {
    assert ids[..n + 1] == ids[..n] + [ids[n]];
    SeedsJoin(ids[..n], [ids[n]], log, autoReconnect);
  }

  // ---------------------------------------------------------------- what the tabs of the plan show

  /** A saved tab as it was, or a tab made for sessions without one: their panes side by side, the first one active. */
  datatype Contents =
    | Saved(tab: SavedTab)
    | Made(layout: Option<L.Layout>, activePaneId: Option<PaneId>, panes: seq<PaneId>)

  function LivePanes(live: seq<Entry>): seq<PaneId> {
    seq(|live|, i requires 0 <= i < |live| => live[i].paneId)
  }

  function MadeTab(live: seq<Entry>): Contents {
    var panes := LivePanes(live);
    if panes == [] then Made(None, None, []) else Made(Some(L.Side(panes)), Some(panes[0]), panes)
  }

  function SavedTabs(tabs: seq<SavedTab>): seq<Contents> {
    seq(|tabs|, i requires 0 <= i < |tabs| => Saved(tabs[i]))
  }

  function MadeTabs(ids: seq<TabId>, log: seq<Entry>): seq<Contents> {
    seq(|ids|, i requires 0 <= i < |ids| => MadeTab(LiveOf(log, ids[i])))
  }

  function TabsFor(seeds: seq<Seed>): seq<Contents> {
    seq(|seeds|, i requires 0 <= i < |seeds| => MadeTab(seeds[i].live))
  }

  lemma TabsOfSeeds(ids: seq<TabId>, log: seq<Entry>)
    ensures TabsFor(SeedsFor(ids, log, false)) == MadeTabs(ids, log)
  {
  }

  function PlanContents(inp: Inputs, log: seq<Entry>, restoreHistory: bool): seq<Contents> {
    (if log != [] || restoreHistory then SavedTabs(Open(inp)) else [])
    + MadeTabs(ExtraTabs(log, InNewTab), log) + MadeTabs(ExtraTabs(log, InPluginTab), log)
  }

  /** The pane is one of the tab's; a made tab has a layout of exactly its panes. */
  predicate Shows(c: Contents, p: PaneId) {
    match c
    case Saved(tab) => HasPane(tab, p)
    case Made(layout, active, panes) =>
      && p in panes && layout.Some? && L.Leaves(layout.value) == panes && active == Some(panes[0])
  }

  lemma MadeShows(live: seq<Entry>, e: Entry)
    requires e in live
    ensures Shows(MadeTab(live), e.paneId)
  {
    var i :| 0 <= i < |live| && live[i] == e;
    assert LivePanes(live)[i] == e.paneId;
    L.LeavesInOrder(LivePanes(live));
  }

  /** An entry of a saved tab is in a pane of that tab. */
  predicate AtHome(inp: Inputs, e: Entry) {
    e.place.InSavedTab? ==> TabOfPane(Open(inp), e.paneId) == Some(e.tabId)
  }

  lemma {:induction false} AttachAtHome(inp: Inputs, uuid: nat -> string, n: nat)
    requires n <= |inp.attached|
    ensures forall e | e in AttachAll(inp, uuid, n).log :: AtHome(inp, e)
  {
    if n > 0 {
      AttachAtHome(inp, uuid, n - 1);
    }
  }

  lemma {:induction false} TelnetAtHome(inp: Inputs, uuid: nat -> string, n: nat)
    requires n <= |inp.telnet|
    ensures forall e | e in TelnetAll(inp, uuid, n).log :: AtHome(inp, e)
  {
    if n == 0 {
      AttachAtHome(inp, uuid, |inp.attached|);
    } else {
      TelnetAtHome(inp, uuid, n - 1);
    }
  }

  lemma {:induction false} PluginAtHome(inp: Inputs, uuid: nat -> string, n: nat)
    requires n <= |inp.plugin|
    ensures forall e | e in PluginAll(inp, uuid, n).log :: AtHome(inp, e)
  {
    if n == 0 {
      TelnetAtHome(inp, uuid, |inp.telnet|);
    } else {
      PluginAtHome(inp, uuid, n - 1);
    }
  }

  lemma {:induction false} HomeHasPane(tabs: seq<SavedTab>, i: nat, p: PaneId)
    requires Distinct(TabIds(tabs)) && i < |tabs| && TabOfPane(tabs, p) == Some(tabs[i].tabId)
    ensures HasPane(tabs[i], p)
  {
    assert TabIds(tabs) == [tabs[0].tabId] + TabIds(tabs[1..]);
    if HasPane(tabs[0], p) {
      assert TabIds(tabs)[0] == TabIds(tabs)[i];
    } else {
      TabOfPaneIsOpen(tabs[1..], p);
      assert i > 0 by {
        var j :| 0 <= j < |tabs[1..]| && TabIds(tabs[1..])[j] == tabs[i].tabId;
        assert TabIds(tabs)[j + 1] == TabIds(tabs)[i];
      }
      RestTabsDistinct(tabs);
      HomeHasPane(tabs[1..], i - 1, p);
    }
  }

  lemma RestTabsDistinct(tabs: seq<SavedTab>)
    requires Distinct(TabIds(tabs)) && tabs != []
    ensures Distinct(TabIds(tabs[1..]))
  {
    forall i, j | 0 <= i < j < |tabs| - 1
      ensures TabIds(tabs[1..])[i] != TabIds(tabs[1..])[j]
    {
      assert TabIds(tabs)[i + 1] != TabIds(tabs)[j + 1];
    }
  }

  lemma SavedShows(inp: Inputs, uuid: nat -> string, i: nat, e: Entry)
    requires WellFormed(inp) && FreshIds(inp, uuid) && i < |Open(inp)|
    requires e in Placed(inp, uuid) && e.tabId == Open(inp)[i].tabId
    ensures Shows(Saved(Open(inp)[i]), e.paneId)
  {
    PluginGrounds(inp, uuid, |inp.plugin|);
    assert Grounded(inp, uuid, e, PluginAll(inp, uuid, |inp.plugin|).next);
    assert TabIds(Open(inp))[i] == e.tabId;
    OpenIsSaved(inp, e.tabId);
    PluginAtHome(inp, uuid, |inp.plugin|);
    OpenTabs(inp.saved, RegisteredIds(inp.registry));
    HomeHasPane(Open(inp), i, e.paneId);
  }

  lemma MadeTabsShow(ids: seq<TabId>, log: seq<Entry>, i: nat, e: Entry)
    requires i < |ids| && e in LiveOf(log, ids[i])
    ensures Shows(MadeTabs(ids, log)[i], e.paneId)
  {
    MadeShows(LiveOf(log, ids[i]), e);
  }

  lemma ThreeParts<T>(a: seq<T>, b: seq<T>, c: seq<T>, i: nat)
    requires i < |a| + |b| + |c|
    ensures i < |a| ==> (a + b + c)[i] == a[i]
    ensures |a| <= i < |a| + |b| ==> (a + b + c)[i] == b[i - |a|]
    ensures |a| + |b| <= i ==> (a + b + c)[i] == c[i - |a| - |b|]
  {
  }

  /** The same for three parallel parts of the plan. */
  lemma PartsShow(saved: seq<SavedTab>, b: seq<TabId>, c: seq<TabId>, log: seq<Entry>, a: nat, e: Entry)
    requires a < |saved| + |b| + |c| && e in LiveOf(log, (TabIds(saved) + b + c)[a])
    requires a < |saved| ==> Shows(Saved(saved[a]), e.paneId)
    ensures Shows((SavedTabs(saved) + MadeTabs(b, log) + MadeTabs(c, log))[a], e.paneId)
  {
    ThreeParts(TabIds(saved), b, c, a);
    ThreeParts(SavedTabs(saved), MadeTabs(b, log), MadeTabs(c, log), a);
    if |saved| <= a < |saved| + |b| {
      MadeTabsShow(b, log, a - |saved|, e);
    } else if |saved| + |b| <= a {
      MadeTabsShow(c, log, a - |saved| - |b|, e);
    }
  }

  /** Every live session of the plan is in a pane that its tab shows. */
  lemma LivePaneIsShown(inp: Inputs, uuid: nat -> string, history: bool, a: nat, e: Entry)
    requires WellFormed(inp) && FreshIds(inp, uuid)
    requires var tabs := MakePlan(inp, uuid, history).tabs; a < |tabs| && e in tabs[a].live
    ensures var contents := PlanContents(inp, Placed(inp, uuid), history);
            |contents| == |MakePlan(inp, uuid, history).tabs| && Shows(contents[a], e.paneId)
  {
    var log := Placed(inp, uuid);
    var saved := if log != [] || history then Open(inp) else [];
    assert TabIds([]) == [] && SavedTabs([]) == [];
    LiveOfHas(log, PlanTabs(inp, log, history)[a]);
    if a < |saved| {
      assert PlanTabs(inp, log, history)[a] == saved[a].tabId;
      SavedShows(inp, uuid, a, e);
    }
    PartsShow(saved, ExtraTabs(log, InNewTab), ExtraTabs(log, InPluginTab), log, a, e);
  }

  // ---------------------------------------------------------------- the collections

  function AddTab(tabs: seq<TabId>, t: TabId): seq<TabId> {
    if t in tabs then tabs else tabs + [t]
  }

  /** The four collections hold exactly the log, each the entries of its place. */
  ghost predicate Split(live: map<TabId, seq<Entry>>, synthetic: seq<Entry>, orphans: map<TabId, seq<Entry>>,
                        tabs: seq<TabId>, log: seq<Entry>)
  {
    && Groups(live, log, InSavedTab)
    && synthetic == OfPlace(log, InNewTab)
    && Groups(orphans, log, InPluginTab)
    && tabs == ExtraTabs(log, InPluginTab)
  }

  lemma SavedSplit(live: map<TabId, seq<Entry>>, synthetic: seq<Entry>, orphans: map<TabId, seq<Entry>>,
                   tabs: seq<TabId>, log: seq<Entry>, e: Entry)
    requires Split(live, synthetic, orphans, tabs, log) && e.place.InSavedTab?
    ensures Split(Put(live, e), synthetic, orphans, tabs, log + [e])
  {
    GroupsThen(live, log, InSavedTab, e);
    LogThen(log, e, InNewTab, e.tabId);
    GroupsThen(orphans, log, InPluginTab, e);
    LogThen(log, e, InPluginTab, e.tabId);
  }

  lemma NewSplit(live: map<TabId, seq<Entry>>, synthetic: seq<Entry>, orphans: map<TabId, seq<Entry>>,
                 tabs: seq<TabId>, log: seq<Entry>, e: Entry)
    requires Split(live, synthetic, orphans, tabs, log) && e.place.InNewTab?
    ensures Split(live, synthetic + [e], orphans, tabs, log + [e])
  {
    GroupsThen(live, log, InSavedTab, e);
    LogThen(log, e, InNewTab, e.tabId);
    GroupsThen(orphans, log, InPluginTab, e);
    LogThen(log, e, InPluginTab, e.tabId);
  }

  lemma PluginSplit(live: map<TabId, seq<Entry>>, synthetic: seq<Entry>, orphans: map<TabId, seq<Entry>>,
                    tabs: seq<TabId>, log: seq<Entry>, e: Entry)
    requires Split(live, synthetic, orphans, tabs, log) && e.place.InPluginTab?
    ensures Split(live, synthetic, Put(orphans, e), AddTab(tabs, e.tabId), log + [e])
  {
    GroupsThen(live, log, InSavedTab, e);
    LogThen(log, e, InNewTab, e.tabId);
    GroupsThen(orphans, log, InPluginTab, e);
    LogThen(log, e, InPluginTab, e.tabId);
  }

  lemma GroupedPart(m: map<TabId, seq<Entry>>, log: seq<Entry>, place: Place, t: TabId)
    requires Groups(m, log, place)
    ensures Part(log, place, t) == if t in m then m[t] else []
    ensures t in m ==> m[t] != []
  {
    assert GroupedAt(m, log, place, t);
  }

  // ---------------------------------------------------------------- the planner

  class WorkspaceRestorePlanner {
    var live: map<TabId, seq<Entry>>
    var synthetic: seq<Entry>
    var unusedTelnetPanes: set<PaneId>
    var pluginOrphans: map<TabId, seq<Entry>>
    // The keys of `pluginOrphans` in the order in which they were added.
    var pluginTabs: seq<TabId>
    var idsDrawn: nat
    ghost var log: seq<Entry>

    ghost predicate Valid()
      reads this
    {
      Split(live, synthetic, pluginOrphans, pluginTabs, log)
    }

    ghost function View(): Planner
      reads this
    {
      Planner(log, unusedTelnetPanes, idsDrawn)
    }

    constructor (inp: Inputs)
      ensures Valid() && View() == Begin(inp)
    {
      live, synthetic, pluginOrphans, pluginTabs, idsDrawn, log := map[], [], map[], [], 0, [];
      unusedTelnetPanes := TelnetPanes(PanesOf(Open(inp)));
    }

    method Assign(e: Entry)
      requires Valid() && e.place.InSavedTab?
      modifies this`live, this`log
      ensures Valid() && log == old(log) + [e]
    {
      SavedSplit(live, synthetic, pluginOrphans, pluginTabs, log, e);
      live := Put(live, e);
      log := log + [e];
    }

    method AdoptOrphan(inp: Inputs, uuid: nat -> string, id: Identity)
      requires Valid()
      modifies this`synthetic, this`log, this`idsDrawn
      ensures Valid() && View() == old(Adopt(inp, uuid, View(), id))
    {
      if !Uncertain(inp.registry) {
        var e := Entry(InNewTab, uuid(idsDrawn + 1), uuid(idsDrawn), id);
        NewSplit(live, synthetic, pluginOrphans, pluginTabs, log, e);
        synthetic := synthetic + [e];
        log := log + [e];
        idsDrawn := idsDrawn + 2;
      }
    }

    method AttachSession(inp: Inputs, uuid: nat -> string, s: AttachedSession)
      requires Valid()
      modifies this`live, this`synthetic, this`log, this`idsDrawn
      ensures Valid() && View() == old(AttachOne(inp, uuid, View(), s))
    {
      if Owned(inp, s) {
        return;
      }
      var view := FirstOpenView(Open(inp), s.views);
      if view.Some? && TabOfPane(Open(inp), view.value).Some? {
        Assign(Entry(InSavedTab, TabOfPane(Open(inp), view.value).value, view.value, s.identity));
      } else {
        AdoptOrphan(inp, uuid, s.identity);
      }
    }

    method AttachSessions(inp: Inputs, uuid: nat -> string)
      requires Valid() && View() == Begin(inp)
      modifies this`live, this`synthetic, this`log, this`idsDrawn
      ensures Valid() && View() == AttachAll(inp, uuid, |inp.attached|)
    {
      for n := 0 to |inp.attached|
        invariant Valid() && View() == AttachAll(inp, uuid, n)
      {
        AttachSession(inp, uuid, inp.attached[n]);
      }
    }

    method MatchTelnet(inp: Inputs, uuid: nat -> string, s: TelnetSession)
      requires Valid()
      modifies this`live, this`synthetic, this`log, this`idsDrawn, this`unusedTelnetPanes
      ensures Valid() && View() == old(TelnetOne(inp, uuid, View(), s))
    {
      if s.identity in Claimed(inp.registry) {
        return;
      }
      var pane := FindTelnet(PanesOf(Open(inp)), unusedTelnetPanes, s.endpoint);
      if pane.Some? && TabOfPane(Open(inp), pane.value).Some? {
        unusedTelnetPanes := unusedTelnetPanes - {pane.value};
        Assign(Entry(InSavedTab, TabOfPane(Open(inp), pane.value).value, pane.value, s.identity));
      } else {
        AdoptOrphan(inp, uuid, s.identity);
      }
    }

    method MatchTelnetSessions(inp: Inputs, uuid: nat -> string)
      requires Valid() && View() == AttachAll(inp, uuid, |inp.attached|)
      modifies this`live, this`synthetic, this`log, this`idsDrawn, this`unusedTelnetPanes
      ensures Valid() && View() == TelnetAll(inp, uuid, |inp.telnet|)
    {
      for n := 0 to |inp.telnet|
        invariant Valid() && View() == TelnetAll(inp, uuid, n)
      {
        MatchTelnet(inp, uuid, inp.telnet[n]);
      }
    }

    method KeepPluginOrphan(e: Entry)
      requires Valid() && e.place.InPluginTab?
      modifies this`pluginOrphans, this`pluginTabs, this`log
      ensures Valid() && log == old(log) + [e]
    {
      PluginSplit(live, synthetic, pluginOrphans, pluginTabs, log, e);
      pluginTabs := AddTab(pluginTabs, e.tabId);
      pluginOrphans := Put(pluginOrphans, e);
      log := log + [e];
    }

    method CollectPluginSessions(inp: Inputs, uuid: nat -> string)
      requires Valid() && View() == TelnetAll(inp, uuid, |inp.telnet|)
      modifies this`live, this`pluginOrphans, this`pluginTabs, this`log
      ensures Valid() && View() == PluginAll(inp, uuid, |inp.plugin|)
    {
      for n := 0 to |inp.plugin|
        invariant Valid() && View() == PluginAll(inp, uuid, n)
      {
        var s := inp.plugin[n];
        var place := PluginPlace(inp, s);
        if place == Some(InSavedTab) {
          Assign(Entry(InSavedTab, s.tabId, s.paneId, s.identity));
        } else if place.Some? {
          KeepPluginOrphan(Entry(InPluginTab, s.tabId, s.paneId, s.identity));
        }
      }
    }

    lemma LiveExactly()
      requires Valid()
      ensures live != map[] || synthetic != [] || pluginTabs != [] <==> log != []
    {
      if log != [] {
        var e := log[|log| - 1];
        assert log == log[..|log| - 1] + [e];
        LogThen(log[..|log| - 1], e, e.place, e.tabId);
        GroupedPart(live, log, InSavedTab, e.tabId);
        ExtraTabsMean(log, InPluginTab);
      }
      if t :| t in live {
        GroupedPart(live, log, InSavedTab, t);
      }
    }

    /** Builds the tabs for sessions that no saved pane can take. */
    method MakeTabs(seeds: seq<Seed>) returns (contents: seq<Contents>)
      ensures contents == TabsFor(seeds)
    {
      contents := [];
      for n := 0 to |seeds|
        invariant contents == TabsFor(seeds)[..n]
      {
        var panes := LivePanes(seeds[n].live);
        var tab := Made(None, None, []);
        if panes != [] {
          var layout := L.SideBySide(panes);
          tab := Made(Some(layout), Some(panes[0]), panes);
        }
        contents := contents + [tab];
      }
    }

    method RestoredSeeds(inp: Inputs, uuid: nat -> string, autoReconnect: bool) returns (seeds: seq<Seed>)
      requires Valid() && AllGrounded(inp, uuid, View()) && WellFormed(inp) && FreshIds(inp, uuid)
      ensures seeds == SeedsFor(TabIds(Open(inp)), log, autoReconnect)
    {
      var tabs := Open(inp);
      seeds := [];
      for n := 0 to |tabs|
        invariant seeds == SeedsFor(TabIds(tabs)[..n], log, autoReconnect)
      {
        var t := tabs[n].tabId;
        assert TabIds(tabs)[n] == t;
        SeedsNext(TabIds(tabs), n, log, autoReconnect);
        PartOfSaved(inp, uuid, View(), t);
        GroupedPart(live, log, InSavedTab, t);
        seeds := seeds + [Seed(t, autoReconnect, if t in live then live[t] else [])];
      }
      assert TabIds(tabs)[..|tabs|] == TabIds(tabs);
    }

    method NewTabSeeds(inp: Inputs, uuid: nat -> string) returns (seeds: seq<Seed>)
      requires Valid() && View() == PluginAll(inp, uuid, |inp.plugin|) && WellFormed(inp) && FreshIds(inp, uuid)
      ensures seeds == SeedsFor(ExtraTabs(log, InNewTab), log, false)
    {
      PluginOneEach(inp, uuid, |inp.plugin|);
      ghost var ids := TabsOf(synthetic);
      seeds := [];
      for n := 0 to |synthetic|
        invariant seeds == SeedsFor(ids[..n], log, false)
      {
        SeedsNext(ids, n, log, false);
        NewTabHoldsOne(inp, uuid, n);
        seeds := seeds + [Seed(synthetic[n].tabId, false, [synthetic[n]])];
      }
      assert ids[..|synthetic|] == ids;
    }

    method PluginTabSeeds(inp: Inputs, uuid: nat -> string) returns (seeds: seq<Seed>)
      requires Valid() && AllGrounded(inp, uuid, View()) && WellFormed(inp) && FreshIds(inp, uuid)
      ensures seeds == SeedsFor(ExtraTabs(log, InPluginTab), log, false)
    {
      seeds := [];
      for n := 0 to |pluginTabs|
        invariant seeds == SeedsFor(pluginTabs[..n], log, false)
      {
        var t := pluginTabs[n];
        SeedsNext(pluginTabs, n, log, false);
        PartOfExtra(inp, uuid, View(), InPluginTab, t);
        GroupedPart(pluginOrphans, log, InPluginTab, t);
        seeds := seeds + [Seed(t, false, if t in pluginOrphans then pluginOrphans[t] else [])];
      }
      assert pluginTabs[..|pluginTabs|] == pluginTabs;
    }

    /** The saved tabs, then the new tabs, then the tabs of plugin sessions. */
    method Seeds(inp: Inputs, uuid: nat -> string, restoreHistory: bool)
      returns (seeds: seq<Seed>, contents: seq<Contents>)
      requires Valid() && View() == PluginAll(inp, uuid, |inp.plugin|)
      requires WellFormed(inp) && FreshIds(inp, uuid)
      ensures seeds == MakePlan(inp, uuid, restoreHistory).tabs
      ensures contents == PlanContents(inp, Placed(inp, uuid), restoreHistory)
    {
      PluginGrounds(inp, uuid, |inp.plugin|);
      LiveExactly();
      var hasLive := live != map[] || synthetic != [] || pluginTabs != [];
      var restored, kept := [], [];
      if hasLive || restoreHistory {
        restored := RestoredSeeds(inp, uuid, !hasLive && restoreHistory);
        kept := SavedTabs(Open(inp));
      }
      var added := NewTabSeeds(inp, uuid);
      var grouped := PluginTabSeeds(inp, uuid);
      var made := MakeTabs(added);
      var adopted := MakeTabs(grouped);
      seeds, contents := restored + added + grouped, kept + made + adopted;
      SeedsOfPlan(inp, log, restoreHistory);
      TabsOfSeeds(ExtraTabs(log, InNewTab), log);
      TabsOfSeeds(ExtraTabs(log, InPluginTab), log);
    }
  }
}
