/**
 The plan that restores the terminal workspace at start: which tabs are opened, and which live
 sessions their panes attach to. Sessions are handled one after another; every session that gets a
 place adds one entry to the log, and the plan is read off the log.
 */
module RestorePlan {
  import opened Basics

  type TabId = string
  type PaneId = string

  datatype Kind = Ssh | Local | Telnet | Plugin

  datatype Identity = Identity(kind: Kind, sessionId: string, generation: string)

  datatype Endpoint = Endpoint(address: string, port: nat)

  datatype SavedPane = SavedPane(paneId: PaneId, telnet: Option<Endpoint>)

  datatype SavedTab = SavedTab(tabId: TabId, panes: seq<SavedPane>)

  /** A tab the core registers already; a pane may have no session yet. */
  datatype RegisteredTab = RegisteredTab(tabId: TabId, panes: seq<Option<Identity>>)

  datatype AttachedSession = AttachedSession(identity: Identity, views: seq<PaneId>)

  datatype TelnetSession = TelnetSession(identity: Identity, endpoint: Endpoint)

  datatype PluginSession = PluginSession(identity: Identity, tabId: TabId, paneId: PaneId)

  /** Everything the planner reads; sessions that are over are filtered out before. */
  datatype Inputs = Inputs(
    registry: seq<RegisteredTab>,
    saved: seq<SavedTab>,
    activeTabId: Option<TabId>,
    attached: seq<AttachedSession>,
    telnet: seq<TelnetSession>,
    plugin: seq<PluginSession>)

  // ---------------------------------------------------------------- what the registry says

  function RegisteredIds(registry: seq<RegisteredTab>): set<TabId> {
    set i | 0 <= i < |registry| :: registry[i].tabId
  }

  function Claimed(registry: seq<RegisteredTab>): set<Identity> {
    set i, j | 0 <= i < |registry| && 0 <= j < |registry[i].panes| && registry[i].panes[j].Some? ::
      registry[i].panes[j].value
  }

  /** Some registered tab shows no session, so it may own one that is not written yet. */
  predicate Uncertain(registry: seq<RegisteredTab>) {
    exists i :: 0 <= i < |registry| && forall j :: 0 <= j < |registry[i].panes| ==> registry[i].panes[j].None?
  }

  function Candidates(saved: seq<SavedTab>, registered: set<TabId>): seq<SavedTab> {
    if saved == [] then []
    else (if saved[0].tabId in registered then [] else [saved[0]]) + Candidates(saved[1..], registered)
  }

  predicate HasPane(tab: SavedTab, paneId: PaneId) {
    exists j :: 0 <= j < |tab.panes| && tab.panes[j].paneId == paneId
  }

  function TabOfPane(tabs: seq<SavedTab>, paneId: PaneId): Option<TabId> {
    if tabs == [] then None
    else if HasPane(tabs[0], paneId) then Some(tabs[0].tabId)
    else TabOfPane(tabs[1..], paneId)
  }

  predicate InRegisteredTab(inp: Inputs, paneId: PaneId) {
    exists i :: 0 <= i < |inp.saved| && inp.saved[i].tabId in RegisteredIds(inp.registry)
      && HasPane(inp.saved[i], paneId)
  }

  function Open(inp: Inputs): seq<SavedTab> {
    Candidates(inp.saved, RegisteredIds(inp.registry))
  }

  predicate IsSaved(inp: Inputs, tabId: TabId) {
    exists i :: 0 <= i < |inp.saved| && inp.saved[i].tabId == tabId
  }

  // ---------------------------------------------------------------- placing sessions

  datatype Place = InSavedTab | InNewTab | InPluginTab

  datatype Entry = Entry(place: Place, tabId: TabId, paneId: PaneId, identity: Identity)

  datatype Planner = Planner(log: seq<Entry>, unused: set<PaneId>, next: nat)

  /** The ids drawn so far come from `uuid`; an adopted session draws one for its pane and one for its tab. */
  function Adopt(inp: Inputs, uuid: nat -> string, st: Planner, id: Identity): Planner {
    if Uncertain(inp.registry) then st
    else st.(log := st.log + [Entry(InNewTab, uuid(st.next + 1), uuid(st.next), id)], next := st.next + 2)
  }

  function FirstOpenView(tabs: seq<SavedTab>, views: seq<PaneId>): Option<PaneId> {
    if views == [] then None
    else if TabOfPane(tabs, views[0]).Some? then Some(views[0])
    else FirstOpenView(tabs, views[1..])
  }

  /** A registered tab claims the session or shows one of its views. */
  predicate Owned(inp: Inputs, s: AttachedSession) {
    s.identity in Claimed(inp.registry) || exists i :: 0 <= i < |s.views| && InRegisteredTab(inp, s.views[i])
  }

  function AttachOne(inp: Inputs, uuid: nat -> string, st: Planner, s: AttachedSession): Planner {
    if Owned(inp, s) then st
    else
      var view := FirstOpenView(Open(inp), s.views);
      if view.Some? && TabOfPane(Open(inp), view.value).Some? then
        st.(log := st.log + [Entry(InSavedTab, TabOfPane(Open(inp), view.value).value, view.value, s.identity)])
      else Adopt(inp, uuid, st, s.identity)
  }

  function PanesOf(tabs: seq<SavedTab>): seq<SavedPane> {
    if tabs == [] then [] else tabs[0].panes + PanesOf(tabs[1..])
  }

  /** The first unused saved pane for this endpoint. */
  function FindTelnet(panes: seq<SavedPane>, unused: set<PaneId>, endpoint: Endpoint): Option<PaneId> {
    if panes == [] then None
    else if panes[0].telnet == Some(endpoint) && panes[0].paneId in unused then Some(panes[0].paneId)
    else FindTelnet(panes[1..], unused, endpoint)
  }

  function TelnetOne(inp: Inputs, uuid: nat -> string, st: Planner, s: TelnetSession): Planner {
    if s.identity in Claimed(inp.registry) then st
    else
      var pane := FindTelnet(PanesOf(Open(inp)), st.unused, s.endpoint);
      if pane.Some? && TabOfPane(Open(inp), pane.value).Some? then
        st.(unused := st.unused - {pane.value},
            log := st.log + [Entry(InSavedTab, TabOfPane(Open(inp), pane.value).value, pane.value, s.identity)])
      else Adopt(inp, uuid, st, s.identity)
  }

  /** Where a plugin session goes: back to its own pane, or into a tab of its own. */
  function PluginPlace(inp: Inputs, s: PluginSession): Option<Place> {
    if s.tabId in RegisteredIds(inp.registry) then None
    else if TabOfPane(Open(inp), s.paneId) == Some(s.tabId) then Some(InSavedTab)
    else if !Uncertain(inp.registry) && !IsSaved(inp, s.tabId) then Some(InPluginTab)
    else None
  }

  function PluginOne(inp: Inputs, st: Planner, s: PluginSession): Planner {
    var place := PluginPlace(inp, s);
    if place.None? then st
    else st.(log := st.log + [Entry(place.value, s.tabId, s.paneId, s.identity)])
  }

  function TelnetPanes(panes: seq<SavedPane>): set<PaneId> {
    set i | 0 <= i < |panes| && panes[i].telnet.Some? :: panes[i].paneId
  }

  function Begin(inp: Inputs): Planner {
    Planner([], TelnetPanes(PanesOf(Open(inp))), 0)
  }

  function AttachAll(inp: Inputs, uuid: nat -> string, n: nat): Planner
    requires n <= |inp.attached|
  {
    if n == 0 then Begin(inp) else AttachOne(inp, uuid, AttachAll(inp, uuid, n - 1), inp.attached[n - 1])
  }

  function TelnetAll(inp: Inputs, uuid: nat -> string, n: nat): Planner
    requires n <= |inp.telnet|
  {
    if n == 0 then AttachAll(inp, uuid, |inp.attached|)
    else TelnetOne(inp, uuid, TelnetAll(inp, uuid, n - 1), inp.telnet[n - 1])
  }

  function PluginAll(inp: Inputs, uuid: nat -> string, n: nat): Planner
    requires n <= |inp.plugin|
  {
    if n == 0 then TelnetAll(inp, uuid, |inp.telnet|)
    else PluginOne(inp, PluginAll(inp, uuid, n - 1), inp.plugin[n - 1])
  }

  function Placed(inp: Inputs, uuid: nat -> string): seq<Entry> {
    PluginAll(inp, uuid, |inp.plugin|).log
  }

  // ---------------------------------------------------------------- the plan

  datatype Seed = Seed(tabId: TabId, autoReconnect: bool, live: seq<Entry>)

  datatype Plan = Plan(activeTabId: Option<TabId>, tabs: seq<Seed>)

  function LiveOf(log: seq<Entry>, tabId: TabId): seq<Entry> {
    if log == [] then []
    else
      var last := log[|log| - 1];
      LiveOf(log[..|log| - 1], tabId) + if last.tabId == tabId then [last] else []
  }

  /** The tabs that are not saved ones, in the order in which they were first needed. */
  function ExtraTabs(log: seq<Entry>, place: Place): seq<TabId> {
    if log == [] then []
    else
      var init, last := ExtraTabs(log[..|log| - 1], place), log[|log| - 1];
      if last.place == place && last.tabId !in init then init + [last.tabId] else init
  }

  function TabIds(tabs: seq<SavedTab>): seq<TabId> {
    seq(|tabs|, i requires 0 <= i < |tabs| => tabs[i].tabId)
  }

  function PlanTabs(inp: Inputs, log: seq<Entry>, restoreHistory: bool): seq<TabId> {
    (if log != [] || restoreHistory then TabIds(Open(inp)) else [])
    + ExtraTabs(log, InNewTab) + ExtraTabs(log, InPluginTab)
  }

  function MakePlan(inp: Inputs, uuid: nat -> string, restoreHistory: bool): Plan {
    var log := Placed(inp, uuid);
    var ids := PlanTabs(inp, log, restoreHistory);
    Plan(if inp.activeTabId.Some? && inp.activeTabId.value in ids then inp.activeTabId
         else if ids == [] then None else Some(ids[0]),
         seq(|ids|, i requires 0 <= i < |ids| =>
           Seed(ids[i], log == [] && restoreHistory, LiveOf(log, ids[i]))))
  }

  // ---------------------------------------------------------------- assumptions on the inputs

  predicate Distinct<T(==)>(s: seq<T>) {
    forall i, j | 0 <= i < j < |s| :: s[i] != s[j]
  }

  function PaneIds(panes: seq<SavedPane>): seq<PaneId> {
    seq(|panes|, i requires 0 <= i < |panes| => panes[i].paneId)
  }

  /** What the parser of the saved layout ensures. */
  ghost predicate WellFormed(inp: Inputs) {
    Distinct(TabIds(inp.saved)) && Distinct(PaneIds(PanesOf(inp.saved)))
  }

  function Sessions(inp: Inputs): seq<Identity> {
    seq(|inp.attached|, i requires 0 <= i < |inp.attached| => inp.attached[i].identity)
    + seq(|inp.telnet|, i requires 0 <= i < |inp.telnet| => inp.telnet[i].identity)
    + seq(|inp.plugin|, i requires 0 <= i < |inp.plugin| => inp.plugin[i].identity)
  }

  /** New ids are new: never repeated, and never one that is already in use. */
  ghost predicate FreshIds(inp: Inputs, uuid: nat -> string) {
    && (forall i: nat, j: nat | i != j :: uuid(i) != uuid(j))
    && (forall i: nat :: uuid(i) !in RegisteredIds(inp.registry) && !IsSaved(inp, uuid(i)))
    && (forall i: nat, k | 0 <= k < |inp.plugin| :: uuid(i) != inp.plugin[k].tabId)
  }

  // ---------------------------------------------------------------- no session is placed twice

  function Identities(log: seq<Entry>): seq<Identity> {
    seq(|log|, i requires 0 <= i < |log| => log[i].identity)
  }

  /** The log holds each of the first `n` sessions at most once. */
  ghost predicate UpTo(log: seq<Entry>, sessions: seq<Identity>, n: nat)
    requires n <= |sessions|
  {
    Distinct(Identities(log)) && forall id | id in Identities(log) :: id in sessions[..n]
  }

  lemma OneMore(log: seq<Entry>, log': seq<Entry>, sessions: seq<Identity>, n: nat)
    requires n < |sessions| && Distinct(sessions) && UpTo(log, sessions, n)
    requires log' == log || (exists e: Entry :: e.identity == sessions[n] && log' == log + [e])
    ensures UpTo(log', sessions, n + 1)
  {
    assert sessions[..n + 1] == sessions[..n] + [sessions[n]];
    assert sessions[n] !in sessions[..n];
    if log' != log {
      var e: Entry :| e.identity == sessions[n] && log' == log + [e];
      IdentitiesThen(log, e);
    }
  }

  lemma IdentitiesThen(log: seq<Entry>, e: Entry)
    ensures Identities(log + [e]) == Identities(log) + [e.identity]
    ensures Distinct(Identities(log)) && e.identity !in Identities(log) ==> Distinct(Identities(log + [e]))
    ensures Distinct(Identities(log + [e])) ==> Distinct(Identities(log)) && e.identity !in Identities(log)
  {
    var ids := Identities(log);
    assert Identities(log + [e]) == ids + [e.identity];
    if Distinct(ids + [e.identity]) {
      forall i, j | 0 <= i < j < |ids|
        ensures ids[i] != ids[j]
      {
        assert (ids + [e.identity])[i] != (ids + [e.identity])[j];
      }
      forall i | 0 <= i < |ids|
        ensures ids[i] != e.identity
      {
        assert (ids + [e.identity])[i] != (ids + [e.identity])[|ids|];
      }
    }
  }

  lemma InLog(log: seq<Entry>, e: Entry)
    requires e in log
    ensures e.identity in Identities(log)
  {
    var i :| 0 <= i < |log| && log[i] == e;
    assert Identities(log)[i] == e.identity;
  }

  lemma {:induction false} AttachUpTo(inp: Inputs, uuid: nat -> string, n: nat)
    requires Distinct(Sessions(inp)) && n <= |inp.attached|
    ensures UpTo(AttachAll(inp, uuid, n).log, Sessions(inp), n)
  {
    if n > 0 {
      AttachUpTo(inp, uuid, n - 1);
      var st := AttachAll(inp, uuid, n - 1);
      var s := inp.attached[n - 1];
      assert Sessions(inp)[n - 1] == s.identity;
      AttachAppends(inp, uuid, st, s);
      OneMore(st.log, AttachAll(inp, uuid, n).log, Sessions(inp), n - 1);
    }
  }

  lemma AttachAppends(inp: Inputs, uuid: nat -> string, st: Planner, s: AttachedSession)
    ensures var log := AttachOne(inp, uuid, st, s).log;
            log == st.log || exists e: Entry :: e.identity == s.identity && log == st.log + [e]
  {
  }

  lemma TelnetAppends(inp: Inputs, uuid: nat -> string, st: Planner, s: TelnetSession)
    ensures var log := TelnetOne(inp, uuid, st, s).log;
            log == st.log || exists e: Entry :: e.identity == s.identity && log == st.log + [e]
  {
  }

  lemma {:induction false} TelnetUpTo(inp: Inputs, uuid: nat -> string, n: nat)
    requires Distinct(Sessions(inp)) && n <= |inp.telnet|
    ensures UpTo(TelnetAll(inp, uuid, n).log, Sessions(inp), |inp.attached| + n)
  {
    if n == 0 {
      AttachUpTo(inp, uuid, |inp.attached|);
    } else {
      TelnetUpTo(inp, uuid, n - 1);
      var st := TelnetAll(inp, uuid, n - 1);
      var s := inp.telnet[n - 1];
      assert Sessions(inp)[|inp.attached| + n - 1] == s.identity;
      TelnetAppends(inp, uuid, st, s);
      OneMore(st.log, TelnetAll(inp, uuid, n).log, Sessions(inp), |inp.attached| + n - 1);
    }
  }

  lemma {:induction false} PluginUpTo(inp: Inputs, uuid: nat -> string, n: nat)
    requires Distinct(Sessions(inp)) && n <= |inp.plugin|
    ensures UpTo(PluginAll(inp, uuid, n).log, Sessions(inp), |inp.attached| + |inp.telnet| + n)
  {
    if n == 0 {
      TelnetUpTo(inp, uuid, |inp.telnet|);
    } else {
      PluginUpTo(inp, uuid, n - 1);
      var st := PluginAll(inp, uuid, n - 1);
      var s := inp.plugin[n - 1];
      assert Sessions(inp)[|inp.attached| + |inp.telnet| + n - 1] == s.identity;
      OneMore(st.log, PluginAll(inp, uuid, n).log, Sessions(inp), |inp.attached| + |inp.telnet| + n - 1);
    }
  }

  lemma {:induction false} LiveOfHas(log: seq<Entry>, tabId: TabId)
    ensures forall e :: e in LiveOf(log, tabId) <==> e in log && e.tabId == tabId
  {
    if log != [] {
      LiveOfHas(log[..|log| - 1], tabId);
      assert log == log[..|log| - 1] + [log[|log| - 1]];
    }
  }

  lemma {:induction false} LiveOfMeans(log: seq<Entry>, tabId: TabId)
    requires Distinct(Identities(log))
    ensures Distinct(Identities(LiveOf(log, tabId)))
    ensures forall e :: e in LiveOf(log, tabId) <==> e in log && e.tabId == tabId
  {
    LiveOfHas(log, tabId);
    if log != [] {
      var init, last := log[..|log| - 1], log[|log| - 1];
      assert log == init + [last];
      IdentitiesThen(init, last);
      LiveOfMeans(init, tabId);
      var before := LiveOf(init, tabId);
      NotTwice(init, before, last.identity);
      IdentitiesThen(before, last);
      assert before + [] == before;
    }
  }

  lemma NotTwice(log: seq<Entry>, part: seq<Entry>, id: Identity)
    requires forall e | e in part :: e in log
    requires id !in Identities(log)
    ensures id !in Identities(part)
  {
    forall i | 0 <= i < |part|
      ensures part[i].identity != id
    {
      assert part[i] in part;
      InLog(log, part[i]);
    }
  }

  lemma SameIdentitySameEntry(log: seq<Entry>, d: Entry, e: Entry)
    requires Distinct(Identities(log)) && d in log && e in log && d.identity == e.identity
    ensures d == e
  {
    var i :| 0 <= i < |log| && log[i] == d;
    var j :| 0 <= j < |log| && log[j] == e;
    assert Identities(log)[i] == Identities(log)[j];
  }

  /** In the whole plan, over all its tabs, no live session occurs twice. */
  lemma NoSessionTwice(inp: Inputs, uuid: nat -> string, history: bool, a: nat, i: nat, b: nat, j: nat)
    requires WellFormed(inp) && Distinct(Sessions(inp)) && FreshIds(inp, uuid)
    requires var tabs := MakePlan(inp, uuid, history).tabs;
             a < |tabs| && b < |tabs| && i < |tabs[a].live| && j < |tabs[b].live|
             && tabs[a].live[i].identity == tabs[b].live[j].identity
    ensures a == b && i == j
  {
    var log := Placed(inp, uuid);
    var ids := PlanTabs(inp, log, history);
    PluginUpTo(inp, uuid, |inp.plugin|);
    LiveOfMeans(log, ids[a]);
    LiveOfMeans(log, ids[b]);
    var d, e := LiveOf(log, ids[a])[i], LiveOf(log, ids[b])[j];
    assert d in LiveOf(log, ids[a]) && e in LiveOf(log, ids[b]);
    SameIdentitySameEntry(log, d, e);
    TabIdsAreDistinct(inp, uuid, history);
    assert ids[a] == ids[b];
    assert a == b;
    assert Identities(LiveOf(log, ids[a]))[i] == Identities(LiveOf(log, ids[a]))[j];
  }

  // ---------------------------------------------------------------- tab ids

  /** Where the tab of an entry comes from. */
  ghost predicate Grounded(inp: Inputs, uuid: nat -> string, e: Entry, next: nat) {
    match e.place
    case InSavedTab => e.tabId in TabIds(Open(inp))
    case InNewTab => exists k: nat :: k < next && e.tabId == uuid(k)
    case InPluginTab =>
      e.tabId !in RegisteredIds(inp.registry) && !IsSaved(inp, e.tabId)
      && exists k :: 0 <= k < |inp.plugin| && inp.plugin[k].tabId == e.tabId
  }

  ghost predicate AllGrounded(inp: Inputs, uuid: nat -> string, st: Planner) {
    forall e | e in st.log :: Grounded(inp, uuid, e, st.next)
  }

  lemma {:induction false} TabOfPaneIsOpen(tabs: seq<SavedTab>, paneId: PaneId)
    requires TabOfPane(tabs, paneId).Some?
    ensures TabOfPane(tabs, paneId).value in TabIds(tabs)
  {
    if !HasPane(tabs[0], paneId) {
      TabOfPaneIsOpen(tabs[1..], paneId);
      assert TabIds(tabs) == [tabs[0].tabId] + TabIds(tabs[1..]);
    } else {
      assert TabIds(tabs)[0] == tabs[0].tabId;
    }
  }

  lemma AdoptGrounds(inp: Inputs, uuid: nat -> string, st: Planner, id: Identity)
    requires AllGrounded(inp, uuid, st)
    ensures AllGrounded(inp, uuid, Adopt(inp, uuid, st, id))
  {
    var st' := Adopt(inp, uuid, st, id);
    forall e | e in st'.log
      ensures Grounded(inp, uuid, e, st'.next)
    {
      if e in st.log {
        assert Grounded(inp, uuid, e, st.next);
      }
    }
  }

  lemma {:induction false} AttachGrounds(inp: Inputs, uuid: nat -> string, n: nat)
    requires n <= |inp.attached|
    ensures AllGrounded(inp, uuid, AttachAll(inp, uuid, n))
  {
    if n > 0 {
      AttachGrounds(inp, uuid, n - 1);
      var st, s := AttachAll(inp, uuid, n - 1), inp.attached[n - 1];
      AdoptGrounds(inp, uuid, st, s.identity);
      var view := FirstOpenView(Open(inp), s.views);
      if view.Some? && TabOfPane(Open(inp), view.value).Some? {
        TabOfPaneIsOpen(Open(inp), view.value);
      }
    }
  }

  lemma {:induction false} TelnetGrounds(inp: Inputs, uuid: nat -> string, n: nat)
    requires n <= |inp.telnet|
    ensures AllGrounded(inp, uuid, TelnetAll(inp, uuid, n))
  {
    if n == 0 {
      AttachGrounds(inp, uuid, |inp.attached|);
    } else {
      TelnetGrounds(inp, uuid, n - 1);
      var st, s := TelnetAll(inp, uuid, n - 1), inp.telnet[n - 1];
      AdoptGrounds(inp, uuid, st, s.identity);
      var pane := FindTelnet(PanesOf(Open(inp)), st.unused, s.endpoint);
      if pane.Some? && TabOfPane(Open(inp), pane.value).Some? {
        TabOfPaneIsOpen(Open(inp), pane.value);
      }
    }
  }

  lemma {:induction false} PluginGrounds(inp: Inputs, uuid: nat -> string, n: nat)
    requires n <= |inp.plugin|
    ensures AllGrounded(inp, uuid, PluginAll(inp, uuid, n))
  {
    if n == 0 {
      TelnetGrounds(inp, uuid, |inp.telnet|);
    } else {
      PluginGrounds(inp, uuid, n - 1);
      var s := inp.plugin[n - 1];
      if TabOfPane(Open(inp), s.paneId).Some? {
        TabOfPaneIsOpen(Open(inp), s.paneId);
      }
    }
  }

  lemma {:induction false} ExtraTabsMean(log: seq<Entry>, place: Place)
    ensures Distinct(ExtraTabs(log, place))
    ensures forall t | t in ExtraTabs(log, place) :: exists e :: e in log && e.place == place && e.tabId == t
    ensures forall e | e in log && e.place == place :: e.tabId in ExtraTabs(log, place)
  {
    if log != [] {
      var init, last := log[..|log| - 1], log[|log| - 1];
      ExtraTabsMean(init, place);
      assert log == init + [last];
      forall t | t in ExtraTabs(log, place)
        ensures exists e :: e in log && e.place == place && e.tabId == t
      {
        if t in ExtraTabs(init, place) {
          var e :| e in init && e.place == place && e.tabId == t;
          assert e in log;
        } else {
          assert last in log;
        }
      }
    }
  }

  lemma {:induction false} OpenTabs(saved: seq<SavedTab>, registered: set<TabId>)
    requires Distinct(TabIds(saved))
    ensures Distinct(TabIds(Candidates(saved, registered)))
    ensures forall t | t in TabIds(Candidates(saved, registered)) :: t !in registered && t in TabIds(saved)
  {
    if saved != [] {
      var rest := saved[1..];
      assert TabIds(saved) == [saved[0].tabId] + TabIds(rest);
      forall i, j | 0 <= i < j < |rest|
        ensures TabIds(rest)[i] != TabIds(rest)[j]
      {
        assert TabIds(saved)[i + 1] != TabIds(saved)[j + 1];
      }
      OpenTabs(rest, registered);
      forall t | t in TabIds(rest)
        ensures t != saved[0].tabId
      {
        var i :| 0 <= i < |rest| && TabIds(rest)[i] == t;
        assert TabIds(saved)[0] != TabIds(saved)[i + 1];
      }
      if saved[0].tabId !in registered {
        assert TabIds(Candidates(saved, registered)) == [saved[0].tabId] + TabIds(Candidates(rest, registered));
      } else {
        assert Candidates(saved, registered) == Candidates(rest, registered);
      }
    }
  }

  lemma DistinctJoin(a: seq<TabId>, b: seq<TabId>)
    requires Distinct(a) && Distinct(b) && forall t | t in a :: t !in b
    ensures Distinct(a + b)
  {
    forall i, j | 0 <= i < j < |a + b|
      ensures (a + b)[i] != (a + b)[j]
    {
      if i < |a| <= j {
        assert a[i] in a && b[j - |a|] in b;
      }
    }
  }

  /** The tabs of the plan are pairwise different, and none of them is registered already. */
  lemma TabIdsAreDistinct(inp: Inputs, uuid: nat -> string, history: bool)
    requires WellFormed(inp) && FreshIds(inp, uuid)
    ensures var ids := PlanTabs(inp, Placed(inp, uuid), history);
            Distinct(ids) && forall t | t in ids :: t !in RegisteredIds(inp.registry)
  {
    var log := Placed(inp, uuid);
    var a := if log != [] || history then TabIds(Open(inp)) else [];
    var b, c := ExtraTabs(log, InNewTab), ExtraTabs(log, InPluginTab);
    OpenTabs(inp.saved, RegisteredIds(inp.registry));
    ExtraTabsMean(log, InNewTab);
    ExtraTabsMean(log, InPluginTab);
    PluginGrounds(inp, uuid, |inp.plugin|);
    forall t | t in b
      ensures exists k: nat :: t == uuid(k)
    {
      var e :| e in log && e.place == InNewTab && e.tabId == t;
      assert Grounded(inp, uuid, e, PluginAll(inp, uuid, |inp.plugin|).next);
    }
    forall t | t in c
      ensures t !in RegisteredIds(inp.registry) && !IsSaved(inp, t)
              && exists k :: 0 <= k < |inp.plugin| && inp.plugin[k].tabId == t
    {
      var e :| e in log && e.place == InPluginTab && e.tabId == t;
      assert Grounded(inp, uuid, e, PluginAll(inp, uuid, |inp.plugin|).next);
    }
    forall t | t in a
      ensures IsSaved(inp, t)
    {
      var i :| 0 <= i < |inp.saved| && TabIds(inp.saved)[i] == t;
      assert inp.saved[i].tabId == t;
    }
    DistinctJoin(a, b);
    DistinctJoin(a + b, c);
  }

  /** Nothing that was placed is lost: every entry is in the tab it names. */
  lemma PlacedIsInPlan(inp: Inputs, uuid: nat -> string, history: bool, e: Entry)
    requires e in Placed(inp, uuid)
    ensures var tabs := MakePlan(inp, uuid, history).tabs;
            exists a :: 0 <= a < |tabs| && tabs[a].tabId == e.tabId && e in tabs[a].live
  {
    var log := Placed(inp, uuid);
    var ids := PlanTabs(inp, log, history);
    PluginGrounds(inp, uuid, |inp.plugin|);
    assert Grounded(inp, uuid, e, PluginAll(inp, uuid, |inp.plugin|).next);
    ExtraTabsMean(log, InNewTab);
    ExtraTabsMean(log, InPluginTab);
    assert e.tabId in ids;
    var a :| 0 <= a < |ids| && ids[a] == e.tabId;
    LiveOfHas(log, e.tabId);
    var tabs := MakePlan(inp, uuid, history).tabs;
    assert tabs[a].tabId == e.tabId && e in tabs[a].live;
  }

  /** The plan has an active tab exactly when it has a tab, and it is one of them. */
  lemma ActiveTabIsPlanned(inp: Inputs, uuid: nat -> string, history: bool)
    ensures var plan := MakePlan(inp, uuid, history);
            && (plan.activeTabId.None? <==> plan.tabs == [])
            && (plan.activeTabId.Some? ==>
                  exists a :: 0 <= a < |plan.tabs| && plan.tabs[a].tabId == plan.activeTabId.value)
  {
    var plan := MakePlan(inp, uuid, history);
    var ids := PlanTabs(inp, Placed(inp, uuid), history);
    if plan.activeTabId.Some? {
      var a :| 0 <= a < |ids| && ids[a] == plan.activeTabId.value;
      assert plan.tabs[a].tabId == plan.activeTabId.value;
    }
  }

  // ---------------------------------------------------------------- which sessions get a place

  predicate AttachPlaced(inp: Inputs, s: AttachedSession) {
    && !Owned(inp, s)
    && ((exists i :: 0 <= i < |s.views| && TabOfPane(Open(inp), s.views[i]).Some?) || !Uncertain(inp.registry))
  }

  lemma {:induction false} FirstOpenViewMeans(tabs: seq<SavedTab>, views: seq<PaneId>)
    ensures FirstOpenView(tabs, views).Some? <==> exists i :: 0 <= i < |views| && TabOfPane(tabs, views[i]).Some?
    ensures FirstOpenView(tabs, views).Some? ==> TabOfPane(tabs, FirstOpenView(tabs, views).value).Some?
  {
    if views != [] {
      FirstOpenViewMeans(tabs, views[1..]);
      if i :| 0 <= i < |views| && TabOfPane(tabs, views[i]).Some? {
        assert i == 0 || views[1..][i - 1] == views[i];
      }
    }
  }

  lemma AttachStep(inp: Inputs, uuid: nat -> string, st: Planner, s: AttachedSession)
    ensures AttachPlaced(inp, s) <==> AttachOne(inp, uuid, st, s).log != st.log
  {
    FirstOpenViewMeans(Open(inp), s.views);
  }

  /** A step that appends an entry adds exactly its session to those placed. */
  lemma StepPlaces(log: seq<Entry>, log': seq<Entry>, id: Identity, other: Identity)
    requires log' == log || exists e: Entry :: e.identity == id && log' == log + [e]
    ensures other in Identities(log') <==> other in Identities(log) || (other == id && log' != log)
  {
    if log' != log {
      var e: Entry :| e.identity == id && log' == log + [e];
      IdentitiesThen(log, e);
    }
  }

  lemma {:induction false} AttachedSoFar(inp: Inputs, uuid: nat -> string, n: nat, id: Identity)
    requires n <= |inp.attached|
    ensures id in Identities(AttachAll(inp, uuid, n).log) <==>
            exists k :: 0 <= k < n && inp.attached[k].identity == id && AttachPlaced(inp, inp.attached[k])
  {
    if n > 0 {
      AttachedSoFar(inp, uuid, n - 1, id);
      var st, s := AttachAll(inp, uuid, n - 1), inp.attached[n - 1];
      AttachAppends(inp, uuid, st, s);
      AttachStep(inp, uuid, st, s);
      StepPlaces(st.log, AttachAll(inp, uuid, n).log, s.identity, id);
    }
  }

  lemma {:induction false} TelnetSoFar(inp: Inputs, uuid: nat -> string, n: nat, id: Identity)
    requires n <= |inp.telnet|
    ensures id in Identities(TelnetAll(inp, uuid, n).log) ==>
              || id in Identities(AttachAll(inp, uuid, |inp.attached|).log)
              || exists k :: 0 <= k < n && inp.telnet[k].identity == id && id !in Claimed(inp.registry)
    ensures id in Identities(AttachAll(inp, uuid, |inp.attached|).log) ==> id in Identities(TelnetAll(inp, uuid, n).log)
  {
    if n > 0 {
      TelnetSoFar(inp, uuid, n - 1, id);
      var st, s := TelnetAll(inp, uuid, n - 1), inp.telnet[n - 1];
      TelnetAppends(inp, uuid, st, s);
      StepPlaces(st.log, TelnetAll(inp, uuid, n).log, s.identity, id);
    }
  }

  lemma {:induction false} PluginSoFar(inp: Inputs, uuid: nat -> string, n: nat, id: Identity)
    requires n <= |inp.plugin|
    ensures id in Identities(PluginAll(inp, uuid, n).log) <==>
              || id in Identities(TelnetAll(inp, uuid, |inp.telnet|).log)
              || exists k :: 0 <= k < n && inp.plugin[k].identity == id && PluginPlace(inp, inp.plugin[k]).Some?
  {
    if n > 0 {
      PluginSoFar(inp, uuid, n - 1, id);
      var st, s := PluginAll(inp, uuid, n - 1), inp.plugin[n - 1];
      StepPlaces(st.log, PluginAll(inp, uuid, n).log, s.identity, id);
    }
  }

  /**
   A claimed session is placed exactly when it is a plugin session whose own tab is not registered,
   and whose pane is open or whose tab is unknown: plugin sessions are not compared with the claims.
   */
  lemma ClaimedIsPlacedExactly(inp: Inputs, uuid: nat -> string, id: Identity)
    requires id in Claimed(inp.registry)
    ensures id in Identities(Placed(inp, uuid)) <==>
            exists k :: 0 <= k < |inp.plugin| && inp.plugin[k].identity == id && PluginPlace(inp, inp.plugin[k]).Some?
  {
    PluginSoFar(inp, uuid, |inp.plugin|, id);
    TelnetSoFar(inp, uuid, |inp.telnet|, id);
    AttachedSoFar(inp, uuid, |inp.attached|, id);
  }

  /** A session with view attachments is placed exactly when no one owns it and there is a place. */
  lemma AttachedIsPlacedExactly(inp: Inputs, uuid: nat -> string, k: nat)
    requires Distinct(Sessions(inp)) && k < |inp.attached|
    ensures inp.attached[k].identity in Identities(Placed(inp, uuid)) <==> AttachPlaced(inp, inp.attached[k])
  {
    var id := inp.attached[k].identity;
    forall i | 0 <= i < |inp.attached| && i != k
      ensures inp.attached[i].identity != id
    {
      assert Sessions(inp)[i] != Sessions(inp)[k];
    }
    forall i | 0 <= i < |inp.telnet|
      ensures inp.telnet[i].identity != id
    {
      assert Sessions(inp)[k] != Sessions(inp)[|inp.attached| + i];
    }
    forall i | 0 <= i < |inp.plugin|
      ensures inp.plugin[i].identity != id
    {
      assert Sessions(inp)[k] != Sessions(inp)[|inp.attached| + |inp.telnet| + i];
    }
    PluginSoFar(inp, uuid, |inp.plugin|, id);
    TelnetSoFar(inp, uuid, |inp.telnet|, id);
    AttachedSoFar(inp, uuid, |inp.attached|, id);
  }

  /** One registered tab shows a plugin session that belongs to another, unregistered tab. */
  lemma ClaimedPluginSessionIsPlaced(uuid: nat -> string, id: Identity, tab: TabId, other: TabId, pane: PaneId)
    requires tab != other && id.kind.Plugin?
    ensures var inp := Inputs([RegisteredTab(other, [Some(id)])], [], None, [], [], [PluginSession(id, tab, pane)]);
            id in Claimed(inp.registry) && id in Identities(Placed(inp, uuid))
  {
    var inp := Inputs([RegisteredTab(other, [Some(id)])], [], None, [], [], [PluginSession(id, tab, pane)]);
    assert inp.registry[0].panes[0] == Some(id);
    assert RegisteredIds(inp.registry) == {other};
    assert PluginPlace(inp, inp.plugin[0]).Some?;
    ClaimedIsPlacedExactly(inp, uuid, id);
  }
}
