/**
 Telnet sessions have no view attachment, so the planner matches them to saved panes of the same
 endpoint, each pane once. The k-th unclaimed session of an endpoint gets its k-th saved pane, so the
 matching is as large as it can be for every endpoint.
 */
module TelnetMatching {
  import opened Basics
  import opened RestorePlan

  /** The panes that telnet sessions took, in order. */
  function Taken(log: seq<Entry>): seq<PaneId> {
    if log == [] then []
    else
      var last := log[|log| - 1];
      Taken(log[..|log| - 1]) + if last.identity.kind.Telnet? && last.place.InSavedTab? then [last.paneId] else []
  }

  function EndpointOf(panes: seq<SavedPane>, paneId: PaneId): Option<Endpoint> {
    if panes == [] then None
    else if panes[0].paneId == paneId then panes[0].telnet
    else EndpointOf(panes[1..], paneId)
  }

  /** Which of the taken panes are among these. */
  function PlacesIn(taken: seq<PaneId>, own: seq<PaneId>): set<int> {
    set i | 0 <= i < |taken| && taken[i] in own
  }

  /** How many of the taken panes are for this endpoint. */
  function TakenAt(taken: seq<PaneId>, panes: seq<SavedPane>, ep: Endpoint): nat {
    |PlacesIn(taken, PanesFor(panes, ep))|
  }

  function Supply(panes: seq<SavedPane>, ep: Endpoint): nat {
    if panes == [] then 0 else Supply(panes[1..], ep) + if panes[0].telnet == Some(ep) then 1 else 0
  }

  /** How many of the first `n` sessions ask for this endpoint and are not owned by anyone. */
  function Demand(inp: Inputs, n: nat, ep: Endpoint): nat
    requires n <= |inp.telnet|
  {
    if n == 0 then 0
    else
      var s := inp.telnet[n - 1];
      Demand(inp, n - 1, ep) + if s.identity !in Claimed(inp.registry) && s.endpoint == ep then 1 else 0
  }

  // ---------------------------------------------------------------- the panes of an endpoint

  lemma RestIsDistinct(panes: seq<SavedPane>)
    requires Distinct(PaneIds(panes)) && panes != []
    ensures Distinct(PaneIds(panes[1..])) && panes[0].paneId !in PaneIds(panes[1..])
    ensures PaneIds(panes) == [panes[0].paneId] + PaneIds(panes[1..])
  {
    var ids := PaneIds(panes);
    assert ids == [panes[0].paneId] + PaneIds(panes[1..]);
    forall i, j | 0 <= i < j < |panes| - 1
      ensures PaneIds(panes[1..])[i] != PaneIds(panes[1..])[j]
    {
      assert ids[i + 1] != ids[j + 1];
    }
    forall i | 0 <= i < |panes| - 1
      ensures PaneIds(panes[1..])[i] != panes[0].paneId
    {
      assert ids[0] != ids[i + 1];
    }
  }

  /** The saved panes of an endpoint, in order. */
  function PanesFor(panes: seq<SavedPane>, ep: Endpoint): seq<PaneId> {
    if panes == [] then []
    else (if panes[0].telnet == Some(ep) then [panes[0].paneId] else []) + PanesFor(panes[1..], ep)
  }

  lemma {:induction false} PanesForHas(panes: seq<SavedPane>, ep: Endpoint, p: PaneId)
    ensures p in PanesFor(panes, ep)
            <==> exists i :: 0 <= i < |panes| && panes[i].telnet == Some(ep) && panes[i].paneId == p
  {
    if panes != [] {
      PanesForHas(panes[1..], ep, p);
      if i :| 0 <= i < |panes| && panes[i].telnet == Some(ep) && panes[i].paneId == p {
        assert i > 0 ==> panes[1..][i - 1] == panes[i];
      }
    }
  }

  lemma PanesForIsKnown(panes: seq<SavedPane>, ep: Endpoint, p: PaneId)
    requires p in PanesFor(panes, ep)
    ensures p in PaneIds(panes) && p in TelnetPanes(panes)
  {
    PanesForHas(panes, ep, p);
    var i :| 0 <= i < |panes| && panes[i].telnet == Some(ep) && panes[i].paneId == p;
    assert PaneIds(panes)[i] == p;
  }

  lemma {:induction false} PanesForDistinct(panes: seq<SavedPane>, ep: Endpoint)
    requires Distinct(PaneIds(panes))
    ensures Distinct(PanesFor(panes, ep))
  {
    if panes != [] {
      RestIsDistinct(panes);
      PanesForDistinct(panes[1..], ep);
      if panes[0].paneId in PanesFor(panes[1..], ep) {
        PanesForIsKnown(panes[1..], ep, panes[0].paneId);
      }
    }
  }

  /** A pane has one endpoint. */
  lemma PanesForDisjoint(panes: seq<SavedPane>, ep: Endpoint, ep': Endpoint, p: PaneId)
    requires Distinct(PaneIds(panes)) && p in PanesFor(panes, ep) && p in PanesFor(panes, ep')
    ensures ep == ep'
  {
    PanesForHas(panes, ep, p);
    PanesForHas(panes, ep', p);
    var i :| 0 <= i < |panes| && panes[i].telnet == Some(ep) && panes[i].paneId == p;
    var j :| 0 <= j < |panes| && panes[j].telnet == Some(ep') && panes[j].paneId == p;
    assert PaneIds(panes)[i] == PaneIds(panes)[j];
  }

  lemma {:induction false} SupplyIsPanes(panes: seq<SavedPane>, ep: Endpoint)
    ensures Supply(panes, ep) == |PanesFor(panes, ep)|
  {
    if panes != [] {
      SupplyIsPanes(panes[1..], ep);
    }
  }

  lemma {:induction false} EndpointOfPane(panes: seq<SavedPane>, ep: Endpoint, p: PaneId)
    requires Distinct(PaneIds(panes)) && p in PanesFor(panes, ep)
    ensures EndpointOf(panes, p) == Some(ep)
  {
    RestIsDistinct(panes);
    if p in PanesFor(panes[1..], ep) {
      PanesForIsKnown(panes[1..], ep, p);
      EndpointOfPane(panes[1..], ep, p);
    }
  }

  // ---------------------------------------------------------------- panes of the open tabs

  lemma {:induction false} PaneHasTab(tabs: seq<SavedTab>, p: PaneId)
    requires p in PaneIds(PanesOf(tabs))
    ensures TabOfPane(tabs, p).Some?
  {
    var i :| 0 <= i < |PanesOf(tabs)| && PanesOf(tabs)[i].paneId == p;
    if i < |tabs[0].panes| {
      assert tabs[0].panes[i].paneId == p;
    } else {
      assert PanesOf(tabs[1..])[i - |tabs[0].panes|].paneId == p;
      assert PaneIds(PanesOf(tabs[1..]))[i - |tabs[0].panes|] == p;
      PaneHasTab(tabs[1..], p);
    }
  }

  lemma {:induction false} OpenPanes(saved: seq<SavedTab>, registered: set<TabId>)
    requires Distinct(PaneIds(PanesOf(saved)))
    ensures Distinct(PaneIds(PanesOf(Candidates(saved, registered))))
    ensures forall p | p in PaneIds(PanesOf(Candidates(saved, registered))) :: p in PaneIds(PanesOf(saved))
  {
    if saved != [] {
      var head, rest := saved[0].panes, saved[1..];
      PanesSplit(head, PanesOf(rest));
      OpenPanes(rest, registered);
      if saved[0].tabId in registered {
        assert Candidates(saved, registered) == Candidates(rest, registered);
      } else {
        assert Candidates(saved, registered) == [saved[0]] + Candidates(rest, registered);
        assert Candidates(saved, registered)[1..] == Candidates(rest, registered);
        PanesJoin(head, PanesOf(Candidates(rest, registered)));
      }
    }
  }

  lemma PanesSplit(a: seq<SavedPane>, b: seq<SavedPane>)
    requires Distinct(PaneIds(a + b))
    ensures Distinct(PaneIds(a)) && Distinct(PaneIds(b)) && forall p | p in PaneIds(a) :: p !in PaneIds(b)
    ensures forall p :: p in PaneIds(a + b) <==> p in PaneIds(a) || p in PaneIds(b)
  {
    var ids := PaneIds(a + b);
    assert ids == PaneIds(a) + PaneIds(b);
    assert forall i | 0 <= i < |a| :: ids[i] == PaneIds(a)[i];
    assert forall i | 0 <= i < |b| :: ids[|a| + i] == PaneIds(b)[i];
  }

  lemma PanesJoin(a: seq<SavedPane>, b: seq<SavedPane>)
    requires Distinct(PaneIds(a)) && Distinct(PaneIds(b)) && forall p | p in PaneIds(a) :: p !in PaneIds(b)
    ensures Distinct(PaneIds(a + b))
    ensures forall p :: p in PaneIds(a + b) <==> p in PaneIds(a) || p in PaneIds(b)
  {
    assert PaneIds(a + b) == PaneIds(a) + PaneIds(b);
    DistinctJoin(PaneIds(a), PaneIds(b));
  }

  // ---------------------------------------------------------------- panes are taken in order

  function IfAny(t: Option<PaneId>): seq<PaneId> {
    if t.Some? then [t.value] else []
  }

  /** The k-th unclaimed session of an endpoint takes the k-th saved pane of that endpoint. */
  function TelnetTarget(inp: Inputs, k: nat): Option<PaneId>
    requires k < |inp.telnet|
  {
    var s := inp.telnet[k];
    var panes := PanesFor(PanesOf(Open(inp)), s.endpoint);
    var rank := Demand(inp, k, s.endpoint);
    if s.identity !in Claimed(inp.registry) && rank < |panes| then Some(panes[rank]) else None
  }

  function TelnetTargets(inp: Inputs, n: nat): seq<PaneId>
    requires n <= |inp.telnet|
  {
    if n == 0 then [] else TelnetTargets(inp, n - 1) + IfAny(TelnetTarget(inp, n - 1))
  }

  /** Of each endpoint's panes the first `Demand` ones are used, and the others are not. */
  ghost predicate FirstOnesUsed(inp: Inputs, unused: set<PaneId>, n: nat)
    requires n <= |inp.telnet|
  {
    forall ep, i | 0 <= i < |PanesFor(PanesOf(Open(inp)), ep)| ::
      PanesFor(PanesOf(Open(inp)), ep)[i] in unused <==> i >= Demand(inp, n, ep)
  }

  /** The search returns the first unused pane of the endpoint. */
  lemma {:induction false} FindsNext(panes: seq<SavedPane>, unused: set<PaneId>, ep: Endpoint, m: nat)
    requires forall i | 0 <= i < |PanesFor(panes, ep)| :: PanesFor(panes, ep)[i] in unused <==> i >= m
    ensures FindTelnet(panes, unused, ep)
            == if m < |PanesFor(panes, ep)| then Some(PanesFor(panes, ep)[m]) else None
  {
    if panes != [] {
      var all, rest := PanesFor(panes, ep), PanesFor(panes[1..], ep);
      if panes[0].telnet == Some(ep) {
        assert all[0] == panes[0].paneId;
        assert forall i | 0 <= i < |rest| :: rest[i] == all[i + 1];
        if m > 0 {
          FindsNext(panes[1..], unused, ep, m - 1);
        }
      } else {
        assert all == rest;
        FindsNext(panes[1..], unused, ep, m);
      }
    }
  }

  lemma BeginUsesNone(inp: Inputs)
    ensures FirstOnesUsed(inp, TelnetPanes(PanesOf(Open(inp))), 0)
  {
    var panes := PanesOf(Open(inp));
    forall ep, i | 0 <= i < |PanesFor(panes, ep)|
      ensures PanesFor(panes, ep)[i] in TelnetPanes(panes)
    {
      PanesForIsKnown(panes, ep, PanesFor(panes, ep)[i]);
    }
  }

  /** Taking the next pane of one endpoint leaves every other endpoint alone. */
  lemma TakesNext(inp: Inputs, unused: set<PaneId>, k: nat)
    requires k < |inp.telnet| && FirstOnesUsed(inp, unused, k) && Distinct(PaneIds(PanesOf(Open(inp))))
    ensures var t := TelnetTarget(inp, k);
            FirstOnesUsed(inp, if t.Some? then unused - {t.value} else unused, k + 1)
  {
    var panes, s, t := PanesOf(Open(inp)), inp.telnet[k], TelnetTarget(inp, k);
    var left := if t.Some? then unused - {t.value} else unused;
    forall ep, i | 0 <= i < |PanesFor(panes, ep)|
      ensures PanesFor(panes, ep)[i] in left <==> i >= Demand(inp, k + 1, ep)
    {
      var p := PanesFor(panes, ep)[i];
      PanesForDistinct(panes, ep);
      if t == Some(p) {
        PanesForDisjoint(panes, ep, s.endpoint, p);
      }
    }
  }

  lemma FindsTarget(inp: Inputs, unused: set<PaneId>, k: nat)
    requires WellFormed(inp) && k < |inp.telnet| && FirstOnesUsed(inp, unused, k)
    ensures inp.telnet[k].identity !in Claimed(inp.registry) ==>
              TelnetTarget(inp, k) == FindTelnet(PanesOf(Open(inp)), unused, inp.telnet[k].endpoint)
    ensures TelnetTarget(inp, k).Some? ==> TabOfPane(Open(inp), TelnetTarget(inp, k).value).Some?
  {
    var panes, s, t := PanesOf(Open(inp)), inp.telnet[k], TelnetTarget(inp, k);
    FindsNext(panes, unused, s.endpoint, Demand(inp, k, s.endpoint));
    if t.Some? {
      PanesForIsKnown(panes, s.endpoint, t.value);
      PaneHasTab(Open(inp), t.value);
    }
  }

  /** What one telnet session changes. */
  lemma TelnetEffect(inp: Inputs, uuid: nat -> string, st: Planner, k: nat)
    requires WellFormed(inp) && k < |inp.telnet| && FirstOnesUsed(inp, st.unused, k)
    ensures var s, t := inp.telnet[k], TelnetTarget(inp, k);
            TelnetOne(inp, uuid, st, s)
            == if s.identity in Claimed(inp.registry) then st
               else if t.None? then Adopt(inp, uuid, st, s.identity)
               else st.(unused := st.unused - {t.value},
                        log := st.log + [Entry(InSavedTab, TabFor(inp, t.value), t.value, s.identity)])
  {
    FindsTarget(inp, st.unused, k);
  }

  function TabFor(inp: Inputs, p: PaneId): TabId {
    if TabOfPane(Open(inp), p).Some? then TabOfPane(Open(inp), p).value else ""
  }

  lemma UsesNext(inp: Inputs, uuid: nat -> string, st: Planner, k: nat)
    requires WellFormed(inp) && k < |inp.telnet| && FirstOnesUsed(inp, st.unused, k)
    ensures FirstOnesUsed(inp, TelnetOne(inp, uuid, st, inp.telnet[k]).unused, k + 1)
  {
    OpenPanes(inp.saved, RegisteredIds(inp.registry));
    TelnetEffect(inp, uuid, st, k);
    TakesNext(inp, st.unused, k);
  }

  lemma {:induction false} AttachKeepsUnused(inp: Inputs, uuid: nat -> string, n: nat)
    requires n <= |inp.attached|
    ensures AttachAll(inp, uuid, n).unused == TelnetPanes(PanesOf(Open(inp)))
  {
    if n > 0 {
      AttachKeepsUnused(inp, uuid, n - 1);
    }
  }

  lemma {:induction false} UsedInOrder(inp: Inputs, uuid: nat -> string, n: nat)
    requires WellFormed(inp) && n <= |inp.telnet|
    ensures FirstOnesUsed(inp, TelnetAll(inp, uuid, n).unused, n)
  {
    if n == 0 {
      AttachKeepsUnused(inp, uuid, |inp.attached|);
      BeginUsesNone(inp);
    } else {
      UsedInOrder(inp, uuid, n - 1);
      UsesNext(inp, uuid, TelnetAll(inp, uuid, n - 1), n - 1);
    }
  }

  // ---------------------------------------------------------------- no pane twice

  lemma DistinctThen(s: seq<PaneId>, p: PaneId)
    ensures Distinct(s + [p]) <==> Distinct(s) && p !in s
  {
    if Distinct(s + [p]) {
      forall i, j | 0 <= i < j < |s|
        ensures s[i] != s[j]
      {
        assert (s + [p])[i] != (s + [p])[j];
      }
      forall i | 0 <= i < |s|
        ensures s[i] != p
      {
        assert (s + [p])[i] != (s + [p])[|s|];
      }
    }
  }

  lemma {:induction false} TelnetTargetsBehind(inp: Inputs, n: nat, p: PaneId)
    requires WellFormed(inp) && n <= |inp.telnet| && p in TelnetTargets(inp, n)
    ensures exists ep, i :: 0 <= i < |PanesFor(PanesOf(Open(inp)), ep)| && i < Demand(inp, n, ep)
                            && PanesFor(PanesOf(Open(inp)), ep)[i] == p
  {
    var s := inp.telnet[n - 1];
    var panes := PanesOf(Open(inp));
    if TelnetTarget(inp, n - 1) == Some(p) {
      assert PanesFor(panes, s.endpoint)[Demand(inp, n - 1, s.endpoint)] == p;
    } else {
      TelnetTargetsBehind(inp, n - 1, p);
      var ep, i :| 0 <= i < |PanesFor(panes, ep)| && i < Demand(inp, n - 1, ep) && PanesFor(panes, ep)[i] == p;
      assert i < Demand(inp, n, ep);
    }
  }

  /** Telnet sessions never share a pane with each other. */
  lemma {:induction false} TelnetTargetsDistinct(inp: Inputs, n: nat)
    requires WellFormed(inp) && n <= |inp.telnet|
    ensures Distinct(TelnetTargets(inp, n))
  {
    if n > 0 {
      TelnetTargetsDistinct(inp, n - 1);
      var t := TelnetTarget(inp, n - 1);
      if t.Some? {
        NextTargetIsNew(inp, n - 1);
        DistinctThen(TelnetTargets(inp, n - 1), t.value);
      }
    }
  }

  lemma NextTargetIsNew(inp: Inputs, k: nat)
    requires WellFormed(inp) && k < |inp.telnet| && TelnetTarget(inp, k).Some?
    ensures TelnetTarget(inp, k).value !in TelnetTargets(inp, k)
  {
    var p, panes, own := TelnetTarget(inp, k).value, PanesOf(Open(inp)), inp.telnet[k].endpoint;
    if p in TelnetTargets(inp, k) {
      TelnetTargetsBehind(inp, k, p);
      OpenPanes(inp.saved, RegisteredIds(inp.registry));
      var ep, i :| 0 <= i < |PanesFor(panes, ep)| && i < Demand(inp, k, ep) && PanesFor(panes, ep)[i] == p;
      PanesForDisjoint(panes, ep, own, p);
      PanesForDistinct(panes, own);
    }
  }

  // ---------------------------------------------------------------- the whole matching

  /** No attached session is a telnet session, and every telnet session is. */
  ghost predicate Kinds(inp: Inputs) {
    && (forall i | 0 <= i < |inp.attached| :: !inp.attached[i].identity.kind.Telnet?)
    && (forall i | 0 <= i < |inp.telnet| :: inp.telnet[i].identity.kind.Telnet?)
    && (forall i | 0 <= i < |inp.plugin| :: !inp.plugin[i].identity.kind.Telnet?)
  }

  lemma TakenThen(log: seq<Entry>, e: Entry)
    ensures Taken(log + [e]) == Taken(log) + if e.identity.kind.Telnet? && e.place.InSavedTab? then [e.paneId] else []
  {
    assert (log + [e])[..|log|] == log;
  }

  lemma PlacesThen(taken: seq<PaneId>, p: PaneId, own: seq<PaneId>)
    ensures |PlacesIn(taken + [p], own)| == |PlacesIn(taken, own)| + if p in own then 1 else 0
  {
    assert PlacesIn(taken + [p], own) == PlacesIn(taken, own) + if p in own then {|taken|} else {};
  }

  lemma {:induction false} AttachTakesNone(inp: Inputs, uuid: nat -> string, n: nat)
    requires Kinds(inp) && n <= |inp.attached|
    ensures Taken(AttachAll(inp, uuid, n).log) == []
            && AttachAll(inp, uuid, n).unused == TelnetPanes(PanesOf(Open(inp)))
  {
    if n > 0 {
      AttachTakesNone(inp, uuid, n - 1);
      var st, s := AttachAll(inp, uuid, n - 1), inp.attached[n - 1];
      AttachAppends(inp, uuid, st, s);
      if AttachOne(inp, uuid, st, s).log != st.log {
        var e: Entry :| e.identity == s.identity && AttachOne(inp, uuid, st, s).log == st.log + [e];
        TakenThen(st.log, e);
      }
    }
  }

  predicate TakesTargets(inp: Inputs, st: Planner, k: nat)
    requires k <= |inp.telnet|
  {
    Taken(st.log) == TelnetTargets(inp, k)
  }

  lemma TakesOne(inp: Inputs, uuid: nat -> string, st: Planner, k: nat)
    requires WellFormed(inp) && Kinds(inp) && k < |inp.telnet|
    requires FirstOnesUsed(inp, st.unused, k) && TakesTargets(inp, st, k)
    ensures TakesTargets(inp, TelnetOne(inp, uuid, st, inp.telnet[k]), k + 1)
  {
    var s, t := inp.telnet[k], TelnetTarget(inp, k);
    TelnetEffect(inp, uuid, st, k);
    if t.Some? {
      TakenThen(st.log, Entry(InSavedTab, TabFor(inp, t.value), t.value, s.identity));
    } else {
      TakenThen(st.log, Entry(InNewTab, uuid(st.next + 1), uuid(st.next), s.identity));
    }
  }

  /** The panes taken are exactly the targets, in order. */
  lemma {:induction false} TakenAreTargets(inp: Inputs, uuid: nat -> string, n: nat)
    requires WellFormed(inp) && Kinds(inp) && n <= |inp.telnet|
    ensures TakesTargets(inp, TelnetAll(inp, uuid, n), n)
  {
    if n == 0 {
      AttachTakesNone(inp, uuid, |inp.attached|);
    } else {
      TakenAreTargets(inp, uuid, n - 1);
      UsedInOrder(inp, uuid, n - 1);
      TakesOne(inp, uuid, TelnetAll(inp, uuid, n - 1), n - 1);
    }
  }

  lemma {:induction false} PluginTakesNone(inp: Inputs, uuid: nat -> string, n: nat)
    requires Kinds(inp) && n <= |inp.plugin|
    ensures Taken(PluginAll(inp, uuid, n).log) == Taken(TelnetAll(inp, uuid, |inp.telnet|).log)
  {
    if n > 0 {
      PluginTakesNone(inp, uuid, n - 1);
      var st, s := PluginAll(inp, uuid, n - 1), inp.plugin[n - 1];
      assert PluginAll(inp, uuid, n) == PluginOne(inp, st, s);
      if PluginPlace(inp, s).Some? {
        TakenThen(st.log, Entry(PluginPlace(inp, s).value, s.tabId, s.paneId, s.identity));
      }
    }
  }

  function Min(a: nat, b: nat): nat {
    if a < b then a else b
  }

  lemma CountThen(targets: seq<PaneId>, t: Option<PaneId>, own: seq<PaneId>)
    ensures |PlacesIn(targets + IfAny(t), own)| == |PlacesIn(targets, own)| + if t.Some? && t.value in own then 1 else 0
  {
    if t.Some? {
      PlacesThen(targets, t.value, own);
    } else {
      assert targets + [] == targets;
    }
  }

  /** A pane is left for the session. */
  predicate Matched(inp: Inputs, k: nat)
    requires k < |inp.telnet|
  {
    var s := inp.telnet[k];
    s.identity !in Claimed(inp.registry) && Demand(inp, k, s.endpoint) < Supply(PanesOf(Open(inp)), s.endpoint)
  }

  lemma MatchedExactly(inp: Inputs, k: nat)
    requires k < |inp.telnet|
    ensures Matched(inp, k) <==> TelnetTarget(inp, k).Some?
  {
    SupplyIsPanes(PanesOf(Open(inp)), inp.telnet[k].endpoint);
  }

  /** How many of the first `n` sessions of the endpoint are matched. */
  function MatchedAt(inp: Inputs, n: nat, ep: Endpoint): nat
    requires n <= |inp.telnet|
  {
    if n == 0 then 0
    else MatchedAt(inp, n - 1, ep) + if Matched(inp, n - 1) && inp.telnet[n - 1].endpoint == ep then 1 else 0
  }

  lemma {:induction false} MatchedIsMin(inp: Inputs, n: nat, ep: Endpoint, supply: nat)
    requires n <= |inp.telnet| && supply == Supply(PanesOf(Open(inp)), ep)
    ensures MatchedAt(inp, n, ep) == Min(Demand(inp, n, ep), supply)
  {
    if n > 0 {
      MatchedIsMin(inp, n - 1, ep, supply);
    }
  }

  /** The target of a session is a pane of its own endpoint and of no other. */
  predicate OwnEndpoint(inp: Inputs, k: nat, ep: Endpoint)
    requires k < |inp.telnet|
  {
    var t := TelnetTarget(inp, k);
    t.Some? ==> (t.value in PanesFor(PanesOf(Open(inp)), ep) <==> inp.telnet[k].endpoint == ep)
  }

  lemma TargetEndpoint(inp: Inputs, k: nat, ep: Endpoint)
    requires WellFormed(inp) && k < |inp.telnet|
    ensures OwnEndpoint(inp, k, ep)
  {
    var t, panes := TelnetTarget(inp, k), PanesOf(Open(inp));
    OpenPanes(inp.saved, RegisteredIds(inp.registry));
    if t.Some? && t.value in PanesFor(panes, ep) {
      PanesForDisjoint(panes, ep, inp.telnet[k].endpoint, t.value);
    }
  }

  /** One more session adds one place among `own` exactly when it is matched and wants this endpoint. */
  predicate AddsOne(inp: Inputs, k: nat, own: seq<PaneId>, ep: Endpoint)
    requires k < |inp.telnet|
  {
    |PlacesIn(TelnetTargets(inp, k + 1), own)|
    == |PlacesIn(TelnetTargets(inp, k), own)| + if Matched(inp, k) && inp.telnet[k].endpoint == ep then 1 else 0
  }

  lemma OneMoreTarget(inp: Inputs, k: nat, own: seq<PaneId>, ep: Endpoint)
    requires WellFormed(inp) && k < |inp.telnet| && own == PanesFor(PanesOf(Open(inp)), ep)
    ensures AddsOne(inp, k, own, ep)
  {
    TargetEndpoint(inp, k, ep);
    CountThen(TelnetTargets(inp, k), TelnetTarget(inp, k), own);
    MatchedExactly(inp, k);
  }

  lemma {:induction false} TargetsAt(inp: Inputs, n: nat, own: seq<PaneId>, ep: Endpoint)
    requires n <= |inp.telnet| && forall k | 0 <= k < n :: AddsOne(inp, k, own, ep)
    ensures |PlacesIn(TelnetTargets(inp, n), own)| == MatchedAt(inp, n, ep)
  {
    if n > 0 {
      TargetsAt(inp, n - 1, own, ep);
      assert AddsOne(inp, n - 1, own, ep);
    }
  }

  /** For every endpoint as many sessions return to saved panes as there are both sessions and panes. */
  lemma MatchingIsMaximal(inp: Inputs, uuid: nat -> string, ep: Endpoint)
    requires WellFormed(inp) && Kinds(inp)
    ensures var panes := PanesOf(Open(inp));
            TakenAt(Taken(Placed(inp, uuid)), panes, ep) == Min(Demand(inp, |inp.telnet|, ep), Supply(panes, ep))
  {
    PluginTakesNone(inp, uuid, |inp.plugin|);
    TakenAreTargets(inp, uuid, |inp.telnet|);
    forall k | 0 <= k < |inp.telnet|
      ensures AddsOne(inp, k, PanesFor(PanesOf(Open(inp)), ep), ep)
    {
      OneMoreTarget(inp, k, PanesFor(PanesOf(Open(inp)), ep), ep);
    }
    TargetsAt(inp, |inp.telnet|, PanesFor(PanesOf(Open(inp)), ep), ep);
    MatchedIsMin(inp, |inp.telnet|, ep, Supply(PanesOf(Open(inp)), ep));
  }

  /** No saved pane is given to two telnet sessions. */
  lemma MatchingIsInjective(inp: Inputs, uuid: nat -> string)
    requires WellFormed(inp) && Kinds(inp)
    ensures Distinct(Taken(Placed(inp, uuid)))
  {
    PluginTakesNone(inp, uuid, |inp.plugin|);
    TakenAreTargets(inp, uuid, |inp.telnet|);
    TelnetTargetsDistinct(inp, |inp.telnet|);
  }

  // ---------------------------------------------------------------- only its own endpoint

  /** Every pane taken by a telnet session has that session's endpoint and is in the tab that was chosen. */
  ghost predicate Suits(inp: Inputs, e: Entry) {
    e.identity.kind.Telnet? && e.place.InSavedTab? ==>
      && TabOfPane(Open(inp), e.paneId) == Some(e.tabId)
      && exists k :: 0 <= k < |inp.telnet| && inp.telnet[k].identity == e.identity
                     && EndpointOf(PanesOf(Open(inp)), e.paneId) == Some(inp.telnet[k].endpoint)
  }

  lemma {:induction false} AttachSuits(inp: Inputs, uuid: nat -> string, n: nat)
    requires Kinds(inp) && n <= |inp.attached|
    ensures forall e | e in AttachAll(inp, uuid, n).log :: Suits(inp, e)
  {
    if n > 0 {
      AttachSuits(inp, uuid, n - 1);
      AttachAppends(inp, uuid, AttachAll(inp, uuid, n - 1), inp.attached[n - 1]);
    }
  }

  lemma TargetSuits(inp: Inputs, k: nat)
    requires WellFormed(inp) && Kinds(inp) && k < |inp.telnet| && TelnetTarget(inp, k).Some?
    ensures var p := TelnetTarget(inp, k).value;
            Suits(inp, Entry(InSavedTab, TabFor(inp, p), p, inp.telnet[k].identity))
  {
    var p, panes := TelnetTarget(inp, k).value, PanesOf(Open(inp));
    OpenPanes(inp.saved, RegisteredIds(inp.registry));
    EndpointOfPane(panes, inp.telnet[k].endpoint, p);
    PanesForIsKnown(panes, inp.telnet[k].endpoint, p);
    PaneHasTab(Open(inp), p);
  }

  lemma {:induction false} TelnetSuits(inp: Inputs, uuid: nat -> string, n: nat)
    requires WellFormed(inp) && Kinds(inp) && n <= |inp.telnet|
    ensures forall e | e in TelnetAll(inp, uuid, n).log :: Suits(inp, e)
  {
    if n == 0 {
      AttachSuits(inp, uuid, |inp.attached|);
    } else {
      TelnetSuits(inp, uuid, n - 1);
      UsedInOrder(inp, uuid, n - 1);
      TelnetEffect(inp, uuid, TelnetAll(inp, uuid, n - 1), n - 1);
      if TelnetTarget(inp, n - 1).Some? {
        TargetSuits(inp, n - 1);
      }
    }
  }

  lemma {:induction false} PluginSuits(inp: Inputs, uuid: nat -> string, n: nat)
    requires WellFormed(inp) && Kinds(inp) && n <= |inp.plugin|
    ensures forall e | e in PluginAll(inp, uuid, n).log :: Suits(inp, e)
  {
    if n == 0 {
      TelnetSuits(inp, uuid, |inp.telnet|);
    } else {
      PluginSuits(inp, uuid, n - 1);
    }
  }

  /** A telnet session returns only to a saved pane of its own endpoint. */
  lemma MatchingSuits(inp: Inputs, uuid: nat -> string, e: Entry)
    requires WellFormed(inp) && Kinds(inp) && e in Placed(inp, uuid)
    ensures Suits(inp, e)
  {
    PluginSuits(inp, uuid, |inp.plugin|);
  }
}
