/**
 The imperative side of file recovery: the nested loops that register the local directories of a
 saved tab again, and the object that keeps what was staged.
 */
module FileRestore {
  import opened Basics
  import opened FileRecovery

  // ---------------------------------------------------------------- the directories of a snapshot

  datatype TrailItem = TrailItem(remembered: Option<string>, capabilityPath: Option<string>)

  datatype Pane =
    | RemotePane
    | LocalPane(trail: seq<TrailItem>, open: bool, remembered: Option<string>)

  /** The pane with its new capabilities: one for each trail item, one for an open directory. */
  datatype RestoredPane =
    | RestoredRemote
    | RestoredLocal(trail: seq<Cap>, current: Option<Cap>)

  function WantOf(item: TrailItem): Want {
    Want(item.remembered, item.remembered == item.capabilityPath)
  }

  function TrailWants(trail: seq<TrailItem>): seq<Want> {
    seq(|trail|, i requires 0 <= i < |trail| => WantOf(trail[i]))
  }

  function PaneWants(p: Pane): seq<Want> {
    match p
    case RemotePane => []
    case LocalPane(trail, open, remembered) => TrailWants(trail) + if open then [Want(remembered, true)] else []
  }

  function Wants(panes: seq<Pane>): seq<Want> {
    if panes == [] then [] else Wants(panes[..|panes| - 1]) + PaneWants(panes[|panes| - 1])
  }

  function Directories(panes: seq<Pane>): nat {
    if panes == [] then 0
    else
      var last := panes[|panes| - 1];
      Directories(panes[..|panes| - 1])
      + (if last.RemotePane? then 0 else |last.trail| + if last.open then 1 else 0)
  }

  lemma {:induction false} OneWantPerDirectory(panes: seq<Pane>)
    ensures |Wants(panes)| == Directories(panes)
  {
    if panes != [] {
      OneWantPerDirectory(panes[..|panes| - 1]);
    }
  }

  // ---------------------------------------------------------------- registering in order

  /** The directory was registered and is still at the recorded path. */
  predicate Registers(w: Want, reply: Reply) {
    Usable(w) && reply.Registered? && reply.canonicalPath == w.path.value
  }

  /** The first directories, up to `n`, are all registered; `core` answers the registrations in order. */
  predicate AllRegister(wants: seq<Want>, core: nat -> Reply, n: nat)
    requires n <= |wants|
  {
    forall i | 0 <= i < n :: Registers(wants[i], core(i))
  }

  /** How many capabilities exist when the first failure ends the attempt. */
  function Obtained(wants: seq<Want>, core: nat -> Reply, n: nat): nat
    requires n <= |wants|
    decreases |wants| - n
  {
    if n == |wants| then n
    else if !Usable(wants[n]) || core(n).Rejected? then n
    else if !Registers(wants[n], core(n)) then n + 1
    else Obtained(wants, core, n + 1)
  }

  function Caps(first: Cap, from: nat, to: nat): seq<Cap>
    requires from <= to
  {
    seq(to - from, i requires 0 <= i < to - from => first + from + i)
  }

  function CapsOf(p: RestoredPane): seq<Cap> {
    match p
    case RestoredRemote => []
    case RestoredLocal(trail, current) => trail + if current.Some? then [current.value] else []
  }

  function AllCaps(panes: seq<RestoredPane>): seq<Cap> {
    if panes == [] then [] else AllCaps(panes[..|panes| - 1]) + CapsOf(panes[|panes| - 1])
  }

  predicate Fits(p: Pane, r: RestoredPane) {
    match p
    case RemotePane => r.RestoredRemote?
    case LocalPane(trail, open, _) => r.RestoredLocal? && |r.trail| == |trail| && (r.current.Some? <==> open)
  }

  predicate AllFit(panes: seq<Pane>, restored: seq<RestoredPane>) {
    |restored| == |panes| && forall i | 0 <= i < |panes| :: Fits(panes[i], restored[i])
  }

  /** The attempt ends at position `n`: what holds of the number of capabilities. */
  lemma {:induction false} StopsAt(wants: seq<Want>, core: nat -> Reply, from: nat, n: nat)
    requires from <= n <= |wants| && AllRegister(wants, core, n)
    ensures Obtained(wants, core, from) == Obtained(wants, core, n)
    decreases n - from
  {
    if from < n {
      StopsAt(wants, core, from + 1, n);
    }
  }

  method RegisterExact(w: Want, reply: Reply, next: Cap) returns (cap: Option<Cap>, ok: bool)
    ensures ok <==> Registers(w, reply)
    ensures cap == if Usable(w) && reply.Registered? then Some(next) else None
  {
    if !Usable(w) || reply.Rejected? {
      return None, false;
    }
    cap := Some(next);
    ok := reply.canonicalPath == w.path.value;
  }

  /** One pane; `n` is the number of directories registered before. */
  method RestoreTrail(p: Pane, wants: seq<Want>, core: nat -> Reply, first: Cap, n: nat)
    returns (trail: seq<Cap>, count: nat, ok: bool)
    requires p.LocalPane? && n + |p.trail| <= |wants| && wants[n..n + |p.trail|] == TrailWants(p.trail)
    requires AllRegister(wants, core, n)
    ensures ok ==> count == n + |p.trail| && AllRegister(wants, core, count) && trail == Caps(first, n, count)
    ensures !ok ==> count == Obtained(wants, core, 0) && !AllRegister(wants, core, |wants|)
  {
    trail, count, ok := [], n, true;
    for k := 0 to |p.trail|
      invariant count == n + k && AllRegister(wants, core, count) && trail == Caps(first, n, count)
    {
      assert wants[n..n + |p.trail|][k] == wants[n + k] == TrailWants(p.trail)[k];
      var cap, exact := RegisterExact(WantOf(p.trail[k]), core(count), first + count);
      if !exact {
        StopsAt(wants, core, 0, count);
        if cap.Some? {
          count := count + 1;
        }
        return trail, count, false;
      }
      trail := trail + [first + count];
      count := count + 1;
    }
  }

  method RestorePane(p: Pane, wants: seq<Want>, core: nat -> Reply, first: Cap, n: nat)
    returns (r: RestoredPane, count: nat, ok: bool)
    requires n + |PaneWants(p)| <= |wants| && wants[n..n + |PaneWants(p)|] == PaneWants(p)
             && AllRegister(wants, core, n)
    ensures ok ==> count == n + |PaneWants(p)| && AllRegister(wants, core, count)
    ensures ok ==> Fits(p, r) && CapsOf(r) == Caps(first, n, count)
    ensures !ok ==> count == Obtained(wants, core, 0) && !AllRegister(wants, core, |wants|)
  {
    if p.RemotePane? {
      return RestoredRemote, n, true;
    }
    var m := n + |p.trail|;
    assert PaneWants(p)[..|p.trail|] == TrailWants(p.trail);
    assert wants[n..m] == wants[n..n + |PaneWants(p)|][..|p.trail|];
    var trail: seq<Cap>;
    trail, count, ok := RestoreTrail(p, wants, core, first, n);
    if !ok {
      return RestoredLocal(trail, None), count, false;
    }
    if !p.open {
      return RestoredLocal(trail, None), count, true;
    }
    assert wants[m] == wants[n..n + |PaneWants(p)|][|p.trail|] == Want(p.remembered, true);
    var cap, exact := RegisterExact(Want(p.remembered, true), core(count), first + count);
    if !exact {
      StopsAt(wants, core, 0, count);
      return RestoredLocal(trail, None), if cap.Some? then count + 1 else count, false;
    }
    r := RestoredLocal(trail, Some(first + count));
    count := count + 1;
  }

  lemma {:induction false} WantsPrefix(panes: seq<Pane>, k: nat)
    requires k < |panes|
    ensures |Wants(panes[..k])| + |PaneWants(panes[k])| <= |Wants(panes)|
    ensures Wants(panes)[|Wants(panes[..k])|..|Wants(panes[..k])| + |PaneWants(panes[k])|] == PaneWants(panes[k])
    ensures Wants(panes[..k + 1]) == Wants(panes[..k]) + PaneWants(panes[k])
  {
    assert panes[..k + 1][..k] == panes[..k];
    if k < |panes| - 1 {
      var init := panes[..|panes| - 1];
      assert init[..k] == panes[..k];
      WantsPrefix(init, k);
    }
  }

  lemma RestoredThen(panes: seq<Pane>, k: nat, restored: seq<RestoredPane>, r: RestoredPane, first: Cap, count: nat,
                     now: nat)
    requires k < |panes| && AllFit(panes[..k], restored) && Fits(panes[k], r)
    requires count <= now && AllCaps(restored) == Caps(first, 0, count) && CapsOf(r) == Caps(first, count, now)
    ensures AllFit(panes[..k + 1], restored + [r]) && AllCaps(restored + [r]) == Caps(first, 0, now)
  {
    assert (restored + [r])[..|restored|] == restored;
    assert Caps(first, 0, count) + Caps(first, count, now) == Caps(first, 0, now);
    forall i | 0 <= i < k + 1
      ensures Fits(panes[..k + 1][i], (restored + [r])[i])
    {
      assert i < k ==> panes[..k][i] == panes[i] && Fits(panes[..k][i], restored[i]);
    }
  }

  /**
   Restores a snapshot or fails. It succeeds exactly when every directory is usable, is registered and
   is still at its recorded path; then there is one capability per directory, placed pane by pane in
   order. On failure every capability registered so far is released, in order.
   */
  method RestoreLocalCapabilities(panes: seq<Pane>, core: nat -> Reply, first: Cap)
    returns (restored: seq<RestoredPane>, released: seq<Cap>, ok: bool)
    ensures ok <==> AllRegister(Wants(panes), core, |Wants(panes)|)
    ensures ok ==> AllFit(panes, restored) && AllCaps(restored) == Caps(first, 0, Directories(panes)) && released == []
    ensures !ok ==> released == Caps(first, 0, Obtained(Wants(panes), core, 0))
  {
    var wants := Wants(panes);
    var count := 0;
    restored, released, ok := [], [], true;
    for k := 0 to |panes|
      invariant count == |Wants(panes[..k])| <= |wants| && AllRegister(wants, core, count)
      invariant AllFit(panes[..k], restored) && AllCaps(restored) == Caps(first, 0, count)
    {
      WantsPrefix(panes, k);
      var r, now, exact := RestorePane(panes[k], wants, core, first, count);
      if !exact {
        return restored, Caps(first, 0, now), false;
      }
      RestoredThen(panes, k, restored, r, first, count, now);
      restored := restored + [r];
      count := now;
    }
    assert panes[..|panes|] == panes;
    OneWantPerDirectory(panes);
  }

  // ---------------------------------------------------------------- the same registrations, as steps of a run

  /** The core answers the registrations of one import, one after another. */
  function Answered(st: State, c: CallId, core: nat -> Reply, m: nat): State {
    if m == 0 then st else Next(Answered(st, c, core, m - 1), Register(c, core(m - 1)))
  }

  /** The import holds the first `m` capabilities, or it has failed and given back what it had. */
  ghost predicate Reached(before: State, st: State, c: CallId, id: Id, wants: seq<Want>, core: nat -> Reply, m: nat)
    requires m <= |wants|
  {
    if AllRegister(wants, core, m) then
      && c in st.calls && st.calls[c] == Importing(id, wants[m..], Caps(before.nextCap, 0, m), |wants|)
      && st.nextCap == before.nextCap + m && st.released == before.released
    else
      && c !in st.calls
      && st.nextCap == before.nextCap + Obtained(wants, core, 0)
      && st.released == before.released + Caps(before.nextCap, 0, Obtained(wants, core, 0))
  }

  lemma ReachedNext(before: State, st: State, c: CallId, id: Id, wants: seq<Want>, core: nat -> Reply, m: nat)
    requires m < |wants| && Reached(before, st, c, id, wants, core, m)
    ensures Reached(before, Next(st, Register(c, core(m))), c, id, wants, core, m + 1)
  {
    if AllRegister(wants, core, m) {
      assert wants[m..][0] == wants[m] && wants[m..][1..] == wants[m + 1..];
      assert Caps(before.nextCap, 0, m) + [before.nextCap + m] == Caps(before.nextCap, 0, m + 1);
      if Registers(wants[m], core(m)) {
        assert AllRegister(wants, core, m + 1);
      } else {
        assert !AllRegister(wants, core, m + 1);
        StopsAt(wants, core, 0, m);
      }
    }
  }

  lemma {:induction false} ReachedAll(st: State, id: Id, wants: seq<Want>, core: nat -> Reply, m: nat)
    requires id !in st.tabs && m <= |wants|
    ensures Reached(st, Answered(Begun(st, id, true, wants), st.nextCall, core, m), st.nextCall, id, wants, core, m)
  {
    if m == 0 {
      assert wants[0..] == wants;
    } else {
      ReachedAll(st, id, wants, core, m - 1);
      ReachedNext(st, Answered(Begun(st, id, true, wants), st.nextCall, core, m - 1), st.nextCall, id, wants, core,
        m - 1);
    }
  }

  /**
   In a run, an import whose registrations are answered by `core` reaches what the restore loops
   compute: all capabilities in order, ready to be staged, or a failed import that has released
   exactly the capabilities it had obtained.
   */
  lemma ImportReachesRestore(st: State, id: Id, panes: seq<Pane>, core: nat -> Reply)
    requires id !in st.tabs
    ensures var wants := Wants(panes);
            var st' := Answered(Begun(st, id, true, wants), st.nextCall, core, |wants|);
            if AllRegister(wants, core, |wants|) then
              && st.nextCall in st'.calls
              && st'.calls[st.nextCall]
                 == Importing(id, [], Caps(st.nextCap, 0, Directories(panes)), Directories(panes))
              && st'.released == st.released
            else
              && st.nextCall !in st'.calls
              && st'.released == st.released + Caps(st.nextCap, 0, Obtained(wants, core, 0))
  {
    ReachedAll(st, id, Wants(panes), core, |Wants(panes)|);
    OneWantPerDirectory(panes);
  }

  // ---------------------------------------------------------------- the recovery object

  class FileTabRecovery {
    var staged: set<Id>
    var recoveredCapabilities: map<Id, seq<Cap>>
    var calls: map<CallId, Call>
    var nextCall: CallId
    var tabs: set<Id>
    var imported: set<Id>
    var released: seq<Cap>
    var nextCap: Cap
    ghost var status: map<Cap, Status>
    ghost var admitted: set<Id>

    ghost function View(): State
      reads this
    {
      State(staged, recoveredCapabilities, calls, nextCall, tabs, imported, released, nextCap, status, admitted)
    }

    constructor ()
      ensures View() == Empty
    {
      staged, recoveredCapabilities, calls, nextCall, tabs := {}, map[], map[], 0, {};
      imported, released, nextCap, status, admitted := {}, [], 0, map[], {};
    }

    method Release(caps: seq<Cap>)
      modifies this`released, this`status
      ensures View() == old(ReleaseAll(View(), caps))
    {
      released := released + caps;
      status := Mark(status, caps, Released);
    }

    ghost method NoteForgotten(id: Id)
      requires id in recoveredCapabilities
      modifies this`status, this`admitted
      ensures status == old(Forget(View(), id).status) && admitted == old(Forget(View(), id).admitted)
    {
      status := Mark(status, recoveredCapabilities[id], if id in admitted then HandedOver(id) else Lost);
      admitted := admitted - {id};
    }

    method BeginImporting(id: Id, valid: bool, wants: seq<Want>)
      modifies this`calls, this`nextCall
      ensures View() == old(Begun(View(), id, valid, wants))
    {
      if valid && id !in tabs {
        calls := calls[nextCall := Importing(id, wants, [], |wants|)];
        nextCall := nextCall + 1;
      }
    }

    method RegisterDirectory(c: CallId, reply: Reply)
      requires c in calls && calls[c].Importing? && calls[c].wants != []
      modifies this
      ensures View() == old(RegisterNext(View(), c, reply))
    {
      var call := calls[c];
      var cap, exact := RegisterExact(call.wants[0], reply, nextCap);
      if cap.None? {
        calls := calls - {c};
        Release(call.caps);
        return;
      }
      status := status[nextCap := Flying(c)];
      calls := calls[c := call.(wants := call.wants[1..], caps := call.caps + [nextCap])];
      nextCap := nextCap + 1;
      if !exact {
        var caps := calls[c].caps;
        calls := calls - {c};
        Release(caps);
      }
    }

    method FinishImporting(c: CallId, live: bool, conflict: bool)
      requires c in calls && calls[c].Importing? && calls[c].wants == []
      modifies this
      ensures View() == old(Next(View(), FinishImport(c, live, conflict)))
    {
      var id, caps := calls[c].id, calls[c].caps;
      calls := calls - {c};
      if !live || id in tabs || id in imported || conflict {
        Release(caps);
        return;
      }
      imported := imported + {id};
      if id in recoveredCapabilities {
        NoteForgotten(id);
      }
      assert recoveredCapabilities[id := caps] == (recoveredCapabilities - {id})[id := caps];
      recoveredCapabilities := recoveredCapabilities[id := caps];
      staged := staged + {id};
      status := Mark(status, caps, Held(id));
    }

    method DiscardTab(id: Id)
      modifies this
      ensures View() == old(Discarded(View(), id))
    {
      if id !in staged {
        return;
      }
      staged := staged - {id};
      imported := imported - {id};
      tabs := tabs - {id};
      var caps := if id in recoveredCapabilities then recoveredCapabilities[id] else [];
      if id in recoveredCapabilities {
        recoveredCapabilities := recoveredCapabilities - {id};
        admitted := admitted - {id};
        Release(caps);
      }
    }

    /** The tab store opens a snapshot that waits for admission. */
    method AdmitImported(id: Id, conflict: bool) returns (ok: bool)
      modifies this`tabs, this`admitted
      ensures View() == old(Admitted(View(), id, conflict)) && ok == (id in imported && !conflict)
    {
      ok := id in imported && !conflict;
      if ok {
        tabs := tabs + {id};
        admitted := if id in recoveredCapabilities then admitted + {id} else admitted;
      }
    }

    method Activate(id: Id, conflict: bool)
      modifies this
      ensures View() == old(ActivationBegun(View(), id, conflict))
    {
      if id !in staged {
        return;
      }
      var ok := AdmitImported(id, conflict);
      if !ok {
        return;
      }
      calls := calls[nextCall := Activating(id)];
      nextCall := nextCall + 1;
    }

    method FinishActivating(c: CallId, pushed: bool)
      requires c in calls && calls[c].Activating?
      modifies this
      ensures View() == old(Next(View(), EndActivate(c, pushed)))
    {
      var id := calls[c].id;
      calls := calls - {c};
      if pushed {
        staged := staged - {id};
        if id in recoveredCapabilities {
          NoteForgotten(id);
          recoveredCapabilities := recoveredCapabilities - {id};
        }
      }
    }

    method Perform(step: Step)
      modifies this
      ensures View() == old(Next(View(), step))
    {
      match step
      case BeginImport(id, valid, wants) => BeginImporting(id, valid, wants);
      case Register(c, reply) =>
        if c in calls && calls[c].Importing? && calls[c].wants != [] {
          RegisterDirectory(c, reply);
        }
      case FinishImport(c, live, conflict) =>
        if c in calls && calls[c].Importing? && calls[c].wants == [] {
          FinishImporting(c, live, conflict);
        }
      case Discard(id) => DiscardTab(id);
      case BeginActivate(id, conflict) => Activate(id, conflict);
      case EndActivate(c, pushed) =>
        if c in calls && calls[c].Activating? {
          FinishActivating(c, pushed);
        }
      case AdmitStored(id, conflict) => var _ := AdmitImported(id, conflict);
      case OpenTab(id) => tabs := tabs + {id};
      case CloseTab(id) =>
        tabs := tabs - {id};
        imported := imported - {id};
    }

    /** Any run from the start: the ledger holds, and a run that loses nothing has lost nothing. */
    method RunRecovery(steps: seq<Step>)
      requires View() == Empty
      modifies this
      ensures View() == Run(steps) && Ledger(View())
      ensures AnyLost(status) <==> RunLoses(steps)
    {
      for i := 0 to |steps|
        invariant View() == Run(steps[..i])
      {
        assert steps[..i + 1][..i] == steps[..i];
        Perform(steps[i]);
      }
      assert steps[..|steps|] == steps;
      RunKeepsLedger(steps);
      RunLosesExactly(steps);
    }
  }
}
