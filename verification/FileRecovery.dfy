/**
 Recovering file tabs after a crash. The local directories of a saved tab are registered again with
 the core, each registration gives a capability, and every capability must end up somewhere: kept
 for a staged tab, released, or handed over to an opened one.

 Calls overlap: an import waits for every registration and for the live sessions, an activation
 waits for the router. A step is what happens between two waits.
 */
module FileRecovery {
  import opened Basics

  type Id = string
  type Cap = nat
  type CallId = nat

  /** A directory that has to be registered again; the two records of its path must agree. */
  datatype Want = Want(path: Option<string>, consistent: bool)

  predicate Usable(w: Want) {
    w.consistent && w.path.Some? && w.path.value != "" && Utf16Length(w.path.value) <= 4096 && '\0' !in w.path.value
  }

  datatype Reply = Rejected | Registered(canonicalPath: string)

  datatype Call =
    // `total` is the number of directories of the whole tab.
    | Importing(id: Id, wants: seq<Want>, caps: seq<Cap>, total: nat)
    | Activating(id: Id)

  /** Where a capability is. `Lost` means that nobody holds it and nobody released it. */
  datatype Status = Flying(call: CallId) | Held(id: Id) | Released | HandedOver(tab: Id) | Lost

  datatype State = State(
    staged: set<Id>,
    recovered: map<Id, seq<Cap>>,
    calls: map<CallId, Call>,
    nextCall: CallId,
    // The tab store: open file tabs and snapshots that wait for admission.
    tabs: set<Id>,
    imported: set<Id>,
    // The core: release requests, in order, and the number of registrations.
    released: seq<Cap>,
    nextCap: Cap,
    // History.
    status: map<Cap, Status>,
    admitted: set<Id>)

  const Empty := State({}, map[], map[], 0, {}, {}, [], 0, map[], {})

  datatype Step =
    | BeginImport(id: Id, valid: bool, wants: seq<Want>)
    | Register(call: CallId, reply: Reply)
    | FinishImport(call: CallId, live: bool, conflict: bool)
    | Discard(id: Id)
    | BeginActivate(id: Id, conflict: bool)
    | EndActivate(call: CallId, pushed: bool)
    // What the tab store does without the recovery.
    | AdmitStored(id: Id, conflict: bool)
    | OpenTab(id: Id)
    | CloseTab(id: Id)

  // ---------------------------------------------------------------- steps

  function Mark(status: map<Cap, Status>, caps: seq<Cap>, s: Status): map<Cap, Status> {
    map k | k in status :: if k in caps then s else status[k]
  }

  function ReleaseAll(st: State, caps: seq<Cap>): State {
    st.(released := st.released + caps, status := Mark(st.status, caps, Released))
  }

  function DropCall(st: State, c: CallId): State {
    st.(calls := st.calls - {c})
  }

  function Begun(st: State, id: Id, valid: bool, wants: seq<Want>): State {
    if !valid || id in st.tabs then st
    else st.(calls := st.calls[st.nextCall := Importing(id, wants, [], |wants|)], nextCall := st.nextCall + 1)
  }

  /** The next directory: refused before any registration, rejected, moved, or registered. */
  function RegisterNext(st: State, c: CallId, reply: Reply): State
    requires c in st.calls && st.calls[c].Importing? && st.calls[c].wants != []
  {
    var call := st.calls[c];
    var want := call.wants[0];
    if !Usable(want) || reply.Rejected? then ReleaseAll(DropCall(st, c), call.caps)
    else
      var caps := call.caps + [st.nextCap];
      var st1 := st.(nextCap := st.nextCap + 1, status := st.status[st.nextCap := Flying(c)],
                     calls := st.calls[c := call.(wants := call.wants[1..], caps := caps)]);
      if reply.canonicalPath != want.path.value then ReleaseAll(DropCall(st1, c), caps) else st1
  }

  /** The capabilities kept under an id are no longer kept: they went with the tab, or they are lost. */
  function Forget(st: State, id: Id): State {
    if id !in st.recovered then st
    else st.(recovered := st.recovered - {id},
             status := Mark(st.status, st.recovered[id], if id in st.admitted then HandedOver(id) else Lost),
             admitted := st.admitted - {id})
  }

  function Staged(st: State, c: CallId): State
    requires c in st.calls && st.calls[c].Importing?
  {
    var id, caps := st.calls[c].id, st.calls[c].caps;
    var st1 := DropCall(Forget(st, id), c);
    st1.(imported := st1.imported + {id}, staged := st1.staged + {id},
         recovered := st1.recovered[id := caps], status := Mark(st1.status, caps, Held(id)))
  }

  function Finished(st: State, c: CallId, live: bool, conflict: bool): State
    requires c in st.calls && st.calls[c].Importing?
  {
    var call := st.calls[c];
    if !live || call.id in st.tabs || call.id in st.imported || conflict then ReleaseAll(DropCall(st, c), call.caps)
    else Staged(st, c)
  }

  function Discarded(st: State, id: Id): State {
    if id !in st.staged then st
    else
      var st1 := st.(staged := st.staged - {id}, imported := st.imported - {id}, tabs := st.tabs - {id});
      if id !in st.recovered then st1
      else ReleaseAll(st1.(recovered := st.recovered - {id}, admitted := st.admitted - {id}), st.recovered[id])
  }

  /** The store opens a snapshot that waits for admission; what is kept for it now goes with the tab. */
  function Admitted(st: State, id: Id, conflict: bool): State {
    if id !in st.imported || conflict then st
    else st.(tabs := st.tabs + {id}, admitted := if id in st.recovered then st.admitted + {id} else st.admitted)
  }

  function ActivationBegun(st: State, id: Id, conflict: bool): State {
    if id !in st.staged || id !in st.imported || conflict then st
    else Admitted(st, id, conflict).(calls := st.calls[st.nextCall := Activating(id)], nextCall := st.nextCall + 1)
  }

  function ActivationEnded(st: State, c: CallId, pushed: bool): State
    requires c in st.calls && st.calls[c].Activating?
  {
    var id := st.calls[c].id;
    if !pushed then DropCall(st, c)
    else Forget(DropCall(st, c).(staged := st.staged - {id}), id)
  }

  function Next(st: State, step: Step): State {
    match step
    case BeginImport(id, valid, wants) => Begun(st, id, valid, wants)
    case Register(c, reply) =>
      if c in st.calls && st.calls[c].Importing? && st.calls[c].wants != [] then RegisterNext(st, c, reply) else st
    case FinishImport(c, live, conflict) =>
      if c in st.calls && st.calls[c].Importing? && st.calls[c].wants == [] then Finished(st, c, live, conflict) else st
    case Discard(id) => Discarded(st, id)
    case BeginActivate(id, conflict) => ActivationBegun(st, id, conflict)
    case EndActivate(c, pushed) =>
      if c in st.calls && st.calls[c].Activating? then ActivationEnded(st, c, pushed) else st
    case AdmitStored(id, conflict) => Admitted(st, id, conflict)
    case OpenTab(id) => st.(tabs := st.tabs + {id})
    case CloseTab(id) => st.(tabs := st.tabs - {id}, imported := st.imported - {id})
  }

  function Run(steps: seq<Step>): State {
    if steps == [] then Empty else Next(Run(steps[..|steps| - 1]), steps[|steps| - 1])
  }

  // ---------------------------------------------------------------- the ledger

  predicate Distinct(s: seq<Cap>) {
    forall i, j | 0 <= i < j < |s| :: s[i] != s[j]
  }

  /** The list holds exactly the capabilities with this status, each once. */
  ghost predicate Lists(caps: seq<Cap>, status: map<Cap, Status>, s: Status) {
    Distinct(caps) && forall k :: k in caps <==> k in status && status[k] == s
  }

  ghost predicate CallsOk(calls: map<CallId, Call>, nextCall: CallId, status: map<Cap, Status>) {
    && (forall c | c in calls :: c < nextCall)
    && (forall c | c in calls && calls[c].Importing? :: Lists(calls[c].caps, status, Flying(c)))
    && (forall k | k in status && status[k].Flying? :: status[k].call in calls && calls[status[k].call].Importing?)
  }

  ghost predicate HeldOk(recovered: map<Id, seq<Cap>>, status: map<Cap, Status>) {
    && (forall id | id in recovered :: Lists(recovered[id], status, Held(id)))
    && (forall k | k in status && status[k].Held? :: status[k].id in recovered)
  }

  ghost predicate Ledger(st: State) {
    && CallsOk(st.calls, st.nextCall, st.status)
    && HeldOk(st.recovered, st.status)
    && Lists(st.released, st.status, Released)
    && (forall k: Cap :: k in st.status <==> k < st.nextCap)
  }

  lemma JoinLists(a: seq<Cap>, b: seq<Cap>, status: map<Cap, Status>, s: Status, from: Status)
    requires Lists(a, status, s) && Lists(b, status, from) && s != from
    ensures Lists(a + b, Mark(status, b, s), s)
  {
    forall i, j | 0 <= i < j < |a + b|
      ensures (a + b)[i] != (a + b)[j]
    {
      if i < |a| <= j {
        assert a[i] in a && b[j - |a|] in b;
      }
    }
  }

  lemma OtherList(a: seq<Cap>, b: seq<Cap>, status: map<Cap, Status>, s: Status, from: Status, to: Status)
    requires Lists(a, status, s) && Lists(b, status, from) && s != from && s != to
    ensures Lists(a, Mark(status, b, to), s)
  {
  }

  /** A call that ends gives its capabilities back. */
  lemma ReleaseFlying(st: State, c: CallId)
    requires Ledger(st) && c in st.calls && st.calls[c].Importing?
    ensures Ledger(ReleaseAll(DropCall(st, c), st.calls[c].caps))
  {
    var caps := st.calls[c].caps;
    JoinLists(st.released, caps, st.status, Released, Flying(c));
    forall d | d in st.calls && d != c && st.calls[d].Importing?
      ensures Lists(st.calls[d].caps, Mark(st.status, caps, Released), Flying(d))
    {
      OtherList(st.calls[d].caps, caps, st.status, Flying(d), Flying(c), Released);
    }
    forall id | id in st.recovered
      ensures Lists(st.recovered[id], Mark(st.status, caps, Released), Held(id))
    {
      OtherList(st.recovered[id], caps, st.status, Held(id), Flying(c), Released);
    }
  }

  lemma RegisterKeeps(st: State, c: CallId, wants: seq<Want>)
    requires Ledger(st) && c in st.calls && st.calls[c].Importing?
    ensures Ledger(st.(nextCap := st.nextCap + 1, status := st.status[st.nextCap := Flying(c)],
                       calls := st.calls[c := Importing(st.calls[c].id, wants, st.calls[c].caps + [st.nextCap],
                         st.calls[c].total)]))
  {
    var caps := st.calls[c].caps;
    var status := st.status[st.nextCap := Flying(c)];
    assert st.nextCap !in st.status;
    assert st.nextCap !in caps;
    assert Lists(caps + [st.nextCap], status, Flying(c));
  }

  lemma RegisterNextKeeps(st: State, c: CallId, reply: Reply)
    requires Ledger(st) && c in st.calls && st.calls[c].Importing? && st.calls[c].wants != []
    ensures Ledger(RegisterNext(st, c, reply))
  {
    var call := st.calls[c];
    if !Usable(call.wants[0]) || reply.Rejected? {
      ReleaseFlying(st, c);
    } else {
      RegisterKeeps(st, c, call.wants[1..]);
      var st1 := st.(nextCap := st.nextCap + 1, status := st.status[st.nextCap := Flying(c)],
                     calls := st.calls[c := Importing(call.id, call.wants[1..], call.caps + [st.nextCap], call.total)]);
      ReleaseFlying(st1, c);
    }
  }

  /** Marking what is held under an id touches no other list. */
  lemma MarkHeld(st: State, id: Id, to: Status)
    requires Ledger(st) && id in st.recovered && (to.HandedOver? || to.Lost? || to.Released?)
    ensures var status := Mark(st.status, st.recovered[id], to);
            && CallsOk(st.calls, st.nextCall, status)
            && HeldOk(st.recovered - {id}, status)
            && (!to.Released? ==> Lists(st.released, status, Released))
            && (to.Released? ==> Lists(st.released + st.recovered[id], status, Released))
  {
    var caps := st.recovered[id];
    var status := Mark(st.status, caps, to);
    forall d | d in st.calls && st.calls[d].Importing?
      ensures Lists(st.calls[d].caps, status, Flying(d))
    {
      OtherList(st.calls[d].caps, caps, st.status, Flying(d), Held(id), to);
    }
    forall other | other in st.recovered && other != id
      ensures Lists(st.recovered[other], status, Held(other))
    {
      OtherList(st.recovered[other], caps, st.status, Held(other), Held(id), to);
    }
    if to.Released? {
      JoinLists(st.released, caps, st.status, Released, Held(id));
    } else {
      OtherList(st.released, caps, st.status, Released, Held(id), to);
    }
  }

  lemma ForgetKeeps(st: State, id: Id)
    requires Ledger(st)
    ensures Ledger(Forget(st, id))
  {
    if id in st.recovered {
      MarkHeld(st, id, if id in st.admitted then HandedOver(id) else Lost);
    }
  }

  lemma DiscardKeeps(st: State, id: Id)
    requires Ledger(st)
    ensures Ledger(Discarded(st, id))
  {
    if id in st.recovered {
      MarkHeld(st, id, Released);
    }
  }

  lemma StagedKeeps(st: State, c: CallId)
    requires Ledger(st) && c in st.calls && st.calls[c].Importing?
    ensures Ledger(Staged(st, c))
  {
    var id, caps := st.calls[c].id, st.calls[c].caps;
    ForgetKeeps(st, id);
    var st1 := Forget(st, id);
    var status := Mark(st1.status, caps, Held(id));
    assert id !in st1.recovered;
    forall d | d in st1.calls && d != c && st1.calls[d].Importing?
      ensures Lists(st1.calls[d].caps, status, Flying(d))
    {
      OtherList(st1.calls[d].caps, caps, st1.status, Flying(d), Flying(c), Held(id));
    }
    forall other | other in st1.recovered
      ensures Lists(st1.recovered[other], status, Held(other))
    {
      OtherList(st1.recovered[other], caps, st1.status, Held(other), Flying(c), Held(id));
    }
    OtherList(st1.released, caps, st1.status, Released, Flying(c), Held(id));
    JoinLists([], caps, st1.status, Held(id), Flying(c));
    assert [] + caps == caps;
  }

  lemma DropActivating(st: State, c: CallId)
    requires Ledger(st) && c in st.calls && st.calls[c].Activating?
    ensures Ledger(DropCall(st, c))
  {
  }

  lemma AddCallKeeps(st: State, call: Call)
    requires Ledger(st) && (call.Importing? ==> call.caps == [])
    ensures Ledger(st.(calls := st.calls[st.nextCall := call], nextCall := st.nextCall + 1))
  {
    assert st.nextCall !in st.calls;
  }

  lemma NextKeepsLedger(st: State, step: Step)
    requires Ledger(st)
    ensures Ledger(Next(st, step))
  {
    match step
    case BeginImport(id, valid, wants) => AddCallKeeps(st, Importing(id, wants, [], |wants|));
    case Register(c, reply) =>
      if c in st.calls && st.calls[c].Importing? && st.calls[c].wants != [] {
        RegisterNextKeeps(st, c, reply);
      }
    case FinishImport(c, live, conflict) =>
      if c in st.calls && st.calls[c].Importing? {
        ReleaseFlying(st, c);
        StagedKeeps(st, c);
      }
    case Discard(id) => DiscardKeeps(st, id);
    case BeginActivate(id, conflict) => AddCallKeeps(Admitted(st, id, conflict), Activating(id));
    case EndActivate(c, pushed) =>
      if c in st.calls && st.calls[c].Activating? {
        DropActivating(st, c);
        ForgetKeeps(DropCall(st, c).(staged := st.staged - {st.calls[c].id}), st.calls[c].id);
      }
    case AdmitStored(id, conflict) =>
    case OpenTab(id) =>
    case CloseTab(id) =>
  }

  lemma {:induction false} RunKeepsLedger(steps: seq<Step>)
    ensures Ledger(Run(steps))
  {
    if steps == [] {
      assert Run(steps) == Empty;
    } else {
      RunKeepsLedger(steps[..|steps| - 1]);
      NextKeepsLedger(Run(steps[..|steps| - 1]), steps[|steps| - 1]);
    }
  }

  /**
   In every run each registered capability is in exactly one place: with an import in progress, held
   for a staged tab, released once, handed over with an admitted tab, or lost.
   */
  lemma EveryCapabilityIsInOnePlace(steps: seq<Step>, k: Cap)
    requires k < Run(steps).nextCap
    ensures var st := Run(steps);
            && k in st.status
            && (forall c | c in st.calls && st.calls[c].Importing? ::
                  k in st.calls[c].caps <==> st.status[k] == Flying(c))
            && (forall id | id in st.recovered :: k in st.recovered[id] <==> st.status[k] == Held(id))
            && (k in st.released <==> st.status[k] == Released)
            && (st.status[k].Flying? ==> st.status[k].call in st.calls && st.calls[st.status[k].call].Importing?)
            && (st.status[k].Held? ==> st.status[k].id in st.recovered)
            && Distinct(st.released)
  {
    RunKeepsLedger(steps);
  }

  // ---------------------------------------------------------------- what can be lost

  predicate StagesImport(st: State, step: Step) {
    && step.FinishImport? && step.call in st.calls
    && var call := st.calls[step.call];
       call.Importing? && call.wants == [] && step.live && !step.conflict && call.id !in st.tabs
         && call.id !in st.imported
  }

  /** The id whose capabilities a step stops keeping without releasing them. */
  function Dropped(st: State, step: Step): Option<Id> {
    if StagesImport(st, step) then Some(st.calls[step.call].id)
    else if step.EndActivate? && step.call in st.calls && st.calls[step.call].Activating? && step.pushed
    then Some(st.calls[step.call].id)
    else None
  }

  /** The step stops keeping this capability, and its tab was not admitted since it was staged. */
  ghost predicate Loses(st: State, step: Step, k: Cap) {
    && Dropped(st, step).Some? && Dropped(st, step).value in st.recovered
    && Dropped(st, step).value !in st.admitted && k in st.recovered[Dropped(st, step).value]
  }

  /**
   A step loses a capability exactly when it drops those of an id that was not admitted since they
   were staged: an import under an id that is still staged, or the end of an activation after the
   tab was discarded and imported again. What is lost stays lost.
   */
  lemma LosesExactly(st: State, step: Step, k: Cap)
    requires Ledger(st) && k in st.status
    ensures k in Next(st, step).status
    ensures Next(st, step).status[k].Lost? <==> st.status[k].Lost? || Loses(st, step, k)
  {
    match step
    case Register(c, reply) => RegisterLosesNothing(st, c, reply, k);
    case FinishImport(c, live, conflict) => FinishLoses(st, c, live, conflict, k);
    case Discard(id) => DiscardLosesNothing(st, id, k);
    case EndActivate(c, pushed) => EndLoses(st, c, pushed, k);
    case _ => assert Next(st, step).status == st.status;
  }

  lemma FinishLoses(st: State, c: CallId, live: bool, conflict: bool, k: Cap)
    requires Ledger(st) && k in st.status
    ensures var step := FinishImport(c, live, conflict);
            && k in Next(st, step).status
            && (Next(st, step).status[k].Lost? <==> st.status[k].Lost? || Loses(st, step, k))
  {
    if c in st.calls && st.calls[c].Importing? && st.calls[c].wants == [] {
      ReleaseLosesNothing(st, c, k);
      StageLoses(st, c, k);
    }
  }

  lemma EndLoses(st: State, c: CallId, pushed: bool, k: Cap)
    requires Ledger(st) && k in st.status
    ensures var step := EndActivate(c, pushed);
            && k in Next(st, step).status
            && (Next(st, step).status[k].Lost? <==> st.status[k].Lost? || Loses(st, step, k))
  {
    if c in st.calls && st.calls[c].Activating? {
      ForgetLoses(st, st.calls[c].id, k);
    }
  }

  lemma ReleaseLosesNothing(st: State, c: CallId, k: Cap)
    requires Ledger(st) && k in st.status && c in st.calls && st.calls[c].Importing?
    ensures var status := Mark(st.status, st.calls[c].caps, Released);
            k in status && (status[k].Lost? <==> st.status[k].Lost?)
  {
    assert Lists(st.calls[c].caps, st.status, Flying(c));
  }

  lemma RegisterLosesNothing(st: State, c: CallId, reply: Reply, k: Cap)
    requires Ledger(st) && k in st.status
    ensures var st' := Next(st, Register(c, reply));
            k in st'.status && (st'.status[k].Lost? <==> st.status[k].Lost?)
  {
    if c in st.calls && st.calls[c].Importing? {
      ReleaseLosesNothing(st, c, k);
    }
  }

  lemma DiscardLosesNothing(st: State, id: Id, k: Cap)
    requires Ledger(st) && k in st.status
    ensures var st' := Discarded(st, id);
            k in st'.status && (st'.status[k].Lost? <==> st.status[k].Lost?)
  {
    if id in st.recovered {
      assert Lists(st.recovered[id], st.status, Held(id));
    }
  }

  lemma ForgetLoses(st: State, id: Id, k: Cap)
    requires Ledger(st) && k in st.status
    ensures var st' := Forget(st, id);
            && k in st'.status
            && (st'.status[k].Lost?
                <==> st.status[k].Lost? || (id in st.recovered && id !in st.admitted && k in st.recovered[id]))
  {
    if id in st.recovered {
      assert Lists(st.recovered[id], st.status, Held(id));
    }
  }

  lemma StageLoses(st: State, c: CallId, k: Cap)
    requires Ledger(st) && k in st.status && c in st.calls && st.calls[c].Importing?
    ensures var id := st.calls[c].id;
            && k in Staged(st, c).status
            && (Staged(st, c).status[k].Lost? <==>
                st.status[k].Lost? || (id in st.recovered && id !in st.admitted && k in st.recovered[id]))
  {
    assert Lists(st.calls[c].caps, st.status, Flying(c));
    ForgetLoses(st, st.calls[c].id, k);
    if st.calls[c].id in st.recovered {
      assert Lists(st.recovered[st.calls[c].id], st.status, Held(st.calls[c].id));
    }
  }

  lemma NewIsNotLost(st: State, step: Step, k: Cap)
    requires k !in st.status && k in Next(st, step).status
    ensures !Next(st, step).status[k].Lost?
  {
  }

  /** Some capability is dropped on the way. */
  predicate LosesSome(st: State, step: Step) {
    && Dropped(st, step).Some? && Dropped(st, step).value in st.recovered
    && Dropped(st, step).value !in st.admitted && st.recovered[Dropped(st, step).value] != []
  }

  predicate RunLoses(steps: seq<Step>) {
    steps != [] && (RunLoses(steps[..|steps| - 1]) || LosesSome(Run(steps[..|steps| - 1]), steps[|steps| - 1]))
  }

  /** A run loses a capability exactly when one of its steps drops some that were not admitted. */
  lemma {:induction false} RunLosesExactly(steps: seq<Step>)
    ensures AnyLost(Run(steps).status) <==> RunLoses(steps)
  {
    if steps == [] {
      assert Run(steps) == Empty;
    } else {
      var init, step := steps[..|steps| - 1], steps[|steps| - 1];
      RunLosesExactly(init);
      RunKeepsLedger(init);
      StepLosesExactly(Run(init), step);
      assert Run(steps) == Next(Run(init), step);
      assert RunLoses(steps) <==> RunLoses(init) || LosesSome(Run(init), step);
    }
  }

  predicate AnyLost(status: map<Cap, Status>) {
    exists k | k in status :: status[k].Lost?
  }

  lemma StepLosesExactly(st: State, step: Step)
    requires Ledger(st)
    ensures AnyLost(Next(st, step).status) <==> AnyLost(st.status) || LosesSome(st, step)
  {
    var st' := Next(st, step);
    forall k | k in st'.status
      ensures st'.status[k].Lost? <==> k in st.status && (st.status[k].Lost? || Loses(st, step, k))
    {
      if k in st.status {
        LosesExactly(st, step, k);
      } else {
        NewIsNotLost(st, step, k);
      }
    }
    forall k | k in st.status
      ensures k in st'.status
    {
      LosesExactly(st, step, k);
    }
    if LosesSome(st, step) {
      var id := Dropped(st, step).value;
      var k := st.recovered[id][0];
      assert Lists(st.recovered[id], st.status, Held(id));
      assert k in st.recovered[id] && Loses(st, step, k);
    }
  }

  // ---------------------------------------------------------------- runs that lose nothing

  /** No activation of this tab is waiting for the router. */
  predicate NoActivation(st: State, id: Id) {
    forall c | c in st.calls && st.calls[c].Activating? :: st.calls[c].id != id
  }

  /**
   How the application uses recovery: a tab is closed only when it is open, a new tab does not take a
   staged id, and a tab is neither discarded nor imported while its activation waits. The store may
   open a staged tab by itself.
   */
  predicate Sound(st: State, step: Step) {
    match step
    case CloseTab(id) => id in st.tabs
    case OpenTab(id) => id !in st.staged
    case Discard(id) => NoActivation(st, id)
    case FinishImport(c, _, _) => c in st.calls && st.calls[c].Importing? ==> NoActivation(st, st.calls[c].id)
    case _ => true
  }

  ghost predicate Kept(st: State) {
    && (forall id :: id in st.staged <==> id in st.recovered)
    && (forall id | id in st.recovered && id !in st.admitted :: id in st.imported && id !in st.tabs)
    && (forall c | c in st.calls && st.calls[c].Activating? ::
          st.calls[c].id in st.recovered ==> st.calls[c].id in st.admitted)
    && (forall k | k in st.status :: !st.status[k].Lost?)
  }

  lemma DroppedIsAdmitted(st: State, step: Step)
    requires Kept(st) && Sound(st, step)
    ensures !LosesSome(st, step)
  {
  }

  lemma NothingIsLostNext(st: State, step: Step)
    requires Kept(st) && Sound(st, step) && Ledger(st)
    ensures forall k | k in Next(st, step).status :: !Next(st, step).status[k].Lost?
  {
    DroppedIsAdmitted(st, step);
    StepLosesExactly(st, step);
  }

  lemma NextKeepsKept(st: State, step: Step)
    requires Kept(st) && Sound(st, step) && Ledger(st)
    ensures Kept(Next(st, step))
  {
    NothingIsLostNext(st, step);
    assert st.nextCall !in st.calls;
  }

  predicate SoundRun(steps: seq<Step>) {
    steps == [] || (SoundRun(steps[..|steps| - 1]) && Sound(Run(steps[..|steps| - 1]), steps[|steps| - 1]))
  }

  /** With that use no capability is ever lost. */
  lemma {:induction false} NothingIsLost(steps: seq<Step>)
    requires SoundRun(steps)
    ensures Kept(Run(steps))
    ensures forall k | k in Run(steps).status :: !Run(steps).status[k].Lost?
  {
    if steps == [] {
      assert Run(steps) == Empty;
    } else {
      NothingIsLost(steps[..|steps| - 1]);
      RunKeepsLedger(steps[..|steps| - 1]);
      NextKeepsKept(Run(steps[..|steps| - 1]), steps[|steps| - 1]);
    }
  }

  // ---------------------------------------------------------------- one capability per directory

  ghost predicate Counted(st: State) {
    && (forall c | c in st.calls && st.calls[c].Importing? ::
        |st.calls[c].caps| + |st.calls[c].wants| == st.calls[c].total)
  }

  lemma {:induction false} ImportsAreCounted(steps: seq<Step>)
    ensures Counted(Run(steps))
  {
    if steps == [] {
      assert Run(steps) == Empty;
    } else {
      ImportsAreCounted(steps[..|steps| - 1]);
      CountedNext(Run(steps[..|steps| - 1]), steps[|steps| - 1]);
    }
  }

  lemma CountedNext(st: State, step: Step)
    requires Counted(st)
    ensures Counted(Next(st, step))
  {
  }

  /** A tab is staged with exactly one capability for each of its directories. */
  lemma StagedWithAll(steps: seq<Step>, step: Step)
    requires StagesImport(Run(steps), step)
    ensures var call := Run(steps).calls[step.call];
            var st := Next(Run(steps), step);
            call.id in st.recovered && st.recovered[call.id] == call.caps && |call.caps| == call.total
  {
    ImportsAreCounted(steps);
  }

  // ---------------------------------------------------------------- how a capability gets lost

  lemma RunThen(steps: seq<Step>, step: Step)
    ensures Run(steps + [step]) == Next(Run(steps), step)
  {
    assert (steps + [step])[..|steps|] == steps;
  }

  /** A tab with one directory, imported as call 0 and staged. */
  function ImportSteps(id: Id, path: string): seq<Step> {
    [BeginImport(id, true, [Want(Some(path), true)])] + [Register(0, Registered(path))] + [FinishImport(0, true, false)]
  }

  function StagedOnce(id: Id): State {
    State({id}, map[id := [0]], map[], 1, {}, {id}, [], 1, map[0 := Held(id)], {})
  }

  lemma FirstImport(id: Id, path: string)
    requires Usable(Want(Some(path), true))
    ensures Run(ImportSteps(id, path)) == StagedOnce(id)
  {
    var w := Want(Some(path), true);
    RunThen([], BeginImport(id, true, [w]));
    assert [] + [BeginImport(id, true, [w])] == [BeginImport(id, true, [w])];
    var st1 := State({}, map[], map[0 := Importing(id, [w], [], 1)], 1, {}, {}, [], 0, map[], {});
    assert Run([BeginImport(id, true, [w])]) == st1;
    RunThen([BeginImport(id, true, [w])], Register(0, Registered(path)));
    var st2 := State({}, map[], map[0 := Importing(id, [], [0], 1)], 1, {}, {}, [], 1, map[0 := Flying(0)], {});
    assert [w][1..] == [] && [] + [0] == [0];
    assert Next(st1, Register(0, Registered(path))) == st2;
    RunThen([BeginImport(id, true, [w])] + [Register(0, Registered(path))], FinishImport(0, true, false));
    assert Next(st2, FinishImport(0, true, false)).calls == map[];
  }

  function ForgottenThenImported(id: Id, path: string): seq<Step> {
    ImportSteps(id, path) + [CloseTab(id)] + [BeginImport(id, true, [])]
  }

  lemma AfterForgetting(id: Id, path: string)
    requires Usable(Want(Some(path), true))
    ensures Run(ForgottenThenImported(id, path))
            == StagedOnce(id).(imported := {}, calls := map[1 := Importing(id, [], [], 0)], nextCall := 2)
  {
    FirstImport(id, path);
    RunThen(ImportSteps(id, path), CloseTab(id));
    RunThen(ImportSteps(id, path) + [CloseTab(id)], BeginImport(id, true, []));
  }

  /** From the start: the store forgets a staged tab, and importing it again loses its capability. */
  lemma ForgottenStageLoses(id: Id, path: string)
    requires Usable(Want(Some(path), true))
    ensures var steps := ForgottenThenImported(id, path) + [FinishImport(1, true, false)];
            Run(steps).status == map[0 := Lost] && Run(steps).released == []
  {
    AfterForgetting(id, path);
    RunThen(ForgottenThenImported(id, path), FinishImport(1, true, false));
    var st := StagedOnce(id).(imported := {}, calls := map[1 := Importing(id, [], [], 0)], nextCall := 2);
    assert Forget(st, id).status == map[0 := Lost];
  }

  // From here a run of import, discard and activate alone.

  function ActivatedThenDiscarded(id: Id, path: string): seq<Step> {
    ImportSteps(id, path) + [BeginActivate(id, false)] + [Discard(id)]
  }

  lemma AfterDiscard(id: Id, path: string)
    requires Usable(Want(Some(path), true))
    ensures Run(ActivatedThenDiscarded(id, path))
            == State({}, map[], map[1 := Activating(id)], 2, {}, {}, [0], 1, map[0 := Released], {})
  {
    FirstImport(id, path);
    RunThen(ImportSteps(id, path), BeginActivate(id, false));
    RunThen(ImportSteps(id, path) + [BeginActivate(id, false)], Discard(id));
    var st := StagedOnce(id).(tabs := {id}, admitted := {id}, calls := map[1 := Activating(id)], nextCall := 2);
    assert Next(StagedOnce(id), BeginActivate(id, false)) == st;
    assert st.recovered - {id} == map[] && [] + [0] == [0];
  }

  function ImportedAgain(id: Id, path: string): seq<Step> {
    ActivatedThenDiscarded(id, path) + [BeginImport(id, true, [Want(Some(path), true)])]
    + [Register(2, Registered(path))] + [FinishImport(2, true, false)]
  }

  lemma AfterSecondImport(id: Id, path: string)
    requires Usable(Want(Some(path), true))
    ensures Run(ImportedAgain(id, path))
            == State({id}, map[id := [1]], map[1 := Activating(id)], 3, {}, {id}, [0], 2,
              map[0 := Released, 1 := Held(id)], {})
  {
    var w := Want(Some(path), true);
    var a := ActivatedThenDiscarded(id, path);
    AfterDiscard(id, path);
    RunThen(a, BeginImport(id, true, [w]));
    RunThen(a + [BeginImport(id, true, [w])], Register(2, Registered(path)));
    RunThen(a + [BeginImport(id, true, [w])] + [Register(2, Registered(path))], FinishImport(2, true, false));
    SecondRegistration(id, path, Run(a));
  }

  lemma SecondRegistration(id: Id, path: string, st: State)
    requires Usable(Want(Some(path), true))
    requires st == State({}, map[], map[1 := Activating(id)], 2, {}, {}, [0], 1, map[0 := Released], {})
    ensures var st1 := Next(st, BeginImport(id, true, [Want(Some(path), true)]));
            var st2 := Next(st1, Register(2, Registered(path)));
            Next(st2, FinishImport(2, true, false))
            == State({id}, map[id := [1]], map[1 := Activating(id)], 3, {}, {id}, [0], 2,
              map[0 := Released, 1 := Held(id)], {})
  {
    var w := Want(Some(path), true);
    var st1 := st.(calls := map[1 := Activating(id), 2 := Importing(id, [w], [], 1)], nextCall := 3);
    assert Next(st, BeginImport(id, true, [w])) == st1;
    RegisteredAgain(id, path, st1);
    StagedAgain(id, Next(st1, Register(2, Registered(path))));
  }

  lemma RegisteredAgain(id: Id, path: string, st: State)
    requires Usable(Want(Some(path), true)) && st.nextCap == 1 && st.status == map[0 := Released]
    requires st.calls == map[1 := Activating(id), 2 := Importing(id, [Want(Some(path), true)], [], 1)]
    ensures Next(st, Register(2, Registered(path)))
            == st.(calls := map[1 := Activating(id), 2 := Importing(id, [], [1], 1)], nextCap := 2,
                   status := map[0 := Released, 1 := Flying(2)])
  {
    assert [Want(Some(path), true)][1..] == [] && [] + [1] == [1];
  }

  lemma StagedAgain(id: Id, st: State)
    requires st == State({}, map[], map[1 := Activating(id), 2 := Importing(id, [], [1], 1)], 3, {}, {}, [0], 2,
                         map[0 := Released, 1 := Flying(2)], {})
    ensures Next(st, FinishImport(2, true, false))
            == State({id}, map[id := [1]], map[1 := Activating(id)], 3, {}, {id}, [0], 2,
                     map[0 := Released, 1 := Held(id)], {})
  {
    assert st.calls - {2} == map[1 := Activating(id)];
  }

  /**
   From the start, with import, discard and activate alone: the activation that still waits for the
   router ends after the tab was discarded and imported again, and the new capability is lost.
   */
  lemma LateActivationLoses(id: Id, path: string)
    requires Usable(Want(Some(path), true))
    ensures var steps := ImportedAgain(id, path) + [EndActivate(1, true)];
            Run(steps).status == map[0 := Released, 1 := Lost] && Run(steps).released == [0]
              && Run(steps).recovered == map[]
  {
    AfterSecondImport(id, path);
    RunThen(ImportedAgain(id, path), EndActivate(1, true));
    EndForgets(id, Run(ImportedAgain(id, path)), 1, 1);
  }

  lemma EndForgets(id: Id, st: State, c: CallId, k: Cap)
    requires c in st.calls && st.calls[c] == Activating(id) && st.recovered == map[id := [k]] && id !in st.admitted
    requires k in st.status
    ensures Next(st, EndActivate(c, true)).recovered == map[] && Next(st, EndActivate(c, true)).released == st.released
    ensures Next(st, EndActivate(c, true)).status == st.status[k := Lost]
  {
    assert st.recovered - {id} == map[];
  }
}
