/**
 The process-wide owner of forward sessions. A session whose cleanup is uncertain blocks exit until
 the user confirms it once, with the exact generation and revision they saw.

 `Gate` interleaves everything: callers start and stop sessions and run a shutdown, the session
 tasks make progress, and every call continues after its await at any later time.
 */
module ExitGate {
  import opened Basics
  import opened ForwardSession

  type Id = string
  type Handle = nat
  type CallId = nat

  /** A call that waits, holding the id and the handle it looked up when it began. */
  datatype Call =
    | Stopper(id: Id, handle: Handle)
    // A shutdown that has not looked at this session yet, or waits for it to stop.
    | ShutdownVisit(id: Id, handle: Handle)
    | ShutdownStopper(id: Id, handle: Handle)

  datatype Gate = Gate(
    sessions: map<Id, Handle>,
    // What each session task last published.
    summaries: map<Handle, Summary>,
    retained: map<Id, (nat, nat)>,
    calls: map<CallId, Call>,
    nextHandle: Handle,
    nextCall: CallId,
    // History: the id each handle was started with.
    home: map<Handle, Id>)

  const Empty := Gate(map[], map[], map[], map[], 0, 0, map[])

  datatype Step =
    | Start(id: Id)
    | Progress(handle: Handle, summary: Summary)
    | BeginStop(id: Id, generation: nat)
    | Retain(id: Id, generation: nat, revision: nat, confirmed: bool)
    | BeginShutdown(order: seq<Id>)
    | Continue(call: CallId)
    | Abandon(call: CallId)

  predicate Terminal(s: Summary) {
    s.state.Failed? || s.state.Stopped?
  }

  predicate Blocked(s: Summary) {
    s.state.Failed? && s.cleanup.uncertain
  }

  /** How a published summary may be replaced: never once it is terminal; and Stopped means certain. */
  predicate Continues(s: Summary, s': Summary) {
    && s'.generation == s.generation
    && (Terminal(s) ==> s' == s)
    && (s'.state.Stopped? ==> !s'.cleanup.uncertain)
  }

  /** Session tasks replace their summaries only in this way, whatever happens to them. */
  lemma ActorContinues(a: Actor, e: Event)
    requires ForwardSession.Inv(a)
    ensures Continues(a.summary, ForwardSession.Step(a, e).summary)
  {
    ForwardSession.StepKeepsInv(a, e);
    ForwardSession.StepExtends(a, e);
  }

  function Snapshot(g: Gate, id: Id): Option<Summary> {
    if id in g.sessions && g.sessions[id] in g.summaries then Some(g.summaries[g.sessions[id]]) else None
  }

  function Blockers(g: Gate): set<Id> {
    set id | id in g.sessions && Snapshot(g, id).Some? && Blocks(Snapshot(g, id).value, id, g.retained)
  }

  predicate Blocks(s: Summary, id: Id, retained: map<Id, (nat, nat)>) {
    match s.state
    case Starting => true
    case Running => true
    case Stopping => true
    case Failed => s.cleanup.uncertain && !(id in retained && retained[id] == (s.generation, s.revision))
    case Stopped => false
  }

  // ---------------------------------------------------------------- steps

  function Started(g: Gate, id: Id): Gate {
    if id in g.sessions then g
    else g.(sessions := g.sessions[id := g.nextHandle],
            summaries := g.summaries[g.nextHandle := FirstSummary],
            home := g.home[g.nextHandle := id],
            nextHandle := g.nextHandle + 1)
  }

  function Waiting(g: Gate, call: Call): Gate {
    g.(calls := g.calls[g.nextCall := call], nextCall := g.nextCall + 1)
  }

  function Retained(g: Gate, id: Id, generation: nat, revision: nat, confirmed: bool): Gate {
    var s := Snapshot(g, id);
    if !confirmed || s.None? then g
    else if s.value.generation != generation || s.value.revision != revision || !Blocked(s.value) then g
    else g.(retained := g.retained[id := (generation, revision)])
  }

  function Visits(g: Gate, order: seq<Id>): Gate
    decreases |order|
  {
    if order == [] then g
    else
      var g' := if order[0] in g.sessions then Waiting(g, ShutdownVisit(order[0], g.sessions[order[0]])) else g;
      Visits(g', order[1..])
  }

  /** A stop answers with the final summary; the session leaves the map unless that is uncertain. */
  function Continued(g: Gate, c: CallId): Gate
    requires c in g.calls && g.calls[c].handle in g.summaries
  {
    var done := g.(calls := g.calls - {c});
    var s := g.summaries[g.calls[c].handle];
    match g.calls[c]
    case Stopper(id, h) =>
      if !Terminal(s) then g
      else if s.cleanup.uncertain then done
      else done.(sessions := g.sessions - {id}, retained := g.retained - {id})
    case ShutdownVisit(id, h) =>
      if Blocked(s) then done.(retained := g.retained - {id})
      else if Terminal(s) then done.(sessions := g.sessions - {id})
      else g.(calls := g.calls[c := ShutdownStopper(id, h)])
    case ShutdownStopper(id, h) =>
      if !Terminal(s) then g
      else if s.cleanup.uncertain then done
      else done.(sessions := g.sessions - {id})
  }

  function Next(g: Gate, step: Step): Gate {
    match step
    case Start(id) => Started(g, id)
    case Progress(h, s) =>
      if h in g.summaries && Continues(g.summaries[h], s) then g.(summaries := g.summaries[h := s]) else g
    case BeginStop(id, generation) =>
      if Snapshot(g, id).None? || Snapshot(g, id).value.generation != generation then g
      else Waiting(g, Stopper(id, g.sessions[id]))
    case Retain(id, generation, revision, confirmed) => Retained(g, id, generation, revision, confirmed)
    case BeginShutdown(order) => Visits(g, order)
    case Continue(c) => if c in g.calls && g.calls[c].handle in g.summaries then Continued(g, c) else g
    case Abandon(c) => g.(calls := g.calls - {c})
  }

  function Run(g: Gate, steps: seq<Step>): Gate {
    if steps == [] then g else Next(Run(g, steps[..|steps| - 1]), steps[|steps| - 1])
  }

  // ---------------------------------------------------------------- what every step keeps

  predicate EndedCertain(s: Summary) {
    Terminal(s) && !s.cleanup.uncertain
  }

  predicate InMap(g: Gate, h: Handle) {
    h in g.home && g.home[h] in g.sessions && g.sessions[g.home[h]] == h
  }

  /** A handle that is no longer in the map ended, and ended without uncertainty. */
  predicate Accounted(g: Gate, h: Handle) {
    h in g.summaries ==> InMap(g, h) || EndedCertain(g.summaries[h])
  }

  ghost predicate AllAccounted(g: Gate) {
    forall h | h in g.summaries :: Accounted(g, h)
  }

  ghost predicate Known(g: Gate) {
    && g.home.Keys == g.summaries.Keys
    && (forall h | h in g.summaries ::
          h < g.nextHandle && (g.summaries[h].state.Stopped? ==> !g.summaries[h].cleanup.uncertain))
    && (forall id | id in g.sessions :: g.sessions[id] in g.summaries && g.home[g.sessions[id]] == id)
    && (forall c | c in g.calls :: c < g.nextCall && g.calls[c].handle in g.summaries
                                   && g.home[g.calls[c].handle] == g.calls[c].id)
  }

  /** A confirmation stands only for a session that is still there, still uncertain and unchanged. */
  ghost predicate Fenced(g: Gate) {
    forall id | id in g.retained ::
      && Snapshot(g, id).Some? && Blocked(Snapshot(g, id).value)
      && g.retained[id] == (Snapshot(g, id).value.generation, Snapshot(g, id).value.revision)
  }

  ghost predicate Inv(g: Gate) {
    Known(g) && AllAccounted(g) && Fenced(g)
  }

  /**
   The step takes away a session that it does not own: a waiting call continues whose own session
   ended with certainty, while its id names another session that did not end with certainty.
   */
  predicate Overtakes(g: Gate, step: Step) {
    && step.Continue? && step.call in g.calls
    && var call := g.calls[step.call];
    && call.handle in g.summaries && EndedCertain(g.summaries[call.handle])
    && call.id in g.sessions && g.sessions[call.id] != call.handle
    && g.sessions[call.id] in g.summaries && !EndedCertain(g.summaries[g.sessions[call.id]])
  }

  // Every step, overtaking or not, knows its handles.

  lemma StartKnows(g: Gate, id: Id)
    requires Known(g)
    ensures Known(Started(g, id))
  {
  }

  lemma ProgressKnows(g: Gate, h: Handle, s: Summary)
    requires Known(g)
    ensures Known(Next(g, Progress(h, s)))
  {
  }

  lemma WaitingKnows(g: Gate, call: Call)
    requires Known(g) && call.id in g.sessions && call.handle == g.sessions[call.id]
    ensures Known(Waiting(g, call))
  {
  }

  lemma {:induction false} VisitsKnow(g: Gate, order: seq<Id>)
    requires Known(g)
    ensures Known(Visits(g, order)) && SameSessions(g, Visits(g, order))
    decreases |order|
  {
    if order != [] {
      if order[0] in g.sessions {
        var call := ShutdownVisit(order[0], g.sessions[order[0]]);
        WaitingKnows(g, call);
        VisitsKnow(Waiting(g, call), order[1..]);
      } else {
        VisitsKnow(g, order[1..]);
      }
    }
  }

  /** Sessions and calls may leave, and a call may change its kind. */
  predicate Shrinks(g: Gate, g': Gate) {
    && g'.summaries == g.summaries && g'.home == g.home && g'.nextHandle == g.nextHandle && g'.nextCall == g.nextCall
    && (forall id | id in g'.sessions :: id in g.sessions && g'.sessions[id] == g.sessions[id])
    && (forall c | c in g'.calls ::
          c in g.calls && g'.calls[c].id == g.calls[c].id && g'.calls[c].handle == g.calls[c].handle)
  }

  lemma ShrinkKnows(g: Gate, g': Gate)
    requires Known(g) && Shrinks(g, g')
    ensures Known(g')
  {
  }

  lemma ContinueShrinks(g: Gate, c: CallId)
    requires c in g.calls && g.calls[c].handle in g.summaries
    ensures Shrinks(g, Continued(g, c))
  {
  }

  lemma ContinueKnows(g: Gate, c: CallId)
    requires Known(g) && c in g.calls
    ensures Known(Continued(g, c))
  {
    ContinueShrinks(g, c);
    ShrinkKnows(g, Continued(g, c));
  }

  lemma NextKnows(g: Gate, step: Step)
    requires Known(g)
    ensures Known(Next(g, step))
  {
    match step
    case Start(id) => StartKnows(g, id);
    case Progress(h, s) => ProgressKnows(g, h, s);
    case BeginStop(id, generation) =>
      if id in g.sessions {
        WaitingKnows(g, Stopper(id, g.sessions[id]));
      }
    case Retain(id, generation, revision, confirmed) =>
    case BeginShutdown(order) => VisitsKnow(g, order);
    case Continue(c) =>
      if c in g.calls {
        ContinueKnows(g, c);
      }
    case Abandon(c) =>
  }

  // Which steps leave every session accounted for.

  predicate SameSessions(g: Gate, g': Gate) {
    g'.sessions == g.sessions && g'.summaries == g.summaries && g'.home == g.home && g'.retained == g.retained
  }

  lemma SameSessionsAccount(g: Gate, g': Gate)
    requires g'.sessions == g.sessions && g'.summaries == g.summaries && g'.home == g.home
    ensures AllAccounted(g') <==> AllAccounted(g)
  {
    forall h | h in g.summaries
      ensures Accounted(g', h) <==> Accounted(g, h)
    {
    }
  }

  lemma StartAccounts(g: Gate, id: Id)
    requires Known(g) && AllAccounted(g)
    ensures AllAccounted(Started(g, id))
  {
    var g' := Started(g, id);
    if id !in g.sessions {
      forall h | h in g'.summaries
        ensures Accounted(g', h)
      {
        assert h != g.nextHandle ==> Accounted(g, h) && (InMap(g, h) ==> g.home[h] != id);
      }
    }
  }

  lemma ProgressAccounts(g: Gate, h: Handle, s: Summary)
    requires Known(g) && AllAccounted(g)
    ensures AllAccounted(Next(g, Progress(h, s)))
  {
    var g' := Next(g, Progress(h, s));
    forall k | k in g'.summaries
      ensures Accounted(g', k)
    {
      assert Accounted(g, k);
    }
  }

  /** Taking an id out of the map is safe exactly when its session ended with certainty. */
  lemma RemoveAccountsExactly(g: Gate, g': Gate, id: Id)
    requires Known(g) && AllAccounted(g)
    requires g'.sessions == g.sessions - {id} && g'.summaries == g.summaries && g'.home == g.home
    ensures AllAccounted(g') <==> (id in g.sessions ==> EndedCertain(g.summaries[g.sessions[id]]))
  {
    if id in g.sessions && !EndedCertain(g.summaries[g.sessions[id]]) {
      assert !Accounted(g', g.sessions[id]);
    } else {
      forall h | h in g'.summaries
        ensures Accounted(g', h)
      {
        assert Accounted(g, h);
      }
    }
  }

  /** A continuing call takes its id out of the map exactly when its own session ended with certainty. */
  lemma ContinueRemoves(g: Gate, c: CallId)
    requires Known(g) && c in g.calls
    ensures Continued(g, c).sessions
            == if EndedCertain(g.summaries[g.calls[c].handle]) then g.sessions - {g.calls[c].id} else g.sessions
  {
  }

  lemma ContinueAccountsExactly(g: Gate, c: CallId)
    requires Known(g) && AllAccounted(g) && c in g.calls
    ensures AllAccounted(Continued(g, c)) <==> !Overtakes(g, Continue(c))
  {
    var call := g.calls[c];
    ContinueShrinks(g, c);
    ContinueRemoves(g, c);
    if EndedCertain(g.summaries[call.handle]) {
      RemoveAccountsExactly(g, Continued(g, c), call.id);
    } else {
      SameSessionsAccount(g, Continued(g, c));
    }
  }

  lemma StepAccountsExactly(g: Gate, step: Step)
    requires Known(g) && AllAccounted(g)
    ensures AllAccounted(Next(g, step)) <==> !Overtakes(g, step)
  {
    match step
    case Start(id) => StartAccounts(g, id);
    case Progress(h, s) => ProgressAccounts(g, h, s);
    case BeginShutdown(order) =>
      VisitsKnow(g, order);
      SameSessionsAccount(g, Visits(g, order));
    case Continue(c) =>
      if c in g.calls {
        ContinueAccountsExactly(g, c);
      }
    case _ => SameSessionsAccount(g, Next(g, step));
  }

  // Confirmations.

  lemma StartFences(g: Gate, id: Id)
    requires Known(g) && Fenced(g)
    ensures Fenced(Started(g, id))
  {
    forall i | i in g.retained
      ensures Snapshot(Started(g, id), i) == Snapshot(g, i)
    {
      assert Snapshot(g, i).Some?;
    }
  }

  lemma ContinueFences(g: Gate, c: CallId)
    requires Known(g) && Fenced(g) && c in g.calls && !Overtakes(g, Continue(c))
    ensures Fenced(Continued(g, c))
  {
    var g' := Continued(g, c);
    forall i | i in g'.retained
      ensures Snapshot(g', i) == Snapshot(g, i)
    {
      assert Snapshot(g, i).Some? && Blocked(Snapshot(g, i).value);
    }
  }

  lemma NextFences(g: Gate, step: Step)
    requires Known(g) && Fenced(g) && !Overtakes(g, step)
    ensures Fenced(Next(g, step))
  {
    match step
    case Start(id) => StartFences(g, id);
    case BeginShutdown(order) => VisitsKnow(g, order);
    case Continue(c) =>
      if c in g.calls {
        ContinueFences(g, c);
      }
    case _ =>
  }

  lemma NextKeepsInv(g: Gate, step: Step)
    requires Inv(g)
    ensures !Overtakes(g, step) ==> Inv(Next(g, step))
    ensures Overtakes(g, step) ==> !Inv(Next(g, step))
  {
    NextKnows(g, step);
    StepAccountsExactly(g, step);
    if !Overtakes(g, step) {
      NextFences(g, step);
    }
  }

  // ---------------------------------------------------------------- every run

  /** After the first `k` steps every session is in the map or ended with certainty. */
  ghost predicate AccountedAt(steps: seq<Step>, k: nat)
    requires k <= |steps|
  {
    AllAccounted(Run(Empty, steps[..k]))
  }

  predicate OvertakesAt(steps: seq<Step>, k: nat)
    requires k < |steps|
  {
    Overtakes(Run(Empty, steps[..k]), steps[k])
  }

  predicate NeverOvertakes(steps: seq<Step>) {
    forall k | 0 <= k < |steps| :: !OvertakesAt(steps, k)
  }

  lemma {:induction false} RunKnows(steps: seq<Step>)
    ensures Known(Run(Empty, steps))
  {
    if steps != [] {
      RunKnows(steps[..|steps| - 1]);
      NextKnows(Run(Empty, steps[..|steps| - 1]), steps[|steps| - 1]);
    }
  }

  lemma OvertakesBefore(steps: seq<Step>, n: nat, k: nat)
    requires k < n <= |steps|
    ensures OvertakesAt(steps[..n], k) == OvertakesAt(steps, k)
  {
    assert steps[..n][..k] == steps[..k];
  }

  lemma NeverBefore(steps: seq<Step>, n: nat)
    requires n <= |steps| && NeverOvertakes(steps)
    ensures NeverOvertakes(steps[..n])
  {
    forall k | 0 <= k < n
      ensures !OvertakesAt(steps[..n], k)
    {
      OvertakesBefore(steps, n, k);
    }
  }

  lemma {:induction false} RunKeepsInv(steps: seq<Step>)
    requires NeverOvertakes(steps)
    ensures Inv(Run(Empty, steps))
  {
    if steps != [] {
      var n := |steps| - 1;
      NeverBefore(steps, n);
      RunKeepsInv(steps[..n]);
      assert !OvertakesAt(steps, n);
      NextKeepsInv(Run(Empty, steps[..n]), steps[n]);
    }
  }

  lemma OvertakenAt(steps: seq<Step>, k: nat)
    requires k < |steps| && OvertakesAt(steps, k) && AccountedAt(steps, k)
    ensures !AccountedAt(steps, k + 1)
  {
    RunKnows(steps[..k]);
    StepAccountsExactly(Run(Empty, steps[..k]), steps[k]);
    assert steps[..k + 1][..k] == steps[..k];
  }

  /** At every point of a run all sessions are accounted for exactly when no step overtakes. */
  lemma AccountedExactly(steps: seq<Step>)
    ensures (forall k | 0 <= k <= |steps| :: AccountedAt(steps, k)) <==> NeverOvertakes(steps)
  {
    if NeverOvertakes(steps) {
      forall k | 0 <= k <= |steps|
        ensures AccountedAt(steps, k)
      {
        NeverBefore(steps, k);
        RunKeepsInv(steps[..k]);
      }
    } else {
      var k :| 0 <= k < |steps| && OvertakesAt(steps, k);
      if AccountedAt(steps, k) {
        OvertakenAt(steps, k);
      }
    }
  }

  /** The session failed, its cleanup is uncertain, and it is not in the map. */
  predicate Lost(g: Gate, h: Handle) {
    h in g.summaries && Blocked(g.summaries[h]) && !InMap(g, h)
  }

  /** A session is unaccounted for exactly when the next summary its task may publish makes it lost. */
  lemma LostNextExactly(g: Gate, h: Handle)
    requires Known(g)
    ensures !Accounted(g, h) <==> exists s :: Lost(Next(g, Progress(h, s)), h)
  {
    if !Accounted(g, h) {
      var now := g.summaries[h];
      var s := if Terminal(now) then now
               else FailSummary(now.(cleanup := now.cleanup.(uncertain := true)), RemoteRegistrationUncertain);
      assert Lost(Next(g, Progress(h, s)), h);
    }
  }

  /**
   In every run without such a step, a session whose cleanup is uncertain is still in the map under
   its id, and once it has failed it blocks exit exactly as long as no confirmation of its generation
   and revision is held.
   */
  lemma UncertainSessionIsKept(steps: seq<Step>, h: Handle)
    requires NeverOvertakes(steps)
    requires h in Run(Empty, steps).summaries && Run(Empty, steps).summaries[h].cleanup.uncertain
    ensures var g := Run(Empty, steps);
            var s := g.summaries[h];
            && h in g.home && Snapshot(g, g.home[h]) == Some(s)
            && (Terminal(s) ==> Blocked(s))
            && (Blocked(s) ==> (g.home[h] in Blockers(g) <==>
                                !(g.home[h] in g.retained && g.retained[g.home[h]] == (s.generation, s.revision))))
            && (Blocked(s) && g.home[h] in g.retained ==> g.home[h] !in Blockers(g))
  {
    RunKeepsInv(steps);
    assert Accounted(Run(Empty, steps), h);
  }

  // ---------------------------------------------------------------- when ids are not reused

  /** No waiting call was overtaken by a new session under its id. */
  ghost predicate NotOvertaken(g: Gate) {
    forall c | c in g.calls :: g.calls[c].id in g.sessions ==> g.sessions[g.calls[c].id] == g.calls[c].handle
  }

  /** A session id is not started again while a call for an earlier session under it still waits. */
  predicate Sound(g: Gate, step: Step) {
    step.Start? ==> forall c | c in g.calls :: g.calls[c].id != step.id
  }

  predicate SoundRun(steps: seq<Step>) {
    forall k | 0 <= k < |steps| :: SoundAt(steps, k)
  }

  predicate SoundAt(steps: seq<Step>, k: nat)
    requires k < |steps|
  {
    Sound(Run(Empty, steps[..k]), steps[k])
  }

  lemma {:induction false} VisitsNotOvertaken(g: Gate, order: seq<Id>)
    requires NotOvertaken(g)
    ensures NotOvertaken(Visits(g, order))
    decreases |order|
  {
    if order != [] {
      if order[0] in g.sessions {
        VisitsNotOvertaken(Waiting(g, ShutdownVisit(order[0], g.sessions[order[0]])), order[1..]);
      } else {
        VisitsNotOvertaken(g, order[1..]);
      }
    }
  }

  lemma SoundStep(g: Gate, step: Step)
    requires NotOvertaken(g) && Sound(g, step)
    ensures NotOvertaken(Next(g, step)) && !Overtakes(g, step)
  {
    match step
    case BeginShutdown(order) => VisitsNotOvertaken(g, order);
    case _ =>
  }

  /** When no id is started again under a waiting call, nothing is ever overtaken. */
  lemma {:induction false} SoundNeverOvertakes(steps: seq<Step>)
    requires SoundRun(steps)
    ensures NeverOvertakes(steps) && NotOvertaken(Run(Empty, steps))
  {
    if steps != [] {
      var n := |steps| - 1;
      forall k | 0 <= k < n
        ensures SoundAt(steps[..n], k)
      {
        assert SoundAt(steps, k) && steps[..n][..k] == steps[..k];
      }
      SoundNeverOvertakes(steps[..n]);
      assert SoundAt(steps, n);
      SoundStep(Run(Empty, steps[..n]), steps[n]);
      forall k | 0 <= k < |steps|
        ensures !OvertakesAt(steps, k)
      {
        if k < n {
          OvertakesBefore(steps, n, k);
        }
      }
    }
  }

  // ---------------------------------------------------------------- why ids must not be reused

  lemma RunThen(steps: seq<Step>, step: Step)
    ensures Run(Empty, steps + [step]) == Next(Run(Empty, steps), step)
  {
    assert (steps + [step])[..|steps|] == steps;
  }

  /** A session that was asked to stop while it was connecting. */
  function StoppedSummary(): Summary {
    Transition(Transition(FirstSummary, Stopping), Stopped)
  }

  /** A remote forward whose registration may or may not have happened. */
  function UncertainSummary(): Summary {
    FailSummary(FirstSummary.(cleanup := Cleanup(Uncertain, Complete, Complete, 0, true)), RemoteRegistrationUncertain)
  }

  /** Session tasks publish these two summaries. */
  lemma SummariesAreProduced(rule: Rule, address: string, limit: nat)
    ensures ForwardSession.Step(ForwardSession.Fresh(rule, limit), StopRequested(1)).summary == StoppedSummary()
    ensures var a := ForwardSession.Step(ForwardSession.Fresh(Remote(address), limit), ConnectEnds(None));
            var b := ForwardSession.Step(a, PrepareEnds(Failure(RemoteRegistrationUncertain)));
            ForwardSession.Step(b, DisconnectEnds(true)).summary == UncertainSummary()
  {
  }

  /** Two stops of one session; after the first has answered, the id is started again. */
  function FirstHalf(id: Id): seq<Step> {
    [Start(id)] + [BeginStop(id, 1)] + [BeginStop(id, 1)] + [Progress(0, StoppedSummary())] + [Continue(1)]
  }

  function SecondHalf(id: Id): seq<Step> {
    FirstHalf(id) + [Start(id)] + [Progress(1, UncertainSummary())]
  }

  lemma AfterFirstHalf(id: Id)
    ensures Run(Empty, FirstHalf(id))
            == Gate(map[], map[0 := StoppedSummary()], map[], map[0 := Stopper(id, 0)], 1, 2, map[0 := id])
  {
    var g1 := Gate(map[id := 0], map[0 := FirstSummary], map[], map[], 1, 0, map[0 := id]);
    RunThen([], Start(id));
    assert [] + [Start(id)] == [Start(id)];
    assert Run(Empty, [Start(id)]) == g1;
    RunThen([Start(id)], BeginStop(id, 1));
    RunThen([Start(id)] + [BeginStop(id, 1)], BeginStop(id, 1));
    RunThen([Start(id)] + [BeginStop(id, 1)] + [BeginStop(id, 1)], Progress(0, StoppedSummary()));
    RunThen([Start(id)] + [BeginStop(id, 1)] + [BeginStop(id, 1)] + [Progress(0, StoppedSummary())], Continue(1));
    var g2 := g1.(calls := map[0 := Stopper(id, 0), 1 := Stopper(id, 0)], nextCall := 2);
    assert Next(Next(g1, BeginStop(id, 1)), BeginStop(id, 1)) == g2;
    var g3 := g2.(summaries := map[0 := StoppedSummary()]);
    assert Next(g2, Progress(0, StoppedSummary())) == g3;
    assert map[0 := Stopper(id, 0), 1 := Stopper(id, 0)] - {1} == map[0 := Stopper(id, 0)];
  }

  lemma AfterSecondHalf(id: Id)
    ensures Run(Empty, SecondHalf(id))
            == Gate(map[id := 1], map[0 := StoppedSummary(), 1 := UncertainSummary()], map[], map[0 := Stopper(id, 0)],
                    2, 2, map[0 := id, 1 := id])
  {
    AfterFirstHalf(id);
    RunThen(FirstHalf(id), Start(id));
    RunThen(FirstHalf(id) + [Start(id)], Progress(1, UncertainSummary()));
  }

  /** What the late answer does, in any state that looks like the one above. */
  lemma LateAnswer(g: Gate, id: Id, c: CallId, s: Summary, bad: Summary)
    requires g.sessions == map[id := 1] && c in g.calls && g.calls[c] == Stopper(id, 0)
    requires 0 in g.summaries && g.summaries[0] == s && Terminal(s) && !s.cleanup.uncertain
    requires 1 in g.summaries && g.summaries[1] == bad
    ensures Next(g, Continue(c)).sessions == map[] && Blockers(Next(g, Continue(c))) == {}
    ensures Next(g, Continue(c)).summaries == g.summaries
  {
  }

  /** The late answer of the first stop removes the new session although its cleanup is uncertain. */
  lemma ReusedIdLosesUncertainSession(id: Id)
    ensures var g := Run(Empty, SecondHalf(id) + [Continue(0)]);
            1 in g.summaries && Blocked(g.summaries[1]) && g.sessions == map[] && Blockers(g) == {}
  {
    AfterSecondHalf(id);
    RunThen(SecondHalf(id), Continue(0));
    LateAnswer(Run(Empty, SecondHalf(id)), id, 0, StoppedSummary(), UncertainSummary());
  }

  /** The new session is still starting when the late answer removes it, and ends uncertain afterwards. */
  function RemovedWhileStarting(id: Id): seq<Step> {
    FirstHalf(id) + [Start(id)] + [Continue(0)]
  }

  lemma AfterRemoval(id: Id)
    ensures Run(Empty, RemovedWhileStarting(id))
            == Gate(map[], map[0 := StoppedSummary(), 1 := FirstSummary], map[], map[], 2, 2, map[0 := id, 1 := id])
    ensures OvertakesAt(RemovedWhileStarting(id), |FirstHalf(id)| + 1)
  {
    AfterFirstHalf(id);
    RunThen(FirstHalf(id), Start(id));
    var g := Gate(map[id := 1], map[0 := StoppedSummary(), 1 := FirstSummary], map[], map[0 := Stopper(id, 0)], 2, 2,
                  map[0 := id, 1 := id]);
    assert Run(Empty, FirstHalf(id) + [Start(id)]) == g;
    RunThen(FirstHalf(id) + [Start(id)], Continue(0));
    assert RemovedWhileStarting(id)[..|FirstHalf(id)| + 1] == FirstHalf(id) + [Start(id)];
  }

  lemma UncertainAfterRemoval(g: Gate, h: Handle)
    requires g.sessions == map[] && h in g.summaries && g.summaries[h] == FirstSummary
    ensures var g' := Next(g, Progress(h, UncertainSummary()));
            h in g'.summaries && Blocked(g'.summaries[h]) && g'.sessions == map[] && Blockers(g') == {}
  {
  }

  lemma RemovedSessionEndsUncertain(id: Id)
    ensures var g := Run(Empty, RemovedWhileStarting(id) + [Progress(1, UncertainSummary())]);
            1 in g.summaries && Blocked(g.summaries[1]) && g.sessions == map[] && Blockers(g) == {}
  {
    AfterRemoval(id);
    RunThen(RemovedWhileStarting(id), Progress(1, UncertainSummary()));
    UncertainAfterRemoval(Run(Empty, RemovedWhileStarting(id)), 1);
  }

  // ---------------------------------------------------------------- a shutdown nobody interrupts

  datatype Service = Service(sessions: map<Id, Summary>, retained: map<Id, (nat, nat)>)

  function Flat(g: Gate): Service {
    Service(map id | id in g.sessions && g.sessions[id] in g.summaries :: g.summaries[g.sessions[id]], g.retained)
  }

  function ServiceBlockers(v: Service): set<Id> {
    set id | id in v.sessions && Blocks(v.sessions[id], id, v.retained)
  }

  /** One session in a shutdown. `stops` holds the final summaries of stops that succeed. */
  function ShutDownOne(v: Service, id: Id, stops: map<Id, Summary>): (Service, bool) {
    if id !in v.sessions then (v, true)
    else
      var s := v.sessions[id];
      if Blocked(s) then
        (v.(retained := v.retained - {id}), id in v.retained && v.retained[id] == (s.generation, s.revision))
      else if Terminal(s) then (v.(sessions := v.sessions - {id}), true)
      else if id !in stops then (v, false)
      else if stops[id].cleanup.uncertain then (v.(sessions := v.sessions[id := stops[id]]), false)
      else (v.(sessions := v.sessions - {id}), true)
  }

  function ShutDown(v: Service, order: seq<Id>, stops: map<Id, Summary>): (Service, bool) {
    if order == [] then (v, true)
    else
      var (v1, ok) := ShutDown(v, order[..|order| - 1], stops);
      var (v2, ok1) := ShutDownOne(v1, order[|order| - 1], stops);
      (v2, ok && ok1)
  }

  /** What happens to one session, judged before the shutdown. */
  predicate Passes(v: Service, id: Id, stops: map<Id, Summary>)
    requires id in v.sessions
  {
    var s := v.sessions[id];
    if Blocked(s) then id in v.retained && v.retained[id] == (s.generation, s.revision)
    else Terminal(s) || (id in stops && !stops[id].cleanup.uncertain)
  }

  function Remains(v: Service, id: Id, stops: map<Id, Summary>): Option<Summary>
    requires id in v.sessions
  {
    var s := v.sessions[id];
    if Blocked(s) then Some(s)
    else if Terminal(s) then None
    else if id !in stops then Some(s)
    else if stops[id].cleanup.uncertain then Some(stops[id]) else None
  }

  ghost predicate Agrees(v: Service, done: seq<Id>, stops: map<Id, Summary>, after: Service, ok: bool) {
    && (forall id | id in v.sessions ::
          var left := if id in done then Remains(v, id, stops) else Some(v.sessions[id]);
          if left.Some? then id in after.sessions && after.sessions[id] == left.value else id !in after.sessions)
    && (forall id | id in after.sessions :: id in v.sessions)
    && (forall id | id in v.retained ::
          if id in done && id in v.sessions && Blocked(v.sessions[id]) then id !in after.retained
          else id in after.retained && after.retained[id] == v.retained[id])
    && (forall id | id in after.retained :: id in v.retained)
    && (ok <==> forall id | id in done && id in v.sessions :: Passes(v, id, stops))
  }

  /** A shutdown treats every session by its state before the shutdown, in whatever order. */
  lemma {:induction false} ShutDownAgrees(v: Service, order: seq<Id>, stops: map<Id, Summary>)
    requires forall i, j | 0 <= i < j < |order| :: order[i] != order[j]
    ensures Agrees(v, order, stops, ShutDown(v, order, stops).0, ShutDown(v, order, stops).1)
  {
    if order != [] {
      var init, last := order[..|order| - 1], order[|order| - 1];
      ShutDownAgrees(v, init, stops);
      var (v1, ok) := ShutDown(v, init, stops);
      assert last !in init;
      assert forall id :: id in order <==> id in init || id == last;
      ShutDownOneAgrees(v, init, order, last, stops, v1, ok);
    }
  }

  lemma ShutDownOneAgrees(v: Service, init: seq<Id>, order: seq<Id>, last: Id, stops: map<Id, Summary>, v1: Service,
                          ok: bool)
    requires Agrees(v, init, stops, v1, ok) && last !in init
    requires forall id :: id in order <==> id in init || id == last
    ensures var (v2, ok1) := ShutDownOne(v1, last, stops); Agrees(v, order, stops, v2, ok && ok1)
  {
    var (v2, ok1) := ShutDownOne(v1, last, stops);
    assert last in v.sessions ==> ok1 == Passes(v, last, stops);
  }

  /**
   With nothing blocking exit, a shutdown succeeds and uses up every confirmation. Afterwards
   exactly the sessions with uncertain cleanup are left, and each of them blocks again.
   */
  lemma UnblockedShutdownSucceeds(v: Service, order: seq<Id>, stops: map<Id, Summary>)
    requires forall i, j | 0 <= i < j < |order| :: order[i] != order[j]
    requires forall id :: id in order <==> id in v.sessions
    requires ServiceBlockers(v) == {}
    requires forall id | id in v.retained :: id in v.sessions && Blocked(v.sessions[id])
    ensures var (after, ok) := ShutDown(v, order, stops);
            && ok
            && after.retained == map[]
            && after.sessions == (map id | id in v.sessions && Blocked(v.sessions[id]) :: v.sessions[id])
            && ServiceBlockers(after) == after.sessions.Keys
  {
    ShutDownAgrees(v, order, stops);
    var (after, ok) := ShutDown(v, order, stops);
    UnblockedPasses(v, stops);
    UnblockedAgrees(v, order, stops, after, ok);
  }

  lemma UnblockedAgrees(v: Service, order: seq<Id>, stops: map<Id, Summary>, after: Service, ok: bool)
    requires forall id :: id in order <==> id in v.sessions
    requires forall id | id in v.retained :: id in v.sessions && Blocked(v.sessions[id])
    requires forall id | id in v.sessions ::
               Passes(v, id, stops)
               && Remains(v, id, stops) == if Blocked(v.sessions[id]) then Some(v.sessions[id]) else None
    requires Agrees(v, order, stops, after, ok)
    ensures ok && after.retained == map[]
    ensures after.sessions == (map id | id in v.sessions && Blocked(v.sessions[id]) :: v.sessions[id])
    ensures ServiceBlockers(after) == after.sessions.Keys
  {
    assert after.retained.Keys == {};
    forall id
      ensures id in after.sessions <==> id in v.sessions && Blocked(v.sessions[id])
      ensures id in after.sessions ==> after.sessions[id] == v.sessions[id]
    {
    }
  }

  lemma UnblockedPasses(v: Service, stops: map<Id, Summary>)
    requires ServiceBlockers(v) == {}
    ensures forall id | id in v.sessions ::
              Passes(v, id, stops)
              && Remains(v, id, stops) == if Blocked(v.sessions[id]) then Some(v.sessions[id]) else None
  {
    forall id | id in v.sessions
      ensures Terminal(v.sessions[id]) && Passes(v, id, stops)
    {
      assert id !in ServiceBlockers(v);
    }
  }

  /** The states of a run that overtakes nothing meet the assumptions about confirmations. */
  lemma ReachableShutdown(steps: seq<Step>)
    requires NeverOvertakes(steps)
    ensures var v := Flat(Run(Empty, steps));
            && (forall id | id in v.retained :: id in v.sessions && Blocked(v.sessions[id])
                        && v.retained[id] == (v.sessions[id].generation, v.sessions[id].revision))
            && ServiceBlockers(v) == Blockers(Run(Empty, steps))
  {
    RunKeepsInv(steps);
  }

  // ---------------------------------------------------------------- what a shutdown answers

  datatype Problem = CleanupIsUncertain | StopFailed

  /** The summaries collected so far and the first problem, if any. */
  datatype Report = Report(summaries: seq<Summary>, problem: Option<Problem>)

  function ReportOne(v: Service, id: Id, stops: map<Id, Summary>): Report {
    if id !in v.sessions then Report([], None)
    else
      var s := v.sessions[id];
      if Blocked(s) then
        if id in v.retained && v.retained[id] == (s.generation, s.revision) then Report([s], None)
        else Report([], Some(CleanupIsUncertain))
      else if Terminal(s) then Report([s], None)
      else if id !in stops then Report([], Some(StopFailed))
      else Report([stops[id]], if stops[id].cleanup.uncertain then Some(CleanupIsUncertain) else None)
  }

  function Merge(a: Report, b: Report): Report {
    Report(a.summaries + b.summaries, if a.problem.Some? then a.problem else b.problem)
  }

  function ShutDownReport(v: Service, order: seq<Id>, stops: map<Id, Summary>): Report {
    if order == [] then Report([], None)
    else
      var init := order[..|order| - 1];
      Merge(ShutDownReport(v, init, stops), ReportOne(ShutDown(v, init, stops).0, order[|order| - 1], stops))
  }

  /** The reports of all sessions, each judged before the shutdown, in order. */
  function ReportsBefore(v: Service, order: seq<Id>, stops: map<Id, Summary>): Report {
    if order == [] then Report([], None)
    else Merge(ReportsBefore(v, order[..|order| - 1], stops), ReportOne(v, order[|order| - 1], stops))
  }

  lemma ReportStays(v: Service, init: seq<Id>, id: Id, stops: map<Id, Summary>, v1: Service, ok: bool)
    requires Agrees(v, init, stops, v1, ok) && id !in init
    ensures ReportOne(v1, id, stops) == ReportOne(v, id, stops)
  {
  }

  lemma OneProblemExactly(v: Service, id: Id, stops: map<Id, Summary>)
    ensures ReportOne(v, id, stops).problem.None? <==> ShutDownOne(v, id, stops).1
  {
  }

  /**
   A shutdown answers with the first problem in the order of its sessions, and without a problem with
   one summary for each session, in order. It has no problem exactly when every session passes.
   */
  lemma {:induction false} ReportMeans(v: Service, order: seq<Id>, stops: map<Id, Summary>)
    requires forall i, j | 0 <= i < j < |order| :: order[i] != order[j]
    ensures ShutDownReport(v, order, stops) == ReportsBefore(v, order, stops)
    ensures ShutDownReport(v, order, stops).problem.None? <==> ShutDown(v, order, stops).1
  {
    if order != [] {
      var init, last := order[..|order| - 1], order[|order| - 1];
      ReportMeans(v, init, stops);
      ShutDownAgrees(v, init, stops);
      assert last !in init;
      ReportStays(v, init, last, stops, ShutDown(v, init, stops).0, ShutDown(v, init, stops).1);
      OneProblemExactly(ShutDown(v, init, stops).0, last, stops);
    }
  }

  /** Without a problem there is a summary for each session: its last one, or the one its stop returned. */
  lemma {:induction false} ReportHasAll(v: Service, order: seq<Id>, stops: map<Id, Summary>, i: nat)
    requires ReportsBefore(v, order, stops).problem.None? && (forall id | id in order :: id in v.sessions)
             && i < |order|
    ensures var r := ReportsBefore(v, order, stops).summaries;
            && |r| == |order|
            && var s := v.sessions[order[i]];
               && (Terminal(s) ==> r[i] == s)
               && (!Terminal(s) ==> order[i] in stops && r[i] == stops[order[i]] && !r[i].cleanup.uncertain)
  {
    var init, last := order[..|order| - 1], order[|order| - 1];
    assert last in order && order[i] in order;
    assert forall id | id in init :: id in order;
    if i < |init| {
      ReportHasAll(v, init, stops, i);
    } else if init != [] {
      ReportHasAll(v, init, stops, 0);
    }
  }

  // ---------------------------------------------------------------- the same shutdown as steps of a run

  /** A run can be continued by any step. */
  lemma Extend(g: Gate, steps: seq<Step>, step: Step) returns (more: seq<Step>)
    ensures Run(g, more) == Next(Run(g, steps), step)
  {
    more := steps + [step];
    assert more[..|more| - 1] == steps;
  }

  /** What serves one session of a shutdown when nothing comes in between; a stop without outcome fails. */
  function Served(g: Gate, s: Summary, c: CallId, id: Id, h: Handle, stops: map<Id, Summary>): Gate {
    var begun := Next(g, Continue(c));
    if Terminal(s) then begun
    else if id in stops then Next(Next(begun, Progress(h, stops[id])), Continue(c))
    else Next(begun, Abandon(c))
  }

  lemma ServedInRun(g: Gate, steps: seq<Step>, s: Summary, c: CallId, id: Id, h: Handle, stops: map<Id, Summary>)
    returns (more: seq<Step>)
    ensures Run(g, more) == Served(Run(g, steps), s, c, id, h, stops)
  {
    more := Extend(g, steps, Continue(c));
    if !Terminal(s) {
      if id in stops {
        more := Extend(g, more, Progress(h, stops[id]));
        more := Extend(g, more, Continue(c));
      } else {
        more := Extend(g, more, Abandon(c));
      }
    }
  }

  /** The stop of this session ends, and ends as the session's own task may end. */
  predicate Stops(s: Summary, id: Id, stops: map<Id, Summary>) {
    id in stops ==> Terminal(stops[id]) && Continues(s, stops[id])
  }

  /** The sessions and confirmations of the service after one visit. */
  ghost predicate ServedAs(g: Gate, g': Gate, c: CallId, id: Id, stops: map<Id, Summary>) {
    && Known(g') && g'.calls == g.calls - {c} && Flat(g') == ShutDownOne(Flat(g), id, stops).0
    && (forall other | other != id :: other in g.sessions <==> other in g'.sessions)
    && (forall other | other != id && other in g.sessions ::
          g'.sessions[other] == g.sessions[other] && g'.sessions[other] in g'.summaries
          && g.sessions[other] in g.summaries && g'.summaries[g'.sessions[other]] == g.summaries[g.sessions[other]])
  }

  lemma FlatHas(g: Gate, id: Id)
    requires Known(g) && id in g.sessions
    ensures id in Flat(g).sessions && Flat(g).sessions[id] == g.summaries[g.sessions[id]]
  {
  }

  lemma ServeEnded(g: Gate, c: CallId, id: Id, h: Handle, stops: map<Id, Summary>)
    requires Known(g) && c in g.calls && g.calls[c] == ShutdownVisit(id, h) && id in g.sessions && g.sessions[id] == h
    requires Terminal(g.summaries[h])
    ensures ServedAs(g, Next(g, Continue(c)), c, id, stops)
  {
    var g' := Next(g, Continue(c));
    FlatHas(g, id);
    assert Flat(g').sessions == if Blocked(g.summaries[h]) then Flat(g).sessions else Flat(g).sessions - {id};
  }

  lemma ServeUnstopped(g: Gate, c: CallId, id: Id, h: Handle, stops: map<Id, Summary>)
    requires Known(g) && c in g.calls && g.calls[c] == ShutdownVisit(id, h) && id in g.sessions && g.sessions[id] == h
    requires !Terminal(g.summaries[h]) && id !in stops
    ensures ServedAs(g, Next(Next(g, Continue(c)), Abandon(c)), c, id, stops)
  {
    var g' := Next(Next(g, Continue(c)), Abandon(c));
    FlatHas(g, id);
    assert g' == g.(calls := g.calls - {c});
  }

  /** The session's own task publishes its end; no other session has this handle. */
  lemma StopShows(g: Gate, id: Id, h: Handle, s: Summary)
    requires Known(g) && id in g.sessions && g.sessions[id] == h && Continues(g.summaries[h], s)
    ensures var g' := g.(summaries := g.summaries[h := s]);
            Known(g') && Flat(g').sessions == Flat(g).sessions[id := s]
  {
    var g' := g.(summaries := g.summaries[h := s]);
    assert forall other | other in g.sessions && other != id :: g.sessions[other] != h;
  }

  lemma RemovedShows(g: Gate, id: Id)
    requires Known(g)
    ensures var g' := g.(sessions := g.sessions - {id}); Known(g') && Flat(g').sessions == Flat(g).sessions - {id}
  {
  }

  lemma DropCallShows(g: Gate, c: CallId)
    requires Known(g)
    ensures var g' := g.(calls := g.calls - {c}); Known(g') && Flat(g') == Flat(g)
  {
  }

  lemma ServeStopped(g: Gate, c: CallId, id: Id, h: Handle, stops: map<Id, Summary>)
    requires Known(g) && c in g.calls && g.calls[c] == ShutdownVisit(id, h) && id in g.sessions && g.sessions[id] == h
    requires !Terminal(g.summaries[h]) && id in stops && Stops(g.summaries[h], id, stops)
    ensures ServedAs(g, Next(Next(Next(g, Continue(c)), Progress(h, stops[id])), Continue(c)), c, id, stops)
  {
    var s := stops[id];
    var ended := g.(summaries := g.summaries[h := s]);
    var left := if s.cleanup.uncertain then ended else ended.(sessions := ended.sessions - {id});
    var g' := left.(calls := left.calls - {c});
    StopSteps(g, c, id, h, s);
    StopShows(g, id, h, s);
    RemovedShows(ended, id);
    DropCallShows(left, c);
    FlatHas(g, id);
    OthersStay(g, g', c, id, h, s);
  }

  lemma StopSteps(g: Gate, c: CallId, id: Id, h: Handle, s: Summary)
    requires c in g.calls && g.calls[c] == ShutdownVisit(id, h) && h in g.summaries
    requires !Terminal(g.summaries[h]) && Terminal(s) && Continues(g.summaries[h], s)
    ensures var ended := g.(summaries := g.summaries[h := s]);
            var left := if s.cleanup.uncertain then ended else ended.(sessions := ended.sessions - {id});
            Next(Next(Next(g, Continue(c)), Progress(h, s)), Continue(c)) == left.(calls := left.calls - {c})
  {
    var waiting := g.(calls := g.calls[c := ShutdownStopper(id, h)]);
    assert Next(g, Continue(c)) == waiting;
    var stopped := waiting.(summaries := g.summaries[h := s]);
    assert Next(waiting, Progress(h, s)) == stopped;
    assert stopped.calls - {c} == g.calls - {c};
  }

  lemma OthersStay(g: Gate, g': Gate, c: CallId, id: Id, h: Handle, s: Summary)
    requires Known(g) && id in g.sessions && g.sessions[id] == h
    requires g'.summaries == g.summaries[h := s] && (g'.sessions == g.sessions || g'.sessions == g.sessions - {id})
    ensures forall other | other != id :: other in g.sessions <==> other in g'.sessions
    ensures forall other | other != id && other in g.sessions ::
              g'.sessions[other] == g.sessions[other] && g'.sessions[other] in g'.summaries
              && g.sessions[other] in g.summaries && g'.summaries[g'.sessions[other]] == g.summaries[g.sessions[other]]
  {
    assert forall other | other in g.sessions && other != id :: g.sessions[other] != h;
  }

  lemma ServeIsShutDownOne(g: Gate, c: CallId, id: Id, stops: map<Id, Summary>)
    requires Known(g) && c in g.calls && id in g.sessions && g.calls[c] == ShutdownVisit(id, g.sessions[id])
    requires Stops(g.summaries[g.sessions[id]], id, stops)
    ensures ServedAs(g, Served(g, g.summaries[g.sessions[id]], c, id, g.sessions[id], stops), c, id, stops)
  {
    var h := g.sessions[id];
    if Terminal(g.summaries[h]) {
      ServeEnded(g, c, id, h, stops);
    } else if id in stops {
      ServeStopped(g, c, id, h, stops);
    } else {
      ServeUnstopped(g, c, id, h, stops);
    }
  }

  /** Visit number `j` is still to be served and finds its session as it was. */
  ghost predicate WaitsFor(g0: Gate, g: Gate, order: seq<Id>, j: nat)
    requires j < |order|
  {
    var c, id := g0.nextCall + j, order[j];
    && c in g.calls && id in g.sessions && id in g0.sessions && g.sessions[id] == g0.sessions[id]
    && g.calls[c] == ShutdownVisit(id, g.sessions[id])
    && g.sessions[id] in g.summaries && g.sessions[id] in g0.summaries
    && g.summaries[g.sessions[id]] == g0.summaries[g.sessions[id]]
  }

  ghost predicate Waits(g0: Gate, g: Gate, order: seq<Id>, i: nat) {
    Known(g) && forall j | i <= j < |order| :: WaitsFor(g0, g, order, j)
  }

  /** Only calls are added, one visit after another. */
  lemma {:induction false} VisitsWait(g: Gate, order: seq<Id>, c: CallId)
    requires Known(g) && forall id | id in order :: id in g.sessions
    ensures var g' := Visits(g, order);
            && g' == g.(calls := g'.calls, nextCall := g.nextCall + |order|) && Known(g')
            && (c < g.nextCall ==> (c in g'.calls <==> c in g.calls) && (c in g.calls ==> g'.calls[c] == g.calls[c]))
            && (g.nextCall <= c < g.nextCall + |order| ==>
                  c in g'.calls
                    && g'.calls[c] == ShutdownVisit(order[c - g.nextCall], g.sessions[order[c - g.nextCall]]))
    decreases |order|
  {
    if order != [] {
      assert order[0] in order;
      var g1 := Waiting(g, ShutdownVisit(order[0], g.sessions[order[0]]));
      assert forall id | id in order[1..] :: id in order;
      WaitingKnows(g, ShutdownVisit(order[0], g.sessions[order[0]]));
      VisitsWait(g1, order[1..], c);
    }
  }

  lemma ShutdownBegins(g: Gate, order: seq<Id>)
    requires Known(g) && forall id | id in order :: id in g.sessions
    ensures var g' := Next(g, BeginShutdown(order)); Waits(g, g', order, 0) && Flat(g') == Flat(g)
  {
    VisitsWait(g, order, g.nextCall);
    forall j | 0 <= j < |order|
      ensures WaitsFor(g, Visits(g, order), order, j)
    {
      VisitsWait(g, order, g.nextCall + j);
      assert order[j] in order;
    }
    assert Flat(Visits(g, order)) == Flat(g);
  }

  /** Visit number `k` of the shutdown begun in `g0` leads from one gate to the next. */
  ghost predicate ServesOne(g0: Gate, before: Gate, after: Gate, order: seq<Id>, stops: map<Id, Summary>, k: nat)
    requires k < |order|
  {
    && order[k] in g0.sessions && g0.sessions[order[k]] in g0.summaries
    && var h := g0.sessions[order[k]];
       after == Served(before, g0.summaries[h], g0.nextCall + k, order[k], h, stops)
  }

  /** The gates of a shutdown begun in `g0` that nothing interrupts. */
  ghost predicate Uninterrupted(g0: Gate, gates: seq<Gate>, order: seq<Id>, stops: map<Id, Summary>) {
    && |gates| == |order| + 1 && gates[0] == Next(g0, BeginShutdown(order))
    && forall k | 0 <= k < |order| :: ServesOne(g0, gates[k], gates[k + 1], order, stops, k)
  }

  lemma {:induction false} ShutdownGates(g0: Gate, order: seq<Id>, stops: map<Id, Summary>, n: nat)
    returns (gates: seq<Gate>)
    requires Known(g0) && n <= |order| && forall id | id in order :: id in g0.sessions
    ensures |gates| == n + 1 && gates[0] == Next(g0, BeginShutdown(order))
    ensures forall k | 0 <= k < n :: ServesOne(g0, gates[k], gates[k + 1], order, stops, k)
  {
    if n == 0 {
      gates := [Next(g0, BeginShutdown(order))];
    } else {
      var before := ShutdownGates(g0, order, stops, n - 1);
      var id := order[n - 1];
      assert id in order;
      var h := g0.sessions[id];
      var next := Served(before[n - 1], g0.summaries[h], g0.nextCall + (n - 1), id, h, stops);
      assert ServesOne(g0, before[n - 1], next, order, stops, n - 1);
      gates := before + [next];
      forall k | 0 <= k < n
        ensures ServesOne(g0, gates[k], gates[k + 1], order, stops, k)
      {
        assert k < n - 1 ==> ServesOne(g0, before[k], before[k + 1], order, stops, k);
      }
    }
  }

  lemma {:induction false} GatesAreReached(g: Gate, steps: seq<Step>, gates: seq<Gate>, order: seq<Id>,
                                           stops: map<Id, Summary>, n: nat)
    returns (more: seq<Step>)
    requires Uninterrupted(Run(g, steps), gates, order, stops) && n <= |order|
    ensures Run(g, more) == gates[n]
  {
    if n == 0 {
      more := Extend(g, steps, BeginShutdown(order));
    } else {
      var before := GatesAreReached(g, steps, gates, order, stops, n - 1);
      more := OneMoreServed(g, before, Run(g, steps), gates[n - 1], gates[n - 1 + 1], order, stops, n - 1);
    }
  }

  lemma OneMoreServed(g: Gate, steps: seq<Step>, g0: Gate, before: Gate, after: Gate,
                      order: seq<Id>, stops: map<Id, Summary>, k: nat)
    returns (more: seq<Step>)
    requires k < |order| && Run(g, steps) == before && ServesOne(g0, before, after, order, stops, k)
    ensures Run(g, more) == after
  {
    var id := order[k];
    more := ServedInRun(g, steps, g0.summaries[g0.sessions[id]], g0.nextCall + k, id, g0.sessions[id], stops);
  }

  lemma {:induction false} GatesShutDown(g0: Gate, gates: seq<Gate>, order: seq<Id>, stops: map<Id, Summary>, n: nat)
    requires Known(g0) && n <= |order| && forall id | id in order :: id in g0.sessions
    requires forall i, j | 0 <= i < j < |order| :: order[i] != order[j]
    requires forall id | id in g0.sessions :: Stops(g0.summaries[g0.sessions[id]], id, stops)
    requires Uninterrupted(g0, gates, order, stops)
    ensures Waits(g0, gates[n], order, n) && Flat(gates[n]) == ShutDown(Flat(g0), order[..n], stops).0
  {
    if n == 0 {
      ShutdownBegins(g0, order);
    } else {
      GatesShutDown(g0, gates, order, stops, n - 1);
      assert order[n - 1] in order;
      ServeNext(g0, gates[n - 1], gates[n - 1 + 1], order, stops, n - 1);
      ShutDownThen(Flat(g0), order, stops, n);
    }
  }

  lemma ShutDownThen(v: Service, order: seq<Id>, stops: map<Id, Summary>, n: nat)
    requires 0 < n <= |order|
    ensures ShutDown(v, order[..n], stops).0 == ShutDownOne(ShutDown(v, order[..n - 1], stops).0, order[n - 1], stops).0
  {
    assert order[..n][..n - 1] == order[..n - 1];
  }

  lemma ServeNext(g0: Gate, g: Gate, g': Gate, order: seq<Id>, stops: map<Id, Summary>, n: nat)
    requires Known(g0) && n < |order| && Waits(g0, g, order, n) && ServesOne(g0, g, g', order, stops, n)
    requires forall i, j | 0 <= i < j < |order| :: order[i] != order[j]
    requires Stops(g0.summaries[g0.sessions[order[n]]], order[n], stops)
    ensures Waits(g0, g', order, n + 1) && Flat(g') == ShutDownOne(Flat(g), order[n], stops).0
  {
    assert WaitsFor(g0, g, order, n);
    ServeIsShutDownOne(g, g0.nextCall + n, order[n], stops);
    StillWaits(g0, g, g', order, stops, n);
  }

  lemma StillWaits(g0: Gate, g: Gate, g': Gate, order: seq<Id>, stops: map<Id, Summary>, n: nat)
    requires n < |order| && Waits(g0, g, order, n) && ServedAs(g, g', g0.nextCall + n, order[n], stops)
    requires forall i, j | 0 <= i < j < |order| :: order[i] != order[j]
    ensures Waits(g0, g', order, n + 1)
  {
    forall j | n + 1 <= j < |order|
      ensures WaitsFor(g0, g', order, j)
    {
      assert WaitsFor(g0, g, order, j);
      assert order[n] != order[j];
    }
  }

  /** An uninterrupted shutdown of a gate is a shutdown of the service, seen through its sessions. */
  lemma UninterruptedIsShutDown(g: Gate, gates: seq<Gate>, order: seq<Id>, stops: map<Id, Summary>)
    requires Known(g) && forall id | id in order :: id in g.sessions
    requires forall i, j | 0 <= i < j < |order| :: order[i] != order[j]
    requires forall id | id in g.sessions :: Stops(g.summaries[g.sessions[id]], id, stops)
    requires Uninterrupted(g, gates, order, stops)
    ensures Known(gates[|order|]) && Flat(gates[|order|]) == ShutDown(Flat(g), order, stops).0
  {
    GatesShutDown(g, gates, order, stops, |order|);
    assert order[..|order|] == order;
  }

  /**
   A run that overtakes nothing can go on with an uninterrupted shutdown. If it begins without blockers, it ends with no
   confirmation left and with exactly the uncertain sessions, all of which block exit again.
   */
  lemma UnblockedShutdownInRun(steps: seq<Step>, order: seq<Id>, stops: map<Id, Summary>)
    returns (gates: seq<Gate>, more: seq<Step>)
    requires NeverOvertakes(steps) && Blockers(Run(Empty, steps)) == {}
    requires forall i, j | 0 <= i < j < |order| :: order[i] != order[j]
    requires forall id :: id in order <==> id in Run(Empty, steps).sessions
    requires var g := Run(Empty, steps);
             forall id | id in g.sessions && g.sessions[id] in g.summaries ::
               Stops(g.summaries[g.sessions[id]], id, stops)
    ensures Uninterrupted(Run(Empty, steps), gates, order, stops) && Run(Empty, more) == gates[|order|]
    ensures var g, g' := Run(Empty, steps), Run(Empty, more);
            && g'.retained == map[]
            && (forall id :: id in g'.sessions <==> Snapshot(g, id).Some? && Blocked(Snapshot(g, id).value))
            && Blockers(g') == g'.sessions.Keys
  {
    var g := Run(Empty, steps);
    RunKeepsInv(steps);
    ReachableShutdown(steps);
    gates := ShutdownGates(g, order, stops, |order|);
    more := GatesAreReached(Empty, steps, gates, order, stops, |order|);
    UninterruptedIsShutDown(g, gates, order, stops);
    UnblockedShutdownSucceeds(Flat(g), order, stops);
    FlatTells(g, gates[|order|]);
  }

  /** Blockers and sessions can be read off the flat view. */
  lemma FlatTells(g: Gate, g': Gate)
    requires Known(g) && Known(g')
    ensures Blockers(g') == ServiceBlockers(Flat(g')) && g'.sessions.Keys == Flat(g').sessions.Keys
            && g'.retained == Flat(g').retained
    ensures forall id | id in g.sessions :: id in Flat(g).sessions && Snapshot(g, id) == Some(Flat(g).sessions[id])
    ensures g.sessions.Keys == Flat(g).sessions.Keys
  {
  }

  // ---------------------------------------------------------------- the service between awaits

  class ForwardSessionService {
    var sessions: map<Id, Summary>
    var retainedForExitOnce: map<Id, (nat, nat)>

    function View(): Service
      reads this
    {
      Service(sessions, retainedForExitOnce)
    }

    constructor ()
      ensures View() == Service(map[], map[])
    {
      sessions := map[];
      retainedForExitOnce := map[];
    }

    /** The ids that block exit, given the sessions in the order of their ids. */
    method ExitBlockers(order: seq<Id>) returns (blockers: seq<Id>)
      requires forall i, j | 0 <= i < j < |order| :: order[i] != order[j]
      requires forall id :: id in order <==> id in sessions
      ensures forall id :: id in blockers <==> id in ServiceBlockers(View())
      ensures forall i, j | 0 <= i < j < |blockers| :: blockers[i] != blockers[j]
    {
      blockers := [];
      for k := 0 to |order|
        invariant forall id :: id in blockers <==> id in order[..k] && Blocks(sessions[id], id, retainedForExitOnce)
        invariant forall i, j | 0 <= i < j < |blockers| :: blockers[i] != blockers[j]
      {
        assert order[..k + 1] == order[..k] + [order[k]];
        assert order[k] !in order[..k];
        if Blocks(sessions[order[k]], order[k], retainedForExitOnce) {
          blockers := blockers + [order[k]];
        }
      }
    }

    method RetainForExitOnce(id: Id, generation: nat, revision: nat, confirmed: bool) returns (ok: bool)
      modifies this`retainedForExitOnce
      ensures ok <==> confirmed && id in sessions && Blocked(sessions[id])
                      && sessions[id].generation == generation && sessions[id].revision == revision
      ensures ServiceBlockers(View()) == old(ServiceBlockers(View())) - (if ok then {id} else {})
      ensures ok ==> retainedForExitOnce == old(retainedForExitOnce)[id := (generation, revision)]
      ensures !ok ==> retainedForExitOnce == old(retainedForExitOnce)
    {
      ok := false;
      if !confirmed || id !in sessions {
        return;
      }
      var summary := sessions[id];
      if summary.generation != generation || summary.revision != revision || !Blocked(summary) {
        return;
      }
      retainedForExitOnce := retainedForExitOnce[id := (generation, revision)];
      ok := true;
    }

    method ConsumeRetainedExit(id: Id, summary: Summary) returns (ok: bool)
      modifies this`retainedForExitOnce
      ensures ok <==> id in old(retainedForExitOnce)
                      && old(retainedForExitOnce)[id] == (summary.generation, summary.revision)
      ensures retainedForExitOnce == old(retainedForExitOnce) - {id}
    {
      ok := id in retainedForExitOnce && retainedForExitOnce[id] == (summary.generation, summary.revision);
      retainedForExitOnce := retainedForExitOnce - {id};
    }

    method ShutdownOne(id: Id, stops: map<Id, Summary>) returns (report: Report)
      modifies this
      ensures View() == old(ShutDownOne(View(), id, stops).0) && report == old(ReportOne(View(), id, stops))
    {
      report := Report([], None);
      if id !in sessions {
        return;
      }
      var before := sessions[id];
      if Blocked(before) {
        var confirmed := ConsumeRetainedExit(id, before);
        return if confirmed then Report([before], None) else Report([], Some(CleanupIsUncertain));
      }
      if Terminal(before) {
        sessions := sessions - {id};
        return Report([before], None);
      }
      if id !in stops {
        return Report([], Some(StopFailed));
      }
      if stops[id].cleanup.uncertain {
        sessions := sessions[id := stops[id]];
        return Report([stops[id]], Some(CleanupIsUncertain));
      }
      sessions := sessions - {id};
      return Report([stops[id]], None);
    }

    /** The loop over all sessions, which goes on after a problem and keeps the first. */
    method ShutdownAll(order: seq<Id>, stops: map<Id, Summary>) returns (r: Result<seq<Summary>, Problem>)
      requires forall i, j | 0 <= i < j < |order| :: order[i] != order[j]
      modifies this
      ensures View() == old(ShutDown(View(), order, stops).0)
      ensures var report := old(ReportsBefore(View(), order, stops));
              r == if report.problem.Some? then Failure(report.problem.value) else Success(report.summaries)
      ensures Agrees(old(View()), order, stops, View(), r.Success?)
    {
      var report := Report([], None);
      for k := 0 to |order|
        invariant View() == old(ShutDown(View(), order[..k], stops).0)
        invariant report == old(ShutDownReport(View(), order[..k], stops))
      {
        assert order[..k + 1][..k] == order[..k];
        var one := ShutdownOne(order[k], stops);
        report := Merge(report, one);
      }
      assert order[..|order|] == order;
      ShutDownAgrees(old(View()), order, stops);
      ReportMeans(old(View()), order, stops);
      r := if report.problem.Some? then Failure(report.problem.value) else Success(report.summaries);
    }
  }
}
