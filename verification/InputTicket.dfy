/**
 Input tickets: a paste or history action captures the focused Pane, may give its lease back
 while a dialog is open, and later performs one action on that Pane or none.

 A ticket's methods are async, so several calls on one ticket can be in progress. Each call is
 kept with the point at which it waits, and any call may continue at any time.
 */
module InputTicket {
  import opened Basics
  import opened FocusBroker

  type CallId = nat

  datatype Ticket = Ticket(
    id: Id,
    original: Registration,
    fingerprint: Fingerprint,
    capturedAt: nat,
    expectedIntent: nat,
    suspended: bool,
    consumed: bool,
    // How many `send` or `perform` actions the ticket has started.
    performed: nat)

  datatype Purpose = Act | Cancel

  /** Where an unfinished method call on a ticket waits. */
  datatype Call =
    | AwaitFocus(ticket: TicketId, purpose: Purpose, intent: Option<nat>)
    | Resumed(ticket: TicketId, purpose: Purpose, ok: bool)
    | Acting(ticket: TicketId)

  datatype System = System(
    broker: Broker,
    tickets: map<TicketId, Ticket>,
    calls: map<CallId, Call>,
    nextTicket: TicketId,
    nextCall: CallId)

  datatype Step =
    | Outside(event: Event)
    | Capture(id: Id)
    | Suspend(ticket: TicketId)
    | BeginAction(ticket: TicketId)
    | BeginCancel(ticket: TicketId)
    | Continue(call: CallId)
    | ActionEnds(call: CallId, failed: bool)

  const Start := System(Initial, map[], map[], 0, 0)

  // ---------------------------------------------------------------- steps

  function Valid(b: Broker, t: Ticket): bool {
    && !t.consumed
    && Registered(b, Some(t.id)) == Some(t.original)
    && b.intentSequence == t.expectedIntent
    && FocusTarget(b, Some(t.original)) == Some(t.fingerprint)
    && (t.suspended || (Current(b) == Some(t.original) && t.original in b.accepting))
  }

  function Put(s: System, k: TicketId, t: Ticket): System {
    s.(tickets := s.tickets[k := t])
  }

  function Called(s: System, call: Call): System {
    s.(calls := s.calls[s.nextCall := call], nextCall := s.nextCall + 1)
  }

  function Captured(s: System, id: Id): System {
    var candidate := Current(s.broker);
    if candidate.None? || candidate.value.id != id || candidate.value !in s.broker.accepting then s
    else
      var fingerprint := FocusTarget(s.broker, candidate).value;
      var now := s.broker.intentSequence;
      Put(s.(nextTicket := s.nextTicket + 1), s.nextTicket,
          Ticket(id, candidate.value, fingerprint, now, now, false, false, 0))
  }

  function Suspended(s: System, k: TicketId): System
    requires k in s.tickets
  {
    var t := s.tickets[k];
    if !Valid(s.broker, t) || t.suspended then s
    else
      var cleared := Focused(s.broker, None, Some(k));
      Put(s.(broker := cleared), k, t.(suspended := true, expectedIntent := cleared.intentSequence))
  }

  /** The synchronous part of `resume`, called on behalf of an action or a cancel. */
  function BeganResume(s: System, k: TicketId, purpose: Purpose): System
    requires k in s.tickets
  {
    var t := s.tickets[k];
    if !Valid(s.broker, t) then Called(s, Resumed(k, purpose, false))
    else if !t.suspended then Called(s, Resumed(k, purpose, true))
    else
      var asked := Focused(s.broker, Some(t.id), Some(k));
      var intent := if asked.intentSequence == s.broker.intentSequence then None else Some(asked.intentSequence);
      Put(Called(s.(broker := asked), AwaitFocus(k, purpose, intent)), k, t.(expectedIntent := asked.intentSequence))
  }

  function BeganCancel(s: System, k: TicketId): System
    requires k in s.tickets
  {
    var t := s.tickets[k];
    if t.suspended && Valid(s.broker, t) then BeganResume(s, k, Cancel) else Put(s, k, t.(consumed := true))
  }

  /** `resume` after its focus promise settled. A promise resolves to true only when acknowledged. */
  function FocusSettled(s: System, c: CallId): System
    requires c in s.calls && s.calls[c].AwaitFocus? && s.calls[c].ticket in s.tickets
  {
    var AwaitFocus(k, purpose, intent) := s.calls[c];
    var t := s.tickets[k];
    if intent.Some? && intent.value !in s.broker.outcomes then s
    else
      var focused := intent.None? || s.broker.outcomes[intent.value].Acknowledged?;
      if !focused || !Valid(s.broker, t) then s.(calls := s.calls[c := Resumed(k, purpose, false)])
      else
        var ok := Current(s.broker) == Some(t.original) && t.original in s.broker.accepting;
        Put(s.(calls := s.calls[c := Resumed(k, purpose, ok)]), k, t.(suspended := false))
  }

  /** The decision right after `await resume()`; the check and the use of the ticket are one step. */
  function Decided(s: System, c: CallId): System
    requires c in s.calls && s.calls[c].Resumed? && s.calls[c].ticket in s.tickets
  {
    var Resumed(k, purpose, ok) := s.calls[c];
    var t := s.tickets[k];
    if purpose.Act? && ok && Valid(s.broker, t) then
      Put(s.(calls := s.calls[c := Acting(k)]), k, t.(consumed := true, performed := t.performed + 1))
    else
      Put(s.(calls := s.calls - {c}), k, t.(consumed := true))
  }

  function Ended(s: System, c: CallId, failed: bool): System
    requires c in s.calls && s.calls[c].Acting? && s.calls[c].ticket in s.tickets
  {
    var original := s.tickets[s.calls[c].ticket].original;
    s.(calls := s.calls - {c},
       broker := if failed then s.broker.(leases := s.broker.leases - {original}) else s.broker)
  }

  predicate Known(s: System, c: CallId) {
    c in s.calls && s.calls[c].ticket in s.tickets
  }

  /** A step that is not possible in the current state changes nothing. */
  function Advance(s: System, step: Step): System {
    match step
    case Outside(event) => s.(broker := Next(s.broker, event))
    case Capture(id) => Captured(s, id)
    case Suspend(k) => if k in s.tickets then Suspended(s, k) else s
    case BeginAction(k) => if k in s.tickets then BeganResume(s, k, Act) else s
    case BeginCancel(k) => if k in s.tickets then BeganCancel(s, k) else s
    case Continue(c) =>
      if !Known(s, c) then s
      else if s.calls[c].AwaitFocus? then FocusSettled(s, c)
      else if s.calls[c].Resumed? then Decided(s, c)
      else s
    case ActionEnds(c, failed) => if Known(s, c) && s.calls[c].Acting? then Ended(s, c, failed) else s
  }

  function Run(s: System, steps: seq<Step>): System {
    if steps == [] then s else Advance(Run(s, steps[..|steps| - 1]), steps[|steps| - 1])
  }

  // ---------------------------------------------------------------- what every step keeps

  /** Every intent issued after the capture, up to the one the ticket expects, is the ticket's own. */
  ghost predicate OnlyOwnIntents(b: Broker, k: TicketId, t: Ticket) {
    && t.capturedAt <= t.expectedIntent <= |b.issued|
    && forall n | t.capturedAt <= n < t.expectedIntent :: b.issued[n].ticket == Some(k)
  }

  ghost predicate TicketInv(b: Broker, k: TicketId, t: Ticket) {
    && OnlyOwnIntents(b, k, t)
    && t.performed <= 1
    && (t.performed == 1 ==> t.consumed)
  }

  ghost predicate SystemInv(s: System) {
    && Inv(s.broker)
    && (forall k | k in s.tickets :: TicketInv(s.broker, k, s.tickets[k]))
    && (forall k | k in s.tickets :: k < s.nextTicket)
    && (forall c | c in s.calls :: c < s.nextCall)
  }

  /** The history of intents only grows. */
  lemma IssuedOnlyGrows(b: Broker, e: Event)
    ensures b.issued <= Next(b, e).issued
  {
    match e
    case RequestFocus(id) =>
    case RequestTakeover(id) =>
    case Unregister(r) =>
    case _ =>
  }

  lemma GrowthKeepsTickets(s: System, s': System)
    requires SystemInv(s) && Inv(s'.broker) && s.broker.issued <= s'.broker.issued
    requires s'.tickets == s.tickets && s'.nextTicket == s.nextTicket
    requires forall c | c in s'.calls :: c < s'.nextCall
    ensures SystemInv(s')
  {
    forall k | k in s'.tickets
      ensures TicketInv(s'.broker, k, s'.tickets[k])
    {
      assert TicketInv(s.broker, k, s.tickets[k]);
    }
  }

  /** A ticket that issues an intent of its own from a valid state still owns all of them. */
  lemma OwnIntentKeepsTicket(b: Broker, k: TicketId, t: Ticket, id: Option<Id>)
    requires Inv(b) && TicketInv(b, k, t) && b.intentSequence == t.expectedIntent
    ensures var b' := Focused(b, id, Some(k));
            TicketInv(b', k, t.(expectedIntent := b'.intentSequence)) && b.issued <= b'.issued
  {
  }

  /** Issuing `id` on behalf of valid ticket `k`, then storing the ticket with its new expectation. */
  lemma OwnIntentKeepsInv(s: System, s': System, k: TicketId, id: Option<Id>)
    requires SystemInv(s) && k in s.tickets && s.broker.intentSequence == s.tickets[k].expectedIntent
    requires s'.broker == Focused(s.broker, id, Some(k)) && s'.nextTicket == s.nextTicket
    requires forall c | c in s'.calls :: c < s'.nextCall
    requires k in s'.tickets && s'.tickets == s.tickets[k := s'.tickets[k]]
    requires s'.tickets[k] == s.tickets[k].(expectedIntent := s'.broker.intentSequence,
                                            suspended := s'.tickets[k].suspended)
    ensures SystemInv(s')
  {
    FocusedKeepsInv(s.broker, id, Some(k));
    assert TicketInv(s.broker, k, s.tickets[k]);
    OwnIntentKeepsTicket(s.broker, k, s.tickets[k], id);
    GrowthKeepsTickets(s, s'.(tickets := s.tickets));
  }

  lemma BeganResumeKeepsInv(s: System, k: TicketId, purpose: Purpose)
    requires SystemInv(s) && k in s.tickets
    ensures SystemInv(BeganResume(s, k, purpose))
  {
    var t := s.tickets[k];
    if Valid(s.broker, t) && t.suspended {
      OwnIntentKeepsInv(s, BeganResume(s, k, purpose), k, Some(t.id));
    }
  }

  /** Storing a ticket whose captured facts are unchanged. */
  lemma PutKeepsInv(s: System, calls: map<CallId, Call>, k: TicketId, t: Ticket)
    requires SystemInv(s) && k in s.tickets && TicketInv(s.broker, k, t)
    requires calls.Keys <= s.calls.Keys
    ensures SystemInv(Put(s.(calls := calls), k, t))
  {
  }

  lemma ContinueKeepsInv(s: System, c: CallId)
    requires SystemInv(s) && Known(s, c) && !s.calls[c].Acting?
    ensures SystemInv(Advance(s, Continue(c)))
  {
    var k := s.calls[c].ticket;
    var s' := Advance(s, Continue(c));
    assert TicketInv(s.broker, k, s.tickets[k]);
    PutKeepsInv(s, s'.calls, k, s'.tickets[k]);
    assert s.tickets[k := s.tickets[k]] == s.tickets;
  }

  lemma CapturedKeepsInv(s: System, id: Id)
    requires SystemInv(s)
    ensures SystemInv(Captured(s, id))
  {
  }

  lemma OutsideKeepsInv(s: System, event: Event)
    requires SystemInv(s)
    ensures SystemInv(Advance(s, Outside(event)))
  {
    NextKeepsInv(s.broker, event);
    IssuedOnlyGrows(s.broker, event);
    GrowthKeepsTickets(s, Advance(s, Outside(event)));
  }

  lemma SuspendKeepsInv(s: System, k: TicketId)
    requires SystemInv(s)
    ensures SystemInv(Advance(s, Suspend(k)))
  {
    if k in s.tickets && Valid(s.broker, s.tickets[k]) && !s.tickets[k].suspended {
      OwnIntentKeepsInv(s, Suspended(s, k), k, None);
    }
  }

  lemma BeganCancelKeepsInv(s: System, k: TicketId)
    requires SystemInv(s) && k in s.tickets
    ensures SystemInv(BeganCancel(s, k))
  {
    var t := s.tickets[k];
    if t.suspended && Valid(s.broker, t) {
      BeganResumeKeepsInv(s, k, Cancel);
    } else {
      ConsumedKeepsInv(s, k);
    }
  }

  lemma ConsumedKeepsInv(s: System, k: TicketId)
    requires SystemInv(s) && k in s.tickets
    ensures SystemInv(Put(s, k, s.tickets[k].(consumed := true)))
  {
    assert TicketInv(s.broker, k, s.tickets[k]);
    PutKeepsInv(s, s.calls, k, s.tickets[k].(consumed := true));
    assert s.(calls := s.calls) == s;
  }

  lemma TakeLeaseKeepsInv(b: Broker, r: Registration)
    requires Inv(b)
    ensures Inv(b.(leases := b.leases - {r}))
  {
    var b' := b.(leases := b.leases - {r});
    assert Outstanding(b') == Outstanding(b);
  }

  lemma EndKeepsInv(s: System, c: CallId, failed: bool)
    requires SystemInv(s) && Known(s, c) && s.calls[c].Acting?
    ensures SystemInv(Ended(s, c, failed))
  {
    var s' := Ended(s, c, failed);
    TakeLeaseKeepsInv(s.broker, s.tickets[s.calls[c].ticket].original);
    assert s'.broker.issued == s.broker.issued;
    GrowthKeepsTickets(s, s');
  }

  lemma AdvanceKeepsInv(s: System, step: Step)
    requires SystemInv(s)
    ensures SystemInv(Advance(s, step))
  {
    match step
    case Outside(event) => OutsideKeepsInv(s, event);
    case Capture(id) => CapturedKeepsInv(s, id);
    case Suspend(k) => SuspendKeepsInv(s, k);
    case BeginAction(k) =>
      if k in s.tickets {
        BeganResumeKeepsInv(s, k, Act);
      }
    case BeginCancel(k) =>
      if k in s.tickets {
        BeganCancelKeepsInv(s, k);
      }
    case Continue(c) =>
      if Known(s, c) && !s.calls[c].Acting? {
        ContinueKeepsInv(s, c);
      }
    case ActionEnds(c, failed) =>
      if Known(s, c) && s.calls[c].Acting? {
        EndKeepsInv(s, c, failed);
      }
  }

  // ---------------------------------------------------------------- every run

  lemma {:induction false} RunKeepsInv(steps: seq<Step>)
    ensures SystemInv(Run(Start, steps))
  {
    if steps != [] {
      RunKeepsInv(steps[..|steps| - 1]);
      AdvanceKeepsInv(Run(Start, steps[..|steps| - 1]), steps[|steps| - 1]);
    }
  }

  /** In every run, at most one registration holds a lease, and it is the acknowledged, registered one. */
  lemma LeaseIsExclusive(steps: seq<Step>)
    ensures var b := Run(Start, steps).broker;
            && (forall r, r' | r in b.leases && r' in b.leases :: r == r')
            && (forall r | r in b.leases ::
                b.acknowledgedRegistration == Some(r) && Registered(b, Some(r.id)) == Some(r))
  {
    RunKeepsInv(steps);
  }

  /** In every run, input is offered only while the newest intent is the acknowledged one. */
  lemma InputFollowsNewestIntent(steps: seq<Step>)
    ensures var b := Run(Start, steps).broker;
            Current(b).Some? ==>
              && b.intentSequence in b.outcomes
              && b.outcomes[b.intentSequence] == Acknowledged(Some(Current(b).value.id), Current(b))
  {
    RunKeepsInv(steps);
    var b := Run(Start, steps).broker;
    if Current(b).Some? {
      CurrentIsNewestAcknowledged(b);
    }
  }

  /** In every run, a ticket performs at most one action. */
  lemma TicketActsOnce(steps: seq<Step>, k: TicketId)
    requires k in Run(Start, steps).tickets
    ensures Run(Start, steps).tickets[k].performed <= 1
  {
    RunKeepsInv(steps);
    var s := Run(Start, steps);
    assert TicketInv(s.broker, k, s.tickets[k]);
  }

  /** Only a decision on a valid ticket performs its action. */
  lemma ActionNeedsValidTicket(s: System, step: Step, k: TicketId)
    requires SystemInv(s) && k in s.tickets && k in Advance(s, step).tickets
    requires Advance(s, step).tickets[k].performed > s.tickets[k].performed
    ensures Valid(s.broker, s.tickets[k])
  {
  }

  /**
   The step that performs a ticket's action finds the captured registration still registered with
   the captured fingerprint, and every intent since the capture was the ticket's own.
   */
  lemma TicketActsOnCapturedTarget(steps: seq<Step>, step: Step, k: TicketId)
    requires k in Run(Start, steps).tickets && k in Advance(Run(Start, steps), step).tickets
    requires Advance(Run(Start, steps), step).tickets[k].performed > Run(Start, steps).tickets[k].performed
    ensures var s := Run(Start, steps);
            var t := s.tickets[k];
            && !t.consumed && t.performed == 0
            && Registered(s.broker, Some(t.id)) == Some(t.original)
            && FocusTarget(s.broker, Some(t.original)) == Some(t.fingerprint)
            && |s.broker.issued| == s.broker.intentSequence
            && forall n | t.capturedAt <= n < s.broker.intentSequence :: s.broker.issued[n].ticket == Some(k)
  {
    RunKeepsInv(steps);
    var s := Run(Start, steps);
    ActionNeedsValidTicket(s, step, k);
    assert TicketInv(s.broker, k, s.tickets[k]);
  }

  // ---------------------------------------------------------------- the module's variables

  /** The focus state, and the variables each captured ticket closes over. Awaits end the methods. */
  class TerminalInput {
    const focus: TerminalInputFocus
    var tickets: map<TicketId, Ticket>
    var calls: map<CallId, Call>
    var nextTicket: TicketId
    var nextCall: CallId

    ghost function View(): System
      reads this, focus
    {
      System(focus.View(), tickets, calls, nextTicket, nextCall)
    }

    constructor ()
      ensures View() == Start && fresh(focus)
    {
      focus := new TerminalInputFocus();
      tickets, calls, nextTicket, nextCall := map[], map[], 0, 0;
    }

    method IsValid(t: Ticket) returns (valid: bool)
      ensures valid == Valid(focus.View(), t)
    {
      if t.consumed || t.id !in focus.targets || focus.targets[t.id] != t.original
         || focus.focusIntentSequence != t.expectedIntent
         || t.original !in focus.focusTargets || focus.focusTargets[t.original] != t.fingerprint {
        return false;
      }
      var current := focus.CurrentTarget();
      return t.suspended || (current == Some(t.original) && t.original in focus.accepting);
    }

    method CaptureInput(id: Id)
      modifies this`tickets, this`nextTicket
      ensures View() == old(Captured(View(), id))
    {
      var candidate := focus.CurrentTarget();
      if candidate.None? || candidate.value.id != id || candidate.value !in focus.accepting {
        return;
      }
      var now := focus.focusIntentSequence;
      tickets := tickets[nextTicket := Ticket(id, candidate.value, focus.focusTargets[candidate.value], now, now,
        false, false, 0)];
      nextTicket := nextTicket + 1;
    }

    method SuspendInput(k: TicketId)
      requires k in tickets
      modifies this`tickets, focus
      ensures View() == old(Suspended(View(), k))
    {
      var t := tickets[k];
      var valid := IsValid(t);
      if !valid || t.suspended {
        return;
      }
      focus.FocusTarget(None, Some(k));
      tickets := tickets[k := t.(suspended := true, expectedIntent := focus.focusIntentSequence)];
    }

    method AddCall(call: Call)
      modifies this`calls, this`nextCall
      ensures View() == old(Called(View(), call))
    {
      calls := calls[nextCall := call];
      nextCall := nextCall + 1;
    }

    method BeginResume(k: TicketId, purpose: Purpose)
      requires k in tickets
      modifies this`tickets, this`calls, this`nextCall, focus
      ensures View() == old(BeganResume(View(), k, purpose))
    {
      var t := tickets[k];
      var valid := IsValid(t);
      if !valid || !t.suspended {
        AddCall(Resumed(k, purpose, valid));
        return;
      }
      var before := focus.focusIntentSequence;
      focus.FocusTarget(Some(t.id), Some(k));
      var after := focus.focusIntentSequence;
      AddCall(AwaitFocus(k, purpose, if after == before then None else Some(after)));
      tickets := tickets[k := t.(expectedIntent := after)];
    }

    method CancelTicket(k: TicketId)
      requires k in tickets
      modifies this`tickets, this`calls, this`nextCall, focus
      ensures View() == old(BeganCancel(View(), k))
    {
      var valid := IsValid(tickets[k]);
      if tickets[k].suspended && valid {
        BeginResume(k, Cancel);
      } else {
        tickets := tickets[k := tickets[k].(consumed := true)];
      }
    }

    method FinishResume(c: CallId)
      requires c in calls && calls[c].AwaitFocus? && calls[c].ticket in tickets
      modifies this`tickets, this`calls
      ensures View() == old(FocusSettled(View(), c))
    {
      var k, purpose, intent := calls[c].ticket, calls[c].purpose, calls[c].intent;
      if intent.Some? && intent.value !in focus.outcomes {
        return;
      }
      var t := tickets[k];
      var valid := IsValid(t);
      if (intent.Some? && !focus.outcomes[intent.value].Acknowledged?) || !valid {
        calls := calls[c := Resumed(k, purpose, false)];
        return;
      }
      var current := focus.CurrentTarget();
      calls := calls[c := Resumed(k, purpose, current == Some(t.original) && t.original in focus.accepting)];
      tickets := tickets[k := t.(suspended := false)];
    }

    /** The check and the use of the ticket are one step. */
    method Decide(c: CallId)
      requires c in calls && calls[c].Resumed? && calls[c].ticket in tickets
      modifies this`tickets, this`calls
      ensures View() == old(Decided(View(), c))
    {
      var k, t := calls[c].ticket, tickets[calls[c].ticket];
      var valid := IsValid(t);
      if calls[c].purpose.Act? && calls[c].ok && valid {
        calls := calls[c := Acting(k)];
        tickets := tickets[k := t.(consumed := true, performed := t.performed + 1)];
      } else {
        calls := calls - {c};
        tickets := tickets[k := t.(consumed := true)];
      }
    }

    method EndAction(c: CallId, failed: bool)
      requires c in calls && calls[c].Acting? && calls[c].ticket in tickets
      modifies this`calls, focus`leases
      ensures View() == old(Ended(View(), c, failed))
    {
      if failed {
        focus.leases := focus.leases - {tickets[calls[c].ticket].original};
      }
      calls := calls - {c};
    }

    method Perform(step: Step)
      requires Keyed(focus.targets)
      modifies this, focus
      ensures View() == old(Advance(View(), step))
    {
      match step
      case Outside(event) => focus.HandleEvent(event);
      case Capture(id) => CaptureInput(id);
      case Suspend(k) => if k in tickets { SuspendInput(k); }
      case BeginAction(k) => if k in tickets { BeginResume(k, Act); }
      case BeginCancel(k) => if k in tickets { CancelTicket(k); }
      case Continue(c) =>
        if c in calls && calls[c].ticket in tickets {
          if calls[c].AwaitFocus? {
            FinishResume(c);
          } else if calls[c].Resumed? {
            Decide(c);
          }
        }
      case ActionEnds(c, failed) =>
        if c in calls && calls[c].ticket in tickets && calls[c].Acting? {
          EndAction(c, failed);
        }
    }

    /** Any interleaving: at most one lease, and every ticket has acted at most once. */
    method RunSteps(steps: seq<Step>)
      requires View() == Start
      modifies this, focus
      ensures View() == Run(Start, steps) && SystemInv(View())
      ensures forall k | k in tickets :: tickets[k].performed <= 1
    {
      for i := 0 to |steps|
        invariant View() == Run(Start, steps[..i]) && SystemInv(View())
      {
        assert steps[..i + 1][..i] == steps[..i];
        AdvanceKeepsInv(View(), steps[i]);
        Perform(steps[i]);
      }
      assert steps[..|steps|] == steps;
      forall k | k in tickets
        ensures tickets[k].performed <= 1
      {
        assert TicketInv(focus.View(), k, tickets[k]);
      }
    }
  }
}
