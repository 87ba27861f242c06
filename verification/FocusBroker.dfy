/**
 The renderer's terminal input focus: Panes register as input targets, focus intents are
 serialized one at a time against the process-wide Core broker, and a Core acknowledgement
 grants a lease to at most one registration.

 Every async function is split at its awaits. The part before the first await and each
 continuation is one atomic step; Core replies arrive as separate steps at any later time.
 */
module FocusBroker {
  import opened Basics

  type Id = s: string | s != "" witness "pane"
  type Fingerprint = string
  type TicketId = nat

  /** One registered object. `serial` is its identity; several may use one Pane id over time. */
  datatype Registration = Registration(id: Id, serial: nat)

  /** An intent waiting in the focus queue. A takeover captures its registration when issued. */
  datatype Intent =
    | FocusIntent(number: nat, id: Option<Id>)
    | TakeoverIntent(number: nat, id: Option<Id>, registration: Option<Registration>)

  /** The one request at the head of the queue that is in progress. */
  datatype Request =
    | Idle
    | Focusing(number: nat, id: Option<Id>, registration: Option<Registration>, target: Option<Fingerprint>)
    | TakingOver(number: nat, id: Option<Id>, registration: Option<Registration>)

  /** How an intent ended. `Abandoned` is a takeover that throws before its `try` block. */
  datatype Outcome =
    | Acknowledged(id: Option<Id>, registration: Option<Registration>)
    | Superseded
    | Failed
    | Abandoned

  datatype Issue = Issue(ticket: Option<TicketId>, takeover: bool)

  datatype Response = Response(epoch: string, target: Option<Fingerprint>, lease: bool)

  datatype Broker = Broker(
    targets: map<Id, Registration>,
    desired: Option<Id>,
    acknowledgedId: Option<Id>,
    acknowledgedRegistration: Option<Registration>,
    acknowledgedFingerprint: Option<Fingerprint>,
    pending: bool,
    epoch: Option<string>,
    intentSequence: nat,
    queue: seq<Intent>,
    running: Request,
    // Registrations whose last applied lease was not null.
    leases: set<Registration>,
    // What each registration's `focusTarget()` and input check would answer now.
    focusTargets: map<Registration, Fingerprint>,
    accepting: set<Registration>,
    // History: the origin of intent k + 1, and how each finished intent ended.
    issued: seq<Issue>,
    outcomes: map<nat, Outcome>)

  const Initial := Broker(map[], None, None, None, None, false, None, 0, [], Idle, {}, map[], {}, [], map[])

  datatype Event =
    | Register(registration: Registration)
    | Unregister(registration: Registration)
    | RequestFocus(id: Option<Id>)
    | RequestTakeover(pane: Id)
    | StartNext
    | Succeed(response: Response)
    | Fail
    // The snapshot with the focus epoch, which is read again only while none is known.
    | EpochRead(epoch: string)
    | EpochUnavailable
    | Observe(registration: Registration, target: Option<Fingerprint>, accepts: bool)

  // ---------------------------------------------------------------- reading

  function Registered(b: Broker, id: Option<Id>): Option<Registration> {
    if id.Some? && id.value in b.targets then Some(b.targets[id.value]) else None
  }

  function FocusTarget(b: Broker, r: Option<Registration>): Option<Fingerprint> {
    if r.Some? && r.value in b.focusTargets then Some(b.focusTargets[r.value]) else None
  }

  /** The registration that may receive input now, if any. */
  function Current(b: Broker): Option<Registration> {
    if b.pending || b.desired != b.acknowledgedId then None
    else if b.acknowledgedId.None? || b.acknowledgedRegistration.None? then None
    else if Registered(b, b.acknowledgedId) != b.acknowledgedRegistration then None
    else
      var target := FocusTarget(b, b.acknowledgedRegistration);
      if target.None? || target != b.acknowledgedFingerprint then None else b.acknowledgedRegistration
  }

  predicate AlreadyFocused(b: Broker, id: Option<Id>) {
    var r := Registered(b, id);
    && r.Some?
    && !b.pending
    && b.desired == id
    && b.acknowledgedId == id
    && b.acknowledgedRegistration == r
    && FocusTarget(b, r).Some?
    && b.acknowledgedFingerprint == FocusTarget(b, r)
    && r.value in b.accepting
  }

  // ---------------------------------------------------------------- steps

  function Applied(b: Broker, r: Registration): Broker {
    var replaced := Registered(b, Some(r.id));
    b.(leases := if replaced.Some? && replaced != Some(r) then b.leases - {replaced.value} else b.leases,
       targets := b.targets[r.id := r])
  }

  function Issued(b: Broker, intent: Intent, issuer: Option<TicketId>): Broker {
    b.(desired := intent.id, pending := true, intentSequence := b.intentSequence + 1,
       queue := b.queue + [intent], issued := b.issued + [Issue(issuer, intent.TakeoverIntent?)])
  }

  function Focused(b: Broker, id: Option<Id>, issuer: Option<TicketId>): Broker {
    var known := if Registered(b, id).Some? then id else None;
    if AlreadyFocused(b, known) then b
    else Issued(b, FocusIntent(b.intentSequence + 1, known), issuer)
  }

  function TakenOver(b: Broker, id: Id): Broker {
    var registration := Registered(b, Some(id));
    var known := if registration.Some? then Some(id) else None;
    Issued(b, TakeoverIntent(b.intentSequence + 1, known, registration), None)
  }

  function Withdrawn(b: Broker, r: Registration): Broker {
    if Registered(b, Some(r.id)) != Some(r) then b
    else
      var left := b.(targets := b.targets - {r.id}, leases := b.leases - {r});
      if b.desired == Some(r.id) || b.acknowledgedId == Some(r.id) then Focused(left, None, None) else left
  }

  function Finished(b: Broker, outcome: Outcome): Broker
    requires !b.running.Idle?
  {
    b.(running := Idle, outcomes := b.outcomes[b.running.number := outcome])
  }

  function Started(b: Broker): Broker {
    if !b.running.Idle? || b.queue == [] then b
    else
      var next := b.(queue := b.queue[1..]);
      match b.queue[0]
      case FocusIntent(n, id) =>
        var registration := Registered(b, id);
        next.(running := Focusing(n, id, registration, FocusTarget(b, registration)))
      case TakeoverIntent(n, id, registration) =>
        if id.None? then next.(outcomes := b.outcomes[n := Abandoned])
        else next.(running := TakingOver(n, id, registration))
  }

  /** Leases after an acknowledgement for `registration` under `id` has been shown to every target. */
  function LeasesAfter(leases: set<Registration>, targets: map<Id, Registration>,
                       id: Option<Id>, registration: Option<Registration>, lease: bool): set<Registration>
  {
    (leases - targets.Values)
    + (if lease && registration.Some? && id.Some? && id.value in targets && targets[id.value] == registration.value
       then {registration.value} else {})
  }

  function Acknowledge(b: Broker, id: Option<Id>, registration: Option<Registration>, r: Response): Broker {
    b.(leases := LeasesAfter(b.leases, b.targets, id, registration, r.lease),
       acknowledgedId := id, acknowledgedRegistration := registration, acknowledgedFingerprint := r.target,
       desired := id, pending := false)
  }

  function Succeeded(b: Broker, r: Response): Broker {
    if b.running.Idle? then b
    else
      var known := b.(epoch := Some(r.epoch));
      if b.running.number != b.intentSequence then Finished(known, Superseded)
      else
        var (id, registration) :=
          if b.running.TakingOver? || b.running.target.Some? then (b.running.id, b.running.registration)
          else (None, None);
        Finished(Acknowledge(known, id, registration, r), Acknowledged(id, registration))
  }

  function Forgotten(b: Broker): Broker {
    b.(leases := LeasesAfter(b.leases, b.targets, None, None, false), acknowledgedId := None,
       acknowledgedRegistration := None, acknowledgedFingerprint := None, pending := false)
  }

  function Refused(b: Broker): Broker {
    if b.running.Idle? then b
    else if b.running.number != b.intentSequence then Finished(b, Superseded)
    else Finished(Forgotten(b), Failed)
  }

  function Observed(b: Broker, r: Registration, target: Option<Fingerprint>, accepts: bool): Broker {
    b.(focusTargets := if target.Some? then b.focusTargets[r := target.value] else b.focusTargets - {r},
       accepting := if accepts then b.accepting + {r} else b.accepting - {r})
  }

  function Next(b: Broker, e: Event): Broker {
    match e
    case Register(r) => Applied(b, r)
    case Unregister(r) => Withdrawn(b, r)
    case RequestFocus(id) => Focused(b, id, None)
    case RequestTakeover(id) => TakenOver(b, id)
    case StartNext => Started(b)
    case Succeed(response) => Succeeded(b, response)
    case Fail => Refused(b)
    case EpochRead(epoch) => if b.running.Idle? then b else b.(epoch := Some(epoch))
    // Only a takeover reads the focus epoch outside its `try` block.
    case EpochUnavailable =>
      if b.epoch.Some? then b else if b.running.TakingOver? then Finished(b, Abandoned) else Refused(b)
    case Observe(r, target, accepts) => Observed(b, r, target, accepts)
  }

  function After(events: seq<Event>): Broker {
    if events == [] then Initial else Next(After(events[..|events| - 1]), events[|events| - 1])
  }

  // ---------------------------------------------------------------- what every step keeps

  function Unfinished(running: Request, queue: seq<Intent>): seq<nat> {
    (if running.Idle? then [] else [running.number])
    + seq(|queue|, i requires 0 <= i < |queue| => queue[i].number)
  }

  function Outstanding(b: Broker): seq<nat> {
    Unfinished(b.running, b.queue)
  }

  /** Intents finish in the order they were issued, so the unfinished ones are the newest ones. */
  ghost predicate Serialized(b: Broker) {
    var open := Outstanding(b);
    && |open| <= b.intentSequence == |b.issued|
    && (forall i | 0 <= i < |open| :: open[i] == b.intentSequence - |open| + 1 + i)
    && (forall k: nat :: k in b.outcomes <==> 1 <= k <= b.intentSequence - |open|)
  }

  ghost predicate LeaseHeldByAcknowledged(b: Broker) {
    forall r | r in b.leases ::
      && b.acknowledgedRegistration == Some(r)
      && b.acknowledgedId == Some(r.id)
      && Registered(b, Some(r.id)) == Some(r)
  }

  ghost predicate NewestDecides(b: Broker) {
    && (Outstanding(b) != [] ==> b.pending)
    && (b.intentSequence == 0 ==> !b.pending && b.acknowledgedRegistration.None?)
    && (Outstanding(b) == [] && 0 < b.intentSequence && b.intentSequence in b.outcomes ==>
          var newest := b.outcomes[b.intentSequence];
          && (b.pending <==> newest.Abandoned?)
          && (!b.pending && b.acknowledgedRegistration.Some? ==>
                newest == Acknowledged(b.acknowledgedId, b.acknowledgedRegistration)))
  }

  /** Only a takeover can be abandoned. */
  ghost predicate KindsAreRecorded(b: Broker) {
    && (forall k | k in b.outcomes :: b.outcomes[k].Abandoned? ==> Recorded(b.issued, k, true))
    && (!b.running.Idle? ==> Recorded(b.issued, b.running.number, b.running.TakingOver?))
    && (forall i | 0 <= i < |b.queue| :: Recorded(b.issued, b.queue[i].number, b.queue[i].TakeoverIntent?))
  }

  predicate Recorded(issued: seq<Issue>, number: nat, takeover: bool) {
    1 <= number <= |issued| && issued[number - 1].takeover == takeover
  }

  predicate Keyed(targets: map<Id, Registration>) {
    forall id | id in targets :: targets[id].id == id
  }

  ghost predicate Inv(b: Broker) {
    && Keyed(b.targets)
    && (forall i | 0 <= i < |b.queue| ::
          b.queue[i].TakeoverIntent? ==> WellCaptured(b.queue[i].id, b.queue[i].registration))
    && (b.running.Focusing? ==> b.running.target.Some? ==> WellCaptured(b.running.id, b.running.registration))
    && (b.running.TakingOver? ==> WellCaptured(b.running.id, b.running.registration))
    && Serialized(b)
    && KindsAreRecorded(b)
    && LeaseHeldByAcknowledged(b)
    && NewestDecides(b)
  }

  predicate WellCaptured(id: Option<Id>, registration: Option<Registration>) {
    id.Some? == registration.Some? && (id.Some? ==> registration.value.id == id.value)
  }

  lemma IssuedKeepsInv(b: Broker, intent: Intent, issuer: Option<TicketId>)
    requires Inv(b) && intent.number == b.intentSequence + 1
    requires intent.TakeoverIntent? ==> WellCaptured(intent.id, intent.registration)
    ensures Inv(Issued(b, intent, issuer))
  {
    var b' := Issued(b, intent, issuer);
    assert Outstanding(b') == Outstanding(b) + [intent.number];
  }

  lemma FocusedKeepsInv(b: Broker, id: Option<Id>, issuer: Option<TicketId>)
    requires Inv(b)
    ensures Inv(Focused(b, id, issuer))
  {
    var known := if Registered(b, id).Some? then id else None;
    if !AlreadyFocused(b, known) {
      IssuedKeepsInv(b, FocusIntent(b.intentSequence + 1, known), issuer);
    }
  }

  lemma FinishedIsSerialized(b: Broker, b': Broker, outcome: Outcome)
    requires Serialized(b) && !b.running.Idle?
    requires b'.running.Idle? && b'.queue == b.queue && b'.intentSequence == b.intentSequence
    requires b'.issued == b.issued && b'.outcomes == b.outcomes[b.running.number := outcome]
    ensures Serialized(b') && Outstanding(b') == Outstanding(b)[1..]
    ensures Outstanding(b') == [] <==> b.running.number == b.intentSequence
  {
    var open, left := Outstanding(b), Outstanding(b');
    assert left == open[1..];
    assert open[0] == b.running.number == b.intentSequence - |open| + 1;
    assert forall i | 0 <= i < |left| :: left[i] == open[i + 1];
  }

  lemma DequeuedIsSerialized(b: Broker, b': Broker)
    requires Serialized(b) && b.running.Idle? && b.queue != []
    requires b'.queue == b.queue[1..] && b'.intentSequence == b.intentSequence && b'.issued == b.issued
    ensures !b'.running.Idle? && b'.running.number == b.queue[0].number && b'.outcomes == b.outcomes ==>
              Serialized(b') && Outstanding(b') == Outstanding(b)
    ensures b'.running.Idle? && b'.outcomes == b.outcomes[b.queue[0].number := Abandoned] ==>
              Serialized(b') && Outstanding(b') == Outstanding(b)[1..]
    ensures Outstanding(b)[0] == b.queue[0].number
    ensures |Outstanding(b)| == 1 <==> b.queue[0].number == b.intentSequence
  {
    var open, left := Outstanding(b), Outstanding(b');
    assert open[0] == b.queue[0].number == b.intentSequence - |open| + 1;
    if b'.running.Idle? {
      assert left == open[1..];
      assert forall i | 0 <= i < |left| :: left[i] == open[i + 1];
    } else if b'.running.number == b.queue[0].number {
      assert left == open;
    }
  }

  lemma StartedKeepsInv(b: Broker)
    requires Inv(b)
    ensures Inv(Started(b))
  {
    if b.running.Idle? && b.queue != [] {
      StartedDecides(b);
      StartedIsCaptured(b);
      StartedIsRecorded(b);
    }
  }

  lemma StartedDecides(b: Broker)
    requires Serialized(b) && NewestDecides(b) && b.running.Idle? && b.queue != []
    ensures Serialized(Started(b)) && NewestDecides(Started(b))
  {
    DequeuedIsSerialized(b, Started(b));
  }

  lemma StartedIsCaptured(b: Broker)
    requires Inv(b) && b.running.Idle? && b.queue != []
    ensures var b' := Started(b);
            && (forall i | 0 <= i < |b'.queue| ::
                  b'.queue[i].TakeoverIntent? ==> WellCaptured(b'.queue[i].id, b'.queue[i].registration))
            && (b'.running.Focusing? && b'.running.target.Some? ==>
                  WellCaptured(b'.running.id, b'.running.registration))
            && (b'.running.TakingOver? ==> WellCaptured(b'.running.id, b'.running.registration))
  {
  }

  lemma StartedIsRecorded(b: Broker)
    requires KindsAreRecorded(b) && b.running.Idle? && b.queue != []
    ensures KindsAreRecorded(Started(b))
  {
  }

  lemma SucceededKeepsInv(b: Broker, r: Response)
    requires Inv(b)
    ensures Inv(Succeeded(b, r))
  {
    if !b.running.Idle? {
      var b' := Succeeded(b, r);
      FinishedIsSerialized(b, b', b'.outcomes[b.running.number]);
    }
  }

  lemma RefusedKeepsInv(b: Broker)
    requires Inv(b)
    ensures Inv(Refused(b))
  {
    if !b.running.Idle? {
      var b' := Refused(b);
      FinishedIsSerialized(b, b', b'.outcomes[b.running.number]);
    }
  }

  lemma AbandonedKeepsInv(b: Broker)
    requires Inv(b) && b.running.TakingOver?
    ensures Inv(Finished(b, Abandoned))
  {
    FinishedIsSerialized(b, Finished(b, Abandoned), Abandoned);
  }

  lemma AppliedKeepsInv(b: Broker, r: Registration)
    requires Inv(b)
    ensures Inv(Applied(b, r))
  {
  }

  lemma WithdrawnKeepsInv(b: Broker, r: Registration)
    requires Inv(b)
    ensures Inv(Withdrawn(b, r))
  {
    if Registered(b, Some(r.id)) == Some(r) {
      FocusedKeepsInv(b.(targets := b.targets - {r.id}, leases := b.leases - {r}), None, None);
    }
  }

  lemma TakenOverKeepsInv(b: Broker, id: Id)
    requires Inv(b)
    ensures Inv(TakenOver(b, id))
  {
    var registration := Registered(b, Some(id));
    var known := if registration.Some? then Some(id) else None;
    IssuedKeepsInv(b, TakeoverIntent(b.intentSequence + 1, known, registration), None);
  }

  lemma NextKeepsInv(b: Broker, e: Event)
    requires Inv(b)
    ensures Inv(Next(b, e))
  {
    match e
    case Register(r) => AppliedKeepsInv(b, r);
    case Unregister(r) => WithdrawnKeepsInv(b, r);
    case RequestFocus(id) => FocusedKeepsInv(b, id, None);
    case RequestTakeover(id) => TakenOverKeepsInv(b, id);
    case StartNext => StartedKeepsInv(b);
    case Succeed(response) => SucceededKeepsInv(b, response);
    case Fail => RefusedKeepsInv(b);
    case EpochUnavailable =>
      if b.running.TakingOver? {
        AbandonedKeepsInv(b);
      } else {
        RefusedKeepsInv(b);
      }
    case EpochRead(epoch) =>
    case Observe(r, target, accepts) =>
  }

  // ---------------------------------------------------------------- consequences

  /** A lease has one holder: the acknowledged registration, still registered under its id. */
  lemma LeaseHolderIsUnique(b: Broker, r: Registration, r': Registration)
    requires Inv(b) && r in b.leases && r' in b.leases
    ensures r == r'
    ensures b.acknowledgedRegistration == Some(r) && Registered(b, Some(r.id)) == Some(r)
  {
  }

  /** Input is offered only to the registration the newest intent was acknowledged for. */
  lemma CurrentIsNewestAcknowledged(b: Broker)
    requires Inv(b) && Current(b).Some?
    ensures var r := Current(b).value;
            && Outstanding(b) == []
            && b.intentSequence in b.outcomes
            && b.outcomes[b.intentSequence] == Acknowledged(Some(r.id), Some(r))
            && Registered(b, Some(r.id)) == Some(r)
            && FocusTarget(b, Some(r)) == b.acknowledgedFingerprint
  {
  }

  /** A late reply to an older intent leaves focus, leases and the pending newer intent alone. */
  lemma StaleReplyChangesNoFocus(b: Broker, e: Event)
    requires Inv(b) && !b.running.Idle? && b.running.number != b.intentSequence
    requires e.Succeed? || e.Fail? || (e.EpochUnavailable? && b.epoch.None?)
    ensures var b' := Next(b, e);
            && b'.leases == b.leases && b'.targets == b.targets && b'.desired == b.desired
            && b'.acknowledgedId == b.acknowledgedId
            && b'.acknowledgedRegistration == b.acknowledgedRegistration
            && b'.pending && Current(b').None?
            && Outstanding(b') == Outstanding(b)[1..] && b.intentSequence in Outstanding(b')
  {
    var b' := Next(b, e);
    FinishedIsSerialized(b, b', b'.outcomes[b.running.number]);
    var left := Outstanding(b');
    assert left[|left| - 1] == b.intentSequence;
  }

  // ---------------------------------------------------------------- the pending flag at rest

  /**
   The event ends a takeover before its `try` block: its Pane was not registered when it was asked
   for, or the focus epoch is not known and cannot be read.
   */
  predicate Abandons(b: Broker, e: Event) {
    || (e.StartNext? && b.running.Idle? && b.queue != [] && b.queue[0].TakeoverIntent? && b.queue[0].id.None?)
    || (e.EpochUnavailable? && b.running.TakingOver? && b.epoch.None?)
  }

  lemma StartEndsLast(b: Broker)
    requires Inv(b) && Outstanding(b) != [] && Outstanding(Started(b)) == []
    ensures Started(b).pending && Abandons(b, StartNext)
  {
  }

  lemma ReplyEndsLast(b: Broker, b': Broker)
    requires Inv(b) && !b.running.Idle? && Outstanding(b') == [] && b'.queue == b.queue
    ensures b.running.number == b.intentSequence
  {
    assert |Outstanding(b')| >= |b'.queue|;
    assert Outstanding(b) == [b.running.number];
    assert Outstanding(b)[0] == b.intentSequence - 1 + 1;
  }

  lemma AskingAddsOne(b: Broker, intent: Intent, issuer: Option<TicketId>)
    ensures Outstanding(Issued(b, intent, issuer)) == Outstanding(b) + [intent.number]
  {
  }

  lemma FocusedIsOutstanding(b: Broker, id: Option<Id>, issuer: Option<TicketId>)
    ensures Outstanding(Focused(b, id, issuer)) != [] || Focused(b, id, issuer) == b
  {
    AskingAddsOne(b, FocusIntent(b.intentSequence + 1, if Registered(b, id).Some? then id else None), issuer);
  }

  /** The step that ends the last outstanding intent leaves the flag set exactly when it abandons it. */
  lemma LastEndLeavesPendingExactly(b: Broker, e: Event)
    requires Inv(b) && Outstanding(b) != [] && Outstanding(Next(b, e)) == []
    ensures Next(b, e).pending <==> Abandons(b, e)
  {
    match e
    case StartNext => StartEndsLast(b);
    case Succeed(response) => ReplyEndsLast(b, Next(b, e));
    case Fail => ReplyEndsLast(b, Next(b, e));
    case EpochUnavailable => ReplyEndsLast(b, Next(b, e));
    case Unregister(r) => FocusedIsOutstanding(b.(targets := b.targets - {r.id}, leases := b.leases - {r}), None, None);
    case RequestFocus(id) => FocusedIsOutstanding(b, id, None);
    case RequestTakeover(pane) => UnknownPaneExactly(b, pane);
    case _ =>
  }

  /** At rest nothing changes the flag but a new intent. */
  lemma RestKeepsPending(b: Broker, e: Event)
    requires Outstanding(b) == [] && Outstanding(Next(b, e)) == []
    ensures Next(b, e).pending == b.pending
  {
    match e
    case Unregister(r) => FocusedIsOutstanding(b.(targets := b.targets - {r.id}, leases := b.leases - {r}), None, None);
    case RequestFocus(id) => FocusedIsOutstanding(b, id, None);
    case RequestTakeover(pane) => UnknownPaneExactly(b, pane);
    case _ =>
  }

  /** A takeover is queued without a Pane exactly when the Pane is not registered. */
  lemma UnknownPaneExactly(b: Broker, pane: Id)
    ensures var queue := TakenOver(b, pane).queue;
            && |queue| == |b.queue| + 1 && queue[..|b.queue|] == b.queue
            && var asked := queue[|b.queue|];
               && asked.TakeoverIntent? && asked.number == b.intentSequence + 1
               && (asked.id.None? <==> pane !in b.targets)
    ensures Outstanding(TakenOver(b, pane)) != []
  {
    var registration := Registered(b, Some(pane));
    AskingAddsOne(b,
      TakeoverIntent(b.intentSequence + 1, if registration.Some? then Some(pane) else None, registration), None);
  }

  // ---------------------------------------------------------------- the flag in every run

  lemma {:induction false} AfterKeepsInv(events: seq<Event>)
    ensures Inv(After(events))
  {
    if events != [] {
      AfterKeepsInv(events[..|events| - 1]);
      NextKeepsInv(After(events[..|events| - 1]), events[|events| - 1]);
    }
  }

  function AskedUnknown(b: Broker, e: Event, unknown: set<nat>): set<nat> {
    unknown + if e.RequestTakeover? && e.pane !in b.targets then {b.intentSequence + 1} else {}
  }

  /** The takeovers of the run whose Pane was not registered when they were asked for. */
  function UnknownTakeovers(events: seq<Event>): set<nat> {
    if events == [] then {}
    else
      var init := events[..|events| - 1];
      AskedUnknown(After(init), events[|events| - 1], UnknownTakeovers(init))
  }

  /** The queue says which of its takeovers are of unregistered Panes. */
  ghost predicate QueueTells(queue: seq<Intent>, unknown: set<nat>) {
    forall i | 0 <= i < |queue| :: queue[i].TakeoverIntent? ==> (queue[i].id.None? <==> queue[i].number in unknown)
  }

  lemma QueueGrows(queue: seq<Intent>, intent: Intent, unknown: set<nat>, unknown': set<nat>)
    requires QueueTells(queue, unknown)
    requires forall i | 0 <= i < |queue| :: queue[i].number < intent.number
    requires unknown <= unknown' <= unknown + {intent.number}
    requires intent.TakeoverIntent? ==> (intent.id.None? <==> intent.number in unknown')
    ensures QueueTells(queue + [intent], unknown')
  {
  }

  lemma NumbersAreUsed(b: Broker)
    requires Inv(b)
    ensures forall i | 0 <= i < |b.queue| :: b.queue[i].number <= b.intentSequence
  {
    var open := Outstanding(b);
    forall i | 0 <= i < |b.queue|
      ensures b.queue[i].number <= b.intentSequence
    {
      var j := if b.running.Idle? then i else i + 1;
      assert open[j] == b.queue[i].number;
    }
  }

  lemma FocusedTells(b: Broker, id: Option<Id>, issuer: Option<TicketId>, unknown: set<nat>)
    requires QueueTells(b.queue, unknown) && forall i | 0 <= i < |b.queue| :: b.queue[i].number <= b.intentSequence
    ensures QueueTells(Focused(b, id, issuer).queue, unknown)
  {
    QueueGrows(b.queue, FocusIntent(b.intentSequence + 1, if Registered(b, id).Some? then id else None), unknown,
      unknown);
  }

  lemma TakenOverTells(b: Broker, pane: Id, unknown: set<nat>)
    requires QueueTells(b.queue, unknown) && forall i | 0 <= i < |b.queue| :: b.queue[i].number <= b.intentSequence
    requires forall n | n in unknown :: n <= b.intentSequence
    ensures QueueTells(TakenOver(b, pane).queue, AskedUnknown(b, RequestTakeover(pane), unknown))
  {
    var registration := Registered(b, Some(pane));
    var asked := TakeoverIntent(b.intentSequence + 1, if registration.Some? then Some(pane) else None, registration);
    QueueGrows(b.queue, asked, unknown, AskedUnknown(b, RequestTakeover(pane), unknown));
  }

  /** Every other event leaves the queue alone or takes its head. */
  lemma QuietQueue(b: Broker, e: Event)
    requires !e.Unregister? && !e.RequestFocus? && !e.RequestTakeover?
    ensures Next(b, e).queue == b.queue || (b.queue != [] && Next(b, e).queue == b.queue[1..])
  {
    if e.StartNext? {
      StartedQueue(b);
    }
  }

  lemma StartedQueue(b: Broker)
    ensures Started(b).queue == b.queue || (b.queue != [] && Started(b).queue == b.queue[1..])
    ensures Started(b).intentSequence == b.intentSequence
  {
  }

  lemma SequenceGrows(b: Broker, e: Event)
    ensures b.intentSequence <= Next(b, e).intentSequence
    ensures e.RequestTakeover? ==> Next(b, e).intentSequence == b.intentSequence + 1
  {
    match e
    case Unregister(r) => FocusedSequence(b.(targets := b.targets - {r.id}, leases := b.leases - {r}), None, None);
    case RequestFocus(id) => FocusedSequence(b, id, None);
    case StartNext => StartedQueue(b);
    case Succeed(response) => SucceededSequence(b, response);
    case _ =>
  }

  lemma FocusedSequence(b: Broker, id: Option<Id>, issuer: Option<TicketId>)
    ensures b.intentSequence <= Focused(b, id, issuer).intentSequence
  {
  }

  lemma SucceededSequence(b: Broker, r: Response)
    ensures Succeeded(b, r).intentSequence == b.intentSequence
  {
  }

  lemma NextTells(b: Broker, e: Event, unknown: set<nat>)
    requires Inv(b) && QueueTells(b.queue, unknown) && forall n | n in unknown :: n <= b.intentSequence
    ensures QueueTells(Next(b, e).queue, AskedUnknown(b, e, unknown))
  {
    NumbersAreUsed(b);
    match e
    case Unregister(r) => FocusedTells(b.(targets := b.targets - {r.id}, leases := b.leases - {r}), None, None,
      unknown);
    case RequestFocus(id) => FocusedTells(b, id, None, unknown);
    case RequestTakeover(pane) => TakenOverTells(b, pane, unknown);
    case _ => QuietQueue(b, e);
  }

  lemma {:induction false} AfterTells(events: seq<Event>)
    ensures QueueTells(After(events).queue, UnknownTakeovers(events))
    ensures forall n | n in UnknownTakeovers(events) :: n <= After(events).intentSequence
  {
    if events != [] {
      var init := events[..|events| - 1];
      AfterTells(init);
      AfterKeepsInv(init);
      NextTells(After(init), events[|events| - 1], UnknownTakeovers(init));
      SequenceGrows(After(init), events[|events| - 1]);
    }
  }

  /** The event after `events` ends a takeover of an unregistered Pane, or one whose epoch cannot be read. */
  predicate AbandonsAfter(events: seq<Event>, e: Event) {
    var b := After(events);
    || (&& e.StartNext? && b.running.Idle? && b.queue != []
        && b.queue[0].TakeoverIntent? && b.queue[0].number in UnknownTakeovers(events))
    || (e.EpochUnavailable? && b.running.TakingOver? && b.epoch.None?)
  }

  /** The event that ended the last outstanding intent abandoned it. */
  predicate LastWasAbandoned(events: seq<Event>) {
    events != [] &&
    var init, e := events[..|events| - 1], events[|events| - 1];
    if Outstanding(After(init)) != [] && Outstanding(After(events)) == [] then AbandonsAfter(init, e)
    else LastWasAbandoned(init)
  }

  lemma AbandonsAgrees(events: seq<Event>, e: Event)
    ensures AbandonsAfter(events, e) <==> Abandons(After(events), e)
  {
    AfterTells(events);
  }

  /**
   When all intents of a run are finished, the pending flag is still set exactly when the event that
   ended the last of them abandoned a takeover: one of a Pane that was not registered when it was asked
   for, or one that could not read the focus epoch.
   */
  lemma {:induction false} PendingAtRest(events: seq<Event>)
    requires Outstanding(After(events)) == []
    ensures After(events).pending <==> LastWasAbandoned(events)
  {
    if events != [] {
      var init, e := events[..|events| - 1], events[|events| - 1];
      if Outstanding(After(init)) != [] {
        AfterKeepsInv(init);
        LastEndLeavesPendingExactly(After(init), e);
        AbandonsAgrees(init, e);
      } else {
        PendingAtRest(init);
        RestKeepsPending(After(init), e);
      }
    }
  }

  lemma AfterThen(events: seq<Event>, e: Event)
    ensures After(events + [e]) == Next(After(events), e)
  {
    assert (events + [e])[..|events|] == events;
  }

  lemma AfterTwo(events: seq<Event>, e: Event, f: Event)
    ensures After(events + [e] + [f]) == Next(Next(After(events), e), f)
  {
    AfterThen(events, e);
    AfterThen(events + [e], f);
  }

  predicate StuckPending(b: Broker) {
    b.pending && Outstanding(b) == []
  }

  lemma AskedAndStarted(events: seq<Event>, pane: Id)
    ensures After(events + [RequestTakeover(pane)] + [StartNext]) == Started(TakenOver(After(events), pane))
  {
    AfterTwo(events, RequestTakeover(pane), StartNext);
  }

  lemma UnknownTakeoverIsStuck(b: Broker, pane: Id)
    requires Outstanding(b) == [] && pane !in b.targets
    ensures StuckPending(Started(TakenOver(b, pane)))
  {
    assert TakenOver(b, pane).queue == [TakeoverIntent(b.intentSequence + 1, None, None)];
    assert Started(TakenOver(b, pane)).queue == [];
  }

  /** A takeover of an unknown Pane is abandoned, and nothing is left in the queue to clear the flag. */
  lemma UnknownTakeoverLeavesPendingSet(events: seq<Event>, pane: Id)
    requires Outstanding(After(events)) == [] && pane !in After(events).targets
    ensures StuckPending(After(events + [RequestTakeover(pane)] + [StartNext]))
  {
    AskedAndStarted(events, pane);
    UnknownTakeoverIsStuck(After(events), pane);
  }

  lemma UnreadTakeoverIsStuck(b: Broker, pane: Id)
    requires Outstanding(b) == [] && pane in b.targets && b.epoch.None?
    ensures StuckPending(Next(Started(TakenOver(b, pane)), EpochUnavailable))
  {
    assert TakenOver(b, pane).queue == [TakeoverIntent(b.intentSequence + 1, Some(pane), Some(b.targets[pane]))];
  }

  /** So is a takeover of a registered Pane while the focus epoch is not known and cannot be read. */
  lemma UnreadEpochLeavesPendingSet(events: seq<Event>, pane: Id)
    requires Outstanding(After(events)) == [] && pane in After(events).targets && After(events).epoch.None?
    ensures StuckPending(After(events + [RequestTakeover(pane)] + [StartNext] + [EpochUnavailable]))
  {
    AskedAndStarted(events, pane);
    AfterThen(events + [RequestTakeover(pane)] + [StartNext], EpochUnavailable);
    UnreadTakeoverIsStuck(After(events), pane);
  }

  /** From the start, with one registered Pane. */
  lemma FirstTakeoverLeavesPendingSet(r: Registration)
    ensures StuckPending(After([Register(r)] + [RequestTakeover(r.id)] + [StartNext] + [EpochUnavailable]))
  {
    AfterThen([], Register(r));
    assert [] + [Register(r)] == [Register(r)];
    UnreadEpochLeavesPendingSet([Register(r)], r.id);
  }

  // ---------------------------------------------------------------- the module state

  /** The module-level variables, each method being one atomic step. */
  class TerminalInputFocus {
    var targets: map<Id, Registration>
    var desiredTargetId: Option<Id>
    var acknowledgedTargetId: Option<Id>
    var acknowledgedRegistration: Option<Registration>
    var acknowledgedTargetFingerprint: Option<Fingerprint>
    var focusPending: bool
    var focusEpoch: Option<string>
    var focusIntentSequence: nat
    var focusQueue: seq<Intent>
    var running: Request
    var leases: set<Registration>
    var focusTargets: map<Registration, Fingerprint>
    var accepting: set<Registration>
    // What the promise of each finished intent resolved to.
    var outcomes: map<nat, Outcome>
    ghost var issued: seq<Issue>

    ghost function View(): Broker
      reads this
    {
      Broker(targets, desiredTargetId, acknowledgedTargetId, acknowledgedRegistration,
             acknowledgedTargetFingerprint, focusPending, focusEpoch, focusIntentSequence, focusQueue,
             running, leases, focusTargets, accepting, issued, outcomes)
    }

    constructor ()
      ensures View() == Initial
    {
      targets, leases, focusTargets, accepting := map[], {}, map[], {};
      desiredTargetId, acknowledgedTargetId, acknowledgedRegistration := None, None, None;
      acknowledgedTargetFingerprint, focusPending, focusEpoch := None, false, None;
      focusIntentSequence, focusQueue, running := 0, [], Idle;
      issued, outcomes := [], map[];
    }

    method CurrentTarget() returns (r: Option<Registration>)
      ensures r == Current(View())
    {
      if focusPending || desiredTargetId != acknowledgedTargetId {
        return None;
      }
      var id, registration := acknowledgedTargetId, acknowledgedRegistration;
      if id.None? || registration.None? || id.value !in targets || targets[id.value] != registration.value {
        return None;
      }
      if registration.value !in focusTargets
         || acknowledgedTargetFingerprint != Some(focusTargets[registration.value]) {
        return None;
      }
      return registration;
    }

    method RegisterTarget(r: Registration)
      modifies this`targets, this`leases
      ensures View() == old(Next(View(), Register(r)))
    {
      if r.id in targets && targets[r.id] != r {
        leases := leases - {targets[r.id]};
      }
      targets := targets[r.id := r];
    }

    method UnregisterTarget(r: Registration)
      modifies this
      ensures View() == old(Next(View(), Unregister(r)))
    {
      if r.id !in targets || targets[r.id] != r {
        return;
      }
      targets := targets - {r.id};
      leases := leases - {r};
      if desiredTargetId == Some(r.id) || acknowledgedTargetId == Some(r.id) {
        FocusTarget(None, None);
      }
    }

    method Enqueue(intent: Intent, ghost issuer: Option<TicketId>)
      requires intent.number == focusIntentSequence + 1
      modifies this`desiredTargetId, this`focusPending, this`focusIntentSequence, this`focusQueue, this`issued
      ensures View() == old(Issued(View(), intent, issuer))
    {
      desiredTargetId := intent.id;
      focusPending := true;
      focusIntentSequence := focusIntentSequence + 1;
      focusQueue := focusQueue + [intent];
      issued := issued + [Issue(issuer, intent.TakeoverIntent?)];
    }

    method FocusTarget(id: Option<Id>, ghost issuer: Option<TicketId>)
      modifies this`desiredTargetId, this`focusPending, this`focusIntentSequence, this`focusQueue, this`issued
      ensures View() == old(Focused(View(), id, issuer))
    {
      var known := if id.Some? && id.value in targets then id else None;
      if known.Some? && !focusPending && desiredTargetId == known && acknowledgedTargetId == known {
        var existing := targets[known.value];
        if acknowledgedRegistration == Some(existing) && existing in focusTargets
           && acknowledgedTargetFingerprint == Some(focusTargets[existing]) && existing in accepting {
          return;
        }
      }
      Enqueue(FocusIntent(focusIntentSequence + 1, known), issuer);
    }

    method TakeoverTarget(id: Id)
      modifies this`desiredTargetId, this`focusPending, this`focusIntentSequence, this`focusQueue, this`issued
      ensures View() == old(Next(View(), RequestTakeover(id)))
    {
      var known := if id in targets then Some(id) else None;
      var registration := if id in targets then Some(targets[id]) else None;
      Enqueue(TakeoverIntent(focusIntentSequence + 1, known, registration), None);
    }

    method StartQueued()
      modifies this`focusQueue, this`running, this`outcomes
      ensures View() == old(Next(View(), StartNext))
    {
      if !running.Idle? || focusQueue == [] {
        return;
      }
      var intent := focusQueue[0];
      focusQueue := focusQueue[1..];
      match intent {
        case FocusIntent(n, id) =>
          var registration := if id.Some? && id.value in targets then Some(targets[id.value]) else None;
          var target := if registration.Some? && registration.value in focusTargets
                        then Some(focusTargets[registration.value]) else None;
          running := Focusing(n, id, registration, target);
        case TakeoverIntent(n, id, registration) =>
          if id.None? {
            outcomes := outcomes[n := Abandoned];
          } else {
            running := TakingOver(n, id, registration);
          }
      }
    }

    /** Shows the acknowledgement to every registered target, one by one. */
    method ApplyLeases(id: Option<Id>, registration: Option<Registration>, lease: bool)
      requires Keyed(targets)
      modifies this`leases
      ensures leases == LeasesAfter(old(leases), targets, id, registration, lease)
    {
      var rest := targets.Keys;
      ghost var done: set<Id> := {};
      while rest != {}
        invariant rest !! done && rest + done == targets.Keys
        invariant leases == (old(leases) - (set key | key in done :: targets[key]))
                            + (if lease && registration.Some? && id.Some? && id.value in done
                                  && targets[id.value] == registration.value
                               then {registration.value} else {})
        decreases rest
      {
        var key :| key in rest;
        var granted := lease && id == Some(key) && registration == Some(targets[key]);
        leases := if granted then leases + {targets[key]} else leases - {targets[key]};
        rest, done := rest - {key}, done + {key};
      }
      assert done == targets.Keys;
    }

    /** Ends the running request; its promise resolves with `outcome`. */
    method Settle(outcome: Outcome)
      requires !running.Idle?
      modifies this`running, this`outcomes
      ensures View() == old(Finished(View(), outcome))
    {
      outcomes := outcomes[running.number := outcome];
      running := Idle;
    }

    method ApplyAcknowledgedFocus(id: Option<Id>, registration: Option<Registration>, response: Response)
      requires Keyed(targets)
      modifies this`leases, this`acknowledgedTargetId, this`acknowledgedRegistration,
               this`acknowledgedTargetFingerprint, this`desiredTargetId, this`focusPending
      ensures View() == old(Acknowledge(View(), id, registration, response))
    {
      ghost var before := View();
      ApplyLeases(id, registration, response.lease);
      assert leases == LeasesAfter(before.leases, before.targets, id, registration, response.lease);
      acknowledgedTargetId := id;
      acknowledgedRegistration := registration;
      acknowledgedTargetFingerprint := response.target;
      desiredTargetId := id;
      focusPending := false;
    }

    method FocusAcknowledged(response: Response)
      requires Keyed(targets)
      modifies this
      ensures View() == old(Succeeded(View(), response))
    {
      if running.Idle? {
        return;
      }
      focusEpoch := Some(response.epoch);
      if running.number != focusIntentSequence {
        Settle(Superseded);
        return;
      }
      var effective := running.TakingOver? || running.target.Some?;
      var id := if effective then running.id else None;
      var registration := if effective then running.registration else None;
      ApplyAcknowledgedFocus(id, registration, response);
      Settle(Acknowledged(id, registration));
    }

    method ForgetFocus()
      requires Keyed(targets)
      modifies this`leases, this`acknowledgedTargetId, this`acknowledgedRegistration,
               this`acknowledgedTargetFingerprint, this`focusPending
      ensures View() == old(Forgotten(View()))
    {
      ghost var before := View();
      ApplyLeases(None, None, false);
      assert leases == LeasesAfter(before.leases, before.targets, None, None, false);
      acknowledgedTargetId := None;
      acknowledgedRegistration := None;
      acknowledgedTargetFingerprint := None;
      focusPending := false;
    }

    method FocusFailed()
      requires Keyed(targets)
      modifies this
      ensures View() == old(Refused(View()))
    {
      if running.Idle? {
        return;
      }
      if running.number != focusIntentSequence {
        Settle(Superseded);
        return;
      }
      ForgetFocus();
      Settle(Failed);
    }

    method ObserveTarget(r: Registration, target: Option<Fingerprint>, accepts: bool)
      modifies this`focusTargets, this`accepting
      ensures View() == old(Observed(View(), r, target, accepts))
    {
      focusTargets := if target.Some? then focusTargets[r := target.value] else focusTargets - {r};
      accepting := if accepts then accepting + {r} else accepting - {r};
    }

    method ReadEpoch(epoch: string)
      modifies this`focusEpoch
      ensures View() == old(Next(View(), EpochRead(epoch)))
    {
      if !running.Idle? {
        focusEpoch := Some(epoch);
      }
    }

    method HandleEvent(e: Event)
      requires Keyed(targets)
      modifies this
      ensures View() == old(Next(View(), e))
    {
      match e
      case Register(r) => RegisterTarget(r);
      case Unregister(r) => UnregisterTarget(r);
      case RequestFocus(id) => FocusTarget(id, None);
      case RequestTakeover(id) => TakeoverTarget(id);
      case StartNext => StartQueued();
      case Succeed(response) => FocusAcknowledged(response);
      case Fail => FocusFailed();
      case EpochRead(epoch) => ReadEpoch(epoch);
      case EpochUnavailable =>
        if focusEpoch.None? {
          if running.TakingOver? {
            Settle(Abandoned);
          } else {
            FocusFailed();
          }
        }
      case Observe(r, target, accepts) => ObserveTarget(r, target, accepts);
    }

    /** Any run of events keeps the invariant, so there is at most one lease and it is current. */
    method HandleEvents(events: seq<Event>)
      requires View() == Initial
      modifies this
      ensures View() == After(events) && Inv(View())
      ensures forall r, r' | r in leases && r' in leases :: r == r'
    {
      for i := 0 to |events|
        invariant View() == After(events[..i]) && Inv(View())
      {
        assert events[..i + 1][..i] == events[..i];
        NextKeepsInv(View(), events[i]);
        HandleEvent(events[i]);
      }
      assert events[..|events|] == events;
    }
  }
}
