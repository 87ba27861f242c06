/**
 The life of one port-forward session: connect the transport, set up the listener, serve child
 connections, and clean up in order while recording every step whose outcome is uncertain.

 The actor is split at its awaits. Every event below is one thing an await can bring; any order of
 events is allowed, and an event that the current await cannot bring changes nothing.
 */
module ForwardSession {
  import opened Basics

  const MAX_REVISION := 0xffff_ffff_ffff_ffff

  datatype State = Starting | Running | Failed | Stopping | Stopped

  datatype Code =
    | RemoteRegistrationUncertain
    | CleanupUncertain
    | StaleGeneration
    | OtherFailure(detail: string)

  datatype StepState = NotRequired | Complete | Uncertain

  datatype Cleanup = Cleanup(
    listener: StepState, children: StepState, transport: StepState, abandoned: nat, uncertain: bool)

  const NoCleanup := Cleanup(NotRequired, NotRequired, NotRequired, 0, false)

  datatype Rule = Local | Dynamic | Remote(address: string)

  datatype Bind = LocalBind(port: nat) | RemoteBind(address: string, port: nat)

  datatype Summary = Summary(
    generation: nat,
    revision: nat,
    state: State,
    bind: Option<Bind>,
    childCount: nat,
    toTarget: nat,
    toListener: nat,
    failure: Option<Code>,
    lastChildFailure: Option<Code>,
    cleanup: Cleanup)

  /** Why the session ends. A failed set-up never enters Stopping. */
  datatype End = StopEnd(generation: nat) | FailedEnd(code: Code) | SetupEnd(code: Code)

  datatype Phase =
    | Connecting
    | Preparing
    | Listening
    | CancelPending(end: End)
    | Clearing(end: End)
    | Disconnecting(end: End)
    | Over

  /** What was done with the transport, in order. */
  datatype Resource =
    | Obtained
    | Registered(address: string, port: nat)
    | Cancelled(address: string, port: nat)
    | ChildrenAborted
    | Disconnected

  datatype Actor = Actor(
    rule: Rule,
    limit: nat,
    summary: Summary,
    phase: Phase,
    children: set<nat>,
    nextChild: nat,
    toTarget: nat,
    toListener: nat,
    published: seq<Summary>,
    resources: seq<Resource>)

  datatype Event =
    | StopRequested(generation: nat)
    | ConnectEnds(failure: Option<Code>)
    | PrepareEnds(result: Result<nat, Code>)
    | ListenerEnds(code: Code)
    | ChildArrives
    | ChildEnds(child: nat, failure: Option<Code>)
    | Tick
    | Traffic(toTarget: nat, toListener: nat)
    | CancelEnds(ok: bool)
    | ShutdownDeadline
    | DisconnectEnds(ok: bool)

  /** Every session starts as generation 1 and revision 1. */
  const FirstSummary := Summary(1, 1, Starting, None, 0, 0, 0, None, None, NoCleanup)

  function Fresh(rule: Rule, limit: nat): Actor {
    Actor(rule, limit, FirstSummary, Connecting, {}, 0, 0, 0, [FirstSummary], [])
  }

  // ---------------------------------------------------------------- summary updates

  function Bump(revision: nat): nat {
    if revision < MAX_REVISION then revision + 1 else revision
  }

  function Transition(s: Summary, state: State): Summary {
    s.(state := state, revision := Bump(s.revision))
  }

  function FailSummary(s: Summary, code: Code): Summary {
    Transition(s.(failure := Some(code)), Failed)
  }

  function Publish(a: Actor, s: Summary): Actor {
    a.(summary := s, published := a.published + [s])
  }

  function Use(a: Actor, r: Resource): Actor {
    a.(resources := a.resources + [r])
  }

  function RecordChild(s: Summary, failure: Option<Code>): Summary {
    s.(childCount := if s.childCount == 0 then 0 else s.childCount - 1,
       revision := Bump(s.revision),
       lastChildFailure := if failure.Some? then failure else s.lastChildFailure)
  }

  // ---------------------------------------------------------------- cleanup, in order

  /** The listener is closed or cancelled; the children are told to stop. */
  function Clear(a: Actor, end: End): Actor {
    var aborted := Use(a, ChildrenAborted).(phase := Clearing(end));
    if a.children == {} then Cleared(aborted, end) else aborted
  }

  /** All children have joined, or the deadline gave up on those left. */
  function Cleared(a: Actor, end: End): Actor {
    var left := |a.children|;
    var facts := a.summary.cleanup.(
      abandoned := left,
      uncertain := a.summary.cleanup.uncertain || left > 0,
      children := if left == 0 then Complete else Uncertain);
    Use(Publish(a, a.summary.(childCount := 0, cleanup := facts)), Disconnected).(phase := Disconnecting(end))
  }

  function BeginCleanup(a: Actor, end: End): Actor {
    if a.rule.Remote? && !end.SetupEnd? && a.summary.bind.Some? && a.summary.bind.value.RemoteBind? then
      Use(a, Cancelled(a.summary.bind.value.address, a.summary.bind.value.port)).(phase := CancelPending(end))
    else
      var facts := if a.summary.bind.Some? then a.summary.cleanup.(listener := Complete) else a.summary.cleanup;
      Clear(Publish(a, a.summary.(cleanup := facts)), end)
  }

  function Stop(a: Actor, end: End): Actor {
    BeginCleanup(Publish(a, Transition(a.summary, Stopping)), end)
  }

  function SetupFailed(a: Actor, code: Code): Actor {
    var facts := if a.rule.Remote? && code.RemoteRegistrationUncertain?
                 then a.summary.cleanup.(listener := Uncertain, uncertain := true)
                 else a.summary.cleanup;
    BeginCleanup(a.(summary := a.summary.(cleanup := facts)), SetupEnd(code))
  }

  function CancelEnded(a: Actor, end: End, ok: bool): Actor {
    var facts := if ok then a.summary.cleanup.(listener := Complete)
                 else a.summary.cleanup.(listener := Uncertain, uncertain := true);
    Clear(Publish(a, a.summary.(cleanup := facts)), end)
  }

  function Conclude(s: Summary, end: End): Summary {
    match end
    case StopEnd(generation) =>
      if generation != s.generation then FailSummary(s, StaleGeneration)
      else if s.cleanup.uncertain then FailSummary(s, CleanupUncertain)
      else Transition(s, Stopped)
    case FailedEnd(code) => FailSummary(s, code)
    case SetupEnd(code) => FailSummary(s, code)
  }

  function DisconnectEnded(a: Actor, end: End, ok: bool): Actor {
    var facts := if ok then a.summary.cleanup.(transport := Complete)
                 else a.summary.cleanup.(transport := Uncertain, uncertain := true);
    Publish(a, Conclude(a.summary.(cleanup := facts), end)).(phase := Over)
  }

  // ---------------------------------------------------------------- events

  function Connected(a: Actor, e: Event): Actor {
    match e
    case StopRequested(_) =>
      var stopping := Transition(a.summary, Stopping);
      Publish(Publish(a, stopping), Transition(stopping, Stopped)).(phase := Over)
    case ConnectEnds(failure) =>
      if failure.Some? then Publish(a, FailSummary(a.summary, failure.value)).(phase := Over)
      else Use(a, Obtained).(phase := Preparing)
    case _ => a
  }

  function Prepared(a: Actor, e: Event): Actor {
    match e
    case PrepareEnds(Success(port)) =>
      var bind := if a.rule.Remote? then RemoteBind(a.rule.address, port) else LocalBind(port);
      var used := if a.rule.Remote? then Use(a, Registered(a.rule.address, port)) else a;
      Publish(used, Transition(a.summary.(bind := Some(bind)), Running)).(phase := Listening)
    case PrepareEnds(Failure(code)) => SetupFailed(a, code)
    case _ => a
  }

  function Listened(a: Actor, e: Event): Actor {
    match e
    case StopRequested(generation) => Stop(a, StopEnd(generation))
    case ListenerEnds(code) => Stop(a, FailedEnd(code))
    case ChildArrives =>
      if |a.children| >= a.limit then a
      else
        var children := a.children + {a.nextChild};
        Publish(a.(children := children, nextChild := a.nextChild + 1),
                a.summary.(childCount := |children|, revision := Bump(a.summary.revision)))
    case ChildEnds(child, failure) =>
      if child !in a.children then a
      else Publish(a.(children := a.children - {child}), RecordChild(a.summary, failure))
    case Tick =>
      if a.toTarget == a.summary.toTarget && a.toListener == a.summary.toListener then a
      else Publish(a,
        a.summary.(toTarget := a.toTarget, toListener := a.toListener, revision := Bump(a.summary.revision)))
    case _ => a
  }

  function Step(a: Actor, e: Event): Actor {
    if e.Traffic? then a.(toTarget := a.toTarget + e.toTarget, toListener := a.toListener + e.toListener)
    else
      match a.phase
      case Connecting => Connected(a, e)
      case Preparing => Prepared(a, e)
      case Listening => Listened(a, e)
      case CancelPending(end) => if e.CancelEnds? then CancelEnded(a, end, e.ok) else a
      case Clearing(end) =>
        if e.ShutdownDeadline? then Cleared(a, end)
        else if e.ChildEnds? && e.child in a.children then
          var joined := a.(children := a.children - {e.child});
          if joined.children == {} then Cleared(joined, end) else joined
        else a
      case Disconnecting(end) => if e.DisconnectEnds? then DisconnectEnded(a, end, e.ok) else a
      case Over => a
  }

  function Run(a: Actor, events: seq<Event>): Actor {
    if events == [] then a else Step(Run(a, events[..|events| - 1]), events[|events| - 1])
  }

  // ---------------------------------------------------------------- one published summary and the next

  predicate Edge(from: State, to: State) {
    match from
    case Starting => !to.Stopped?
    case Running => to.Running? || to.Stopping?
    case Stopping => to.Stopping? || to.Stopped? || to.Failed?
    case Failed => false
    case Stopped => false
  }

  /** Revisions, byte counts and known uncertainty never go back; a bind stays as published. */
  predicate Follows(s: Summary, s': Summary) {
    && s'.generation == s.generation
    && Edge(s.state, s'.state)
    && s.revision <= s'.revision <= MAX_REVISION
    && (s.state != s'.state && s.revision < MAX_REVISION ==> s.revision < s'.revision)
    && s.toTarget <= s'.toTarget && s.toListener <= s'.toListener
    && (s.bind.Some? ==> s'.bind == s.bind)
    && (s.cleanup.uncertain ==> s'.cleanup.uncertain)
  }

  /** The uncertainty flag tells the truth, and a stopped session has none. */
  predicate Honest(s: Summary) {
    var c := s.cleanup;
    && (c.uncertain <==> c.listener.Uncertain? || c.children.Uncertain? || c.transport.Uncertain?)
    && (c.children.Uncertain? <==> c.abandoned > 0)
    && (s.state.Stopped? ==> !c.uncertain)
    && (s.state.Failed? <==> s.failure.Some?)
    && s.revision <= MAX_REVISION
  }

  ghost predicate Chain(published: seq<Summary>) {
    && (forall i | 0 <= i < |published| :: Honest(published[i]))
    && (forall i | 0 <= i < |published| - 1 :: Follows(published[i], published[i + 1]))
  }

  ghost predicate Public(a: Actor) {
    a.published != [] && a.published[|a.published| - 1] == a.summary && Chain(a.published)
  }

  lemma PublishKeeps(a: Actor, s: Summary)
    requires a.published != [] && Chain(a.published)
    requires Follows(a.published[|a.published| - 1], s) && Honest(s)
    ensures Public(Publish(a, s))
  {
  }

  // ---------------------------------------------------------------- resources

  function Registration(a: Actor): seq<Resource> {
    if a.summary.bind.Some? && a.summary.bind.value.RemoteBind?
    then [Registered(a.summary.bind.value.address, a.summary.bind.value.port)] else []
  }

  function Cancellation(a: Actor): seq<Resource> {
    if a.summary.bind.Some? && a.summary.bind.value.RemoteBind?
    then [Cancelled(a.summary.bind.value.address, a.summary.bind.value.port)] else []
  }

  /** Everything done with the transport so far, determined by where the session is. */
  ghost predicate Disciplined(a: Actor) {
    var r := a.resources;
    match a.phase
    case Connecting => r == []
    case Preparing => r == [Obtained]
    case Listening => r == [Obtained] + Registration(a)
    case CancelPending(_) => r == [Obtained] + Registration(a) + Cancellation(a)
    case Clearing(_) => r == [Obtained] + Registration(a) + Cancellation(a) + [ChildrenAborted]
    case Disconnecting(_) => r == [Obtained] + Registration(a) + Cancellation(a) + [ChildrenAborted, Disconnected]
    case Over => r == [] || r == [Obtained] + Registration(a) + Cancellation(a) + [ChildrenAborted, Disconnected]
  }

  /** Holds in every phase. */
  ghost predicate Bounded(a: Actor) {
    var s := a.summary;
    && (a.rule.Remote? ==> s.bind.None? || (s.bind.value.RemoteBind? && s.bind.value.address == a.rule.address))
    && (!a.rule.Remote? ==> s.bind.None? || s.bind.value.LocalBind?)
    && s.toTarget <= a.toTarget && s.toListener <= a.toListener
    && (forall c | c in a.children :: c < a.nextChild)
  }

  ghost predicate Placed(a: Actor) {
    var s := a.summary;
    && Bounded(a)
    && match a.phase
       case Connecting => s.state.Starting? && s.bind.None? && s.cleanup == NoCleanup && a.children == {}
         && s.childCount == 0
       case Preparing => s.state.Starting? && s.bind.None? && s.cleanup == NoCleanup && a.children == {}
         && s.childCount == 0
       case Listening => s.state.Running? && s.bind.Some? && s.cleanup == NoCleanup
                         && s.childCount == |a.children| <= a.limit
       case CancelPending(end) => InCleanup(a, end) && s.cleanup == NoCleanup && s.bind.Some? && a.rule.Remote?
       case Clearing(end) => InCleanup(a, end) && s.cleanup.children.NotRequired? && s.cleanup.transport.NotRequired?
                             && a.children != {}
       case Disconnecting(end) => InCleanup(a, end) && s.cleanup.transport.NotRequired?
       case Over => s.state.Stopped? || s.state.Failed?
  }

  predicate InCleanup(a: Actor, end: End) {
    if end.SetupEnd? then a.summary.state.Starting? && a.summary.bind.None? && a.children == {}
    else a.summary.state.Stopping? && a.summary.bind.Some?
  }

  ghost predicate Inv(a: Actor) {
    Public(a) && Disciplined(a) && Placed(a)
  }

  // ---------------------------------------------------------------- every step

  lemma ClearedKeeps(a: Actor, end: End)
    requires Public(a) && InCleanup(a, end)
    requires a.summary.cleanup.children.NotRequired? && a.summary.cleanup.transport.NotRequired?
    requires a.resources == [Obtained] + Registration(a) + Cancellation(a) + [ChildrenAborted]
    requires Bounded(a)
    ensures Inv(Cleared(a, end))
  {
    var s := Cleared(a, end).summary;
    PublishKeeps(a, s);
  }

  lemma ClearKeeps(a: Actor, end: End)
    requires Public(a) && InCleanup(a, end) && Bounded(a)
    requires a.summary.cleanup.children.NotRequired? && a.summary.cleanup.transport.NotRequired?
    requires a.resources == [Obtained] + Registration(a) + Cancellation(a)
    ensures Inv(Clear(a, end))
  {
    var aborted := Use(a, ChildrenAborted).(phase := Clearing(end));
    if a.children == {} {
      ClearedKeeps(aborted, end);
    }
  }

  lemma StopKeeps(a: Actor, end: End)
    requires Inv(a) && a.phase.Listening? && !end.SetupEnd?
    ensures Inv(Stop(a, end))
  {
    var stopping := Publish(a, Transition(a.summary, Stopping));
    PublishKeeps(a, stopping.summary);
    if !a.rule.Remote? {
      var s := stopping.summary.(cleanup := stopping.summary.cleanup.(listener := Complete));
      PublishKeeps(stopping, s);
      assert a.resources + [] + [] == a.resources;
      ClearKeeps(Publish(stopping, s), end);
    }
  }

  lemma SetupFailedKeeps(a: Actor, code: Code)
    requires Inv(a) && a.phase.Preparing?
    ensures Inv(SetupFailed(a, code))
  {
    var facts := if a.rule.Remote? && code.RemoteRegistrationUncertain?
                 then a.summary.cleanup.(listener := Uncertain, uncertain := true)
                 else a.summary.cleanup;
    var s := a.summary.(cleanup := facts);
    PublishKeeps(a, s);
    ClearKeeps(Publish(a, s), SetupEnd(code));
    assert SetupFailed(a, code) == Clear(Publish(a, s), SetupEnd(code));
  }

  lemma CancelKeeps(a: Actor, end: End, ok: bool)
    requires Inv(a) && a.phase == CancelPending(end)
    ensures Inv(CancelEnded(a, end, ok))
  {
    var facts := if ok then a.summary.cleanup.(listener := Complete)
                 else a.summary.cleanup.(listener := Uncertain, uncertain := true);
    PublishKeeps(a, a.summary.(cleanup := facts));
    ClearKeeps(Publish(a, a.summary.(cleanup := facts)), end);
  }

  lemma DisconnectKeeps(a: Actor, end: End, ok: bool)
    requires Inv(a) && a.phase == Disconnecting(end)
    ensures Inv(DisconnectEnded(a, end, ok))
  {
    PublishKeeps(a, DisconnectEnded(a, end, ok).summary);
  }

  lemma ConnectedKeeps(a: Actor, e: Event)
    requires Inv(a) && a.phase.Connecting?
    ensures Inv(Connected(a, e))
  {
    match e
    case StopRequested(_) =>
      var stopping := Transition(a.summary, Stopping);
      PublishKeeps(a, stopping);
      PublishKeeps(Publish(a, stopping), Transition(stopping, Stopped));
    case ConnectEnds(failure) =>
      if failure.Some? {
        PublishKeeps(a, FailSummary(a.summary, failure.value));
      }
    case _ =>
  }

  lemma PreparedKeeps(a: Actor, e: Event)
    requires Inv(a) && a.phase.Preparing?
    ensures Inv(Prepared(a, e))
  {
    match e
    case PrepareEnds(Success(port)) =>
      PublishKeeps(a, Prepared(a, e).summary);
      assert [Obtained] + [] == [Obtained];
    case PrepareEnds(Failure(code)) => SetupFailedKeeps(a, code);
    case _ =>
  }

  lemma ListenedKeeps(a: Actor, e: Event)
    requires Inv(a) && a.phase.Listening?
    ensures Inv(Listened(a, e))
  {
    match e
    case StopRequested(generation) => StopKeeps(a, StopEnd(generation));
    case ListenerEnds(code) => StopKeeps(a, FailedEnd(code));
    case _ =>
      if Listened(a, e).published != a.published {
        PublishKeeps(a, Listened(a, e).summary);
      }
  }

  lemma StepKeepsInv(a: Actor, e: Event)
    requires Inv(a)
    ensures Inv(Step(a, e))
  {
    if !e.Traffic? {
      match a.phase
      case Connecting => ConnectedKeeps(a, e);
      case Preparing => PreparedKeeps(a, e);
      case Listening => ListenedKeeps(a, e);
      case CancelPending(end) =>
        if e.CancelEnds? {
          CancelKeeps(a, end, e.ok);
        }
      case Clearing(end) =>
        if e.ShutdownDeadline? {
          ClearedKeeps(a, end);
        } else if e.ChildEnds? && e.child in a.children && a.children - {e.child} == {} {
          ClearedKeeps(a.(children := a.children - {e.child}), end);
        }
      case Disconnecting(end) =>
        if e.DisconnectEnds? {
          DisconnectKeeps(a, end, e.ok);
        }
      case Over =>
    }
  }

  lemma {:induction false} RunKeepsInv(rule: Rule, limit: nat, events: seq<Event>)
    ensures Inv(Run(Fresh(rule, limit), events))
  {
    if events != [] {
      RunKeepsInv(rule, limit, events[..|events| - 1]);
      StepKeepsInv(Run(Fresh(rule, limit), events[..|events| - 1]), events[|events| - 1]);
    }
  }

  // ---------------------------------------------------------------- every run

  lemma {:induction false} ChainIsMonotone(published: seq<Summary>, i: nat, j: nat)
    requires Chain(published) && i <= j < |published|
    ensures published[i].revision <= published[j].revision
    ensures published[i].toTarget <= published[j].toTarget && published[i].toListener <= published[j].toListener
    ensures published[i].cleanup.uncertain ==> published[j].cleanup.uncertain
    ensures i < j ==> !published[i].state.Stopped? && !published[i].state.Failed?
  {
    if i < j {
      ChainIsMonotone(published, i, j - 1);
      assert Follows(published[j - 1], published[j]);
      assert Follows(published[i], published[i + 1]);
    }
  }

  lemma ChainMeans(p: seq<Summary>)
    requires Chain(p)
    ensures forall i | 0 <= i < |p| - 1 :: Edge(p[i].state, p[i + 1].state)
    ensures forall i, j | 0 <= i <= j < |p| :: p[i].revision <= p[j].revision && p[i].toTarget <= p[j].toTarget
                                               && p[i].toListener <= p[j].toListener
    ensures forall i | 0 <= i < |p| - 1 :: !p[i].state.Stopped? && !p[i].state.Failed?
    ensures forall i | 0 <= i < |p| :: Honest(p[i])
  {
    forall i, j | 0 <= i <= j < |p|
      ensures p[i].revision <= p[j].revision && p[i].toTarget <= p[j].toTarget && p[i].toListener <= p[j].toListener
    {
      ChainIsMonotone(p, i, j);
    }
    forall i | 0 <= i < |p| - 1
      ensures !p[i].state.Stopped? && !p[i].state.Failed?
    {
      ChainIsMonotone(p, i, i + 1);
    }
  }

  /**
   The published summaries of every run follow the lifecycle graph, end with a terminal one if
   they have one, never take back a revision, a byte count or an uncertainty, and tell the truth
   about uncertain steps.
   */
  lemma LifecycleIsObeyed(rule: Rule, limit: nat, events: seq<Event>)
    ensures var p := Run(Fresh(rule, limit), events).published;
            && p != [] && p[0].state.Starting?
            && (forall i | 0 <= i < |p| - 1 :: Edge(p[i].state, p[i + 1].state))
            && (forall i, j | 0 <= i <= j < |p| :: p[i].revision <= p[j].revision && p[i].toTarget <= p[j].toTarget
                                                   && p[i].toListener <= p[j].toListener)
            && (forall i | 0 <= i < |p| - 1 :: !p[i].state.Stopped? && !p[i].state.Failed?)
            && (forall i | 0 <= i < |p| :: Honest(p[i]))
  {
    RunKeepsInv(rule, limit, events);
    StartsStarting(rule, limit, events);
    ChainMeans(Run(Fresh(rule, limit), events).published);
  }

  predicate Extends(a: Actor, a': Actor) {
    && a.published <= a'.published && a'.rule == a.rule && a'.limit == a.limit
    && a'.summary.generation == a.summary.generation
  }

  lemma ClearExtends(a: Actor, end: End)
    ensures Extends(a, Clear(a, end)) && Extends(a, Cleared(a, end))
  {
  }

  lemma CleanupExtends(a: Actor, end: End)
    ensures Extends(a, BeginCleanup(a, end))
  {
    var facts := if a.summary.bind.Some? then a.summary.cleanup.(listener := Complete) else a.summary.cleanup;
    ClearExtends(Publish(a, a.summary.(cleanup := facts)), end);
  }

  lemma PhaseExtends(a: Actor, e: Event)
    ensures Extends(a, Connected(a, e)) && Extends(a, Prepared(a, e)) && Extends(a, Listened(a, e))
  {
    match e
    case PrepareEnds(Failure(code)) =>
      var facts := if a.rule.Remote? && code.RemoteRegistrationUncertain?
                   then a.summary.cleanup.(listener := Uncertain, uncertain := true)
                   else a.summary.cleanup;
      CleanupExtends(a.(summary := a.summary.(cleanup := facts)), SetupEnd(code));
    case StopRequested(generation) =>
      CleanupExtends(Publish(a, Transition(a.summary, Stopping)), StopEnd(generation));
    case ListenerEnds(code) =>
      CleanupExtends(Publish(a, Transition(a.summary, Stopping)), FailedEnd(code));
    case _ =>
  }

  lemma StepExtends(a: Actor, e: Event)
    ensures Extends(a, Step(a, e))
  {
    PhaseExtends(a, e);
    match a.phase
    case CancelPending(end) =>
      if e.CancelEnds? {
        var facts := if e.ok then a.summary.cleanup.(listener := Complete)
                     else a.summary.cleanup.(listener := Uncertain, uncertain := true);
        ClearExtends(Publish(a, a.summary.(cleanup := facts)), end);
      }
    case Clearing(end) =>
      ClearExtends(a, end);
      if e.ChildEnds? {
        ClearExtends(a.(children := a.children - {e.child}), end);
      }
    case _ =>
  }

  lemma {:induction false} StartsStarting(rule: Rule, limit: nat, events: seq<Event>)
    ensures var a := Run(Fresh(rule, limit), events);
            a.published != [] && a.published[0] == Fresh(rule, limit).summary && a.rule == rule && a.limit == limit
  {
    if events != [] {
      StartsStarting(rule, limit, events[..|events| - 1]);
      StepExtends(Run(Fresh(rule, limit), events[..|events| - 1]), events[|events| - 1]);
    }
  }

  /** Uses of a transport that was obtained and is finished with. */
  predicate CompleteUse(rs: seq<Resource>) {
    || rs == [Obtained, ChildrenAborted, Disconnected]
    || (|rs| == 5 && rs[0] == Obtained && rs[1].Registered? && rs[2] == Cancelled(rs[1].address, rs[1].port)
        && rs[3] == ChildrenAborted && rs[4] == Disconnected)
  }

  /**
   In every finished run the transport was never obtained, or it was disconnected exactly once and
   last. A registered remote listener was cancelled exactly once, with the port the server had
   assigned, before the children were aborted.
   */
  lemma ResourcesAreReleased(rule: Rule, limit: nat, events: seq<Event>)
    requires Run(Fresh(rule, limit), events).phase.Over?
    ensures var a := Run(Fresh(rule, limit), events);
            a.resources == [] || CompleteUse(a.resources)
  {
    RunKeepsInv(rule, limit, events);
  }

  /** Also before the end: at any point, what was done is the beginning of such a complete use. */
  lemma ResourcesStayInOrder(rule: Rule, limit: nat, events: seq<Event>)
    ensures var rs := Run(Fresh(rule, limit), events).resources;
            rs == [] || exists whole :: CompleteUse(whole) && rs <= whole
  {
    RunKeepsInv(rule, limit, events);
    var a := Run(Fresh(rule, limit), events);
    if a.resources != [] {
      var registration := if a.phase.Preparing? then [] else Registration(a);
      var cancellation := if registration == [] then [] else Cancellation(a);
      var whole := [Obtained] + registration + cancellation + [ChildrenAborted, Disconnected];
      assert CompleteUse(whole) && a.resources <= whole;
    }
  }

  /** While a session listens, the published child count is the number of live children, within the limit. */
  lemma ChildrenAreCounted(rule: Rule, limit: nat, events: seq<Event>)
    ensures var a := Run(Fresh(rule, limit), events);
            && (a.phase.Listening? ==> a.summary.state.Running? && a.summary.childCount == |a.children| <= limit)
            && a.published != [] && a.published[|a.published| - 1] == a.summary
            && a.summary.toTarget <= a.toTarget && a.summary.toListener <= a.toListener
  {
    RunKeepsInv(rule, limit, events);
    StartsStarting(rule, limit, events);
  }

  /** A finished session never changes again, so a confirmation of its revision stays valid. */
  lemma {:induction false} OverIsFinal(a: Actor, events: seq<Event>)
    requires a.phase.Over?
    ensures Run(a, events).summary == a.summary && Run(a, events).phase.Over?
            && Run(a, events).published == a.published
  {
    if events != [] {
      OverIsFinal(a, events[..|events| - 1]);
    }
  }

  /** A session ends Stopped exactly when it was asked to with its generation and nothing was left uncertain. */
  lemma StoppedExactly(a: Actor, end: End, ok: bool)
    requires Inv(a) && a.phase == Disconnecting(end)
    ensures Step(a, DisconnectEnds(ok)).summary.state.Stopped? <==>
              end == StopEnd(a.summary.generation) && ok && !a.summary.cleanup.uncertain
    ensures Step(a, DisconnectEnds(ok)).phase.Over?
  {
  }
}
