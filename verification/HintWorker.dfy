/**
 The worker that turns connectivity notifications into hints. Notifications go through a channel that
 holds one message; the worker takes it, keeps its distance from the last hint, empties the channel
 and gives one hint. Time is a number of milliseconds that only grows.
 */
module HintWorker {
  import opened Basics

  const MIN_HINT_INTERVAL := 2000

  /** Where the worker waits. `Starting` is the moment between the last look at the channel and the hint. */
  datatype Phase = Receiving | Sleeping(until: nat) | Draining | Starting | Hinting | Finished

  /** A notification: when it was made, and how many hints had started before it. */
  datatype Ask = Ask(time: nat, before: nat)

  datatype Worker = Worker(
    now: nat,
    full: bool,
    active: bool,
    closed: bool,
    phase: Phase,
    lastHint: Option<nat>,
    // History: the start and end of every hint, every notification, and every message that was sent.
    starts: seq<nat>,
    ends: seq<nat>,
    asks: seq<Ask>,
    sent: nat)

  const Fresh := Worker(0, false, true, false, Receiving, None, [], [], [], 0)

  datatype Event =
    | Tick(ms: nat)
    | Notify
    | Stop
    | Close
    | Receive
    | Wake
    | TryReceive
    | StartHint
    | EndHint

  function Notified(w: Worker): Worker {
    if !w.active || w.closed then w
    else w.(asks := w.asks + [Ask(w.now, |w.starts|)], full := true, sent := if w.full then w.sent else w.sent + 1)
  }

  /** `recv` yields the message, waits, or ends when nobody can send any more. */
  function Received(w: Worker): Worker {
    if !w.phase.Receiving? then w
    else if w.full then
      w.(full := false,
         phase := if w.lastHint.Some? then Sleeping(w.lastHint.value + MIN_HINT_INTERVAL) else Draining)
    else if w.closed then w.(phase := Finished)
    else w
  }

  function TriedReceive(w: Worker): Worker {
    if !w.phase.Draining? then w else if w.full then w.(full := false) else w.(phase := Starting)
  }

  function Next(w: Worker, e: Event): Worker {
    match e
    case Tick(ms) => w.(now := w.now + ms)
    case Notify => Notified(w)
    case Stop => w.(active := false)
    case Close => w.(closed := true)
    case Receive => Received(w)
    case Wake => if w.phase.Sleeping? && w.now >= w.phase.until then w.(phase := Draining) else w
    case TryReceive => TriedReceive(w)
    case StartHint => if w.phase.Starting? then w.(phase := Hinting, starts := w.starts + [w.now]) else w
    case EndHint =>
      if w.phase.Hinting? then w.(phase := Receiving, ends := w.ends + [w.now], lastHint := Some(w.now)) else w
  }

  function Run(events: seq<Event>): Worker {
    if events == [] then Fresh else Next(Run(events[..|events| - 1]), events[|events| - 1])
  }

  // ---------------------------------------------------------------- the rate

  ghost predicate Paced(w: Worker) {
    && |w.ends| == (if w.phase.Hinting? then |w.starts| - 1 else |w.starts|)
    && w.lastHint == (if w.ends == [] then None else Some(w.ends[|w.ends| - 1]))
    && (forall i | 0 <= i < |w.starts| :: w.starts[i] <= w.now)
    && (forall i | 0 <= i < |w.ends| :: w.starts[i] <= w.ends[i] <= w.now)
    && (forall i, j | 0 <= i < |w.ends| && 0 <= j < |w.starts| ::
          j == i + 1 ==> w.starts[j] >= w.ends[i] + MIN_HINT_INTERVAL)
    && (w.phase.Sleeping? ==> w.lastHint.Some? && w.phase.until == w.lastHint.value + MIN_HINT_INTERVAL)
    && (w.phase.Draining? || w.phase.Starting? ==> w.lastHint.Some? ==> w.now >= w.lastHint.value + MIN_HINT_INTERVAL)
  }

  lemma StartKeepsPace(w: Worker)
    requires Paced(w) && w.phase.Starting?
    ensures Paced(Next(w, StartHint))
  {
  }

  lemma EndKeepsPace(w: Worker)
    requires Paced(w) && w.phase.Hinting?
    ensures Paced(Next(w, EndHint))
  {
  }

  lemma NextKeepsPace(w: Worker, e: Event)
    requires Paced(w)
    ensures Paced(Next(w, e))
  {
    if e.StartHint? && w.phase.Starting? {
      StartKeepsPace(w);
    } else if e.EndHint? && w.phase.Hinting? {
      EndKeepsPace(w);
    }
  }

  // ---------------------------------------------------------------- no lost wake-up

  /** The worker is on its way to a hint, or will find a message when it looks. */
  predicate Owes(w: Worker) {
    w.full || w.phase.Sleeping? || w.phase.Draining? || w.phase.Starting?
  }

  /** Every notification was followed by a hint that started no earlier, or a hint is still owed. */
  ghost predicate Answered(w: Worker) {
    && !(w.full && w.phase.Finished?)
    && (forall i | 0 <= i < |w.asks| ::
          && w.asks[i].time <= w.now && w.asks[i].before <= |w.starts|
          && (w.asks[i].before < |w.starts| ==> w.starts[w.asks[i].before] >= w.asks[i].time)
          && (w.asks[i].before == |w.starts| ==> Owes(w)))
    && (w.phase.Finished? ==> w.closed)
  }

  lemma NextKeepsAnswered(w: Worker, e: Event)
    requires Answered(w)
    ensures Answered(Next(w, e))
  {
  }

  /** No hint without a message of its own. */
  ghost predicate Earned(w: Worker) {
    |w.starts| + (if w.full then 1 else 0)
    + (if w.phase.Sleeping? || w.phase.Draining? || w.phase.Starting? then 1 else 0) <= w.sent
    && w.sent <= |w.asks|
  }

  lemma NextKeepsEarned(w: Worker, e: Event)
    requires Earned(w)
    ensures Earned(Next(w, e))
  {
  }

  // ---------------------------------------------------------------- every run

  lemma {:induction false} RunKeepsPace(events: seq<Event>)
    ensures Paced(Run(events))
  {
    if events == [] {
      assert Run(events) == Fresh;
    } else {
      RunKeepsPace(events[..|events| - 1]);
      NextKeepsPace(Run(events[..|events| - 1]), events[|events| - 1]);
    }
  }

  lemma {:induction false} RunKeepsAnswered(events: seq<Event>)
    ensures Answered(Run(events))
  {
    if events == [] {
      assert Run(events) == Fresh;
    } else {
      RunKeepsAnswered(events[..|events| - 1]);
      NextKeepsAnswered(Run(events[..|events| - 1]), events[|events| - 1]);
    }
  }

  lemma {:induction false} RunKeepsEarned(events: seq<Event>)
    ensures Earned(Run(events))
  {
    if events == [] {
      assert Run(events) == Fresh;
    } else {
      RunKeepsEarned(events[..|events| - 1]);
      NextKeepsEarned(Run(events[..|events| - 1]), events[|events| - 1]);
    }
  }

  /** In every run each hint starts at least two seconds after the one before ended. */
  lemma HintsKeepTheirDistance(events: seq<Event>, i: nat)
    requires i + 1 < |Run(events).starts|
    ensures i < |Run(events).ends| && Run(events).starts[i + 1] >= Run(events).ends[i] + 2000
  {
    RunKeepsPace(events);
  }

  /**
   In every run each notification is followed by a hint that starts no earlier than it, unless the
   worker still owes that hint; a worker that waits or has finished owes nothing but a held message.
   */
  lemma NoWakeUpIsLost(events: seq<Event>, i: nat)
    requires i < |Run(events).asks|
    ensures var w := Run(events);
            || (w.asks[i].before < |w.starts| && w.starts[w.asks[i].before] >= w.asks[i].time)
            || (w.asks[i].before == |w.starts| && Owes(w) && !w.phase.Finished?)
    ensures var w := Run(events);
            w.phase.Finished? || (w.phase.Receiving? && !w.full) ==> w.asks[i].before < |w.starts|
  {
    RunKeepsAnswered(events);
  }

  /** There are never more hints than notifications. */
  lemma HintsAreEarned(events: seq<Event>)
    ensures |Run(events).starts| <= Run(events).sent <= |Run(events).asks|
  {
    RunKeepsEarned(events);
  }

  // ---------------------------------------------------------------- an owed hint starts

  /** What the worker does next by itself; a hint in progress completes. */
  function Own(w: Worker): Event {
    match w.phase
    case Receiving => Receive
    case Sleeping(until) => if w.now >= until then Wake else Tick(until - w.now)
    case Draining => TryReceive
    case Starting => StartHint
    case Hinting => EndHint
    case Finished => Tick(0)
  }

  /** How many steps of its own the worker is away from the start of a hint. */
  function Distance(w: Worker): nat {
    match w.phase
    case Receiving => 6
    case Sleeping(until) => if w.now >= until then 4 else 5
    case Draining => if w.full then 3 else 2
    case Starting => 1
    case Hinting => 7
    case Finished => 8
  }

  /** Either the worker makes its next step, or something else happens. */
  datatype Move = Mine | Other(event: Event)

  /** Time, notifications and the end of notifying come from outside. */
  predicate FromOutside(moves: seq<Move>) {
    forall i | 0 <= i < |moves| :: moves[i].Other? ==>
      moves[i].event.Tick? || moves[i].event.Notify? || moves[i].event.Stop? || moves[i].event.Close?
  }

  function Moved(w: Worker, m: Move): Worker {
    Next(w, if m.Mine? then Own(w) else m.event)
  }

  function With(w: Worker, moves: seq<Move>): Worker
    decreases |moves|
  {
    if moves == [] then w else With(Moved(w, moves[0]), moves[1..])
  }

  function OwnMoves(moves: seq<Move>): nat {
    if moves == [] then 0 else OwnMoves(moves[1..]) + if moves[0].Mine? then 1 else 0
  }

  function Notifications(moves: seq<Move>): nat {
    if moves == [] then 0 else Notifications(moves[1..]) + if moves[0] == Other(Notify) then 1 else 0
  }

  lemma {:induction false} OnlyAdds(w: Worker, moves: seq<Move>)
    ensures |With(w, moves).starts| >= |w.starts|
    decreases |moves|
  {
    if moves != [] {
      OnlyAdds(Moved(w, moves[0]), moves[1..]);
    }
  }

  /** A step of its own brings the worker nearer; from outside only a notification delays it, by one step. */
  lemma MoveDistance(w: Worker, m: Move)
    requires Owes(w) && !w.phase.Finished? && !(m.Mine? && w.phase.Starting?) && FromOutside([m])
    ensures var w' := Moved(w, m);
            && Owes(w') && !w'.phase.Finished? && w'.starts == w.starts
            && Distance(w') <= Distance(w) + (if m.Mine? then -1 else if m == Other(Notify) then 1 else 0)
  {
    assert [m][0] == m;
  }

  /**
   Whatever happens meanwhile, a worker that owes a hint starts one after at most seven steps of its
   own, and one more for each notification.
   */
  lemma {:induction false} OwedHintStarts(w: Worker, moves: seq<Move>)
    requires Owes(w) && !w.phase.Finished? && FromOutside(moves)
    requires OwnMoves(moves) >= Distance(w) + Notifications(moves)
    ensures |With(w, moves).starts| > |w.starts|
    ensures Distance(w) <= 7
    decreases |moves|
  {
    var m, rest := moves[0], moves[1..];
    if m.Mine? && w.phase.Starting? {
      OnlyAdds(Moved(w, m), rest);
    } else {
      assert FromOutside([m]) && FromOutside(rest);
      MoveDistance(w, m);
      OwedHintStarts(Moved(w, m), rest);
    }
  }

  // ---------------------------------------------------------------- the channel and the worker

  class ConnectivityHints {
    var now: nat
    var full: bool
    var active: bool
    var closed: bool
    var phase: Phase
    var lastHint: Option<nat>
    ghost var starts: seq<nat>
    ghost var ends: seq<nat>
    ghost var asks: seq<Ask>
    ghost var sent: nat

    ghost function View(): Worker
      reads this
    {
      Worker(now, full, active, closed, phase, lastHint, starts, ends, asks, sent)
    }

    constructor ()
      ensures View() == Fresh
    {
      now, full, active, closed, phase, lastHint := 0, false, true, false, Receiving, None;
      starts, ends, asks, sent := [], [], [], 0;
    }

    /** A message that does not fit is dropped. */
    method NotifyWorker()
      modifies this
      ensures View() == old(Next(View(), Notify))
    {
      if active && !closed {
        asks := asks + [Ask(now, |starts|)];
        if !full {
          full := true;
          sent := sent + 1;
        }
      }
    }

    method StopNotifying()
      modifies this`active
      ensures View() == old(Next(View(), Stop))
    {
      active := false;
    }

    method ReceiveMessage()
      modifies this
      ensures View() == old(Next(View(), Receive))
    {
      if phase != Receiving {
        return;
      }
      if full {
        full := false;
        phase := if lastHint.Some? then Sleeping(lastHint.value + MIN_HINT_INTERVAL) else Draining;
      } else if closed {
        phase := Finished;
      }
    }

    /** Empties the channel when nobody notifies meanwhile. */
    method Drain()
      requires phase == Draining
      modifies this`full, this`phase
      ensures View() == old(View()).(full := false, phase := Starting)
      ensures View() == old(if full then Next(Next(View(), TryReceive), TryReceive) else Next(View(), TryReceive))
    {
      while full
        invariant phase == Draining
        invariant View() == old(View()).(full := full) && (full ==> old(full))
        decreases full
      {
        full := false;
      }
      phase := Starting;
    }

    method BeginHint()
      requires phase == Starting
      modifies this`phase, this`starts
      ensures View() == old(Next(View(), StartHint))
    {
      phase := Hinting;
      starts := starts + [now];
    }

    method FinishHint()
      requires phase == Hinting
      modifies this`phase, this`ends, this`lastHint
      ensures View() == old(Next(View(), EndHint))
    {
      phase := Receiving;
      ends := ends + [now];
      lastHint := Some(now);
    }

    method HandleEvent(e: Event)
      modifies this
      ensures View() == old(Next(View(), e))
    {
      match e
      case Tick(ms) => now := now + ms;
      case Notify => NotifyWorker();
      case Stop => StopNotifying();
      case Close => closed := true;
      case Receive => ReceiveMessage();
      case Wake =>
        if phase.Sleeping? && now >= phase.until {
          phase := Draining;
        }
      case TryReceive =>
        if phase.Draining? {
          phase := if full then Draining else Starting;
          full := false;
        }
      case StartHint =>
        if phase.Starting? {
          BeginHint();
        }
      case EndHint =>
        if phase.Hinting? {
          FinishHint();
        }
    }

    /** Any run of events keeps the distance between hints and owes a hint for every open notification. */
    method HandleEvents(events: seq<Event>)
      requires View() == Fresh
      modifies this
      ensures View() == Run(events)
      ensures Paced(View()) && Answered(View()) && Earned(View())
    {
      for i := 0 to |events|
        invariant View() == Run(events[..i])
      {
        assert events[..i + 1][..i] == events[..i];
        HandleEvent(events[i]);
      }
      assert events[..|events|] == events;
      RunKeepsPace(events);
      RunKeepsAnswered(events);
      RunKeepsEarned(events);
    }
  }
}
