/**
 The byte relay between a forwarded channel and a socket: two directions share one loop, each side
 may close its half first, an idle pair times out, and per-direction counters record the bytes
 that were written in full.
 */
module Relay {
  import opened Basics
  import opened Socks5

  const BUFFER := 16 * 1024
  const U64 := 0x1_0000_0000_0000_0000

  /** One direction: what its reader will deliver, and what its writer has passed on. */
  datatype Direction = Direction(
    input: seq<byte>,
    read: nat,
    written: seq<byte>,
    counted: nat,
    eof: bool,
    shutdowns: nat)

  datatype Pair = Pair(fromFirst: Direction, fromSecond: Direction)

  /** What one turn of the loop meets. `accepts` is how much of a chunk the writer takes. */
  datatype Activity = Activity(idle: bool, first: bool, readFails: bool, size: nat, accepts: nat, shutdownFails: bool)

  datatype Phase = Running(pair: Pair) | Ended(pair: Pair, ok: bool)

  function Fresh(input: seq<byte>): Direction {
    Direction(input, 0, [], 0, false, 0)
  }

  function Start(first: seq<byte>, second: seq<byte>): Phase {
    Running(Pair(Fresh(first), Fresh(second)))
  }

  function Min(a: nat, b: nat): nat {
    if a < b then a else b
  }

  /** A read returns at least one byte and at most a buffer; none are left exactly at the end. */
  function ChunkSize(d: Direction, size: nat): nat
    requires d.read < |d.input|
  {
    Min(Min(if size == 0 then 1 else size, BUFFER), |d.input| - d.read)
  }

  /** One read and the write or shutdown that follows it; the flag says whether it succeeded. */
  function Transfer(d: Direction, a: Activity): (Direction, bool)
    requires d.read <= |d.input|
  {
    if a.readFails then (d, false)
    else if d.read == |d.input| then
      (d.(eof := true, shutdowns := d.shutdowns + 1), !a.shutdownFails)
    else
      var n := ChunkSize(d, a.size);
      var chunk := d.input[d.read..d.read + n];
      if a.accepts < n then
        (d.(read := d.read + n, written := d.written + chunk[..a.accepts]), false)
      else
        (d.(read := d.read + n, written := d.written + chunk, counted := d.counted + n), true)
  }

  function Turn(p: Pair, a: Activity): Phase
    requires p.fromFirst.read <= |p.fromFirst.input| && p.fromSecond.read <= |p.fromSecond.input|
  {
    if p.fromFirst.eof && p.fromSecond.eof then Ended(p, true)
    else if a.idle then Ended(p, false)
    else
      // A side that reached its end is no longer polled.
      var useFirst := p.fromSecond.eof || (a.first && !p.fromFirst.eof);
      var (d, ok) := Transfer(if useFirst then p.fromFirst else p.fromSecond, a);
      var p' := if useFirst then p.(fromFirst := d) else p.(fromSecond := d);
      if ok then Running(p') else Ended(p', false)
  }

  function Advance(phase: Phase, a: Activity): (after: Phase)
    requires Readable(phase.pair)
    ensures Readable(after.pair)
  {
    if phase.Ended? then phase else Turn(phase.pair, a)
  }

  type Schedule = nat -> Activity

  function After(start: Phase, schedule: Schedule, k: nat): (phase: Phase)
    requires Readable(start.pair)
    ensures Readable(phase.pair)
  {
    if k == 0 then start else Advance(After(start, schedule, k - 1), schedule(k - 1))
  }

  predicate Readable(p: Pair) {
    p.fromFirst.read <= |p.fromFirst.input| && p.fromSecond.read <= |p.fromSecond.input|
  }

  // ---------------------------------------------------------------- every step

  /**
   What was written is a prefix of what was read, the counter is the part of it that was written
   in full, and a shutdown was sent exactly for a direction that reached its end.
   */
  ghost predicate Faithful(d: Direction) {
    && d.read <= |d.input|
    && |d.written| <= d.read && d.written == d.input[..|d.written|]
    && d.counted <= |d.written|
    && d.shutdowns == (if d.eof then 1 else 0)
    && (d.eof ==> d.read == |d.input| && d.written == d.input && d.counted == |d.input|)
  }

  /** While a direction has not failed, everything read has been passed on and counted. */
  ghost predicate UpToDate(d: Direction) {
    Faithful(d) && |d.written| == d.read && d.counted == d.read
  }

  ghost predicate Good(phase: Phase) {
    && Faithful(phase.pair.fromFirst) && Faithful(phase.pair.fromSecond)
    && (phase.Running? || phase.ok ==> UpToDate(phase.pair.fromFirst) && UpToDate(phase.pair.fromSecond))
    && (phase.Ended? && phase.ok ==> phase.pair.fromFirst.eof && phase.pair.fromSecond.eof)
    // At most one direction can be behind, by part of one chunk.
    && (UpToDate(phase.pair.fromFirst) || UpToDate(phase.pair.fromSecond))
    && phase.pair.fromFirst.read - phase.pair.fromFirst.counted <= BUFFER
    && phase.pair.fromSecond.read - phase.pair.fromSecond.counted <= BUFFER
  }

  function Left(d: Direction): nat
    requires d.read <= |d.input|
  {
    |d.input| - d.read + (if d.eof then 0 else 1)
  }

  function Work(p: Pair): nat
    requires Readable(p)
  {
    Left(p.fromFirst) + Left(p.fromSecond)
  }

  lemma TransferIsFaithful(d: Direction, a: Activity)
    requires UpToDate(d) && !d.eof
    ensures var (d', ok) := Transfer(d, a);
            && Faithful(d') && d'.input == d.input && d'.read - d'.counted <= BUFFER
            && (ok ==> UpToDate(d'))
            && (ok ==> (d'.eof && d'.read == d.read) || d.read < d'.read)
            && (d'.counted > d.counted ==> ok && d'.counted - d.counted == |d'.written| - |d.written|)
  {
    if !a.readFails && d.read < |d.input| {
      var n := ChunkSize(d, a.size);
      var chunk := d.input[d.read..d.read + n];
      var taken := Min(a.accepts, n);
      assert chunk[..taken] == d.input[d.read..d.read + taken];
      assert d.input[..d.read] + d.input[d.read..d.read + taken] == d.input[..d.read + taken];
      assert d.written == d.input[..d.read];
      assert chunk[..n] == chunk;
    }
  }

  lemma TurnKeepsGood(before: Phase, a: Activity)
    requires Good(before)
    ensures var after := Advance(before, a);
            && Good(after)
            && after.pair.fromFirst.input == before.pair.fromFirst.input
            && after.pair.fromSecond.input == before.pair.fromSecond.input
            && (after.Running? ==> Work(after.pair) < Work(before.pair))
  {
    var p := before.pair;
    if before.Running? && !(p.fromFirst.eof && p.fromSecond.eof) {
      var useFirst := p.fromSecond.eof || (a.first && !p.fromFirst.eof);
      TransferIsFaithful(if useFirst then p.fromFirst else p.fromSecond, a);
    }
  }

  /** At every step of every relay, each output is a prefix of its input and counters are exact. */
  lemma {:induction false} EveryStepIsFaithful(first: seq<byte>, second: seq<byte>, schedule: Schedule, k: nat)
    ensures var phase := After(Start(first, second), schedule, k);
            && Good(phase)
            && phase.pair.fromFirst.input == first && phase.pair.fromSecond.input == second
            && (phase.Running? ==> Work(phase.pair) + k <= |first| + |second| + 2)
  {
    if k > 0 {
      EveryStepIsFaithful(first, second, schedule, k - 1);
      TurnKeepsGood(After(Start(first, second), schedule, k - 1), schedule(k - 1));
    }
  }

  /** A relay that reports success delivered both streams whole, with one shutdown for each side. */
  lemma SuccessDeliversEverything(first: seq<byte>, second: seq<byte>, schedule: Schedule, k: nat)
    requires After(Start(first, second), schedule, k).Ended? && After(Start(first, second), schedule, k).ok
    ensures var p := After(Start(first, second), schedule, k).pair;
            && p.fromFirst.written == first && p.fromSecond.written == second
            && p.fromFirst.counted == |first| && p.fromSecond.counted == |second|
            && p.fromFirst.shutdowns == 1 && p.fromSecond.shutdowns == 1
  {
    EveryStepIsFaithful(first, second, schedule, k);
  }

  /** On finite streams the loop ends after at most one turn for each byte and each end, and one more. */
  lemma RelayTerminates(first: seq<byte>, second: seq<byte>, schedule: Schedule)
    ensures After(Start(first, second), schedule, |first| + |second| + 3).Ended?
  {
    EveryStepIsFaithful(first, second, schedule, |first| + |second| + 3);
  }

  // ---------------------------------------------------------------- the loop

  /** One side of the relay: the bytes it sends and what it has received. */
  class Endpoint {
    const input: seq<byte>
    var read: nat
    var received: seq<byte>
    var shutdowns: nat

    constructor (input: seq<byte>)
      ensures this.input == input && read == 0 && received == [] && shutdowns == 0
    {
      this.input, read, received, shutdowns := input, 0, [], 0;
    }
  }

  /** Process-wide counters; adding wraps around at 64 bits. */
  class TrafficCounters {
    var listenerToTarget: nat
    var targetToListener: nat

    constructor ()
      ensures listenerToTarget == 0 && targetToListener == 0
    {
      listenerToTarget, targetToListener := 0, 0;
    }

    method Add(towardsTarget: bool, n: nat)
      modifies this
      ensures towardsTarget ==> listenerToTarget == (old(listenerToTarget) + n) % U64
                                && targetToListener == old(targetToListener)
      ensures !towardsTarget ==> targetToListener == (old(targetToListener) + n) % U64
                                 && listenerToTarget == old(listenerToTarget)
    {
      if towardsTarget {
        listenerToTarget := (listenerToTarget + n) % U64;
      } else {
        targetToListener := (targetToListener + n) % U64;
      }
    }
  }

  /** The direction from `source` to `sink`, as far as the two endpoints show it. */
  ghost function DirectionOf(source: Endpoint, sink: Endpoint, counted: nat, eof: bool): Direction
    reads source, sink
  {
    Direction(source.input, source.read, sink.received, counted, eof, sink.shutdowns)
  }

  /** Reads once from `source` and passes the result on to `sink`. */
  method Forward(source: Endpoint, sink: Endpoint, a: Activity, ghost counted: nat)
    returns (ok: bool, eof: bool, added: nat)
    requires source != sink && source.read <= |source.input|
    modifies source`read, sink`received, sink`shutdowns
    ensures (DirectionOf(source, sink, counted + added, eof), ok)
            == Transfer(old(DirectionOf(source, sink, counted, false)), a)
    ensures source.read <= |source.input|
  {
    eof, added := false, 0;
    if a.readFails {
      return false, false, 0;
    }
    if source.read == |source.input| {
      sink.shutdowns := sink.shutdowns + 1;
      return !a.shutdownFails, true, 0;
    }
    var wanted := if a.size == 0 then 1 else a.size;
    var n := Min(Min(wanted, BUFFER), |source.input| - source.read);
    var chunk := source.input[source.read..source.read + n];
    source.read := source.read + n;
    if a.accepts < n {
      sink.received := sink.received + chunk[..a.accepts];
      return false, false, 0;
    }
    sink.received := sink.received + chunk;
    return true, false, n;
  }

  lemma WrappedSum(base: nat, counted: nat, added: nat)
    ensures ((base + counted) % U64 + added) % U64 == (base + counted + added) % U64
  {
  }

  /** The loop's variables between two turns. */
  class RelayLoop {
    const first: Endpoint
    const second: Endpoint
    const traffic: TrafficCounters
    const firstIsListener: bool
    var firstEof: bool
    var secondEof: bool
    ghost var fromFirst: nat
    ghost var fromSecond: nat
    // Counter values when this relay started.
    ghost const before: (nat, nat)

    constructor (first: Endpoint, second: Endpoint, traffic: TrafficCounters, firstIsListener: bool)
      requires first != second
      requires first.read == second.read == 0 && first.received == second.received == []
      requires first.shutdowns == second.shutdowns == 0
      requires traffic.listenerToTarget < U64 && traffic.targetToListener < U64
      ensures this.first == first && this.second == second && this.traffic == traffic
      ensures this.firstIsListener == firstIsListener
      ensures before == (traffic.listenerToTarget, traffic.targetToListener)
      ensures Valid() && Running(View()) == Start(first.input, second.input)
    {
      this.first, this.second, this.traffic, this.firstIsListener := first, second, traffic, firstIsListener;
      firstEof, secondEof, fromFirst, fromSecond := false, false, 0, 0;
      before := (traffic.listenerToTarget, traffic.targetToListener);
    }

    ghost function View(): Pair
      reads this, first, second
    {
      Pair(DirectionOf(first, second, fromFirst, firstEof), DirectionOf(second, first, fromSecond, secondEof))
    }

    ghost predicate Valid()
      reads this, first, second, traffic
    {
      && first != second
      && first.read <= |first.input| && second.read <= |second.input|
      && traffic.listenerToTarget == (before.0 + (if firstIsListener then fromFirst else fromSecond)) % U64
      && traffic.targetToListener == (before.1 + (if firstIsListener then fromSecond else fromFirst)) % U64
    }

    method Count(usedFirst: bool, added: nat)
      requires Valid()
      modifies this`fromFirst, this`fromSecond, traffic
      ensures Valid()
      ensures fromFirst == old(fromFirst) + (if usedFirst then added else 0)
      ensures fromSecond == old(fromSecond) + (if usedFirst then 0 else added)
    {
      WrappedSum(if usedFirst == firstIsListener then before.0 else before.1,
                 if usedFirst then fromFirst else fromSecond, added);
      traffic.Add(usedFirst == firstIsListener, added);
      if usedFirst {
        fromFirst := fromFirst + added;
      } else {
        fromSecond := fromSecond + added;
      }
    }

    /** Reads once from the chosen side and passes it on. */
    method Move(useFirst: bool, a: Activity) returns (ok: bool, added: nat)
      requires first != second && first.read <= |first.input| && second.read <= |second.input|
      requires if useFirst then !firstEof else !secondEof
      modifies this`firstEof, this`secondEof, first, second
      ensures first.read <= |first.input| && second.read <= |second.input|
      ensures useFirst ==> View().fromSecond == old(View().fromSecond)
                           && (View().fromFirst.(counted := fromFirst + added), ok)
                               == Transfer(old(View().fromFirst), a)
      ensures !useFirst ==> View().fromFirst == old(View().fromFirst)
                            && (View().fromSecond.(counted := fromSecond + added), ok)
                                == Transfer(old(View().fromSecond), a)
    {
      var eof;
      if useFirst {
        ok, eof, added := Forward(first, second, a, fromFirst);
        firstEof := eof;
      } else {
        ok, eof, added := Forward(second, first, a, fromSecond);
        secondEof := eof;
      }
    }

    method Step(a: Activity) returns (ok: bool)
      requires Valid() && (!firstEof || !secondEof)
      modifies this, first, second, traffic
      ensures Valid()
      ensures Turn(old(View()), a) == if ok then Running(View()) else Ended(View(), false)
    {
      if a.idle {
        return false;
      }
      var useFirst := secondEof || (a.first && !firstEof);
      var added;
      ghost var before := View();
      ok, added := Move(useFirst, a);
      Count(useFirst, added);
      if useFirst {
        assert (View().fromFirst, ok) == Transfer(before.fromFirst, a);
      } else {
        assert (View().fromSecond, ok) == Transfer(before.fromSecond, a);
      }
    }
  }

  /**
   The loop ends. On success both streams arrived whole and each side was shut down once; the
   shared counters grew by the counted bytes, which `Good` ties to the bytes written.
   */
  method RelayWithIdleTimeout(loop: RelayLoop, schedule: Schedule) returns (ok: bool, ghost turns: nat)
    requires loop.Valid() && Running(loop.View()) == Start(loop.first.input, loop.second.input)
    modifies loop, loop.first, loop.second, loop.traffic
    ensures loop.Valid() && Good(Ended(loop.View(), ok))
    ensures After(Start(loop.first.input, loop.second.input), schedule, turns) == Ended(loop.View(), ok)
    ensures ok ==> loop.second.received == loop.first.input && loop.first.received == loop.second.input
                   && loop.first.shutdowns == loop.second.shutdowns == 1
  {
    ghost var start := Running(loop.View());
    turns := 0;
    var k := 0;
    while !loop.firstEof || !loop.secondEof
      invariant loop.Valid() && Good(Running(loop.View()))
      invariant After(start, schedule, k) == Running(loop.View())
      decreases Work(loop.View())
    {
      ghost var before := Running(loop.View());
      ok := loop.Step(schedule(k));
      TurnKeepsGood(before, schedule(k));
      k := k + 1;
      if !ok {
        turns := k;
        return;
      }
    }
    turns := k + 1;
    return true, turns;
  }
}
