/**
 The bridge between a sandboxed plugin page and the core: a bounded queue, one request in flight,
 one action that waits for the user's approval, and disposal. Every call that reaches the active
 bridge gets the next token; what happens to it is followed until it is answered.

 The functions say what each callback does between two awaits; `Settle` is the continuation after
 the request in flight was answered.
 */
module PluginBridge {
  import opened Basics

  type Token = nat

  const MAX_QUEUED := 8

  datatype Outcome = Busy | Cancelled | FromCore(text: string)

  datatype Answer = Answer(token: Token, outcome: Outcome)

  datatype Action =
    | CallAction(token: Token)
    | ApproveAction(pendingId: string)
    | CancelAction(pendingId: string)
    | Deactivate

  datatype Request = Request(sequence: nat, action: Action)

  datatype Response =
    | Response(nextSequence: nat, reply: Option<string>, pending: Option<string>)
    | Rejected

  datatype Kind = Calling | Approving | Cancelling

  /** The suspended continuation: which method waits, for which call and under which number. */
  datatype Flight = Flight(kind: Kind, token: Token, sequence: nat)

  datatype Waiting = Waiting(token: Token, pendingId: string)

  datatype Bridge = Bridge(
    sequence: nat,
    port: bool,
    active: bool,
    running: bool,
    queue: seq<Token>,
    waiting: Option<Waiting>,
    flight: Option<Flight>,
    // What left the bridge, and what became of the calls that were never answered.
    requests: seq<Request>,
    answers: seq<Answer>,
    discarded: seq<Token>,
    dropped: seq<Token>,
    arrivals: nat)

  function Fresh(sequence: nat): Bridge {
    Bridge(sequence, false, true, false, [], None, None, [], [], [], [], 0)
  }

  datatype Event =
    | Attach
    | Message
    | MessageError
    | Approve(pendingId: string)
    | Cancel(pendingId: string)
    | Dispose
    | Settle(response: Response)

  // ---------------------------------------------------------------- callbacks

  function Sent(b: Bridge, action: Action): Bridge {
    b.(requests := b.requests + [Request(b.sequence, action)], sequence := b.sequence + 1)
  }

  function Launch(b: Bridge, kind: Kind, token: Token, action: Action): Bridge {
    Sent(b, action).(running := true, flight := Some(Flight(kind, token, b.sequence)))
  }

  function Drained(b: Bridge): Bridge {
    if !b.active || b.running || b.waiting.Some? || b.queue == [] then b
    else Launch(b.(queue := b.queue[1..]), Calling, b.queue[0], CallAction(b.queue[0]))
  }

  function Answered(b: Bridge, token: Token, outcome: Outcome): Bridge {
    b.(answers := b.answers + [Answer(token, outcome)])
  }

  function Held(b: Bridge): seq<Token> {
    if b.waiting.Some? then [b.waiting.value.token] else []
  }

  /** The call in flight; once the bridge is disposed its answer is no longer passed on. */
  function Flying(b: Bridge): seq<Token> {
    if b.flight.Some? && b.active then [b.flight.value.token] else []
  }

  function Disposed(b: Bridge): Bridge {
    if !b.active then b
    else Sent(b.(active := false, port := false, queue := [], waiting := None,
                 discarded := b.discarded + b.queue + Held(b) + Flying(b)), Deactivate)
  }

  function Messaged(b: Bridge): Bridge {
    if !b.port || !b.active then b
    else
      var b1 := b.(arrivals := b.arrivals + 1);
      if b.waiting.Some? || |b.queue| >= MAX_QUEUED then Answered(b1, b.arrivals, Busy)
      else Drained(b1.(queue := b.queue + [b.arrivals]))
  }

  function Decided(b: Bridge, pendingId: string, kind: Kind): Bridge {
    if !b.active || b.running || b.waiting.None? || b.waiting.value.pendingId != pendingId then b
    else Launch(b.(waiting := None), kind, b.waiting.value.token,
                if kind.Approving? then ApproveAction(pendingId) else CancelAction(pendingId))
  }

  predicate Accepted(f: Flight, r: Response) {
    r.Response? && r.nextSequence == f.sequence + 1
  }

  /** Every queued call is answered with busy, in order. */
  function AllBusy(tokens: seq<Token>): seq<Answer> {
    seq(|tokens|, i requires 0 <= i < |tokens| => Answer(tokens[i], Busy))
  }

  function Suspended(b: Bridge, token: Token, pendingId: string): Bridge {
    b.(waiting := Some(Waiting(token, pendingId)), answers := b.answers + AllBusy(b.queue), queue := [])
  }

  /** The continuation of an accepted response while the bridge is active, up to `finally`. */
  function Handled(b: Bridge, f: Flight, r: Response): Bridge
    requires r.Response?
  {
    var landed := b.(flight := None);
    match f.kind
    case Calling =>
      if r.pending.Some? then Suspended(landed, f.token, r.pending.value)
      else if r.reply.Some? then Answered(landed, f.token, FromCore(r.reply.value))
      else landed.(dropped := b.dropped + [f.token])
    case Approving =>
      if r.reply.Some? then Answered(landed, f.token, FromCore(r.reply.value))
      else landed.(dropped := b.dropped + [f.token])
    case Cancelling => Answered(landed, f.token, Cancelled)
  }

  /** What happens before `finally` drains the queue again. */
  function BeforeDrain(b: Bridge, r: Response): Bridge
    requires b.flight.Some?
  {
    var b1 :=
      if !Accepted(b.flight.value, r) then Disposed(b).(flight := None)
      else if !b.active then b.(flight := None)
      else Handled(b, b.flight.value, r);
    b1.(running := false)
  }

  function Settled(b: Bridge, r: Response): Bridge {
    if b.flight.None? then b else Drained(BeforeDrain(b, r))
  }

  function Next(b: Bridge, e: Event): Bridge {
    match e
    case Attach => if !b.active || b.port then b else b.(port := true)
    case Message => Messaged(b)
    case MessageError => if b.port then Disposed(b) else b
    case Approve(p) => Decided(b, p, Approving)
    case Cancel(p) => Decided(b, p, Cancelling)
    case Dispose => Disposed(b)
    case Settle(r) => Settled(b, r)
  }

  function Run(b: Bridge, events: seq<Event>): Bridge {
    if events == [] then b else Next(Run(b, events[..|events| - 1]), events[|events| - 1])
  }

  // ---------------------------------------------------------------- control and requests

  predicate Shaped(b: Bridge) {
    && |b.queue| <= MAX_QUEUED
    && (b.running <==> b.flight.Some?)
    && (b.waiting.Some? ==> b.queue == [] && !b.running)
    && (b.queue != [] ==> b.running)
    && (!b.active ==> b.queue == [] && b.waiting.None? && !b.port)
  }

  lemma NextKeepsShape(b: Bridge, e: Event)
    requires Shaped(b)
    ensures Shaped(Next(b, e))
  {
  }

  ghost predicate Numbered(b: Bridge, first: nat) {
    && b.sequence == first + |b.requests|
    && (forall i | 0 <= i < |b.requests| :: b.requests[i].sequence == first + i)
  }

  /** The bridge is inactive exactly when its last request deactivated it, and no earlier one did. */
  ghost predicate ClosedLast(b: Bridge) {
    && (forall i | 0 <= i < |b.requests| - 1 :: !b.requests[i].action.Deactivate?)
    && (b.active <==> (b.requests == [] || !b.requests[|b.requests| - 1].action.Deactivate?))
  }

  predicate SameLog(b: Bridge, b': Bridge) {
    b'.requests == b.requests && b'.sequence == b.sequence && b'.active == b.active
  }

  /** A step adds at most one request, under the next number, and only while the bridge is active. */
  predicate Extends(b: Bridge, b': Bridge) {
    || SameLog(b, b')
    || (&& b.active && |b'.requests| == |b.requests| + 1 && b'.sequence == b.sequence + 1
        && var last := b'.requests[|b.requests|];
           && b'.requests == b.requests + [last] && last.sequence == b.sequence
           && (b'.active <==> !last.action.Deactivate?))
  }

  lemma DrainExtends(b: Bridge)
    ensures Extends(b, Drained(b))
  {
  }

  lemma DisposeExtends(b: Bridge)
    ensures Extends(b, Disposed(b)) && !Disposed(b).active
  {
  }

  lemma SettleExtends(b: Bridge, r: Response)
    requires b.flight.Some?
    ensures Extends(b, Settled(b, r))
  {
    var b1 := BeforeDrain(b, r);
    if Accepted(b.flight.value, r) {
      HandleKeepsLog(b, r);
      DrainExtends(b1);
    } else {
      DisposeExtends(b);
      assert Drained(b1) == b1;
    }
  }

  lemma NextExtends(b: Bridge, e: Event)
    ensures Extends(b, Next(b, e))
  {
    match e
    case Attach =>
    case Message => DrainExtends(b.(arrivals := b.arrivals + 1, queue := b.queue + [b.arrivals]));
    case MessageError => DisposeExtends(b);
    case Approve(p) =>
    case Cancel(p) =>
    case Dispose => DisposeExtends(b);
    case Settle(r) => if b.flight.Some? { SettleExtends(b, r); }
  }

  lemma ExtendsKeepsNumbers(b: Bridge, b': Bridge, first: nat)
    requires Numbered(b, first) && ClosedLast(b) && Extends(b, b')
    ensures Numbered(b', first) && ClosedLast(b')
  {
  }

  // ---------------------------------------------------------------- order

  /** The calls that were sent, in the order of their requests. */
  function SentCalls(requests: seq<Request>): seq<Token> {
    if requests == [] then []
    else
      var last := requests[|requests| - 1].action;
      SentCalls(requests[..|requests| - 1]) + if last.CallAction? then [last.token] else []
  }

  ghost predicate Increasing(tokens: seq<Token>, bound: nat) {
    && (forall i, j | 0 <= i < j < |tokens| :: tokens[i] < tokens[j])
    && (forall i | 0 <= i < |tokens| :: tokens[i] < bound)
  }

  /** Calls are sent in the order of their arrival, each at most once. */
  ghost predicate InOrder(b: Bridge) {
    Increasing(SentCalls(b.requests) + b.queue, b.arrivals)
  }

  lemma SentCallsThen(requests: seq<Request>, r: Request)
    ensures SentCalls(requests + [r]) == SentCalls(requests) + if r.action.CallAction? then [r.action.token] else []
  {
    assert (requests + [r])[..|requests|] == requests;
  }

  lemma PrefixIncreases(a: seq<Token>, b: seq<Token>, bound: nat)
    requires Increasing(a + b, bound)
    ensures Increasing(a, bound) && Increasing(a + b, bound + 1) && Increasing(a + b + [bound], bound + 1)
  {
    assert a == (a + b)[..|a|];
  }

  lemma DrainKeepsOrder(b: Bridge)
    requires InOrder(b)
    ensures InOrder(Drained(b))
  {
    if b.queue != [] {
      SentCallsThen(b.requests, Request(b.sequence, CallAction(b.queue[0])));
      assert SentCalls(b.requests) + [b.queue[0]] + b.queue[1..] == SentCalls(b.requests) + b.queue;
    }
  }

  lemma DisposeKeepsOrder(b: Bridge)
    requires InOrder(b)
    ensures InOrder(Disposed(b))
  {
    SentCallsThen(b.requests, Request(b.sequence, Deactivate));
    PrefixIncreases(SentCalls(b.requests), b.queue, b.arrivals);
    assert SentCalls(b.requests) + [] == SentCalls(b.requests);
  }

  lemma SettleKeepsOrder(b: Bridge, r: Response)
    requires InOrder(b) && b.flight.Some?
    ensures InOrder(Settled(b, r))
  {
    var b1 := BeforeDrain(b, r);
    if Accepted(b.flight.value, r) {
      HandleKeepsLog(b, r);
      PrefixIncreases(SentCalls(b.requests), b.queue, b.arrivals);
      assert SentCalls(b.requests) + [] == SentCalls(b.requests);
    } else {
      DisposeKeepsOrder(b);
    }
    DrainKeepsOrder(b1);
  }

  lemma HandleKeepsLog(b: Bridge, r: Response)
    requires b.flight.Some? && Accepted(b.flight.value, r)
    ensures var b1 := BeforeDrain(b, r);
            SameLog(b, b1) && b1.arrivals == b.arrivals && (b1.queue == b.queue || b1.queue == [])
  {
  }

  lemma DecideKeepsOrder(b: Bridge, p: string, kind: Kind)
    requires InOrder(b)
    ensures InOrder(Decided(b, p, kind))
  {
    SentCallsThen(b.requests, Request(b.sequence, ApproveAction(p)));
    SentCallsThen(b.requests, Request(b.sequence, CancelAction(p)));
    assert SentCalls(b.requests) + [] == SentCalls(b.requests);
  }

  lemma ArrivalKeepsOrder(b: Bridge)
    requires InOrder(b)
    ensures InOrder(b.(arrivals := b.arrivals + 1))
            && InOrder(b.(arrivals := b.arrivals + 1, queue := b.queue + [b.arrivals]))
  {
    PrefixIncreases(SentCalls(b.requests), b.queue, b.arrivals);
    assert SentCalls(b.requests) + b.queue + [b.arrivals] == SentCalls(b.requests) + (b.queue + [b.arrivals]);
  }

  lemma MessageKeepsOrder(b: Bridge)
    requires InOrder(b)
    ensures InOrder(Messaged(b))
  {
    ArrivalKeepsOrder(b);
    DrainKeepsOrder(b.(arrivals := b.arrivals + 1, queue := b.queue + [b.arrivals]));
  }

  lemma NextKeepsOrder(b: Bridge, e: Event)
    requires InOrder(b)
    ensures InOrder(Next(b, e))
  {
    match e
    case Attach =>
    case Message => MessageKeepsOrder(b);
    case MessageError => DisposeKeepsOrder(b);
    case Approve(p) => DecideKeepsOrder(b, p, Approving);
    case Cancel(p) => DecideKeepsOrder(b, p, Cancelling);
    case Dispose => DisposeKeepsOrder(b);
    case Settle(r) => if b.flight.Some? { SettleKeepsOrder(b, r); }
  }

  // ---------------------------------------------------------------- conservation

  function Count(s: seq<Token>, t: Token): nat {
    if s == [] then 0 else (if s[0] == t then 1 else 0) + Count(s[1..], t)
  }

  lemma {:induction false} CountJoins(a: seq<Token>, b: seq<Token>, t: Token)
    ensures Count(a + b, t) == Count(a, t) + Count(b, t)
  {
    if a == [] {
      assert a + b == b;
    } else {
      assert (a + b)[1..] == a[1..] + b;
      CountJoins(a[1..], b, t);
    }
  }

  function AnsweredTokens(answers: seq<Answer>): seq<Token> {
    seq(|answers|, i requires 0 <= i < |answers| => answers[i].token)
  }

  /** In how many places the call is. */
  function Places(b: Bridge, t: Token): nat {
    Count(b.queue, t) + Count(Flying(b), t) + Count(Held(b), t)
    + Count(AnsweredTokens(b.answers), t) + Count(b.discarded, t) + Count(b.dropped, t)
  }

  /** The call stays in as many places, except that one that arrives enters one. */
  predicate Conserves(b: Bridge, b': Bridge, t: Token) {
    && b.arrivals <= b'.arrivals <= b.arrivals + 1
    && Places(b', t) == Places(b, t) + if b'.arrivals > b.arrivals && t == b.arrivals then 1 else 0
  }

  lemma AttachConserves(b: Bridge, t: Token)
    ensures Conserves(b, b, t) && Conserves(b, b.(port := true), t)
  {
  }

  lemma AnswerCounts(answers: seq<Answer>, token: Token, outcome: Outcome, t: Token)
    ensures Count(AnsweredTokens(answers + [Answer(token, outcome)]), t)
            == Count(AnsweredTokens(answers), t) + Count([token], t)
  {
    assert AnsweredTokens(answers + [Answer(token, outcome)]) == AnsweredTokens(answers) + [token];
    CountJoins(AnsweredTokens(answers), [token], t);
  }

  lemma BusyCounts(answers: seq<Answer>, tokens: seq<Token>, t: Token)
    ensures Count(AnsweredTokens(answers + AllBusy(tokens)), t) == Count(AnsweredTokens(answers), t) + Count(tokens, t)
  {
    assert AnsweredTokens(answers + AllBusy(tokens)) == AnsweredTokens(answers) + tokens;
    CountJoins(AnsweredTokens(answers), tokens, t);
  }

  lemma DrainConserves(b: Bridge, t: Token)
    requires b.flight.Some? ==> b.running
    ensures Conserves(b, Drained(b), t)
  {
    if b.queue != [] {
      assert Count([b.queue[0]], t) == if b.queue[0] == t then 1 else 0;
    }
  }

  lemma DisposeConserves(b: Bridge, t: Token)
    ensures Conserves(b, Disposed(b), t)
  {
    CountJoins(b.discarded + b.queue + Held(b), Flying(b), t);
    CountJoins(b.discarded + b.queue, Held(b), t);
    CountJoins(b.discarded, b.queue, t);
  }

  lemma MessageConserves(b: Bridge, t: Token)
    requires Shaped(b)
    ensures Conserves(b, Messaged(b), t)
  {
    AnswerCounts(b.answers, b.arrivals, Busy, t);
    CountJoins(b.queue, [b.arrivals], t);
    DrainConserves(b.(arrivals := b.arrivals + 1, queue := b.queue + [b.arrivals]), t);
    assert Count([b.arrivals], t) == if b.arrivals == t then 1 else 0;
  }

  lemma HandleConserves(b: Bridge, r: Response, t: Token)
    requires b.flight.Some? && b.active && r.Response? && Shaped(b)
    ensures Places(Handled(b, b.flight.value, r), t) == Places(b, t)
  {
    var f := b.flight.value;
    if f.kind.Cancelling? {
      AnswerCounts(b.answers, f.token, Cancelled, t);
    } else if f.kind.Calling? && r.pending.Some? {
      BusyCounts(b.answers, b.queue, t);
    } else if r.reply.Some? {
      AnswerCounts(b.answers, f.token, FromCore(r.reply.value), t);
    } else {
      CountJoins(b.dropped, [f.token], t);
    }
  }

  lemma SettleConserves(b: Bridge, r: Response, t: Token)
    requires Shaped(b)
    ensures Conserves(b, Settled(b, r), t)
  {
    if b.flight.Some? {
      DrainConserves(BeforeDrain(b, r), t);
      if !Accepted(b.flight.value, r) {
        DisposeConserves(b, t);
      } else if b.active {
        HandleConserves(b, r, t);
      }
    }
  }

  lemma DecideConserves(b: Bridge, p: string, kind: Kind, t: Token)
    requires Shaped(b)
    ensures Conserves(b, Decided(b, p, kind), t)
  {
  }

  lemma NextConserves(b: Bridge, e: Event, t: Token)
    requires Shaped(b)
    ensures Conserves(b, Next(b, e), t)
  {
    match e
    case Attach => AttachConserves(b, t);
    case Message => MessageConserves(b, t);
    case MessageError => DisposeConserves(b, t);
    case Approve(p) => DecideConserves(b, p, Approving, t);
    case Cancel(p) => DecideConserves(b, p, Cancelling, t);
    case Dispose => DisposeConserves(b, t);
    case Settle(r) => SettleConserves(b, r, t);
  }

  // ---------------------------------------------------------------- every run

  /**
   In every run each call that reached the bridge is in exactly one place: queued, in flight,
   waiting for approval, answered, discarded by disposal, or dropped by a response without a reply.
   */
  lemma {:induction false} EveryCallIsInOnePlace(first: nat, events: seq<Event>, t: Token)
    ensures var b := Run(Fresh(first), events);
            Places(b, t) == if t < b.arrivals then 1 else 0
  {
    if events != [] {
      var init := events[..|events| - 1];
      EveryCallIsInOnePlace(first, init, t);
      QueueIsBounded(first, init);
      NextConserves(Run(Fresh(first), init), events[|events| - 1], t);
    }
  }

  /** The queue is bounded, approval waits alone, and a queued call always has one running before it. */
  lemma {:induction false} QueueIsBounded(first: nat, events: seq<Event>)
    ensures var b := Run(Fresh(first), events);
            && Shaped(b)
            && |b.queue| <= 8
            && (b.waiting.Some? ==> b.queue == [] && b.flight.None?)
            && (b.flight.None? ==> b.queue == [])
  {
    if events != [] {
      QueueIsBounded(first, events[..|events| - 1]);
      NextKeepsShape(Run(Fresh(first), events[..|events| - 1]), events[|events| - 1]);
    }
  }

  lemma {:induction false} RunKeepsNumbers(first: nat, events: seq<Event>)
    ensures var b := Run(Fresh(first), events); Numbered(b, first) && ClosedLast(b) && InOrder(b)
  {
    if events != [] {
      var b := Run(Fresh(first), events[..|events| - 1]);
      RunKeepsNumbers(first, events[..|events| - 1]);
      NextExtends(b, events[|events| - 1]);
      NextKeepsOrder(b, events[|events| - 1]);
      ExtendsKeepsNumbers(b, Next(b, events[|events| - 1]), first);
    }
  }

  /**
   Requests are numbered without gaps, calls are sent in the order of arrival and once each, and
   deactivation is requested exactly when the bridge ends, once, as the last request.
   */
  lemma RequestsAreNumbered(first: nat, events: seq<Event>)
    ensures var b := Run(Fresh(first), events);
            && (forall i | 0 <= i < |b.requests| ::
                  && b.requests[i].sequence == first + i
                  && (b.requests[i].action.Deactivate? <==> i == |b.requests| - 1 && !b.active))
            && Increasing(SentCalls(b.requests), b.arrivals)
            && (!b.active ==> b.requests != [])
  {
    RunKeepsNumbers(first, events);
    var b := Run(Fresh(first), events);
    PrefixIncreases(SentCalls(b.requests), b.queue, b.arrivals);
  }

  // ---------------------------------------------------------------- calls that get no answer

  /** The response leaves its call without an answer and without a wait. */
  predicate Silent(f: Flight, r: Response) {
    Accepted(f, r) && r.reply.None? && (f.kind.Approving? || (f.kind.Calling? && r.pending.None?))
  }

  lemma DropsExactly(b: Bridge, e: Event)
    ensures Next(b, e).dropped ==
              if e.Settle? && b.active && b.flight.Some? && Silent(b.flight.value, e.response)
              then b.dropped + [b.flight.value.token] else b.dropped
  {
  }

  /** No response of the run is silent. */
  predicate Speaks(first: nat, events: seq<Event>) {
    events == [] ||
    (var b := Run(Fresh(first), events[..|events| - 1]);
     var e := events[|events| - 1];
     && Speaks(first, events[..|events| - 1])
     && !(e.Settle? && b.active && b.flight.Some? && Silent(b.flight.value, e.response)))
  }

  lemma {:induction false} NothingIsDroppedExactly(first: nat, events: seq<Event>)
    ensures Run(Fresh(first), events).dropped == [] <==> Speaks(first, events)
  {
    if events != [] {
      var init := events[..|events| - 1];
      NothingIsDroppedExactly(first, init);
      DropsExactly(Run(Fresh(first), init), events[|events| - 1]);
    }
  }

  /**
   When core always speaks, a bridge at rest owes nothing: every call was answered once, or the
   bridge was disposed before.
   */
  lemma AtRestEveryCallIsAnswered(first: nat, events: seq<Event>, t: Token)
    requires Speaks(first, events)
    requires var b := Run(Fresh(first), events); t < b.arrivals && b.flight.None? && b.waiting.None?
    ensures var b := Run(Fresh(first), events);
            Count(AnsweredTokens(b.answers), t) + Count(b.discarded, t) == 1
            && (b.active ==> Count(AnsweredTokens(b.answers), t) == 1)
  {
    EveryCallIsInOnePlace(first, events, t);
    QueueIsBounded(first, events);
    NothingIsDroppedExactly(first, events);
    DiscardsNeedDisposal(first, events);
  }

  lemma {:induction false} DiscardsNeedDisposal(first: nat, events: seq<Event>)
    ensures Run(Fresh(first), events).active ==> Run(Fresh(first), events).discarded == []
  {
    if events != [] {
      DiscardsNeedDisposal(first, events[..|events| - 1]);
      DiscardStep(Run(Fresh(first), events[..|events| - 1]), events[|events| - 1]);
    }
  }

  predicate KeepsDiscarded(b: Bridge, b': Bridge) {
    b'.active ==> b.active && b'.discarded == b.discarded
  }

  lemma DrainDiscards(b: Bridge)
    ensures Drained(b).active == b.active && Drained(b).discarded == b.discarded && Drained(b).dropped == b.dropped
  {
  }

  lemma SettleDiscards(b: Bridge, r: Response)
    requires b.flight.Some?
    ensures KeepsDiscarded(b, BeforeDrain(b, r))
  {
  }

  lemma DiscardStep(b: Bridge, e: Event)
    ensures KeepsDiscarded(b, Next(b, e))
  {
    match e
    case Settle(r) =>
      if b.flight.Some? {
        SettleDiscards(b, r);
        DrainDiscards(BeforeDrain(b, r));
      }
    case Message => DrainDiscards(b.(arrivals := b.arrivals + 1, queue := b.queue + [b.arrivals]));
    case _ =>
  }

  lemma {:induction false} DroppedStays(first: nat, events: seq<Event>, more: seq<Event>, t: Token)
    requires t in Run(Fresh(first), events).dropped
    ensures t in Run(Fresh(first), events + more).dropped
  {
    if more == [] {
      assert events + more == events;
    } else {
      var init, e := more[..|more| - 1], more[|more| - 1];
      DroppedStays(first, events, init, t);
      assert (events + more)[..|events + more| - 1] == events + init;
      DropsExactly(Run(Fresh(first), events + init), e);
    }
  }

  lemma {:induction false} CountIsMembership(s: seq<Token>, t: Token)
    ensures Count(s, t) > 0 <==> t in s
  {
    if s != [] {
      assert s == [s[0]] + s[1..];
      CountIsMembership(s[1..], t);
    }
  }

  predicate Unanswered(b: Bridge, t: Token) {
    t !in AnsweredTokens(b.answers)
  }

  /** However the run goes on, no answer is posted for the call. */
  ghost predicate NeverAnswered(first: nat, events: seq<Event>, t: Token) {
    forall more: seq<Event> :: Unanswered(Run(Fresh(first), events + more), t)
  }

  lemma DroppedIsNeverAnswered(first: nat, events: seq<Event>, t: Token)
    requires t in Run(Fresh(first), events).dropped
    ensures NeverAnswered(first, events, t)
  {
    forall more: seq<Event> ensures Unanswered(Run(Fresh(first), events + more), t) {
      DroppedStays(first, events, more, t);
      DroppedIsUnanswered(first, events + more, t);
    }
  }

  lemma DroppedIsUnanswered(first: nat, events: seq<Event>, t: Token)
    requires t in Run(Fresh(first), events).dropped
    ensures Unanswered(Run(Fresh(first), events), t)
  {
    var b := Run(Fresh(first), events);
    EveryCallIsInOnePlace(first, events, t);
    CountIsMembership(b.dropped, t);
    CountIsMembership(AnsweredTokens(b.answers), t);
  }

  lemma RunThen(b: Bridge, events: seq<Event>, e: Event)
    ensures Run(b, events + [e]) == Next(Run(b, events), e)
  {
    assert (events + [e])[..|events|] == events;
  }

  predicate WaitsFor(b: Bridge, pendingId: string) {
    b.active && b.waiting.Some? && b.waiting.value.pendingId == pendingId
  }

  /** Only the approval is on its way. */
  predicate Flies(b: Bridge, f: Flight) {
    b.active && b.waiting.None? && b.queue == [] && b.flight == Some(f)
  }

  /** The bridge is active and waits for nothing, but the call was dropped. */
  predicate Forgot(b: Bridge, t: Token) {
    b.active && b.flight.None? && b.waiting.None? && t in b.dropped
  }

  ghost predicate Forgotten(first: nat, events: seq<Event>, t: Token) {
    Forgot(Run(Fresh(first), events), t) && NeverAnswered(first, events, t)
  }

  lemma ApprovedFlies(first: nat, events: seq<Event>, pendingId: string)
    requires WaitsFor(Run(Fresh(first), events), pendingId)
    ensures var b := Run(Fresh(first), events);
            Flies(Run(Fresh(first), events + [Approve(pendingId)]),
              Flight(Approving, b.waiting.value.token, b.sequence))
  {
    QueueIsBounded(first, events);
    RunThen(Fresh(first), events, Approve(pendingId));
  }

  lemma SilentStep(b: Bridge, f: Flight, r: Response)
    requires Flies(b, f) && f.kind.Approving? && Silent(f, r)
    ensures Forgot(Next(b, Settle(r)), f.token)
  {
  }

  lemma ForgottenForGood(first: nat, before: seq<Event>, events: seq<Event>, e: Event, t: Token)
    requires events == before + [e] && Forgot(Next(Run(Fresh(first), before), e), t)
    ensures Forgotten(first, events, t)
  {
    RunThen(Fresh(first), before, e);
    DroppedIsNeverAnswered(first, events, t);
  }

  lemma SilenceForgets(first: nat, events: seq<Event>, f: Flight, r: Response)
    requires Flies(Run(Fresh(first), events), f) && f.kind.Approving? && Silent(f, r)
    ensures Forgotten(first, events + [Settle(r)], f.token)
  {
    SilentStep(Run(Fresh(first), events), f, r);
    ForgottenForGood(first, events, events + [Settle(r)], Settle(r), f.token);
  }

  lemma FirstCallFlies(first: nat)
    ensures Flies(Run(Fresh(first), [Attach] + [Message]), Flight(Calling, 0, first))
  {
    RunThen(Fresh(first), [], Attach);
    assert [] + [Attach] == [Attach];
    RunThen(Fresh(first), [Attach], Message);
  }

  /** A first call whose response asks for approval. */
  lemma ApprovalIsAsked(first: nat, pendingId: string)
    ensures WaitsFor(Run(Fresh(first), [Attach] + [Message] + [Settle(Response(first + 1, None, Some(pendingId)))]),
            pendingId)
  {
    FirstCallFlies(first);
    RunThen(Fresh(first), [Attach] + [Message], Settle(Response(first + 1, None, Some(pendingId))));
  }

  /**
   A response with exactly one of reply and pending is not enough. When the answer to an approval
   asks for another approval the bridge waits for nothing, and however the run goes on the call is
   never answered.
   */
  lemma ApprovalAskedAgain(first: nat, events: seq<Event>, pendingId: string, again: string)
    requires WaitsFor(Run(Fresh(first), events), pendingId)
    ensures var b := Run(Fresh(first), events);
            Forgotten(first, events + [Approve(pendingId)] + [Settle(Response(b.sequence + 1, None, Some(again)))],
                      b.waiting.value.token)
  {
    var b := Run(Fresh(first), events);
    var f := Flight(Approving, b.waiting.value.token, b.sequence);
    ApprovedFlies(first, events, pendingId);
    SilenceForgets(first, events + [Approve(pendingId)], f, Response(b.sequence + 1, None, Some(again)));
  }

  // ---------------------------------------------------------------- the object

  class PluginIsolatedBridge {
    var sequence: nat
    var port: bool
    var active: bool
    var running: bool
    var queue: seq<Token>
    var waiting: Option<Waiting>
    // The suspended continuation and everything the bridge emitted.
    var flight: Option<Flight>
    var requests: seq<Request>
    var answers: seq<Answer>
    ghost var discarded: seq<Token>
    ghost var dropped: seq<Token>
    var arrivals: nat

    ghost function View(): Bridge
      reads this
    {
      Bridge(sequence, port, active, running, queue, waiting, flight, requests, answers, discarded, dropped, arrivals)
    }

    constructor (first: nat)
      ensures View() == Fresh(first)
    {
      sequence, port, active, running, queue, waiting := first, false, true, false, [], None;
      flight, requests, answers, discarded, dropped, arrivals := None, [], [], [], [], 0;
    }

    method AttachPort()
      modifies this
      ensures View() == old(Next(View(), Attach))
    {
      if active && !port {
        port := true;
      }
    }

    method Receive()
      modifies this
      ensures View() == old(Messaged(View()))
    {
      if !port || !active {
        return;
      }
      var token := arrivals;
      arrivals := arrivals + 1;
      if waiting.Some? || |queue| >= MAX_QUEUED {
        Post(token, Busy);
        return;
      }
      queue := queue + [token];
      Drain();
    }

    method Post(token: Token, outcome: Outcome)
      modifies this
      ensures View() == old(Answered(View(), token, outcome))
    {
      answers := answers + [Answer(token, outcome)];
    }

    method SendRequest(action: Action) returns (number: nat)
      modifies this
      ensures View() == old(Sent(View(), action)) && number == old(sequence)
    {
      number := sequence;
      sequence := sequence + 1;
      requests := requests + [Request(number, action)];
    }

    method Drain()
      modifies this
      ensures View() == old(Drained(View()))
    {
      if !active || running || waiting.Some? || queue == [] {
        return;
      }
      var call := queue[0];
      queue := queue[1..];
      running := true;
      var number := SendRequest(CallAction(call));
      flight := Some(Flight(Calling, call, number));
    }

    method DecidePending(pendingId: string, kind: Kind)
      requires !kind.Calling?
      modifies this
      ensures View() == old(Decided(View(), pendingId, kind))
    {
      if !active || running || waiting.None? || waiting.value.pendingId != pendingId {
        return;
      }
      var token := waiting.value.token;
      running := true;
      waiting := None;
      var number := SendRequest(if kind.Approving? then ApproveAction(pendingId) else CancelAction(pendingId));
      flight := Some(Flight(kind, token, number));
    }

    method DisposeBridge()
      modifies this
      ensures View() == old(Disposed(View()))
    {
      if !active {
        return;
      }
      discarded := discarded + queue + Held(View()) + Flying(View());
      active := false;
      port := false;
      queue := [];
      waiting := None;
      var _ := SendRequest(Deactivate);
    }

    method FlushQueue()
      modifies this`queue, this`answers
      ensures queue == [] && answers == old(answers) + AllBusy(old(queue))
    {
      var i := 0;
      while i < |queue|
        invariant 0 <= i <= |queue| && queue == old(queue)
        invariant answers == old(answers) + AllBusy(queue[..i])
      {
        assert AllBusy(queue[..i + 1]) == AllBusy(queue[..i]) + [Answer(queue[i], Busy)];
        answers := answers + [Answer(queue[i], Busy)];
        i := i + 1;
      }
      assert queue[..i] == queue;
      queue := [];
    }

    method Handle(f: Flight, r: Response)
      requires r.Response?
      modifies this
      ensures View() == old(Handled(View(), f, r))
    {
      flight := None;
      if f.kind.Cancelling? {
        Post(f.token, Cancelled);
      } else if f.kind.Calling? && r.pending.Some? {
        waiting := Some(Waiting(f.token, r.pending.value));
        FlushQueue();
      } else if r.reply.Some? {
        Post(f.token, FromCore(r.reply.value));
      } else {
        dropped := dropped + [f.token];
      }
    }

    method Resume(r: Response)
      modifies this
      ensures View() == old(Settled(View(), r))
    {
      if flight.None? {
        return;
      }
      var f := flight.value;
      if !Accepted(f, r) {
        DisposeBridge();
        flight := None;
      } else if !active {
        flight := None;
      } else {
        Handle(f, r);
      }
      running := false;
      Drain();
    }

    method HandleEvent(e: Event)
      modifies this
      ensures View() == old(Next(View(), e))
    {
      match e
      case Attach => AttachPort();
      case Message => Receive();
      case MessageError =>
        if port {
          DisposeBridge();
        }
      case Approve(p) => DecidePending(p, Approving);
      case Cancel(p) => DecidePending(p, Cancelling);
      case Dispose => DisposeBridge();
      case Settle(r) => Resume(r);
    }

    /** Any run of events: every call is in one place, the queue is bounded and requests are in order. */
    method HandleEvents(first: nat, events: seq<Event>)
      requires View() == Fresh(first)
      modifies this
      ensures View() == Run(Fresh(first), events)
      ensures Shaped(View()) && Numbered(View(), first) && ClosedLast(View()) && InOrder(View())
      ensures forall t: Token :: Places(View(), t) == if t < arrivals then 1 else 0
    {
      for i := 0 to |events|
        invariant View() == Run(Fresh(first), events[..i])
      {
        assert events[..i + 1][..i] == events[..i];
        HandleEvent(events[i]);
      }
      assert events[..|events|] == events;
      QueueIsBounded(first, events);
      RunKeepsNumbers(first, events);
      forall t: Token
        ensures Places(View(), t) == if t < arrivals then 1 else 0
      {
        EveryCallIsInOnePlace(first, events, t);
      }
    }
  }
}
