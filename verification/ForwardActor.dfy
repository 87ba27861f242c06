/** The session task: one summary updated in place, published after every change a watcher may see. */
module ForwardActor {
  import opened Basics
  import opened ForwardSession

  class SessionActor {
    const rule: Rule
    const limit: nat
    var summary: Summary
    var phase: Phase
    var children: set<nat>
    var nextChild: nat
    var toTarget: nat
    var toListener: nat
    ghost var published: seq<Summary>
    ghost var resources: seq<Resource>

    constructor (rule: Rule, limit: nat)
      ensures View() == Fresh(rule, limit)
    {
      this.rule, this.limit := rule, limit;
      summary := FirstSummary;
      phase, children, nextChild, toTarget, toListener := Connecting, {}, 0, 0, 0;
      published, resources := [FirstSummary], [];
    }

    ghost function View(): Actor
      reads this
    {
      Actor(rule, limit, summary, phase, children, nextChild, toTarget, toListener, published, resources)
    }

    method PublishSummary()
      modifies this`published
      ensures View() == old(Publish(View(), summary))
    {
      published := published + [summary];
    }

    method TransitionTo(state: State)
      modifies this`summary
      ensures summary == old(Transition(summary, state))
    {
      summary := summary.(state := state);
      if summary.revision < MAX_REVISION {
        summary := summary.(revision := summary.revision + 1);
      }
    }

    method FailWith(code: Code)
      modifies this`summary
      ensures summary == old(FailSummary(summary, code))
    {
      summary := summary.(failure := Some(code));
      TransitionTo(Failed);
    }

    method RecordChildResult(failure: Option<Code>)
      modifies this`summary
      ensures summary == old(RecordChild(summary, failure))
    {
      if summary.childCount > 0 {
        summary := summary.(childCount := summary.childCount - 1);
      }
      summary := summary.(revision := Bump(summary.revision));
      if failure.Some? {
        summary := summary.(lastChildFailure := failure);
      }
    }

    method SyncTrafficSummary()
      modifies this`summary, this`published
      ensures old(phase.Listening?) ==> View() == old(Step(View(), Tick))
    {
      if toTarget != summary.toTarget || toListener != summary.toListener {
        summary := summary.(toTarget := toTarget, toListener := toListener, revision := Bump(summary.revision));
        PublishSummary();
      }
    }

    /** Accounts for the children that joined or were given up, then disconnects the transport. */
    method FinishClearing(end: End)
      modifies this
      ensures View() == old(Cleared(View(), end))
    {
      summary := summary.(cleanup := summary.cleanup.(abandoned := |children|));
      if children != {} {
        summary := summary.(cleanup := summary.cleanup.(uncertain := true));
      }
      summary := summary.(childCount := 0,
                          cleanup := summary.cleanup.(children := if summary.cleanup.abandoned == 0 then Complete
                            else Uncertain));
      PublishSummary();
      resources := resources + [Disconnected];
      phase := Disconnecting(end);
    }

    method ClearChildren(end: End)
      modifies this
      ensures View() == old(Clear(View(), end))
    {
      resources := resources + [ChildrenAborted];
      phase := Clearing(end);
      if children == {} {
        FinishClearing(end);
      }
    }

    method CleanUp(end: End)
      modifies this
      ensures View() == old(BeginCleanup(View(), end))
    {
      if rule.Remote? && !end.SetupEnd? && summary.bind.Some? && summary.bind.value.RemoteBind? {
        resources := resources + [Cancelled(summary.bind.value.address, summary.bind.value.port)];
        phase := CancelPending(end);
        return;
      }
      if summary.bind.Some? {
        summary := summary.(cleanup := summary.cleanup.(listener := Complete));
      }
      PublishSummary();
      ClearChildren(end);
    }

    method RecordCancel(end: End, ok: bool)
      modifies this
      ensures View() == old(CancelEnded(View(), end, ok))
    {
      if ok {
        summary := summary.(cleanup := summary.cleanup.(listener := Complete));
      } else {
        summary := summary.(cleanup := summary.cleanup.(listener := Uncertain, uncertain := true));
      }
      PublishSummary();
      ClearChildren(end);
    }

    method RecordDisconnect(end: End, ok: bool)
      modifies this
      ensures View() == old(DisconnectEnded(View(), end, ok))
    {
      if ok {
        summary := summary.(cleanup := summary.cleanup.(transport := Complete));
      } else {
        summary := summary.(cleanup := summary.cleanup.(transport := Uncertain, uncertain := true));
      }
      match end {
        case StopEnd(generation) =>
          if generation != summary.generation {
            FailWith(StaleGeneration);
          } else if summary.cleanup.uncertain {
            FailWith(CleanupUncertain);
          } else {
            TransitionTo(Stopped);
          }
        case FailedEnd(code) => FailWith(code);
        case SetupEnd(code) => FailWith(code);
      }
      PublishSummary();
      phase := Over;
    }

    method WhileConnecting(e: Event)
      modifies this
      ensures View() == old(Connected(View(), e))
    {
      if e.StopRequested? {
        TransitionTo(Stopping);
        PublishSummary();
        TransitionTo(Stopped);
        PublishSummary();
        phase := Over;
      } else if e.ConnectEnds? {
        if e.failure.Some? {
          FailWith(e.failure.value);
          PublishSummary();
          phase := Over;
        } else {
          resources := resources + [Obtained];
          phase := Preparing;
        }
      }
    }

    method WhilePreparing(e: Event)
      modifies this
      ensures View() == old(Prepared(View(), e))
    {
      if e.PrepareEnds? {
        if e.result.Failure? {
          if rule.Remote? && e.result.error.RemoteRegistrationUncertain? {
            summary := summary.(cleanup := summary.cleanup.(listener := Uncertain, uncertain := true));
          }
          CleanUp(SetupEnd(e.result.error));
          return;
        }
        var port := e.result.value;
        if rule.Remote? {
          resources := resources + [Registered(rule.address, port)];
        }
        summary := summary.(bind := Some(if rule.Remote? then RemoteBind(rule.address, port) else LocalBind(port)));
        TransitionTo(Running);
        PublishSummary();
        phase := Listening;
      }
    }

    method EnterStopping(end: End)
      modifies this
      ensures View() == old(Stop(View(), end))
    {
      TransitionTo(Stopping);
      PublishSummary();
      CleanUp(end);
    }

    method WhileListening(e: Event)
      requires phase.Listening?
      modifies this
      ensures View() == old(Listened(View(), e))
    {
      match e {
        case StopRequested(generation) => EnterStopping(StopEnd(generation));
        case ListenerEnds(code) => EnterStopping(FailedEnd(code));
        case ChildArrives =>
          if |children| < limit {
            children := children + {nextChild};
            nextChild := nextChild + 1;
            summary := summary.(childCount := |children|, revision := Bump(summary.revision));
            PublishSummary();
          }
        case ChildEnds(child, failure) =>
          if child in children {
            children := children - {child};
            RecordChildResult(failure);
            PublishSummary();
          }
        case Tick => SyncTrafficSummary();
        case _ =>
      }
    }

    method WhileClearing(end: End, e: Event)
      requires phase == Clearing(end) && !e.Traffic?
      modifies this
      ensures View() == old(Step(View(), e))
    {
      if e.ShutdownDeadline? {
        FinishClearing(end);
      } else if e.ChildEnds? && e.child in children {
        children := children - {e.child};
        if children == {} {
          FinishClearing(end);
        }
      }
    }

    method Handle(e: Event)
      modifies this
      ensures View() == old(Step(View(), e))
    {
      if e.Traffic? {
        toTarget, toListener := toTarget + e.toTarget, toListener + e.toListener;
        return;
      }
      match phase {
        case Connecting => WhileConnecting(e);
        case Preparing => WhilePreparing(e);
        case Listening => WhileListening(e);
        case CancelPending(end) =>
          if e.CancelEnds? {
            RecordCancel(end, e.ok);
          }
        case Clearing(end) => WhileClearing(end, e);
        case Disconnecting(end) =>
          if e.DisconnectEnds? {
            RecordDisconnect(end, e.ok);
          }
        case Over =>
      }
    }

    /** Any finite stretch of a session's life, from its start. */
    method RunSession(events: seq<Event>)
      requires View() == Fresh(rule, limit)
      modifies this
      ensures View() == Run(Fresh(rule, limit), events) && Inv(View())
    {
      for i := 0 to |events|
        invariant View() == Run(Fresh(rule, limit), events[..i])
      {
        assert events[..i + 1][..i] == events[..i];
        Handle(events[i]);
      }
      assert events[..|events|] == events;
      RunKeepsInv(rule, limit, events);
    }
  }
}
