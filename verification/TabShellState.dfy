/** The shell's module-level variables, updated step by step across awaits. */
module TabShellState {
  import opened Basics
  import opened InputHistory
  import opened TabHeader
  import opened TabShell

  class WorkspaceTabShell {
    const replies: Replies
    var summaries: seq<Id>
    var activeId: Option<Id>
    var pendingId: Option<Id>
    var creatingTabIds: set<Id>
    var closingTabIds: set<Id>
    var owned: set<Id>
    var gone: set<Id>
    var clock: nat
    ghost var history: seq<Event>

    constructor (replies: Replies)
      ensures View() == Empty && this.replies == replies
    {
      this.replies := replies;
      summaries, activeId, pendingId := [], None, None;
      creatingTabIds, closingTabIds, owned, gone := {}, {}, {}, {};
      clock, history := 0, [];
    }

    ghost function View(): Shell
      reads this
    {
      Shell(summaries, activeId, pendingId, creatingTabIds, closingTabIds, owned, gone, history, clock)
    }

    method AwaitReply() returns (ok: bool)
      modifies this
      ensures Done(View(), ok) == old(Await(replies, View()))
    {
      var r := replies(clock);
      var leaving := r.leaving - creatingTabIds;
      clock := clock + 1;
      gone := gone + leaving;
      owned := (owned - leaving) + (r.arriving - gone);
      closingTabIds := closingTabIds - leaving;
      summaries := Listed(Without(summaries, leaving), r.listed, owned - creatingTabIds);
      if activeId.Some? && activeId.value in leaving {
        activeId := None;
      }
      history := history + [Left(leaving)];
      return r.ok;
    }

    method Deactivate(v: Id) returns (ok: bool)
      modifies this
      ensures Done(View(), ok) == old(DeactivateView(replies, View(), v))
    {
      ok := AwaitReply();
      history := history + [if ok then Released(v) else ReleaseFailed(v)];
    }

    method ReleaseActiveView() returns (ok: bool)
      modifies this
      ensures Done(View(), ok) == old(ReleaseActive(replies, View()))
    {
      ok := true;
      if activeId.Some? && activeId.value in summaries {
        ok := Deactivate(activeId.value);
      }
    }

    method RequestViewActivation(v: Id) returns (ok: bool)
      modifies this
      ensures Activation(View(), ok, true) == old(RequestActivation(replies, View(), v))
    {
      if v in owned {
        history := history + [Dispatched(v)];
      }
      ok := AwaitReply();
      if ok {
        activeId := Some(v);
        ok := AwaitReply();
      }
    }

    method ShowAndActivateView(v: Id) returns (ok: bool, dispatched: bool)
      modifies this
      ensures Activation(View(), ok, dispatched) == old(ShowAndActivate(replies, View(), v))
    {
      var mine := v in owned;
      var shown := AwaitReply();
      if !shown || !mine {
        return false, false;
      }
      ok := RequestViewActivation(v);
      dispatched := true;
    }

    method CloseSelection()
      modifies this
      ensures View() == old(CloseInput(replies, View()))
    {
      activeId := None;
      var _ := AwaitReply();
    }

    method RestorePreviousView(previous: Option<Id>)
      modifies this
      ensures View() == old(RestorePrevious(replies, View(), previous))
    {
      if previous.Some? {
        var ok, dispatched := ShowAndActivateView(previous.value);
        if ok {
          return;
        }
        if dispatched {
          var _ := Deactivate(previous.value);
        }
      }
      CloseSelection();
    }

    method ActivateView(v: Id) returns (ok: bool)
      modifies this
      ensures Done(View(), ok) == old(ActivateNow(replies, View(), v))
    {
      var previous := activeId;
      var released := false;
      if previous.Some? && previous != Some(v) {
        released := ReleaseActiveView();
        if !released {
          return false;
        }
      }
      var dispatched: bool;
      ok, dispatched := ShowAndActivateView(v);
      if ok {
        return;
      }
      if dispatched {
        var undone := Deactivate(v);
        if !undone {
          CloseSelection();
          return false;
        }
      }
      RestorePreviousView(if released then previous else None);
    }

    method DeactivateSelection() returns (ok: bool)
      modifies this
      ensures Done(View(), ok) == old(LeaveActive(replies, View()))
    {
      if activeId.None? {
        return true;
      }
      ok := ReleaseActiveView();
      if ok {
        activeId := None;
      }
    }

    method ShowShellRoute() returns (ok: bool)
      modifies this
      ensures Done(View(), ok) == old(ShowPage(replies, View()))
    {
      ok := DeactivateSelection();
      if !ok {
        return;
      }
      var navigated := AwaitReply();
      var hidden := AwaitReply();
      return navigated && hidden;
    }

    method HandOffClosingView(v: Id) returns (ok: bool)
      modifies this
      ensures Done(View(), ok) == old(HandOff(replies, View(), v))
    {
      if v !in summaries {
        return true;
      }
      closingTabIds := closingTabIds + {v};
      if activeId == Some(v) {
        var remaining := set w | w in summaries && w != v && w !in closingTabIds;
        var next := FallbackAfterRemoval(summaries, v, remaining);
        if next.Some? {
          ok := ActivateView(next.value);
        } else {
          ok := DeactivateSelection();
        }
        if !ok {
          return;
        }
      }
      ok := AwaitReply();
    }

    method BuildNewView(v: Id) returns (ok: bool, bootstrapStarted: bool, dispatched: bool)
      modifies this
      ensures forall released :: Creation(View(), ok, released, bootstrapStarted, dispatched)
                                 == old(BuildView(replies, View(), v, released))
    {
      bootstrapStarted, dispatched := false, false;
      ok := AwaitReply();
      if !ok {
        return;
      }
      var isNew := replies(clock).created;
      ok := AwaitReply();
      if !ok {
        return;
      }
      owned := owned + ({v} - gone);
      bootstrapStarted := isNew;
      ok := AwaitReply();
      if ok {
        ok, dispatched := ShowAndActivateView(v);
      }
    }

    method RetractTab(v: Id, replaced: Option<Id>, bootstrapStarted: bool)
      modifies this
      ensures View() == old(Retract(View(), v, replaced, bootstrapStarted))
    {
      pendingId := None;
      if replaced.Some? {
        summaries := ReplaceSummary(summaries, v, replaced.value);
      }
      if bootstrapStarted {
        summaries := SetSummary(summaries, v);
      } else {
        summaries := Without(summaries, {v});
        if activeId.Some? && activeId.value !in summaries {
          activeId := None;
        }
      }
    }

    method UndoCreation(ghost c: Creation, v: Id, previous: Option<Id>, replaced: Option<Id>,
                        released: bool, bootstrapStarted: bool, dispatched: bool)
      requires c == Creation(View(), false, released, bootstrapStarted, dispatched)
      modifies this
      ensures View() == CreateFailed(replies, c, v, previous, replaced)
    {
      RetractTab(v, replaced, bootstrapStarted);
      if dispatched {
        var restorable := Deactivate(v);
        if !restorable {
          CloseSelection();
          return;
        }
      }
      if released || previous.None? {
        RestorePreviousView(previous);
      } else {
        activeId := previous;
        var _ := AwaitReply();
      }
    }

    /** The `try` block of a creation. */
    method CreateNativeView(v: Id, previous: Option<Id>)
      returns (ok: bool, released: bool, bootstrapStarted: bool, dispatched: bool)
      modifies this
      ensures Creation(View(), ok, released, bootstrapStarted, dispatched)
              == old(CreateView(replies, View(), v, previous))
    {
      released, bootstrapStarted, dispatched := false, false, false;
      if previous.Some? && previous != Some(v) {
        released := Deactivate(previous.value);
        if !released {
          return false, false, false, false;
        }
      }
      ok, bootstrapStarted, dispatched := BuildNewView(v);
    }

    method CreateAnnounced(v: Id, replaced: Option<Id>) returns (ok: bool)
      modifies this
      ensures Done(View(), ok) == old(CreateNew(replies, View(), v, replaced))
    {
      var previous := activeId;
      AnnounceTab(v, replaced);
      var released, bootstrapStarted, dispatched;
      ok, released, bootstrapStarted, dispatched := CreateNativeView(v, previous);
      if ok {
        pendingId := None;
      } else {
        ghost var c := Creation(View(), ok, released, bootstrapStarted, dispatched);
        UndoCreation(c, v, previous, replaced, released, bootstrapStarted, dispatched);
      }
      creatingTabIds := creatingTabIds - {v};
    }

    method CreateManagedTab(v: Id, replacing: Option<Id>) returns (ok: bool)
      modifies this
      ensures Done(View(), ok) == old(CreateTab(replies, View(), v, replacing))
    {
      ok := AwaitReply();
      if !ok {
        return;
      }
      if v in summaries {
        ok := ActivateView(v);
      } else if v !in creatingTabIds {
        ok := CreateAnnounced(v, if replacing.Some? && replacing.value in summaries then replacing else None);
      }
    }

    method AnnounceTab(v: Id, replaced: Option<Id>)
      modifies this
      ensures View() == old(Announce(View(), v, replaced))
    {
      creatingTabIds := creatingTabIds + {v};
      summaries := if replaced.Some? then ReplaceSummary(summaries, replaced.value, v) else SetSummary(summaries, v);
      pendingId := Some(v);
      activeId := Some(v);
    }

    method PerformOperation(op: Operation)
      modifies this
      ensures View() == old(Perform(replies, View(), op))
    {
      match op
      case Activate(v) => var _ := ActivateView(v);
      case Create(v, replacing) => var _ := CreateManagedTab(v, replacing);
      case ShowShellPage => var _ := ShowShellRoute();
      case HandOffClosing(v) => var _ := HandOffClosingView(v);
      case Wait => var _ := AwaitReply();
    }

    /**
     The activation queue, from an empty shell. After operations that forget no holder, nobody was
     activated while another view held input, and only the active view holds input, up to failed releases.
     */
    method RunOperations(ops: seq<Operation>)
      requires View() == Empty
      modifies this
      ensures View() == Run(replies, Empty, ops)
      ensures SoundRun(replies, Empty, ops) ==> Inv(View()) && NoOverlap(history)
      ensures SoundRun(replies, Empty, ops) ==>
                forall v | v in Holding(history) && activeId != Some(v) :: v in Unreleased(history)
    {
      for i := 0 to |ops|
        invariant View() == Run(replies, Empty, ops[..i])
      {
        assert ops[..i + 1][..i] == ops[..i];
        PerformOperation(ops[i]);
      }
      assert ops[..|ops|] == ops;
      if SoundRun(replies, Empty, ops) {
        RunKeepsInv(replies, ops);
      }
    }
  }
}
