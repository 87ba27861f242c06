/**
 The window shell that hands terminal input from one native Tab view to another. Operations are
 serialized by the activation queue. Inside one operation every request to a view or to the
 native layer may fail and the shell rolls back; while it waits, views may leave the window for
 good, arrive from elsewhere or get their Header summary. Consecutive awaits with no change of
 shell state between them are one await here.
 */
module TabShell {
  import opened Basics
  import opened InputHistory
  import opened TabHeader

  /** What one await brings: its result, and what happened to the window meanwhile. */
  datatype Reply = Reply(ok: bool, created: bool, leaving: set<Id>, arriving: set<Id>, listed: seq<Id>)

  type Replies = nat -> Reply

  datatype Shell = Shell(
    summaries: seq<Id>,
    active: Option<Id>,
    pending: Option<Id>,
    creating: set<Id>,
    closing: set<Id>,
    // Views in this window, and views that have left it.
    owned: set<Id>,
    gone: set<Id>,
    history: seq<Event>,
    // Number of awaits so far.
    clock: nat)

  const Empty := Shell([], None, None, {}, {}, {}, {}, [], 0)

  datatype Done = Done(s: Shell, ok: bool)
  datatype Activation = Activation(s: Shell, ok: bool, dispatched: bool)

  datatype Operation =
    | Activate(id: Id)
    | Create(id: Id, replacing: Option<Id>)
    | ShowShellPage
    | HandOffClosing(id: Id)
    | Wait

  // ---------------------------------------------------------------- awaits and requests

  function Listed(ss: seq<Id>, ids: seq<Id>, owned: set<Id>): seq<Id>
    decreases |ids|
  {
    if ids == [] then ss
    else Listed(if ids[0] in owned then SetSummary(ss, ids[0]) else ss, ids[1..], owned)
  }

  function Record(s: Shell, e: Event): Shell {
    s.(history := s.history + [e])
  }

  /** A view that is being created is not among the views a refresh can lose. */
  function Await(o: Replies, s: Shell): Done {
    var r := o(s.clock);
    var leaving := r.leaving - s.creating;
    var gone := s.gone + leaving;
    var owned := (s.owned - leaving) + (r.arriving - gone);
    Done(Record(s.(clock := s.clock + 1, gone := gone, owned := owned, closing := s.closing - leaving,
                   summaries := Listed(Without(s.summaries, leaving), r.listed, owned - s.creating),
                   active := if s.active.Some? && s.active.value in leaving then None else s.active),
                Left(leaving)),
         r.ok)
  }

  function DeactivateView(o: Replies, s: Shell, v: Id): Done {
    var waited := Await(o, s);
    Done(Record(waited.s, if waited.ok then Released(v) else ReleaseFailed(v)), waited.ok)
  }

  /** A view without a summary counts as moved away and is not asked to release. */
  function ReleaseActive(o: Replies, s: Shell): Done {
    if s.active.Some? && s.active.value in s.summaries then DeactivateView(o, s, s.active.value) else Done(s, true)
  }

  function Dispatch(s: Shell, v: Id): Shell {
    if v in s.owned then Record(s, Dispatched(v)) else s
  }

  /** Sends the activation; the selection is committed only after the view's own reply. */
  function RequestActivation(o: Replies, s: Shell, v: Id): Activation {
    var replied := Await(o, Dispatch(s, v));
    if !replied.ok then Activation(replied.s, false, true)
    else
      var focused := Await(o, replied.s.(active := Some(v)));
      Activation(focused.s, focused.ok, true)
  }

  /** Core rejects showing a view this window does not own. */
  function ShowAndActivate(o: Replies, s: Shell, v: Id): Activation {
    var shown := Await(o, s);
    if !shown.ok || v !in s.owned then Activation(shown.s, false, false) else RequestActivation(o, shown.s, v)
  }

  function CloseInput(o: Replies, s: Shell): Shell {
    Await(o, s.(active := None)).s
  }

  function RestorePrevious(o: Replies, s: Shell, previous: Option<Id>): Shell {
    if previous.None? then CloseInput(o, s)
    else
      var again := ShowAndActivate(o, s, previous.value);
      if again.ok then again.s
      else if again.dispatched then CloseInput(o, DeactivateView(o, again.s, previous.value).s)
      else CloseInput(o, again.s)
  }

  // ---------------------------------------------------------------- operations

  /** After the target could not be activated: take its input back, then restore the released view. */
  function RollBack(o: Replies, a: Activation, v: Id, previous: Option<Id>): Shell {
    if !a.dispatched then RestorePrevious(o, a.s, previous)
    else
      var undone := DeactivateView(o, a.s, v);
      if undone.ok then RestorePrevious(o, undone.s, previous) else CloseInput(o, undone.s)
  }

  function ActivateNow(o: Replies, s: Shell, v: Id): Done {
    var previous := s.active;
    var changing := previous.Some? && previous != Some(v);
    var released := if changing then ReleaseActive(o, s) else Done(s, true);
    if !released.ok then released
    else
      var a := ShowAndActivate(o, released.s, v);
      if a.ok then Done(a.s, true)
      else Done(RollBack(o, a, v, if changing then previous else None), false)
  }

  function LeaveActive(o: Replies, s: Shell): Done {
    if s.active.None? then Done(s, true)
    else
      var released := ReleaseActive(o, s);
      if released.ok then Done(released.s.(active := None), true) else released
  }

  /** Navigation may fail; the leaving view is hidden either way. */
  function ShowPage(o: Replies, s: Shell): Done {
    var left := LeaveActive(o, s);
    if !left.ok then left
    else
      var navigated := Await(o, left.s);
      var hidden := Await(o, navigated.s);
      Done(hidden.s, navigated.ok && hidden.ok)
  }

  function HandOff(o: Replies, s: Shell, v: Id): Done {
    if v !in s.summaries then Done(s, true)
    else
      var s1 := s.(closing := s.closing + {v});
      if s1.active != Some(v) then Await(o, s1)
      else
        var remaining := set w | w in s1.summaries && w != v && w !in s1.closing;
        var next := Fallback(s1.summaries, v, remaining);
        var moved := if next.Some? then ActivateNow(o, s1, next.value) else LeaveActive(o, s1);
        if moved.ok then Await(o, moved.s) else moved
  }

  /** The Header shows the new Tab at once, before its view exists. */
  function Announce(s: Shell, v: Id, replaced: Option<Id>): Shell {
    s.(creating := s.creating + {v}, pending := Some(v), active := Some(v),
       summaries := if replaced.Some? then ReplaceSummary(s.summaries, replaced.value, v)
         else SetSummary(s.summaries, v))
  }

  datatype Creation = Creation(s: Shell, ok: bool, released: bool, bootstrapStarted: bool, dispatched: bool)

  /** Waits for the new view's content, then shows it. */
  function StartView(o: Replies, s: Shell, v: Id, released: bool, isNew: bool): Creation {
    var started := Await(o, s);
    if !started.ok then Creation(started.s, false, released, isNew, false)
    else
      var a := ShowAndActivate(o, started.s, v);
      Creation(a.s, a.ok, released, isNew, a.dispatched)
  }

  /** The part of a creation after the previous view released its input. */
  function BuildView(o: Replies, s: Shell, v: Id, released: bool): Creation {
    var covered := Await(o, s);
    if !covered.ok then Creation(covered.s, false, released, false, false)
    else
      var isNew := o(covered.s.clock).created;
      var created := Await(o, covered.s);
      if !created.ok then Creation(created.s, false, released, false, false)
      else StartView(o, created.s.(owned := created.s.owned + ({v} - created.s.gone)), v, released, isNew)
  }

  /** The `try` block of a creation, from the announced state on. */
  function CreateView(o: Replies, s: Shell, v: Id, previous: Option<Id>): Creation {
    if previous.Some? && previous != Some(v) then
      var released := DeactivateView(o, s, previous.value);
      if released.ok then BuildView(o, released.s, v, true) else Creation(released.s, false, false, false, false)
    else
      BuildView(o, s, v, false)
  }

  /** A Tab that may own resources keeps its Header place; another one leaves the Header. */
  function Retract(s: Shell, v: Id, replaced: Option<Id>, bootstrapStarted: bool): Shell {
    var back := if replaced.Some? then ReplaceSummary(s.summaries, v, replaced.value) else s.summaries;
    var ss := if bootstrapStarted then SetSummary(back, v) else Without(back, {v});
    s.(pending := None, summaries := ss,
       active := if !bootstrapStarted && s.active.Some? && s.active.value !in ss then None else s.active)
  }

  /** The `catch` block of a creation. */
  function CreateFailed(o: Replies, c: Creation, v: Id, previous: Option<Id>, replaced: Option<Id>): Shell {
    var s := Retract(c.s, v, replaced, c.bootstrapStarted);
    var undone := if c.dispatched then DeactivateView(o, s, v) else Done(s, true);
    if !undone.ok then CloseInput(o, undone.s)
    else if c.released || previous.None? then RestorePrevious(o, undone.s, previous)
    else Await(o, undone.s.(active := previous)).s
  }

  function CreateNew(o: Replies, s: Shell, v: Id, replaced: Option<Id>): Done {
    var c := CreateView(o, Announce(s, v, replaced), v, s.active);
    var s' := if c.ok then c.s.(pending := None) else CreateFailed(o, c, v, s.active, replaced);
    Done(s'.(creating := s'.creating - {v}), c.ok)
  }

  function CreateTab(o: Replies, s: Shell, v: Id, replacing: Option<Id>): Done {
    var started := Await(o, s);
    var s1 := started.s;
    if !started.ok then started
    else if v in s1.summaries then ActivateNow(o, s1, v)
    else if v in s1.creating then Done(s1, true)
    else
      CreateNew(o, s1, v, if replacing.Some? && replacing.value in s1.summaries then replacing else None)
  }

  function Perform(o: Replies, s: Shell, op: Operation): Shell {
    match op
    case Activate(v) => ActivateNow(o, s, v).s
    case Create(v, replacing) => CreateTab(o, s, v, replacing).s
    case ShowShellPage => ShowPage(o, s).s
    case HandOffClosing(v) => HandOff(o, s, v).s
    case Wait => Await(o, s).s
  }

  function Run(o: Replies, s: Shell, ops: seq<Operation>): Shell {
    if ops == [] then s else Perform(o, Run(o, s, ops[..|ops| - 1]), ops[|ops| - 1])
  }

  // ---------------------------------------------------------------- what every step keeps

  /** A view known to the Header, or known to have left. */
  predicate Placed(s: Shell, v: Id) {
    v in s.summaries || v in s.gone
  }

  ghost predicate Base(s: Shell) {
    NoOverlap(s.history) && Holding(s.history) <= s.owned && s.owned !! s.gone
  }

  /** `entitled` is the view that may hold input while an operation is under way. */
  ghost predicate Mid(s: Shell, entitled: Option<Id>) {
    Base(s) && Settled(s.history, entitled)
  }

  /** Everything the run claims, for the selection as it is. */
  ghost predicate Claim(s: Shell) {
    Mid(s, s.active)
  }

  ghost predicate Inv(s: Shell) {
    && Claim(s)
    && (s.active.Some? ==> Placed(s, s.active.value))
    && s.creating == {}
  }

  /** Header places and departures are only lost by leaving. */
  ghost predicate Onward(s: Shell, s': Shell) {
    && s.gone <= s'.gone
    && s'.creating == s.creating
    && (forall v | Placed(s, v) :: Placed(s', v))
    && (forall v | v in s.creating && v in s.summaries :: v in s'.summaries)
    && (forall v | v in s.creating && v !in s.gone :: v !in s'.gone)
  }

  lemma {:induction false} ListedKeeps(ss: seq<Id>, ids: seq<Id>, owned: set<Id>, v: Id)
    ensures v in ss ==> v in Listed(ss, ids, owned)
    decreases |ids|
  {
    if ids != [] {
      ListedKeeps(if ids[0] in owned then SetSummary(ss, ids[0]) else ss, ids[1..], owned, v);
    }
  }

  lemma AwaitOnward(o: Replies, s: Shell)
    ensures Onward(s, Await(o, s).s)
    ensures var a := Await(o, s).s.active; a == s.active || (a.None? && s.active.value in Await(o, s).s.gone)
  {
    var r := o(s.clock);
    var leaving := r.leaving - s.creating;
    forall v | v in s.summaries && v !in leaving
      ensures v in Await(o, s).s.summaries
    {
      WithoutMembers(s.summaries, leaving, v);
      ListedKeeps(Without(s.summaries, leaving), r.listed, Await(o, s).s.owned - s.creating, v);
    }
  }

  lemma AwaitKeeps(o: Replies, s: Shell, entitled: Option<Id>)
    requires Mid(s, entitled)
    ensures var s' := Await(o, s).s;
            && Mid(s', entitled)
            && Unreleased(s'.history) == Unreleased(s.history)
            && Holding(s'.history) == Holding(s.history) - (o(s.clock).leaving - s.creating)
  {
    HistoryAfter(s.history, Left(o(s.clock).leaving - s.creating));
  }

  /** Whether or not the view confirms, after a deactivation it is no longer entitled to input. */
  lemma DeactivateKeeps(o: Replies, s: Shell, v: Id, entitled: Option<Id>)
    requires Mid(s, entitled)
    ensures var d := DeactivateView(o, s, v);
            && Mid(d.s, if entitled == Some(v) then None else entitled)
            && Onward(s, d.s)
            && (d.s.active == s.active || (d.s.active.None? && s.active.value in d.s.gone))
            && v !in Holding(d.s.history) - Unreleased(d.s.history)
  {
    AwaitKeeps(o, s, entitled);
    AwaitOnward(o, s);
    var w := Await(o, s);
    HistoryAfter(w.s.history, if w.ok then Released(v) else ReleaseFailed(v));
  }

  lemma DispatchKeeps(s: Shell, v: Id, entitled: Option<Id>)
    requires Mid(s, entitled) && (entitled.None? || entitled == Some(v))
    ensures Mid(Dispatch(s, v), Some(v))
  {
    if v in s.owned {
      HistoryAfter(s.history, Dispatched(v));
    }
  }

  lemma OnwardTransitive(s1: Shell, s2: Shell, s3: Shell)
    requires Onward(s1, s2) && Onward(s2, s3)
    ensures Onward(s1, s3)
  {
  }

  lemma RequestKeeps(o: Replies, s: Shell, v: Id, entitled: Option<Id>)
    requires Mid(s, entitled) && (entitled.None? || entitled == Some(v))
    ensures var a := RequestActivation(o, s, v);
            && Mid(a.s, Some(v)) && Onward(s, a.s)
            && (a.ok ==> Mid(a.s, a.s.active) && (a.s.active == Some(v) || a.s.active.None?))
  {
    var sent := Dispatch(s, v);
    DispatchKeeps(s, v, entitled);
    AwaitKeeps(o, sent, Some(v));
    AwaitOnward(o, sent);
    var replied := Await(o, sent);
    if replied.ok {
      var chosen := replied.s.(active := Some(v));
      AwaitKeeps(o, chosen, Some(v));
      AwaitOnward(o, chosen);
      OnwardTransitive(s, replied.s, Await(o, chosen).s);
    }
  }

  lemma ShowKeeps(o: Replies, s: Shell, v: Id, entitled: Option<Id>)
    requires Mid(s, entitled) && (entitled.None? || entitled == Some(v))
    ensures var a := ShowAndActivate(o, s, v);
            && Mid(a.s, if a.dispatched then Some(v) else entitled)
            && (a.ok ==> a.dispatched)
            && Onward(s, a.s)
            && (a.ok ==> Mid(a.s, a.s.active) && (a.s.active == Some(v) || a.s.active.None?))
  {
    AwaitKeeps(o, s, entitled);
    AwaitOnward(o, s);
    var shown := Await(o, s);
    if shown.ok && v in s.owned {
      RequestKeeps(o, shown.s, v, entitled);
      OnwardTransitive(s, shown.s, RequestActivation(o, shown.s, v).s);
    }
  }

  lemma CloseKeeps(o: Replies, s: Shell)
    requires Mid(s, None)
    ensures var s' := CloseInput(o, s); Mid(s', None) && s'.active.None? && Onward(s, s')
  {
    AwaitKeeps(o, s.(active := None), None);
    AwaitOnward(o, s.(active := None));
  }

  lemma RestoreKeeps(o: Replies, s: Shell, previous: Option<Id>)
    requires Mid(s, None) && (previous.Some? ==> Placed(s, previous.value))
    ensures var s' := RestorePrevious(o, s, previous);
            Mid(s', s'.active) && (s'.active.Some? ==> Placed(s', s'.active.value)) && Onward(s, s')
  {
    if previous.None? {
      CloseKeeps(o, s);
    } else {
      var v := previous.value;
      ShowKeeps(o, s, v, None);
      var again := ShowAndActivate(o, s, v);
      if !again.ok {
        if again.dispatched {
          DeactivateKeeps(o, again.s, v, Some(v));
          CloseKeeps(o, DeactivateView(o, again.s, v).s);
        } else {
          CloseKeeps(o, again.s);
        }
      }
    }
  }

  lemma RollBackKeeps(o: Replies, a: Activation, v: Id, previous: Option<Id>)
    requires Mid(a.s, if a.dispatched then Some(v) else None)
    requires previous.Some? ==> Placed(a.s, previous.value)
    ensures var s' := RollBack(o, a, v, previous);
            Mid(s', s'.active) && (s'.active.Some? ==> Placed(s', s'.active.value)) && Onward(a.s, s')
  {
    if a.dispatched {
      DeactivateKeeps(o, a.s, v, Some(v));
      var undone := DeactivateView(o, a.s, v);
      if undone.ok {
        RestoreKeeps(o, undone.s, previous);
      } else {
        CloseKeeps(o, undone.s);
      }
    } else {
      RestoreKeeps(o, a.s, previous);
    }
  }

  lemma ReleaseKeeps(o: Replies, s: Shell)
    requires Mid(s, s.active) && (s.active.Some? ==> Placed(s, s.active.value))
    ensures var r := ReleaseActive(o, s);
            && Mid(r.s, None)
            && Onward(s, r.s)
            && (r.s.active == s.active || r.s.active.None?)
  {
    if s.active.Some? && s.active.value in s.summaries {
      DeactivateKeeps(o, s, s.active.value, s.active);
    }
  }

  // ---------------------------------------------------------------- activation

  /**
   The view that is already active is asked to activate again, and showing it fails before the
   request is sent. The shell then drops its selection without taking the view's input back.
   */
  predicate ForgetsHolder(o: Replies, s: Shell, v: Id) {
    && s.active == Some(v)
    && v in Holding(s.history) && v !in Unreleased(s.history)
    && !o(s.clock).ok
    && v !in o(s.clock).leaving - s.creating && v !in o(s.clock + 1).leaving - s.creating
  }

  lemma ActivateKeepsUnlessSame(o: Replies, s: Shell, v: Id)
    requires Inv(s) && s.active != Some(v)
    ensures var s' := ActivateNow(o, s, v).s;
            && Mid(s', s'.active) && Onward(s, s')
            && (Placed(s, v) && s'.active.Some? ==> Placed(s', s'.active.value))
  {
    var changing := s.active.Some?;
    var released := if changing then ReleaseActive(o, s) else Done(s, true);
    ReleaseKeeps(o, s);
    if released.ok {
      ShowKeeps(o, released.s, v, None);
      var a := ShowAndActivate(o, released.s, v);
      OnwardTransitive(s, released.s, a.s);
      if !a.ok {
        RollBackKeeps(o, a, v, if changing then s.active else None);
        OnwardTransitive(s, a.s, RollBack(o, a, v, if changing then s.active else None));
      }
    } else {
      assert Mid(released.s, released.s.active);
    }
  }

  /** Asking the active view again keeps the claim exactly when the shell does not forget a holder. */
  lemma ActivateSameExactly(o: Replies, s: Shell, v: Id)
    requires Claim(s) && s.active == Some(v)
    ensures var s' := ActivateNow(o, s, v).s;
            && Base(s') && Onward(s, s')
            && (Settled(s'.history, s'.active) <==> !ForgetsHolder(o, s, v))
            && (Placed(s, v) && s'.active.Some? ==> Placed(s', s'.active.value))
  {
    ShowKeeps(o, s, v, Some(v));
    var a := ShowAndActivate(o, s, v);
    if a.ok {
    } else if a.dispatched {
      RollBackKeeps(o, a, v, None);
      OnwardTransitive(s, a.s, RollBack(o, a, v, None));
      DispatchedMeansShown(o, s, v);
    } else {
      NotDispatched(o, s, v);
    }
  }

  lemma DispatchedMeansShown(o: Replies, s: Shell, v: Id)
    requires ShowAndActivate(o, s, v).dispatched
    ensures o(s.clock).ok
  {
  }

  lemma NotDispatched(o: Replies, s: Shell, v: Id)
    requires Claim(s) && s.active == Some(v) && !ShowAndActivate(o, s, v).dispatched
    ensures var s' := ActivateNow(o, s, v).s;
            && Base(s') && Onward(s, s') && s'.active.None?
            && (Settled(s'.history, s'.active) <==> !ForgetsHolder(o, s, v))
  {
    AwaitKeeps(o, s, Some(v));
    AwaitOnward(o, s);
    var shown := Await(o, s).s.(active := None);
    AwaitKeeps(o, shown, Some(v));
    AwaitOnward(o, shown);
    OnwardTransitive(s, Await(o, s).s, Await(o, shown).s);
  }

  lemma LeaveKeeps(o: Replies, s: Shell)
    requires Inv(s)
    ensures Inv(LeaveActive(o, s).s) && Onward(s, LeaveActive(o, s).s)
  {
    ReleaseKeeps(o, s);
  }

  lemma AwaitKeepsInv(o: Replies, s: Shell)
    requires Inv(s)
    ensures Inv(Await(o, s).s) && Onward(s, Await(o, s).s)
  {
    AwaitKeeps(o, s, s.active);
    AwaitOnward(o, s);
  }

  lemma PageKeepsInv(o: Replies, s: Shell)
    requires Inv(s)
    ensures Inv(ShowPage(o, s).s)
  {
    LeaveKeeps(o, s);
    var left := LeaveActive(o, s);
    AwaitKeepsInv(o, left.s);
    AwaitKeepsInv(o, Await(o, left.s).s);
  }

  lemma HandOffKeepsInv(o: Replies, s: Shell, v: Id)
    requires Inv(s)
    ensures Inv(HandOff(o, s, v).s)
  {
    if v in s.summaries {
      var s1 := s.(closing := s.closing + {v});
      if s1.active != Some(v) {
        AwaitKeepsInv(o, s1);
      } else {
        var remaining := set w | w in s1.summaries && w != v && w !in s1.closing;
        var next := Fallback(s1.summaries, v, remaining);
        if next.Some? {
          FallbackIsNearest(s1.summaries, v, remaining);
          ActivateKeepsUnlessSame(o, s1, next.value);
          AwaitKeepsInv(o, ActivateNow(o, s1, next.value).s);
        } else {
          LeaveKeeps(o, s1);
          AwaitKeepsInv(o, LeaveActive(o, s1).s);
        }
      }
    }
  }

  // ---------------------------------------------------------------- creation

  /** Header places survive, except that a replaced Tab's place is lent to the new one. */
  ghost predicate PlacesKept(s: Shell, s': Shell, lent: Option<Id>) {
    forall w | Placed(s, w) && lent != Some(w) :: Placed(s', w)
  }

  lemma AnnounceKeeps(s: Shell, v: Id, replaced: Option<Id>)
    requires Inv(s) && v !in s.summaries
    requires replaced.Some? ==> replaced.value in s.summaries
    ensures var s' := Announce(s, v, replaced);
            && PlacesKept(s, s', replaced)
            && Mid(s', s.active) && s'.creating == {v} && v in s'.summaries
            && (s.active == Some(v) ==> Mid(s', None))
  {
    var s' := Announce(s, v, replaced);
    if replaced.Some? {
      forall w | w in s.summaries && w != replaced.value
        ensures w in s'.summaries
      {
        WithoutMembers(s.summaries, {v}, w);
        SwappedMembers(Without(s.summaries, {v}), replaced.value, v, w);
      }
      SwappedMembers(Without(s.summaries, {v}), replaced.value, v, v);
    }
  }

  ghost predicate Builds(s: Shell, c: Creation, v: Id) {
    && Mid(c.s, if c.dispatched then Some(v) else None)
    && Onward(s, c.s)
    && (c.ok ==> Mid(c.s, c.s.active) && (c.s.active == Some(v) || c.s.active.None?))
  }

  lemma StartKeeps(o: Replies, s: Shell, v: Id, released: bool, isNew: bool)
    requires Mid(s, None)
    ensures Builds(s, StartView(o, s, v, released, isNew), v)
  {
    AwaitKeeps(o, s, None);
    AwaitOnward(o, s);
    var started := Await(o, s);
    ShowKeeps(o, started.s, v, None);
    OnwardTransitive(s, started.s, ShowAndActivate(o, started.s, v).s);
  }

  lemma BuildKeeps(o: Replies, s: Shell, v: Id, released: bool)
    requires Mid(s, None)
    ensures Builds(s, BuildView(o, s, v, released), v)
  {
    AwaitKeeps(o, s, None);
    AwaitOnward(o, s);
    var covered := Await(o, s);
    if covered.ok {
      AwaitKeeps(o, covered.s, None);
      AwaitOnward(o, covered.s);
      var created := Await(o, covered.s);
      OnwardTransitive(s, covered.s, created.s);
      if created.ok {
        var made := created.s.(owned := created.s.owned + ({v} - created.s.gone));
        var isNew := o(covered.s.clock).created;
        StartKeeps(o, made, v, released, isNew);
        OnwardTransitive(s, made, StartView(o, made, v, released, isNew).s);
      }
    }
  }

  lemma CreateViewKeeps(o: Replies, s: Shell, v: Id, previous: Option<Id>)
    requires Mid(s, if previous == Some(v) then None else previous)
    ensures Builds(s, CreateView(o, s, v, previous), v)
  {
    if previous.Some? && previous != Some(v) {
      DeactivateKeeps(o, s, previous.value, previous);
      var released := DeactivateView(o, s, previous.value);
      if released.ok {
        BuildKeeps(o, released.s, v, true);
        OnwardTransitive(s, released.s, BuildView(o, released.s, v, true).s);
      }
    } else {
      BuildKeeps(o, s, v, false);
    }
  }

  lemma RetractKeepsPlaces(s: Shell, v: Id, replaced: Option<Id>, bootstrapStarted: bool, w: Id)
    requires w != v && (replaced == Some(w) || Placed(s, w))
    ensures Placed(Retract(s, v, replaced, bootstrapStarted), w)
  {
    var back := if replaced.Some? then ReplaceSummary(s.summaries, v, replaced.value) else s.summaries;
    if replaced.Some? {
      WithoutMembers(s.summaries, {replaced.value}, w);
      SwappedMembers(Without(s.summaries, {replaced.value}), v, replaced.value, w);
    }
    WithoutMembers(back, {v}, w);
  }

  lemma CreateFailedKeeps(o: Replies, c: Creation, v: Id, previous: Option<Id>, replaced: Option<Id>)
    requires Mid(c.s, if c.dispatched then Some(v) else None)
    requires previous.Some? ==> Placed(Retract(c.s, v, replaced, c.bootstrapStarted), previous.value)
    ensures var s' := CreateFailed(o, c, v, previous, replaced);
            Mid(s', s'.active) && (s'.active.Some? ==> Placed(s', s'.active.value)) && s'.creating == c.s.creating
  {
    var s := Retract(c.s, v, replaced, c.bootstrapStarted);
    if c.dispatched {
      DeactivateKeeps(o, s, v, Some(v));
    }
    var undone := if c.dispatched then DeactivateView(o, s, v) else Done(s, true);
    if !undone.ok {
      CloseKeeps(o, undone.s);
    } else if c.released || previous.None? {
      RestoreKeeps(o, undone.s, previous);
    } else {
      AwaitKeeps(o, undone.s.(active := previous), previous);
      AwaitOnward(o, undone.s.(active := previous));
    }
  }

  lemma CreateNewKeepsInv(o: Replies, s: Shell, v: Id, replaced: Option<Id>)
    requires Inv(s) && v !in s.summaries
    requires replaced.Some? ==> replaced.value in s.summaries
    ensures Inv(CreateNew(o, s, v, replaced).s)
  {
    var announced := Announce(s, v, replaced);
    AnnounceKeeps(s, v, replaced);
    CreateViewKeeps(o, announced, v, s.active);
    var c := CreateView(o, announced, v, s.active);
    if !c.ok {
      var retracted := Retract(c.s, v, replaced, c.bootstrapStarted);
      if s.active.Some? {
        if s.active.value == v {
          assert v in retracted.gone;
        } else {
          RetractKeepsPlaces(c.s, v, replaced, c.bootstrapStarted, s.active.value);
        }
      }
      CreateFailedKeeps(o, c, v, s.active, replaced);
    }
  }

  // ---------------------------------------------------------------- every run

  /** What an operation must not ask for, checked in the state it starts from. */
  predicate Sound(o: Replies, s: Shell, op: Operation) {
    match op
    // An activation names a Tab of the Header and does not lose a holder.
    case Activate(v) => v in s.summaries && !ForgetsHolder(o, s, v)
    case Create(v, _) =>
      var started := Await(o, s);
      started.ok && v in started.s.summaries ==> !ForgetsHolder(o, started.s, v)
    case _ => true
  }

  predicate SoundRun(o: Replies, s: Shell, ops: seq<Operation>) {
    ops == [] || (SoundRun(o, s, ops[..|ops| - 1])
                  && Sound(o, Run(o, s, ops[..|ops| - 1]), ops[|ops| - 1]))
  }

  lemma ActivateKeepsInv(o: Replies, s: Shell, v: Id)
    requires Inv(s) && v in s.summaries && !ForgetsHolder(o, s, v)
    ensures Inv(ActivateNow(o, s, v).s)
  {
    if s.active == Some(v) {
      ActivateSameExactly(o, s, v);
    } else {
      ActivateKeepsUnlessSame(o, s, v);
    }
  }

  lemma PerformKeepsInv(o: Replies, s: Shell, op: Operation)
    requires Inv(s) && Sound(o, s, op)
    ensures Inv(Perform(o, s, op))
  {
    match op
    case Activate(v) => ActivateKeepsInv(o, s, v);
    case Create(v, replacing) =>
      AwaitKeepsInv(o, s);
      var s1 := Await(o, s).s;
      if Await(o, s).ok {
        if v in s1.summaries {
          ActivateKeepsInv(o, s1, v);
        } else {
          CreateNewKeepsInv(o, s1, v, if replacing.Some? && replacing.value in s1.summaries then replacing else None);
        }
      }
    case ShowShellPage => PageKeepsInv(o, s);
    case HandOffClosing(v) => HandOffKeepsInv(o, s, v);
    case Wait => AwaitKeepsInv(o, s);
  }

  lemma {:induction false} RunKeepsInv(o: Replies, ops: seq<Operation>)
    requires SoundRun(o, Empty, ops)
    ensures Inv(Run(o, Empty, ops))
  {
    if ops != [] {
      RunKeepsInv(o, ops[..|ops| - 1]);
      PerformKeepsInv(o, Run(o, Empty, ops[..|ops| - 1]), ops[|ops| - 1]);
    }
  }

  /**
   Over every sound run, with failures, departures and arrivals at any await: no activation was
   ever sent while another view held input, unless releasing that other view had failed; and
   when the run ends, only the active view may hold input, again up to failed releases.
   */
  lemma InputIsHandedOver(o: Replies, ops: seq<Operation>)
    requires SoundRun(o, Empty, ops)
    ensures var s := Run(o, Empty, ops);
            && (forall i | 0 <= i < |s.history| :: SafeNext(s.history[..i], s.history[i]))
            && (forall v | v in Holding(s.history) && s.active != Some(v) :: v in Unreleased(s.history))
            && (forall v, w | v in Holding(s.history) - Unreleased(s.history)
                              && w in Holding(s.history) - Unreleased(s.history) :: v == w)
  {
    RunKeepsInv(o, ops);
    var t := Run(o, Empty, ops).history;
    forall i | 0 <= i < |t|
      ensures SafeNext(t[..i], t[i])
    {
      NoOverlapEverywhere(t, i);
    }
    forall v, w | v in Holding(t) - Unreleased(t) && w in Holding(t) - Unreleased(t)
      ensures v == w
    {
      OneHolder(t, v, w);
    }
  }

  // ---------------------------------------------------------------- why the run must be sound

  /** Once a holder is forgotten, activating any other view in the window sends input to two views. */
  lemma ForgottenHolderOverlaps(o: Replies, s: Shell, v: Id, w: Id)
    requires Inv(s) && ForgetsHolder(o, s, v)
    requires var s1 := ActivateNow(o, s, v).s;
             && w != v && w in s1.owned
             && o(s1.clock).ok && o(s1.clock).leaving == {}
    ensures var s1 := ActivateNow(o, s, v).s;
            && s1.active.None? && v in Holding(s1.history) - Unreleased(s1.history)
            && !NoOverlap(ActivateNow(o, s1, w).s.history)
  {
    ActivateSameExactly(o, s, v);
    var s1 := ActivateNow(o, s, v).s;
    AwaitKeeps(o, s, Some(v));
    AwaitKeeps(o, Await(o, s).s.(active := None), Some(v));
    HistoryAfter(s1.history, Left({}));
    var shown := Await(o, s1).s;
    HistoryAfter(shown.history, Dispatched(w));
    assert !NoOverlap(Dispatch(shown, w).history);
    DispatchShows(o, s1, w);
  }

  /** Histories only grow, so an overlap stays in them. */
  predicate Grows(s: Shell, s': Shell) {
    s.history <= s'.history
  }

  lemma RequestGrows(o: Replies, s: Shell, v: Id)
    ensures Grows(Dispatch(s, v), RequestActivation(o, s, v).s) && Grows(s, RequestActivation(o, s, v).s)
  {
  }

  lemma ShowGrows(o: Replies, s: Shell, v: Id)
    ensures Grows(s, ShowAndActivate(o, s, v).s)
    ensures o(s.clock).ok && v in s.owned ==>
              ShowAndActivate(o, s, v) == RequestActivation(o, Await(o, s).s, v)
  {
    RequestGrows(o, Await(o, s).s, v);
  }

  lemma RestoreGrows(o: Replies, s: Shell, previous: Option<Id>)
    ensures Grows(s, RestorePrevious(o, s, previous))
  {
    if previous.Some? {
      ShowGrows(o, s, previous.value);
    }
  }

  lemma RollBackGrows(o: Replies, a: Activation, v: Id, previous: Option<Id>)
    ensures Grows(a.s, RollBack(o, a, v, previous))
  {
    RestoreGrows(o, a.s, previous);
    RestoreGrows(o, DeactivateView(o, a.s, v).s, previous);
  }

  /** When nothing has to be released first, an overlapping dispatch shows in the final history. */
  lemma DispatchShows(o: Replies, s: Shell, w: Id)
    requires s.active != Some(w) && ReleaseActive(o, s) == Done(s, true) && w in s.owned && o(s.clock).ok
    requires !NoOverlap(Dispatch(Await(o, s).s, w).history)
    ensures !NoOverlap(ActivateNow(o, s, w).s.history)
  {
    var sent := Dispatch(Await(o, s).s, w);
    var a := ShowAndActivate(o, s, w);
    ShowGrows(o, s, w);
    RequestGrows(o, Await(o, s).s, w);
    RollBackGrows(o, a, w, s.active);
    if NoOverlap(ActivateNow(o, s, w).s.history) {
      OverlapStays(sent.history, ActivateNow(o, s, w).s.history);
    }
  }

  lemma {:induction false} OverlapStays(t: seq<Event>, t': seq<Event>)
    requires t <= t' && NoOverlap(t')
    ensures NoOverlap(t)
  {
    if t != t' {
      OverlapStays(t, t'[..|t'| - 1]);
    } else {
      assert t == t';
    }
  }

  /** In a sound run such a view cannot hold input, because an active view is listed or has left. */
  lemma ActiveHolderIsListed(o: Replies, ops: seq<Operation>, p: Id)
    requires SoundRun(o, Empty, ops)
    requires Run(o, Empty, ops).active == Some(p) && p in Holding(Run(o, Empty, ops).history)
    ensures p in Run(o, Empty, ops).summaries
  {
    RunKeepsInv(o, ops);
  }

  lemma CloseAddsNoOverlap(o: Replies, s: Shell)
    requires NoOverlap(s.history)
    ensures NoOverlap(CloseInput(o, s).history)
  {
    HistoryAfter(s.history, Left(o(s.clock).leaving - s.creating));
  }

  lemma RestoreAddsNoOverlap(o: Replies, s: Shell, p: Id, entitled: Option<Id>)
    requires Mid(s, entitled) && (entitled.None? || entitled == Some(p))
    ensures NoOverlap(RestorePrevious(o, s, Some(p)).history)
  {
    ShowKeeps(o, s, p, entitled);
    var again := ShowAndActivate(o, s, p);
    if !again.ok {
      if again.dispatched {
        DeactivateKeeps(o, again.s, p, Some(p));
        CloseAddsNoOverlap(o, DeactivateView(o, again.s, p).s);
      } else {
        CloseAddsNoOverlap(o, again.s);
      }
    }
  }

  /** Undoing an activation of `w` that reached nobody, or that was the only one. */
  lemma UndoAddsNoOverlap(o: Replies, s: Shell, w: Id, p: Id, entitled: Option<Id>)
    requires Mid(s, entitled) && (entitled.None? || entitled == Some(p) || entitled == Some(w))
    ensures var undone := DeactivateView(o, s, w);
            && NoOverlap(CloseInput(o, undone.s).history)
            && NoOverlap(RestorePrevious(o, undone.s, Some(p)).history)
  {
    DeactivateKeeps(o, s, w, entitled);
    var undone := DeactivateView(o, s, w).s;
    CloseAddsNoOverlap(o, undone);
    RestoreAddsNoOverlap(o, undone, p, if entitled == Some(w) then None else entitled);
  }

  /** Asking a view that has left for input reaches nobody. */
  lemma RequestToNobody(o: Replies, s: Shell, w: Id, entitled: Option<Id>)
    requires Mid(s, entitled) && w !in s.owned
    ensures Mid(RequestActivation(o, s, w).s, entitled)
  {
    AwaitKeeps(o, s, entitled);
    var replied := Await(o, s);
    if replied.ok {
      AwaitKeeps(o, replied.s.(active := Some(w)), entitled);
    }
  }

  /** The activation is sent while the active view, which was not asked to release, still holds input. */
  predicate SentTooEarly(o: Replies, s: Shell, p: Id, w: Id) {
    && o(s.clock).ok && w in s.owned && w in Await(o, s).s.owned
    && p in Holding(s.history) - Unreleased(s.history) && p !in o(s.clock).leaving - s.creating
  }

  /**
   The release step is skipped for an active view without a Header summary. Switching away from it
   then sends input to two views exactly when the new activation is sent while the old view holds input.
   */
  lemma UnlistedHolderOverlapsExactly(o: Replies, s: Shell, p: Id, w: Id)
    requires Base(s) && Settled(s.history, s.active) && s.active == Some(p) && p !in s.summaries && w != p
    ensures NoOverlap(ActivateNow(o, s, w).s.history) <==> !SentTooEarly(o, s, p, w)
  {
    assert ReleaseActive(o, s) == Done(s, true);
    AwaitKeeps(o, s, Some(p));
    if SentTooEarly(o, s, p, w) {
      EarlyDispatchOverlaps(o, s, p, w);
    } else if !o(s.clock).ok || w !in s.owned {
      RestoreAddsNoOverlap(o, Await(o, s).s, p, Some(p));
    } else {
      LateDispatchIsSafe(o, s, p, w);
    }
  }

  lemma EarlyDispatchOverlaps(o: Replies, s: Shell, p: Id, w: Id)
    requires Mid(s, Some(p)) && SentTooEarly(o, s, p, w) && s.active == Some(p) && p !in s.summaries && w != p
    ensures !NoOverlap(ActivateNow(o, s, w).s.history)
  {
    AwaitKeeps(o, s, Some(p));
    var shown := Await(o, s).s;
    HistoryAfter(shown.history, Dispatched(w));
    DispatchShows(o, s, w);
  }

  lemma LateDispatchIsSafe(o: Replies, s: Shell, p: Id, w: Id)
    requires Mid(s, Some(p)) && s.active == Some(p) && p !in s.summaries && w != p
    requires o(s.clock).ok && w in s.owned && !SentTooEarly(o, s, p, w)
    ensures NoOverlap(ActivateNow(o, s, w).s.history)
  {
    AwaitKeeps(o, s, Some(p));
    var shown := Await(o, s).s;
    var a := RequestActivation(o, shown, w);
    if w in shown.owned {
      assert p !in Holding(shown.history) - Unreleased(shown.history);
      RequestKeeps(o, shown, w, None);
      UndoAddsNoOverlap(o, a.s, w, p, Some(w));
    } else {
      RequestToNobody(o, shown, w, Some(p));
      UndoAddsNoOverlap(o, a.s, w, p, Some(p));
    }
  }

  // ---------------------------------------------------------------- leaving a view the Header does not list

  predicate StillHolds(s: Shell, p: Id) {
    p in Holding(s.history) - Unreleased(s.history)
  }

  /** The view holds input and does not leave during the next `n` awaits. */
  predicate HoldsThrough(o: Replies, s: Shell, p: Id, n: nat) {
    StillHolds(s, p) && forall k: nat | s.clock <= k < s.clock + n :: p !in o(k).leaving - s.creating
  }

  lemma AwaitHolds(o: Replies, s: Shell, p: Id, n: nat)
    requires Mid(s, Some(p))
    ensures HoldsThrough(o, s, p, n + 1) <==> HoldsThrough(o, Await(o, s).s, p, n)
    ensures Mid(Await(o, s).s, Some(p))
  {
    AwaitKeeps(o, s, Some(p));
    assert HoldsThrough(o, s, p, n + 1) <==>
           StillHolds(s, p) && p !in o(s.clock).leaving - s.creating
           && forall k: nat | s.clock + 1 <= k < s.clock + 1 + n :: p !in o(k).leaving - s.creating;
  }

  /** With another selection than `p`, the claim holds exactly when `p` holds no input. */
  lemma ClaimWithout(s: Shell, p: Id)
    requires Mid(s, Some(p)) && s.active != Some(p)
    ensures Claim(s) <==> !StillHolds(s, p)
  {
  }

  lemma CloseClaims(o: Replies, s: Shell, p: Id)
    requires Mid(s, Some(p))
    ensures Claim(CloseInput(o, s)) <==> !HoldsThrough(o, s, p, 1)
  {
    var closed := s.(active := None);
    AwaitHolds(o, closed, p, 0);
    AwaitOnward(o, closed);
    ClaimWithout(CloseInput(o, s), p);
    assert HoldsThrough(o, closed, p, 1) <==> HoldsThrough(o, s, p, 1);
  }

  /** Bringing `p` back fails before the request is sent, and the selection is dropped while `p` holds input. */
  predicate RestoreDrops(o: Replies, s: Shell, p: Id) {
    !o(s.clock).ok && HoldsThrough(o, s, p, 2)
  }

  lemma RestoreClaims(o: Replies, s: Shell, p: Id)
    requires Mid(s, Some(p))
    ensures Claim(RestorePrevious(o, s, Some(p))) <==> !RestoreDrops(o, s, p)
  {
    if o(s.clock).ok && p in s.owned {
      ShowKeeps(o, s, p, Some(p));
      var again := ShowAndActivate(o, s, p);
      if !again.ok {
        DeactivateKeeps(o, again.s, p, Some(p));
        CloseKeeps(o, DeactivateView(o, again.s, p).s);
      }
    } else {
      AwaitHolds(o, s, p, 1);
      CloseClaims(o, Await(o, s).s, p);
    }
  }

  /** Undoing the activation of `w`, which reached nobody, drops `p`. */
  predicate RollBackDrops(o: Replies, a: Activation, w: Id, p: Id) {
    if !a.dispatched then RestoreDrops(o, a.s, p)
    else
      var undone := DeactivateView(o, a.s, w);
      if undone.ok then RestoreDrops(o, undone.s, p) else HoldsThrough(o, undone.s, p, 1)
  }

  lemma RollBackClaims(o: Replies, a: Activation, w: Id, p: Id)
    requires Mid(a.s, Some(p)) && w != p
    ensures Claim(RollBack(o, a, w, Some(p))) <==> !RollBackDrops(o, a, w, p)
  {
    if a.dispatched {
      DeactivateKeeps(o, a.s, w, Some(p));
      var undone := DeactivateView(o, a.s, w);
      RestoreClaims(o, undone.s, p);
      CloseClaims(o, undone.s, p);
    } else {
      RestoreClaims(o, a.s, p);
    }
  }

  /** Nothing is sent to `w`, but it is selected, or nothing is, while `p` still holds input. */
  predicate SwitchDrops(o: Replies, s: Shell, p: Id, w: Id) {
    var a := ShowAndActivate(o, s, w);
    if a.ok then StillHolds(a.s, p) else RollBackDrops(o, a, w, p)
  }

  lemma UnsentClaims(o: Replies, s: Shell, p: Id, w: Id)
    requires Mid(s, Some(p)) && s.active == Some(p) && p !in s.summaries && w != p
    requires !(o(s.clock).ok && w in s.owned && w in Await(o, s).s.owned)
    ensures Claim(ActivateNow(o, s, w).s) <==> !SwitchDrops(o, s, p, w)
  {
    AwaitKeeps(o, s, Some(p));
    var a := ShowAndActivate(o, s, w);
    if o(s.clock).ok && w in s.owned {
      RequestToNobody(o, Await(o, s).s, w, Some(p));
    }
    if a.ok {
      AcceptedSelects(o, Await(o, s).s, w);
      ClaimWithout(a.s, p);
    } else {
      RollBackClaims(o, a, w, p);
    }
  }

  lemma AcceptedSelects(o: Replies, s: Shell, w: Id)
    ensures var a := RequestActivation(o, s, w); a.ok ==> a.s.active == Some(w) || a.s.active.None?
  {
  }

  /** Undoing an activation of `w` that alone had input leaves nothing to drop. */
  lemma UndoneClaims(o: Replies, a: Activation, w: Id, p: Id)
    requires Mid(a.s, Some(w)) && a.dispatched && w != p
    ensures Claim(RollBack(o, a, w, Some(p)))
  {
    DeactivateKeeps(o, a.s, w, Some(w));
    var undone := DeactivateView(o, a.s, w);
    if undone.ok {
      RestoreClaims(o, undone.s, p);
      assert !StillHolds(undone.s, p);
    } else {
      CloseKeeps(o, undone.s);
    }
  }

  /** When `p` holds nothing by the time `w` is asked, `w` alone is entitled to input. */
  lemma SentLateClaims(o: Replies, s: Shell, p: Id, w: Id)
    requires Mid(s, Some(p)) && s.active == Some(p) && p !in s.summaries && w != p
    requires o(s.clock).ok && w in s.owned && w in Await(o, s).s.owned && !HoldsThrough(o, s, p, 1)
    ensures Claim(ActivateNow(o, s, w).s)
  {
    AwaitHolds(o, s, p, 0);
    var shown := Await(o, s).s;
    assert Mid(shown, None);
    RequestKeeps(o, shown, w, None);
    var a := RequestActivation(o, shown, w);
    if !a.ok {
      UndoneClaims(o, a, w, p);
    }
  }

  /** The activation of another view goes wrong: it is sent too early, or the unlisted view is dropped. */
  predicate LosesUnlisted(o: Replies, s: Shell, p: Id, w: Id) {
    if o(s.clock).ok && w in s.owned && w in Await(o, s).s.owned then HoldsThrough(o, s, p, 1)
    else SwitchDrops(o, s, p, w)
  }

  /** For any replies, activating another view from an unlisted one keeps the claim exactly then. */
  lemma UnlistedSwitchExactly(o: Replies, s: Shell, p: Id, w: Id)
    requires Claim(s) && s.active == Some(p) && p !in s.summaries && w != p
    ensures Claim(ActivateNow(o, s, w).s) <==> !LosesUnlisted(o, s, p, w)
  {
    if !(o(s.clock).ok && w in s.owned && w in Await(o, s).s.owned) {
      UnsentClaims(o, s, p, w);
    } else if HoldsThrough(o, s, p, 1) {
      assert p !in o(s.clock).leaving - s.creating;
      assert SentTooEarly(o, s, p, w);
      EarlyDispatchOverlaps(o, s, p, w);
    } else {
      SentLateClaims(o, s, p, w);
    }
  }

  /** Leaving an unlisted view for a shell page drops it exactly when it holds input through both awaits. */
  lemma UnlistedPageExactly(o: Replies, s: Shell, p: Id)
    requires Claim(s) && s.active == Some(p) && p !in s.summaries
    ensures var s' := ShowPage(o, s).s;
            && s'.active.None? && NoOverlap(s'.history)
            && (Claim(s') <==> Settled(s'.history, s'.active))
            && (Claim(s') <==> !HoldsThrough(o, s, p, 2))
  {
    var left := s.(active := None);
    assert LeaveActive(o, s) == Done(left, true);
    AwaitOnward(o, left);
    AwaitHolds(o, left, p, 1);
    var navigated := Await(o, left).s;
    AwaitOnward(o, navigated);
    AwaitHolds(o, navigated, p, 0);
    ClaimWithout(ShowPage(o, s).s, p);
    assert HoldsThrough(o, left, p, 2) <==> HoldsThrough(o, s, p, 2);
  }

  /** Every await fails and nothing else happens. */
  function AllFail(): Replies {
    n => Reply(false, false, {}, {}, [])
  }

  /** Whatever the replies, switching away or leaving to a page keeps the claim exactly when the view holds nothing. */
  lemma UnlistedIsSafeExactly(s: Shell, p: Id, w: Id)
    requires Claim(s) && s.active == Some(p) && p !in s.summaries && w != p
    ensures (forall o: Replies :: Claim(ActivateNow(o, s, w).s)) <==> !StillHolds(s, p)
    ensures (forall o: Replies :: Claim(ShowPage(o, s).s)) <==> !StillHolds(s, p)
  {
    if StillHolds(s, p) {
      UnlistedSwitchExactly(AllFail(), s, p, w);
      AwaitHolds(AllFail(), s, p, 2);
      assert HoldsThrough(AllFail(), s, p, 3);
      assert LosesUnlisted(AllFail(), s, p, w);
      UnlistedPageExactly(AllFail(), s, p);
      assert HoldsThrough(AllFail(), s, p, 2);
    } else {
      forall o: Replies
        ensures Claim(ActivateNow(o, s, w).s) && Claim(ShowPage(o, s).s)
      {
        UnlistedPageExactly(o, s, p);
        HoldingNothingClaims(o, s, p, w);
      }
    }
  }

  lemma HoldingNothingClaims(o: Replies, s: Shell, p: Id, w: Id)
    requires Claim(s) && s.active == Some(p) && p !in s.summaries && w != p && !StillHolds(s, p)
    ensures Claim(ActivateNow(o, s, w).s)
  {
    AwaitKeeps(o, s, Some(p));
    UnlistedSwitchExactly(o, s, p, w);
    if !(o(s.clock).ok && w in s.owned && w in Await(o, s).s.owned) {
      NothingIsDropped(o, s, p, w);
    }
  }

  lemma NothingIsDropped(o: Replies, s: Shell, p: Id, w: Id)
    requires Mid(s, Some(p)) && !StillHolds(s, p) && w != p
    requires !(o(s.clock).ok && w in s.owned && w in Await(o, s).s.owned)
    ensures !SwitchDrops(o, s, p, w)
  {
    AwaitKeeps(o, s, None);
    var a := ShowAndActivate(o, s, w);
    if o(s.clock).ok && w in s.owned {
      RequestToNobody(o, Await(o, s).s, w, None);
    }
    assert Mid(a.s, None);
    DeactivateKeeps(o, a.s, w, None);
  }

  // ---------------------------------------------------------------- a run that overlaps

  /** Every await succeeds and nothing else happens, except that await number `k` fails. */
  function FailsAt(k: nat): Replies {
    n => Reply(n != k, true, {}, {}, [])
  }

  lemma CalmAwait(k: nat, s: Shell)
    ensures Await(FailsAt(k), s) == Done(Record(s.(clock := s.clock + 1), Left({})), s.clock != k)
  {
    QuietAwait(FailsAt(k), s);
  }

  /** An await during which nothing happens to the window. */
  lemma QuietAwait(o: Replies, s: Shell)
    requires o(s.clock).leaving == {} && o(s.clock).arriving == {} && o(s.clock).listed == []
    ensures Await(o, s) == Done(Record(s.(clock := s.clock + 1), Left({})), o(s.clock).ok)
  {
    WithoutNothing(s.summaries);
    var none: set<Id> := {};
    assert none - s.creating == none && s.gone + none == s.gone && s.closing - none == s.closing;
    assert (s.owned - none) + (none - s.gone) == s.owned;
  }

  lemma {:induction false} WithoutNothing(ss: seq<Id>)
    ensures Without(ss, {}) == ss
  {
    if ss != [] {
      WithoutNothing(ss[1..]);
    }
  }

  ghost predicate Selected(s: Shell, v: Id) {
    s.active == Some(v) && v in Holding(s.history) - Unreleased(s.history) && v in s.owned && v in s.summaries
  }

  lemma CalmShow(k: nat, s: Shell, v: Id)
    requires v in s.owned && v in s.summaries && (k < s.clock || s.clock + 3 <= k)
    ensures var a := ShowAndActivate(FailsAt(k), s, v);
            && a.ok && Selected(a.s, v) && a.s.owned == s.owned && a.s.clock == s.clock + 3
            && a.s.summaries == s.summaries && a.s.gone == s.gone && a.s.creating == s.creating
  {
    QuietShow(FailsAt(k), s, v);
  }

  predicate Quiet(o: Replies, n: nat) {
    o(n).ok && o(n).leaving == {} && o(n).arriving == {} && o(n).listed == []
  }

  lemma QuietShow(o: Replies, s: Shell, v: Id)
    requires v in s.owned && Quiet(o, s.clock) && Quiet(o, s.clock + 1) && Quiet(o, s.clock + 2)
    ensures var a := ShowAndActivate(o, s, v);
            && a.ok && a.s.active == Some(v) && v in Holding(a.s.history) - Unreleased(a.s.history)
            && a.s.owned == s.owned && a.s.clock == s.clock + 3
            && a.s.summaries == s.summaries && a.s.gone == s.gone && a.s.creating == s.creating
  {
    QuietAwait(o, s);
    var shown := Await(o, s).s;
    var sent := Dispatch(shown, v);
    HistoryAfter(shown.history, Dispatched(v));
    QuietAwait(o, sent);
    HistoryAfter(sent.history, Left({}));
    var replied := Await(o, sent).s.(active := Some(v));
    QuietAwait(o, replied);
    HistoryAfter(replied.history, Left({}));
  }

  lemma CalmBuild(k: nat, s: Shell, v: Id, released: bool)
    requires v in s.summaries && v !in s.gone && (k < s.clock || s.clock + 6 <= k)
    ensures var c := BuildView(FailsAt(k), s, v, released);
            && c.ok && Selected(c.s, v) && c.s.owned == s.owned + {v} && c.s.clock == s.clock + 6
            && c.s.summaries == s.summaries && c.s.gone == s.gone && c.s.creating == s.creating
  {
    CalmAwait(k, s);
    var covered := Await(FailsAt(k), s).s;
    CalmAwait(k, covered);
    var created := Await(FailsAt(k), covered).s;
    var made := created.(owned := created.owned + ({v} - created.gone));
    CalmAwait(k, made);
    CalmShow(k, Await(FailsAt(k), made).s, v);
  }

  lemma CalmCreate(k: nat, s: Shell, v: Id)
    requires s.creating == {} && v !in s.summaries && v !in s.gone && s.active != Some(v)
    requires k < s.clock || s.clock + 8 <= k
    ensures var s' := Perform(FailsAt(k), s, Create(v, None));
            && Selected(s', v) && s'.owned == s.owned + {v} && s'.clock == s.clock + (if s.active.Some? then 8 else 7)
            && s'.summaries == s.summaries + [v] && s'.gone == s.gone && s'.creating == {}
  {
    CalmAwait(k, s);
    var announced := Announce(Await(FailsAt(k), s).s, v, None);
    if s.active.Some? {
      CalmAwait(k, announced);
      CalmBuild(k, DeactivateView(FailsAt(k), announced, s.active.value).s, v, true);
    } else {
      CalmBuild(k, announced, v, false);
    }
  }

  lemma RunThen(o: Replies, s: Shell, ops: seq<Operation>, op: Operation)
    ensures Run(o, s, ops + [op]) == Perform(o, Run(o, s, ops), op)
  {
    assert (ops + [op])[..|ops|] == ops;
  }

  lemma CreatedInRun(k: nat, ops: seq<Operation>, v: Id)
    requires var s := Run(FailsAt(k), Empty, ops);
             && Inv(s) && v !in s.summaries && v !in s.gone && s.active != Some(v)
             && (k < s.clock || s.clock + 8 <= k)
    ensures var s := Run(FailsAt(k), Empty, ops);
            var s' := Run(FailsAt(k), Empty, ops + [Create(v, None)]);
            && Inv(s') && Selected(s', v) && s'.owned == s.owned + {v} && s'.gone == s.gone
            && s'.summaries == s.summaries + [v]
            && s'.clock == s.clock + (if s.active.Some? then 8 else 7)
  {
    var s := Run(FailsAt(k), Empty, ops);
    CalmCreate(k, s, v);
    CalmAwait(k, s);
    PerformKeepsInv(FailsAt(k), s, Create(v, None));
    RunThen(FailsAt(k), Empty, ops, Create(v, None));
  }

  /** Asking the selected view again while showing it fails, then selecting another view. */
  lemma CalmOverlap(s: Shell, v: Id, w: Id)
    requires Inv(s) && Selected(s, v) && w != v && w in s.owned
    ensures var o := FailsAt(s.clock);
            !NoOverlap(Perform(o, Perform(o, s, Activate(v)), Activate(w)).history)
  {
    var o := FailsAt(s.clock);
    CalmAwait(s.clock, s);
    CalmAwait(s.clock, Await(o, s).s.(active := None));
    ForgottenHolderOverlaps(o, s, v, w);
  }

  lemma OverlapInRun(k: nat, ops: seq<Operation>, v: Id, w: Id)
    requires var s := Run(FailsAt(k), Empty, ops);
             Inv(s) && Selected(s, v) && s.clock == k && w != v && w in s.owned
    ensures !NoOverlap(Run(FailsAt(k), Empty, ops + [Activate(v)] + [Activate(w)]).history)
  {
    CalmOverlap(Run(FailsAt(k), Empty, ops), v, w);
    RunThen(FailsAt(k), Empty, ops, Activate(v));
    RunThen(FailsAt(k), Empty, ops + [Activate(v)], Activate(w));
  }

  lemma TwoTabs(k: nat, a: Id, b: Id, ops: seq<Operation>)
    requires a != b && k == 15 && ops == [Create(a, None)] + [Create(b, None)]
    ensures var s := Run(FailsAt(k), Empty, ops);
            Inv(s) && Selected(s, b) && s.clock == k && a in s.owned
  {
    var first := [] + [Create(a, None)];
    CreatedInRun(k, [], a);
    CreatedInRun(k, first, b);
    assert ops == first + [Create(b, None)];
  }

  /**
   Two Tabs are created, the second is asked to activate again but cannot be shown, then the
   first one is activated: both hold input and no release was even attempted.
   */
  lemma FailedReactivationOverlaps(k: nat, a: Id, b: Id, ops: seq<Operation>)
    requires a != b && k == 15
    requires ops == [Create(a, None)] + [Create(b, None)] + [Activate(b)] + [Activate(a)]
    ensures !NoOverlap(Run(FailsAt(k), Empty, ops).history)
  {
    var created := [Create(a, None)] + [Create(b, None)];
    TwoTabs(k, a, b, created);
    OverlapInRun(k, created, b, a);
  }

  // ---------------------------------------------------------------- a run with a view the Header does not list

  /** Every await succeeds; during the first one these views arrive, and the Header never lists them. */
  function Arrivals(views: set<Id>): Replies {
    n => Reply(true, true, {}, if n == 0 then views else {}, [])
  }

  lemma AfterArrival(views: set<Id>)
    ensures Run(Arrivals(views), Empty, [Wait]) == Empty.(owned := views, clock := 1, history := [Left({})])
  {
    var o, none := Arrivals(views), Empty.gone;
    assert [Wait][..0] == [] && Run(o, Empty, [Wait]) == Await(o, Empty).s;
    assert none - none == none && none + none == none && (none - none) + (views - none) == views;
    assert Without(Empty.summaries, none) == [];
    assert Empty.history + [Left(none)] == [Left(none)];
  }

  lemma UnlistedActivation(views: set<Id>, s: Shell, p: Id)
    requires s.clock >= 1 && s.active.None? && p in views && s.owned == views && Base(s) && Settled(s.history, None)
    requires p !in s.summaries
    ensures var s' := ActivateNow(Arrivals(views), s, p).s;
            && Base(s') && Settled(s'.history, s'.active) && s'.active == Some(p) && s'.owned == views
            && p in Holding(s'.history) - Unreleased(s'.history) && p !in s'.summaries && s'.clock >= 1
  {
    ShowKeeps(Arrivals(views), s, p, None);
    QuietShow(Arrivals(views), s, p);
  }

  ghost predicate UnlistedHolder(s: Shell, p: Id) {
    Claim(s) && s.active == Some(p) && p !in s.summaries && StillHolds(s, p) && s.clock >= 1
  }

  /** A view that arrived is activated before the Header lists it. */
  lemma ActivatedUnlisted(views: set<Id>, p: Id)
    requires p in views
    ensures var s := Run(Arrivals(views), Empty, [Wait] + [Activate(p)]); UnlistedHolder(s, p) && s.owned == views
  {
    var o := Arrivals(views);
    AfterArrival(views);
    var s := Run(o, Empty, [Wait]);
    HistoryAfter([], Left({}));
    assert [] + [Left({})] == [Left({})];
    UnlistedActivation(views, s, p);
    RunThen(o, Empty, [Wait], Activate(p));
  }

  lemma SwitchedUnlisted(views: set<Id>, s: Shell, p: Id, w: Id)
    requires UnlistedHolder(s, p) && s.owned == views && p in views && w in views && w != p
    ensures !NoOverlap(ActivateNow(Arrivals(views), s, w).s.history)
  {
    QuietAwait(Arrivals(views), s);
    UnlistedHolderOverlapsExactly(Arrivals(views), s, p, w);
  }

  /** Two views arrive and are activated one after the other before the Header lists them: both hold input. */
  lemma UnlistedActivationsOverlap(p: Id, w: Id, ops: seq<Operation>)
    requires p != w && ops == [Wait] + [Activate(p)] + [Activate(w)]
    ensures !NoOverlap(Run(Arrivals({p, w}), Empty, ops).history)
  {
    ActivatedUnlisted({p, w}, p);
    RunThen(Arrivals({p, w}), Empty, [Wait] + [Activate(p)], Activate(w));
    SwitchedUnlisted({p, w}, Run(Arrivals({p, w}), Empty, [Wait] + [Activate(p)]), p, w);
  }

  ghost predicate Dropped(s: Shell, p: Id) {
    s.active.None? && StillHolds(s, p) && NoOverlap(s.history) && !Settled(s.history, s.active)
  }

  lemma LeftUnlisted(views: set<Id>, s: Shell, p: Id)
    requires UnlistedHolder(s, p)
    ensures Dropped(ShowPage(Arrivals(views), s).s, p)
  {
    UnlistedPageExactly(Arrivals(views), s, p);
    assert HoldsThrough(Arrivals(views), s, p, 2);
    AwaitKeeps(Arrivals(views), s.(active := None), Some(p));
    AwaitKeeps(Arrivals(views), Await(Arrivals(views), s.(active := None)).s, Some(p));
  }

  /** One view arrives, is activated and left for a shell page: it keeps its input, and nothing is selected. */
  lemma UnlistedPageDrops(p: Id, ops: seq<Operation>)
    requires ops == [Wait] + [Activate(p)] + [ShowShellPage]
    ensures Dropped(Run(Arrivals({p}), Empty, ops), p)
  {
    ActivatedUnlisted({p}, p);
    RunThen(Arrivals({p}), Empty, [Wait] + [Activate(p)], ShowShellPage);
    LeftUnlisted({p}, Run(Arrivals({p}), Empty, [Wait] + [Activate(p)]), p);
  }
}
