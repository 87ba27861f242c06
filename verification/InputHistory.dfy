/**
 The history of requests a window shell sent to its native Tab views. The shell cannot see
 whether a view holds terminal input; the history says which views may hold it.
 */
module InputHistory {
  import opened Basics

  type Id = s: string | s != "" witness "tab"

  datatype Event =
    // An activation was sent; the view may receive it even when its reply is lost.
    | Dispatched(view: Id)
    // A deactivation was confirmed by the view.
    | Released(view: Id)
    // A deactivation was not confirmed.
    | ReleaseFailed(view: Id)
    // These views left this window.
    | Left(views: set<Id>)

  // ---------------------------------------------------------------- reading a history

  function HoldingAfter(before: set<Id>, e: Event): set<Id> {
    match e
    case Dispatched(v) => before + {v}
    case Released(v) => before - {v}
    case Left(views) => before - views
    case ReleaseFailed(_) => before
  }

  function UnreleasedAfter(before: set<Id>, e: Event): set<Id> {
    match e
    case ReleaseFailed(v) => before + {v}
    case Dispatched(v) => before - {v}
    case Released(_) => before
    case Left(_) => before
  }

  /** Views that may hold input: activated, and neither released nor gone since. */
  function Holding(t: seq<Event>): set<Id> {
    if t == [] then {} else HoldingAfter(Holding(t[..|t| - 1]), t[|t| - 1])
  }

  /** Views that were sent a deactivation after their last activation, and it failed. */
  function Unreleased(t: seq<Event>): set<Id> {
    if t == [] then {} else UnreleasedAfter(Unreleased(t[..|t| - 1]), t[|t| - 1])
  }

  predicate SafeNext(t: seq<Event>, e: Event) {
    e.Dispatched? ==> Holding(t) - {e.view} <= Unreleased(t)
  }

  /** No view was activated while another one held input, unless releasing that other one failed. */
  predicate NoOverlap(t: seq<Event>) {
    t == [] || (NoOverlap(t[..|t| - 1]) && SafeNext(t[..|t| - 1], t[|t| - 1]))
  }

  /** Only the active view holds input, unless releasing the other one failed. */
  predicate Settled(t: seq<Event>, active: Option<Id>) {
    forall v | v in Holding(t) :: active == Some(v) || v in Unreleased(t)
  }

  lemma HistoryAfter(t: seq<Event>, e: Event)
    ensures Holding(t + [e]) == HoldingAfter(Holding(t), e)
    ensures Unreleased(t + [e]) == UnreleasedAfter(Unreleased(t), e)
    ensures NoOverlap(t + [e]) <==> NoOverlap(t) && SafeNext(t, e)
  {
    assert (t + [e])[..|t + [e]| - 1] == t;
  }

  ghost predicate EndsHold(e: Event, v: Id) {
    e == Released(v) || (e.Left? && v in e.views)
  }

  /** Position of the activation that gave `v` the input it may still hold. */
  ghost predicate HeldSince(t: seq<Event>, i: int, v: Id) {
    0 <= i < |t| && t[i] == Dispatched(v) && forall j | i < j < |t| :: !EndsHold(t[j], v)
  }

  /** Position of a failed release of `v` that no later activation of `v` followed. */
  ghost predicate RefusedSince(t: seq<Event>, i: int, v: Id) {
    0 <= i < |t| && t[i] == ReleaseFailed(v) && forall j | i < j < |t| :: t[j] != Dispatched(v)
  }

  /** A view holds input exactly when some activation of it was never followed by a release or departure. */
  lemma {:induction false} HoldingMeans(t: seq<Event>, v: Id)
    ensures v in Holding(t) <==> exists i :: HeldSince(t, i, v)
  {
    if t != [] {
      var init, last := t[..|t| - 1], |t| - 1;
      HoldingMeans(init, v);
      if v in Holding(t) {
        if t[last] == Dispatched(v) {
          assert HeldSince(t, last, v);
        } else {
          var i :| HeldSince(init, i, v);
          assert HeldSince(t, i, v);
        }
      }
      if i :| HeldSince(t, i, v) {
        assert i < last ==> HeldSince(init, i, v) && !EndsHold(t[last], v);
      }
    }
  }

  lemma {:induction false} UnreleasedMeans(t: seq<Event>, v: Id)
    ensures v in Unreleased(t) <==> exists i :: RefusedSince(t, i, v)
  {
    if t != [] {
      var init, last := t[..|t| - 1], |t| - 1;
      UnreleasedMeans(init, v);
      if v in Unreleased(t) {
        if t[last] == ReleaseFailed(v) {
          assert RefusedSince(t, last, v);
        } else {
          var i :| RefusedSince(init, i, v);
          assert RefusedSince(t, i, v);
        }
      }
      if i :| RefusedSince(t, i, v) {
        assert i < last ==> RefusedSince(init, i, v) && t[last] != Dispatched(v);
      }
    }
  }

  /** Without overlap, at most one view holds input for a reason other than a failed release. */
  lemma {:induction false} OneHolder(t: seq<Event>, v: Id, w: Id)
    requires NoOverlap(t) && v in Holding(t) - Unreleased(t) && w in Holding(t) - Unreleased(t)
    ensures v == w
  {
    var init, e := t[..|t| - 1], t[|t| - 1];
    if e != Dispatched(v) && e != Dispatched(w) {
      OneHolder(init, v, w);
    }
  }

  /** The overlap claim at every position of the history. */
  lemma {:induction false} NoOverlapEverywhere(t: seq<Event>, i: nat)
    requires i < |t|
    ensures NoOverlap(t) ==> SafeNext(t[..i], t[i])
  {
    if i < |t| - 1 {
      NoOverlapEverywhere(t[..|t| - 1], i);
      assert t[..|t| - 1][..i] == t[..i];
    }
  }
}
