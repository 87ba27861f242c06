/** The Header's ordered Tab summaries, by id, and the choice of the Tab shown after a removal. */
module TabHeader {
  import opened Basics
  import opened InputHistory

  function Without(ss: seq<Id>, drop: set<Id>): seq<Id> {
    if ss == [] then []
    else if ss[0] in drop then Without(ss[1..], drop)
    else [ss[0]] + Without(ss[1..], drop)
  }

  function Swapped(ss: seq<Id>, target: Id, id: Id): seq<Id> {
    if ss == [] then [id]
    else if ss[0] == target then [id] + ss[1..]
    else [ss[0]] + Swapped(ss[1..], target, id)
  }

  function SetSummary(ss: seq<Id>, id: Id): seq<Id> {
    if id in ss then ss else ss + [id]
  }

  /** `id` takes the Header place of `target`, or the last place when `target` is absent. */
  function ReplaceSummary(ss: seq<Id>, target: Id, id: Id): seq<Id> {
    Swapped(Without(ss, {id}), target, id)
  }

  lemma {:induction false} WithoutMembers(ss: seq<Id>, drop: set<Id>, v: Id)
    ensures v in Without(ss, drop) <==> v in ss && v !in drop
    ensures (forall d | d in drop :: d !in ss) ==> Without(ss, drop) == ss
  {
    if ss != [] {
      WithoutMembers(ss[1..], drop, v);
    }
  }

  lemma {:induction false} SwappedMembers(ss: seq<Id>, target: Id, id: Id, v: Id)
    ensures v != target && v in ss ==> v in Swapped(ss, target, id)
    ensures v in Swapped(ss, target, id) ==> v == id || v in ss
    ensures id in Swapped(ss, target, id)
  {
    if ss != [] && ss[0] != target {
      SwappedMembers(ss[1..], target, id, v);
    }
  }

  lemma {:induction false} SwapBack(ss: seq<Id>, target: Id, id: Id)
    requires target in ss && id !in ss
    ensures Swapped(Swapped(ss, target, id), id, target) == ss
  {
    if ss[0] != target {
      SwapBack(ss[1..], target, id);
    }
  }

  /** A creation that took over a Tab's Header place and then failed gives that very place back. */
  lemma ReplacementIsUndone(ss: seq<Id>, replaced: Id, id: Id)
    requires replaced in ss && id !in ss
    requires forall i, j | 0 <= i < j < |ss| :: ss[i] != ss[j]
    ensures ReplaceSummary(ReplaceSummary(ss, replaced, id), id, replaced) == ss
  {
    WithoutMembers(ss, {id}, id);
    var taken := Swapped(ss, replaced, id);
    SwappedIsGone(ss, replaced, id);
    WithoutMembers(taken, {replaced}, replaced);
    SwapBack(ss, replaced, id);
  }

  lemma {:induction false} SwappedIsGone(ss: seq<Id>, target: Id, id: Id)
    requires target in ss && id != target
    requires forall i, j | 0 <= i < j < |ss| :: ss[i] != ss[j]
    ensures target !in Swapped(ss, target, id)
  {
    if ss[0] == target {
      assert forall i | 0 < i < |ss| :: ss[i] != ss[0];
    } else {
      SwappedIsGone(ss[1..], target, id);
    }
  }

  function LastIn(ss: seq<Id>, ids: set<Id>): Option<Id> {
    if ss == [] then None
    else if ss[|ss| - 1] in ids then Some(ss[|ss| - 1])
    else LastIn(ss[..|ss| - 1], ids)
  }

  function FirstIn(ss: seq<Id>, ids: set<Id>): Option<Id> {
    if ss == [] then None else if ss[0] in ids then Some(ss[0]) else FirstIn(ss[1..], ids)
  }

  function IndexOf(ss: seq<Id>, id: Id): (k: nat)
    ensures k <= |ss| && (k < |ss| ==> ss[k] == id) && (k == |ss| ==> id !in ss)
    ensures forall i | 0 <= i < k :: ss[i] != id
  {
    if ss == [] || ss[0] == id then 0 else 1 + IndexOf(ss[1..], id)
  }

  function Fallback(ss: seq<Id>, id: Id, remaining: set<Id>): Option<Id> {
    var k := IndexOf(ss, id);
    if k == |ss| then None
    else
      var before := LastIn(ss[..k], remaining);
      if before.Some? then before else FirstIn(ss[k + 1..], remaining)
  }

  predicate NoneBetween(ss: seq<Id>, low: int, high: int, remaining: set<Id>) {
    forall i | low <= i < high && 0 <= i < |ss| :: ss[i] !in remaining
  }

  ghost predicate IsFallback(ss: seq<Id>, k: int, p: int, remaining: set<Id>) {
    && 0 <= p < |ss| && ss[p] in remaining
    && if p < k then NoneBetween(ss, p + 1, k, remaining)
       else k < p && NoneBetween(ss, 0, k, remaining) && NoneBetween(ss, k + 1, p, remaining)
  }

  lemma {:induction false} LastInMeans(ss: seq<Id>, k: nat, ids: set<Id>) returns (p: int)
    requires k <= |ss|
    ensures -1 <= p < k && NoneBetween(ss, p + 1, k, ids)
    ensures if p == -1 then LastIn(ss[..k], ids).None? else ss[p] in ids && LastIn(ss[..k], ids) == Some(ss[p])
  {
    if k == 0 || ss[k - 1] in ids {
      p := k - 1;
    } else {
      assert ss[..k][..k - 1] == ss[..k - 1];
      p := LastInMeans(ss, k - 1, ids);
    }
  }

  lemma {:induction false} FirstInMeans(ss: seq<Id>, k: nat, ids: set<Id>) returns (p: nat)
    requires k <= |ss|
    ensures k <= p <= |ss| && NoneBetween(ss, k, p, ids)
    ensures if p == |ss| then FirstIn(ss[k..], ids).None? else ss[p] in ids && FirstIn(ss[k..], ids) == Some(ss[p])
    decreases |ss| - k
  {
    if k == |ss| || ss[k] in ids {
      p := k;
    } else {
      assert ss[k..][1..] == ss[k + 1..];
      p := FirstInMeans(ss, k + 1, ids);
    }
  }

  /** The Tab shown after `id` goes away: the nearest remaining one before it, else the nearest after it. */
  lemma FallbackIsNearest(ss: seq<Id>, id: Id, remaining: set<Id>)
    requires id in ss
    ensures var k := IndexOf(ss, id);
            var r := Fallback(ss, id, remaining);
            if r.None? then NoneBetween(ss, 0, k, remaining) && NoneBetween(ss, k + 1, |ss|, remaining)
            else exists p :: IsFallback(ss, k, p, remaining) && ss[p] == r.value
  {
    var k := IndexOf(ss, id);
    var p := LastInMeans(ss, k, remaining);
    var q := FirstInMeans(ss, k + 1, remaining);
    assert IsFallback(ss, k, p, remaining) || p == -1;
    assert IsFallback(ss, k, q, remaining) || p != -1 || q == |ss|;
  }

  method FallbackAfterRemoval(ss: seq<Id>, id: Id, remaining: set<Id>) returns (r: Option<Id>)
    ensures r == Fallback(ss, id, remaining)
  {
    var index := 0;
    while index < |ss| && ss[index] != id
      invariant 0 <= index <= |ss|
      invariant IndexOf(ss, id) == index + IndexOf(ss[index..], id)
    {
      assert ss[index..][1..] == ss[index + 1..];
      index := index + 1;
    }
    if index == |ss| {
      return None;
    }
    assert IndexOf(ss, id) == index;
    var position := index - 1;
    while position >= 0
      invariant -1 <= position < index
      invariant LastIn(ss[..index], remaining) == LastIn(ss[..position + 1], remaining)
    {
      assert ss[..position + 1][..position] == ss[..position];
      if ss[position] in remaining {
        return Some(ss[position]);
      }
      position := position - 1;
    }
    position := index + 1;
    while position < |ss|
      invariant index < position <= |ss|
      invariant FirstIn(ss[index + 1..], remaining) == FirstIn(ss[position..], remaining)
    {
      assert ss[position..][1..] == ss[position + 1..];
      if ss[position] in remaining {
        return Some(ss[position]);
      }
      position := position + 1;
    }
    return None;
  }
}
