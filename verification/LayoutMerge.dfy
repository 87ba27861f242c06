/**
 Several windows share one saved layout. Each window replaces only the tabs it owns: an owned tab
 that the window no longer has was closed, and one the layout does not know yet is added at the end.
 */
module LayoutMerge {
  import opened Basics

  type TabId = string

  /** One saved tab; everything but its id is one text here. */
  datatype Tab = Tab(tabId: TabId, content: string)

  datatype Layout = Layout(activeTabId: Option<TabId>, tabs: seq<Tab>)

  function Find(tabs: seq<Tab>, id: TabId): Option<Tab> {
    if tabs == [] then None else if tabs[0].tabId == id then Some(tabs[0]) else Find(tabs[1..], id)
  }

  function Remove(tabs: seq<Tab>, id: TabId): seq<Tab> {
    if tabs == [] then [] else (if tabs[0].tabId == id then [] else [tabs[0]]) + Remove(tabs[1..], id)
  }

  /** The tabs a window does not own. */
  function Foreign(tabs: seq<Tab>, owned: set<TabId>): seq<Tab> {
    if tabs == [] then [] else (if tabs[0].tabId in owned then [] else [tabs[0]]) + Foreign(tabs[1..], owned)
  }

  // ---------------------------------------------------------------- the insertion-ordered map of local tabs

  /** Setting a key keeps its position; a new key goes to the end. */
  function Put(m: seq<Tab>, t: Tab): seq<Tab> {
    if m == [] then [t] else if m[0].tabId == t.tabId then [t] + m[1..] else [m[0]] + Put(m[1..], t)
  }

  function LocalById(tabs: seq<Tab>, owned: set<TabId>): seq<Tab> {
    if tabs == [] then []
    else
      var before, last := LocalById(tabs[..|tabs| - 1], owned), tabs[|tabs| - 1];
      if last.tabId in owned then Put(before, last) else before
  }

  function FindLast(tabs: seq<Tab>, id: TabId): Option<Tab> {
    if tabs == [] then None
    else if tabs[|tabs| - 1].tabId == id then Some(tabs[|tabs| - 1])
    else FindLast(tabs[..|tabs| - 1], id)
  }

  predicate HasId(tabs: seq<Tab>, id: TabId) {
    exists i :: 0 <= i < |tabs| && tabs[i].tabId == id
  }

  predicate DistinctIds(tabs: seq<Tab>) {
    forall i, j | 0 <= i < j < |tabs| :: tabs[i].tabId != tabs[j].tabId
  }

  // ---------------------------------------------------------------- merging

  datatype Walked = Walked(tabs: seq<Tab>, rest: seq<Tab>)

  function Replacement(r: Option<Tab>): seq<Tab> {
    if r.Some? then [r.value] else []
  }

  /** The pass over the latest layout; `m` loses every tab that was used. */
  function Walk(latest: seq<Tab>, m: seq<Tab>, owned: set<TabId>): Walked
    decreases |latest|
  {
    if latest == [] then Walked([], m)
    else
      var t, r := latest[0], Find(m, latest[0].tabId);
      if t.tabId !in owned then
        var w := Walk(latest[1..], m, owned);
        Walked([t] + w.tabs, w.rest)
      else
        var w := Walk(latest[1..], Remove(m, t.tabId), owned);
        Walked(Replacement(r) + w.tabs, w.rest)
  }

  function MergeTabs(latest: seq<Tab>, local: seq<Tab>, owned: set<TabId>): seq<Tab> {
    var w := Walk(latest, LocalById(local, owned), owned);
    w.tabs + w.rest
  }

  /** An id that is missing or empty is no choice. */
  predicate Chosen(id: Option<TabId>, tabs: seq<Tab>) {
    id.Some? && id.value != "" && HasId(tabs, id.value)
  }

  function MergeActive(latest: Option<TabId>, local: Option<TabId>, tabs: seq<Tab>): Option<TabId> {
    if Chosen(latest, tabs) then latest
    else if Chosen(local, tabs) then local
    else if tabs == [] then None else Some(tabs[0].tabId)
  }

  function Merge(latest: Layout, local: Layout, owned: set<TabId>): Layout {
    var tabs := MergeTabs(latest.tabs, local.tabs, owned);
    Layout(MergeActive(latest.activeTabId, local.activeTabId, tabs), tabs)
  }

  method MapLocalTabs(local: seq<Tab>, owned: set<TabId>) returns (localById: seq<Tab>)
    ensures localById == LocalById(local, owned)
  {
    localById := [];
    for k := 0 to |local|
      invariant localById == LocalById(local[..k], owned)
    {
      assert local[..k + 1][..k] == local[..k];
      if local[k].tabId in owned {
        localById := Put(localById, local[k]);
      }
    }
    assert local[..|local|] == local;
  }

  lemma WalkStep(merged: seq<Tab>, latest: seq<Tab>, i: nat, m: seq<Tab>, owned: set<TabId>)
    requires i < |latest|
    ensures var t := latest[i];
            var step := if t.tabId !in owned then [t] else Replacement(Find(m, t.tabId));
            var w := Walk(latest[i..], m, owned);
            var w' := Walk(latest[i + 1..], if t.tabId !in owned then m else Remove(m, t.tabId), owned);
            merged + w.tabs == merged + step + w'.tabs && w.rest == w'.rest
  {
    assert latest[i..][0] == latest[i] && latest[i..][1..] == latest[i + 1..];
  }

  /** The pass of the source, which deletes from the map and appends to the result. */
  method MergeOwnedTabs(latest: seq<Tab>, local: seq<Tab>, owned: set<TabId>) returns (merged: seq<Tab>)
    ensures merged == MergeTabs(latest, local, owned)
  {
    var localById := MapLocalTabs(local, owned);
    merged := [];
    ghost var whole := Walk(latest, localById, owned);
    for i := 0 to |latest|
      invariant var w := Walk(latest[i..], localById, owned);
                merged + w.tabs == whole.tabs && w.rest == whole.rest
    {
      var t := latest[i];
      WalkStep(merged, latest, i, localById, owned);
      if t.tabId !in owned {
        merged := merged + [t];
      } else {
        var replacement := Find(localById, t.tabId);
        localById := Remove(localById, t.tabId);
        merged := merged + Replacement(replacement);
      }
    }
    assert merged + [] == merged;
    merged := merged + localById;
  }

  // ---------------------------------------------------------------- maps

  lemma {:induction false} FindMeans(tabs: seq<Tab>, id: TabId)
    ensures Find(tabs, id).Some? <==> HasId(tabs, id)
    ensures Find(tabs, id).Some? ==> Find(tabs, id).value.tabId == id && Find(tabs, id).value in tabs
  {
    if tabs != [] && tabs[0].tabId != id {
      FindMeans(tabs[1..], id);
      if i :| 0 <= i < |tabs| && tabs[i].tabId == id {
        assert tabs[1..][i - 1].tabId == id;
      }
    }
  }

  lemma {:induction false} FindAfterRemove(m: seq<Tab>, id: TabId, other: TabId)
    ensures Find(Remove(m, id), other) == if other == id then None else Find(m, other)
  {
    if m != [] {
      FindAfterRemove(m[1..], id, other);
      if m[0].tabId != id {
        assert Remove(m, id)[1..] == Remove(m[1..], id);
      } else {
        assert Remove(m, id) == Remove(m[1..], id);
      }
    }
  }

  lemma {:induction false} FindAfterPut(m: seq<Tab>, t: Tab, id: TabId)
    ensures Find(Put(m, t), id) == if id == t.tabId then Some(t) else Find(m, id)
  {
    if m != [] && m[0].tabId != t.tabId {
      FindAfterPut(m[1..], t, id);
    }
  }

  lemma {:induction false} FindLocal(tabs: seq<Tab>, owned: set<TabId>, id: TabId)
    ensures Find(LocalById(tabs, owned), id) == if id in owned then FindLast(tabs, id) else None
  {
    if tabs != [] {
      var before, last := LocalById(tabs[..|tabs| - 1], owned), tabs[|tabs| - 1];
      FindLocal(tabs[..|tabs| - 1], owned, id);
      FindAfterPut(before, last, id);
    }
  }

  /** No id occurs twice, said through lookups. */
  ghost predicate Keyed(m: seq<Tab>, owned: set<TabId>) {
    m == [] || (m[0].tabId in owned && Find(m[1..], m[0].tabId).None? && Keyed(m[1..], owned))
  }

  lemma {:induction false} PutIsKeyed(m: seq<Tab>, t: Tab, owned: set<TabId>)
    requires Keyed(m, owned) && t.tabId in owned
    ensures Keyed(Put(m, t), owned)
  {
    if m != [] && m[0].tabId != t.tabId {
      PutIsKeyed(m[1..], t, owned);
      FindAfterPut(m[1..], t, m[0].tabId);
    }
  }

  lemma {:induction false} LocalIsKeyed(tabs: seq<Tab>, owned: set<TabId>)
    ensures Keyed(LocalById(tabs, owned), owned)
  {
    if tabs != [] {
      LocalIsKeyed(tabs[..|tabs| - 1], owned);
      if tabs[|tabs| - 1].tabId in owned {
        PutIsKeyed(LocalById(tabs[..|tabs| - 1], owned), tabs[|tabs| - 1], owned);
      }
    }
  }

  lemma {:induction false} RemoveIsKeyed(m: seq<Tab>, id: TabId, owned: set<TabId>)
    requires Keyed(m, owned)
    ensures Keyed(Remove(m, id), owned)
  {
    if m != [] {
      RemoveIsKeyed(m[1..], id, owned);
      FindAfterRemove(m[1..], id, m[0].tabId);
      if m[0].tabId != id {
        assert Remove(m, id)[1..] == Remove(m[1..], id);
      } else {
        assert Remove(m, id) == Remove(m[1..], id);
      }
    }
  }

  lemma {:induction false} RemoveAbsent(m: seq<Tab>, id: TabId)
    requires Find(m, id).None?
    ensures Remove(m, id) == m
  {
    if m != [] {
      RemoveAbsent(m[1..], id);
      assert [m[0]] + m[1..] == m;
    }
  }

  // ---------------------------------------------------------------- what the merged layout holds

  lemma {:induction false} FindWalked(latest: seq<Tab>, m: seq<Tab>, owned: set<TabId>, id: TabId)
    requires Keyed(m, owned)
    ensures var w := Walk(latest, m, owned);
            Find(w.tabs + w.rest, id) == if id in owned then Find(m, id) else Find(latest, id)
    decreases |latest|
  {
    if latest == [] {
      assert [] + m == m;
      KeyedIsOwned(m, owned, id);
    } else {
      var t := latest[0];
      var m' := if t.tabId in owned then Remove(m, t.tabId) else m;
      var w := Walk(latest[1..], m', owned);
      RemoveIsKeyed(m, t.tabId, owned);
      FindWalked(latest[1..], m', owned, id);
      FindAfterRemove(m, t.tabId, id);
      FindMeans(m, t.tabId);
      var r := Find(m, t.tabId);
      if t.tabId !in owned {
        FindHead(t, w.tabs, w.rest, id);
      } else if r.Some? {
        FindHead(r.value, w.tabs, w.rest, id);
      } else {
        assert [] + w.tabs == w.tabs;
      }
    }
  }

  lemma FindHead(t: Tab, tabs: seq<Tab>, rest: seq<Tab>, id: TabId)
    ensures Find([t] + tabs + rest, id) == if t.tabId == id then Some(t) else Find(tabs + rest, id)
  {
    assert ([t] + tabs + rest)[1..] == tabs + rest;
  }

  lemma {:induction false} KeyedIsOwned(m: seq<Tab>, owned: set<TabId>, id: TabId)
    requires Keyed(m, owned)
    ensures id !in owned ==> Find(m, id).None?
  {
    if m != [] {
      KeyedIsOwned(m[1..], owned, id);
    }
  }

  /**
   The merged layout as a map: an owned tab is exactly the local one, present or not, and every
   other tab is exactly the saved one. With a repeated id the first saved and the last local count.
   */
  lemma MergedMeans(latest: Layout, local: Layout, owned: set<TabId>, id: TabId)
    ensures Find(Merge(latest, local, owned).tabs, id)
            == if id in owned then FindLast(local.tabs, id) else Find(latest.tabs, id)
  {
    LocalIsKeyed(local.tabs, owned);
    FindWalked(latest.tabs, LocalById(local.tabs, owned), owned, id);
    FindLocal(local.tabs, owned, id);
  }

  lemma {:induction false} ForeignJoins(a: seq<Tab>, b: seq<Tab>, owned: set<TabId>)
    ensures Foreign(a + b, owned) == Foreign(a, owned) + Foreign(b, owned)
  {
    if a == [] {
      assert a + b == b;
    } else {
      assert (a + b)[1..] == a[1..] + b;
      ForeignJoins(a[1..], b, owned);
    }
  }

  lemma {:induction false} KeyedHasNoForeign(m: seq<Tab>, owned: set<TabId>)
    requires Keyed(m, owned)
    ensures Foreign(m, owned) == []
  {
    if m != [] {
      KeyedHasNoForeign(m[1..], owned);
    }
  }

  lemma {:induction false} WalkKeepsForeign(latest: seq<Tab>, m: seq<Tab>, owned: set<TabId>)
    requires Keyed(m, owned)
    ensures var w := Walk(latest, m, owned);
            Foreign(w.tabs, owned) == Foreign(latest, owned) && Keyed(w.rest, owned)
    decreases |latest|
  {
    if latest != [] {
      var t := latest[0];
      var m' := if t.tabId in owned then Remove(m, t.tabId) else m;
      var w := Walk(latest[1..], m', owned);
      RemoveIsKeyed(m, t.tabId, owned);
      WalkKeepsForeign(latest[1..], m', owned);
      FindMeans(m, t.tabId);
      var r := Find(m, t.tabId);
      if t.tabId !in owned {
        assert ([t] + w.tabs)[1..] == w.tabs;
      } else if r.Some? {
        assert ([r.value] + w.tabs)[1..] == w.tabs;
      } else {
        assert [] + w.tabs == w.tabs;
      }
    }
  }

  /** The tabs of other windows stay as they are, and in their order. */
  lemma ForeignTabsAreKept(latest: Layout, local: Layout, owned: set<TabId>)
    ensures Foreign(Merge(latest, local, owned).tabs, owned) == Foreign(latest.tabs, owned)
  {
    var m := LocalById(local.tabs, owned);
    var w := Walk(latest.tabs, m, owned);
    LocalIsKeyed(local.tabs, owned);
    WalkKeepsForeign(latest.tabs, m, owned);
    ForeignJoins(w.tabs, w.rest, owned);
    KeyedHasNoForeign(w.rest, owned);
  }

  // ---------------------------------------------------------------- merging again

  lemma {:induction false} WalkOwn(m: seq<Tab>, owned: set<TabId>)
    requires Keyed(m, owned)
    ensures Walk(m, m, owned) == Walked(m, [])
  {
    if m != [] {
      WalkOwn(m[1..], owned);
      RemoveAbsent(m[1..], m[0].tabId);
      assert Remove(m, m[0].tabId) == m[1..];
      assert [m[0]] + m[1..] == m;
    }
  }

  lemma {:induction false} WalkAgain(latest: seq<Tab>, m: seq<Tab>, owned: set<TabId>)
    requires Keyed(m, owned)
    ensures var w := Walk(latest, m, owned);
            Walk(w.tabs + w.rest, m, owned) == Walked(w.tabs + w.rest, [])
    decreases |latest|
  {
    if latest == [] {
      assert [] + m == m;
      WalkOwn(m, owned);
    } else {
      var t := latest[0];
      var m' := if t.tabId in owned then Remove(m, t.tabId) else m;
      var w := Walk(latest[1..], m', owned);
      RemoveIsKeyed(m, t.tabId, owned);
      WalkAgain(latest[1..], m', owned);
      FindMeans(m, t.tabId);
      var r := Find(m, t.tabId);
      if t.tabId !in owned {
        WalkHead(t, w.tabs, w.rest, m, owned);
      } else if r.Some? {
        WalkHead(r.value, w.tabs, w.rest, m, owned);
      } else {
        RemoveAbsent(m, t.tabId);
        assert [] + w.tabs == w.tabs;
      }
    }
  }

  lemma WalkHead(t: Tab, tabs: seq<Tab>, rest: seq<Tab>, m: seq<Tab>, owned: set<TabId>)
    requires t.tabId in owned ==> Find(m, t.tabId) == Some(t)
    requires Walk(tabs + rest, if t.tabId in owned then Remove(m, t.tabId) else m, owned) == Walked(tabs + rest, [])
    ensures Walk([t] + tabs + rest, m, owned) == Walked([t] + tabs + rest, [])
  {
    var s := [t] + tabs + rest;
    assert s[0] == t && s[1..] == tabs + rest;
    assert [t] + (tabs + rest) == s;
  }

  /** Writing the same local state again changes nothing. */
  lemma MergeIsIdempotent(latest: Layout, local: Layout, owned: set<TabId>)
    ensures Merge(Merge(latest, local, owned), local, owned) == Merge(latest, local, owned)
  {
    var m := LocalById(local.tabs, owned);
    var once := Merge(latest, local, owned);
    LocalIsKeyed(local.tabs, owned);
    WalkAgain(latest.tabs, m, owned);
    assert Merge(once, local, owned).tabs == once.tabs + [] == once.tabs;
    ActiveIsStable(latest.activeTabId, local.activeTabId, once.tabs);
  }

  lemma ActiveIsStable(latest: Option<TabId>, local: Option<TabId>, tabs: seq<Tab>)
    ensures MergeActive(MergeActive(latest, local, tabs), local, tabs) == MergeActive(latest, local, tabs)
  {
    if tabs != [] {
      assert HasId(tabs, tabs[0].tabId);
    }
  }

  // ---------------------------------------------------------------- two windows

  /** Windows that own different tabs may write in either order: the layout is the same map. */
  lemma MergesCommute(latest: Layout, x: Layout, y: Layout, a: set<TabId>, b: set<TabId>, id: TabId)
    requires a !! b
    ensures Find(Merge(Merge(latest, x, a), y, b).tabs, id) == Find(Merge(Merge(latest, y, b), x, a).tabs, id)
  {
    MergedMeans(Merge(latest, x, a), y, b, id);
    MergedMeans(latest, x, a, id);
    MergedMeans(Merge(latest, y, b), x, a, id);
    MergedMeans(latest, y, b, id);
  }

  /** With distinct saved ids the merged ids are distinct, so the map above is the whole list. */
  lemma {:induction false} WalkedIsDistinct(latest: seq<Tab>, m: seq<Tab>, owned: set<TabId>)
    requires Keyed(m, owned) && DistinctIds(latest)
    ensures var w := Walk(latest, m, owned); DistinctIds(w.tabs + w.rest)
    decreases |latest|
  {
    if latest == [] {
      assert [] + m == m;
      KeyedIsDistinct(m, owned);
    } else {
      var t := latest[0];
      var m' := if t.tabId in owned then Remove(m, t.tabId) else m;
      var w := Walk(latest[1..], m', owned);
      RemoveIsKeyed(m, t.tabId, owned);
      WalkedIsDistinct(latest[1..], m', owned);
      FindWalked(latest[1..], m', owned, t.tabId);
      FindAfterRemove(m, t.tabId, t.tabId);
      FindMeans(latest[1..], t.tabId);
      FindMeans(w.tabs + w.rest, t.tabId);
      FindMeans(m, t.tabId);
      var r := Find(m, t.tabId);
      if t.tabId !in owned {
        HeadIsDistinct(t, w.tabs + w.rest);
        assert [t] + w.tabs + w.rest == [t] + (w.tabs + w.rest);
      } else if r.Some? {
        HeadIsDistinct(r.value, w.tabs + w.rest);
        assert [r.value] + w.tabs + w.rest == [r.value] + (w.tabs + w.rest);
      } else {
        assert [] + w.tabs == w.tabs;
      }
    }
  }

  lemma HeadIsDistinct(t: Tab, tabs: seq<Tab>)
    requires DistinctIds(tabs) && !HasId(tabs, t.tabId)
    ensures DistinctIds([t] + tabs)
  {
    var s := [t] + tabs;
    forall i, j | 0 <= i < j < |s|
      ensures s[i].tabId != s[j].tabId
    {
      assert s[j] == tabs[j - 1];
      if i > 0 {
        assert s[i] == tabs[i - 1];
      }
    }
  }

  lemma {:induction false} KeyedIsDistinct(m: seq<Tab>, owned: set<TabId>)
    requires Keyed(m, owned)
    ensures DistinctIds(m)
  {
    if m != [] {
      KeyedIsDistinct(m[1..], owned);
      FindMeans(m[1..], m[0].tabId);
      HeadIsDistinct(m[0], m[1..]);
      assert [m[0]] + m[1..] == m;
    }
  }

  lemma MergedIsDistinct(latest: Layout, local: Layout, owned: set<TabId>)
    requires DistinctIds(latest.tabs)
    ensures DistinctIds(Merge(latest, local, owned).tabs)
  {
    LocalIsKeyed(local.tabs, owned);
    WalkedIsDistinct(latest.tabs, LocalById(local.tabs, owned), owned);
  }

  /** The active tab is missing only from an empty layout, is one of the tabs, and survives if it can. */
  lemma ActiveTabIsMerged(latest: Layout, local: Layout, owned: set<TabId>)
    ensures var r := Merge(latest, local, owned);
            && (r.activeTabId.None? <==> r.tabs == [])
            && (r.activeTabId.Some? ==> HasId(r.tabs, r.activeTabId.value))
            && (Chosen(latest.activeTabId, r.tabs) ==> r.activeTabId == latest.activeTabId)
  {
    var r := Merge(latest, local, owned);
    if r.tabs != [] {
      assert r.tabs[0].tabId == r.tabs[0].tabId && HasId(r.tabs, r.tabs[0].tabId);
    }
  }
}
