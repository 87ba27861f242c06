/**
 Which saved pane each live session returns to, read off the inputs alone, and when a pane is given
 to two sessions. Telnet sessions of an endpoint take its saved panes in order; the other sessions
 name their pane themselves, and the planner does not compare those.
 */
module PaneUse {
  import opened Basics
  import opened RestorePlan
  import opened TelnetMatching

  // ---------------------------------------------------------------- what the plan uses

  /** The saved panes that live sessions were given, in the order of the log. */
  function Used(log: seq<Entry>): seq<PaneId> {
    if log == [] then []
    else
      var last := log[|log| - 1];
      Used(log[..|log| - 1]) + if last.place.InSavedTab? then [last.paneId] else []
  }

  lemma UsedThen(log: seq<Entry>, e: Entry)
    ensures Used(log + [e]) == Used(log) + if e.place.InSavedTab? then [e.paneId] else []
  {
    assert (log + [e])[..|log|] == log;
  }

  /** Two sessions of the log are in the same saved pane. */
  predicate SharePane(log: seq<Entry>, i: nat, j: nat)
    requires i < |log| && j < |log|
  {
    log[i].place.InSavedTab? && log[j].place.InSavedTab? && log[i].paneId == log[j].paneId
  }

  lemma {:induction false} InUsed(log: seq<Entry>, p: PaneId)
    ensures p in Used(log) <==> exists i :: 0 <= i < |log| && log[i].place.InSavedTab? && log[i].paneId == p
  {
    if log != [] {
      var init, last := log[..|log| - 1], log[|log| - 1];
      InUsed(init, p);
      if i :| 0 <= i < |log| && log[i].place.InSavedTab? && log[i].paneId == p {
        assert i < |init| ==> init[i] == log[i];
      }
    }
  }

  lemma {:induction false} UsedTwice(log: seq<Entry>)
    ensures Distinct(Used(log)) <==> forall i, j | 0 <= i < j < |log| :: !SharePane(log, i, j)
  {
    if log != [] {
      var n := |log| - 1;
      var init, last := log[..n], log[n];
      UsedTwice(init);
      InUsed(init, last.paneId);
      DistinctThen(Used(init), last.paneId);
      assert forall i, j | 0 <= i < j < n :: SharePane(init, i, j) == SharePane(log, i, j);
      if last.place.InSavedTab? && last.paneId in Used(init) {
        var i :| 0 <= i < n && init[i].place.InSavedTab? && init[i].paneId == last.paneId;
        assert SharePane(log, i, n);
      }
      assert Used(init) + [] == Used(init);
    }
  }

  // ---------------------------------------------------------------- what the inputs ask for

  /** The saved pane an SSH or local session returns to. */
  function AttachTarget(inp: Inputs, s: AttachedSession): Option<PaneId> {
    if Owned(inp, s) then None else FirstOpenView(Open(inp), s.views)
  }

  function AttachTargets(inp: Inputs, n: nat): seq<PaneId>
    requires n <= |inp.attached|
  {
    if n == 0 then [] else AttachTargets(inp, n - 1) + IfAny(AttachTarget(inp, inp.attached[n - 1]))
  }

  function PluginTarget(inp: Inputs, s: PluginSession): Option<PaneId> {
    if PluginPlace(inp, s) == Some(InSavedTab) then Some(s.paneId) else None
  }

  function PluginTargets(inp: Inputs, n: nat): seq<PaneId>
    requires n <= |inp.plugin|
  {
    if n == 0 then [] else PluginTargets(inp, n - 1) + IfAny(PluginTarget(inp, inp.plugin[n - 1]))
  }

  /** One telnet session uses its target, or nothing. */
  lemma TelnetUsesOne(inp: Inputs, uuid: nat -> string, st: Planner, k: nat)
    requires WellFormed(inp) && k < |inp.telnet| && FirstOnesUsed(inp, st.unused, k)
    ensures var st' := TelnetOne(inp, uuid, st, inp.telnet[k]);
            && Used(st'.log) == Used(st.log) + IfAny(TelnetTarget(inp, k))
            && (st'.log != st.log <==> TelnetPlaced(inp, k))
  {
    var s, t := inp.telnet[k], TelnetTarget(inp, k);
    TelnetEffect(inp, uuid, st, k);
    if t.Some? {
      UsedThen(st.log, Entry(InSavedTab, TabFor(inp, t.value), t.value, s.identity));
    } else {
      UsedThen(st.log, Entry(InNewTab, uuid(st.next + 1), uuid(st.next), s.identity));
    }
  }

  /** A telnet session is placed when nobody owns it and a pane is left for it or a new tab is possible. */
  predicate TelnetPlaced(inp: Inputs, k: nat)
    requires k < |inp.telnet|
  {
    inp.telnet[k].identity !in Claimed(inp.registry) && (TelnetTarget(inp, k).Some? || !Uncertain(inp.registry))
  }

  // ---------------------------------------------------------------- the panes used are those asked for

  lemma AttachEffect(inp: Inputs, uuid: nat -> string, st: Planner, s: AttachedSession)
    ensures var t := AttachTarget(inp, s);
            AttachOne(inp, uuid, st, s)
            == if Owned(inp, s) then st
               else if t.None? then Adopt(inp, uuid, st, s.identity)
               else st.(log := st.log + [Entry(InSavedTab, TabFor(inp, t.value), t.value, s.identity)])
  {
    FirstOpenViewMeans(Open(inp), s.views);
  }

  /** One SSH or local session uses its target, or nothing. */
  lemma AttachUsesOne(inp: Inputs, uuid: nat -> string, st: Planner, s: AttachedSession)
    ensures Used(AttachOne(inp, uuid, st, s).log) == Used(st.log) + IfAny(AttachTarget(inp, s))
  {
    AttachEffect(inp, uuid, st, s);
    var t := AttachTarget(inp, s);
    if t.Some? {
      UsedThen(st.log, Entry(InSavedTab, TabFor(inp, t.value), t.value, s.identity));
    } else {
      UsedThen(st.log, Entry(InNewTab, uuid(st.next + 1), uuid(st.next), s.identity));
    }
  }

  predicate UsesTargets(inp: Inputs, st: Planner, k: nat)
    requires k <= |inp.attached|
  {
    Used(st.log) == AttachTargets(inp, k)
  }

  lemma AttachUsesNext(inp: Inputs, uuid: nat -> string, st: Planner, k: nat)
    requires k < |inp.attached| && UsesTargets(inp, st, k)
    ensures UsesTargets(inp, AttachOne(inp, uuid, st, inp.attached[k]), k + 1)
  {
    AttachUsesOne(inp, uuid, st, inp.attached[k]);
  }

  lemma {:induction false} AttachUses(inp: Inputs, uuid: nat -> string, n: nat)
    requires n <= |inp.attached|
    ensures UsesTargets(inp, AttachAll(inp, uuid, n), n)
  {
    if n > 0 {
      AttachUses(inp, uuid, n - 1);
      AttachUsesNext(inp, uuid, AttachAll(inp, uuid, n - 1), n - 1);
    }
  }

  lemma PluginUsesOne(inp: Inputs, st: Planner, s: PluginSession)
    ensures Used(PluginOne(inp, st, s).log) == Used(st.log) + IfAny(PluginTarget(inp, s))
  {
    if PluginPlace(inp, s).Some? {
      UsedThen(st.log, Entry(PluginPlace(inp, s).value, s.tabId, s.paneId, s.identity));
    }
  }

  lemma Joined(a: seq<PaneId>, b: seq<PaneId>, c: seq<PaneId>)
    ensures a + b + c == a + (b + c)
  {
  }

  lemma TelnetUsesNext(inp: Inputs, uuid: nat -> string, st: Planner, k: nat, before: seq<PaneId>)
    requires WellFormed(inp) && k < |inp.telnet| && FirstOnesUsed(inp, st.unused, k)
    requires Used(st.log) == before + TelnetTargets(inp, k)
    ensures Used(TelnetOne(inp, uuid, st, inp.telnet[k]).log) == before + TelnetTargets(inp, k + 1)
  {
    TelnetUsesOne(inp, uuid, st, k);
    Joined(before, TelnetTargets(inp, k), IfAny(TelnetTarget(inp, k)));
  }

  lemma {:induction false} TelnetUses(inp: Inputs, uuid: nat -> string, n: nat, before: seq<PaneId>)
    requires WellFormed(inp) && n <= |inp.telnet| && before == Used(AttachAll(inp, uuid, |inp.attached|).log)
    ensures Used(TelnetAll(inp, uuid, n).log) == before + TelnetTargets(inp, n)
  {
    if n > 0 {
      TelnetUses(inp, uuid, n - 1, before);
      UsedInOrder(inp, uuid, n - 1);
      TelnetUsesNext(inp, uuid, TelnetAll(inp, uuid, n - 1), n - 1, before);
    }
  }

  lemma {:induction false} PluginUses(inp: Inputs, uuid: nat -> string, n: nat, before: seq<PaneId>)
    requires n <= |inp.plugin| && before == Used(TelnetAll(inp, uuid, |inp.telnet|).log)
    ensures Used(PluginAll(inp, uuid, n).log) == before + PluginTargets(inp, n)
  {
    if n > 0 {
      PluginUses(inp, uuid, n - 1, before);
      PluginUsesOne(inp, PluginAll(inp, uuid, n - 1), inp.plugin[n - 1]);
      Joined(before, PluginTargets(inp, n - 1), IfAny(PluginTarget(inp, inp.plugin[n - 1])));
    }
  }

  /** The panes used are exactly those the inputs ask for, in order. */
  lemma UsedAsAsked(inp: Inputs, uuid: nat -> string)
    requires WellFormed(inp)
    ensures Used(Placed(inp, uuid))
            == AttachTargets(inp, |inp.attached|) + TelnetTargets(inp, |inp.telnet|) + PluginTargets(inp, |inp.plugin|)
  {
    AttachUses(inp, uuid, |inp.attached|);
    TelnetUses(inp, uuid, |inp.telnet|, AttachTargets(inp, |inp.attached|));
    PluginUses(inp, uuid, |inp.plugin|, Used(TelnetAll(inp, uuid, |inp.telnet|).log));
  }

  // ---------------------------------------------------------------- when a pane gets two sessions

  predicate Disjoint(a: seq<PaneId>, b: seq<PaneId>) {
    forall p | p in a :: p !in b
  }

  lemma TwoParts(a: seq<PaneId>, b: seq<PaneId>)
    ensures Distinct(a + b) <==> Distinct(a) && Distinct(b) && Disjoint(a, b)
  {
    if Distinct(a + b) {
      assert forall i | 0 <= i < |a| :: (a + b)[i] == a[i];
      assert forall i | 0 <= i < |b| :: (a + b)[|a| + i] == b[i];
    } else if Distinct(a) && Distinct(b) && Disjoint(a, b) {
      DistinctJoin(a, b);
    }
  }

  lemma ThreeParts(a: seq<PaneId>, b: seq<PaneId>, c: seq<PaneId>)
    requires Distinct(b)
    ensures Distinct(a + b + c) <==> Distinct(a + c) && Disjoint(a + c, b)
  {
    TwoParts(a + b, c);
    TwoParts(a, b);
    TwoParts(a, c);
  }

  /** The saved panes that SSH, local and plugin sessions name themselves. */
  function Named(inp: Inputs): seq<PaneId> {
    AttachTargets(inp, |inp.attached|) + PluginTargets(inp, |inp.plugin|)
  }

  /**
   No saved pane receives two live sessions exactly when no two sessions name the same pane, and none
   names a pane that a telnet session takes. The planner checks neither.
   */
  lemma PaneUsedOnceExactly(inp: Inputs, uuid: nat -> string)
    requires WellFormed(inp)
    ensures var log := Placed(inp, uuid);
            (forall i, j | 0 <= i < j < |log| :: !SharePane(log, i, j)) <==>
            Distinct(Named(inp)) && Disjoint(Named(inp), TelnetTargets(inp, |inp.telnet|))
  {
    UsedTwice(Placed(inp, uuid));
    UsedAsAsked(inp, uuid);
    TelnetTargetsDistinct(inp, |inp.telnet|);
    ThreeParts(AttachTargets(inp, |inp.attached|), TelnetTargets(inp, |inp.telnet|), PluginTargets(inp, |inp.plugin|));
  }

  function TwoShells(a: Identity, b: Identity, tab: TabId, pane: PaneId): Inputs {
    Inputs([], [SavedTab(tab, [SavedPane(pane, None)])], None,
           [AttachedSession(a, [pane]), AttachedSession(b, [pane])], [], [])
  }

  /** Two sessions attached to one saved pane are both given that pane. */
  lemma TwoShellsShareAPane(uuid: nat -> string, a: Identity, b: Identity, tab: TabId, pane: PaneId)
    ensures var log := Placed(TwoShells(a, b, tab, pane), uuid);
            && log == [Entry(InSavedTab, tab, pane, a), Entry(InSavedTab, tab, pane, b)]
            && SharePane(log, 0, 1)
  {
    var inp := TwoShells(a, b, tab, pane);
    var saved := inp.saved;
    assert RegisteredIds(inp.registry) == {} && Claimed(inp.registry) == {};
    assert saved[1..] == [] && Candidates(saved, {}) == saved;
    assert HasPane(saved[0], pane) by { assert saved[0].panes[0].paneId == pane; }
    assert FirstOpenView(saved, [pane]) == Some(pane) && TabOfPane(saved, pane) == Some(tab);
    assert AttachAll(inp, uuid, 1).log == [Entry(InSavedTab, tab, pane, a)];
    assert AttachAll(inp, uuid, 2).log == [Entry(InSavedTab, tab, pane, a)] + [Entry(InSavedTab, tab, pane, b)];
  }

  // ---------------------------------------------------------------- which telnet sessions are placed

  lemma TelnetPlacesOne(inp: Inputs, uuid: nat -> string, k: nat, id: Identity)
    requires WellFormed(inp) && k < |inp.telnet|
    ensures id in Identities(TelnetAll(inp, uuid, k + 1).log) <==>
              id in Identities(TelnetAll(inp, uuid, k).log) || (inp.telnet[k].identity == id && TelnetPlaced(inp, k))
  {
    var st, s := TelnetAll(inp, uuid, k), inp.telnet[k];
    UsedInOrder(inp, uuid, k);
    TelnetUsesOne(inp, uuid, st, k);
    TelnetAppends(inp, uuid, st, s);
    StepPlaces(st.log, TelnetOne(inp, uuid, st, s).log, s.identity, id);
  }

  lemma {:induction false} TelnetSoFarExactly(inp: Inputs, uuid: nat -> string, n: nat, id: Identity)
    requires WellFormed(inp) && n <= |inp.telnet|
    ensures id in Identities(TelnetAll(inp, uuid, n).log) <==>
              || id in Identities(AttachAll(inp, uuid, |inp.attached|).log)
              || exists k :: 0 <= k < n && inp.telnet[k].identity == id && TelnetPlaced(inp, k)
  {
    if n > 0 {
      TelnetSoFarExactly(inp, uuid, n - 1, id);
      TelnetPlacesOne(inp, uuid, n - 1, id);
    }
  }

  /** A telnet session is placed exactly when nobody owns it and a pane is left for it, or new tabs may be made. */
  lemma TelnetIsPlacedExactly(inp: Inputs, uuid: nat -> string, k: nat)
    requires WellFormed(inp) && Distinct(Sessions(inp)) && k < |inp.telnet|
    ensures inp.telnet[k].identity in Identities(Placed(inp, uuid)) <==> TelnetPlaced(inp, k)
  {
    var id, here := inp.telnet[k].identity, |inp.attached| + k;
    forall i | 0 <= i < |inp.attached|
      ensures inp.attached[i].identity != id
    {
      assert Sessions(inp)[i] != Sessions(inp)[here];
    }
    forall i | 0 <= i < |inp.telnet| && i != k
      ensures inp.telnet[i].identity != id
    {
      assert Sessions(inp)[here] != Sessions(inp)[|inp.attached| + i];
    }
    forall i | 0 <= i < |inp.plugin|
      ensures inp.plugin[i].identity != id
    {
      assert Sessions(inp)[here] != Sessions(inp)[|inp.attached| + |inp.telnet| + i];
    }
    PluginSoFar(inp, uuid, |inp.plugin|, id);
    TelnetSoFarExactly(inp, uuid, |inp.telnet|, id);
    AttachedSoFar(inp, uuid, |inp.attached|, id);
  }
}
