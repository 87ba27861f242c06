/**
 The layout made for sessions that no saved pane can take: their panes side by side. The tree grows
 to the left, and each split gives the part built so far its share of the width.
 */
module SyntheticLayout {

  datatype Layout =
    | Pane(paneId: string)
    | Split(ratio: real, first: Layout, second: Layout)

  /** The leaves from left to right. */
  function Leaves(node: Layout): seq<string> {
    match node
    case Pane(id) => [id]
    case Split(_, first, second) => Leaves(first) + Leaves(second)
  }

  /** The share of the whole width that each leaf gets, from left to right. */
  function Shares(node: Layout, width: real): seq<real> {
    match node
    case Pane(_) => [width]
    case Split(ratio, first, second) => Shares(first, width * ratio) + Shares(second, width * (1.0 - ratio))
  }

  /** The fold over all panes but the first; `k` counts the splits made before. */
  function Side(panes: seq<string>): Layout
    requires panes != []
  {
    if |panes| == 1 then Pane(panes[0])
    else Split(Ratio(|panes| - 2), Side(panes[..|panes| - 1]), Pane(panes[|panes| - 1]))
  }

  function Ratio(index: nat): real {
    (index + 1) as real / (index + 2) as real
  }

  method SideBySide(panes: seq<string>) returns (layout: Layout)
    requires panes != []
    ensures layout == Side(panes)
    ensures Leaves(layout) == panes
  {
    layout := Pane(panes[0]);
    assert panes[..1] == [panes[0]];
    for index := 0 to |panes| - 1
      invariant layout == Side(panes[..index + 1])
    {
      assert panes[..index + 2][..index + 1] == panes[..index + 1];
      layout := Split(Ratio(index), layout, Pane(panes[index + 1]));
    }
    assert panes[..|panes|] == panes;
    LeavesInOrder(panes);
  }

  lemma {:induction false} LeavesInOrder(panes: seq<string>)
    requires panes != []
    ensures Leaves(Side(panes)) == panes
  {
    if |panes| > 1 {
      LeavesInOrder(panes[..|panes| - 1]);
    }
  }

  lemma RatioSplits(n: nat, share: real)
    requires n >= 2
    ensures n as real * share * Ratio(n - 2) == (n - 1) as real * share
    ensures n as real * share * (1.0 - Ratio(n - 2)) == share
  {
    var m, k := (n - 1) as real, n as real;
    assert (m / k) * k == m;
    assert k * share * (m / k) == ((m / k) * k) * share;
    assert k * share - m * share == (k - m) * share;
  }

  lemma SplitShares(ratio: real, first: Layout, second: Layout, width: real, w1: real, w2: real)
    requires w1 == width * ratio && w2 == width * (1.0 - ratio)
    ensures Shares(Split(ratio, first, second), width) == Shares(first, w1) + Shares(second, w2)
  {
  }

  lemma {:induction false} EqualShares(panes: seq<string>, share: real, width: real)
    requires panes != [] && width == |panes| as real * share
    ensures Shares(Side(panes), width) == Times(|panes|, share)
  {
    var n := |panes|;
    if n == 1 {
      assert width == share;
      assert Times(1, share) == Times(0, share) + [share];
    } else {
      var init := panes[..n - 1];
      RatioSplits(n, share);
      SplitShares(Ratio(n - 2), Side(init), Pane(panes[n - 1]), width, (n - 1) as real * share, share);
      EqualShares(init, share, (n - 1) as real * share);
    }
  }

  /** Every pane gets exactly the same width. */
  lemma SharesAreEqual(panes: seq<string>, width: real)
    requires panes != []
    ensures Shares(Side(panes), width) == Times(|panes|, width / |panes| as real)
  {
    EqualShares(panes, width / |panes| as real, width);
  }

  function Times(n: nat, x: real): seq<real> {
    if n == 0 then [] else Times(n - 1, x) + [x]
  }

  /** The ratios are proper: no pane is hidden. */
  lemma RatioIsProper(index: nat)
    ensures 0.0 < Ratio(index) < 1.0
  {
    var m, k := (index + 1) as real, (index + 2) as real;
    assert (m / k) * k == m;
  }
}
