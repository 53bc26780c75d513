/** Backward (autograd.go): seed the root's gradient with 1, then walk the
    topological order from the root down, adding local-derivative times
    parent-gradient into each child's accumulator. */
module Backprop {
  import opened Autograd
  import opened Topo

  /** What a node with children `cs`, local derivatives `lg` and gradient
      `pg` pushes into node `n`: local derivative times `pg` for every
      position where `n` is listed, so a child listed twice (as in x + x)
      receives two contributions. */
  function Pushed(cs: seq<nat>, lg: seq<real>, n: nat, pg: real): real
    requires |cs| == |lg|
  {
    if |cs| == 0 then 0.0
    else Pushed(cs[..|cs| - 1], lg[..|lg| - 1], n, pg) + (if cs[|cs| - 1] == n then lg[|lg| - 1] * pg else 0.0)
  }

  /** What the nodes `order[lo..]` push into node `n`, each contributing its
      total local derivative with respect to `n` times its own gradient in `gr`. */
  function Incoming(g: Graph, order: seq<nat>, lo: nat, n: nat, gr: seq<real>): real
    requires ValidGraph(g) && |gr| == |g|
    requires forall i | 0 <= i < |order| :: order[i] < |g|
    decreases |order| - lo
  {
    if lo >= |order| then 0.0
    else
      var p := order[lo];
      Pushed(g[p].children, g[p].localGrads, n, gr[p]) + Incoming(g, order, lo + 1, n, gr)
  }

  function Grads(g: Graph): (gr: seq<real>)
    ensures |gr| == |g| && forall i | 0 <= i < |g| :: gr[i] == g[i].grad
  {
    seq(|g|, i requires 0 <= i < |g| => g[i].grad)
  }

  function WithGrads(g: Graph, gr: seq<real>): (g': Graph)
    requires |gr| == |g|
    ensures |g'| == |g|
    ensures forall i | 0 <= i < |g| :: g'[i] == g[i].(grad := gr[i])
  {
    seq(|g|, i requires 0 <= i < |g| => g[i].(grad := gr[i]))
  }

  lemma {:induction false} PushedAbsent(cs: seq<nat>, lg: seq<real>, n: nat, pg: real)
    requires |cs| == |lg| && n !in cs
    ensures Pushed(cs, lg, n, pg) == 0.0
  {
    if |cs| > 0 {
      PushedAbsent(cs[..|cs| - 1], lg[..|lg| - 1], n, pg);
    }
  }

  lemma PushedStep(cs: seq<nat>, lg: seq<real>, j: nat, n: nat, pg: real)
    requires |cs| == |lg| && j < |cs|
    ensures Pushed(cs[..j + 1], lg[..j + 1], n, pg)
         == Pushed(cs[..j], lg[..j], n, pg) + (if cs[j] == n then lg[j] * pg else 0.0)
  {
    assert cs[..j + 1][..j] == cs[..j];
    assert lg[..j + 1][..j] == lg[..j];
  }

  /** Incoming reads `gr` only at the listed nodes from `lo` on. */
  lemma {:induction false} IncomingFrame(g: Graph, order: seq<nat>, lo: nat, n: nat, a: seq<real>, b: seq<real>)
    requires ValidGraph(g) && |a| == |g| && |b| == |g|
    requires forall i | 0 <= i < |order| :: order[i] < |g|
    requires forall k | lo <= k < |order| :: a[order[k]] == b[order[k]]
    ensures Incoming(g, order, lo, n, a) == Incoming(g, order, lo, n, b)
    decreases |order| - lo
  {
    if lo < |order| {
      IncomingFrame(g, order, lo + 1, n, a, b);
    }
  }

  /** A node that is no child of any listed node from `lo` on receives nothing. */
  lemma {:induction false} IncomingNone(g: Graph, order: seq<nat>, lo: nat, n: nat, gr: seq<real>)
    requires ValidGraph(g) && |gr| == |g|
    requires forall i | 0 <= i < |order| :: order[i] < |g|
    requires forall k | lo <= k < |order| :: n !in g[order[k]].children
    ensures Incoming(g, order, lo, n, gr) == 0.0
    decreases |order| - lo
  {
    if lo < |order| {
      var p := order[lo];
      PushedAbsent(g[p].children, g[p].localGrads, n, gr[p]);
      IncomingNone(g, order, lo + 1, n, gr);
    }
  }

  /** Nodes listed from position `i` on are not children of `order[i]`. */
  lemma LaterNotChild(g: Graph, order: seq<nat>, i: nat, k: nat)
    requires forall q | 0 <= q < |order| :: order[q] < |g|
    requires Distinct(order) && PostOrder(g, order) && i <= k < |order|
    ensures order[k] !in g[order[i]].children
  {
  }

  /** One outer step: once node `order[i]` has pushed its contribution, the
      chain-rule equation for `n` holds from position `i` on. */
  lemma StepKeepsChainRule(g: Graph, order: seq<nat>, i: nat, seed: real, before: seq<real>, after: seq<real>, n: nat)
    requires ValidGraph(g) && |before| == |g| && |after| == |g| && n < |g|
    requires forall k | 0 <= k < |order| :: order[k] < |g|
    requires i < |order|
    requires forall k | i <= k < |order| :: after[order[k]] == before[order[k]]
    requires before[n] == seed + Incoming(g, order, i + 1, n, before)
    requires after[n] == before[n] + Pushed(g[order[i]].children, g[order[i]].localGrads, n, before[order[i]])
    ensures after[n] == seed + Incoming(g, order, i, n, after)
  {
    IncomingFrame(g, order, i + 1, n, after, before);
  }

  /** The inner loop of Backward: node `p` adds local derivative times its own
      gradient into each child, once per listed child. */
  method Propagate(g: Graph, gr: seq<real>, p: nat) returns (gr': seq<real>)
    requires ValidGraph(g) && |gr| == |g| && p < |g|
    ensures |gr'| == |g|
    ensures forall n | 0 <= n < |g| ::
      gr'[n] == gr[n] + Pushed(g[p].children, g[p].localGrads, n, gr[p])
  {
    var cs, lg := g[p].children, g[p].localGrads;
    gr' := gr;
    var j := 0;
    while j < |cs|
      invariant 0 <= j <= |cs|
      invariant |gr'| == |g|
      invariant gr'[p] == gr[p]
      invariant forall n | 0 <= n < |g| :: gr'[n] == gr[n] + Pushed(cs[..j], lg[..j], n, gr[p])
    {
      var c := cs[j];
      forall n | 0 <= n < |g|
        ensures Pushed(cs[..j + 1], lg[..j + 1], n, gr[p]) == Pushed(cs[..j], lg[..j], n, gr[p]) + (if c == n then lg[j] * gr[p] else 0.0)
      {
        PushedStep(cs, lg, j, n, gr[p]);
      }
      gr' := gr'[c := gr'[c] + lg[j] * gr'[p]];
      j := j + 1;
    }
    assert cs[..j] == cs && lg[..j] == lg;
  }

  /** The root and the nodes it cannot reach are nobody's child in the order. */
  lemma NothingIncoming(g: Graph, root: nat, order: seq<nat>, n: nat, gr: seq<real>)
    requires ValidGraph(g) && root < |g| && |gr| == |g| && n < |g|
    requires order == TopoOrder(g, root)
    requires n == root || n !in Reach(g, root)
    ensures Incoming(g, order, 0, n, gr) == 0.0
  {
    ReachBelow(g, root);
    forall k | 0 <= k < |order|
      ensures n !in g[order[k]].children
    {
      assert order[k] in Elems(order);
    }
    IncomingNone(g, order, 0, n, gr);
  }

  /** Backward from `root`: only gradients change; the root's gradient is
      overwritten with 1; every other node's gradient grows by exactly what
      its parents in the topological order push into it, each parent's
      gradient being final when it pushes (the chain rule); nodes the root
      cannot reach keep their gradient. */
  method Backward(g: Graph, root: nat) returns (g': Graph)
    requires ValidGraph(g) && root < |g|
    ensures |g'| == |g|
    ensures forall n | 0 <= n < |g| :: g'[n] == g[n].(grad := g'[n].grad)
    ensures g'[root].grad == 1.0
    ensures forall n | 0 <= n < |g| && n != root ::
      g'[n].grad == g[n].grad + Incoming(g, TopoOrder(g, root), 0, n, Grads(g'))
    ensures forall n | 0 <= n < |g| && n !in Reach(g, root) :: g'[n].grad == g[n].grad
  {
    var order := TopoOrder(g, root);
    var gr := Grads(g)[root := 1.0];
    ghost var seeded := gr;
    var i := |order|;
    while i > 0
      invariant 0 <= i <= |order|
      invariant |gr| == |g|
      invariant forall n | 0 <= n < |g| :: gr[n] == seeded[n] + Incoming(g, order, i, n, gr)
    {
      i := i - 1;
      ghost var before := gr;
      gr := Propagate(g, gr, order[i]);
      forall k | i <= k < |order|
        ensures gr[order[k]] == before[order[k]]
      {
        LaterNotChild(g, order, i, k);
        PushedAbsent(g[order[i]].children, g[order[i]].localGrads, order[k], before[order[i]]);
      }
      forall n | 0 <= n < |g|
        ensures gr[n] == seeded[n] + Incoming(g, order, i, n, gr)
      {
        StepKeepsChainRule(g, order, i, seeded[n], before, gr, n);
      }
    }
    g' := WithGrads(g, gr);
    assert Grads(g') == gr;
    forall n | 0 <= n < |g| && (n == root || n !in Reach(g, root))
      ensures Incoming(g, order, 0, n, gr) == 0.0
    {
      NothingIncoming(g, root, order, n, gr);
    }
  }

  /** When only the last listed node has `n` as a child, it alone feeds `n`. */
  lemma {:induction false} IncomingFromLastOnly(g: Graph, order: seq<nat>, lo: nat, n: nat, gr: seq<real>)
    requires ValidGraph(g) && |gr| == |g|
    requires forall i | 0 <= i < |order| :: order[i] < |g|
    requires lo < |order|
    requires forall k | lo <= k < |order| - 1 :: n !in g[order[k]].children
    ensures var p := order[|order| - 1];
      Incoming(g, order, lo, n, gr) == Pushed(g[p].children, g[p].localGrads, n, gr[p])
    decreases |order| - lo
  {
    var p := order[lo];
    if lo < |order| - 1 {
      PushedAbsent(g[p].children, g[p].localGrads, n, gr[p]);
      IncomingFromLastOnly(g, order, lo + 1, n, gr);
    }
  }

  lemma PushedTwice(x: nat, pg: real)
    ensures Pushed([x, x], [1.0, 1.0], x, pg) == 2.0 * pg
  {
    var cs, lg := [x, x], [1.0, 1.0];
    assert cs[..1] == [x] && lg[..1] == [1.0];
    assert [x][..0] == [] && [1.0][..0] == [];
    assert Pushed([x], [1.0], x, pg) == Pushed([], [], x, pg) + 1.0 * pg;
    assert Pushed(cs, lg, x, pg) == Pushed([x], [1.0], x, pg) + 1.0 * pg;
  }

  /** For z = x + x, Backward from z feeds x twice: x's gradient receives
      2 times z's gradient (both listed occurrences count). */
  lemma AddSelfFeedsTwice(g: Graph, x: nat, gr: seq<real>)
    requires ValidGraph(g) && x < |g|
    requires |gr| == |g| + 1
    ensures ValidGraph(Add(g, x, x))
    ensures Incoming(Add(g, x, x), TopoOrder(Add(g, x, x), |g|), 0, x, gr) == 2.0 * gr[|g|]
  {
    var g1 := Add(g, x, x);
    var root := |g|;
    var order := TopoOrder(g1, root);
    ReachBelow(g1, x);
    assert [x, x][1..] == [x];
    assert ReachAll(g1, root, [x]) == Reach(g1, x);
    assert Reach(g1, root) == {root} + Reach(g1, x);
    forall k | 0 <= k < |order| - 1
      ensures x !in g1[order[k]].children
    {
      assert order[k] in Elems(order);
      assert order[k] != order[|order| - 1];
      assert order[k] <= x;
    }
    IncomingFromLastOnly(g1, order, 0, x, gr);
    PushedTwice(x, gr[root]);
  }
}
