/** The topological order that Backward builds (autograd.go, the nested
    buildTopo closure): a depth-first traversal from the root that marks a
    node visited before descending into its children and emits it after
    them. */
module Topo {
  import opened Autograd

  function Elems(s: seq<nat>): set<nat> {
    set x | x in s
  }

  predicate Distinct(s: seq<nat>) {
    forall i, j | 0 <= i < j < |s| :: s[i] != s[j]
  }

  /** Every child of a listed node is listed strictly earlier. */
  predicate PostOrder(g: Graph, s: seq<nat>)
    requires forall i | 0 <= i < |s| :: s[i] < |g|
  {
    forall i, c | 0 <= i < |s| && c in g[s[i]].children :: c in s[..i]
  }

  /** The nodes reachable from `n` along child edges, `n` included. */
  function Reach(g: Graph, n: nat): set<nat>
    requires ValidGraph(g) && n < |g|
    decreases n, 1
  {
    {n} + ReachAll(g, n, g[n].children)
  }

  /** The union of `Reach` over a list of children of `p`. */
  function ReachAll(g: Graph, p: nat, cs: seq<nat>): set<nat>
    requires ValidGraph(g) && p < |g|
    requires forall i | 0 <= i < |cs| :: cs[i] < p
    decreases p, 0, |cs|
  {
    if |cs| == 0 then {} else Reach(g, cs[0]) + ReachAll(g, p, cs[1..])
  }

  lemma {:induction false} ReachBelow(g: Graph, n: nat)
    requires ValidGraph(g) && n < |g|
    ensures forall x | x in Reach(g, n) :: x <= n
    decreases n, 1
  {
    ReachAllBelow(g, n, g[n].children);
  }

  lemma {:induction false} ReachAllBelow(g: Graph, p: nat, cs: seq<nat>)
    requires ValidGraph(g) && p < |g|
    requires forall i | 0 <= i < |cs| :: cs[i] < p
    ensures forall x | x in ReachAll(g, p, cs) :: x < p
    decreases p, 0, |cs|
  {
    if |cs| > 0 {
      ReachBelow(g, cs[0]);
      ReachAllBelow(g, p, cs[1..]);
    }
  }

  /** Each listed child is itself reached. */
  lemma {:induction false} ReachAllHasChildren(g: Graph, p: nat, cs: seq<nat>)
    requires ValidGraph(g) && p < |g|
    requires forall i | 0 <= i < |cs| :: cs[i] < p
    ensures forall c | c in cs :: c in ReachAll(g, p, cs)
    decreases |cs|
  {
    if |cs| > 0 {
      ReachAllHasChildren(g, p, cs[1..]);
      forall c | c in cs
        ensures c in ReachAll(g, p, cs)
      {
        if c != cs[0] {
          assert c in cs[1..];
        }
      }
    }
  }

  /** A set closed under children holds everything reachable from its members. */
  lemma {:induction false} ClosedHoldsReach(g: Graph, s: set<nat>, n: nat)
    requires ValidGraph(g) && n < |g| && n in s
    requires forall x, c | x in s && x < |g| && c in g[x].children :: c in s
    ensures Reach(g, n) <= s
    decreases n, 1
  {
    ClosedHoldsReachAll(g, s, n, g[n].children);
  }

  lemma {:induction false} ClosedHoldsReachAll(g: Graph, s: set<nat>, p: nat, cs: seq<nat>)
    requires ValidGraph(g) && p < |g|
    requires forall i | 0 <= i < |cs| :: cs[i] < p && cs[i] in s
    requires forall x, c | x in s && x < |g| && c in g[x].children :: c in s
    ensures ReachAll(g, p, cs) <= s
    decreases p, 0, |cs|
  {
    if |cs| > 0 {
      ClosedHoldsReach(g, s, cs[0]);
      ClosedHoldsReachAll(g, s, p, cs[1..]);
    }
  }

  /** A post-order list is closed under children. */
  lemma PostOrderClosed(g: Graph, s: seq<nat>)
    requires forall i | 0 <= i < |s| :: s[i] < |g|
    requires PostOrder(g, s)
    ensures forall x, c | x in Elems(s) && x < |g| && c in g[x].children :: c in Elems(s)
  {
    forall x, c | x in Elems(s) && x < |g| && c in g[x].children
      ensures c in Elems(s)
    {
      var i :| 0 <= i < |s| && s[i] == x;
      assert c in s[..i];
    }
  }

  /** Traversal state: the visited set and the post-order emitted so far. */
  datatype Dfs = Dfs(visited: set<nat>, topo: seq<nat>)

  /** The emitted list is a duplicate-free post-order of arena nodes, all of
      them visited. Visited nodes not yet emitted are the ones still being
      explored further up the recursion. */
  ghost predicate DfsInv(g: Graph, st: Dfs) {
    && (forall i | 0 <= i < |st.topo| :: st.topo[i] < |g|)
    && Distinct(st.topo)
    && Elems(st.topo) <= st.visited
    && PostOrder(g, st.topo)
  }

  /** Visited nodes not yet emitted: those still being explored further up
      the recursion. */
  function Pending(st: Dfs): set<nat> {
    st.visited - Elems(st.topo)
  }

  lemma ElemsAppend(s: seq<nat>, n: nat)
    ensures Elems(s + [n]) == Elems(s) + {n}
  {
    assert forall x | x in s + [n] :: x in s || x == n;
  }

  /** Emitting `n` after all its children keeps the traversal invariant. */
  lemma EmitKeepsInv(g: Graph, st: Dfs, n: nat)
    requires ValidGraph(g) && n < |g| && DfsInv(g, st)
    requires n in st.visited && n !in Elems(st.topo)
    requires forall c | c in g[n].children :: c in Elems(st.topo)
    ensures DfsInv(g, Dfs(st.visited, st.topo + [n]))
  {
    var t := st.topo + [n];
    ElemsAppend(st.topo, n);
    assert forall i | 0 <= i < |st.topo| :: t[..i] == st.topo[..i];
    assert t[..|st.topo|] == st.topo;
    forall i, j | 0 <= i < j < |t|
      ensures t[i] != t[j]
    {
      if j == |st.topo| {
        assert t[i] in Elems(st.topo);
      }
    }
  }

  /** buildTopo(n): skip a visited node; otherwise mark it, explore its
      children in order, then emit it. Pending nodes all lie above `n`, so
      none of them is reachable from `n`. */
  function Visit(g: Graph, n: nat, st: Dfs): (r: Dfs)
    requires ValidGraph(g) && n < |g| && DfsInv(g, st)
    requires forall x | x in Pending(st) :: n < x
    ensures DfsInv(g, r)
    ensures st.topo <= r.topo
    ensures r.visited == st.visited + Reach(g, n)
    ensures Elems(r.topo) == Elems(st.topo) + Reach(g, n)
    ensures Pending(r) == Pending(st)
    ensures n !in st.visited ==> |r.topo| > 0 && r.topo[|r.topo| - 1] == n
    decreases n, 1
  {
    ReachBelow(g, n);
    if n in st.visited then
      assert n !in Pending(st);
      assert n in Elems(st.topo);
      PostOrderClosed(g, st.topo);
      ClosedHoldsReach(g, Elems(st.topo), n);
      st
    else
      var st1 := Dfs(st.visited + {n}, st.topo);
      assert Pending(st1) == Pending(st) + {n};
      var st2 := VisitAll(g, n, g[n].children, st1);
      ReachAllBelow(g, n, g[n].children);
      ReachAllHasChildren(g, n, g[n].children);
      assert n !in Elems(st2.topo);
      EmitKeepsInv(g, st2, n);
      ElemsAppend(st2.topo, n);
      var r := Dfs(st2.visited, st2.topo + [n]);
      assert Pending(r) == Pending(st2) - {n};
      r
  }

  /** The loop over a node's children inside buildTopo. */
  function VisitAll(g: Graph, p: nat, cs: seq<nat>, st: Dfs): (r: Dfs)
    requires ValidGraph(g) && p < |g| && DfsInv(g, st)
    requires forall i | 0 <= i < |cs| :: cs[i] < p
    requires forall x | x in Pending(st) :: p <= x
    ensures DfsInv(g, r)
    ensures st.topo <= r.topo
    ensures r.visited == st.visited + ReachAll(g, p, cs)
    ensures Elems(r.topo) == Elems(st.topo) + ReachAll(g, p, cs)
    ensures Pending(r) == Pending(st)
    decreases p, 0, |cs|
  {
    if |cs| == 0 then st
    else
      hide *;
      var st1 := Visit(g, cs[0], st);
      var r := VisitAll(g, p, cs[1..], st1);
      ReachAllFirst(g, p, cs);
      UnionAssoc(st.visited, Reach(g, cs[0]), ReachAll(g, p, cs[1..]));
      UnionAssoc(Elems(st.topo), Reach(g, cs[0]), ReachAll(g, p, cs[1..]));
      r
  }

  lemma ReachAllFirst(g: Graph, p: nat, cs: seq<nat>)
    requires ValidGraph(g) && p < |g| && |cs| > 0
    requires forall i | 0 <= i < |cs| :: cs[i] < p
    ensures ReachAll(g, p, cs) == Reach(g, cs[0]) + ReachAll(g, p, cs[1..])
  {
  }

  lemma UnionAssoc(a: set<nat>, b: set<nat>, c: set<nat>)
    ensures (a + b) + c == a + (b + c)
  {
  }

  /** The order Backward walks (in reverse): every node reachable from the
      root exactly once, children before parents, the root last. */
  function TopoOrder(g: Graph, root: nat): (order: seq<nat>)
    requires ValidGraph(g) && root < |g|
    ensures forall i | 0 <= i < |order| :: order[i] < |g|
    ensures Distinct(order)
    ensures Elems(order) == Reach(g, root)
    ensures PostOrder(g, order)
    ensures |order| > 0 && order[|order| - 1] == root
  {
    Visit(g, root, Dfs({}, [])).topo
  }
}
