/** The scalar reverse-mode autodiff engine (autograd.go), as an arena of
    nodes addressed by index. A node's children always sit at smaller
    indices than the node itself, which is the construction-order invariant
    that makes the parent relation acyclic. */
module Autograd {
  import opened Transcendental

  /** One scalar value: its data, its gradient accumulator, the arena indices
      of the inputs that produced it, and the local derivative with respect
      to each of those inputs (aligned by position). */
  datatype Node = Node(data: real, grad: real, children: seq<nat>, localGrads: seq<real>)

  type Graph = seq<Node>

  /** Every node has as many local derivatives as children, and every child
      was created before its parent. */
  predicate ValidGraph(g: Graph) {
    forall i | 0 <= i < |g| ::
      && |g[i].children| == |g[i].localGrads|
      && (forall j | 0 <= j < |g[i].children| :: g[i].children[j] < i)
  }

  /** A leaf holding `data`, with zero gradient; it becomes the last node. */
  function NewValue(g: Graph, data: real): (g': Graph)
    ensures |g'| == |g| + 1 && g'[..|g|] == g
    ensures g'[|g|].data == data && g'[|g|].grad == 0.0
    ensures g'[|g|].children == [] && g'[|g|].localGrads == []
    ensures ValidGraph(g) ==> ValidGraph(g')
  {
    g + [Node(data, 0.0, [], [])]
  }

  /** z = x + y, with dz/dx = dz/dy = 1. */
  function Add(g: Graph, x: nat, y: nat): (g': Graph)
    requires x < |g| && y < |g|
    ensures |g'| == |g| + 1 && g'[..|g|] == g
    ensures g'[|g|].data == g[x].data + g[y].data && g'[|g|].grad == 0.0
    ensures g'[|g|].children == [x, y] && g'[|g|].localGrads == [1.0, 1.0]
    ensures ValidGraph(g) ==> ValidGraph(g')
  {
    g + [Node(g[x].data + g[y].data, 0.0, [x, y], [1.0, 1.0])]
  }

  /** z = x * y, with dz/dx = y and dz/dy = x. */
  function Mul(g: Graph, x: nat, y: nat): (g': Graph)
    requires x < |g| && y < |g|
    ensures |g'| == |g| + 1 && g'[..|g|] == g
    ensures g'[|g|].data == g[x].data * g[y].data && g'[|g|].grad == 0.0
    ensures g'[|g|].children == [x, y] && g'[|g|].localGrads == [g[y].data, g[x].data]
    ensures ValidGraph(g) ==> ValidGraph(g')
  {
    g + [Node(g[x].data * g[y].data, 0.0, [x, y], [g[y].data, g[x].data])]
  }

  /** z = x^p, with dz/dx = p * x^(p-1). */
  function Pow(m: Math, g: Graph, x: nat, p: real): (g': Graph)
    requires x < |g|
    ensures |g'| == |g| + 1 && g'[..|g|] == g
    ensures g'[|g|].data == m.pow(g[x].data, p) && g'[|g|].grad == 0.0
    ensures g'[|g|].children == [x] && g'[|g|].localGrads == [p * m.pow(g[x].data, p - 1.0)]
    ensures ValidGraph(g) ==> ValidGraph(g')
  {
    g + [Node(m.pow(g[x].data, p), 0.0, [x], [p * m.pow(g[x].data, p - 1.0)])]
  }

  /** z = ln x, with dz/dx = 1/x. */
  function Log(m: Math, g: Graph, x: nat): (g': Graph)
    requires x < |g|
    requires g[x].data != 0.0
    ensures |g'| == |g| + 1 && g'[..|g|] == g
    ensures g'[|g|].data == m.log(g[x].data) && g'[|g|].grad == 0.0
    ensures g'[|g|].children == [x] && |g'[|g|].localGrads| == 1
    ensures g'[|g|].localGrads[0] * g[x].data == 1.0
    ensures ValidGraph(g) ==> ValidGraph(g')
  {
    g + [Node(m.log(g[x].data), 0.0, [x], [1.0 / g[x].data])]
  }

  /** z = e^x, whose local derivative is z itself. */
  function Exp(m: Math, g: Graph, x: nat): (g': Graph)
    requires x < |g|
    ensures |g'| == |g| + 1 && g'[..|g|] == g
    ensures g'[|g|].data == m.exp(g[x].data) && g'[|g|].grad == 0.0
    ensures g'[|g|].children == [x] && g'[|g|].localGrads == [g'[|g|].data]
    ensures ValidGraph(g) ==> ValidGraph(g')
  {
    var e := m.exp(g[x].data);
    g + [Node(e, 0.0, [x], [e])]
  }

  /** max(0, d), the value a ReLU node carries. */
  function ReluData(d: real): (r: real)
    ensures r >= 0.0 && r >= d
    ensures r == d || r == 0.0
  {
    if d > 0.0 then d else 0.0
  }

  /** z = max(0, x), with local derivative 1 exactly when x > 0. */
  function Relu(g: Graph, x: nat): (g': Graph)
    requires x < |g|
    ensures |g'| == |g| + 1 && g'[..|g|] == g
    ensures g'[|g|].data >= 0.0 && g'[|g|].data >= g[x].data
    ensures g'[|g|].data == g[x].data || g'[|g|].data == 0.0
    ensures g'[|g|].children == [x] && |g'[|g|].localGrads| == 1
    ensures g'[|g|].localGrads[0] == 1.0 <==> g[x].data > 0.0
    ensures g'[|g|].localGrads[0] == 0.0 <==> g[x].data <= 0.0
    ensures g'[|g|].grad == 0.0
    ensures ValidGraph(g) ==> ValidGraph(g')
  {
    var d := g[x].data;
    var grad := if d > 0.0 then 1.0 else 0.0;
    g + [Node(ReluData(d), 0.0, [x], [grad])]
  }

  /** Add's local derivatives are exact: a change (dx, dy) in the inputs
      changes the sum by 1*dx + 1*dy. */
  lemma AddLocalGradsExact(g: Graph, x: nat, y: nat, dx: real, dy: real)
    requires x < |g| && y < |g|
    ensures var z := Add(g, x, y)[|g|];
      (g[x].data + dx) + (g[y].data + dy) == z.data + z.localGrads[0] * dx + z.localGrads[1] * dy
  {
  }

  /** Mul's local derivatives give the first-order change of the product;
      what they miss is exactly the second-order term dx*dy. */
  lemma MulLocalGradsFirstOrder(g: Graph, x: nat, y: nat, dx: real, dy: real)
    requires x < |g| && y < |g|
    ensures var z := Mul(g, x, y)[|g|];
      (g[x].data + dx) * (g[y].data + dy) == z.data + z.localGrads[0] * dx + z.localGrads[1] * dy + dx * dy
  {
    var a, b := g[x].data, g[y].data;
    calc {
      (a + dx) * (b + dy);
      a * b + b * dx + a * dy + dx * dy;
    }
  }

  /** Away from the kink, Relu's local derivative is exact for any change
      too small to cross 0. */
  lemma ReluLocalGradExact(g: Graph, x: nat, dx: real)
    requires x < |g|
    requires g[x].data != 0.0
    requires -(if g[x].data > 0.0 then g[x].data else -g[x].data) < dx < (if g[x].data > 0.0 then g[x].data else -g[x].data)
    ensures var z := Relu(g, x)[|g|];
      (if g[x].data + dx > 0.0 then g[x].data + dx else 0.0) == z.data + z.localGrads[0] * dx
  {
  }
}
