/** One autoregressive step of the transformer (forward.go), on values:
    embed the token and its position, run every block (RMSNorm, multi-head
    causal self-attention over a per-layer key/value cache, residual, RMSNorm,
    ReLU MLP, residual), and project to one logit per vocabulary entry. */
module Transformer {
  import opened Transcendental
  import opened Vectors
  import opened Autograd
  import opened Params
  import opened Layers

  type Vec = seq<real>

  /** Heads actually run: the head loop does nothing for a negative count. */
  function HeadCount(c: Config): nat {
    if c.nHead > 0 then c.nHead else 0
  }

  /** Width of one head, nEmbd / nHead with the remainder dropped (only
      used when there are heads). */
  function HeadDim(c: Config): nat
    requires c.nEmbd >= 0
  {
    if c.nHead > 0 then c.nEmbd / c.nHead else 0
  }

  /** Columns the heads read and write together: HeadCount * HeadDim. */
  function HeadSpan(c: Config): nat
    requires c.nEmbd >= 0
  {
    Area(HeadCount(c), HeadDim(c))
  }

  /** The heads never reach past the embedding width; when nHead does not
      divide nEmbd the last nEmbd mod nHead columns are left out. */
  lemma HeadSpanFits(c: Config)
    requires c.nEmbd >= 0
    ensures HeadSpan(c) <= c.nEmbd
    ensures c.nHead > 0 ==> c.nEmbd - HeadSpan(c) == c.nEmbd % c.nHead
  {
    AreaIsProduct(HeadCount(c), HeadDim(c));
    if c.nHead > 0 {
      assert c.nHead * (c.nEmbd / c.nHead) + c.nEmbd % c.nHead == c.nEmbd;
    }
  }

  /** Every cached vector is at least `span` long. */
  predicate Fits(cache: seq<Vec>, span: nat) {
    forall t | 0 <= t < |cache| :: |cache[t]| >= span
  }

  /** q·k / sqrt(headDim) for the head's slice of the query and of every
      cached key. */
  function Scores(mt: Math, q: Vec, ks: seq<Vec>, hs: nat, hd: nat): (r: Vec)
    requires Lawful(mt) && hd > 0 && hs + hd <= |q| && Fits(ks, hs + hd)
    ensures |r| == |ks|
  {
    assert mt.sqrt(hd as real) > 0.0;
    var scale := 1.0 / mt.sqrt(hd as real);
    seq(|ks|, t requires 0 <= t < |ks| => Dot(q[hs..hs + hd], ks[t][hs..hs + hd]) * scale)
  }

  /** Σ_t ws[t] * vs[t][col] over the cached values, summed in order. */
  function WeightedSum(ws: Vec, vs: seq<Vec>, col: nat): real
    requires |vs| <= |ws| && Fits(vs, col + 1)
  {
    if |vs| == 0 then 0.0
    else WeightedSum(ws, vs[..|vs| - 1], col) + ws[|vs| - 1] * vs[|vs| - 1][col]
  }

  /** One head: softmax over the scores, then the weighted sum of the
      value slices. A head of width 0 produces nothing. */
  function Head(mt: Math, q: Vec, ks: seq<Vec>, vs: seq<Vec>, hs: nat, hd: nat): (r: Vec)
    requires Lawful(mt) && hs + hd <= |q| && Fits(ks, hs + hd) && Fits(vs, hs + hd) && |vs| <= |ks|
    ensures |r| == hd
  {
    if hd == 0 then []
    else
      var ws := Softmax(mt, Scores(mt, q, ks, hs, hd));
      seq(hd, j requires 0 <= j < hd => WeightedSum(ws, vs, hs + j))
  }

  /** The outputs of heads 0 .. h-1 side by side; head i covers columns
      i*hd .. (i+1)*hd - 1. */
  function Heads(mt: Math, q: Vec, ks: seq<Vec>, vs: seq<Vec>, hd: nat, h: nat): (r: Vec)
    requires Lawful(mt) && Area(h, hd) <= |q| && Fits(ks, Area(h, hd)) && Fits(vs, Area(h, hd)) && |vs| <= |ks|
    ensures |r| == Area(h, hd)
  {
    if h == 0 then []
    else Heads(mt, q, ks, vs, hd, h - 1) + Head(mt, q, ks, vs, Area(h - 1, hd), hd)
  }

  function ReluAll(x: Vec): (r: Vec)
    ensures |r| == |x|
  {
    seq(|x|, i requires 0 <= i < |x| => ReluData(x[i]))
  }

  /** What one block produces: the new hidden vector and the key and value
      it appends to its layer's cache. */
  datatype BlockOut = BlockOut(x: Vec, key: Vec, value: Vec)

  /** One transformer block on hidden vector `x`, given the layer's cache
      before this position. */
  function Block(mt: Math, c: Config, l: Layer<real>, x: Vec, ks: seq<Vec>, vs: seq<Vec>): (r: BlockOut)
    requires Lawful(mt) && c.nEmbd >= 0 && LayerShaped(l, c.nEmbd) && |x| == c.nEmbd
    requires |vs| <= |ks| && Fits(ks, HeadSpan(c)) && Fits(vs, HeadSpan(c))
    ensures |r.x| == c.nEmbd && |r.key| == c.nEmbd && |r.value| == c.nEmbd
  {
    var x1 := RMSNorm(mt, x);
    var q := Linear(x1, l.attnWq);
    var k := Linear(x1, l.attnWk);
    var v := Linear(x1, l.attnWv);
    HeadSpanFits(c);
    var att := Heads(mt, q, ks + [k], vs + [v], HeadDim(c), HeadCount(c));
    var x2 := AddVec(Linear(att, l.attnWo), x);
    var x3 := RMSNorm(mt, x2);
    var hidden := ReluAll(Linear(x3, l.mlpFc1));
    var x4 := AddVec(Linear(hidden, l.mlpFc2), x2);
    BlockOut(x4, k, v)
  }

  /** The caches Forward may be given: one per layer that runs, values no
      longer than keys, every entry wide enough for the heads. */
  predicate CachesFit(c: Config, keys: seq<seq<Vec>>, values: seq<seq<Vec>>)
    requires c.nEmbd >= 0
  {
    && |keys| >= LayerCount(c) && |values| >= LayerCount(c)
    && forall li | 0 <= li < LayerCount(c) ::
      && |values[li]| <= |keys[li]|
      && Fits(keys[li], HeadSpan(c)) && Fits(values[li], HeadSpan(c))
  }

  /** Hidden vector and caches after the first `count` blocks. */
  datatype Pass = Pass(x: Vec, keys: seq<seq<Vec>>, values: seq<seq<Vec>>)

  /** Cache `after` is cache `before` with exactly one entry of width n
      appended. */
  predicate Appended(before: seq<Vec>, after: seq<Vec>, n: nat) {
    |after| == |before| + 1 && after[..|before|] == before && |after[|before|]| == n
  }

  function RunLayers(mt: Math, c: Config, w: Weights<real>, x: Vec, keys: seq<seq<Vec>>, values: seq<seq<Vec>>, count: nat): (p: Pass)
    requires Lawful(mt) && c.nEmbd >= 0 && |x| == c.nEmbd
    requires count <= LayerCount(c) && |w.layers| == LayerCount(c)
    requires forall li | 0 <= li < |w.layers| :: LayerShaped(w.layers[li], c.nEmbd)
    requires CachesFit(c, keys, values)
    ensures |p.x| == c.nEmbd && |p.keys| == |keys| && |p.values| == |values|
    ensures forall li | 0 <= li < count ::
      Appended(keys[li], p.keys[li], c.nEmbd) && Appended(values[li], p.values[li], c.nEmbd)
    ensures forall li | count <= li < |keys| :: p.keys[li] == keys[li]
    ensures forall li | count <= li < |values| :: p.values[li] == values[li]
  {
    if count == 0 then Pass(x, keys, values)
    else
      var p := RunLayers(mt, c, w, x, keys, values, count - 1);
      var li := count - 1;
      HeadSpanFits(c);
      var b := Block(mt, c, w.layers[li], p.x, p.keys[li], p.values[li]);
      CacheStep(keys, p.keys, li, b.key, c.nEmbd);
      CacheStep(values, p.values, li, b.value, c.nEmbd);
      Pass(b.x, p.keys[li := p.keys[li] + [b.key]], p.values[li := p.values[li] + [b.value]])
  }

  /** Appending to layer li's cache extends the run of appended caches by
      one and leaves the later layers alone. */
  lemma CacheStep(before: seq<seq<Vec>>, mid: seq<seq<Vec>>, li: nat, entry: Vec, n: nat)
    requires |mid| == |before| && li < |before| && |entry| == n
    requires forall j | 0 <= j < li :: Appended(before[j], mid[j], n)
    requires forall j | li <= j < |before| :: mid[j] == before[j]
    ensures forall j | 0 <= j < li + 1 :: Appended(before[j], mid[li := mid[li] + [entry]][j], n)
    ensures forall j | li + 1 <= j < |before| :: mid[li := mid[li] + [entry]][j] == before[j]
  {
  }

  /** The result of Forward: next-token logits and the updated caches. */
  datatype Step = Step(logits: Vec, keys: seq<seq<Vec>>, values: seq<seq<Vec>>)

  /** Model.Forward for token `token` at position `pos`. */
  function Forward(mt: Math, c: Config, w: Weights<real>, token: int, pos: int,
                   keys: seq<seq<Vec>>, values: seq<seq<Vec>>): (s: Step)
    requires Lawful(mt) && c.nHead != 0 && Shaped(w, c, |w.wte|)
    requires 0 <= token < |w.wte| && 0 <= pos < |w.wpe|
    requires CachesFit(c, keys, values)
    ensures |s.logits| == |w.wte|
    ensures |s.keys| == |keys| && |s.values| == |values|
    ensures forall li | 0 <= li < LayerCount(c) ::
      Appended(keys[li], s.keys[li], c.nEmbd) && Appended(values[li], s.values[li], c.nEmbd)
    ensures forall li | LayerCount(c) <= li < |keys| :: s.keys[li] == keys[li]
    ensures forall li | LayerCount(c) <= li < |values| :: s.values[li] == values[li]
    ensures CachesFit(c, s.keys, s.values)
  {
    var x := RMSNorm(mt, AddVec(w.wte[token], w.wpe[pos]));
    var p := RunLayers(mt, c, w, x, keys, values, LayerCount(c));
    CachesFitAppended(c, keys, values, p.keys, p.values);
    Step(Linear(p.x, w.lmHead), p.keys, p.values)
  }

  /** Adding one more weighted value keeps a running weighted sum between
      lo and hi times the running total weight. */
  lemma StepBounds(acc: real, total: real, w: real, v: real, lo: real, hi: real)
    requires lo * total <= acc <= hi * total && w >= 0.0 && lo <= v <= hi
    ensures lo * (total + w) <= acc + w * v <= hi * (total + w)
  {
    assert w * v <= w * hi;
    assert w * v >= w * lo;
  }

  /** With non-negative weights, a weighted sum of values at most `hi` is
      at most hi times the total weight used, and likewise from below. */
  lemma {:induction false} WeightedSumBounds(ws: Vec, vs: seq<Vec>, col: nat, lo: real, hi: real)
    requires |vs| <= |ws| && Fits(vs, col + 1) && NonNegative(ws)
    requires forall t | 0 <= t < |vs| :: lo <= vs[t][col] <= hi
    ensures WeightedSum(ws, vs, col) <= hi * PrefixSum(ws, |vs|)
    ensures WeightedSum(ws, vs, col) >= lo * PrefixSum(ws, |vs|)
  {
    if |vs| > 0 {
      var k := |vs| - 1;
      var front := vs[..k];
      assert forall t | 0 <= t < k :: front[t] == vs[t];
      WeightedSumBounds(ws, front, col, lo, hi);
      PrefixSumStep(ws, k);
      StepBounds(WeightedSum(ws, front, col), PrefixSum(ws, k), ws[k], vs[k][col], lo, hi);
    }
  }

  /** Attention mixes the cached values convexly: when every cached value
      in column hs+j lies in [lo, hi], so does the head's output j. */
  lemma HeadWithinValues(mt: Math, q: Vec, ks: seq<Vec>, vs: seq<Vec>, hs: nat, hd: nat, j: nat, lo: real, hi: real)
    requires Lawful(mt) && hs + hd <= |q| && Fits(ks, hs + hd) && Fits(vs, hs + hd)
    requires 0 < |vs| == |ks| && j < hd
    requires forall t | 0 <= t < |vs| :: lo <= vs[t][hs + j] <= hi
    ensures lo <= Head(mt, q, ks, vs, hs, hd)[j] <= hi
  {
    hide Softmax, Scores, Lawful, WeightedSum;
    var ws := Softmax(mt, Scores(mt, q, ks, hs, hd));
    SoftmaxDistribution(mt, Scores(mt, q, ks, hs, hd));
    assert NonNegative(ws);
    assert ws[..|vs|] == ws;
    WeightedSumBounds(ws, vs, hs + j, lo, hi);
  }

  /** A softmax over a single score is [1]. */
  lemma SoftmaxSingle(mt: Math, s: real)
    requires Lawful(mt)
    ensures Softmax(mt, [s]) == [1.0]
  {
    var e := Shifted(mt, [s], MaxLogit([s]));
    assert e == [e[0]];
    var t := Sum(e);
    assert t == e[0] by { SumSingle(e[0]); }
    var inv := mt.pow(t, -1.0);
    assert inv * t == 1.0;
    var p := Softmax(mt, [s]);
    assert p[0] == e[0] * inv == 1.0;
    assert p == [p[0]];
  }

  /** With only the current position cached, one head returns its slice of
      the current value vector. */
  lemma HeadFirstPosition(mt: Math, q: Vec, k: Vec, v: Vec, hs: nat, hd: nat)
    requires Lawful(mt) && hs + hd <= |q| && hs + hd <= |k| && hs + hd <= |v|
    ensures Head(mt, q, [k], [v], hs, hd) == v[hs..hs + hd]
  {
    if hd > 0 {
      var sc := Scores(mt, q, [k], hs, hd);
      assert sc == [sc[0]];
      SoftmaxSingle(mt, sc[0]);
      var ws := Softmax(mt, sc);
      assert ws == [1.0];
      assert [v][..0] == [];
      forall j | 0 <= j < hd
        ensures Head(mt, q, [k], [v], hs, hd)[j] == v[hs..hs + hd][j]
      {
        assert WeightedSum(ws, [v], hs + j) == WeightedSum(ws, [], hs + j) + 1.0 * v[hs + j];
      }
    }
  }

  /** At the first position (empty caches) attention can only look at the
      current token: every head returns its slice of the token's own value
      vector, so the heads together return the value's first columns. */
  lemma {:induction false} FirstPositionCopiesValue(mt: Math, q: Vec, k: Vec, v: Vec, hd: nat, h: nat)
    requires Lawful(mt) && Area(h, hd) <= |q| && Area(h, hd) <= |k| && Area(h, hd) <= |v|
    ensures Heads(mt, q, [k], [v], hd, h) == v[..Area(h, hd)]
  {
    hide Heads, Head, Lawful;
    if h == 0 {
      HeadsNone(mt, q, [k], [v], hd);
    } else {
      var hs := Area(h - 1, hd);
      AreaStep(h, hd);
      FirstPositionCopiesValue(mt, q, k, v, hd, h - 1);
      HeadFirstPosition(mt, q, k, v, hs, hd);
      HeadsSnoc(mt, q, [k], [v], hd, h);
      assert v[..Area(h, hd)] == v[..hs] + v[hs..hs + hd];
    }
  }

  lemma HeadsNone(mt: Math, q: Vec, ks: seq<Vec>, vs: seq<Vec>, hd: nat)
    requires Lawful(mt) && |vs| <= |ks|
    ensures Heads(mt, q, ks, vs, hd, 0) == []
  {
  }

  /** The last head's columns come after the others'. */
  lemma HeadsSnoc(mt: Math, q: Vec, ks: seq<Vec>, vs: seq<Vec>, hd: nat, h: nat)
    requires Lawful(mt) && h > 0 && Area(h, hd) <= |q| && Fits(ks, Area(h, hd)) && Fits(vs, Area(h, hd)) && |vs| <= |ks|
    ensures Area(h - 1, hd) + hd == Area(h, hd)
    ensures Heads(mt, q, ks, vs, hd, h) == Heads(mt, q, ks, vs, hd, h - 1) + Head(mt, q, ks, vs, Area(h - 1, hd), hd)
  {
  }

  /** Appending an entry at least `span` wide keeps a cache fitting. */
  lemma AppendedFits(before: seq<Vec>, after: seq<Vec>, n: nat, span: nat)
    requires Fits(before, span) && Appended(before, after, n) && span <= n
    ensures Fits(after, span)
  {
    forall t | 0 <= t < |after|
      ensures |after[t]| >= span
    {
      if t < |before| {
        assert after[t] == after[..|before|][t];
      }
    }
  }

  /** Caches that fit still fit after every running layer appended one
      entry of full width to its keys and to its values. */
  lemma CachesFitAppended(c: Config, keys: seq<seq<Vec>>, values: seq<seq<Vec>>, keys': seq<seq<Vec>>, values': seq<seq<Vec>>)
    requires c.nEmbd >= 0 && CachesFit(c, keys, values)
    requires |keys'| == |keys| && |values'| == |values|
    requires forall li | 0 <= li < LayerCount(c) ::
      Appended(keys[li], keys'[li], c.nEmbd) && Appended(values[li], values'[li], c.nEmbd)
    ensures CachesFit(c, keys', values')
  {
    HeadSpanFits(c);
    forall li | 0 <= li < LayerCount(c)
      ensures |values'[li]| <= |keys'[li]|
      ensures Fits(keys'[li], HeadSpan(c)) && Fits(values'[li], HeadSpan(c))
    {
      AppendedFits(keys[li], keys'[li], c.nEmbd, HeadSpan(c));
      AppendedFits(values[li], values'[li], c.nEmbd, HeadSpan(c));
    }
  }
}
