/** The parameter store (model.go): hyperparameters, the vocabulary, the flat
    list of trainable leaves, the weight matrices as grids of indices into
    that list, and the Adam moment buffers. The source's string-keyed matrix
    map becomes a record with one field per matrix and one record per layer. */
module Params {
  import opened Autograd
  import opened Vocabulary

  /** Embedding width, head count, layer count, maximum sequence length and
      learning rate. */
  datatype Config = Config(nEmbd: int, nHead: int, nLayer: int, blockSize: int, learningRate: real)

  /** The six matrices of one transformer block. */
  datatype Layer<T> = Layer(
    attnWq: seq<seq<T>>, attnWk: seq<seq<T>>, attnWv: seq<seq<T>>, attnWo: seq<seq<T>>,
    mlpFc1: seq<seq<T>>, mlpFc2: seq<seq<T>>)

  /** Token embedding, position embedding, output head and the blocks. */
  datatype Weights<T> = Weights(wte: seq<seq<T>>, wpe: seq<seq<T>>, lmHead: seq<seq<T>>, layers: seq<Layer<T>>)

  /** The model: matrix entries are indices into `params`. */
  datatype Model = Model(
    config: Config, vocabSize: int, chars: seq<char>, bos: int,
    params: Graph, state: Weights<nat>,
    adamM: seq<real>, adamV: seq<real>, steps: int)

  /** start, start+1, ..., start+len-1 */
  function Range(start: nat, len: nat): (r: seq<nat>)
    ensures |r| == len && forall i | 0 <= i < len :: r[i] == start + i
  {
    seq(len, i requires 0 <= i < len => start + i)
  }

  /** Two adjacent ranges join into one; `total` names the joined length
      so that callers can state it in their own terms. */
  lemma RangeConcat(a: nat, x: nat, y: nat, total: nat)
    requires x + y == total
    ensures Range(a, x) + Range(a + x, y) == Range(a, total)
  {
  }

  /** rows * cols, counted row by row the way createMatrix counts entries. */
  function Area(rows: nat, cols: nat): nat {
    if rows == 0 then 0 else Area(rows - 1, cols) + cols
  }

  lemma {:induction false} AreaIsProduct(rows: nat, cols: nat)
    ensures Area(rows, cols) == rows * cols
  {
    if rows > 0 {
      AreaIsProduct(rows - 1, cols);
      assert (rows - 1) * cols + cols == rows * cols;
    }
  }

  /** A rows-by-cols matrix whose entries are fresh consecutive indices
      starting at `start`, row by row, as createMatrix appends them. */
  function CreateMatrix(rows: nat, cols: nat, start: nat): (w: seq<seq<nat>>)
    ensures IsMatrix(w, rows, cols)
  {
    if rows == 0 then []
    else CreateMatrix(rows - 1, cols, start) + [Range(start + Area(rows - 1, cols), cols)]
  }

  /** The entries of a matrix, row by row. */
  function Flat(w: seq<seq<nat>>): seq<nat> {
    if |w| == 0 then [] else Flat(w[..|w| - 1]) + w[|w| - 1]
  }

  lemma {:induction false} FlatCreate(rows: nat, cols: nat, start: nat)
    ensures Flat(CreateMatrix(rows, cols, start)) == Range(start, Area(rows, cols))
  {
    if rows > 0 {
      var w := CreateMatrix(rows, cols, start);
      assert w[..rows - 1] == CreateMatrix(rows - 1, cols, start);
      FlatCreate(rows - 1, cols, start);
      RangeConcat(start, Area(rows - 1, cols), cols, Area(rows, cols));
    }
  }

  lemma {:induction false} InFlat(w: seq<seq<nat>>, i: nat, j: nat)
    requires i < |w| && j < |w[i]|
    ensures w[i][j] in Flat(w)
  {
    if i < |w| - 1 {
      assert w[..|w| - 1][i] == w[i];
      InFlat(w[..|w| - 1], i, j);
    }
  }

  function FlatLayer(l: Layer<nat>): seq<nat> {
    Flat(l.attnWq) + Flat(l.attnWk) + Flat(l.attnWv) + Flat(l.attnWo) + Flat(l.mlpFc1) + Flat(l.mlpFc2)
  }

  function FlatLayers(ls: seq<Layer<nat>>): seq<nat> {
    if |ls| == 0 then [] else FlatLayers(ls[..|ls| - 1]) + FlatLayer(ls[|ls| - 1])
  }

  /** Every matrix entry in the order NewModel creates them. */
  function FlatWeights(w: Weights<nat>): seq<nat> {
    Flat(w.wte) + Flat(w.wpe) + Flat(w.lmHead) + FlatLayers(w.layers)
  }

  /** Number of parameters in one block of width n. */
  function LayerSize(n: nat): nat {
    4 * Area(n, n) + Area(4 * n, n) + Area(n, 4 * n)
  }

  /** The six matrices of one block, taking indices from `start` on: four
      n-by-n attention matrices, then 4n-by-n and n-by-4n MLP matrices. */
  function CreateLayer(n: nat, start: nat): Layer<nat> {
    var sq := Area(n, n);
    Layer(
      CreateMatrix(n, n, start), CreateMatrix(n, n, start + sq),
      CreateMatrix(n, n, start + 2 * sq), CreateMatrix(n, n, start + 3 * sq),
      CreateMatrix(4 * n, n, start + 4 * sq), CreateMatrix(n, 4 * n, start + 4 * sq + Area(4 * n, n)))
  }

  /** Six matrices laid out one after another flatten to one range. */
  lemma FlatLayerContiguous(l: Layer<nat>, start: nat, sq: nat, f1: nat, f2: nat)
    requires Flat(l.attnWq) == Range(start, sq)
    requires Flat(l.attnWk) == Range(start + sq, sq)
    requires Flat(l.attnWv) == Range(start + 2 * sq, sq)
    requires Flat(l.attnWo) == Range(start + 3 * sq, sq)
    requires Flat(l.mlpFc1) == Range(start + 4 * sq, f1)
    requires Flat(l.mlpFc2) == Range(start + 4 * sq + f1, f2)
    ensures FlatLayer(l) == Range(start, 4 * sq + f1 + f2)
  {
    hide Flat, Range;
    var q, k, v, o := Flat(l.attnWq), Flat(l.attnWk), Flat(l.attnWv), Flat(l.attnWo);
    var p1, p2 := Flat(l.mlpFc1), Flat(l.mlpFc2);
    assert q + k == Range(start, 2 * sq) by { RangeConcat(start, sq, sq, 2 * sq); }
    assert q + k + v == Range(start, 3 * sq) by { RangeConcat(start, 2 * sq, sq, 3 * sq); }
    assert q + k + v + o == Range(start, 4 * sq) by { RangeConcat(start, 3 * sq, sq, 4 * sq); }
    assert q + k + v + o + p1 == Range(start, 4 * sq + f1) by { RangeConcat(start, 4 * sq, f1, 4 * sq + f1); }
    assert q + k + v + o + p1 + p2 == Range(start, 4 * sq + f1 + f2) by { RangeConcat(start, 4 * sq + f1, f2, 4 * sq + f1 + f2); }
  }

  lemma FlatCreateLayer(n: nat, start: nat)
    ensures FlatLayer(CreateLayer(n, start)) == Range(start, LayerSize(n))
  {
    hide CreateMatrix, Flat, FlatLayer, Range, Area;
    var sq, f1, f2 := Area(n, n), Area(4 * n, n), Area(n, 4 * n);
    var l := CreateLayer(n, start);
    assert Flat(l.attnWq) == Range(start, sq) by { FlatCreate(n, n, start); }
    assert Flat(l.attnWk) == Range(start + sq, sq) by { FlatCreate(n, n, start + sq); }
    assert Flat(l.attnWv) == Range(start + 2 * sq, sq) by { FlatCreate(n, n, start + 2 * sq); }
    assert Flat(l.attnWo) == Range(start + 3 * sq, sq) by { FlatCreate(n, n, start + 3 * sq); }
    assert Flat(l.mlpFc1) == Range(start + 4 * sq, f1) by { FlatCreate(4 * n, n, start + 4 * sq); }
    assert Flat(l.mlpFc2) == Range(start + 4 * sq + f1, f2) by { FlatCreate(n, 4 * n, start + 4 * sq + f1); }
    FlatLayerContiguous(l, start, sq, f1, f2);
  }

  /** `count` blocks created one after another from `start` on. */
  function CreateLayers(count: nat, n: nat, start: nat): (ls: seq<Layer<nat>>)
    ensures |ls| == count
  {
    if count == 0 then []
    else CreateLayers(count - 1, n, start) + [CreateLayer(n, start + Area(count - 1, LayerSize(n)))]
  }

  lemma {:induction false} CreateLayersAt(count: nat, n: nat, start: nat, i: nat)
    requires i < count
    ensures CreateLayers(count, n, start)[i] == CreateLayer(n, start + Area(i, LayerSize(n)))
  {
    hide CreateLayer, CreateMatrix, Area, LayerSize;
    var front := CreateLayers(count - 1, n, start);
    assert CreateLayers(count, n, start) == front + [CreateLayer(n, start + Area(count - 1, LayerSize(n)))];
    if i < count - 1 {
      CreateLayersAt(count - 1, n, start, i);
    }
  }

  /** Blocks laid out one after another, each `size` indices long, flatten
      to one contiguous range. */
  lemma {:induction false} FlatLayersContiguous(ls: seq<Layer<nat>>, start: nat, size: nat)
    requires forall i | 0 <= i < |ls| :: FlatLayer(ls[i]) == Range(start + Area(i, size), size)
    ensures FlatLayers(ls) == Range(start, Area(|ls|, size))
  {
    // Everything below follows from the callees' contracts.
    hide *;
    if |ls| == 0 {
      FlatLayersNone(ls, start, size);
    } else {
      var front := ls[..|ls| - 1];
      assert forall i | 0 <= i < |front| :: front[i] == ls[i];
      FlatLayersContiguous(front, start, size);
      FlatLayersStep(ls, start, size);
    }
  }

  lemma FlatLayersNone(ls: seq<Layer<nat>>, start: nat, size: nat)
    requires |ls| == 0
    ensures FlatLayers(ls) == Range(start, Area(|ls|, size))
  {
  }

  /** One more block of `size` indices right after the others extends the
      contiguous range by `size`. */
  lemma FlatLayersStep(ls: seq<Layer<nat>>, start: nat, size: nat)
    requires |ls| > 0
    requires FlatLayers(ls[..|ls| - 1]) == Range(start, Area(|ls| - 1, size))
    requires FlatLayer(ls[|ls| - 1]) == Range(start + Area(|ls| - 1, size), size)
    ensures FlatLayers(ls) == Range(start, Area(|ls|, size))
  {
    // Everything below follows from the callees' contracts.
    hide *;
    FlatLayersSnoc(ls);
    var front, last := ls[..|ls| - 1], ls[|ls| - 1];
    var a1 := Area(|ls| - 1, size);
    AreaStep(|ls|, size);
    RangeConcat(start, a1, size, Area(|ls|, size));
    calc {
      FlatLayers(ls);
      FlatLayers(front) + FlatLayer(last);
      Range(start, a1) + FlatLayer(last);
      Range(start, a1) + Range(start + a1, size);
      Range(start, Area(|ls|, size));
    }
  }

  lemma AreaStep(rows: nat, cols: nat)
    requires rows > 0
    ensures Area(rows, cols) == Area(rows - 1, cols) + cols
  {
  }

  lemma FlatLayersSnoc(ls: seq<Layer<nat>>)
    requires |ls| > 0
    ensures FlatLayers(ls) == FlatLayers(ls[..|ls| - 1]) + FlatLayer(ls[|ls| - 1])
  {
  }

  lemma FlatCreateLayerAt(count: nat, n: nat, start: nat, i: nat)
    requires i < count
    ensures FlatLayer(CreateLayers(count, n, start)[i]) == Range(start + Area(i, LayerSize(n)), LayerSize(n))
  {
    // Everything below follows from the callees' contracts.
    hide *;
    CreateLayersAt(count, n, start, i);
    FlatCreateLayer(n, start + Area(i, LayerSize(n)));
  }

  lemma FlatCreateLayers(count: nat, n: nat, start: nat)
    ensures FlatLayers(CreateLayers(count, n, start)) == Range(start, Area(count, LayerSize(n)))
  {
    // Everything below follows from the callees' contracts.
    hide *;
    var ls := CreateLayers(count, n, start);
    forall i | 0 <= i < |ls|
      ensures FlatLayer(ls[i]) == Range(start + Area(i, LayerSize(n)), LayerSize(n))
    {
      FlatCreateLayerAt(count, n, start, i);
    }
    FlatLayersContiguous(ls, start, LayerSize(n));
  }

  /** Layers actually created: the source's loop runs zero times for a
      negative layer count. */
  function LayerCount(c: Config): nat {
    if c.nLayer < 0 then 0 else c.nLayer
  }

  /** Each matrix has the shape NewModel gives it. */
  predicate Shaped<T>(w: Weights<T>, c: Config, vocabSize: int) {
    && c.nEmbd >= 0 && vocabSize >= 0 && c.blockSize >= 0
    && IsMatrix(w.wte, vocabSize, c.nEmbd)
    && IsMatrix(w.wpe, c.blockSize, c.nEmbd)
    && IsMatrix(w.lmHead, vocabSize, c.nEmbd)
    && |w.layers| == LayerCount(c)
    && forall li | 0 <= li < |w.layers| :: LayerShaped(w.layers[li], c.nEmbd)
  }

  predicate IsMatrix<T>(w: seq<seq<T>>, rows: int, cols: int) {
    |w| == rows && forall i | 0 <= i < |w| :: |w[i]| == cols
  }

  predicate LayerShaped<T>(l: Layer<T>, n: int) {
    && IsMatrix(l.attnWq, n, n) && IsMatrix(l.attnWk, n, n)
    && IsMatrix(l.attnWv, n, n) && IsMatrix(l.attnWo, n, n)
    && IsMatrix(l.mlpFc1, 4 * n, n) && IsMatrix(l.mlpFc2, n, 4 * n)
  }

  /** What every model satisfies from construction on: the control token
      follows the runes, every matrix entry is one parameter and the
      parameters are exactly the matrix entries in creation order, the
      parameters are leaves, and the moment buffers match them one to one. */
  ghost predicate ModelInv(m: Model) {
    && m.vocabSize == |m.chars| + 1
    && m.bos == |m.chars|
    && StrictlySorted(m.chars)
    && Shaped(m.state, m.config, m.vocabSize)
    && FlatWeights(m.state) == Range(0, |m.params|)
    && (forall k | 0 <= k < |m.params| :: m.params[k].children == [] && m.params[k].localGrads == [])
    && |m.adamM| == |m.params| && |m.adamV| == |m.params|
    && (forall k | 0 <= k < |m.adamV| :: m.adamV[k] >= 0.0)
    && m.steps >= 0
  }

  /** Number of parameters of a model with vocabulary size v, block size b,
      width n and l layers, summed in creation order. */
  function WeightCount(v: nat, b: nat, n: nat, l: nat): nat {
    Area(v, n) + Area(b, n) + Area(v, n) + Area(l, LayerSize(n))
  }

  lemma LayerSizeClosedForm(n: nat)
    ensures LayerSize(n) == 12 * (n * n)
  {
    AreaIsProduct(n, n);
    AreaIsProduct(4 * n, n);
    AreaIsProduct(n, 4 * n);
    assert (4 * n) * n == 4 * (n * n);
    assert n * (4 * n) == 4 * (n * n);
  }

  lemma CountClosedForm(v: nat, b: nat, n: nat, l: nat)
    ensures WeightCount(v, b, n, l) == (2 * v + b) * n + 12 * l * n * n
  {
    var vn, bn, ln := Area(v, n), Area(b, n), Area(l, LayerSize(n));
    assert vn == v * n by { AreaIsProduct(v, n); }
    assert bn == b * n by { AreaIsProduct(b, n); }
    assert ln == 12 * l * n * n by {
      AreaIsProduct(l, LayerSize(n));
      LayerSizeClosedForm(n);
      TwelveLayers(l, n);
    }
    assert vn + bn + vn == (2 * v + b) * n by { Embeddings(v, b, n); }
  }

  lemma Embeddings(v: int, b: int, n: int)
    ensures v * n + b * n + v * n == (2 * v + b) * n
  {
  }

  lemma TwelveLayers(l: int, n: int)
    ensures l * (12 * (n * n)) == 12 * l * n * n
  {
  }

  /** All matrices of such a model, numbered from 0 in creation order. */
  function CreateWeights(v: nat, b: nat, n: nat, l: nat): Weights<nat> {
    var vn, bn := Area(v, n), Area(b, n);
    Weights(CreateMatrix(v, n, 0), CreateMatrix(b, n, vn), CreateMatrix(v, n, vn + bn),
      CreateLayers(l, n, vn + bn + vn))
  }

  lemma CreateWeightsLayout(v: nat, b: nat, n: nat, l: nat)
    ensures FlatWeights(CreateWeights(v, b, n, l)) == Range(0, WeightCount(v, b, n, l))
  {
    hide CreateMatrix, Flat, FlatLayers, CreateLayers, Range, Area, LayerSize;
    var vn, bn := Area(v, n), Area(b, n);
    FlatCreate(v, n, 0);
    FlatCreate(b, n, vn);
    FlatCreate(v, n, vn + bn);
    FlatCreateLayers(l, n, vn + bn + vn);
    RangeConcat(0, vn, bn, vn + bn);
    RangeConcat(0, vn + bn, vn, vn + bn + vn);
    RangeConcat(0, vn + bn + vn, Area(l, LayerSize(n)), WeightCount(v, b, n, l));
  }

  lemma CreateLayersShaped(count: nat, n: nat, start: nat)
    ensures forall li | 0 <= li < count :: LayerShaped(CreateLayers(count, n, start)[li], n)
  {
    forall li | 0 <= li < count
      ensures LayerShaped(CreateLayers(count, n, start)[li], n)
    {
      CreateLayersAt(count, n, start, li);
    }
  }

  lemma CreateWeightsShaped(c: Config, v: nat)
    requires c.nEmbd >= 0 && c.blockSize >= 0
    ensures Shaped(CreateWeights(v, c.blockSize, c.nEmbd, LayerCount(c)), c, v)
  {
    hide CreateMatrix, CreateLayers, CreateLayer, Area, LayerSize;
    var n: nat := c.nEmbd;
    CreateLayersShaped(LayerCount(c), n, Area(v, n) + Area(c.blockSize, n) + Area(v, n));
  }

  /** The model NewModel returns, for a given sorted alphabet. */
  function Assemble(config: Config, chars: seq<char>, gauss: nat -> real): Model
    requires config.nEmbd >= 0 && config.blockSize >= 0
  {
    var v := |chars| + 1;
    var count := WeightCount(v, config.blockSize, config.nEmbd, LayerCount(config));
    Model(config, v, chars, |chars|, seq(count, k requires 0 <= k < count => Node(0.02 * gauss(k), 0.0, [], [])),
      CreateWeights(v, config.blockSize, config.nEmbd, LayerCount(config)), seq(count, _ => 0.0), seq(count, _ => 0.0), 0)
  }

  lemma AssembleInv(config: Config, chars: seq<char>, gauss: nat -> real)
    requires config.nEmbd >= 0 && config.blockSize >= 0
    requires StrictlySorted(chars)
    ensures ModelInv(Assemble(config, chars, gauss))
  {
    hide CreateWeights, FlatWeights, Shaped, WeightCount, Range;
    var v := |chars| + 1;
    CreateWeightsLayout(v, config.blockSize, config.nEmbd, LayerCount(config));
    CreateWeightsShaped(config, v);
  }

  /** NewModel: build the vocabulary, then create the matrices in the order
      wte, wpe, lm_head, then per layer wq, wk, wv, wo, fc1, fc2, every entry
      a fresh leaf `0.02 * gauss(k)` (k-th Gaussian draw) appended to the
      flat parameter list. */
  function NewModel(config: Config, docs: seq<seq<char>>, gauss: nat -> real): (m: Model)
    requires config.nEmbd >= 0 && config.blockSize >= 0
    ensures ModelInv(m)
    ensures m.config == config
    ensures CharSet(m.chars) == Alphabet(docs) && |m.chars| == |Alphabet(docs)|
    ensures |m.params| == WeightCount(m.vocabSize, config.blockSize, config.nEmbd, LayerCount(config))
    ensures forall k | 0 <= k < |m.params| :: m.params[k] == Node(0.02 * gauss(k), 0.0, [], [])
    ensures forall k | 0 <= k < |m.params| :: m.adamM[k] == 0.0 && m.adamV[k] == 0.0
    ensures m.steps == 0
  {
    // Everything below follows from the callees' contracts.
    hide *;
    var chars := BuildChars(docs);
    SortedCardinality(chars);
    AssembleInv(config, chars, gauss);
    AssembleFields(config, chars, gauss);
    Assemble(config, chars, gauss)
  }

  lemma AssembleFields(config: Config, chars: seq<char>, gauss: nat -> real)
    requires config.nEmbd >= 0 && config.blockSize >= 0
    ensures var m := Assemble(config, chars, gauss);
      && m.config == config && m.chars == chars && m.vocabSize == |chars| + 1 && m.steps == 0
      && |m.params| == WeightCount(m.vocabSize, config.blockSize, config.nEmbd, LayerCount(config))
      && (forall k | 0 <= k < |m.params| :: m.params[k] == Node(0.02 * gauss(k), 0.0, [], []))
      && (forall k | 0 <= k < |m.params| :: m.adamM[k] == 0.0 && m.adamV[k] == 0.0)
  {
  }

  /** Every index the matrices hold is below `bound`. */
  predicate MatrixBelow(w: seq<seq<nat>>, bound: nat) {
    forall i, j | 0 <= i < |w| && 0 <= j < |w[i]| :: w[i][j] < bound
  }

  predicate LayerIndicesBelow(l: Layer<nat>, bound: nat) {
    && MatrixBelow(l.attnWq, bound) && MatrixBelow(l.attnWk, bound)
    && MatrixBelow(l.attnWv, bound) && MatrixBelow(l.attnWo, bound)
    && MatrixBelow(l.mlpFc1, bound) && MatrixBelow(l.mlpFc2, bound)
  }

  predicate WeightsBelow(w: Weights<nat>, bound: nat) {
    && MatrixBelow(w.wte, bound) && MatrixBelow(w.wpe, bound) && MatrixBelow(w.lmHead, bound)
    && forall li | 0 <= li < |w.layers| :: LayerIndicesBelow(w.layers[li], bound)
  }

  lemma BelowConcat(a: seq<nat>, b: seq<nat>, bound: nat)
    requires forall x | x in a + b :: x < bound
    ensures (forall x | x in a :: x < bound) && (forall x | x in b :: x < bound)
  {
    forall x | x in a
      ensures x < bound
    {
      assert x in a + b;
    }
    forall x | x in b
      ensures x < bound
    {
      assert x in a + b;
    }
  }

  lemma FlatBelow(w: seq<seq<nat>>, bound: nat)
    requires forall x | x in Flat(w) :: x < bound
    ensures MatrixBelow(w, bound)
  {
    forall i, j | 0 <= i < |w| && 0 <= j < |w[i]|
      ensures w[i][j] < bound
    {
      InFlat(w, i, j);
    }
  }

  lemma {:induction false} InFlatLayers(ls: seq<Layer<nat>>, li: nat)
    requires li < |ls|
    ensures forall x | x in FlatLayer(ls[li]) :: x in FlatLayers(ls)
  {
    if li < |ls| - 1 {
      assert ls[..|ls| - 1][li] == ls[li];
      InFlatLayers(ls[..|ls| - 1], li);
    }
  }

  lemma LayerBelow(l: Layer<nat>, bound: nat)
    requires forall x | x in FlatLayer(l) :: x < bound
    ensures LayerIndicesBelow(l, bound)
  {
    var q, k, v, o := Flat(l.attnWq), Flat(l.attnWk), Flat(l.attnWv), Flat(l.attnWo);
    var f1, f2 := Flat(l.mlpFc1), Flat(l.mlpFc2);
    assert FlatLayer(l) == q + k + v + o + f1 + f2;
    BelowConcat(q + k + v + o + f1, f2, bound);
    BelowConcat(q + k + v + o, f1, bound);
    BelowConcat(q + k + v, o, bound);
    BelowConcat(q + k, v, bound);
    BelowConcat(q, k, bound);
    FlatBelow(l.attnWq, bound);
    FlatBelow(l.attnWk, bound);
    FlatBelow(l.attnWv, bound);
    FlatBelow(l.attnWo, bound);
    FlatBelow(l.mlpFc1, bound);
    FlatBelow(l.mlpFc2, bound);
  }

  /** Every matrix entry of a model names one of its parameters. */
  lemma InvBelow(m: Model)
    requires ModelInv(m)
    ensures WeightsBelow(m.state, |m.params|)
  {
    var w, n := m.state, |m.params|;
    assert forall x | x in FlatWeights(w) :: x < n;
    BelowConcat(Flat(w.wte) + Flat(w.wpe) + Flat(w.lmHead), FlatLayers(w.layers), n);
    BelowConcat(Flat(w.wte) + Flat(w.wpe), Flat(w.lmHead), n);
    BelowConcat(Flat(w.wte), Flat(w.wpe), n);
    FlatBelow(w.wte, n);
    FlatBelow(w.wpe, n);
    FlatBelow(w.lmHead, n);
    forall li | 0 <= li < |w.layers|
      ensures LayerIndicesBelow(w.layers[li], n)
    {
      InFlatLayers(w.layers, li);
      LayerBelow(w.layers[li], n);
    }
  }

  /** The values of the parameters a matrix names. */
  function Lookup(w: seq<seq<nat>>, ps: Graph): (r: seq<seq<real>>)
    requires MatrixBelow(w, |ps|)
    ensures |r| == |w| && forall i | 0 <= i < |w| :: |r[i]| == |w[i]|
    ensures forall i, j | 0 <= i < |w| && 0 <= j < |w[i]| :: r[i][j] == ps[w[i][j]].data
  {
    seq(|w|, i requires 0 <= i < |w| => seq(|w[i]|, j requires 0 <= j < |w[i]| => ps[w[i][j]].data))
  }

  /** Lookup reads only the parameters' data: two parameter lists of equal
      length that agree on every value give the same matrix, whatever
      their gradients. */
  lemma LookupReadsData(w: seq<seq<nat>>, ps: Graph, ps': Graph)
    requires MatrixBelow(w, |ps|) && |ps'| == |ps|
    requires forall k | 0 <= k < |ps| :: ps'[k].data == ps[k].data
    ensures Lookup(w, ps') == Lookup(w, ps)
  {
    forall i | 0 <= i < |w|
      ensures Lookup(w, ps')[i] == Lookup(w, ps)[i]
    {
    }
  }

  /** The values of the parameters a layer names, matrix by matrix. */
  function LookupLayer(l: Layer<nat>, ps: Graph, n: int): (r: Layer<real>)
    requires LayerIndicesBelow(l, |ps|)
    ensures LayerShaped(l, n) ==> LayerShaped(r, n)
  {
    Layer(Lookup(l.attnWq, ps), Lookup(l.attnWk, ps), Lookup(l.attnWv, ps), Lookup(l.attnWo, ps),
      Lookup(l.mlpFc1, ps), Lookup(l.mlpFc2, ps))
  }

  /** The model's weight matrices holding the current parameter values. */
  function Values(m: Model): (w: Weights<real>)
    requires ModelInv(m)
    ensures Shaped(w, m.config, m.vocabSize)
  {
    hide ModelInv;
    InvBelow(m);
    InvShaped(m);
    var ps, n := m.params, m.config.nEmbd;
    var layers := m.state.layers;
    Weights(Lookup(m.state.wte, ps), Lookup(m.state.wpe, ps), Lookup(m.state.lmHead, ps),
      seq(|layers|, li requires 0 <= li < |layers| => LookupLayer(layers[li], ps, n)))
  }

  /** The weights a model's matrices read depend only on its parameters'
      data: a model that differs in gradients alone reads the same weights. */
  lemma ValuesReadData(m: Model, m': Model)
    requires ModelInv(m) && ModelInv(m')
    requires m'.state == m.state && m'.config == m.config && |m'.params| == |m.params|
    requires forall k | 0 <= k < |m.params| :: m'.params[k].data == m.params[k].data
    ensures Values(m') == Values(m)
  {
    InvBelow(m);
    var w, ps, ps' := m.state, m.params, m'.params;
    LookupReadsData(w.wte, ps, ps');
    LookupReadsData(w.wpe, ps, ps');
    LookupReadsData(w.lmHead, ps, ps');
    forall li | 0 <= li < |w.layers|
      ensures LookupLayer(w.layers[li], ps', m.config.nEmbd) == LookupLayer(w.layers[li], ps, m.config.nEmbd)
    {
      var l := w.layers[li];
      LookupReadsData(l.attnWq, ps, ps');
      LookupReadsData(l.attnWk, ps, ps');
      LookupReadsData(l.attnWv, ps, ps');
      LookupReadsData(l.attnWo, ps, ps');
      LookupReadsData(l.mlpFc1, ps, ps');
      LookupReadsData(l.mlpFc2, ps, ps');
    }
  }

  lemma InvShaped(m: Model)
    requires ModelInv(m)
    ensures Shaped(m.state, m.config, m.vocabSize)
  {
  }
}
