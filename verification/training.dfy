/** Training (inference_and_training.go): encoding a document into token
    ids, one teacher-forced example with its loss and diagnostics, and the
    batched optimisation loop. The loss is followed on the values the
    autograd nodes carry; the gradient one example's Backward adds to a
    parameter is a parameter of the model (`Partial`). */
module Training {
  import opened Transcendental
  import opened Vectors
  import opened Autograd
  import opened Vocabulary
  import opened Params
  import opened Layers
  import opened Transformer
  import opened Ranking
  import opened Sampling
  import opened Adam

  /** Position of the first occurrence of `c` in `chars`. */
  function Find(chars: seq<char>, c: char): (k: nat)
    requires c in chars
    ensures k < |chars| && chars[k] == c
    ensures forall j | 0 <= j < k :: chars[j] != c
  {
    if chars[0] == c then 0
    else
      var k := Find(chars[1..], c);
      assert forall j | 1 <= j <= k :: chars[j] == chars[1..][j - 1];
      1 + k
  }

  /** The runes of `doc` that occur in `chars`, in order. */
  function Known(doc: string, chars: seq<char>): (r: string)
    ensures |r| <= |doc|
    ensures forall i | 0 <= i < |r| :: r[i] in chars
  {
    if |doc| == 0 then []
    else (if doc[0] in chars then [doc[0]] else []) + Known(doc[1..], chars)
  }

  /** The rune of each id. */
  function Decode(ids: seq<int>, chars: seq<char>): (s: string)
    requires forall i | 0 <= i < |ids| :: 0 <= ids[i] < |chars|
    ensures |s| == |ids|
  {
    seq(|ids|, i requires 0 <= i < |ids| => chars[ids[i]])
  }

  /** One id per rune of `doc` found in `chars`: the first index holding
      it. Runes that are not found are skipped. */
  function Ids(doc: string, chars: seq<char>): (ids: seq<int>)
    ensures forall i | 0 <= i < |ids| :: 0 <= ids[i] < |chars|
    ensures Decode(ids, chars) == Known(doc, chars)
  {
    if |doc| == 0 then []
    else
      var head := if doc[0] in chars then [Find(chars, doc[0]) as int] else [];
      var rest := Ids(doc[1..], chars);
      assert Decode(head + rest, chars) == Decode(head, chars) + Decode(rest, chars);
      head + rest
  }

  /** encodeDoc: the ids of `doc`, wrapped with the control token at both
      ends. */
  function EncodeDoc(doc: string, chars: seq<char>, bos: int): (tokens: seq<int>)
    ensures |tokens| == |Known(doc, chars)| + 2
    ensures tokens[0] == bos && tokens[|tokens| - 1] == bos
    ensures forall i | 0 < i < |tokens| - 1 :: 0 <= tokens[i] < |chars|
    ensures Decode(tokens[1..|tokens| - 1], chars) == Known(doc, chars)
    ensures bos == |chars| ==> TokensIn(tokens, |chars| + 1)
  {
    var ids := Ids(doc, chars);
    assert ([bos] + ids + [bos])[1..|ids| + 1] == ids;
    [bos] + ids + [bos]
  }

  /** A document whose runes are all in `chars` is kept whole. */
  lemma {:induction false} KnownAll(doc: string, chars: seq<char>)
    requires forall i | 0 <= i < |doc| :: doc[i] in chars
    ensures Known(doc, chars) == doc
  {
    if |doc| > 0 {
      KnownAll(doc[1..], chars);
      assert [doc[0]] + doc[1..] == doc;
    }
  }

  /** Every training document of a model built from `docs` encodes without
      loss: decoding the ids between the two control tokens gives the
      document back. */
  lemma ModelEncodesDocs(config: Config, docs: seq<string>, gauss: nat -> real, d: nat)
    requires config.nEmbd >= 0 && config.blockSize >= 0 && d < |docs|
    ensures var m := NewModel(config, docs, gauss);
      var t := EncodeDoc(docs[d], m.chars, m.bos);
      |t| == |docs[d]| + 2 && Decode(t[1..|t| - 1], m.chars) == docs[d]
  {
    var m := NewModel(config, docs, gauss);
    forall i | 0 <= i < |docs[d]|
      ensures docs[d][i] in m.chars
    {
      assert docs[d] in docs;
      assert docs[d][i] in Alphabet(docs);
      assert docs[d][i] in CharSet(m.chars);
    }
    KnownAll(docs[d], m.chars);
  }

  predicate TokensIn(tokens: seq<int>, vocab: int) {
    forall i | 0 <= i < |tokens| :: 0 <= tokens[i] < vocab
  }

  predicate Widths(logits: seq<Vec>, vocab: int) {
    forall i | 0 <= i < |logits| :: |logits[i]| == vocab
  }

  /** One empty cache per layer that runs. */
  function EmptyCaches(c: Config): (caches: seq<seq<Vec>>)
    ensures |caches| == LayerCount(c) && forall li | 0 <= li < |caches| :: caches[li] == []
  {
    seq(LayerCount(c), li => [])
  }

  /** What a teacher-forced pass with weights `w` over `tokens` needs:
      lawful transcendentals, at least one head, weights of the configured
      shapes and tokens inside the vocabulary. */
  ghost predicate Forceable(mt: Math, c: Config, w: Weights<real>, tokens: seq<int>) {
    Lawful(mt) && c.nHead != 0 && Shaped(w, c, |w.wte|) && TokensIn(tokens, |w.wte|)
  }

  /** What scoring a document with weights `w` needs: as above, for a
      vocabulary of the runes plus the control token, and room for at least
      one position. */
  ghost predicate Scorable(mt: Math, c: Config, w: Weights<real>, chars: seq<char>) {
    Lawful(mt) && c.nHead != 0 && c.blockSize > 0 && Shaped(w, c, |chars| + 1)
  }

  /** What the training entry points need: lawful transcendentals, a model
      that keeps its invariant, and a non-zero head count whenever there is
      a position to run (Forward divides by it; with no position Forward is
      never called). */
  ghost predicate Ready(mt: Math, md: Model) {
    Lawful(mt) && ModelInv(md) && (md.config.blockSize > 0 ==> md.config.nHead != 0)
  }

  /** The logits of every position of a teacher-forced pass and the caches
      after it. */
  datatype Run = Run(logits: seq<Vec>, keys: seq<seq<Vec>>, values: seq<seq<Vec>>)

  /** Feeding tokens[0..count) one by one, each at its own position. */
  function TeacherForce(mt: Math, c: Config, w: Weights<real>, tokens: seq<int>, count: nat): (r: Run)
    requires Forceable(mt, c, w, tokens) && count <= |tokens| && count <= |w.wpe|
    ensures |r.logits| == count && Widths(r.logits, |w.wte|)
    ensures CachesFit(c, r.keys, r.values)
  {
    if count == 0 then Run([], EmptyCaches(c), EmptyCaches(c))
    else
      hide *;
      var r := TeacherForce(mt, c, w, tokens, count - 1);
      ForceableForward(mt, c, w, tokens, count - 1);
      var s := Forward(mt, c, w, tokens[count - 1], count - 1, r.keys, r.values);
      WidthsAppend(r.logits, s.logits, |w.wte|);
      Run(r.logits + [s.logits], s.keys, s.values)
  }

  /** Forward may run on every position of a forceable pass. */
  lemma ForceableForward(mt: Math, c: Config, w: Weights<real>, tokens: seq<int>, pos: nat)
    requires Forceable(mt, c, w, tokens) && pos < |tokens|
    ensures Lawful(mt) && c.nHead != 0 && Shaped(w, c, |w.wte|) && 0 <= tokens[pos] < |w.wte|
  {
  }

  lemma WidthsAppend(logits: seq<Vec>, x: Vec, vocab: int)
    requires Widths(logits, vocab) && |x| == vocab
    ensures Widths(logits + [x], vocab)
  {
  }

  /** One more position runs Forward on the next token with the caches
      of the shorter pass. */
  lemma TeacherForceStep(mt: Math, c: Config, w: Weights<real>, tokens: seq<int>, pos: nat)
    requires Forceable(mt, c, w, tokens) && pos < |tokens| && pos < |w.wpe|
    ensures var r := TeacherForce(mt, c, w, tokens, pos);
      var s := Forward(mt, c, w, tokens[pos], pos, r.keys, r.values);
      TeacherForce(mt, c, w, tokens, pos + 1) == Run(r.logits + [s.logits], s.keys, s.values)
  {
  }

  /** After `count` positions every layer's cache holds exactly `count`
      keys and `count` values, so the attention at position pos weighs the
      pos + 1 entries up to and including its own. */
  lemma {:induction false} TeacherForceCacheLength(mt: Math, c: Config, w: Weights<real>, tokens: seq<int>, count: nat)
    requires Forceable(mt, c, w, tokens) && count <= |tokens| && count <= |w.wpe|
    ensures var r := TeacherForce(mt, c, w, tokens, count);
      forall li | 0 <= li < LayerCount(c) :: |r.keys[li]| == count && |r.values[li]| == count
    decreases count
  {
    hide Lawful, Shaped, CachesFit, Forward, TeacherForce, Forceable;
    if count > 0 {
      TeacherForceCacheLength(mt, c, w, tokens, count - 1);
      TeacherForceStep(mt, c, w, tokens, count - 1);
      ForceableForward(mt, c, w, tokens, count - 1);
    } else {
      TeacherForceZero(mt, c, w, tokens);
    }
  }

  lemma TeacherForceZero(mt: Math, c: Config, w: Weights<real>, tokens: seq<int>)
    requires Forceable(mt, c, w, tokens)
    ensures TeacherForce(mt, c, w, tokens, 0) == Run([], EmptyCaches(c), EmptyCaches(c))
  {
  }

  /** Teacher forcing is incremental: the first `count` positions of a
      longer pass are the pass over the first `count` tokens. */
  lemma {:induction false} TeacherForcePrefix(mt: Math, c: Config, w: Weights<real>, tokens: seq<int>, count: nat, more: nat)
    requires Forceable(mt, c, w, tokens) && count <= more <= |tokens| && more <= |w.wpe|
    ensures TeacherForce(mt, c, w, tokens, more).logits[..count] == TeacherForce(mt, c, w, tokens, count).logits
    decreases more
  {
    hide Lawful, Shaped, CachesFit, Forward;
    if more > count {
      TeacherForcePrefix(mt, c, w, tokens, count, more - 1);
      TeacherForceExtends(mt, c, w, tokens, more - 1);
      PrefixOfPrefix(TeacherForce(mt, c, w, tokens, count).logits, TeacherForce(mt, c, w, tokens, more - 1).logits,
        TeacherForce(mt, c, w, tokens, more).logits, count, more - 1);
    }
  }

  /** One more position only appends to the logits. */
  lemma TeacherForceExtends(mt: Math, c: Config, w: Weights<real>, tokens: seq<int>, pos: nat)
    requires Forceable(mt, c, w, tokens) && pos < |tokens| && pos < |w.wpe|
    ensures TeacherForce(mt, c, w, tokens, pos + 1).logits[..pos] == TeacherForce(mt, c, w, tokens, pos).logits
  {
    TeacherForceStep(mt, c, w, tokens, pos);
  }

  /** A prefix of a prefix is a prefix. */
  lemma PrefixOfPrefix<T>(short: seq<T>, mid: seq<T>, long: seq<T>, count: nat, m: nat)
    requires count <= m <= |long| && long[..m] == mid && mid[..count] == short
    ensures long[..count] == short
  {
    assert long[..count] == long[..m][..count];
  }

  /** -log p(target) under the softmax of `logits`, as log(p) * -1. */
  function PositionLoss(mt: Math, logits: Vec, target: nat): real
    requires target < |logits|
  {
    mt.log(Softmax(mt, logits)[target]) * -1.0
  }

  /** -log p(next token) at every position. */
  function Losses(mt: Math, logits: seq<Vec>, tokens: seq<int>, vocab: int): (ls: seq<real>)
    requires Widths(logits, vocab) && TokensIn(tokens, vocab) && |tokens| > |logits|
    ensures |ls| == |logits|
  {
    seq(|logits|, i requires 0 <= i < |logits| => PositionLoss(mt, logits[i], tokens[i + 1]))
  }

  /** Scoring one more position appends its loss. */
  lemma LossesAppend(mt: Math, logits: seq<Vec>, x: Vec, tokens: seq<int>, vocab: int)
    requires Widths(logits, vocab) && |x| == vocab && TokensIn(tokens, vocab) && |tokens| > |logits| + 1
    ensures Widths(logits + [x], vocab)
    ensures Losses(mt, logits + [x], tokens, vocab)
      == Losses(mt, logits, tokens, vocab) + [PositionLoss(mt, x, tokens[|logits| + 1])]
  {
  }

  /** A softmax entry is a probability in (0, 1]. */
  lemma SoftmaxEntry(mt: Math, logits: Vec, i: nat)
    requires Lawful(mt) && i < |logits|
    ensures 0.0 < Softmax(mt, logits)[i] <= 1.0
  {
    SoftmaxDistribution(mt, logits);
    SumBoundsEntry(Softmax(mt, logits), i);
  }

  /** Cross-entropy is never negative. */
  lemma LossesNonNegative(mt: Math, logits: seq<Vec>, tokens: seq<int>, vocab: int)
    requires Lawful(mt) && Widths(logits, vocab) && TokensIn(tokens, vocab) && |tokens| > |logits|
    ensures NonNegative(Losses(mt, logits, tokens, vocab))
  {
    forall i | 0 <= i < |logits|
      ensures Losses(mt, logits, tokens, vocab)[i] >= 0.0
    {
      SoftmaxEntry(mt, logits[i], tokens[i + 1]);
      NegLogNonNegative(mt, Softmax(mt, logits[i])[tokens[i + 1]]);
    }
  }

  lemma NegLogNonNegative(mt: Math, p: real)
    requires Lawful(mt) && 0.0 < p <= 1.0
    ensures mt.log(p) * -1.0 >= 0.0
  {
  }

  /** The response of one training example (TrainResponse). */
  datatype Example = Example(
    step: int, loss: real,
    contextChar: string, targetChar: string, predictedChar: string,
    targetProb: real, predictedProb: real)

  datatype Outcome = Failed(message: string) | Trained(ex: Example)

  const EmptySequence: string := "training sequence is empty"

  /** Positions trained on: one per next token, at most the block size. */
  function Positions(tokens: seq<int>, blockSize: int): (n: int)
    ensures n <= |tokens| - 1 && n <= blockSize
    ensures n == |tokens| - 1 || n == blockSize
  {
    if |tokens| - 1 > blockSize then blockSize else |tokens| - 1
  }

  /** The diagnostics of the last position: the context and target tokens,
      the target's probability, and the most probable token (the first one
      on ties). */
  function Report(probs: Vec, context: int, target: int, bos: int, chars: seq<char>, step: int, loss: real): (e: Example)
    requires |probs| == |chars| + 1 && bos == |chars|
    requires 0 <= context <= |chars| && 0 <= target <= |chars|
    ensures e.step == step && e.loss == loss
    ensures e.contextChar == TokenLabel(context, bos, chars) && e.targetChar == TokenLabel(target, bos, chars)
    ensures e.targetProb == probs[target]
    ensures e.predictedProb >= e.targetProb
    ensures exists best | 0 <= best < |probs| ::
      && e.predictedChar == TokenLabel(best, bos, chars) && e.predictedProb == probs[best]
      && (forall i | 0 <= i < |probs| :: probs[i] <= probs[best])
      && (forall i | 0 <= i < best :: probs[i] < probs[best])
  {
    var idx := Indices(|probs|);
    var best := BestAt(probs, idx);
    forall i | 0 <= i < |probs|
      ensures probs[i] <= probs[best]
    {
      assert probs[idx[i]] <= probs[idx[best]];
    }
    forall i | 0 <= i < best
      ensures probs[i] < probs[best]
    {
      assert probs[idx[i]] < probs[idx[best]];
    }
    Example(step, loss, TokenLabel(context, bos, chars), TokenLabel(target, bos, chars),
      TokenLabel(best, bos, chars), probs[target], probs[best])
  }

  /** The loss and diagnostics of a pass whose per-position logits are
      `logits`: the mean of the per-position losses, and the report of the
      last position. */
  function Score(mt: Math, logits: seq<Vec>, tokens: seq<int>, chars: seq<char>, step: int): (e: Example)
    requires Lawful(mt) && 0 < |logits| < |tokens|
    requires Widths(logits, |chars| + 1) && TokensIn(tokens, |chars| + 1)
    ensures e.step == step
    ensures e.loss >= 0.0 && 0.0 < e.targetProb <= 1.0 && e.predictedProb >= e.targetProb
  {
    var n := |logits|;
    var loss := Mean(Losses(mt, logits, tokens, |chars| + 1));
    LossesNonNegative(mt, logits, tokens, |chars| + 1);
    SoftmaxEntry(mt, logits[n - 1], tokens[n]);
    Report(Softmax(mt, logits[n - 1]), tokens[n - 1], tokens[n], |chars|, chars, step, loss)
  }

  lemma ScoreIs(mt: Math, logits: seq<Vec>, tokens: seq<int>, chars: seq<char>, step: int)
    requires Lawful(mt) && 0 < |logits| < |tokens|
    requires Widths(logits, |chars| + 1) && TokensIn(tokens, |chars| + 1)
    ensures var n := |logits|;
      Score(mt, logits, tokens, chars, step)
      == Report(Softmax(mt, logits[n - 1]), tokens[n - 1], tokens[n], |chars|, chars, step,
                Mean(Losses(mt, logits, tokens, |chars| + 1)))
  {
  }

  /** What trainOneExample computes for document `doc` with weights `w`. */
  function ExampleAt(mt: Math, c: Config, w: Weights<real>, chars: seq<char>, step: int, doc: string): (e: Example)
    requires Scorable(mt, c, w, chars)
    ensures e.step == step
    ensures e.loss >= 0.0 && 0.0 < e.targetProb <= 1.0 && e.predictedProb >= e.targetProb
  {
    var tokens := EncodeDoc(doc, chars, |chars|);
    var n := Positions(tokens, c.blockSize);
    Score(mt, TeacherForce(mt, c, w, tokens, n).logits, tokens, chars, step)
  }

  lemma ExampleAtIs(mt: Math, c: Config, w: Weights<real>, chars: seq<char>, step: int, doc: string)
    requires Scorable(mt, c, w, chars)
    ensures var tokens := EncodeDoc(doc, chars, |chars|);
      ExampleAt(mt, c, w, chars, step, doc)
      == Score(mt, TeacherForce(mt, c, w, tokens, Positions(tokens, c.blockSize)).logits, tokens, chars, step)
  {
  }

  /** The same for a model, reading the weights from its parameters. */
  function ExampleOf(mt: Math, md: Model, doc: string): (e: Example)
    requires Ready(mt, md) && md.config.blockSize > 0
    ensures e.step == md.steps
    ensures e.loss >= 0.0 && 0.0 < e.targetProb <= 1.0 && e.predictedProb >= e.targetProb
  {
    ExampleAt(mt, md.config, Values(md), md.chars, md.steps, doc)
  }

  /** The teacher-forced loop of trainOneExample with weights `w`: feeds
      the current token at each position and scores the next one. */
  method TrainOn(mt: Math, c: Config, w: Weights<real>, chars: seq<char>, step: int, doc: string) returns (e: Example)
    requires Scorable(mt, c, w, chars)
    ensures e == ExampleAt(mt, c, w, chars, step, doc)
  {
    var tokens := EncodeDoc(doc, chars, |chars|);
    var n := Positions(tokens, c.blockSize);
    assert |w.wte| == |chars| + 1 && |w.wpe| == c.blockSize;
    assert Forceable(mt, c, w, tokens);
    hide Lawful, Shaped, CachesFit, Forward;
    var keys, values := EmptyCaches(c), EmptyCaches(c);
    var logits: seq<Vec> := [];
    var losses: seq<real> := [];
    var pos := 0;
    while pos < n
      invariant 0 <= pos <= n
      invariant TeacherForce(mt, c, w, tokens, pos) == Run(logits, keys, values)
      invariant |logits| == pos && Widths(logits, |chars| + 1)
      invariant losses == Losses(mt, logits, tokens, |chars| + 1)
    {
      TeacherForceStep(mt, c, w, tokens, pos);
      var s := Forward(mt, c, w, tokens[pos], pos, keys, values);
      var loss := PositionLoss(mt, s.logits, tokens[pos + 1]);
      LossesAppend(mt, logits, s.logits, tokens, |chars| + 1);
      losses := losses + [loss];
      logits := logits + [s.logits];
      keys, values := s.keys, s.values;
      pos := pos + 1;
    }
    assert pos == n;
    var avg := Mean(losses);
    ScoreIs(mt, logits, tokens, chars, step);
    ExampleAtIs(mt, c, w, chars, step, doc);
    e := Report(Softmax(mt, logits[n - 1]), tokens[n - 1], tokens[n], |chars|, chars, step, avg);
  }

  /** trainOneExample on document `doc` (the source draws it at random):
      fails exactly when the block size leaves no position to train on,
      and otherwise trains on the model's current weights. */
  method TrainOneExample(mt: Math, md: Model, doc: string) returns (r: Outcome)
    requires Ready(mt, md)
    ensures r.Failed? <==> md.config.blockSize <= 0
    ensures r.Failed? ==> r.message == EmptySequence
    ensures r.Trained? ==> r.ex == ExampleOf(mt, md, doc)
  {
    var tokens := EncodeDoc(doc, md.chars, md.bos);
    var n := Positions(tokens, md.config.blockSize);
    if n <= 0 {
      return Failed(EmptySequence);
    }
    var e := TrainOn(mt, md.config, Values(md), md.chars, md.steps, doc);
    return Trained(e);
  }

  /** The derivative of one example's average loss with respect to
      parameter k, for document `doc` at model `md`: what that example's
      Backward adds to the parameter's Grad. */
  type Partial = (Model, string, nat) -> real

  /** Which document the random draw picks for slot `slot` of optimiser
      step `step`; every draw indexes `docs`. */
  ghost predicate Draws(docs: seq<string>, draw: (nat, nat) -> nat) {
    forall step, slot :: draw(step, slot) < |docs|
  }

  /** The document drawn for slot `slot` of optimiser step `step`. */
  function Drawn(docs: seq<string>, draw: (nat, nat) -> nat, step: nat, slot: nat): (doc: string)
    requires Draws(docs, draw)
    ensures doc in docs
  {
    docs[draw(step, slot)]
  }

  /** A count below 1 becomes 1. */
  function AtLeastOne(x: int): (r: nat)
    ensures r >= 1 && (x >= 1 ==> r == x)
  {
    if x < 1 then 1 else x
  }

  /** What Backward on one example adds to every parameter's gradient. */
  function Gradient(partial: Partial, md: Model, doc: string): (g: seq<real>)
    ensures |g| == |md.params|
    ensures forall k | 0 <= k < |g| :: g[k] == partial(md, doc, k)
  {
    seq(|md.params|, k requires 0 <= k < |md.params| => partial(md, doc, k))
  }

  /** Gradients accumulated over the first `count` examples of a step,
      starting from 0. */
  function BatchGrads(md: Model, docs: seq<string>, draw: (nat, nat) -> nat, partial: Partial, step: nat, count: nat): (g: seq<real>)
    requires Draws(docs, draw)
    ensures |g| == |md.params|
  {
    if count == 0 then Zeros(|md.params|)
    else AddVec(BatchGrads(md, docs, draw, partial, step, count - 1), Gradient(partial, md, Drawn(docs, draw, step, count - 1)))
  }

  lemma BatchGradsZero(md: Model, docs: seq<string>, draw: (nat, nat) -> nat, partial: Partial, step: nat)
    requires Draws(docs, draw)
    ensures BatchGrads(md, docs, draw, partial, step, 0) == Zeros(|md.params|)
  {
  }

  lemma BatchGradsStep(md: Model, docs: seq<string>, draw: (nat, nat) -> nat, partial: Partial, step: nat, count: nat)
    requires Draws(docs, draw)
    ensures BatchGrads(md, docs, draw, partial, step, count + 1)
      == AddVec(BatchGrads(md, docs, draw, partial, step, count), Gradient(partial, md, Drawn(docs, draw, step, count)))
  {
  }

  /** Loss summed over the first `count` examples of a step. */
  function BatchLoss(mt: Math, md: Model, docs: seq<string>, draw: (nat, nat) -> nat, step: nat, count: nat): (total: real)
    requires Ready(mt, md) && md.config.blockSize > 0 && Draws(docs, draw)
    ensures total >= 0.0
  {
    if count == 0 then 0.0
    else BatchLoss(mt, md, docs, draw, step, count - 1) + ExampleOf(mt, md, Drawn(docs, draw, step, count - 1)).loss
  }

  lemma BatchLossStep(mt: Math, md: Model, docs: seq<string>, draw: (nat, nat) -> nat, step: nat, count: nat)
    requires Ready(mt, md) && md.config.blockSize > 0 && Draws(docs, draw)
    ensures BatchLoss(mt, md, docs, draw, step, count + 1)
      == BatchLoss(mt, md, docs, draw, step, count) + ExampleOf(mt, md, Drawn(docs, draw, step, count)).loss
  {
  }

  lemma BatchLossZero(mt: Math, md: Model, docs: seq<string>, draw: (nat, nat) -> nat, step: nat)
    requires Ready(mt, md) && md.config.blockSize > 0 && Draws(docs, draw)
    ensures BatchLoss(mt, md, docs, draw, step, 0) == 0.0
  {
  }

  lemma ReadyModel(mt: Math, md: Model)
    requires Ready(mt, md)
    ensures Lawful(mt) && ModelInv(md)
  {
  }

  /** Every gradient reset to 0. */
  function ZeroGrads(ps: Graph): (r: Graph)
    ensures |r| == |ps|
    ensures forall k | 0 <= k < |ps| :: r[k] == ps[k].(grad := 0.0)
  {
    seq(|ps|, k requires 0 <= k < |ps| => ps[k].(grad := 0.0))
  }

  /** Gradient k set to g[k]. */
  function WithGrads(ps: Graph, g: seq<real>): (r: Graph)
    requires |g| == |ps|
    ensures |r| == |ps|
    ensures forall k | 0 <= k < |ps| :: r[k] == ps[k].(grad := g[k])
  {
    seq(|ps|, k requires 0 <= k < |ps| => ps[k].(grad := g[k]))
  }

  /** The model with gradient k set to g[k]; only gradients change, so
      the model invariant is kept. */
  function SetGrads(md: Model, g: seq<real>): (r: Model)
    requires ModelInv(md) && |g| == |md.params|
    ensures ModelInv(r) && r == md.(params := WithGrads(md.params, g))
  {
    md.(params := WithGrads(md.params, g))
  }

  lemma ZeroGradsKeepInv(md: Model)
    requires ModelInv(md)
    ensures ModelInv(md.(params := ZeroGrads(md.params)))
  {
  }

  /** Gradient writes never move the weights: after SetGrads or ZeroGrads
      Forward reads the same weight matrices as before. */
  lemma GradWritesKeepValues(md: Model, g: seq<real>)
    requires ModelInv(md) && |g| == |md.params|
    ensures Values(SetGrads(md, g)) == Values(md)
    ensures ModelInv(md.(params := ZeroGrads(md.params)))
    ensures Values(md.(params := ZeroGrads(md.params))) == Values(md)
  {
    ValuesReadData(md, SetGrads(md, g));
    ZeroGradsKeepInv(md);
    ValuesReadData(md, md.(params := ZeroGrads(md.params)));
  }

  /** The batch gradients of step `step`, each multiplied by 1/B. */
  function ScaledGrads(md: Model, docs: seq<string>, draw: (nat, nat) -> nat, partial: Partial, step: nat, b: nat): (g: seq<real>)
    requires Draws(docs, draw) && b >= 1
    ensures |g| == |md.params|
  {
    Scale(BatchGrads(md, docs, draw, partial, step, b), 1.0 / b as real)
  }

  /** One optimiser step: gradients accumulated over a batch of B
      examples and scaled by 1/B, then Model.Update. */
  function OptimizerStep(mt: Math, md: Model, docs: seq<string>, draw: (nat, nat) -> nat, partial: Partial, step: nat, b: nat): (md': Model)
    requires Lawful(mt) && ModelInv(md) && Draws(docs, draw) && b >= 1
    ensures ModelInv(md') && md'.steps == md.steps + 1
    ensures md'.config == md.config && md'.chars == md.chars && md'.state == md.state
    ensures |md'.params| == |md.params|
    ensures forall k | 0 <= k < |md.params| :: md'.params[k].grad == 0.0
  {
    Update(mt, SetGrads(md, ScaledGrads(md, docs, draw, partial, step, b)))
  }

  /** A summed loss divided by the number of terms. */
  function BatchMean(total: real, b: nat): (r: real)
    requires b >= 1
    ensures total >= 0.0 ==> r >= 0.0
  {
    total / b as real
  }

  /** The state of TrainBatchedSteps after some steps: the model, the sum
      of the batch mean losses, and the last example's response. */
  datatype Progress = Progress(model: Model, lossSum: real, last: Example)

  /** The zero TrainResponse the loop starts from. */
  const NoExample := Example(0, 0.0, [], [], [], 0.0, 0.0)

  /** Optimiser step `step` applied to the progress so far. */
  function Advance(mt: Math, p: Progress, docs: seq<string>, draw: (nat, nat) -> nat, partial: Partial, step: nat, b: nat): (p': Progress)
    requires Ready(mt, p.model) && p.model.config.blockSize > 0 && Draws(docs, draw) && b >= 1 && p.lossSum >= 0.0
    ensures Ready(mt, p'.model) && ModelInv(p'.model) && p'.model.steps == p.model.steps + 1
    ensures p'.model.config == p.model.config && p'.model.chars == p.model.chars && p'.model.state == p.model.state
    ensures |p'.model.params| == |p.model.params|
    ensures forall k | 0 <= k < |p'.model.params| :: p'.model.params[k].grad == 0.0
    ensures p'.lossSum >= p.lossSum && p'.last.loss >= 0.0
  {
    var m := p.model;
    Progress(
      OptimizerStep(mt, m, docs, draw, partial, step, b),
      p.lossSum + BatchMean(BatchLoss(mt, m, docs, draw, step, b), b),
      ExampleOf(mt, m, Drawn(docs, draw, step, b - 1)))
  }

  lemma AdvanceIs(mt: Math, p: Progress, docs: seq<string>, draw: (nat, nat) -> nat, partial: Partial, step: nat, b: nat)
    requires Ready(mt, p.model) && p.model.config.blockSize > 0 && Draws(docs, draw) && b >= 1 && p.lossSum >= 0.0
    ensures var m := p.model;
      Advance(mt, p, docs, draw, partial, step, b)
      == Progress(Update(mt, SetGrads(m, Scale(BatchGrads(m, docs, draw, partial, step, b), 1.0 / b as real))),
                  p.lossSum + BatchMean(BatchLoss(mt, m, docs, draw, step, b), b),
                  ExampleOf(mt, m, Drawn(docs, draw, step, b - 1)))
  {
    hide ExampleOf, BatchLoss, BatchGrads, Update, SetGrads, Ready, Drawn;
  }

  lemma TrainZero(mt: Math, md: Model, docs: seq<string>, draw: (nat, nat) -> nat, partial: Partial, b: nat)
    requires Ready(mt, md) && md.config.blockSize > 0 && Draws(docs, draw) && b >= 1
    ensures Train(mt, md, docs, draw, partial, 0, b) == Progress(md, 0.0, NoExample)
  {
  }

  /** One more step continues from the progress so far. */
  lemma TrainStep(mt: Math, md: Model, docs: seq<string>, draw: (nat, nat) -> nat, partial: Partial, count: nat, b: nat)
    requires Ready(mt, md) && md.config.blockSize > 0 && Draws(docs, draw) && b >= 1
    ensures Train(mt, md, docs, draw, partial, count + 1, b)
      == Advance(mt, Train(mt, md, docs, draw, partial, count, b), docs, draw, partial, count, b)
  {
  }

  /** The first `count` optimiser steps with batches of `b` examples. */
  function Train(mt: Math, md: Model, docs: seq<string>, draw: (nat, nat) -> nat, partial: Partial, count: nat, b: nat): (p: Progress)
    requires Ready(mt, md) && md.config.blockSize > 0 && Draws(docs, draw) && b >= 1
    ensures Ready(mt, p.model) && ModelInv(p.model) && p.model.steps == md.steps + count
    ensures p.model.config == md.config && p.model.chars == md.chars && p.model.state == md.state
    ensures |p.model.params| == |md.params|
    ensures count >= 1 ==> forall k | 0 <= k < |p.model.params| :: p.model.params[k].grad == 0.0
    ensures p.lossSum >= 0.0 && p.last.loss >= 0.0
  {
    if count == 0 then Progress(md, 0.0, NoExample)
    else Advance(mt, Train(mt, md, docs, draw, partial, count - 1, b), docs, draw, partial, count - 1, b)
  }

  /** The outcome of one batch: the first example's error, or the
      accumulated gradients, the summed loss and the last response. */
  datatype Batch = BatchFailed(message: string) | BatchDone(grads: seq<real>, loss: real, last: Example)

  /** One slot of a batch: the example `slot` draws, trained on `cur`, its
      gradients added to `acc` and its loss to `loss`. */
  method AddExample(mt: Math, cur: Model, docs: seq<string>, draw: (nat, nat) -> nat, partial: Partial,
                    step: nat, slot: nat, acc: seq<real>, loss: real) returns (res: Batch)
    requires Ready(mt, cur) && Draws(docs, draw)
    requires acc == BatchGrads(cur, docs, draw, partial, step, slot)
    requires cur.config.blockSize > 0 ==> loss == BatchLoss(mt, cur, docs, draw, step, slot)
    ensures res.BatchFailed? <==> cur.config.blockSize <= 0
    ensures res.BatchFailed? ==> res.message == EmptySequence
    ensures res.BatchDone? ==>
      && res.grads == BatchGrads(cur, docs, draw, partial, step, slot + 1)
      && res.loss == BatchLoss(mt, cur, docs, draw, step, slot + 1)
      && res.last == ExampleOf(mt, cur, Drawn(docs, draw, step, slot))
  {
    // Everything below follows from the callees' contracts.
    hide *;
    var doc := Drawn(docs, draw, step, slot);
    var r := TrainOneExample(mt, cur, doc);
    if r.Failed? {
      return BatchFailed(r.message);
    }
    BatchGradsStep(cur, docs, draw, partial, step, slot);
    BatchLossStep(mt, cur, docs, draw, step, slot);
    return BatchDone(AddVec(acc, Gradient(partial, cur, doc)), loss + r.ex.loss, r.ex);
  }

  /** The inner loop of TrainBatchedSteps: `b` examples on model `cur`,
      their gradients accumulated from 0 and their losses summed. */
  method RunBatch(mt: Math, cur: Model, docs: seq<string>, draw: (nat, nat) -> nat, partial: Partial, step: nat, b: nat)
    returns (res: Batch)
    requires Ready(mt, cur) && Draws(docs, draw) && b >= 1
    ensures res.BatchFailed? <==> cur.config.blockSize <= 0
    ensures res.BatchFailed? ==> res.message == EmptySequence
    ensures res.BatchDone? ==>
      && res.grads == BatchGrads(cur, docs, draw, partial, step, b)
      && res.loss == BatchLoss(mt, cur, docs, draw, step, b)
      && res.last == ExampleOf(mt, cur, Drawn(docs, draw, step, b - 1))
  {
    // Everything below follows from the callees' contracts.
    hide *;
    var acc := Zeros(|cur.params|);
    BatchGradsZero(cur, docs, draw, partial, step);
    var batchLoss := 0.0;
    var last := NoExample;
    var slot := 0;
    while slot < b
      invariant 0 <= slot <= b
      invariant acc == BatchGrads(cur, docs, draw, partial, step, slot)
      invariant slot == 0 ==> batchLoss == 0.0
      invariant slot > 0 ==>
        && cur.config.blockSize > 0
        && batchLoss == BatchLoss(mt, cur, docs, draw, step, slot)
        && last == ExampleOf(mt, cur, Drawn(docs, draw, step, slot - 1))
    {
      if slot == 0 && cur.config.blockSize > 0 {
        BatchLossZero(mt, cur, docs, draw, step);
      }
      var added := AddExample(mt, cur, docs, draw, partial, step, slot, acc, batchLoss);
      if added.BatchFailed? {
        return added;
      }
      acc, batchLoss, last := added.grads, added.loss, added.last;
      slot := slot + 1;
    }
    assert slot == b;
    return BatchDone(acc, batchLoss, last);
  }

  /** TrainBatchedSteps: at least one optimiser step, each over a batch of
      at least one example whose documents `draw` picks. The gradient
      buffers are cleared before each batch; if an example fails, that
      error is returned at once. Otherwise the response is the last
      example's, with the model's step counter and the batch mean losses
      averaged over the steps. */
  method TrainBatchedSteps(mt: Math, md: Model, docs: seq<string>, stepsPerCall: int, batchSize: int,
                           draw: (nat, nat) -> nat, partial: Partial) returns (md': Model, r: Outcome)
    requires Ready(mt, md) && Draws(docs, draw)
    ensures ModelInv(md') && md'.config == md.config && md'.chars == md.chars && md'.state == md.state
    ensures r.Failed? <==> md.config.blockSize <= 0
    ensures r.Failed? ==> r.message == EmptySequence && md' == md.(params := ZeroGrads(md.params))
    ensures r.Trained? ==>
      && md.config.blockSize > 0
      && var steps := AtLeastOne(stepsPerCall);
         var p := Train(mt, md, docs, draw, partial, steps, AtLeastOne(batchSize));
         && md' == p.model
         && r.ex == p.last.(step := md'.steps, loss := BatchMean(p.lossSum, steps))
    ensures r.Trained? ==> forall k | 0 <= k < |md'.params| :: md'.params[k].grad == 0.0
  {
    // Everything below follows from the callees' contracts.
    hide *;
    ReadyModel(mt, md);
    var steps := AtLeastOne(stepsPerCall);
    var b := AtLeastOne(batchSize);
    var p := Progress(md, 0.0, NoExample);
    var step := 0;
    while step < steps
      invariant 0 <= step <= steps
      invariant step == 0 ==> p == Progress(md, 0.0, NoExample)
      invariant step > 0 ==> md.config.blockSize > 0 && p == Train(mt, md, docs, draw, partial, step, b)
    {
      var cur := p.model;
      var zeroed := ZeroGrads(cur.params);
      var batch := RunBatch(mt, cur, docs, draw, partial, step, b);
      if batch.BatchFailed? {
        md', r := cur.(params := zeroed), Failed(batch.message);
        ZeroGradsKeepInv(cur);
        return;
      }
      var scaled := Scale(batch.grads, 1.0 / b as real);
      if step == 0 {
        TrainZero(mt, md, docs, draw, partial, b);
      }
      TrainStep(mt, md, docs, draw, partial, step, b);
      AdvanceIs(mt, p, docs, draw, partial, step, b);
      p := Progress(Update(mt, SetGrads(cur, scaled)), p.lossSum + BatchMean(batch.loss, b), batch.last);
      step := step + 1;
    }
    assert step == steps;
    md' := p.model;
    r := Trained(p.last.(step := md'.steps, loss := BatchMean(p.lossSum, steps)));
  }
}
