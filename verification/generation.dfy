/** The two generation loops of inference_and_training.go: feed the last
    chosen token at the next position, turn the logits into a distribution,
    draw from it, and stop at <END> or at the block size. The trace variant
    records every choice. The uniform draw of position `pos` is `u(pos)`. */
module Generation {
  import opened Transcendental
  import opened Vectors
  import opened Params
  import opened Transformer
  import opened Sampling
  import opened Training

  /** Candidates listed per trace step. */
  const TraceWidth: nat := 5

  const EndReason: string := "Model selected <END> token"
  const LimitReason: string := "Reached block size limit"

  /** One row of the trace; the free-text explanation is not modelled. */
  datatype TraceStep = TraceStep(
    position: nat, context: string, topK: seq<Candidate>, randomU: real,
    chosenChar: string, chosenProb: real, chosenRank: int, cumBefore: real, cumAfter: real)

  datatype TraceResponse = TraceResponse(text: string, steps: seq<TraceStep>, stopReason: string)

  predicate IdsIn(ids: seq<nat>, n: nat) {
    forall i | 0 <= i < |ids| :: ids[i] < n
  }

  /** Appending an id in range keeps every id in range. */
  lemma IdsSnoc(ids: seq<nat>, x: nat, n: nat)
    requires IdsIn(ids, n) && x < n
    ensures IdsIn(ids + [x], n)
  {
  }

  /** The runes of the chosen ids, joined. */
  function Text(ids: seq<nat>, chars: seq<char>): (t: string)
    requires IdsIn(ids, |chars|)
    ensures |t| == |ids| && forall i | 0 <= i < |t| :: t[i] in chars
  {
    seq(|ids|, i requires 0 <= i < |ids| => chars[ids[i]])
  }

  lemma TextSnoc(ids: seq<nat>, x: nat, chars: seq<char>)
    requires IdsIn(ids, |chars|) && x < |chars|
    ensures IdsIn(ids + [x], |chars|)
    ensures Text(ids + [x], chars) == Text(ids, chars) + [chars[x]]
  {
  }

  /** The chosen-rank loop from position `from` on: the 1-based position of
      the first candidate with token `id`, or `absent` if none has it. */
  function RankFrom(topK: seq<Candidate>, id: int, from: nat, absent: int): (r: int)
    requires from <= |topK|
    ensures (exists i | from <= i < |topK| :: topK[i].tokenId == id) ==>
      from < r <= |topK| && topK[r - 1].tokenId == id
      && forall i | from <= i < r - 1 :: topK[i].tokenId != id
    ensures (forall i | from <= i < |topK| :: topK[i].tokenId != id) ==> r == absent
    decreases |topK| - from
  {
    if from == |topK| then absent
    else if topK[from].tokenId == id then from + 1
    else RankFrom(topK, id, from + 1, absent)
  }

  /** The state of a generation loop: the non-<END> ids chosen so far, the
      caches, the trace rows and whether <END> was drawn. */
  datatype Gen = Gen(ids: seq<nat>, keys: seq<seq<Vec>>, values: seq<seq<Vec>>, steps: seq<TraceStep>, ended: bool)

  /** The token fed at the next position: the last chosen one, <END> at
      the start. */
  function LastToken(ids: seq<nat>, bos: nat): nat {
    if |ids| == 0 then bos else ids[|ids| - 1]
  }

  lemma LastTokenFacts(ids: seq<nat>, x: nat, bos: nat)
    requires IdsIn(ids, bos)
    ensures LastToken([], bos) == bos && LastToken(ids + [x], bos) == x && LastToken(ids, bos) <= bos
  {
  }

  /** What a generation loop needs: lawful transcendentals, a non-zero head
      count whenever there is a position to run, weights of the configured shapes for the runes plus <END>, and
      clamped options. */
  ghost predicate Generable(mt: Math, c: Config, w: Weights<real>, chars: seq<char>, o: GenerateOptions) {
    Lawful(mt) && (c.blockSize > 0 ==> c.nHead != 0) && Shaped(w, c, |chars| + 1) && o.temperature > 0.0
  }

  lemma GenerableFacts(mt: Math, c: Config, w: Weights<real>, chars: seq<char>, o: GenerateOptions)
    requires Generable(mt, c, w, chars, o)
    ensures Lawful(mt) && (c.blockSize > 0 ==> c.nHead != 0) && Shaped(w, c, |w.wte|) && o.temperature > 0.0
    ensures |w.wte| == |chars| + 1 && |w.wpe| == c.blockSize && c.blockSize >= 0
  {
  }

  /** The trace row of the draw `d` at position `pos`, after the runes of
      `ids`: the five most probable candidates and where the chosen token
      ranks among them. */
  function Row(chars: seq<char>, ids: seq<nat>, pos: nat, pv: ProbVector, d: Draw): TraceStep
    requires |pv.raw| == |chars| + 1 && |pv.probs| == |chars| + 1
    requires d.chosen == |chars| || 0 <= d.chosen < |chars|
    requires IdsIn(ids, |chars|)
  {
    var bos := |chars|;
    var topK := TopKCandidates(pv.raw, pv.probs, chars, bos, TraceWidth);
    TraceStep(pos, Text(ids, chars), topK, d.u, TokenLabel(d.chosen, bos, chars),
      d.chosenProb, RankFrom(topK, d.chosen, 0, |pv.probs|), d.cumBefore, d.cumAfter)
  }

  /** Records the draw `d` made at position `pos` from the distribution
      `pv` and the caches of step `s`: a trace row, then either the stop
      or one more chosen id. <END> is the id |chars|. */
  function Record(chars: seq<char>, g: Gen, pos: nat, s: Step, pv: ProbVector, d: Draw): (g': Gen)
    requires |pv.raw| == |chars| + 1 && |pv.probs| == |chars| + 1
    requires d.chosen == |chars| || 0 <= d.chosen < |chars|
    requires IdsIn(g.ids, |chars|)
    ensures IdsIn(g'.ids, |chars|)
    ensures g'.ended <==> d.chosen == |chars|
  {
    var bos := |chars|;
    var step := Row(chars, g.ids, pos, pv, d);
    if d.chosen == bos then Gen(g.ids, s.keys, s.values, g.steps + [step], true)
    else IdsSnoc(g.ids, d.chosen, |chars|); Gen(g.ids + [d.chosen], s.keys, s.values, g.steps + [step], false)
  }

  /** What Record keeps, adds and shows. */
  lemma RecordFields(chars: seq<char>, g: Gen, pos: nat, s: Step, pv: ProbVector, d: Draw)
    requires |pv.raw| == |chars| + 1 && |pv.probs| == |chars| + 1
    requires d.chosen == |chars| || 0 <= d.chosen < |chars|
    requires IdsIn(g.ids, |chars|)
    ensures var g' := Record(chars, g, pos, s, pv, d);
      && g'.keys == s.keys && g'.values == s.values
      && g'.ids == (if d.chosen == |chars| then g.ids else g.ids + [d.chosen])
      && |g'.steps| == |g.steps| + 1 && g'.steps[..|g.steps|] == g.steps
      && g'.steps[|g.steps|].position == pos && g'.steps[|g.steps|].randomU == d.u
      && g'.steps[|g.steps|].context == Text(g.ids, chars)
      && g'.steps[|g.steps|].chosenChar == TokenLabel(d.chosen, |chars|, chars)
  {
    assert (g.steps + [Record(chars, g, pos, s, pv, d).steps[|g.steps|]])[..|g.steps|] == g.steps;
  }

  /** One iteration of the loop at position `pos`. */
  ghost function Iteration(mt: Math, c: Config, w: Weights<real>, chars: seq<char>, o: GenerateOptions,
                         u: nat -> real, g: Gen, pos: nat): (g': Gen)
    requires Generable(mt, c, w, chars, o) && pos < c.blockSize
    requires CachesFit(c, g.keys, g.values) && IdsIn(g.ids, |chars|)
    ensures CachesFit(c, g'.keys, g'.values) && IdsIn(g'.ids, |chars|)
    ensures |g'.steps| == |g.steps| + 1
    ensures |g'.ids| == |g.ids| + (if g'.ended then 0 else 1)
  {
    var bos := |chars|;
    var s := Forward(mt, c, w, LastToken(g.ids, bos), pos, g.keys, g.values);
    var pv := ToProbVector(mt, s.logits, o, bos, |g.ids| < o.minLen);
    Record(chars, g, pos, s, pv, DrawOf(pv.probs, u(pos), bos))
  }

  /** Iteration, spelled out. */
  lemma IterationIs(mt: Math, c: Config, w: Weights<real>, chars: seq<char>, o: GenerateOptions,
                  u: nat -> real, g: Gen, pos: nat)
    requires Generable(mt, c, w, chars, o) && pos < c.blockSize
    requires CachesFit(c, g.keys, g.values) && IdsIn(g.ids, |chars|)
    ensures var s := Forward(mt, c, w, LastToken(g.ids, |chars|), pos, g.keys, g.values);
      var pv := ToProbVector(mt, s.logits, o, |chars|, |g.ids| < o.minLen);
      && |s.logits| == |chars| + 1 && |pv.raw| == |chars| + 1 && |pv.probs| == |chars| + 1
      && Iteration(mt, c, w, chars, o, u, g, pos) == Record(chars, g, pos, s, pv, DrawOf(pv.probs, u(pos), |chars|))
  {
  }

  /** The loop after `n` positions, or after the position that drew <END>
      if that came first. */
  ghost function Unroll(mt: Math, c: Config, w: Weights<real>, chars: seq<char>, o: GenerateOptions,
                        u: nat -> real, n: nat): (g: Gen)
    requires Generable(mt, c, w, chars, o) && n <= c.blockSize
    ensures CachesFit(c, g.keys, g.values) && IdsIn(g.ids, |chars|)
    ensures |g.steps| == |g.ids| + (if g.ended then 1 else 0)
    ensures g.ended ==> |g.steps| <= n
    ensures !g.ended ==> |g.steps| == n
    decreases n
  {
    if n == 0 then Gen([], EmptyCaches(c), EmptyCaches(c), [], false)
    else
      var g := Unroll(mt, c, w, chars, o, u, n - 1);
      if g.ended then g else Iteration(mt, c, w, chars, o, u, g, n - 1)
  }

  lemma UnrollZero(mt: Math, c: Config, w: Weights<real>, chars: seq<char>, o: GenerateOptions, u: nat -> real)
    requires Generable(mt, c, w, chars, o)
    ensures Unroll(mt, c, w, chars, o, u, 0) == Gen([], EmptyCaches(c), EmptyCaches(c), [], false)
  {
  }

  lemma UnrollNext(mt: Math, c: Config, w: Weights<real>, chars: seq<char>, o: GenerateOptions, u: nat -> real, n: nat)
    requires Generable(mt, c, w, chars, o) && n < c.blockSize
    requires !Unroll(mt, c, w, chars, o, u, n).ended
    ensures Unroll(mt, c, w, chars, o, u, n + 1) == Iteration(mt, c, w, chars, o, u, Unroll(mt, c, w, chars, o, u, n), n)
  {
  }

  /** Once <END> is drawn the loop has stopped: later positions change
      nothing. */
  lemma {:induction false} UnrollStops(mt: Math, c: Config, w: Weights<real>, chars: seq<char>, o: GenerateOptions,
                                       u: nat -> real, n: nat, m: nat)
    requires Generable(mt, c, w, chars, o) && n <= m <= c.blockSize
    requires Unroll(mt, c, w, chars, o, u, n).ended
    ensures Unroll(mt, c, w, chars, o, u, m) == Unroll(mt, c, w, chars, o, u, n)
    decreases m
  {
    hide *;
    if m > n {
      UnrollStops(mt, c, w, chars, o, u, n, m - 1);
      UnrollEnded(mt, c, w, chars, o, u, m - 1);
    }
  }

  lemma UnrollEnded(mt: Math, c: Config, w: Weights<real>, chars: seq<char>, o: GenerateOptions, u: nat -> real, n: nat)
    requires Generable(mt, c, w, chars, o) && n < c.blockSize
    requires Unroll(mt, c, w, chars, o, u, n).ended
    ensures Unroll(mt, c, w, chars, o, u, n + 1) == Unroll(mt, c, w, chars, o, u, n)
  {
  }

  /** Every layer's cache holds one key and one value per trace row, so
      the attention at position pos weighs the pos + 1 entries up to and
      including its own. */
  lemma {:induction false} UnrollCacheLength(mt: Math, c: Config, w: Weights<real>, chars: seq<char>, o: GenerateOptions,
                                             u: nat -> real, n: nat)
    requires Generable(mt, c, w, chars, o) && n <= c.blockSize
    ensures CachePerRow(c, Unroll(mt, c, w, chars, o, u, n))
    decreases n
  {
    hide *;
    if n > 0 {
      var g := Unroll(mt, c, w, chars, o, u, n - 1);
      UnrollCacheLength(mt, c, w, chars, o, u, n - 1);
      if g.ended {
        UnrollEnded(mt, c, w, chars, o, u, n - 1);
      } else {
        UnrollNext(mt, c, w, chars, o, u, n - 1);
        IterationCacheLength(mt, c, w, chars, o, u, g, n - 1);
      }
    } else {
      UnrollZero(mt, c, w, chars, o, u);
      EmptyCachePerRow(c);
    }
  }

  lemma EmptyCachePerRow(c: Config)
    ensures CachePerRow(c, Gen([], EmptyCaches(c), EmptyCaches(c), [], false))
  {
  }

  /** Each layer that runs holds one key and one value per trace row. */
  predicate CachePerRow(c: Config, g: Gen) {
    && |g.keys| >= LayerCount(c) && |g.values| >= LayerCount(c)
    && forall li | 0 <= li < LayerCount(c) :: |g.keys[li]| == |g.steps| && |g.values[li]| == |g.steps|
  }

  /** One iteration appends one trace row and one entry to each cache. */
  lemma IterationCacheLength(mt: Math, c: Config, w: Weights<real>, chars: seq<char>, o: GenerateOptions,
                             u: nat -> real, g: Gen, pos: nat)
    requires Generable(mt, c, w, chars, o) && pos < c.blockSize
    requires CachesFit(c, g.keys, g.values) && IdsIn(g.ids, |chars|)
    requires CachePerRow(c, g)
    ensures CachePerRow(c, Iteration(mt, c, w, chars, o, u, g, pos))
  {
    hide Forward, ToProbVector, Iteration, Record, DrawOf, Lawful, Shaped, CachesFit, Generable, TokenLabel;
    GenerableFacts(mt, c, w, chars, o);
    var bos := |chars|;
    var s := Forward(mt, c, w, LastToken(g.ids, bos), pos, g.keys, g.values);
    var pv := ToProbVector(mt, s.logits, o, bos, |g.ids| < o.minLen);
    var d := DrawOf(pv.probs, u(pos), bos);
    IterationIs(mt, c, w, chars, o, u, g, pos);
    RecordFields(chars, g, pos, s, pv, d);
  }

  /** The trace rows agree with the chosen ids: row i is at position i,
      uses draw u(i), sees the text chosen before it as context, and shows
      the rune chosen at i, or <END> on the row that stopped the loop. */
  ghost predicate Chronicle(g: Gen, chars: seq<char>, u: nat -> real)
    requires IdsIn(g.ids, |chars|)
  {
    forall i | 0 <= i < |g.steps| ::
      && g.steps[i].position == i && g.steps[i].randomU == u(i)
      && i <= |g.ids| && g.steps[i].context == Text(g.ids, chars)[..i]
      && g.steps[i].chosenChar == if i < |g.ids| then [chars[g.ids[i]]] else EndLabel
  }

  /** Every loop state keeps its trace in step with its text. */
  lemma {:induction false} UnrollChronicle(mt: Math, c: Config, w: Weights<real>, chars: seq<char>, o: GenerateOptions,
                                           u: nat -> real, n: nat)
    requires Generable(mt, c, w, chars, o) && n <= c.blockSize
    ensures Chronicle(Unroll(mt, c, w, chars, o, u, n), chars, u)
    decreases n
  {
    hide *;
    if n > 0 {
      var g := Unroll(mt, c, w, chars, o, u, n - 1);
      UnrollChronicle(mt, c, w, chars, o, u, n - 1);
      if g.ended {
        UnrollEnded(mt, c, w, chars, o, u, n - 1);
      } else {
        UnrollNext(mt, c, w, chars, o, u, n - 1);
        IterationChronicle(mt, c, w, chars, o, u, g, n - 1);
      }
    } else {
      UnrollZero(mt, c, w, chars, o, u);
      NothingChronicled(Unroll(mt, c, w, chars, o, u, 0), chars, u);
    }
  }

  lemma NothingChronicled(g: Gen, chars: seq<char>, u: nat -> real)
    requires IdsIn(g.ids, |chars|) && g.steps == []
    ensures Chronicle(g, chars, u)
  {
  }

  lemma IterationChronicle(mt: Math, c: Config, w: Weights<real>, chars: seq<char>, o: GenerateOptions,
                         u: nat -> real, g: Gen, pos: nat)
    requires Generable(mt, c, w, chars, o) && pos < c.blockSize
    requires CachesFit(c, g.keys, g.values) && IdsIn(g.ids, |chars|)
    requires !g.ended && |g.steps| == |g.ids| == pos && Chronicle(g, chars, u)
    ensures Chronicle(Iteration(mt, c, w, chars, o, u, g, pos), chars, u)
  {
    hide Forward, ToProbVector, Iteration, Record, DrawOf, Lawful, Shaped, CachesFit, Generable, TokenLabel;
    GenerableFacts(mt, c, w, chars, o);
    var bos := |chars|;
    var s := Forward(mt, c, w, LastToken(g.ids, bos), pos, g.keys, g.values);
    var pv := ToProbVector(mt, s.logits, o, bos, |g.ids| < o.minLen);
    var d := DrawOf(pv.probs, u(pos), bos);
    IterationIs(mt, c, w, chars, o, u, g, pos);
    RecordFields(chars, g, pos, s, pv, d);
    var g' := Iteration(mt, c, w, chars, o, u, g, pos);
    var text := Text(g.ids, chars);
    if d.chosen != bos {
      TextSnoc(g.ids, d.chosen, chars);
    }
    EndShown(d.chosen, bos, chars);
    ChronicleStep(g, g', chars, u, text, Text(g'.ids, chars));
  }

  /** TokenLabel shows <END> for the control token and the rune otherwise. */
  lemma EndShown(id: int, bos: int, chars: seq<char>)
    requires id == bos || 0 <= id < |chars|
    ensures TokenLabel(id, bos, chars) == if id == bos then EndLabel else [chars[id]]
  {
  }

  /** Appending one row (and maybe one rune) keeps the chronicle. */
  lemma ChronicleStep(g: Gen, g': Gen, chars: seq<char>, u: nat -> real, text: string, text': string)
    requires IdsIn(g.ids, |chars|) && IdsIn(g'.ids, |chars|) && Chronicle(g, chars, u)
    requires text == Text(g.ids, chars) && text' == Text(g'.ids, chars)
    requires |g.steps| == |g.ids| && |g'.steps| == |g.steps| + 1 && g'.steps[..|g.steps|] == g.steps
    requires g'.ids == g.ids || (|g'.ids| == |g.ids| + 1 && text' == text + [chars[g'.ids[|g.ids|]]])
    requires g'.ids == g.ids || g'.ids[..|g.ids|] == g.ids
    requires var n := |g.steps|;
      && g'.steps[n].position == n && g'.steps[n].randomU == u(n) && g'.steps[n].context == text
      && g'.steps[n].chosenChar == if n < |g'.ids| then [chars[g'.ids[n]]] else EndLabel
    ensures Chronicle(g', chars, u)
  {
    var n := |g.steps|;
    assert text'[..n] == text;
    forall i | 0 <= i < |g'.steps|
      ensures g'.steps[i].position == i && g'.steps[i].randomU == u(i)
      ensures i <= |g'.ids| && g'.steps[i].context == text'[..i]
      ensures g'.steps[i].chosenChar == if i < |g'.ids| then [chars[g'.ids[i]]] else EndLabel
    {
      if i < n {
        assert g'.steps[i] == g.steps[i];
        assert text[..i] == text'[..i];
        assert g'.ids[i] == g.ids[i];
      }
    }
  }

  lemma ChronicleRows(g: Gen, chars: seq<char>, u: nat -> real)
    requires IdsIn(g.ids, |chars|) && Chronicle(g, chars, u)
    ensures forall i | 0 <= i < |g.steps| ::
      g.steps[i].position == i && g.steps[i].randomU == u(i) && g.steps[i].context == Text(g.ids, chars)[..i]
  {
  }

  /** The stop is visible in the trace: the loop ended on <END> exactly
      when its last row shows <END>. */
  lemma EndedIffEndShown(g: Gen, chars: seq<char>, u: nat -> real)
    requires IdsIn(g.ids, |chars|) && Chronicle(g, chars, u)
    requires |g.steps| == |g.ids| + (if g.ended then 1 else 0)
    ensures g.ended <==> |g.steps| > 0 && g.steps[|g.steps| - 1].chosenChar == EndLabel
  {
  }

  /** With at least one rune and every draw in [0, 1), the loop never
      stops before the text has the minimum length: <END> is suppressed and
      the draw always lands on a token of positive probability. */
  lemma {:induction false} EndNotBeforeMinLen(mt: Math, c: Config, w: Weights<real>, chars: seq<char>, o: GenerateOptions,
                                              u: nat -> real, n: nat)
    requires Generable(mt, c, w, chars, o) && n <= c.blockSize && |chars| > 0
    requires forall i :: 0.0 <= u(i) < 1.0
    ensures Unroll(mt, c, w, chars, o, u, n).ended ==> |Unroll(mt, c, w, chars, o, u, n).ids| >= o.minLen
    decreases n
  {
    hide *;
    if n > 0 {
      var g := Unroll(mt, c, w, chars, o, u, n - 1);
      EndNotBeforeMinLen(mt, c, w, chars, o, u, n - 1);
      if !g.ended && |g.ids| < o.minLen {
        var bos := |chars|;
        GenerableFacts(mt, c, w, chars, o);
        LastTokenFacts(g.ids, 0, bos);
        UnrollNext(mt, c, w, chars, o, u, n - 1);
        IterationIs(mt, c, w, chars, o, u, g, n - 1);
        var s := Forward(mt, c, w, LastToken(g.ids, bos), n - 1, g.keys, g.values);
        var pv := ToProbVector(mt, s.logits, o, bos, true);
        EndSuppressed(mt, s.logits, o, bos);
        ProbsDistribution(mt, s.logits, o, bos, true);
        DistributionAlwaysCrosses(pv.probs, u(n - 1));
        var d := DrawOf(pv.probs, u(n - 1), bos);
        DrawOfCrossing(pv.probs, u(n - 1), bos);
        CrossingPositive(pv.probs, u(n - 1), d.chosen);
        RecordFields(chars, g, n - 1, s, pv, d);
      } else if g.ended {
        UnrollEnded(mt, c, w, chars, o, u, n - 1);
      } else {
        UnrollNext(mt, c, w, chars, o, u, n - 1);
      }
    }
  }

  /** When a crossing exists the draw is one. */
  lemma DrawOfCrossing(probs: seq<real>, u: real, fallback: int)
    requires exists k :: FirstCrossing(probs, u, k)
    ensures FirstCrossing(probs, u, DrawOf(probs, u, fallback).chosen)
  {
  }

  /** A crossing reached from a draw that lies in its interval has
      positive probability. */
  lemma CrossingPositive(probs: seq<real>, u: real, k: int)
    requires FirstCrossing(probs, u, k) && PrefixSum(probs, k) <= u
    ensures probs[k] > 0.0
  {
    PrefixSumStep(probs, k);
  }

  lemma ReadyGenerable(mt: Math, md: Model, opts: GenerateOptions)
    requires Ready(mt, md)
    ensures Generable(mt, md.config, Values(md), md.chars, SamplingConfig(opts, md.vocabSize))
    ensures ModelInv(md) && md.bos == |md.chars| && md.config.blockSize >= 0
  {
    InvShaped(md);
  }

  /** The final state of either loop on model `md` with options `opts`. */
  ghost function Generated(mt: Math, md: Model, opts: GenerateOptions, u: nat -> real): Gen
    requires Ready(mt, md)
  {
    ReadyGenerable(mt, md, opts);
    Unroll(mt, md.config, Values(md), md.chars, SamplingConfig(opts, md.vocabSize), u, md.config.blockSize)
  }

  lemma GeneratedIs(mt: Math, md: Model, opts: GenerateOptions, u: nat -> real)
    requires Ready(mt, md)
    ensures md.config.blockSize >= 0 && Generable(mt, md.config, Values(md), md.chars, SamplingConfig(opts, md.vocabSize))
      && Generated(mt, md, opts, u) == Unroll(mt, md.config, Values(md), md.chars, SamplingConfig(opts, md.vocabSize), u, md.config.blockSize)
  {
    ReadyGenerable(mt, md, opts);
  }

  /** GenerateSample: the text of the ids drawn until <END> or the block
      size, never longer than the block size and made of the model's runes
      only. */
  method GenerateSample(mt: Math, md: Model, opts: GenerateOptions, u: nat -> real) returns (text: string)
    requires Ready(mt, md)
    ensures text == Text(Generated(mt, md, opts, u).ids, md.chars)
    ensures |text| <= md.config.blockSize
    ensures forall i | 0 <= i < |text| :: text[i] in md.chars
  {
    hide *;
    ReadyGenerable(mt, md, opts);
    var o := SamplingConfig(opts, md.vocabSize);
    var c, w, chars, bos := md.config, Values(md), md.chars, md.bos;
    GenerableFacts(mt, c, w, chars, o);
    LastTokenFacts([], 0, bos);
    var token := bos;
    var sample: string := [];
    var keys, values := EmptyCaches(c), EmptyCaches(c);
    UnrollZero(mt, c, w, chars, o, u);
    ghost var g := Gen([], keys, values, [], false);
    var pos := 0;
    while pos < c.blockSize
      invariant 0 <= pos <= c.blockSize
      invariant g == Unroll(mt, c, w, chars, o, u, pos) && !g.ended
      invariant token == LastToken(g.ids, bos) && keys == g.keys && values == g.values
      invariant sample == Text(g.ids, chars)
    {
      LastTokenFacts(g.ids, 0, bos);
      var s := Forward(mt, c, w, token, pos, keys, values);
      var pv := ToProbVector(mt, s.logits, o, bos, |sample| < o.minLen);
      var d := SampleFromProbVector(pv.probs, bos, u(pos));
      UnrollNext(mt, c, w, chars, o, u, pos);
      IterationIs(mt, c, w, chars, o, u, g, pos);
      RecordFields(chars, g, pos, s, pv, d);
      ghost var g' := Record(chars, g, pos, s, pv, d);
      if d.chosen == bos {
        UnrollStops(mt, c, w, chars, o, u, pos + 1, c.blockSize);
        break;
      }
      TextSnoc(g.ids, d.chosen, chars);
      LastTokenFacts(g.ids, d.chosen, bos);
      sample := sample + [chars[d.chosen]];
      token := d.chosen;
      keys, values := s.keys, s.values;
      g := g';
      pos := pos + 1;
    }
    GeneratedIs(mt, md, opts, u);
    text := sample;
  }

  /** GenerateSampleWithTrace: the same text as GenerateSample for the same
      draws, one trace row per position run, and the stop reason naming
      <END> exactly when the last row chose it. */
  method GenerateSampleWithTrace(mt: Math, md: Model, opts: GenerateOptions, u: nat -> real) returns (r: TraceResponse)
    requires Ready(mt, md)
    ensures r.text == Text(Generated(mt, md, opts, u).ids, md.chars)
    ensures r.steps == Generated(mt, md, opts, u).steps
    ensures r.stopReason == (if Generated(mt, md, opts, u).ended then EndReason else LimitReason)
    ensures |r.steps| <= md.config.blockSize
    ensures r.stopReason == LimitReason ==> |r.steps| == md.config.blockSize
    ensures r.stopReason == EndReason <==> |r.steps| > 0 && r.steps[|r.steps| - 1].chosenChar == EndLabel
    ensures forall i | 0 <= i < |r.steps| ::
      r.steps[i].position == i && r.steps[i].randomU == u(i) && r.steps[i].context == r.text[..i]
  {
    hide *;
    ReadyGenerable(mt, md, opts);
    var o := SamplingConfig(opts, md.vocabSize);
    var c, w, chars, bos := md.config, Values(md), md.chars, md.bos;
    GenerableFacts(mt, c, w, chars, o);
    UnrollZero(mt, c, w, chars, o, u);
    var g := Gen([], EmptyCaches(c), EmptyCaches(c), [], false);
    var stopReason := LimitReason;
    var pos := 0;
    while pos < c.blockSize
      invariant 0 <= pos <= c.blockSize
      invariant g == Unroll(mt, c, w, chars, o, u, pos) && !g.ended
    {
      LastTokenFacts(g.ids, 0, bos);
      var s := Forward(mt, c, w, LastToken(g.ids, bos), pos, g.keys, g.values);
      var pv := ToProbVector(mt, s.logits, o, bos, |g.ids| < o.minLen);
      var d := SampleFromProbVector(pv.probs, bos, u(pos));
      UnrollNext(mt, c, w, chars, o, u, pos);
      IterationIs(mt, c, w, chars, o, u, g, pos);
      g := Record(chars, g, pos, s, pv, d);
      pos := pos + 1;
      if d.chosen == bos {
        stopReason := EndReason;
        UnrollStops(mt, c, w, chars, o, u, pos, c.blockSize);
        break;
      }
    }
    GeneratedIs(mt, md, opts, u);
    UnrollChronicle(mt, c, w, chars, o, u, c.blockSize);
    EndedIffEndShown(g, chars, u);
    ChronicleRows(g, chars, u);
    ReasonsDiffer();
    r := TraceResponse(Text(g.ids, chars), g.steps, stopReason);
  }

  lemma ReasonsDiffer()
    ensures EndReason != LimitReason
  {
    assert EndReason[0] != LimitReason[0];
  }
}
