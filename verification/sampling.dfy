/** Turning logits into a sampling distribution and drawing from it
    (inference_and_training.go): option clamping, token labels, temperature,
    top-k masking, <END> suppression with a uniform fallback, inverse-CDF
    selection, and the top-k candidate list of the trace. */
module Sampling {
  import opened Transcendental
  import opened Vectors
  import opened Layers
  import opened Ranking

  /** Temperature, top-k cut-off (0 = off) and the minimum length before
      <END> may be chosen. */
  datatype GenerateOptions = GenerateOptions(temperature: real, topK: int, minLen: int)

  const DefaultTemperature: real := 0.7

  predicate ValidOptions(o: GenerateOptions, vocabSize: int) {
    o.temperature > 0.0 && 0 <= o.topK <= vocabSize && o.minLen >= 0
  }

  /** samplingConfig: a non-positive temperature becomes 0.7, top-k is
      clamped into [0, vocabSize], a negative minimum length becomes 0. */
  function SamplingConfig(o: GenerateOptions, vocabSize: int): (r: GenerateOptions)
    ensures r.temperature > 0.0 && r.minLen >= 0
    ensures vocabSize >= 0 ==> ValidOptions(r, vocabSize)
    ensures ValidOptions(o, vocabSize) ==> r == o
    ensures o.temperature > 0.0 ==> r.temperature == o.temperature
    ensures o.temperature <= 0.0 ==> r.temperature == DefaultTemperature
  {
    var t := if o.temperature <= 0.0 then DefaultTemperature else o.temperature;
    var k := if o.topK < 0 then 0 else o.topK;
    var k' := if k > vocabSize then vocabSize else k;
    var m := if o.minLen < 0 then 0 else o.minLen;
    GenerateOptions(t, k', m)
  }

  /** Clamping twice is clamping once, whatever the vocabulary size. */
  lemma SamplingConfigIdempotent(o: GenerateOptions, vocabSize: int)
    ensures SamplingConfig(SamplingConfig(o, vocabSize), vocabSize) == SamplingConfig(o, vocabSize)
  {
  }

  /** The single control token, shown as <END>. */
  const EndLabel: string := "<END>"

  /** tokenLabel: "<END>" for the control token, otherwise the rune. */
  function TokenLabel(id: int, bos: int, chars: seq<char>): (r: string)
    requires id == bos || 0 <= id < |chars|
    ensures r == EndLabel <==> id == bos
    ensures id != bos ==> r == [chars[id]]
  {
    if id == bos then EndLabel else [chars[id]]
  }

  /** Every entry kept among the k most probable of `p`, the rest set to 0. */
  function Mask(p: seq<real>, k: nat): (r: seq<real>)
    requires k <= |p|
    ensures |r| == |p|
    ensures forall i | 0 <= i < |p| :: r[i] == if i in Ranked(p)[..k] then p[i] else 0.0
  {
    var top := Ranked(p)[..k];
    seq(|p|, i requires 0 <= i < |p| => if i in top then p[i] else 0.0)
  }

  /** The fallback distribution: uniform, or uniform over every token but
      the control token when it is suppressed and there are others. */
  function Fallback(n: nat, bos: int, suppressEnd: bool): (r: seq<real>)
    ensures |r| == n
  {
    if suppressEnd && n > 1 then seq(n, i requires 0 <= i < n => if i == bos then 0.0 else 1.0 / (n - 1) as real)
    else seq(n, i requires 0 <= i < n => 1.0 / n as real)
  }

  /** Temperature-scaled logits and the sampling distribution. */
  datatype ProbVector = ProbVector(raw: seq<real>, probs: seq<real>)

  function Scaled(logits: seq<real>, temperature: real): (raw: seq<real>)
    requires temperature != 0.0
    ensures |raw| == |logits|
    ensures forall i | 0 <= i < |logits| :: raw[i] * temperature == logits[i]
  {
    seq(|logits|, i requires 0 <= i < |logits| => logits[i] / temperature)
  }

  /** Softmax of the scaled logits (normalised only when the total is
      positive). */
  function Distribution(mt: Math, raw: seq<real>): (p: seq<real>)
    ensures |p| == |raw|
  {
    var exps := Shifted(mt, raw, MaxLogit(raw));
    if Sum(exps) > 0.0 then Normalize(exps, Sum(exps)) else exps
  }

  /** After top-k masking. */
  function TopKFiltered(p: seq<real>, topK: int): (r: seq<real>)
    ensures |r| == |p|
  {
    if 0 < topK < |p| then Mask(p, topK) else p
  }

  /** After <END> suppression. */
  function Suppressed(p: seq<real>, bos: int, suppressEnd: bool): (r: seq<real>)
    ensures |r| == |p|
  {
    if suppressEnd && 0 <= bos < |p| then p[bos := 0.0] else p
  }

  /** The probabilities left after top-k masking and <END> suppression,
      before renormalisation. */
  function Kept(mt: Math, raw: seq<real>, topK: int, bos: int, suppressEnd: bool): (p: seq<real>)
    ensures |p| == |raw|
  {
    Suppressed(TopKFiltered(Distribution(mt, raw), topK), bos, suppressEnd)
  }

  /** Divide by the total when it is positive, otherwise fall back. */
  function Renormalize(kept: seq<real>, bos: int, suppressEnd: bool): (p: seq<real>)
    ensures |p| == |kept|
  {
    var total := Sum(kept);
    if total > 0.0 then Normalize(kept, total) else Fallback(|kept|, bos, suppressEnd)
  }

  /** The final distribution over the scaled logits: keep, then
      renormalise. */
  function Probs(mt: Math, raw: seq<real>, topK: int, bos: int, suppressEnd: bool): (p: seq<real>)
    ensures |p| == |raw|
  {
    Renormalize(Kept(mt, raw, topK, bos, suppressEnd), bos, suppressEnd)
  }

  /** toProbVector: the temperature-scaled logits and the final
      distribution. */
  function ToProbVector(mt: Math, logits: seq<real>, o: GenerateOptions, bos: int, suppressEnd: bool): (r: ProbVector)
    requires o.temperature != 0.0
    ensures |r.raw| == |logits| && |r.probs| == |logits|
  {
    var raw := Scaled(logits, o.temperature);
    ProbVector(raw, Probs(mt, raw, o.topK, bos, suppressEnd))
  }

  /** Multiplying the scaled logits back by the temperature recovers the
      logits. */
  lemma RawTimesTemperature(mt: Math, logits: seq<real>, o: GenerateOptions, bos: int, suppressEnd: bool)
    requires o.temperature != 0.0
    ensures forall i | 0 <= i < |logits| :: ToProbVector(mt, logits, o, bos, suppressEnd).raw[i] * o.temperature == logits[i]
  {
    hide Scaled, Probs;
    assert ToProbVector(mt, logits, o, bos, suppressEnd).raw == Scaled(logits, o.temperature);
  }

  /** Before masking every token has positive probability. */
  lemma DistributionPositive(mt: Math, raw: seq<real>)
    requires Lawful(mt)
    ensures forall i | 0 <= i < |raw| :: Distribution(mt, raw)[i] > 0.0
  {
    var exps := Shifted(mt, raw, MaxLogit(raw));
    if |raw| > 0 {
      SumPositive(exps);
      forall i | 0 <= i < |raw|
        ensures Distribution(mt, raw)[i] > 0.0
      {
        assert exps[i] / Sum(exps) > 0.0;
      }
    }
  }

  lemma KeptNonNegative(mt: Math, raw: seq<real>, topK: int, bos: int, suppressEnd: bool)
    requires Lawful(mt)
    ensures NonNegative(Kept(mt, raw, topK, bos, suppressEnd))
  {
    DistributionPositive(mt, raw);
  }

  /** The uniform fallback is reached only when <END> is suppressed, in
      range, and was the only token left after top-k masking. */
  lemma FallbackOnlyWhenEndWasAlone(mt: Math, raw: seq<real>, topK: int, bos: int, suppressEnd: bool)
    requires Lawful(mt) && |raw| > 0
    requires Sum(Kept(mt, raw, topK, bos, suppressEnd)) <= 0.0
    ensures suppressEnd && 0 <= bos < |raw|
    ensures forall i | 0 <= i < |raw| && i != bos :: TopKFiltered(Distribution(mt, raw), topK)[i] == 0.0
  {
    var p1 := Distribution(mt, raw);
    var p2 := TopKFiltered(p1, topK);
    var p3 := Kept(mt, raw, topK, bos, suppressEnd);
    DistributionPositive(mt, raw);
    KeptNonNegative(mt, raw, topK, bos, suppressEnd);
    SumNonNegative(p3);
    forall i | 0 <= i < |raw|
      ensures p3[i] == 0.0
    {
      SumZero(p3, i);
    }
    var top := if 0 < topK < |p1| then Ranked(p1)[0] else 0;
    assert p2[top] > 0.0 by {
      if 0 < topK < |p1| {
        RankedFacts(p1);
        assert top in Ranked(p1)[..topK];
      }
    }
    assert p3[top] == 0.0;
    forall i | 0 <= i < |raw| && i != bos
      ensures p2[i] == 0.0
    {
      assert p3[i] == p2[i];
    }
  }

  /** Dividing non-negative weights by their positive total gives a
      distribution. */
  lemma NormalizeDistribution(kept: seq<real>)
    requires NonNegative(kept) && Sum(kept) > 0.0
    ensures NonNegative(Normalize(kept, Sum(kept))) && Sum(Normalize(kept, Sum(kept))) == 1.0
  {
    var total := Sum(kept);
    var p := Normalize(kept, total);
    assert Sum(p) == 1.0 by {
      SumNormalize(kept, total);
      SelfQuotient(total);
    }
    forall i | 0 <= i < |kept|
      ensures p[i] >= 0.0
    {
      QuotientNonNegative(kept[i], total);
    }
  }

  lemma SelfQuotient(t: real)
    requires t > 0.0
    ensures t / t == 1.0
  {
  }

  lemma QuotientNonNegative(x: real, t: real)
    requires x >= 0.0 && t > 0.0
    ensures x / t >= 0.0
  {
  }

  /** The fallback is a distribution, provided a suppressed control token
      lies in range. */
  lemma FallbackDistribution(n: nat, bos: int, suppressEnd: bool)
    requires n > 0
    requires suppressEnd && n > 1 ==> 0 <= bos < n
    ensures NonNegative(Fallback(n, bos, suppressEnd)) && Sum(Fallback(n, bos, suppressEnd)) == 1.0
  {
    var f := Fallback(n, bos, suppressEnd);
    if suppressEnd && n > 1 {
      var c := 1.0 / (n - 1) as real;
      SumAllBut(f, bos, c);
      assert (n - 1) as real * c == 1.0;
    } else {
      var c := 1.0 / n as real;
      SumConstant(f, c);
      assert n as real * c == 1.0;
    }
  }

  /** Renormalising non-negative weights gives a distribution. */
  lemma RenormalizeDistribution(kept: seq<real>, bos: int, suppressEnd: bool)
    requires NonNegative(kept) && |kept| > 0
    requires Sum(kept) <= 0.0 && suppressEnd && |kept| > 1 ==> 0 <= bos < |kept|
    ensures NonNegative(Renormalize(kept, bos, suppressEnd))
    ensures Sum(Renormalize(kept, bos, suppressEnd)) == 1.0
  {
    if Sum(kept) > 0.0 {
      NormalizeDistribution(kept);
    } else {
      FallbackDistribution(|kept|, bos, suppressEnd);
    }
  }

  /** Over the reals the result is a distribution: entries are
      non-negative and sum to 1. */
  lemma ProbsDistribution(mt: Math, logits: seq<real>, o: GenerateOptions, bos: int, suppressEnd: bool)
    requires Lawful(mt) && o.temperature != 0.0 && |logits| > 0
    ensures NonNegative(ToProbVector(mt, logits, o, bos, suppressEnd).probs)
    ensures Sum(ToProbVector(mt, logits, o, bos, suppressEnd).probs) == 1.0
  {
    var raw := Scaled(logits, o.temperature);
    var kept := Kept(mt, raw, o.topK, bos, suppressEnd);
    KeptNonNegative(mt, raw, o.topK, bos, suppressEnd);
    if Sum(kept) <= 0.0 {
      FallbackOnlyWhenEndWasAlone(mt, raw, o.topK, bos, suppressEnd);
    }
    RenormalizeDistribution(kept, bos, suppressEnd);
  }

  /** With suppression on and more than one token, <END> gets probability
      0, also in the fallback. */
  lemma EndSuppressed(mt: Math, logits: seq<real>, o: GenerateOptions, bos: int)
    requires o.temperature != 0.0 && 0 <= bos < |logits| && |logits| > 1
    ensures ToProbVector(mt, logits, o, bos, true).probs[bos] == 0.0
  {
    hide Scaled, Distribution, TopKFiltered, Sum;
    var kept := Kept(mt, Scaled(logits, o.temperature), o.topK, bos, true);
    assert kept[bos] == 0.0;
  }

  /** Without the fallback every non-zero probability belongs to one of the
      top-k ranked tokens, so at most top-k entries are non-zero. */
  lemma AtMostTopK(mt: Math, logits: seq<real>, o: GenerateOptions, bos: int, suppressEnd: bool, i: nat)
    requires o.temperature != 0.0 && 0 < o.topK < |logits| && i < |logits|
    requires Sum(Kept(mt, Scaled(logits, o.temperature), o.topK, bos, suppressEnd)) > 0.0
    requires ToProbVector(mt, logits, o, bos, suppressEnd).probs[i] != 0.0
    ensures i in Ranked(Distribution(mt, Scaled(logits, o.temperature)))[..o.topK]
  {
  }

  /** The result of sampleFromProbVector: the chosen id, the draw, the
      cumulative interval around it and the chosen probability. */
  datatype Draw = Draw(chosen: int, u: real, cumBefore: real, cumAfter: real, chosenProb: real)

  /** Index k is where the running total first exceeds u. */
  predicate FirstCrossing(probs: seq<real>, u: real, k: int) {
    && 0 <= k < |probs| && u < PrefixSum(probs, k + 1)
    && forall j | 0 < j <= k :: u >= PrefixSum(probs, j)
  }

  /** The draw sampleFromProbVector makes: at the first crossing if there
      is one, otherwise the fallback with the whole total as its interval. */
  ghost function DrawOf(probs: seq<real>, u: real, fallback: int): (d: Draw)
    ensures d.chosen == fallback || 0 <= d.chosen < |probs|
    ensures d.u == u
  {
    if exists k :: FirstCrossing(probs, u, k) then
      var k :| FirstCrossing(probs, u, k);
      Draw(k, u, PrefixSum(probs, k), PrefixSum(probs, k + 1), probs[k])
    else Draw(fallback, u, 0.0, Sum(probs), 0.0)
  }

  /** sampleFromProbVector with the uniform draw `u` given. */
  method SampleFromProbVector(probs: seq<real>, fallback: int, u: real) returns (d: Draw)
    ensures d == DrawOf(probs, u, fallback)
    ensures d.u == u
    ensures (exists k :: FirstCrossing(probs, u, k)) ==>
      && FirstCrossing(probs, u, d.chosen)
      && d.chosenProb == probs[d.chosen]
      && d.cumBefore == PrefixSum(probs, d.chosen) && d.cumAfter == PrefixSum(probs, d.chosen + 1)
      && d.cumAfter - d.cumBefore == d.chosenProb
    ensures (forall k :: !FirstCrossing(probs, u, k)) ==>
      d.chosen == fallback && d.chosenProb == 0.0 && d.cumBefore == 0.0 && d.cumAfter == Sum(probs)
  {
    var cumulative := 0.0;
    var idx := 0;
    while idx < |probs|
      invariant 0 <= idx <= |probs|
      invariant cumulative == PrefixSum(probs, idx)
      invariant forall j | 0 < j <= idx :: u >= PrefixSum(probs, j)
    {
      var prev := cumulative;
      PrefixSumStep(probs, idx);
      cumulative := cumulative + probs[idx];
      if u < cumulative {
        assert FirstCrossing(probs, u, idx);
        FirstCrossingUnique(probs, u, idx);
        return Draw(idx, u, prev, cumulative, probs[idx]);
      }
      idx := idx + 1;
    }
    assert probs[..|probs|] == probs;
    forall k
      ensures !FirstCrossing(probs, u, k)
    {
    }
    return Draw(fallback, u, 0.0, cumulative, 0.0);
  }

  lemma FirstCrossingUnique(probs: seq<real>, u: real, k: int)
    requires FirstCrossing(probs, u, k)
    ensures forall j :: FirstCrossing(probs, u, j) ==> j == k
  {
  }

  /** For a distribution (non-negative, summing to 1) and u in [0, 1) the
      fallback is never taken, and u lies in the chosen interval. */
  lemma DistributionAlwaysCrosses(probs: seq<real>, u: real)
    requires NonNegative(probs) && Sum(probs) == 1.0 && 0.0 <= u < 1.0
    ensures exists k :: FirstCrossing(probs, u, k)
    ensures forall k :: FirstCrossing(probs, u, k) ==> PrefixSum(probs, k) <= u
  {
    var n := |probs|;
    assert probs[..n] == probs;
    var k := FirstFrom(probs, u, 0, n - 1);
    assert FirstCrossing(probs, u, k);
    forall k | FirstCrossing(probs, u, k)
      ensures PrefixSum(probs, k) <= u
    {
      if k > 0 {
        assert u >= PrefixSum(probs, k);
      } else {
        assert probs[..0] == [];
      }
    }
  }

  /** The first crossing at or after `from`, given that none comes before
      `from` and the running total at `last` exceeds u. */
  function FirstFrom(probs: seq<real>, u: real, from: nat, last: nat): (k: nat)
    requires from <= last < |probs| && u < PrefixSum(probs, last + 1)
    requires forall j | 0 < j <= from :: u >= PrefixSum(probs, j)
    ensures FirstCrossing(probs, u, k)
    decreases last - from
  {
    if u < PrefixSum(probs, from + 1) then from else FirstFrom(probs, u, from + 1, last)
  }

  /** With probabilities [0, 1, 0] every draw in [0, 1) selects token 1. */
  lemma MiddleTokenExample(u: real)
    requires 0.0 <= u < 1.0
    ensures FirstCrossing([0.0, 1.0, 0.0], u, 1)
  {
    var p := [0.0, 1.0, 0.0];
    assert p[..1] == [0.0] && p[..2] == [0.0, 1.0];
    assert [0.0, 1.0][..1] == [0.0] && [0.0][..0] == [];
  }

  /** One row of the trace's top-k table. */
  datatype Candidate = Candidate(shown: string, tokenId: nat, logit: real, prob: real)

  /** `c` describes token c.tokenId: its label, logit and probability. */
  predicate Describes(c: Candidate, logits: seq<real>, probs: seq<real>, chars: seq<char>, bos: int) {
    && c.tokenId < |probs| && c.tokenId < |logits| && (c.tokenId == bos || c.tokenId < |chars|)
    && c.prob == probs[c.tokenId] && c.logit == logits[c.tokenId]
    && c.shown == TokenLabel(c.tokenId, bos, chars)
  }

  /** A token left out of the first k ranked is at most as probable as
      every token kept; when k covers the vocabulary nothing is left out. */
  lemma TopMostProbable(probs: seq<real>, k: nat, top: seq<nat>)
    requires top == if |Ranked(probs)| > k then Ranked(probs)[..k] else Ranked(probs)
    ensures |top| == if k < |probs| then k else |probs|
    ensures forall r | 0 <= r < |top| :: top[r] < |probs|
    ensures forall r, s | 0 <= r < s < |top| :: top[r] != top[s] && probs[top[r]] >= probs[top[s]]
    ensures forall i | 0 <= i < |probs| && (forall r | 0 <= r < |top| :: top[r] != i) ::
      forall r | 0 <= r < |top| :: probs[top[r]] >= probs[i]
  {
    RankedFacts(probs);
    forall i, r | 0 <= i < |probs| && (forall r' | 0 <= r' < |top| :: top[r'] != i) && 0 <= r < |top|
      ensures probs[top[r]] >= probs[i]
    {
      assert top[r] in top;
      assert i !in top;
      RankedSplit(probs, k, top[r], i);
    }
  }

  /** topKCandidates: the k most probable tokens, most probable first. */
  function TopKCandidates(logits: seq<real>, probs: seq<real>, chars: seq<char>, bos: int, k: nat): (out: seq<Candidate>)
    requires |logits| >= |probs|
    requires |probs| <= |chars| + 1 && (|probs| == |chars| + 1 ==> bos == |chars|)
    ensures |out| == if k < |probs| then k else |probs|
    ensures forall r | 0 <= r < |out| :: Describes(out[r], logits, probs, chars, bos)
    ensures forall r, s | 0 <= r < s < |out| :: out[r].tokenId != out[s].tokenId && out[r].prob >= out[s].prob
    ensures forall i | 0 <= i < |probs| && (forall r | 0 <= r < |out| :: out[r].tokenId != i) ::
      forall r | 0 <= r < |out| :: out[r].prob >= probs[i]
  {
    var order := Ranked(probs);
    var top := if |order| > k then order[..k] else order;
    TopMostProbable(probs, k, top);
    CandidatesOf(logits, probs, chars, bos, top)
  }

  /** One candidate row per listed token, in the listed order. */
  function CandidatesOf(logits: seq<real>, probs: seq<real>, chars: seq<char>, bos: int, top: seq<nat>): (out: seq<Candidate>)
    requires |logits| >= |probs|
    requires |probs| <= |chars| + 1 && (|probs| == |chars| + 1 ==> bos == |chars|)
    requires forall r | 0 <= r < |top| :: top[r] < |probs|
    ensures |out| == |top|
    ensures forall r | 0 <= r < |out| :: out[r].tokenId == top[r] && Describes(out[r], logits, probs, chars, bos)
  {
    seq(|top|, r requires 0 <= r < |top| =>
      Candidate(TokenLabel(top[r], bos, chars), top[r], logits[top[r]], probs[top[r]]))
  }
}
