/** The building blocks of the forward pass (model.go), on the values the
    autograd nodes carry: matrix-vector product, softmax and RMS
    normalisation. */
module Layers {
  import opened Transcendental
  import opened Vectors

  /** Go's math.MaxFloat64, (2 - 2^-52) * 2^1023, written out exactly. */
  const MaxFloat64: real := 179769313486231570814527423731704356798070567525844996598917476803157260780028538760589558632766878171540458953514382464234321326889464182768467546703537516986049910576551282076245490090389328944075868508455133942304583236903222948165808559332123348274797826204144723168738177180919299881250404026184124858368.0

  /** The constant RMSNorm adds to the mean square before taking the root. */
  const RmsEps: real := 0.00001

  predicate Rows(w: seq<seq<real>>, width: nat) {
    forall i | 0 <= i < |w| :: |w[i]| >= width
  }

  /** y = W x: one dot product per row of W over the first |x| columns. */
  function Linear(x: seq<real>, w: seq<seq<real>>): (out: seq<real>)
    requires Rows(w, |x|)
    ensures |out| == |w|
    ensures forall i | 0 <= i < |w| :: out[i] == Dot(w[i], x)
  {
    seq(|w|, i requires 0 <= i < |w| => Dot(w[i], x))
  }

  /** W (x + y) == W x + W y. */
  lemma LinearAdditive(w: seq<seq<real>>, x: seq<real>, y: seq<real>)
    requires |x| == |y| && Rows(w, |x|)
    ensures Linear(AddVec(x, y), w) == AddVec(Linear(x, w), Linear(y, w))
  {
    forall i | 0 <= i < |w|
      ensures Linear(AddVec(x, y), w)[i] == AddVec(Linear(x, w), Linear(y, w))[i]
    {
      DotAdditive(w[i], x, y);
    }
  }

  /** The running maximum Softmax computes, starting from -MaxFloat64. */
  function MaxLogit(s: seq<real>): (r: real)
    ensures r >= -MaxFloat64
    ensures forall i | 0 <= i < |s| :: s[i] <= r
    ensures r == -MaxFloat64 || exists i | 0 <= i < |s| :: s[i] == r
  {
    if |s| == 0 then -MaxFloat64
    else
      var r := MaxLogit(s[..|s| - 1]);
      assert forall i | 0 <= i < |s| - 1 :: s[..|s| - 1][i] == s[i];
      if s[|s| - 1] > r then s[|s| - 1] else r
  }

  /** exp(l - shift) for every logit l. */
  function Shifted(mt: Math, s: seq<real>, shift: real): (e: seq<real>)
    ensures |e| == |s|
  {
    seq(|s|, i requires 0 <= i < |s| => mt.exp(s[i] - shift))
  }

  /** Softmax: shifted exponentials, each multiplied by pow(total, -1). */
  function Softmax(mt: Math, logits: seq<real>): (probs: seq<real>)
    ensures |probs| == |logits|
  {
    var exps := Shifted(mt, logits, MaxLogit(logits));
    Scale(exps, mt.pow(Sum(exps), -1.0))
  }

  /** The result is a probability distribution: every entry is positive
      and the entries sum to 1. */
  lemma SoftmaxDistribution(mt: Math, logits: seq<real>)
    requires Lawful(mt) && |logits| > 0
    ensures forall i | 0 <= i < |logits| :: Softmax(mt, logits)[i] > 0.0
    ensures Sum(Softmax(mt, logits)) == 1.0
  {
    // Everything below follows from the callees' contracts.
    hide Softmax, Shifted, Sum, Scale, Lawful;
    var exps := Shifted(mt, logits, MaxLogit(logits));
    SoftmaxScales(mt, logits);
    ShiftedPositive(mt, logits, MaxLogit(logits));
    SumPositive(exps);
    var inv := mt.pow(Sum(exps), -1.0);
    Reciprocal(mt, Sum(exps));
    InversePositive(inv, Sum(exps));
    SumScale(exps, inv);
    ScalePositive(exps, inv);
  }

  lemma SoftmaxScales(mt: Math, logits: seq<real>)
    ensures var exps := Shifted(mt, logits, MaxLogit(logits));
            Softmax(mt, logits) == Scale(exps, mt.pow(Sum(exps), -1.0))
  {
  }

  lemma ShiftedPositive(mt: Math, s: seq<real>, shift: real)
    requires Lawful(mt)
    ensures forall i | 0 <= i < |s| :: Shifted(mt, s, shift)[i] > 0.0
  {
  }

  /** pow(t, -1) inverts t. */
  lemma Reciprocal(mt: Math, t: real)
    requires Lawful(mt) && t > 0.0
    ensures mt.pow(t, -1.0) * t == 1.0
  {
  }

  lemma ScalePositive(s: seq<real>, c: real)
    requires forall i | 0 <= i < |s| :: s[i] > 0.0
    requires c > 0.0
    ensures forall i | 0 <= i < |s| :: Scale(s, c)[i] > 0.0
  {
  }

  lemma InversePositive(a: real, b: real)
    requires a * b == 1.0 && b > 0.0
    ensures a > 0.0
  {
  }

  function Squares(x: seq<real>): (r: seq<real>)
    ensures |r| == |x| && NonNegative(r)
  {
    seq(|x|, i requires 0 <= i < |x| => x[i] * x[i])
  }

  /** Mean of the squares; 0 for the empty vector. */
  function MeanSquare(x: seq<real>): real {
    if |x| == 0 then 0.0 else Sum(Squares(x)) * (1.0 / |x| as real)
  }

  /** RMSNorm: every entry multiplied by pow(mean square + 1e-5, -0.5). */
  function RMSNorm(mt: Math, x: seq<real>): (out: seq<real>)
    ensures |out| == |x|
  {
    Scale(x, mt.pow(MeanSquare(x) + RmsEps, -0.5))
  }

  lemma SquaresScale(x: seq<real>, c: real)
    ensures Squares(Scale(x, c)) == Scale(Squares(x), c * c)
  {
    forall i | 0 <= i < |x|
      ensures Squares(Scale(x, c))[i] == Scale(Squares(x), c * c)[i]
    {
      assert (x[i] * c) * (x[i] * c) == (x[i] * x[i]) * (c * c);
    }
  }

  /** After normalisation the mean square is ms / (ms + 1e-5), where ms is
      the input's mean square: the output has (almost) unit RMS. */
  lemma RMSNormUnit(mt: Math, x: seq<real>)
    requires Lawful(mt) && |x| > 0
    ensures MeanSquare(RMSNorm(mt, x)) * (MeanSquare(x) + RmsEps) == MeanSquare(x)
  {
    // Everything below follows from the callees' contracts.
    hide MeanSquare, RMSNorm, Lawful, Sum, Squares, Scale;
    var ms := MeanSquare(x);
    var total := Sum(Squares(x));
    var k := 1.0 / |x| as real;
    MeanSquareOf(x);
    SumNonNegative(Squares(x));
    MeanSign(total, k);
    var s := mt.pow(ms + RmsEps, -0.5);
    InverseSquareRoot(mt, ms + RmsEps);
    var y := RMSNorm(mt, x);
    RMSNormScales(mt, x);
    SquaresScale(x, s);
    SumScale(Squares(x), s * s);
    MeanSquareOf(y);
    ScaledMean(MeanSquare(y), Sum(Squares(y)), total, s * s, k, ms, ms + RmsEps);
  }

  lemma MeanSquareOf(x: seq<real>)
    requires |x| > 0
    ensures MeanSquare(x) == Sum(Squares(x)) * (1.0 / |x| as real)
  {
  }

  lemma RMSNormScales(mt: Math, x: seq<real>)
    ensures RMSNorm(mt, x) == Scale(x, mt.pow(MeanSquare(x) + RmsEps, -0.5))
  {
  }

  /** pow(t, -0.5) squared inverts t. */
  lemma InverseSquareRoot(mt: Math, t: real)
    requires Lawful(mt) && t > 0.0
    ensures mt.pow(t, -0.5) * mt.pow(t, -0.5) * t == 1.0
  {
  }

  lemma ScaledMean(msy: real, sumy: real, total: real, ss: real, k: real, ms: real, t: real)
    requires msy == sumy * k && sumy == total * ss && ms == total * k && ss * t == 1.0
    ensures msy * t == ms
  {
    calc {
      msy * t;
      == total * ss * k * t;
      == (total * k) * (ss * t);
    }
  }
}
