/** One Adam optimisation step over every parameter (Model.Update in
    model.go): moment updates, bias correction, the parameter move, and the
    gradient reset. */
module Adam {
  import opened Transcendental
  import opened Autograd
  import opened Params

  const Beta1: real := 0.85
  const Beta2: real := 0.99
  const AdamEps: real := 0.00000001

  /** The new first and second moments of one parameter. */
  function FirstMoment(m: real, grad: real): real {
    Beta1 * m + (1.0 - Beta1) * grad
  }

  function SecondMoment(v: real, grad: real): (r: real)
    ensures v >= 0.0 ==> r >= 0.0
  {
    Beta2 * v + (1.0 - Beta2) * grad * grad
  }

  /** Bias correction 1 - beta^t at step t >= 1 is positive. */
  lemma CorrectionPositive(mt: Math, beta: real, t: int)
    requires Lawful(mt) && 0.0 < beta < 1.0 && t >= 1
    ensures 1.0 - mt.pow(beta, t as real) > 0.0
  {
  }

  /** x / c keeps the sign of x when c is positive. */
  lemma QuotientSign(x: real, c: real)
    requires c > 0.0
    ensures x > 0.0 ==> x / c > 0.0
    ensures x < 0.0 ==> x / c < 0.0
    ensures x == 0.0 ==> x / c == 0.0
  {
  }

  /** A moment divided by its bias correction 1 - beta^t. */
  function Corrected(mt: Math, x: real, beta: real, t: int): (r: real)
    requires Lawful(mt) && 0.0 < beta < 1.0 && t >= 1
    ensures x > 0.0 ==> r > 0.0
    ensures x < 0.0 ==> r < 0.0
    ensures x == 0.0 ==> r == 0.0
  {
    CorrectionPositive(mt, beta, t);
    QuotientSign(x, 1.0 - mt.pow(beta, t as real));
    x / (1.0 - mt.pow(beta, t as real))
  }

  /** sqrt(vHat) + eps, positive whenever the second moment is non-negative. */
  function Denominator(mt: Math, v: real, t: int): (d: real)
    requires Lawful(mt) && t >= 1 && v >= 0.0
    ensures d > 0.0
  {
    var vHat := Corrected(mt, v, Beta2, t);
    assert mt.sqrt(vHat) >= 0.0;
    mt.sqrt(vHat) + AdamEps
  }

  /** How far the parameter moves: lr * mHat / (sqrt(vHat) + eps). */
  function Move(mt: Math, lr: real, t: int, m: real, v: real): real
    requires Lawful(mt) && t >= 1 && v >= 0.0
  {
    lr * Corrected(mt, m, Beta1, t) / Denominator(mt, v, t)
  }

  /** The step moves against the new first moment: with a positive learning
      rate a positive moment gives a positive move (the parameter goes down),
      a negative one a negative move, and a zero moment no move at all. */
  lemma MoveOpposesMoment(mt: Math, lr: real, t: int, m: real, v: real)
    requires Lawful(mt) && t >= 1 && v >= 0.0 && lr > 0.0
    ensures m > 0.0 ==> Move(mt, lr, t, m, v) > 0.0
    ensures m < 0.0 ==> Move(mt, lr, t, m, v) < 0.0
    ensures m == 0.0 ==> Move(mt, lr, t, m, v) == 0.0
  {
    var mHat := Corrected(mt, m, Beta1, t);
    var d := Denominator(mt, v, t);
    ProductSign(lr, mHat);
    QuotientSign(lr * mHat, d);
  }

  lemma ProductSign(lr: real, x: real)
    requires lr > 0.0
    ensures x > 0.0 ==> lr * x > 0.0
    ensures x < 0.0 ==> lr * x < 0.0
    ensures x == 0.0 ==> lr * x == 0.0
  {
  }

  /** Model.Update: the step counter goes up by one; then for every
      parameter the moments absorb its gradient, its value moves by `Move`,
      and its gradient is reset to 0. */
  function Update(mt: Math, md: Model): (md': Model)
    requires Lawful(mt) && ModelInv(md)
    ensures ModelInv(md')
    ensures md'.steps == md.steps + 1
    ensures md'.config == md.config && md'.chars == md.chars && md'.state == md.state
    ensures |md'.params| == |md.params|
    ensures forall k | 0 <= k < |md.params| ::
      && md'.adamM[k] == FirstMoment(md.adamM[k], md.params[k].grad)
      && md'.adamV[k] == SecondMoment(md.adamV[k], md.params[k].grad)
      && md'.params[k].grad == 0.0
      && md'.params[k].data == md.params[k].data - Move(mt, md.config.learningRate, md'.steps, md'.adamM[k], md'.adamV[k])
  {
    hide *;
    InvMoments(md);
    var t := md.steps + 1;
    var n := |md.params|;
    var m' := seq(n, k requires 0 <= k < n => FirstMoment(md.adamM[k], md.params[k].grad));
    var v' := seq(n, k requires 0 <= k < n => SecondMoment(md.adamV[k], md.params[k].grad));
    var ps := seq(n, k requires 0 <= k < n =>
      md.params[k].(data := md.params[k].data - Move(mt, md.config.learningRate, t, m'[k], v'[k]), grad := 0.0));
    SecondMomentsNonNegative(md, v');
    StepInv(md, ps, m', v');
    md.(params := ps, adamM := m', adamV := v', steps := t)
  }

  /** The parts of the invariant an Adam step relies on. */
  lemma InvMoments(md: Model)
    requires ModelInv(md)
    ensures |md.adamM| == |md.params| && |md.adamV| == |md.params| && md.steps >= 0
    ensures forall k | 0 <= k < |md.adamV| :: md.adamV[k] >= 0.0
    ensures forall k | 0 <= k < |md.params| :: md.params[k].children == [] && md.params[k].localGrads == []
  {
  }

  lemma SecondMomentsNonNegative(md: Model, v': seq<real>)
    requires |md.adamV| == |md.params| && |v'| == |md.params|
    requires forall k | 0 <= k < |md.adamV| :: md.adamV[k] >= 0.0
    requires forall k | 0 <= k < |v'| :: v'[k] == SecondMoment(md.adamV[k], md.params[k].grad)
    ensures forall k | 0 <= k < |v'| :: v'[k] >= 0.0
  {
  }

  /** New parameter values, moments and a later step keep the invariant
      as long as the parameters stay leaves. */
  lemma StepInv(md: Model, ps: Graph, m': seq<real>, v': seq<real>)
    requires ModelInv(md) && |ps| == |md.params| && |m'| == |ps| && |v'| == |ps|
    requires forall k | 0 <= k < |ps| :: ps[k].children == [] && ps[k].localGrads == []
    requires forall k | 0 <= k < |v'| :: v'[k] >= 0.0
    ensures ModelInv(md.(params := ps, adamM := m', adamV := v', steps := md.steps + 1))
  {
  }

  /** A parameter whose gradient and moments are all zero stays put. */
  lemma UpdateAtRest(mt: Math, md: Model, k: nat)
    requires Lawful(mt) && ModelInv(md) && k < |md.params|
    requires md.params[k].grad == 0.0 && md.adamM[k] == 0.0
    ensures Update(mt, md).params[k].data == md.params[k].data
  {
    var md' := Update(mt, md);
    assert md'.adamM[k] == 0.0;
    SignOfZero(mt, md.config.learningRate, md'.steps, md'.adamV[k]);
  }

  lemma SignOfZero(mt: Math, lr: real, t: int, v: real)
    requires Lawful(mt) && t >= 1 && v >= 0.0
    ensures Move(mt, lr, t, 0.0, v) == 0.0
  {
    var d := Denominator(mt, v, t);
    assert Corrected(mt, 0.0, Beta1, t) == 0.0;
    assert lr * 0.0 / d == 0.0;
  }

  /** With a positive learning rate a parameter whose first moment, after
      absorbing its gradient, is positive goes down, and one whose first
      moment is negative goes up: the step descends. */
  lemma UpdateDescends(mt: Math, md: Model, k: nat)
    requires Lawful(mt) && ModelInv(md) && k < |md.params| && md.config.learningRate > 0.0
    ensures var md' := Update(mt, md);
      && (md'.adamM[k] > 0.0 ==> md'.params[k].data < md.params[k].data)
      && (md'.adamM[k] < 0.0 ==> md'.params[k].data > md.params[k].data)
  {
    var md' := Update(mt, md);
    MoveOpposesMoment(mt, md.config.learningRate, md'.steps, md'.adamM[k], md'.adamV[k]);
  }
}
