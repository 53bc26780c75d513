/** Real vectors: the left-to-right sums, prefix sums and dot products that
    the engine's accumulation loops compute. */
module Vectors {

  /** Sum of `s` accumulated from the left, starting at 0. */
  function Sum(s: seq<real>): real
  {
    if |s| == 0 then 0.0 else Sum(s[..|s| - 1]) + s[|s| - 1]
  }

  /** Running total of the first `k` entries. */
  function PrefixSum(s: seq<real>, k: nat): real
    requires k <= |s|
  {
    Sum(s[..k])
  }

  /** Σ_{j < |x|} row[j] * x[j]; the row may be longer than `x`. */
  function Dot(row: seq<real>, x: seq<real>): real
    requires |row| >= |x|
  {
    if |x| == 0 then 0.0 else Dot(row, x[..|x| - 1]) + row[|x| - 1] * x[|x| - 1]
  }

  function Scale(s: seq<real>, c: real): (r: seq<real>)
    ensures |r| == |s|
    ensures forall i | 0 <= i < |s| :: r[i] == s[i] * c
  {
    seq(|s|, i requires 0 <= i < |s| => s[i] * c)
  }

  /** Every entry divided by `t`. */
  function Normalize(s: seq<real>, t: real): (r: seq<real>)
    requires t != 0.0
    ensures |r| == |s|
  {
    seq(|s|, i requires 0 <= i < |s| => s[i] / t)
  }

  /** n zeros. */
  function Zeros(n: nat): (z: seq<real>)
    ensures |z| == n && forall i | 0 <= i < n :: z[i] == 0.0
  {
    seq(n, i => 0.0)
  }

  /** Elementwise sum of two vectors of equal length. */
  function AddVec(a: seq<real>, b: seq<real>): (r: seq<real>)
    requires |a| == |b|
    ensures |r| == |a|
    ensures forall i | 0 <= i < |a| :: r[i] == a[i] + b[i]
  {
    seq(|a|, i requires 0 <= i < |a| => a[i] + b[i])
  }

  /** The sum multiplied by 1/|s|, as the averaging code writes it. */
  function Mean(s: seq<real>): (r: real)
    requires |s| > 0
    ensures NonNegative(s) ==> r >= 0.0
  {
    if NonNegative(s) then
      SumNonNegative(s);
      MeanSign(Sum(s), 1.0 / |s| as real);
      Sum(s) * (1.0 / |s| as real)
    else Sum(s) * (1.0 / |s| as real)
  }

  lemma MeanSign(total: real, inv: real)
    requires inv >= 0.0
    ensures total >= 0.0 ==> total * inv >= 0.0
  {
  }

  predicate NonNegative(s: seq<real>) {
    forall i | 0 <= i < |s| :: s[i] >= 0.0
  }

  lemma SumSingle(x: real)
    ensures Sum([x]) == x
  {
    assert [x][..0] == [];
  }

  lemma {:induction false} PrefixSumStep(s: seq<real>, k: nat)
    requires k < |s|
    ensures PrefixSum(s, k + 1) == PrefixSum(s, k) + s[k]
  {
    assert s[..k + 1][..k] == s[..k];
  }

  lemma {:induction false} SumScale(s: seq<real>, c: real)
    ensures Sum(Scale(s, c)) == Sum(s) * c
  {
    if |s| > 0 {
      var n := |s| - 1;
      forall i | 0 <= i < n
        ensures Scale(s, c)[..n][i] == Scale(s[..n], c)[i]
      {
        assert s[..n][i] == s[i];
      }
      assert Scale(s, c)[..n] == Scale(s[..n], c);
      SumScale(s[..|s| - 1], c);
    }
  }

  lemma {:induction false} SumNonNegative(s: seq<real>)
    requires NonNegative(s)
    ensures Sum(s) >= 0.0
  {
    if |s| > 0 {
      SumNonNegative(s[..|s| - 1]);
    }
  }

  lemma {:induction false} SumPositive(s: seq<real>)
    requires |s| > 0
    requires forall i | 0 <= i < |s| :: s[i] > 0.0
    ensures Sum(s) > 0.0
  {
    SumNonNegative(s[..|s| - 1]);
  }

  /** A sum of non-negative entries bounds each entry. */
  lemma {:induction false} SumBoundsEntry(s: seq<real>, i: nat)
    requires NonNegative(s) && i < |s|
    ensures s[i] <= Sum(s)
  {
    SumNonNegative(s[..|s| - 1]);
    if i < |s| - 1 {
      SumBoundsEntry(s[..|s| - 1], i);
    }
  }

  /** `n` copies of `c` sum to `n * c`. */
  lemma {:induction false} SumConstant(s: seq<real>, c: real)
    requires forall i | 0 <= i < |s| :: s[i] == c
    ensures Sum(s) == |s| as real * c
  {
    if |s| > 0 {
      SumConstant(s[..|s| - 1], c);
    }
  }

  lemma {:induction false} SumAdd(a: seq<real>, b: seq<real>)
    requires |a| == |b|
    ensures Sum(AddVec(a, b)) == Sum(a) + Sum(b)
  {
    if |a| > 0 {
      assert AddVec(a, b)[..|a| - 1] == AddVec(a[..|a| - 1], b[..|b| - 1]);
      SumAdd(a[..|a| - 1], b[..|b| - 1]);
    }
  }

  /** Sums agree when the entries agree. */
  lemma {:induction false} SumExt(a: seq<real>, b: seq<real>)
    requires |a| == |b|
    requires forall i | 0 <= i < |a| :: a[i] == b[i]
    ensures Sum(a) == Sum(b)
  {
    assert a == b;
  }

  /** A dot product is additive in its vector argument. */
  lemma {:induction false} DotAdditive(row: seq<real>, x: seq<real>, y: seq<real>)
    requires |x| == |y| && |row| >= |x|
    ensures Dot(row, AddVec(x, y)) == Dot(row, x) + Dot(row, y)
  {
    if |x| > 0 {
      var n := |x| - 1;
      assert AddVec(x, y)[..n] == AddVec(x[..n], y[..n]);
      DotAdditive(row, x[..n], y[..n]);
    }
  }

  /** Dividing every entry by t divides the sum by t. */
  lemma SumNormalize(s: seq<real>, t: real)
    requires t != 0.0
    ensures Sum(Normalize(s, t)) == Sum(s) / t
  {
    forall i | 0 <= i < |s|
      ensures Normalize(s, t)[i] == Scale(s, 1.0 / t)[i]
    {
      assert s[i] / t == s[i] * (1.0 / t);
    }
    assert Normalize(s, t) == Scale(s, 1.0 / t);
    SumScale(s, 1.0 / t);
  }

  /** A vector that is `c` everywhere except a 0 at position b sums to
      (|s| - 1) * c. */
  lemma {:induction false} SumAllBut(s: seq<real>, b: nat, c: real)
    requires b < |s| && s[b] == 0.0
    requires forall i | 0 <= i < |s| && i != b :: s[i] == c
    ensures Sum(s) == (|s| - 1) as real * c
  {
    var n := |s| - 1;
    if b == n {
      SumConstant(s[..n], c);
    } else {
      SumAllBut(s[..n], b, c);
    }
  }

  /** Non-negative entries with sum 0 are all 0. */
  lemma SumZero(s: seq<real>, i: nat)
    requires NonNegative(s) && Sum(s) == 0.0 && i < |s|
    ensures s[i] == 0.0
  {
    SumBoundsEntry(s, i);
  }
}
