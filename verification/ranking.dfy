/** Ranking token indices by probability, highest first, as the two
    `sort.Slice` calls in inference_and_training.go do (top-k masking and the
    top-k candidate list). `sort.Slice` is not stable, so the order among
    equal probabilities is unspecified; here ties go to the index listed
    first, which is one of the orders the sort may produce. */
module Ranking {

  predicate InBounds(p: seq<real>, s: seq<nat>) {
    forall i | 0 <= i < |s| :: s[i] < |p|
  }

  predicate Distinct(s: seq<nat>) {
    forall i, j | 0 <= i < j < |s| :: s[i] != s[j]
  }

  /** Probabilities never increase along `s`. */
  predicate Descending(p: seq<real>, s: seq<nat>)
    requires InBounds(p, s)
  {
    forall i, j | 0 <= i < j < |s| :: p[s[i]] >= p[s[j]]
  }

  /** 0, 1, ..., n-1 */
  function Indices(n: nat): (s: seq<nat>)
    ensures |s| == n && forall i | 0 <= i < n :: s[i] == i
  {
    seq(n, i requires 0 <= i < n => i)
  }

  /** The position in `rem` of the highest probability, the first one on ties. */
  function BestAt(p: seq<real>, rem: seq<nat>): (b: nat)
    requires |rem| > 0 && InBounds(p, rem)
    ensures b < |rem|
    ensures forall i | 0 <= i < |rem| :: p[rem[i]] <= p[rem[b]]
    ensures forall i | 0 <= i < b :: p[rem[i]] < p[rem[b]]
  {
    if |rem| == 1 then 0
    else
      var front := rem[..|rem| - 1];
      assert forall i | 0 <= i < |front| :: front[i] == rem[i];
      var b := BestAt(p, front);
      if p[rem[|rem| - 1]] > p[rem[b]] then |rem| - 1 else b
  }

  /** `rem` without its entry at position `at`. */
  function Without(rem: seq<nat>, at: nat): (r: seq<nat>)
    requires at < |rem|
    ensures |r| == |rem| - 1
    ensures forall i | 0 <= i < |r| :: r[i] == if i < at then rem[i] else rem[i + 1]
    ensures forall x :: x in r ==> x in rem
    ensures forall x :: x in rem && x != rem[at] ==> x in r
  {
    rem[..at] + rem[at + 1..]
  }

  lemma WithoutDistinct(rem: seq<nat>, at: nat)
    requires at < |rem|
    ensures Distinct(rem) ==> Distinct(Without(rem, at)) && rem[at] !in Without(rem, at)
  {
  }

  /** Selection sort, highest probability first. */
  function SortDesc(p: seq<real>, rem: seq<nat>): (s: seq<nat>)
    requires InBounds(p, rem)
    ensures |s| == |rem|
    decreases |rem|
  {
    if |rem| == 0 then []
    else
      var at := BestAt(p, rem);
      [rem[at]] + SortDesc(p, Without(rem, at))
  }

  lemma SortDescCons(p: seq<real>, rem: seq<nat>)
    requires InBounds(p, rem) && |rem| > 0
    ensures var at := BestAt(p, rem);
            SortDesc(p, rem) == [rem[at]] + SortDesc(p, Without(rem, at))
  {
  }

  /** The sort neither loses nor invents indices. */
  lemma {:induction false} SortDescElems(p: seq<real>, rem: seq<nat>)
    requires InBounds(p, rem)
    ensures forall x :: x in SortDesc(p, rem) <==> x in rem
    decreases |rem|
  {
    if |rem| > 0 {
      var at := BestAt(p, rem);
      SortDescElems(p, Without(rem, at));
    }
  }

  lemma SortDescBounds(p: seq<real>, rem: seq<nat>)
    requires InBounds(p, rem)
    ensures InBounds(p, SortDesc(p, rem))
  {
    var s := SortDesc(p, rem);
    SortDescElems(p, rem);
    forall i | 0 <= i < |s|
      ensures s[i] < |p|
    {
      assert s[i] in rem;
    }
  }

  /** The first pick is at least as likely as everything sorted after it. */
  lemma FirstIsBest(p: seq<real>, rem: seq<nat>)
    requires InBounds(p, rem) && |rem| > 0
    ensures var at := BestAt(p, rem); var rest := SortDesc(p, Without(rem, at));
      InBounds(p, rest) && forall j | 0 <= j < |rest| :: p[rest[j]] <= p[rem[at]]
  {
    var at := BestAt(p, rem);
    var rest := SortDesc(p, Without(rem, at));
    SortDescElems(p, Without(rem, at));
    SortDescBounds(p, Without(rem, at));
    forall j | 0 <= j < |rest|
      ensures p[rest[j]] <= p[rem[at]]
    {
      assert rest[j] in rem;
    }
  }

  lemma {:induction false} SortDescDescending(p: seq<real>, rem: seq<nat>)
    requires InBounds(p, rem)
    ensures InBounds(p, SortDesc(p, rem)) && Descending(p, SortDesc(p, rem))
    decreases |rem|
  {
    // Everything below follows from the callees' contracts.
    hide SortDesc;
    SortDescBounds(p, rem);
    if |rem| > 0 {
      var at := BestAt(p, rem);
      var rest := SortDesc(p, Without(rem, at));
      SortDescDescending(p, Without(rem, at));
      FirstIsBest(p, rem);
      var s := SortDesc(p, rem);
      SortDescCons(p, rem);
      forall i, j | 0 <= i < j < |s|
        ensures p[s[i]] >= p[s[j]]
      {
        assert s[j] == rest[j - 1];
        if i > 0 {
          assert s[i] == rest[i - 1];
        }
      }
    }
  }

  lemma {:induction false} SortDescDistinct(p: seq<real>, rem: seq<nat>)
    requires InBounds(p, rem) && Distinct(rem)
    ensures Distinct(SortDesc(p, rem))
    decreases |rem|
  {
    if |rem| > 0 {
      var at := BestAt(p, rem);
      var rest := SortDesc(p, Without(rem, at));
      WithoutDistinct(rem, at);
      SortDescDistinct(p, Without(rem, at));
      SortDescElems(p, Without(rem, at));
      var s := SortDesc(p, rem);
      assert s == [rem[at]] + rest;
      forall i, j | 0 <= i < j < |s|
        ensures s[i] != s[j]
      {
        assert s[j] == rest[j - 1];
        if i > 0 {
          assert s[i] == rest[i - 1];
        } else {
          assert rest[j - 1] in rest;
        }
      }
    }
  }

  /** All indices of `p`, ranked. */
  function Ranked(p: seq<real>): (s: seq<nat>)
    ensures |s| == |p|
  {
    SortDesc(p, Indices(|p|))
  }

  /** Ranked lists every index of `p` once, highest probability first. */
  lemma RankedFacts(p: seq<real>)
    ensures InBounds(p, Ranked(p)) && Descending(p, Ranked(p)) && Distinct(Ranked(p))
    ensures forall i | 0 <= i < |p| :: i in Ranked(p)
  {
    var idx := Indices(|p|);
    SortDescElems(p, idx);
    forall i | 0 <= i < |p|
      ensures i in Ranked(p)
    {
      assert idx[i] in idx;
    }
    SortDescDescending(p, idx);
    SortDescDistinct(p, idx);
  }

  /** Every index kept among the first k ranked has at least the
      probability of every index left out. */
  lemma RankedSplit(p: seq<real>, k: nat, i: nat, j: nat)
    requires k <= |p| && i < |p| && j < |p|
    requires i in Ranked(p)[..k] && j !in Ranked(p)[..k]
    ensures p[i] >= p[j]
  {
    RankedFacts(p);
    var s := Ranked(p);
    var a :| 0 <= a < k && s[a] == i;
    assert j in s;
    var b :| 0 <= b < |s| && s[b] == j;
    assert b >= k;
  }
}
