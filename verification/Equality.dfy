/** The Gini coefficient of contribution scores (backend/session-manager/src/reports/equality.ts), on exact reals. */
module Equality {
  import opened Options

  function Sum(s: seq<real>): real { if s == [] then 0.0 else Sum(s[..|s| - 1]) + s[|s| - 1] }

  function Gap(a: real, b: real): real { if a >= b then a - b else b - a }

  function Lesser(a: real, b: real): real { if a <= b then a else b }

  /** The distances from a to the scores, and what a has in common with each. */
  function Distances(a: real, s: seq<real>): real { if s == [] then 0.0 else Distances(a, s[..|s| - 1]) + Gap(a, s[|s| - 1]) }

  function Common(a: real, s: seq<real>): real { if s == [] then 0.0 else Common(a, s[..|s| - 1]) + Lesser(a, s[|s| - 1]) }

  function Pairwise(r: seq<real>, s: seq<real>): real {
    if r == [] then 0.0 else Pairwise(r[..|r| - 1], s) + Distances(r[|r| - 1], s)
  }

  function Shared(r: seq<real>, s: seq<real>): real {
    if r == [] then 0.0 else Shared(r[..|r| - 1], s) + Common(r[|r| - 1], s)
  }

  predicate Scored(s: seq<real>) { |s| >= 2 && Sum(s) > 0.0 }

  function GiniOf(s: seq<real>): real
    requires Scored(s)
  {
    Positive(|s|, Sum(s));
    Pairwise(s, s) / (2.0 * |s| as real * Sum(s))
  }

  method Gini(scores: seq<real>) returns (g: Option<real>)
    ensures g == if Scored(scores) then Some(GiniOf(scores)) else None
  {
    var total := TotalOf(scores);
    if |scores| < 2 || total <= 0.0 { return None; }
    var pairwise := PairwiseOf(scores);
    Positive(|scores|, total);
    assert Scored(scores) && GiniOf(scores) == pairwise / (2.0 * |scores| as real * total);
    g := Some(pairwise / (2.0 * |scores| as real * total));
  }

  method TotalOf(scores: seq<real>) returns (total: real)
    ensures total == Sum(scores)
  {
    total := 0.0;
    for i := 0 to |scores|
      invariant total == Sum(scores[..i])
    {
      assert scores[..i + 1][..i] == scores[..i];
      total := total + scores[i];
    }
    assert scores[..|scores|] == scores;
  }

  method PairwiseOf(scores: seq<real>) returns (pairwise: real)
    ensures pairwise == Pairwise(scores, scores)
  {
    pairwise := 0.0;
    for i := 0 to |scores|
      invariant pairwise == Pairwise(scores[..i], scores)
    {
      assert scores[..i + 1][..i] == scores[..i];
      ghost var before := pairwise;
      for j := 0 to |scores|
        invariant pairwise == before + Distances(scores[i], scores[..j])
      {
        assert scores[..j + 1][..j] == scores[..j];
        pairwise := pairwise + Gap(scores[i], scores[j]);
      }
      assert scores[..|scores|] == scores;
    }
    assert scores[..|scores|] == scores;
  }

  lemma Positive(n: nat, total: real)
    requires n > 0 && total > 0.0
    ensures 2.0 * n as real * total > 0.0
  {}

  // ---- distance and common part ----

  /** n times a, by addition. */
  function Times(n: nat, a: real): real { if n == 0 then 0.0 else Times(n - 1, a) + a }

  lemma {:induction false} TimesIsProduct(n: nat, a: real)
    ensures Times(n, a) == n as real * a
  {
    if n > 0 {
      TimesIsProduct(n - 1, a);
      assert n as real == (n - 1) as real + 1.0;
      assert n as real * a == (n - 1) as real * a + a;
    }
  }

  lemma {:induction false} TimesAdd(n: nat, a: real, b: real)
    ensures Times(n, a + b) == Times(n, a) + Times(n, b)
  {
    if n > 0 { TimesAdd(n - 1, a, b); }
  }

  lemma {:induction false} TimesZero(n: nat)
    ensures Times(n, 0.0) == 0.0
  {
    if n > 0 { TimesZero(n - 1); }
  }

  lemma {:induction false} DistancesSplit(a: real, s: seq<real>)
    ensures Distances(a, s) == Times(|s|, a) + Sum(s) - 2.0 * Common(a, s)
  {
    if s != [] { DistancesSplit(a, s[..|s| - 1]); }
  }

  /** All distances are all sums less twice what every two have in common. */
  lemma {:induction false} PairwiseSplit(r: seq<real>, s: seq<real>)
    ensures Pairwise(r, s) == Times(|s|, Sum(r)) + Times(|r|, Sum(s)) - 2.0 * Shared(r, s)
  {
    if r == [] {
      TimesZero(|s|);
    } else {
      var n := |r| - 1;
      PairwiseSplit(r[..n], s);
      DistancesSplit(r[n], s);
      TimesAdd(|s|, Sum(r[..n]), r[n]);
    }
  }

  predicate Nonnegative(s: seq<real>) { forall i :: 0 <= i < |s| ==> s[i] >= 0.0 }

  lemma {:induction false} CommonAtLeast(a: real, s: seq<real>, k: nat)
    requires Nonnegative(s) && a >= 0.0 && k < |s|
    ensures Common(a, s) >= Lesser(a, s[k]) && Common(a, s) >= 0.0
  {
    var n := |s| - 1;
    if k < n { CommonAtLeast(a, s[..n], k); } else { CommonNonnegative(a, s[..n]); }
  }

  lemma {:induction false} CommonNonnegative(a: real, s: seq<real>)
    requires Nonnegative(s) && a >= 0.0
    ensures Common(a, s) >= 0.0
  {
    if s != [] { CommonNonnegative(a, s[..|s| - 1]); }
  }

  lemma {:induction false} CommonTwo(a: real, s: seq<real>, k: nat, l: nat)
    requires Nonnegative(s) && a >= 0.0 && k < l < |s|
    ensures Common(a, s) >= Lesser(a, s[k]) + Lesser(a, s[l])
  {
    var n := |s| - 1;
    if l < n { CommonTwo(a, s[..n], k, l); } else { CommonAtLeast(a, s[..n], k); }
  }

  /** Only itself: what s[k] has in common with the whole list is s[k] alone exactly when it meets nobody else. */
  lemma {:induction false} CommonOfOne(a: real, s: seq<real>, k: nat)
    requires Nonnegative(s) && k < |s| && a == s[k]
    requires forall j :: 0 <= j < |s| && j != k ==> Lesser(a, s[j]) == 0.0
    ensures Common(a, s) == a
  {
    var n := |s| - 1;
    if k < n { CommonOfOne(a, s[..n], k); } else { CommonOfNone(a, s[..n]); }
  }

  lemma {:induction false} CommonOfNone(a: real, s: seq<real>)
    requires forall j :: 0 <= j < |s| ==> Lesser(a, s[j]) == 0.0
    ensures Common(a, s) == 0.0
  {
    if s != [] { CommonOfNone(a, s[..|s| - 1]); }
  }

  lemma {:induction false} SharedAtLeast(s: seq<real>, k: nat)
    requires Nonnegative(s) && k <= |s|
    ensures Shared(s[..k], s) >= Sum(s[..k])
    ensures Shared(s[..k], s) == Sum(s[..k]) <==> forall i :: 0 <= i < k ==> Common(s[i], s) == s[i]
  {
    if k > 0 {
      SharedAtLeast(s, k - 1);
      assert s[..k][..k - 1] == s[..k - 1];
      CommonAtLeast(s[k - 1], s, k - 1);
    }
  }

  predicate OwnsAll(s: seq<real>, k: int) { 0 <= k < |s| && forall j :: 0 <= j < |s| && j != k ==> s[j] == 0.0 }

  /** At most one score is positive. */
  ghost predicate OneHasAll(s: seq<real>) { exists k :: OwnsAll(s, k) }

  lemma AloneExactly(s: seq<real>)
    requires Nonnegative(s) && s != []
    ensures (forall i :: 0 <= i < |s| ==> Common(s[i], s) == s[i]) <==> OneHasAll(s)
  {
    if OneHasAll(s) {
      var k :| OwnsAll(s, k);
      forall i | 0 <= i < |s| ensures Common(s[i], s) == s[i] {
        CommonOfOne(s[i], s, i);
      }
    } else if forall i :: 0 <= i < |s| ==> Common(s[i], s) == s[i] {
      var k := TwoPositive(s);
    }
  }

  /** Without a sole owner two scores are positive, and then the first has more in common than itself. */
  lemma TwoPositive(s: seq<real>) returns (k: nat)
    requires Nonnegative(s) && s != [] && !OneHasAll(s)
    ensures k < |s| && Common(s[k], s) > s[k]
  {
    assert !OwnsAll(s, 0);
    k :| k < |s| && k != 0 && s[k] != 0.0;
    assert !OwnsAll(s, k);
    var l: nat :| l < |s| && l != k && s[l] != 0.0;
    if l < k { CommonTwo(s[k], s, l, k); } else { CommonTwo(s[k], s, k, l); }
  }

  // ---- the coefficient ----

  lemma {:induction false} DistancesNonnegative(a: real, s: seq<real>)
    ensures Distances(a, s) >= 0.0
    ensures Distances(a, s) == 0.0 <==> forall j :: 0 <= j < |s| ==> s[j] == a
  {
    if s != [] {
      DistancesNonnegative(a, s[..|s| - 1]);
      assert forall j :: 0 <= j < |s| - 1 ==> s[..|s| - 1][j] == s[j];
    }
  }

  lemma {:induction false} PairwiseNonnegative(r: seq<real>, s: seq<real>)
    ensures Pairwise(r, s) >= 0.0
    ensures Pairwise(r, s) == 0.0 <==> forall i, j :: 0 <= i < |r| && 0 <= j < |s| ==> r[i] == s[j]
  {
    if r != [] {
      var n := |r| - 1;
      PairwiseNonnegative(r[..n], s);
      DistancesNonnegative(r[n], s);
      assert forall i :: 0 <= i < n ==> r[..n][i] == r[i];
    }
  }

  lemma TopQuotient(n: real, total: real)
    requires n > 0.0 && total > 0.0 && 2.0 * n * total > 0.0
    ensures 2.0 * (n - 1.0) * total / (2.0 * n * total) == (n - 1.0) / n
  {
    assert (n - 1.0) / n * (2.0 * n * total) == 2.0 * (n - 1.0) * total;
  }

  /** Dividing by a positive number keeps the order. */
  lemma QuotientOrder(p: real, q: real, d: real)
    requires d > 0.0
    ensures p <= q <==> p / d <= q / d
    ensures p == q <==> p / d == q / d
  {
    assert p == p / d * d && q == q / d * d;
  }

  /** The distances of a list from itself. */
  lemma OwnDistances(s: seq<real>)
    ensures Pairwise(s, s) == 2.0 * |s| as real * Sum(s) - 2.0 * Shared(s, s)
  {
    PairwiseSplit(s, s);
    TimesIsProduct(|s|, Sum(s));
  }

  /** The most they can be, and when they are. */
  lemma MostDistances(s: seq<real>)
    requires Nonnegative(s) && s != []
    ensures Pairwise(s, s) <= 2.0 * |s| as real * Sum(s) - 2.0 * Sum(s)
    ensures Pairwise(s, s) == 2.0 * |s| as real * Sum(s) - 2.0 * Sum(s) <==> OneHasAll(s)
  {
    OwnDistances(s);
    SharedAtLeast(s, |s|);
    assert s[..|s|] == s;
    AloneExactly(s);
  }

  lemma TopProduct(n: real, total: real)
    ensures 2.0 * n * total - 2.0 * total == 2.0 * (n - 1.0) * total
  {}

  /** 0 exactly for equal scores, and never below. */
  lemma GiniLowest(s: seq<real>)
    requires Scored(s)
    ensures GiniOf(s) >= 0.0
    ensures GiniOf(s) == 0.0 <==> forall i, j :: 0 <= i < |s| && 0 <= j < |s| ==> s[i] == s[j]
  {
    Positive(|s|, Sum(s));
    PairwiseNonnegative(s, s);
    QuotientOrder(0.0, Pairwise(s, s), 2.0 * |s| as real * Sum(s));
  }

  /** At most (n-1)/n, and that exactly when one member has everything. */
  lemma GiniHighest(s: seq<real>)
    requires Scored(s) && Nonnegative(s)
    ensures GiniOf(s) <= (|s| as real - 1.0) / |s| as real
    ensures GiniOf(s) == (|s| as real - 1.0) / |s| as real <==> OneHasAll(s)
  {
    var n, total := |s| as real, Sum(s);
    Positive(|s|, total);
    MostDistances(s);
    TopProduct(n, total);
    TopQuotient(n, total);
    QuotientOrder(Pairwise(s, s), 2.0 * (n - 1.0) * total, 2.0 * n * total);
  }
}
