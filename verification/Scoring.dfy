/** The error score of a ranking (backend/session-manager/src/reports/scoring.ts). */
module Scoring {
  import opened Options
  import opened KeyedLists

  function Distance(a: int, b: int): nat { if a >= b then a - b else b - a }

  function ErrorSum(order: seq<string>, expert: map<string, int>): nat
    requires forall i :: 0 <= i < |order| ==> order[i] in expert
  {
    if order == [] then 0
    else
      var n := |order| - 1;
      ErrorSum(order[..n], expert) + Distance(n + 1, expert[order[n]])
  }

  predicate Scored(order: seq<string>, expert: map<string, int>) {
    |order| == |expert| && Distinct(order) && forall i :: 0 <= i < |order| ==> order[i] in expert
  }

  /** rankingErrorScore */
  function Score(order: Option<seq<string>>, expert: map<string, int>): Option<nat> {
    if order.None? || !Scored(order.value, expert) then None else Some(ErrorSum(order.value, expert))
  }

  /** best lists the expert key's items in expert order: the key is a bijection onto 1..n. */
  ghost predicate ExpertOrder(best: seq<string>, expert: map<string, int>) {
    && Distinct(best) && |best| == |expert|
    && forall i :: 0 <= i < |best| ==> best[i] in expert && expert[best[i]] == i + 1
  }

  // ---- a sum over the items does not depend on their order ----

  function Total(order: seq<string>, f: string -> int): int {
    if order == [] then 0 else Total(order[..|order| - 1], f) + f(order[|order| - 1])
  }

  lemma {:induction false} TotalWithout(s: seq<string>, i: nat, f: string -> int)
    requires i < |s|
    ensures Total(s, f) == Total(s[..i] + s[i + 1..], f) + f(s[i])
  {
    var n := |s| - 1;
    var rest := s[..i] + s[i + 1..];
    if i < n {
      TotalWithout(s[..n], i, f);
      assert rest[..|rest| - 1] == s[..n][..i] + s[..n][i + 1..];
    } else {
      assert rest == s[..n];
    }
  }

  lemma {:induction false} TotalPermuted(s: seq<string>, t: seq<string>, f: string -> int)
    requires multiset(s) == multiset(t)
    ensures Total(s, f) == Total(t, f)
    decreases |s|
  {
    assert |multiset(s)| == |multiset(t)|;
    if s != [] {
      var n := |s| - 1;
      assert s == s[..n] + [s[n]];
      assert s[n] in multiset(t);
      var i :| 0 <= i < |t| && t[i] == s[n];
      assert t == t[..i] + [t[i]] + t[i + 1..];
      assert multiset(s[..n]) == multiset(s) - multiset{s[n]};
      assert multiset(t[..i] + t[i + 1..]) == multiset(t) - multiset{t[i]};
      TotalPermuted(s[..n], t[..i] + t[i + 1..], f);
      TotalWithout(t, i, f);
    }
  }

  function Items(s: seq<string>): set<string> { set x | x in s }

  lemma {:induction false} ItemCount(s: seq<string>)
    requires Distinct(s)
    ensures |Items(s)| == |s|
  {
    if s != [] {
      var n := |s| - 1;
      ItemCount(s[..n]);
      assert Items(s) == Items(s[..n]) + {s[n]};
    }
  }

  lemma SameCountSameSet(a: set<string>, b: set<string>)
    requires a <= b && |a| == |b|
    ensures a == b
  {
    assert b == a + (b - a);
    assert |b - a| == 0;
  }

  lemma {:induction false} DistinctOnce(s: seq<string>, x: string)
    requires Distinct(s)
    ensures multiset(s)[x] == if x in s then 1 else 0
  {
    if s != [] {
      DistinctOnce(s[..|s| - 1], x);
      assert s == s[..|s| - 1] + [s[|s| - 1]];
    }
  }

  /** A scored order permutes the expert order. */
  lemma ScoredPermutes(order: seq<string>, best: seq<string>, expert: map<string, int>)
    requires Scored(order, expert) && ExpertOrder(best, expert)
    ensures multiset(order) == multiset(best)
  {
    ItemCount(order);
    ItemCount(best);
    SameCountSameSet(Items(order), expert.Keys);
    SameCountSameSet(Items(best), expert.Keys);
    forall x ensures multiset(order)[x] == multiset(best)[x] {
      DistinctOnce(order, x);
      DistinctOnce(best, x);
      assert x in order <==> x in Items(order);
      assert x in best <==> x in Items(best);
    }
  }

  // ---- the bounds ----

  function Rank(expert: map<string, int>): string -> int { (x: string) => if x in expert then expert[x] else 0 }

  function OffCentre(expert: map<string, int>, n: nat): string -> int {
    (x: string) => if x in expert then Distance(2 * expert[x], n + 1) else 0
  }

  /** 1 + ... + k, and the distances of 2, 4, ..., 2k from n + 1. */
  function Ranks(k: nat): nat { if k == 0 then 0 else Ranks(k - 1) + k }

  function Offs(k: nat, c: int): nat { if k == 0 then 0 else Offs(k - 1, c) + Distance(2 * k, c) }

  lemma {:induction false} BestTotals(best: seq<string>, expert: map<string, int>, n: nat)
    requires forall i :: 0 <= i < |best| ==> best[i] in expert && expert[best[i]] == i + 1
    ensures Total(best, Rank(expert)) == Ranks(|best|)
    ensures Total(best, OffCentre(expert, n)) == Offs(|best|, n + 1)
  {
    if best != [] { BestTotals(best[..|best| - 1], expert, n); }
  }

  /** |a - b| has the parity of a - b, so the sum has the parity of a difference of equal sums. */
  lemma {:induction false} ErrorParity(order: seq<string>, expert: map<string, int>)
    requires forall i :: 0 <= i < |order| ==> order[i] in expert
    ensures (ErrorSum(order, expert) - Ranks(|order|) - Total(order, Rank(expert))) % 2 == 0
  {
    if order != [] { ErrorParity(order[..|order| - 1], expert); }
  }

  /** Each distance is at most half the two distances from the middle. */
  lemma {:induction false} ErrorThroughCentre(order: seq<string>, expert: map<string, int>, n: nat)
    requires forall i :: 0 <= i < |order| ==> order[i] in expert
    ensures 2 * ErrorSum(order, expert) <= Offs(|order|, n + 1) + Total(order, OffCentre(expert, n))
  {
    if order != [] { ErrorThroughCentre(order[..|order| - 1], expert, n); }
  }

  lemma {:induction false} OffsShift(k: nat, c: int)
    requires c >= 2
    ensures Offs(k + 1, c) == Distance(2, c) + Offs(k, c - 2)
  {
    if k > 0 { OffsShift(k - 1, c); }
    else { assert Offs(1, c) == Offs(0, c) + Distance(2, c); }
  }

  /** The distances from the middle add up to floor(n*n/2). */
  lemma {:induction false} OffsHalfSquare(n: nat)
    ensures Offs(n, n + 1) == n * n / 2
  {
    if n >= 2 {
      OffsHalfSquare(n - 2);
      OffsShift(n - 2, n + 1);
      assert Offs(n, n + 1) == Offs(n - 1, n + 1) + (n - 1);
      assert n * n == (n - 2) * (n - 2) + 4 * n - 4;
    } else if n == 1 {
      assert Offs(1, 2) == Offs(0, 2) + Distance(2, 2);
    }
  }

  lemma ScoreIsEven(order: seq<string>, best: seq<string>, expert: map<string, int>)
    requires Scored(order, expert) && ExpertOrder(best, expert)
    ensures ErrorSum(order, expert) % 2 == 0
  {
    ScoredPermutes(order, best, expert);
    TotalPermuted(order, best, Rank(expert));
    BestTotals(best, expert, |expert|);
    ErrorParity(order, expert);
    EvenDifference(ErrorSum(order, expert), Ranks(|order|), Total(order, Rank(expert)));
  }

  lemma EvenDifference(e: int, a: int, b: int)
    requires a == b && (e - a - b) % 2 == 0
    ensures e % 2 == 0
  {}

  lemma ScoreIsBounded(order: seq<string>, best: seq<string>, expert: map<string, int>)
    requires Scored(order, expert) && ExpertOrder(best, expert)
    ensures ErrorSum(order, expert) <= |expert| * |expert| / 2
  {
    var n := |expert|;
    ScoredPermutes(order, best, expert);
    TotalPermuted(order, best, OffCentre(expert, n));
    BestTotals(best, expert, n);
    ErrorThroughCentre(order, expert, n);
    OffsHalfSquare(n);
  }

  /** Every scored order has an even score between 0 and floor(n*n/2). */
  lemma ScoreBounds(order: seq<string>, best: seq<string>, expert: map<string, int>)
    requires Scored(order, expert) && ExpertOrder(best, expert)
    ensures var n, score := |expert|, Score(Some(order), expert);
            score.Some? && score.value % 2 == 0 && score.value <= n * n / 2
  {
    ScoreIsEven(order, best, expert);
    ScoreIsBounded(order, best, expert);
  }

  lemma {:induction false} ZeroError(order: seq<string>, expert: map<string, int>)
    requires forall i :: 0 <= i < |order| ==> order[i] in expert
    ensures ErrorSum(order, expert) == 0 <==> forall i :: 0 <= i < |order| ==> expert[order[i]] == i + 1
  {
    if order != [] {
      var n := |order| - 1;
      ZeroError(order[..n], expert);
      assert forall i :: 0 <= i < n ==> order[..n][i] == order[i];
    }
  }

  lemma RankTellsItem(best: seq<string>, expert: map<string, int>, x: string)
    requires ExpertOrder(best, expert) && x in expert
    ensures 1 <= expert[x] <= |best| && best[expert[x] - 1] == x
  {
    ItemCount(best);
    SameCountSameSet(Items(best), expert.Keys);
    assert x in Items(best);
    var j :| 0 <= j < |best| && best[j] == x;
  }

  /** The score is 0 exactly for the expert order. */
  lemma ZeroOnlyForExpert(order: seq<string>, best: seq<string>, expert: map<string, int>)
    requires Scored(order, expert) && ExpertOrder(best, expert)
    ensures Score(Some(order), expert) == Some(0) <==> order == best
  {
    ZeroError(order, expert);
    if Score(Some(order), expert) == Some(0) {
      forall i | 0 <= i < |order| ensures order[i] == best[i] {
        RankTellsItem(best, expert, order[i]);
      }
    }
  }

  function Reversed(s: seq<string>): (r: seq<string>)
    ensures |r| == |s| && forall i :: 0 <= i < |s| ==> r[i] == s[|s| - 1 - i]
  {
    seq(|s|, i requires 0 <= i < |s| => s[|s| - 1 - i])
  }

  lemma {:induction false} ReversedSum(best: seq<string>, expert: map<string, int>, k: nat)
    requires ExpertOrder(best, expert) && k <= |best|
    ensures ErrorSum(Reversed(best)[..k], expert) == Offs(k, |best| + 1)
  {
    if k > 0 {
      ReversedSum(best, expert, k - 1);
      assert Reversed(best)[..k][..k - 1] == Reversed(best)[..k - 1];
    } else {
      assert Reversed(best)[..k] == [];
    }
  }

  /** The full reversal is scored and attains the maximum. */
  lemma ReversalIsWorst(best: seq<string>, expert: map<string, int>)
    requires ExpertOrder(best, expert)
    ensures Score(Some(Reversed(best)), expert) == Some(|expert| * |expert| / 2)
  {
    ReversedSum(best, expert, |best|);
    assert Reversed(best)[..|best|] == Reversed(best);
    OffsHalfSquare(|best|);
  }

  /** packages/shared/src/tasks.ts */
  const MOON_ORDER: seq<string> :=
    ["oxygen", "map", "food", "firstaid", "parachute", "raft", "pistols", "heater", "compass", "matches"]

  const MOON_EXPERT: map<string, int> :=
    map["oxygen" := 1, "map" := 2, "food" := 3, "firstaid" := 4, "parachute" := 5,
        "raft" := 6, "pistols" := 7, "heater" := 8, "compass" := 9, "matches" := 10]

  lemma MoonNamesDiffer()
    ensures |"oxygen"| == |"heater"| == 6 && |"map"| == 3 && |"food"| == |"raft"| == 4 && |"firstaid"| == 8
    ensures |"parachute"| == 9 && |"pistols"| == |"compass"| == |"matches"| == 7
    ensures "oxygen"[0] != "heater"[0] && "food"[0] != "raft"[0]
    ensures "pistols"[0] == 'p' && "compass"[0] == 'c' && "matches"[0] == 'm'
  {}

  lemma MoonRanks()
    ensures |MOON_ORDER| == 10
    ensures forall i :: 0 <= i < 10 ==> MOON_ORDER[i] in MOON_EXPERT && MOON_EXPERT[MOON_ORDER[i]] == i + 1
  {
    MoonNamesDiffer();
    assert MOON_EXPERT["oxygen"] == 1 && MOON_EXPERT["map"] == 2 && MOON_EXPERT["food"] == 3;
    assert MOON_EXPERT["firstaid"] == 4 && MOON_EXPERT["parachute"] == 5 && MOON_EXPERT["raft"] == 6;
    assert MOON_EXPERT["pistols"] == 7 && MOON_EXPERT["heater"] == 8 && MOON_EXPERT["compass"] == 9;
  }

  /** A list whose items hold the ranks 1, 2, ... lists no item twice. */
  lemma RankedOnce(best: seq<string>, expert: map<string, int>)
    requires forall i :: 0 <= i < |best| ==> best[i] in expert && expert[best[i]] == i + 1
    ensures Distinct(best)
  {
    forall i, j | 0 <= i < j < |best| ensures best[i] != best[j] {
      assert expert[best[i]] != expert[best[j]];
    }
  }

  lemma MoonIsExpertOrder()
    ensures ExpertOrder(MOON_ORDER, MOON_EXPERT)
  {
    MoonRanks();
    RankedOnce(MOON_ORDER, MOON_EXPERT);
    ItemCount(MOON_ORDER);
    assert MOON_EXPERT.Keys == Items(MOON_ORDER);
  }

  /** For the ten moon-survival items every score is even and at most 50, and the reversal scores 50. */
  lemma MoonScores(order: seq<string>)
    requires Scored(order, MOON_EXPERT)
    ensures Score(Some(order), MOON_EXPERT).Some? && Score(Some(order), MOON_EXPERT).value <= 50
    ensures Score(Some(order), MOON_EXPERT) == Some(0) <==> order == MOON_ORDER
    ensures Score(Some(Reversed(MOON_ORDER)), MOON_EXPERT) == Some(50)
  {
    MoonIsExpertOrder();
    ScoreBounds(order, MOON_ORDER, MOON_EXPERT);
    ZeroOnlyForExpert(order, MOON_ORDER, MOON_EXPERT);
    ReversalIsWorst(MOON_ORDER, MOON_EXPERT);
    assert |MOON_EXPERT| == |MOON_ORDER| == 10;
  }
}
