/** The starting order of a session's shared ranking (backend/session-manager/src/store/forming-session.ts). */
module Shuffles {
  import opened KeyedLists

  /** picks[i] is what the picker answers for index i: any of 0..i. */
  predicate PickVector(picks: seq<nat>, n: nat) {
    |picks| == n && forall i :: 0 <= i < n ==> picks[i] <= i
  }

  /** What is left below the last index once item k was swapped into it. */
  function Below<T>(s: seq<T>, k: nat): (r: seq<T>)
    requires k < |s|
    ensures |r| == |s| - 1
  {
    var n := |s| - 1;
    if k == n then s[..n] else s[..n][k := s[n]]
  }

  /** Fisher-Yates from the last index down. */
  function Shuffle<T>(s: seq<T>, picks: seq<nat>): (r: seq<T>)
    requires PickVector(picks, |s|)
    ensures |r| == |s|
    decreases |s|
  {
    if s == [] then []
    else Shuffle(Below(s, picks[|s| - 1]), picks[..|s| - 1]) + [s[picks[|s| - 1]]]
  }

  function IndexOf<T(==)>(s: seq<T>, x: T): (i: nat)
    requires x in s
    ensures i < |s| && s[i] == x
  {
    if s[0] == x then 0 else 1 + IndexOf(s[1..], x)
  }

  lemma BelowPermutes<T>(s: seq<T>, k: nat)
    requires k < |s|
    ensures multiset(Below(s, k)) == multiset(s) - multiset{s[k]}
  {
    assert s == s[..|s| - 1] + [s[|s| - 1]];
  }

  lemma SameLength<T>(s: seq<T>, t: seq<T>)
    requires multiset(s) == multiset(t)
    ensures |s| == |t|
  {
    assert |multiset(s)| == |multiset(t)|;
  }

  lemma LastPick<T>(s: seq<T>, t: seq<T>)
    requires multiset(s) == multiset(t) && t != []
    ensures |s| == |t| && t[|t| - 1] in s
    ensures multiset(Below(s, IndexOf(s, t[|t| - 1]))) == multiset(t[..|t| - 1])
  {
    SameLength(s, t);
    var n := |t| - 1;
    assert t == t[..n] + [t[n]];
    assert t[n] in multiset(s);
    BelowPermutes(s, IndexOf(s, t[n]));
  }

  /** The picks that take s to t, read off from the last index down. */
  function Picks<T(==)>(s: seq<T>, t: seq<T>): (picks: seq<nat>)
    requires multiset(s) == multiset(t)
    ensures PickVector(picks, |s|)
    decreases |t|
  {
    SameLength(s, t);
    if t == [] then []
    else
      LastPick(s, t);
      var k := IndexOf(s, t[|t| - 1]);
      Picks(Below(s, k), t[..|t| - 1]) + [k]
  }

  /** Every pick vector gives a permutation. */
  lemma {:induction false} ShufflePermutes<T>(s: seq<T>, picks: seq<nat>)
    requires PickVector(picks, |s|)
    ensures multiset(Shuffle(s, picks)) == multiset(s)
    decreases |s|
  {
    if s != [] {
      var n := |s| - 1;
      ShufflePermutes(Below(s, picks[n]), picks[..n]);
      BelowPermutes(s, picks[n]);
    }
  }

  lemma ShuffleLast<T>(s: seq<T>, picks: seq<nat>, k: nat)
    requires k < |s| && PickVector(picks, |s| - 1)
    ensures Shuffle(s, picks + [k]) == Shuffle(Below(s, k), picks) + [s[k]]
  {
    assert (picks + [k])[..|s| - 1] == picks;
  }

  lemma PicksLast<T>(s: seq<T>, rest: seq<T>, k: nat)
    requires k < |s| && IndexOf(s, s[k]) == k && multiset(Below(s, k)) == multiset(rest)
    ensures multiset(s) == multiset(rest + [s[k]])
    ensures Picks(s, rest + [s[k]]) == Picks(Below(s, k), rest) + [k]
  {
    BelowPermutes(s, k);
    assert (rest + [s[k]])[..|rest|] == rest;
  }

  /** Every permutation is reached. */
  lemma {:induction false} EveryOrderIsReached<T>(s: seq<T>, t: seq<T>)
    requires multiset(s) == multiset(t)
    ensures Shuffle(s, Picks(s, t)) == t
    decreases |t|
  {
    SameLength(s, t);
    if t != [] {
      var rest := t[..|t| - 1];
      assert t == rest + [t[|t| - 1]];
      LastPick(s, t);
      var k := IndexOf(s, t[|t| - 1]);
      EveryOrderIsReached(Below(s, k), rest);
      PicksLast(s, rest, k);
      SameLength(Below(s, k), rest);
      ShuffleLast(s, Picks(Below(s, k), rest), k);
    }
  }

  lemma BelowDistinct<T>(s: seq<T>, k: nat)
    requires Distinct(s) && k < |s|
    ensures Distinct(Below(s, k)) && IndexOf(s, s[k]) == k
  {}

  /** On distinct items the picks can be read back from the order, so each order comes from exactly one vector. */
  lemma {:induction false} OneVectorPerOrder<T>(s: seq<T>, picks: seq<nat>)
    requires Distinct(s) && PickVector(picks, |s|)
    ensures multiset(Shuffle(s, picks)) == multiset(s)
    ensures Picks(s, Shuffle(s, picks)) == picks
    decreases |s|
  {
    ShufflePermutes(s, picks);
    if s != [] {
      var n := |s| - 1;
      var k, init := picks[n], picks[..n];
      assert picks == init + [k];
      BelowDistinct(s, k);
      OneVectorPerOrder(Below(s, k), init);
      ShuffleLast(s, init, k);
      PicksLast(s, Shuffle(Below(s, k), init), k);
    }
  }

  /** The shuffle is a bijection between pick vectors and the orders of distinct items. */
  lemma ShuffleIsBijective<T>(s: seq<T>, t: seq<T>)
    requires Distinct(s) && multiset(s) == multiset(t)
    ensures PickVector(Picks(s, t), |s|) && Shuffle(s, Picks(s, t)) == t
    ensures forall picks :: PickVector(picks, |s|) && Shuffle(s, picks) == t ==> picks == Picks(s, t)
  {
    EveryOrderIsReached(s, t);
    forall picks | PickVector(picks, |s|) && Shuffle(s, picks) == t ensures picks == Picks(s, t) {
      OneVectorPerOrder(s, picks);
    }
  }

  /** One turn of the loop on the part not yet settled. */
  lemma ShuffleTurn(before: seq<string>, after: seq<string>, picks: seq<nat>, n: nat)
    requires n < |before| == |after| && PickVector(picks, |before|)
    requires after == before[n := before[picks[n]]][picks[n] := before[n]]
    ensures Shuffle(before[..n + 1], picks[..n + 1]) + before[n + 1..] == Shuffle(after[..n], picks[..n]) + after[n..]
  {
    var k := picks[n];
    assert picks[..n + 1][..n] == picks[..n];
    assert Below(before[..n + 1], k) == after[..n];
    assert after[n..] == [before[k]] + before[n + 1..];
  }

  lemma ShuffleEnds(s: seq<string>, picks: seq<nat>, n: nat)
    requires n <= 1 && n <= |s| && PickVector(picks, |s|)
    ensures Shuffle(s[..n], picks[..n]) + s[n..] == s
  {
    if n == 1 {
      assert s[..1] == [s[0]] && picks[..1] == [0];
      assert Shuffle([s[0]], [0]) == [] + [s[0]];
    }
    assert s[..n] + s[n..] == s;
  }

  lemma WholeSlice(s: seq<string>, picks: seq<nat>)
    requires PickVector(picks, |s|)
    ensures Shuffle(s, picks) == Shuffle(s[..|s|], picks[..|s|]) + s[|s|..]
  {
    assert s[..|s|] == s && picks[..|s|] == picks;
  }

  method Slice(items: array<string>) returns (copy: array<string>)
    ensures fresh(copy) && copy[..] == items[..]
  {
    copy := new string[items.Length](i requires 0 <= i < items.Length reads items => items[i]);
  }

  /** The loop on a copy of the items; the picker's answers are given. */
  method ShuffleRankingOrder(items: array<string>, picks: seq<nat>) returns (shuffled: array<string>)
    requires PickVector(picks, items.Length)
    ensures fresh(shuffled) && shuffled[..] == Shuffle(items[..], picks)
  {
    shuffled := Slice(items);
    ghost var goal := Shuffle(items[..], picks);
    var index := items.Length;
    WholeSlice(shuffled[..], picks);
    while index > 1
      invariant 0 <= index <= shuffled.Length == |picks|
      invariant goal == Shuffle(shuffled[..][..index], picks[..index]) + shuffled[..][index..]
    {
      index := index - 1;
      ghost var before := shuffled[..];
      var swapWith := picks[index];
      shuffled[index], shuffled[swapWith] := shuffled[swapWith], shuffled[index];
      ShuffleTurn(before, shuffled[..], picks, index);
    }
    ShuffleEnds(shuffled[..], picks, index);
  }
}
