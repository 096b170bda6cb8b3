/** Chart label positions (spreadLabels in frontend/admin-dashboard/src/session-detail.ts), on exact reals. */
module LabelSpread {
  import opened Sorting

  function Least(a: real, b: real): real { if a <= b then a else b }

  function Most(a: real, b: real): real { if a >= b then a else b }

  /** By height, ties by input position. */
  function Above(ys: seq<real>): (nat, nat) -> bool {
    (i: nat, j: nat) => i < |ys| && j < |ys| && (ys[i] < ys[j] || (ys[i] == ys[j] && i < j))
  }

  function Indices(n: nat): (s: seq<nat>)
    ensures |s| == n && forall k :: 0 <= k < n ==> s[k] == k
  {
    seq(n, k requires 0 <= k < n => k)
  }

  function OrderOf(ys: seq<real>): seq<nat> { Sorted(Indices(|ys|), Above(ys)) }

  function Clamped(ys: seq<real>, order: seq<nat>, min: real, max: real): (c: seq<real>)
    requires forall k :: 0 <= k < |order| ==> order[k] < |ys|
    ensures |c| == |order|
  {
    seq(|order|, k requires 0 <= k < |order| => Least(max, Most(min, ys[order[k]])))
  }

  /** The first pass: overlaps are pushed down. */
  function Pushed(c: seq<real>, gap: real): (p: seq<real>)
    ensures |p| == |c|
  {
    if |c| <= 1 then c
    else
      var before := Pushed(c[..|c| - 1], gap);
      before + [Most(c[|c| - 1], before[|c| - 2] + gap)]
  }

  /** The second pass, from the end: a stack past max is pushed back up. */
  function Pulled(p: seq<real>, gap: real, max: real): (r: seq<real>)
    ensures |r| == |p|
  {
    if p == [] then []
    else
      var rest := Pulled(p[1..], gap, max);
      [Least(p[0], if rest == [] then max else rest[0] - gap)] + rest
  }

  /** The positions handed back to the input places. */
  function Scattered(out: seq<real>, order: seq<nat>, placed: seq<real>): (r: seq<real>)
    requires |order| == |placed| && forall k :: 0 <= k < |order| ==> order[k] < |out|
    ensures |r| == |out|
  {
    if order == [] then out
    else
      var n := |order| - 1;
      Scattered(out, order[..n], placed[..n])[order[n] := placed[n]]
  }

  lemma AboveStrict(ys: seq<real>)
    ensures StrictOrder(Above(ys))
  {}

  /** The order lists every input place once, by height. */
  lemma OrderExact(ys: seq<real>)
    ensures var order := OrderOf(ys);
            && |order| == |ys|
            && (forall k :: 0 <= k < |order| ==> order[k] < |ys|)
            && (forall i: nat :: i < |ys| ==> i in order)
            && (forall k, l :: 0 <= k < l < |order| ==> order[k] != order[l] && Above(ys)(order[k], order[l]))
  {
    AboveStrict(ys);
    SortedIsSorted(Indices(|ys|), Above(ys));
    var order := OrderOf(ys);
    forall k | 0 <= k < |order| ensures order[k] < |ys| {
      assert order[k] in order;
    }
    forall i: nat | i < |ys| ensures i in order {
      assert Indices(|ys|)[i] == i;
    }
    forall k, l | 0 <= k < l < |order| ensures order[k] != order[l] {
      if order[k] == order[l] {
        TwiceInMultiset(order, k, l);
        IndicesOnce(|ys|, order[k]);
        assert false;
      }
    }
  }

  lemma OrderInRange(ys: seq<real>)
    ensures |OrderOf(ys)| == |ys| && forall k :: 0 <= k < |ys| ==> OrderOf(ys)[k] < |ys|
  {
    OrderExact(ys);
  }

  lemma TwiceInMultiset(s: seq<nat>, k: int, l: int)
    requires 0 <= k < l < |s| && s[k] == s[l]
    ensures multiset(s)[s[k]] >= 2
  {
    assert s == s[..l] + s[l..];
    assert s[k] in s[..l] && s[l] in s[l..];
  }

  lemma {:induction false} IndicesOnce(n: nat, i: nat)
    ensures multiset(Indices(n))[i] <= 1
    ensures i >= n ==> multiset(Indices(n))[i] == 0
  {
    if n > 0 {
      IndicesOnce(n - 1, i);
      assert Indices(n) == Indices(n - 1) + [n - 1];
    }
  }

  function Spread(ys: seq<real>, gap: real, min: real, max: real): (out: seq<real>)
    ensures |out| == |ys|
  {
    OrderInRange(ys);
    var order := OrderOf(ys);
    Scattered(ys, order, Pulled(Pushed(Clamped(ys, order, min, max), gap), gap, max))
  }

  // ---- the passes ----

  /** How low label k of n may sit, if the labels after it are to fit below it. */
  function Lowest(n: nat, k: nat, gap: real, max: real): real { max - (n - 1 - k) as real * gap }

  predicate Apart(s: seq<real>, gap: real) { forall k, l :: 0 <= k < l < |s| ==> s[k] + gap <= s[l] }

  lemma {:induction false} PushedSpaced(c: seq<real>, gap: real)
    requires gap >= 0.0
    ensures Apart(Pushed(c, gap), gap)
    ensures forall k :: 0 <= k < |c| ==> c[k] <= Pushed(c, gap)[k]
  {
    if |c| > 1 {
      var n := |c| - 1;
      PushedSpaced(c[..n], gap);
      var p, before := Pushed(c, gap), Pushed(c[..n], gap);
      assert p == before + [p[n]];
      assert before[n - 1] + gap <= p[n];
      forall k | 0 <= k < n ensures p[k] + gap <= p[n] && c[k] <= p[k] {
        assert k < n - 1 ==> before[k] + gap <= before[n - 1];
        assert c[..n][k] <= before[k];
      }
    }
  }

  lemma LowestNext(n: nat, k: nat, gap: real, max: real)
    requires n > 1
    ensures Lowest(n, 0, gap, max) == Lowest(n - 1, 0, gap, max) - gap
    ensures Lowest(n, k + 1, gap, max) == Lowest(n - 1, k, gap, max)
  {
    assert (n - 1) as real * gap == (n - 2) as real * gap + gap;
  }

  lemma LowestLast(gap: real, max: real)
    ensures Lowest(1, 0, gap, max) == max
  {}

  lemma ApartRest(p: seq<real>, gap: real)
    requires Apart(p, gap) && p != []
    ensures Apart(p[1..], gap)
  {}

  /** On spaced heights the second pass is one cut: never below what the labels after it need. */
  lemma {:induction false} PulledExact(p: seq<real>, gap: real, max: real, k: nat)
    requires k < |p| && Apart(p, gap)
    ensures Pulled(p, gap, max)[k] == Least(p[k], Lowest(|p|, k, gap, max))
    decreases |p|, k
  {
    LowestLast(gap, max);
    if |p| > 1 {
      var rest := p[1..];
      ApartRest(p, gap);
      var j := if k == 0 then 0 else k - 1;
      LowestNext(|p|, j, gap, max);
      PulledExact(rest, gap, max, j);
      assert Pulled(p, gap, max) == [Least(p[0], Pulled(rest, gap, max)[0] - gap)] + Pulled(rest, gap, max);
      assert p[0] + gap <= p[1] == rest[0];
      assert rest[j] == p[j + 1];
    }
  }

  lemma {:induction false} PulledSpaced(p: seq<real>, gap: real, max: real)
    requires gap >= 0.0
    ensures Apart(Pulled(p, gap, max), gap)
    ensures forall k :: 0 <= k < |p| ==> Pulled(p, gap, max)[k] <= max
  {
    if p != [] {
      PulledSpaced(p[1..], gap, max);
      var r, rest := Pulled(p, gap, max), Pulled(p[1..], gap, max);
      assert r == [r[0]] + rest;
      forall l | 0 < l < |r| ensures r[0] + gap <= r[l] && r[l] <= max {
        assert r[l] == rest[l - 1];
        assert l > 1 ==> rest[0] + gap <= rest[l - 1];
      }
    }
  }

  lemma {:induction false} PushedFixed(c: seq<real>, gap: real)
    requires Apart(c, gap)
    ensures Pushed(c, gap) == c
  {
    if |c| > 1 { PushedFixed(c[..|c| - 1], gap); }
  }

  lemma {:induction false} PulledFixed(p: seq<real>, gap: real, max: real)
    requires Apart(p, gap) && (p != [] ==> p[|p| - 1] <= max)
    ensures Pulled(p, gap, max) == p
  {
    if p != [] { PulledFixed(p[1..], gap, max); }
  }

  lemma {:induction false} ScatteredAt(out: seq<real>, order: seq<nat>, placed: seq<real>, k: nat)
    requires |order| == |placed| && k < |order| && forall j :: 0 <= j < |order| ==> order[j] < |out|
    requires forall i, j :: 0 <= i < j < |order| ==> order[i] != order[j]
    ensures Scattered(out, order, placed)[order[k]] == placed[k]
  {
    var n := |order| - 1;
    if k < n { ScatteredAt(out, order[..n], placed[..n], k); }
  }

  // ---- the labels ----

  /** Where each label goes: its place k in the vertical order and the position there. */
  lemma PlaceOf(ys: seq<real>, gap: real, min: real, max: real, i: nat) returns (k: nat)
    requires i < |ys|
    ensures k < |OrderOf(ys)| == |ys| && OrderOf(ys)[k] == i
    ensures forall j :: 0 <= j < |OrderOf(ys)| ==> OrderOf(ys)[j] < |ys|
    ensures Spread(ys, gap, min, max)[i]
         == Pulled(Pushed(Clamped(ys, OrderOf(ys), min, max), gap), gap, max)[k]
  {
    OrderExact(ys);
    var order := OrderOf(ys);
    assert i in order;
    k :| 0 <= k < |order| && order[k] == i;
    ScatteredAt(ys, order, Pulled(Pushed(Clamped(ys, order, min, max), gap), gap, max), k);
  }

  /** Labels keep their vertical order, any two stay gap apart, and none is above max. */
  lemma LabelsApart(ys: seq<real>, gap: real, min: real, max: real, i: nat, j: nat)
    requires gap >= 0.0 && i < |ys| && j < |ys| && Above(ys)(i, j)
    ensures Spread(ys, gap, min, max)[i] + gap <= Spread(ys, gap, min, max)[j] <= max
  {
    OrderExact(ys);
    var k := PlaceOf(ys, gap, min, max, i);
    var l := PlaceOf(ys, gap, min, max, j);
    var p := Pushed(Clamped(ys, OrderOf(ys), min, max), gap);
    PulledSpaced(p, gap, max);
    assert k < l;
  }

  /** Every label is at or below max; it is at or above min, for all labels, exactly when they fit. */
  lemma LabelsFit(ys: seq<real>, gap: real, min: real, max: real)
    requires gap >= 0.0 && min <= max && ys != []
    ensures (forall i :: 0 <= i < |ys| ==> Spread(ys, gap, min, max)[i] >= min) <==> Lowest(|ys|, 0, gap, max) >= min
    ensures forall i :: 0 <= i < |ys| ==> Spread(ys, gap, min, max)[i] <= max
    ensures Lowest(|ys|, 0, gap, max) >= min <==> (|ys| - 1) as real * gap <= max - min
  {
    forall i: nat | i < |ys|
      ensures Lowest(|ys|, 0, gap, max) >= min ==> Spread(ys, gap, min, max)[i] >= min
      ensures Spread(ys, gap, min, max)[i] <= max
    {
      LabelInRange(ys, gap, min, max, i);
    }
    var first := FirstLabel(ys, gap, min, max);
  }

  lemma PassesExact(c: seq<real>, gap: real, max: real, k: nat)
    requires k < |c| && gap >= 0.0
    ensures c[k] <= Pushed(c, gap)[k]
    ensures Pulled(Pushed(c, gap), gap, max)[k] == Least(Pushed(c, gap)[k], Lowest(|c|, k, gap, max))
  {
    PushedSpaced(c, gap);
    PulledExact(Pushed(c, gap), gap, max, k);
  }

  /** A label ends at the position the first pass gave it, or as low as the labels after it allow. */
  lemma LabelExact(ys: seq<real>, gap: real, min: real, max: real, i: nat) returns (k: nat, wanted: real)
    requires min <= max && i < |ys| && gap >= 0.0
    ensures k < |OrderOf(ys)| == |ys| && OrderOf(ys)[k] == i && wanted >= min
    ensures forall j :: 0 <= j < |OrderOf(ys)| ==> OrderOf(ys)[j] < |ys|
    ensures wanted == Pushed(Clamped(ys, OrderOf(ys), min, max), gap)[k]
    ensures Spread(ys, gap, min, max)[i] == Least(wanted, Lowest(|ys|, k, gap, max))
  {
    k := PlaceOf(ys, gap, min, max, i);
    var c := Clamped(ys, OrderOf(ys), min, max);
    PassesExact(c, gap, max, k);
    wanted := Pushed(c, gap)[k];
  }

  lemma LowestInRange(n: nat, k: nat, gap: real, min: real, max: real)
    requires k < n && gap >= 0.0
    ensures Lowest(n, 0, gap, max) <= Lowest(n, k, gap, max) <= max
  {
    Fewer(n - 1 - k, n - 1, gap);
    Fewer(0, n - 1 - k, gap);
  }

  lemma LabelInRange(ys: seq<real>, gap: real, min: real, max: real, i: nat)
    requires gap >= 0.0 && min <= max && i < |ys|
    ensures Lowest(|ys|, 0, gap, max) >= min ==> Spread(ys, gap, min, max)[i] >= min
    ensures Spread(ys, gap, min, max)[i] <= max
  {
    var k, wanted := LabelExact(ys, gap, min, max, i);
    LowestInRange(|ys|, k, gap, min, max);
  }

  lemma FirstLabel(ys: seq<real>, gap: real, min: real, max: real) returns (first: nat)
    requires ys != [] && min <= max && gap >= 0.0
    ensures first < |ys| && Spread(ys, gap, min, max)[first] <= Lowest(|ys|, 0, gap, max)
  {
    OrderExact(ys);
    first := OrderOf(ys)[0];
    var k, wanted := LabelExact(ys, gap, min, max, first);
    assert k == 0;
  }

  lemma Fewer(a: nat, b: nat, gap: real)
    requires a <= b && gap >= 0.0
    ensures a as real * gap <= b as real * gap
  {}

  /** Labels already gap apart and in range stay where they are. */
  lemma WellSpacedStay(ys: seq<real>, gap: real, min: real, max: real)
    requires forall i :: 0 <= i < |ys| ==> min <= ys[i] <= max
    requires forall i: nat, j: nat :: i < |ys| && j < |ys| && Above(ys)(i, j) ==> ys[i] + gap <= ys[j]
    ensures Spread(ys, gap, min, max) == ys
  {
    OrderExact(ys);
    var order := OrderOf(ys);
    var c := Clamped(ys, order, min, max);
    forall k | 0 <= k < |c| ensures c[k] == ys[order[k]] {}
    forall k, l | 0 <= k < l < |c| ensures c[k] + gap <= c[l] {
      assert Above(ys)(order[k], order[l]);
    }
    PushedFixed(c, gap);
    PulledFixed(c, gap, max);
    forall i | 0 <= i < |ys| ensures Spread(ys, gap, min, max)[i] == ys[i] {
      var k := PlaceOf(ys, gap, min, max, i);
    }
  }

  // ---- the loops ----

  method PushDown(placed: array<real>, gap: real)
    modifies placed
    ensures placed[..] == Pushed(old(placed[..]), gap)
  {
    ghost var was := placed[..];
    var k := 1;
    while k < placed.Length
      invariant 1 <= k
      invariant k <= placed.Length ==> placed[..k] == Pushed(was[..k], gap) && placed[k..] == was[k..]
      invariant k > placed.Length ==> placed.Length == 0
    {
      assert was[..k + 1][..k] == was[..k];
      assert placed[k - 1] == Pushed(was[..k], gap)[k - 1];
      placed[k] := Most(placed[k], placed[k - 1] + gap);
      assert placed[..k + 1] == Pushed(was[..k], gap) + [placed[k]];
      k := k + 1;
    }
    assert placed[..] == placed[..placed.Length] && was[..placed.Length] == was;
  }

  method PullUp(placed: array<real>, gap: real, max: real)
    modifies placed
    ensures placed[..] == Pulled(old(placed[..]), gap, max)
  {
    ghost var was := placed[..];
    var k := placed.Length;
    while k > 0
      invariant 0 <= k <= placed.Length
      invariant placed[..k] == was[..k] && placed[k..] == Pulled(was[k..], gap, max)
    {
      k := k - 1;
      assert was[k..][1..] == was[k + 1..];
      var ceiling := if k == placed.Length - 1 then max else placed[k + 1] - gap;
      placed[k] := Least(placed[k], ceiling);
      assert placed[k..] == [placed[k]] + placed[k + 1..];
    }
    assert placed[..] == placed[0..] && was[0..] == was;
  }

  method HandBack(ys: seq<real>, order: seq<nat>, placed: array<real>) returns (out: array<real>)
    requires |order| == placed.Length && forall k :: 0 <= k < |order| ==> order[k] < |ys|
    ensures fresh(out) && out[..] == Scattered(ys, order, placed[..])
  {
    out := new real[|ys|](i requires 0 <= i < |ys| => ys[i]);
    assert out[..] == ys;
    ghost var final := placed[..];
    for k := 0 to |order|
      invariant placed[..] == final
      invariant out[..] == Scattered(ys, order[..k], final[..k])
    {
      assert order[..k + 1][..k] == order[..k] && final[..k + 1][..k] == final[..k];
      out[order[k]] := placed[k];
    }
    assert order[..|order|] == order && final[..|order|] == final;
  }

  method SpreadLabels(ys: seq<real>, gap: real, min: real, max: real) returns (out: array<real>)
    ensures fresh(out) && out[..] == Spread(ys, gap, min, max)
  {
    OrderInRange(ys);
    var order := OrderOf(ys);
    var clamped := Clamped(ys, order, min, max);
    var placed := new real[|order|](k requires 0 <= k < |clamped| => clamped[k]);
    assert placed[..] == clamped;
    PushDown(placed, gap);
    PullUp(placed, gap, max);
    out := HandBack(ys, order, placed);
  }
}
