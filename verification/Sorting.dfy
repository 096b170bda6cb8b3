/** Array.prototype.sort with a comparison: a stable insertion order. */
module Sorting {
  /** before is a strict order: what must stand earlier. */
  ghost predicate StrictOrder<T(!new)>(before: (T, T) -> bool) {
    && (forall x, y :: before(x, y) ==> !before(y, x))
    && (forall x, y, z :: before(x, y) && before(y, z) ==> before(x, z))
  }

  ghost predicate SortedBy<T>(s: seq<T>, before: (T, T) -> bool) {
    forall i, j :: 0 <= i < j < |s| ==> !before(s[j], s[i])
  }

  function Insert<T>(s: seq<T>, before: (T, T) -> bool, x: T): seq<T> {
    if s == [] then [x]
    else if before(x, s[0]) then [x] + s
    else [s[0]] + Insert(s[1..], before, x)
  }

  function Sorted<T>(xs: seq<T>, before: (T, T) -> bool): seq<T> {
    if xs == [] then [] else Insert(Sorted(xs[..|xs| - 1], before), before, xs[|xs| - 1])
  }

  lemma {:induction false} InsertMembers<T(!new)>(s: seq<T>, before: (T, T) -> bool, x: T)
    ensures multiset(Insert(s, before, x)) == multiset(s) + multiset{x}
    ensures forall y :: y in Insert(s, before, x) <==> y in s || y == x
  {
    if s != [] {
      assert s == [s[0]] + s[1..];
      InsertMembers(s[1..], before, x);
    }
  }

  lemma {:induction false} InsertSorts<T(!new)>(s: seq<T>, before: (T, T) -> bool, x: T)
    requires StrictOrder(before) && SortedBy(s, before)
    ensures SortedBy(Insert(s, before, x), before)
  {
    if s != [] {
      if before(x, s[0]) {
        forall j | 0 <= j < |s| ensures !before(s[j], x) {
          assert j == 0 || !before(s[j], s[0]);
        }
      } else {
        InsertSorts(s[1..], before, x);
        InsertMembers(s[1..], before, x);
        var rest := Insert(s[1..], before, x);
        forall j | 0 <= j < |rest| ensures !before(rest[j], s[0]) {
          assert rest[j] in rest;
          if rest[j] != x { assert rest[j] in s[1..]; }
        }
      }
    }
  }

  /** Sorting permutes and orders. */
  lemma {:induction false} SortedIsSorted<T(!new)>(xs: seq<T>, before: (T, T) -> bool)
    requires StrictOrder(before)
    ensures SortedBy(Sorted(xs, before), before)
    ensures multiset(Sorted(xs, before)) == multiset(xs)
    ensures |Sorted(xs, before)| == |xs|
    ensures forall x :: x in Sorted(xs, before) <==> x in xs
  {
    if xs != [] {
      var init := xs[..|xs| - 1];
      assert xs == init + [xs[|xs| - 1]];
      SortedIsSorted(init, before);
      InsertSorts(Sorted(init, before), before, xs[|xs| - 1]);
      InsertMembers(Sorted(init, before), before, xs[|xs| - 1]);
    }
    assert |multiset(Sorted(xs, before))| == |multiset(xs)|;
  }

  /** The head is preceded by nothing. */
  lemma HeadIsFirst<T(!new)>(xs: seq<T>, before: (T, T) -> bool)
    requires StrictOrder(before) && xs != []
    ensures Sorted(xs, before) != [] && Sorted(xs, before)[0] in xs
    ensures forall x :: x in xs ==> x == Sorted(xs, before)[0] || !before(x, Sorted(xs, before)[0])
  {
    SortedIsSorted(xs, before);
    var s := Sorted(xs, before);
    assert s[0] in s;
    forall x | x in xs ensures x == s[0] || !before(x, s[0]) {
      assert x in s;
      var i :| 0 <= i < |s| && s[i] == x;
    }
  }
}
