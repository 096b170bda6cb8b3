/** Absent or present values. */
module Options {
  datatype Option<+T> = None | Some(value: T)
}

/**
 * Insertion-ordered keyed lists: what a JavaScript Map (or Set) means to the
 * merges. A Map whose entries are stored under a key computed from the value is
 * the sequence of its values; setting a present key keeps its place, setting an
 * absent key appends.
 */
module KeyedLists {
  import opened Options

  function Keys<T, K>(s: seq<T>, key: T -> K): (ks: seq<K>)
    ensures |ks| == |s|
    ensures forall i :: 0 <= i < |s| ==> ks[i] == key(s[i])
  {
    seq(|s|, i requires 0 <= i < |s| => key(s[i]))
  }

  predicate Distinct<K(==)>(ks: seq<K>) {
    forall i, j :: 0 <= i < j < |ks| ==> ks[i] != ks[j]
  }

  /** Position of the first element stored under k, or |s|. */
  function Find<T, K(==)>(s: seq<T>, key: T -> K, k: K): (i: nat)
    ensures i <= |s|
    ensures i < |s| ==> key(s[i]) == k
    ensures forall j :: 0 <= j < i ==> key(s[j]) != k
  {
    if s == [] then 0 else if key(s[0]) == k then 0 else 1 + Find(s[1..], key, k)
  }

  function At<T, K(==)>(s: seq<T>, key: T -> K, k: K): Option<T> {
    var i := Find(s, key, k);
    if i < |s| then Some(s[i]) else None
  }

  /** Store x under its key; a value already there is combined with x. */
  function Upsert<T, K(==)>(s: seq<T>, key: T -> K, combine: (T, T) -> T, x: T): seq<T> {
    var i := Find(s, key, key(x));
    if i < |s| then s[i := combine(s[i], x)] else s + [x]
  }

  function UpsertAll<T, K(==)>(s: seq<T>, key: T -> K, combine: (T, T) -> T, xs: seq<T>): seq<T> {
    if xs == [] then s
    else Upsert(UpsertAll(s, key, combine, xs[..|xs| - 1]), key, combine, xs[|xs| - 1])
  }

  /** The combination rule of Map.set: the later value wins. */
  function Newest<T>(v: T, x: T): T { x }

  /** Map.set for each value in turn. */
  function PutAll<T, K(==)>(s: seq<T>, key: T -> K, xs: seq<T>): seq<T> {
    UpsertAll(s, key, Newest, xs)
  }

  /** The keys of a keyed list after more keys were stored: first occurrences, in order. */
  function Joined<K(==)>(ks: seq<K>, js: seq<K>): seq<K> {
    if js == [] then ks
    else
      var r := Joined(ks, js[..|js| - 1]);
      if js[|js| - 1] in r then r else r + [js[|js| - 1]]
  }

  /** Append the values whose key has not been seen yet; existing values stay. */
  function AppendUnique<T, K(==)>(s: seq<T>, key: T -> K, xs: seq<T>): seq<T> {
    if xs == [] then s
    else
      var r := AppendUnique(s, key, xs[..|xs| - 1]);
      if key(xs[|xs| - 1]) in Keys(r, key) then r else r + [xs[|xs| - 1]]
  }

  /** What one key holds after xs were stored, given what it held before. */
  function Fold<T, K(==)>(o: Option<T>, key: T -> K, combine: (T, T) -> T, xs: seq<T>, k: K): Option<T> {
    if xs == [] then o
    else
      var x := xs[|xs| - 1];
      var before := Fold(o, key, combine, xs[..|xs| - 1], k);
      if key(x) != k then before
      else if before.None? then Some(x) else Some(combine(before.value, x))
  }

  /** combine keeps the key, is associative, and repeats nothing on good values. */
  ghost predicate Lawful<T(!new), K(!new)>(key: T -> K, combine: (T, T) -> T, good: T -> bool) {
    && (forall v, x :: key(v) == key(x) ==> key(combine(v, x)) == key(v))
    && (forall v, x, y :: key(v) == key(x) == key(y) ==>
          combine(combine(v, x), y) == combine(v, combine(x, y)))
    && (forall v, x :: key(v) == key(x) && good(v) && good(x) ==> good(combine(v, x)))
    && (forall v :: good(v) ==> combine(v, v) == v)
  }

  ghost predicate KeepsKey<T(!new), K(!new)>(key: T -> K, combine: (T, T) -> T) {
    forall v, x :: key(v) == key(x) ==> key(combine(v, x)) == key(v)
  }

  // ---- keys of the result ----

  lemma UpsertKeys<T(!new), K(!new)>(s: seq<T>, key: T -> K, combine: (T, T) -> T, x: T)
    requires KeepsKey(key, combine)
    ensures Keys(Upsert(s, key, combine, x), key)
         == if key(x) in Keys(s, key) then Keys(s, key) else Keys(s, key) + [key(x)]
  {
    var i := Find(s, key, key(x));
    if i < |s| {
      assert Keys(s, key)[i] == key(x);
    }
  }

  lemma {:induction false} UpsertAllKeys<T(!new), K(!new)>(s: seq<T>, key: T -> K, combine: (T, T) -> T, xs: seq<T>)
    requires KeepsKey(key, combine)
    ensures Keys(UpsertAll(s, key, combine, xs), key) == Joined(Keys(s, key), Keys(xs, key))
  {
    if xs != [] {
      var init := xs[..|xs| - 1];
      UpsertAllKeys(s, key, combine, init);
      UpsertKeys(UpsertAll(s, key, combine, init), key, combine, xs[|xs| - 1]);
      assert Keys(xs, key)[..|xs| - 1] == Keys(init, key);
    }
  }

  lemma {:induction false} JoinedDistinct<K>(ks: seq<K>, js: seq<K>)
    requires Distinct(ks)
    ensures Distinct(Joined(ks, js))
  {
    if js != [] { JoinedDistinct(ks, js[..|js| - 1]); }
  }

  /** Joining adds exactly the keys that were missing, behind what was there. */
  lemma {:induction false} JoinedMembers<K>(ks: seq<K>, js: seq<K>)
    ensures ks <= Joined(ks, js)
    ensures forall k :: k in Joined(ks, js) <==> k in ks || k in js
  {
    if js != [] {
      JoinedMembers(ks, js[..|js| - 1]);
      assert js == js[..|js| - 1] + [js[|js| - 1]];
    }
  }

  lemma {:induction false} JoinedKnown<K>(ks: seq<K>, js: seq<K>)
    requires forall k :: k in js ==> k in ks
    ensures Joined(ks, js) == ks
  {
    if js != [] { JoinedKnown(ks, js[..|js| - 1]); }
  }

  lemma {:induction false} JoinedAppend<K>(ks: seq<K>, js: seq<K>, ls: seq<K>)
    ensures Joined(ks, js + ls) == Joined(Joined(ks, js), ls)
  {
    if ls == [] {
      assert js + ls == js;
    } else {
      JoinedAppend(ks, js, ls[..|ls| - 1]);
      assert (js + ls)[..|js + ls| - 1] == js + ls[..|ls| - 1];
    }
  }

  /** Re-joining a prefix, or joining it first, changes nothing. */
  lemma JoinedPrefix<K>(ks: seq<K>, js: seq<K>, ls: seq<K>)
    requires js <= ls
    ensures Joined(Joined(ks, js), ls) == Joined(ks, ls)
    ensures Joined(Joined(ks, ls), js) == Joined(ks, ls)
  {
    assert ls == js + ls[|js|..];
    JoinedAppend(ks, js, ls[|js|..]);
    JoinedAppend(Joined(ks, js), js, ls[|js|..]);
    JoinedMembers(ks, js);
    JoinedKnown(Joined(ks, js), js);
    JoinedMembers(ks, ls);
    JoinedKnown(Joined(ks, ls), js);
  }

  // ---- values of the result ----

  lemma UpsertAt<T(!new), K(!new)>(s: seq<T>, key: T -> K, combine: (T, T) -> T, x: T, k: K)
    requires KeepsKey(key, combine)
    ensures At(Upsert(s, key, combine, x), key, k) == Fold(At(s, key, k), key, combine, [x], k)
  {
    var i := Find(s, key, key(x));
    var r := Upsert(s, key, combine, x);
    var j := Find(r, key, k);
    var j0 := Find(s, key, k);
    if key(x) == k {
      assert key(r[i]) == k;
      assert forall m :: 0 <= m < i ==> key(r[m]) == key(s[m]);
      assert j == i;
    } else {
      assert forall m :: 0 <= m < |s| ==> key(r[m]) == key(s[m]);
      assert j0 < |s| ==> j == j0 && r[j] == s[j0];
      assert j0 == |s| ==> j == |r|;
    }
  }

  lemma {:induction false} UpsertAllAt<T(!new), K(!new)>(s: seq<T>, key: T -> K, combine: (T, T) -> T, xs: seq<T>, k: K)
    requires KeepsKey(key, combine)
    ensures At(UpsertAll(s, key, combine, xs), key, k) == Fold(At(s, key, k), key, combine, xs, k)
  {
    if xs != [] {
      var init := xs[..|xs| - 1];
      UpsertAllAt(s, key, combine, init, k);
      UpsertAt(UpsertAll(s, key, combine, init), key, combine, xs[|xs| - 1], k);
    }
  }

  lemma FindDistinct<T, K>(s: seq<T>, key: T -> K, i: nat)
    requires i < |s| && Distinct(Keys(s, key))
    ensures Find(s, key, key(s[i])) == i
  {
    var j := Find(s, key, key(s[i]));
    assert j <= i;
    assert Keys(s, key)[j] == Keys(s, key)[i];
  }

  /** A keyed list is its key order plus what each key holds. */
  lemma Extensional<T(!new), K(!new)>(a: seq<T>, b: seq<T>, key: T -> K)
    requires Distinct(Keys(a, key)) && Keys(a, key) == Keys(b, key)
    requires forall k :: k in Keys(a, key) ==> At(a, key, k) == At(b, key, k)
    ensures a == b
  {
    forall i | 0 <= i < |a| ensures a[i] == b[i] {
      FindDistinct(a, key, i);
      FindDistinct(b, key, i);
      var k := Keys(a, key)[i];
      assert k == Keys(b, key)[i];
      assert At(a, key, k) == At(b, key, k);
    }
  }

  lemma {:induction false} UpsertAllAppend<T, K>(s: seq<T>, key: T -> K, combine: (T, T) -> T, xs: seq<T>, ys: seq<T>)
    ensures UpsertAll(s, key, combine, xs + ys) == UpsertAll(UpsertAll(s, key, combine, xs), key, combine, ys)
  {
    if ys == [] {
      assert xs + ys == xs;
    } else {
      UpsertAllAppend(s, key, combine, xs, ys[..|ys| - 1]);
      assert (xs + ys)[..|xs + ys| - 1] == xs + ys[..|ys| - 1];
    }
  }

  // ---- folding one key ----

  lemma {:induction false} FoldKeepsKey<T(!new), K(!new)>(o: Option<T>, key: T -> K, combine: (T, T) -> T, good: T -> bool, xs: seq<T>, k: K)
    requires Lawful(key, combine, good)
    requires o.Some? ==> key(o.value) == k
    ensures Fold(o, key, combine, xs, k).Some? ==> key(Fold(o, key, combine, xs, k).value) == k
    ensures o.None? && (forall x :: x in xs ==> good(x)) && Fold(o, key, combine, xs, k).Some?
         ==> good(Fold(o, key, combine, xs, k).value)
    ensures o.Some? || k in Keys(xs, key) <==> Fold(o, key, combine, xs, k).Some?
  {
    if xs != [] {
      var init := xs[..|xs| - 1];
      FoldKeepsKey(o, key, combine, good, init, k);
      assert Keys(xs, key) == Keys(init, key) + [key(xs[|xs| - 1])];
    }
  }

  /** Folding xs onto v is combining v with the fold of xs alone. */
  lemma {:induction false} FoldOnto<T(!new), K(!new)>(v: T, key: T -> K, combine: (T, T) -> T, good: T -> bool, xs: seq<T>, k: K)
    requires Lawful(key, combine, good) && key(v) == k
    ensures var alone := Fold(None, key, combine, xs, k);
            Fold(Some(v), key, combine, xs, k) == if alone.None? then Some(v) else Some(combine(v, alone.value))
  {
    if xs != [] {
      FoldOnto(v, key, combine, good, xs[..|xs| - 1], k);
      FoldKeepsKey(None, key, combine, good, xs[..|xs| - 1], k);
    }
  }

  lemma FoldTwice<T(!new), K(!new)>(o: Option<T>, key: T -> K, combine: (T, T) -> T, good: T -> bool, xs: seq<T>, k: K)
    requires Lawful(key, combine, good) && forall x :: x in xs ==> good(x)
    requires o.Some? ==> key(o.value) == k
    ensures Fold(Fold(o, key, combine, xs, k), key, combine, xs, k) == Fold(o, key, combine, xs, k)
  {
    FoldKeepsKey(None, key, combine, good, xs, k);
    FoldKeepsKey(o, key, combine, good, xs, k);
    if o.Some? { FoldOnto(o.value, key, combine, good, xs, k); }
    var once := Fold(o, key, combine, xs, k);
    if once.Some? { FoldOnto(once.value, key, combine, good, xs, k); }
  }

  lemma {:induction false} FoldAbsentKey<T(!new), K(!new)>(o: Option<T>, key: T -> K, combine: (T, T) -> T, xs: seq<T>, k: K)
    requires k !in Keys(xs, key)
    ensures Fold(o, key, combine, xs, k) == o
  {
    if xs != [] {
      assert Keys(xs, key) == Keys(xs[..|xs| - 1], key) + [key(xs[|xs| - 1])];
      FoldAbsentKey(o, key, combine, xs[..|xs| - 1], k);
    }
  }

  lemma {:induction false} FoldAppend<T, K>(o: Option<T>, key: T -> K, combine: (T, T) -> T, xs: seq<T>, ys: seq<T>, k: K)
    ensures Fold(o, key, combine, xs + ys, k) == Fold(Fold(o, key, combine, xs, k), key, combine, ys, k)
  {
    if ys == [] {
      assert xs + ys == xs;
    } else {
      FoldAppend(o, key, combine, xs, ys[..|ys| - 1], k);
      assert (xs + ys)[..|xs + ys| - 1] == xs + ys[..|ys| - 1];
    }
  }

  // ---- laws of repeated merging ----

  lemma AtKeepsKey<T, K>(s: seq<T>, key: T -> K, k: K)
    ensures At(s, key, k).Some? ==> key(At(s, key, k).value) == k
  {}

  lemma UpsertAllDistinct<T(!new), K(!new)>(s: seq<T>, key: T -> K, combine: (T, T) -> T, xs: seq<T>)
    requires KeepsKey(key, combine) && Distinct(Keys(s, key))
    ensures Distinct(Keys(UpsertAll(s, key, combine, xs), key))
  {
    UpsertAllKeys(s, key, combine, xs);
    JoinedDistinct(Keys(s, key), Keys(xs, key));
  }

  /** Merging the same records twice is merging them once. */
  lemma UpsertAllTwice<T(!new), K(!new)>(s: seq<T>, key: T -> K, combine: (T, T) -> T, good: T -> bool, xs: seq<T>)
    requires Lawful(key, combine, good) && Distinct(Keys(s, key))
    requires forall x :: x in xs ==> good(x)
    ensures var once := UpsertAll(s, key, combine, xs);
            UpsertAll(once, key, combine, xs) == once
  {
    var once := UpsertAll(s, key, combine, xs);
    var twice := UpsertAll(once, key, combine, xs);
    UpsertAllDistinct(s, key, combine, xs);
    UpsertAllKeys(s, key, combine, xs);
    UpsertAllKeys(once, key, combine, xs);
    JoinedMembers(Keys(s, key), Keys(xs, key));
    JoinedKnown(Keys(once, key), Keys(xs, key));
    forall k | k in Keys(once, key) ensures At(once, key, k) == At(twice, key, k) {
      UpsertAllAt(s, key, combine, xs, k);
      UpsertAllAt(once, key, combine, xs, k);
      AtKeepsKey(s, key, k);
      FoldTwice(At(s, key, k), key, combine, good, xs, k);
    }
    Extensional(once, twice, key);
  }

  /** An older list (a prefix) merged before the newer one leaves no trace. */
  lemma UpsertAllOlderFirst<T(!new), K(!new)>(s: seq<T>, key: T -> K, combine: (T, T) -> T, good: T -> bool, older: seq<T>, newer: seq<T>)
    requires Lawful(key, combine, good) && Distinct(Keys(s, key))
    requires older <= newer && forall x :: x in newer ==> good(x)
    ensures UpsertAll(UpsertAll(s, key, combine, older), key, combine, newer) == UpsertAll(s, key, combine, newer)
  {
    var rest := newer[|older|..];
    assert newer == older + rest;
    UpsertAllTwice(s, key, combine, good, older);
    UpsertAllAppend(s, key, combine, older, rest);
    UpsertAllAppend(UpsertAll(s, key, combine, older), key, combine, older, rest);
  }

  /** A late older list (a prefix, distinct keys) merged after the newer one changes nothing. */
  lemma UpsertAllOlderLast<T(!new), K(!new)>(s: seq<T>, key: T -> K, combine: (T, T) -> T, good: T -> bool, older: seq<T>, newer: seq<T>)
    requires Lawful(key, combine, good) && Distinct(Keys(s, key))
    requires older <= newer && Distinct(Keys(newer, key)) && forall x :: x in newer ==> good(x)
    ensures UpsertAll(UpsertAll(s, key, combine, newer), key, combine, older) == UpsertAll(s, key, combine, newer)
  {
    var merged := UpsertAll(s, key, combine, newer);
    var again := UpsertAll(merged, key, combine, older);
    var rest := newer[|older|..];
    assert newer == older + rest;
    UpsertAllDistinct(s, key, combine, newer);
    UpsertAllKeys(s, key, combine, newer);
    UpsertAllKeys(merged, key, combine, older);
    JoinedMembers(Keys(s, key), Keys(newer, key));
    assert forall k :: k in Keys(older, key) ==> k in Keys(newer, key) by {
      assert Keys(older, key) <= Keys(newer, key);
    }
    JoinedKnown(Keys(merged, key), Keys(older, key));
    forall k | k in Keys(merged, key) ensures At(merged, key, k) == At(again, key, k) {
      UpsertAllAt(s, key, combine, newer, k);
      UpsertAllAt(merged, key, combine, older, k);
      FoldAppend(At(s, key, k), key, combine, older, rest, k);
      AtKeepsKey(s, key, k);
      if k in Keys(older, key) {
        PrefixKeyNotInRest(key, older, rest, k);
        FoldAbsentKey(Fold(At(s, key, k), key, combine, older, k), key, combine, rest, k);
        FoldTwice(At(s, key, k), key, combine, good, older, k);
      } else {
        FoldAbsentKey(At(merged, key, k), key, combine, older, k);
      }
    }
    Extensional(merged, again, key);
  }

  lemma PrefixKeyNotInRest<T, K>(key: T -> K, older: seq<T>, rest: seq<T>, k: K)
    requires Distinct(Keys(older + rest, key)) && k in Keys(older, key)
    ensures k !in Keys(rest, key)
  {
    var i :| 0 <= i < |older| && Keys(older, key)[i] == k;
    forall j | 0 <= j < |rest| ensures Keys(rest, key)[j] != k {
      var ks := Keys(older + rest, key);
      assert ks[i] == k && ks[|older| + j] == key(rest[j]);
    }
  }

  /** With Map.set only the newest value of a key survives, so keys decide the order. */
  lemma PutAllNewerKeys<T(!new), K(!new)>(s: seq<T>, key: T -> K, older: seq<T>, newer: seq<T>)
    requires Distinct(Keys(s, key)) && Keys(older, key) <= Keys(newer, key)
    ensures PutAll(PutAll(s, key, older), key, newer) == PutAll(s, key, newer)
  {
    var first := PutAll(s, key, older);
    var a, b := PutAll(first, key, newer), PutAll(s, key, newer);
    UpsertAllKeys(s, key, Newest, older);
    UpsertAllKeys(first, key, Newest, newer);
    UpsertAllKeys(s, key, Newest, newer);
    JoinedPrefix(Keys(s, key), Keys(older, key), Keys(newer, key));
    UpsertAllDistinct(s, key, Newest, newer);
    forall k | k in Keys(a, key) ensures At(a, key, k) == At(b, key, k) {
      UpsertAllAt(s, key, Newest, older, k);
      UpsertAllAt(first, key, Newest, newer, k);
      UpsertAllAt(s, key, Newest, newer, k);
      if k in Keys(newer, key) {
        FoldNewest(At(first, key, k), At(s, key, k), key, newer, k);
      } else {
        FoldAbsentKey(At(first, key, k), key, Newest, newer, k);
        FoldAbsentKey(At(s, key, k), key, Newest, newer, k);
        FoldAbsentKey(At(s, key, k), key, Newest, older, k);
      }
    }
    Extensional(a, b, key);
  }

  lemma {:induction false} FoldNewest<T(!new), K(!new)>(o: Option<T>, p: Option<T>, key: T -> K, xs: seq<T>, k: K)
    requires k in Keys(xs, key)
    ensures Fold(o, key, Newest, xs, k) == Fold(p, key, Newest, xs, k)
  {
    var init := xs[..|xs| - 1];
    assert Keys(xs, key) == Keys(init, key) + [key(xs[|xs| - 1])];
    if key(xs[|xs| - 1]) != k { FoldNewest(o, p, key, init, k); }
  }

  lemma NewestLawful<T(!new), K(!new)>(key: T -> K)
    ensures Lawful(key, Newest, (x: T) => true)
  {}

  /** Storing a list with distinct keys over its own prefix gives the list back. */
  lemma {:induction false} PutAllOverPrefix<T(!new), K(!new)>(a: seq<T>, key: T -> K, b: seq<T>)
    requires Distinct(Keys(b, key)) && Keys(a, key) <= Keys(b, key)
    ensures PutAll(a, key, b) == b
  {
    var r := PutAll(a, key, b);
    UpsertAllKeys(a, key, Newest, b);
    JoinedPrefix([], Keys(a, key), Keys(b, key));
    JoinedFresh(Keys(a, key));
    JoinedFresh(Keys(b, key));
    forall k | k in Keys(b, key) ensures At(r, key, k) == At(b, key, k) {
      UpsertAllAt(a, key, Newest, b, k);
      LatestOfDistinct(At(a, key, k), key, b, k);
    }
    Extensional(b, r, key);
  }

  /** The values of a list whose keys begin those of a longer one, combined with its values place by place. */
  function Overlaid<T>(a: seq<T>, combine: (T, T) -> T, xs: seq<T>): (r: seq<T>)
    requires |a| <= |xs|
    ensures |r| == |xs|
    ensures forall i :: 0 <= i < |xs| ==> r[i] == if i < |a| then combine(a[i], xs[i]) else xs[i]
  {
    seq(|xs|, i requires 0 <= i < |xs| => if i < |a| then combine(a[i], xs[i]) else xs[i])
  }

  lemma UpsertNext<T, K>(s: seq<T>, key: T -> K, combine: (T, T) -> T, x: T, n: nat)
    requires n <= |s| && (forall i :: 0 <= i < n ==> key(s[i]) != key(x)) && (n < |s| ==> key(s[n]) == key(x))
    ensures Upsert(s, key, combine, x) == if n < |s| then s[n := combine(s[n], x)] else s + [x]
  {
    var j := Find(s, key, key(x));
    assert j >= n;
  }

  /** Upserting a list with distinct keys over a list with a prefix of them keeps every place. */
  lemma UpsertAllOverPrefix<T(!new), K(!new)>(a: seq<T>, key: T -> K, combine: (T, T) -> T, xs: seq<T>)
    requires KeepsKey(key, combine) && Distinct(Keys(xs, key)) && Keys(a, key) <= Keys(xs, key)
    ensures UpsertAll(a, key, combine, xs) == Overlaid(a, combine, xs)
  {
    UpsertAllOverPart(a, key, combine, xs, |xs|);
    assert xs[..|xs|] == xs;
  }

  lemma {:induction false} UpsertAllOverPart<T(!new), K(!new)>(a: seq<T>, key: T -> K, combine: (T, T) -> T, xs: seq<T>, n: nat)
    requires KeepsKey(key, combine) && Distinct(Keys(xs, key)) && Keys(a, key) <= Keys(xs, key) && n <= |xs|
    ensures var r := UpsertAll(a, key, combine, xs[..n]);
            && |r| == (if n <= |a| then |a| else n)
            && (forall i :: 0 <= i < n ==> r[i] == Overlaid(a, combine, xs)[i])
            && (forall i :: n <= i < |a| ==> r[i] == a[i])
  {
    if n > 0 {
      var m := n - 1;
      UpsertAllOverPart(a, key, combine, xs, m);
      assert xs[..n][..m] == xs[..m];
      var before := UpsertAll(a, key, combine, xs[..m]);
      SameKeys(a, key, xs);
      forall i | 0 <= i < m ensures key(before[i]) != key(xs[m]) {
        assert Keys(xs, key)[i] != Keys(xs, key)[m];
        assert key(before[i]) == key(xs[i]);
      }
      UpsertNext(before, key, combine, xs[m], m);
    }
  }

  lemma SameKeys<T, K>(a: seq<T>, key: T -> K, xs: seq<T>)
    requires Keys(a, key) <= Keys(xs, key)
    ensures |a| <= |xs| && forall i :: 0 <= i < |a| ==> key(a[i]) == key(xs[i])
  {
    assert forall i :: 0 <= i < |a| ==> Keys(a, key)[i] == Keys(xs, key)[i];
  }

  lemma {:induction false} JoinedFresh<K>(ks: seq<K>)
    requires Distinct(ks)
    ensures Joined([], ks) == ks
  {
    if ks != [] {
      JoinedFresh(ks[..|ks| - 1]);
      assert ks == ks[..|ks| - 1] + [ks[|ks| - 1]];
    }
  }

  lemma {:induction false} LatestOfDistinct<T(!new), K(!new)>(o: Option<T>, key: T -> K, b: seq<T>, k: K)
    requires Distinct(Keys(b, key)) && k in Keys(b, key)
    ensures Fold(o, key, Newest, b, k) == At(b, key, k)
  {
    var n := |b| - 1;
    var init := b[..n];
    assert Keys(b, key) == Keys(init, key) + [key(b[n])];
    if key(b[n]) == k {
      FindDistinct(b, key, n);
    } else {
      assert Keys(init, key) <= Keys(b, key);
      LatestOfDistinct(o, key, init, k);
      var i := Find(init, key, k);
      assert Keys(init, key)[i] == k;
      FindDistinct(b, key, i);
    }
  }

  // ---- appending unseen values ----

  /** Existing values stay in place; only values under unseen keys are added. */
  lemma {:induction false} AppendUniqueAdds<T, K>(s: seq<T>, key: T -> K, xs: seq<T>)
    ensures s <= AppendUnique(s, key, xs)
    ensures Keys(AppendUnique(s, key, xs), key) == Joined(Keys(s, key), Keys(xs, key))
    ensures forall i :: |s| <= i < |AppendUnique(s, key, xs)| ==>
              AppendUnique(s, key, xs)[i] in xs && key(AppendUnique(s, key, xs)[i]) !in Keys(s, key)
  {
    if xs != [] {
      var init, r := xs[..|xs| - 1], AppendUnique(s, key, xs[..|xs| - 1]);
      AppendUniqueAdds(s, key, init);
      assert Keys(xs, key)[..|xs| - 1] == Keys(init, key);
      assert Keys(r + [xs[|xs| - 1]], key) == Keys(r, key) + [key(xs[|xs| - 1])];
      assert forall i :: 0 <= i < |s| ==> Keys(r, key)[i] == key(s[i]) == Keys(s, key)[i];
      assert forall k :: k in Keys(s, key) ==> k in Keys(r, key) by {
        assert Keys(s, key) <= Keys(r, key);
      }
    }
  }

  lemma {:induction false} AppendUniqueKnown<T, K>(s: seq<T>, key: T -> K, xs: seq<T>)
    requires forall x :: x in xs ==> key(x) in Keys(s, key)
    ensures AppendUnique(s, key, xs) == s
  {
    if xs != [] { AppendUniqueKnown(s, key, xs[..|xs| - 1]); }
  }

  lemma {:induction false} AppendUniqueAppend<T, K>(s: seq<T>, key: T -> K, xs: seq<T>, ys: seq<T>)
    ensures AppendUnique(s, key, xs + ys) == AppendUnique(AppendUnique(s, key, xs), key, ys)
  {
    if ys == [] {
      assert xs + ys == xs;
    } else {
      AppendUniqueAppend(s, key, xs, ys[..|ys| - 1]);
      assert (xs + ys)[..|xs + ys| - 1] == xs + ys[..|ys| - 1];
    }
  }

  lemma KeyOfMember<T, K>(s: seq<T>, key: T -> K, x: T)
    requires x in s
    ensures key(x) in Keys(s, key)
  {
    var i :| 0 <= i < |s| && s[i] == x;
    assert Keys(s, key)[i] == key(x);
  }

  lemma AppendUniqueSeen<T, K>(s: seq<T>, key: T -> K, xs: seq<T>)
    ensures forall x :: x in xs ==> key(x) in Keys(AppendUnique(s, key, xs), key)
  {
    AppendUniqueAdds(s, key, xs);
    JoinedMembers(Keys(s, key), Keys(xs, key));
    forall x | x in xs ensures key(x) in Keys(AppendUnique(s, key, xs), key) {
      KeyOfMember(xs, key, x);
      assert key(x) in Joined(Keys(s, key), Keys(xs, key));
    }
  }

  /** A prefix appended before or after the longer list leaves no trace. */
  lemma AppendUniquePrefix<T, K>(s: seq<T>, key: T -> K, older: seq<T>, newer: seq<T>)
    requires older <= newer
    ensures AppendUnique(AppendUnique(s, key, older), key, newer) == AppendUnique(s, key, newer)
    ensures AppendUnique(AppendUnique(s, key, newer), key, older) == AppendUnique(s, key, newer)
  {
    var rest := newer[|older|..];
    assert newer == older + rest;
    AppendUniqueAppend(s, key, older, rest);
    AppendUniqueAppend(AppendUnique(s, key, older), key, older, rest);
    AppendUniqueSeen(s, key, older);
    AppendUniqueKnown(AppendUnique(s, key, older), key, older);
    AppendUniqueSeen(s, key, newer);
    AppendUniqueKnown(AppendUnique(s, key, newer), key, older);
  }

  lemma {:induction false} AppendUniqueAssociative<T, K>(a: seq<T>, key: T -> K, b: seq<T>, c: seq<T>)
    ensures AppendUnique(AppendUnique(a, key, b), key, c) == AppendUnique(a, key, AppendUnique(b, key, c))
  {
    if c != [] {
      var init, x := c[..|c| - 1], c[|c| - 1];
      AppendUniqueAssociative(a, key, b, init);
      var bc := AppendUnique(b, key, init);
      if key(x) in Keys(bc, key) {
        AppendUniqueAdds(a, key, bc);
        JoinedMembers(Keys(a, key), Keys(bc, key));
        assert key(x) in Joined(Keys(a, key), Keys(bc, key));
      } else {
        assert (bc + [x])[..|bc + [x]| - 1] == bc;
      }
    }
  }

  /** Only the last value of each key matters to Map.set. */
  lemma PutAllLatest<T(!new), K(!new)>(s: seq<T>, key: T -> K, xs: seq<T>)
    requires Distinct(Keys(s, key))
    ensures PutAll(s, key, PutAll([], key, xs)) == PutAll(s, key, xs)
  {
    var latest := PutAll([], key, xs);
    var a, b := PutAll(s, key, latest), PutAll(s, key, xs);
    UpsertAllKeys([], key, Newest, xs);
    UpsertAllDistinct([], key, Newest, xs);
    UpsertAllKeys(s, key, Newest, latest);
    UpsertAllKeys(s, key, Newest, xs);
    JoinedLatest(Keys(s, key), Keys(xs, key));
    UpsertAllDistinct(s, key, Newest, xs);
    forall k | k in Keys(a, key) ensures At(a, key, k) == At(b, key, k) {
      UpsertAllAt(s, key, Newest, latest, k);
      UpsertAllAt(s, key, Newest, xs, k);
      UpsertAllAt([], key, Newest, xs, k);
      JoinedMembers([], Keys(xs, key));
      if k in Keys(xs, key) {
        LatestOfDistinct(At(s, key, k), key, latest, k);
        FoldNewest(At(s, key, k), None, key, xs, k);
      } else {
        FoldAbsentKey(At(s, key, k), key, Newest, latest, k);
        FoldAbsentKey(At(s, key, k), key, Newest, xs, k);
      }
    }
    Extensional(a, b, key);
  }

  lemma {:induction false} JoinedLatest<K>(ks: seq<K>, js: seq<K>)
    ensures Joined(ks, Joined([], js)) == Joined(ks, js)
  {
    if js != [] {
      var init, k := js[..|js| - 1], js[|js| - 1];
      var r: seq<K> := Joined([], init);
      JoinedLatest(ks, init);
      JoinedMembers([], init);
      JoinedMembers(ks, r);
      if k !in r { assert (r + [k])[..|r + [k]| - 1] == r; }
    }
  }
}
