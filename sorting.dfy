/**
 * Python's `sorted(s, key=k)` on string keys: a stable sort. Modelled as an
 * insertion sort; the lemmas say it is a sorted permutation, that it keeps the
 * input order of elements with equal keys, and that its result does not
 * depend on the input order when equal keys mean equal elements.
 */
module Sorting {
  import opened Text

  /** Every element's key is at most the key of every later element. */
  ghost predicate SortedBy<T>(s: seq<T>, key: T -> string)
  {
    forall i, j | 0 <= i < j < |s| :: Below(key(s[i]), key(s[j]))
  }

  /** Puts `x` before the first element whose key is not below `x`'s. */
  function Insert<T>(x: T, s: seq<T>, key: T -> string): (r: seq<T>)
    ensures multiset(r) == multiset(s) + multiset{x}
  {
    if s == [] || Below(key(x), key(s[0])) then [x] + s
    else
      assert s == [s[0]] + s[1..];
      [s[0]] + Insert(x, s[1..], key)
  }

  /** `sorted(s, key=key)`. */
  function SortBy<T>(s: seq<T>, key: T -> string): (r: seq<T>)
    ensures multiset(r) == multiset(s)
    ensures |r| == |s|
  {
    if s == [] then []
    else
      assert s == [s[0]] + s[1..];
      Insert(s[0], SortBy(s[1..], key), key)
  }

  lemma {:induction false} InsertSorted<T>(x: T, s: seq<T>, key: T -> string)
    requires SortedBy(s, key)
    ensures SortedBy(Insert(x, s, key), key)
    decreases |s|
  {
    if s != [] && !Below(key(x), key(s[0])) {
      BelowTotal(key(x), key(s[0]));
      InsertSorted(x, s[1..], key);
      var r := Insert(x, s, key);
      var tail := Insert(x, s[1..], key);
      assert r == [s[0]] + tail;
      forall j | 0 < j < |r|
        ensures Below(key(r[0]), key(r[j]))
      {
        var y := r[j];
        assert y in multiset(tail);
        assert y in multiset(s[1..]) + multiset{x};
        if y != x {
          assert y in s[1..];
          var m :| 0 <= m < |s[1..]| && s[1..][m] == y;
          assert s[1 + m] == y;
        }
      }
    } else if s != [] {
      var r := Insert(x, s, key);
      assert r == [x] + s;
      forall j | 1 < j < |r|
        ensures Below(key(r[0]), key(r[j]))
      {
        BelowTransitive(key(x), key(s[0]), key(s[j - 1]));
      }
    }
  }

  /** The result of `SortBy` is sorted. */
  lemma {:induction false} SortBySorted<T>(s: seq<T>, key: T -> string)
    ensures SortedBy(SortBy(s, key), key)
    decreases |s|
  {
    if s != [] {
      SortBySorted(s[1..], key);
      InsertSorted(s[0], SortBy(s[1..], key), key);
    }
  }

  /** The elements of `s` whose key is `k`, in their order in `s`. */
  function WithKey<T>(s: seq<T>, key: T -> string, k: string): (r: seq<T>)
    ensures forall i | 0 <= i < |r| :: key(r[i]) == k
  {
    if s == [] then []
    else (if key(s[0]) == k then [s[0]] else []) + WithKey(s[1..], key, k)
  }

  lemma {:induction false} InsertWithKey<T>(x: T, s: seq<T>, key: T -> string, k: string)
    ensures WithKey(Insert(x, s, key), key, k)
         == (if key(x) == k then [x] else []) + WithKey(s, key, k)
    decreases |s|
  {
    var r := Insert(x, s, key);
    if s == [] || Below(key(x), key(s[0])) {
      assert r[1..] == s;
    } else {
      assert r[1..] == Insert(x, s[1..], key);
      InsertWithKey(x, s[1..], key, k);
      if key(x) == k && key(s[0]) == k {
        BelowReflexive(k);
      }
    }
  }

  /** Stability: elements sharing a key keep their input order. */
  lemma {:induction false} SortByStable<T>(s: seq<T>, key: T -> string, k: string)
    ensures WithKey(SortBy(s, key), key, k) == WithKey(s, key, k)
    decreases |s|
  {
    if s != [] {
      SortByStable(s[1..], key, k);
      InsertWithKey(s[0], SortBy(s[1..], key), key, k);
    }
  }

  /** Within `s`, two elements with the same key are the same element. */
  ghost predicate KeyDetermines<T>(s: seq<T>, key: T -> string)
  {
    forall x, y | x in s && y in s && key(x) == key(y) :: x == y
  }

  /** The smallest elements of two such sequences coincide. */
  lemma SortedHeads<T>(a: seq<T>, b: seq<T>, key: T -> string)
    requires a != [] && SortedBy(a, key) && SortedBy(b, key)
    requires multiset(a) == multiset(b)
    requires KeyDetermines(a, key)
    ensures b != [] && a[0] == b[0]
  {
    assert a[0] in multiset(b);
    var j :| 0 <= j < |b| && b[j] == a[0];
    assert b[0] in multiset(a);
    var i :| 0 <= i < |a| && a[i] == b[0];
    if i > 0 { assert Below(key(a[0]), key(a[i])); } else { BelowReflexive(key(a[0])); }
    if j > 0 { assert Below(key(b[0]), key(b[j])); } else { BelowReflexive(key(b[0])); }
    BelowAntisymmetric(key(a[0]), key(b[0]));
    assert a[0] in a && b[0] in a;
  }

  lemma TailMultiset<T>(a: seq<T>, b: seq<T>)
    requires a != [] && b != [] && a[0] == b[0] && multiset(a) == multiset(b)
    ensures multiset(a[1..]) == multiset(b[1..])
  {
    assert a == [a[0]] + a[1..] && b == [b[0]] + b[1..];
    assert multiset(a) == multiset{a[0]} + multiset(a[1..]);
    assert multiset(b) == multiset{b[0]} + multiset(b[1..]);
    forall z
      ensures multiset(a[1..])[z] == multiset(b[1..])[z]
    {
      assert multiset(a)[z] == multiset{a[0]}[z] + multiset(a[1..])[z];
      assert multiset(b)[z] == multiset{b[0]}[z] + multiset(b[1..])[z];
    }
  }

  /**
   * Two sorted permutations of each other are equal when equal keys mean
   * equal elements.
   */
  lemma {:induction false} SortedUnique<T>(a: seq<T>, b: seq<T>, key: T -> string)
    requires SortedBy(a, key) && SortedBy(b, key)
    requires multiset(a) == multiset(b)
    requires KeyDetermines(a, key)
    ensures a == b
    decreases |a|
  {
    if a == [] {
      assert |b| == 0 by { assert |multiset(b)| == 0; }
    } else {
      SortedHeads(a, b, key);
      TailMultiset(a, b);
      var a', b' := a[1..], b[1..];
      assert SortedBy(a', key) && SortedBy(b', key);
      assert KeyDetermines(a', key) by {
        forall x, y | x in a' && y in a' && key(x) == key(y)
          ensures x == y
        {
          assert x in a && y in a;
        }
      }
      SortedUnique(a', b', key);
      assert a == [a[0]] + a' && b == [b[0]] + b';
    }
  }

  /** `sorted` ignores input order when equal keys mean equal elements. */
  lemma SortByPermutationInvariant<T>(a: seq<T>, b: seq<T>, key: T -> string)
    requires multiset(a) == multiset(b)
    requires KeyDetermines(a, key)
    ensures SortBy(a, key) == SortBy(b, key)
  {
    var sa, sb := SortBy(a, key), SortBy(b, key);
    SortBySorted(a, key);
    SortBySorted(b, key);
    forall x, y | x in sa && y in sa && key(x) == key(y)
      ensures x == y
    {
      assert x in multiset(sa) && y in multiset(sa);
      assert x in a && y in a;
    }
    SortedUnique(sa, sb, key);
  }

  /** Position by position, `a` and `b` agree on `key` and on `f`. */
  ghost predicate Aligned<T>(a: seq<T>, b: seq<T>, key: T -> string, f: T -> string)
  {
    |a| == |b| && forall i | 0 <= i < |a| :: key(a[i]) == key(b[i]) && f(a[i]) == f(b[i])
  }

  lemma {:induction false} InsertAligned<T>(x: T, y: T, a: seq<T>, b: seq<T>, key: T -> string, f: T -> string)
    requires Aligned(a, b, key, f) && key(x) == key(y) && f(x) == f(y)
    ensures Aligned(Insert(x, a, key), Insert(y, b, key), key, f)
    decreases |a|
  {
    if a != [] && !Below(key(x), key(a[0])) {
      assert Aligned(a[1..], b[1..], key, f);
      InsertAligned(x, y, a[1..], b[1..], key, f);
    }
  }

  /**
   * The order `SortBy` picks depends on the keys alone: inputs that agree
   * on keys position by position are permuted the same way.
   */
  lemma {:induction false} SortByAligned<T>(a: seq<T>, b: seq<T>, key: T -> string, f: T -> string)
    requires Aligned(a, b, key, f)
    ensures Aligned(SortBy(a, key), SortBy(b, key), key, f)
    decreases |a|
  {
    if a != [] {
      assert Aligned(a[1..], b[1..], key, f);
      SortByAligned(a[1..], b[1..], key, f);
      InsertAligned(a[0], b[0], SortBy(a[1..], key), SortBy(b[1..], key), key, f);
    }
  }
}
