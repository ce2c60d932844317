/**
 * Comparators and the stable sort of `Array.prototype.sort` (stable since ES2019).
 *
 * Every sort key of the dashboard is expressed as a sequence of integers compared
 * lexicographically: a timestamp is a one-element key, a string compared with `<`
 * is its character codes, and a string compared with `localeCompare` is its
 * collation key (a parameter of the model, since collation is locale data).
 * Elements whose keys are equal are ties, and a stable sort keeps ties in input order.
 */
module Ordering {

  /** Lexicographic comparison with the sign convention of a JavaScript comparator. */
  function Compare(a: seq<int>, b: seq<int>): (r: int)
    ensures -1 <= r <= 1
    decreases |a|
  {
    if |a| == 0 then (if |b| == 0 then 0 else -1)
    else if |b| == 0 then 1
    else if a[0] < b[0] then -1
    else if a[0] > b[0] then 1
    else Compare(a[1..], b[1..])
  }

  /** Two keys compare equal exactly when they are the same key. */
  lemma {:induction false} CompareZero(a: seq<int>, b: seq<int>)
    ensures Compare(a, b) == 0 <==> a == b
    decreases |a|
  {
    if |a| > 0 && |b| > 0 && a[0] == b[0] {
      CompareZero(a[1..], b[1..]);
      assert a == [a[0]] + a[1..] && b == [b[0]] + b[1..];
      if a == b {
        assert a[1..] == b[1..];
      }
    }
  }

  /** Swapping the arguments flips the sign. */
  lemma {:induction false} CompareAntisymmetric(a: seq<int>, b: seq<int>)
    ensures Compare(a, b) == -Compare(b, a)
    decreases |a|
  {
    if |a| > 0 && |b| > 0 && a[0] == b[0] {
      CompareAntisymmetric(a[1..], b[1..]);
    }
  }

  /** "Not after" is transitive. */
  lemma {:induction false} CompareTransitive(a: seq<int>, b: seq<int>, c: seq<int>)
    requires Compare(a, b) <= 0 && Compare(b, c) <= 0
    ensures Compare(a, c) <= 0
    decreases |a|
  {
    if |a| > 0 && |b| > 0 && |c| > 0 && a[0] == b[0] == c[0] {
      CompareTransitive(a[1..], b[1..], c[1..]);
    }
  }

  /** One-element keys compare as their numbers. */
  lemma CompareSingle(a: int, b: int)
    ensures Compare([a], [b]) <= 0 <==> a <= b
  {
    assert [a][1..] == [] && [b][1..] == [];
  }

  /** May an element with key `a` stand before one with key `b` in the sorted output?
      Descending order multiplies the comparator by -1. */
  predicate Precedes(a: seq<int>, b: seq<int>, desc: bool) {
    if desc then Compare(b, a) <= 0 else Compare(a, b) <= 0
  }

  /** Precedes is a total preorder whose ties are the equal keys. */
  lemma PrecedesFacts(a: seq<int>, b: seq<int>, c: seq<int>, desc: bool)
    ensures Precedes(a, b, desc) || Precedes(b, a, desc)
    ensures Precedes(a, b, desc) && Precedes(b, a, desc) <==> a == b
    ensures Precedes(a, b, desc) && Precedes(b, c, desc) ==> Precedes(a, c, desc)
  {
    CompareAntisymmetric(a, b);
    CompareZero(a, b);
    if Precedes(a, b, desc) && Precedes(b, c, desc) {
      if desc { CompareTransitive(c, b, a); } else { CompareTransitive(a, b, c); }
    }
  }

  lemma PrecedesRefl(a: seq<int>, desc: bool)
    ensures Precedes(a, a, desc)
  {
    CompareZero(a, a);
  }

  ghost predicate Sorted<T>(s: seq<T>, key: T -> seq<int>, desc: bool) {
    forall i, j :: 0 <= i < j < |s| ==> Precedes(key(s[i]), key(s[j]), desc)
  }

  ghost predicate AllPrecede<T>(s: seq<T>, y: T, key: T -> seq<int>, desc: bool) {
    forall i :: 0 <= i < |s| ==> Precedes(key(s[i]), key(y), desc)
  }

  /** The elements of `s` whose key is `k`, in order: one tie class. */
  function KeyClass<T>(s: seq<T>, key: T -> seq<int>, k: seq<int>): (r: seq<T>)
    ensures |r| <= |s|
    decreases |s|
  {
    if |s| == 0 then []
    else KeyClass(s[..|s| - 1], key, k) + (if key(s[|s| - 1]) == k then [s[|s| - 1]] else [])
  }

  /** Places `x` after the last element it may follow. */
  function Insert<T>(x: T, r: seq<T>, key: T -> seq<int>, desc: bool): seq<T>
    decreases |r|
  {
    if |r| == 0 then [x]
    else if Precedes(key(r[|r| - 1]), key(x), desc) then r + [x]
    else Insert(x, r[..|r| - 1], key, desc) + [r[|r| - 1]]
  }

  /** The stable sort by `key`: insertion from left to right. */
  function StableSort<T>(s: seq<T>, key: T -> seq<int>, desc: bool): seq<T>
    decreases |s|
  {
    if |s| == 0 then [] else Insert(s[|s| - 1], StableSort(s[..|s| - 1], key, desc), key, desc)
  }

  lemma {:induction false} InsertMultiset<T>(x: T, r: seq<T>, key: T -> seq<int>, desc: bool)
    ensures multiset(Insert(x, r, key, desc)) == multiset(r) + multiset{x}
    decreases |r|
  {
    if |r| > 0 && !Precedes(key(r[|r| - 1]), key(x), desc) {
      InsertMultiset(x, r[..|r| - 1], key, desc);
      assert r == r[..|r| - 1] + [r[|r| - 1]];
    }
  }

  lemma {:induction false} InsertAllPrecede<T>(x: T, r: seq<T>, y: T, key: T -> seq<int>, desc: bool)
    requires AllPrecede(r, y, key, desc) && Precedes(key(x), key(y), desc)
    ensures AllPrecede(Insert(x, r, key, desc), y, key, desc)
    decreases |r|
  {
    if |r| > 0 && !Precedes(key(r[|r| - 1]), key(x), desc) {
      InsertAllPrecede(x, r[..|r| - 1], y, key, desc);
    }
  }

  lemma {:induction false} InsertSorted<T>(x: T, r: seq<T>, key: T -> seq<int>, desc: bool)
    requires Sorted(r, key, desc)
    ensures Sorted(Insert(x, r, key, desc), key, desc)
    decreases |r|
  {
    if |r| > 0 {
      var last := r[|r| - 1];
      var r' := r[..|r| - 1];
      if Precedes(key(last), key(x), desc) {
        forall i | 0 <= i < |r| ensures Precedes(key(r[i]), key(x), desc) {
          if i < |r| - 1 {
            PrecedesFacts(key(r[i]), key(last), key(x), desc);
          }
        }
      } else {
        InsertSorted(x, r', key, desc);
        PrecedesFacts(key(x), key(last), key(x), desc);
        InsertAllPrecede(x, r', last, key, desc);
      }
    }
  }

  lemma KeyClassSnoc<T>(s: seq<T>, x: T, key: T -> seq<int>, k: seq<int>)
    ensures KeyClass(s + [x], key, k) == KeyClass(s, key, k) + (if key(x) == k then [x] else [])
  {
    assert (s + [x])[..|s|] == s;
  }

  lemma {:induction false} InsertKeyClass<T>(x: T, r: seq<T>, key: T -> seq<int>, desc: bool, k: seq<int>)
    ensures KeyClass(Insert(x, r, key, desc), key, k)
            == KeyClass(r, key, k) + (if key(x) == k then [x] else [])
    decreases |r|
  {
    if |r| == 0 {
      KeyClassSnoc(r, x, key, k);
      assert r + [x] == [x];
    } else if Precedes(key(r[|r| - 1]), key(x), desc) {
      KeyClassSnoc(r, x, key, k);
    } else {
      var last := r[|r| - 1];
      var r' := r[..|r| - 1];
      assert r == r' + [last];
      InsertKeyClass(x, r', key, desc, k);
      PrecedesRefl(key(x), desc);
      KeyClassPast(Insert(x, r', key, desc), r', last, x, key, k);
    }
  }

  /** The step of `InsertKeyClass` in which `x` moves past `last`: the two are not in
      the same tie class, so their relative order does not matter to it. */
  lemma KeyClassPast<T>(ins: seq<T>, r: seq<T>, last: T, x: T, key: T -> seq<int>, k: seq<int>)
    requires !(key(last) == k && key(x) == k)
    requires KeyClass(ins, key, k) == KeyClass(r, key, k) + (if key(x) == k then [x] else [])
    ensures KeyClass(ins + [last], key, k) == KeyClass(r + [last], key, k) + (if key(x) == k then [x] else [])
  {
    KeyClassSnoc(ins, last, key, k);
    KeyClassSnoc(r, last, key, k);
  }

  lemma {:induction false} StableSortSorted<T>(s: seq<T>, key: T -> seq<int>, desc: bool)
    ensures Sorted(StableSort(s, key, desc), key, desc)
    decreases |s|
  {
    if |s| > 0 {
      StableSortSorted(s[..|s| - 1], key, desc);
      InsertSorted(s[|s| - 1], StableSort(s[..|s| - 1], key, desc), key, desc);
    }
  }

  lemma {:induction false} StableSortMultiset<T>(s: seq<T>, key: T -> seq<int>, desc: bool)
    ensures multiset(StableSort(s, key, desc)) == multiset(s)
    decreases |s|
  {
    if |s| > 0 {
      var p := s[..|s| - 1];
      StableSortMultiset(p, key, desc);
      InsertMultiset(s[|s| - 1], StableSort(p, key, desc), key, desc);
      assert s == p + [s[|s| - 1]];
    }
  }

  lemma {:induction false} StableSortKeyClass<T>(s: seq<T>, key: T -> seq<int>, desc: bool, k: seq<int>)
    ensures KeyClass(StableSort(s, key, desc), key, k) == KeyClass(s, key, k)
    decreases |s|
  {
    if |s| > 0 {
      var p := s[..|s| - 1];
      StableSortKeyClass(p, key, desc, k);
      InsertKeyClass(s[|s| - 1], StableSort(p, key, desc), key, desc, k);
    }
  }

  /** What the stable sort promises: a sorted permutation of its input in which every
      tie class keeps its input order. */
  lemma StableSortSpec<T>(s: seq<T>, key: T -> seq<int>, desc: bool)
    ensures Sorted(StableSort(s, key, desc), key, desc)
    ensures multiset(StableSort(s, key, desc)) == multiset(s)
    ensures |StableSort(s, key, desc)| == |s|
    ensures forall k :: KeyClass(StableSort(s, key, desc), key, k) == KeyClass(s, key, k)
  {
    StableSortSorted(s, key, desc);
    StableSortMultiset(s, key, desc);
    assert |multiset(StableSort(s, key, desc))| == |multiset(s)|;
    forall k ensures KeyClass(StableSort(s, key, desc), key, k) == KeyClass(s, key, k) {
      StableSortKeyClass(s, key, desc, k);
    }
  }

  /** The first `n` elements (`slice(0, n)`). */
  function Take<T>(s: seq<T>, n: nat): (r: seq<T>)
    ensures |r| == if |s| < n then |s| else n
    ensures r == s[..|r|]
  {
    if |s| <= n then s else s[..n]
  }
}
