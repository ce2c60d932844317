/**
 * A plain JavaScript object used as a counter, `obj[k] = (obj[k] || 0) + 1`, and the
 * order in which `Object.entries` and `Object.values` list its properties.
 *
 * The object is its list of own properties in creation order, one entry per key.
 * `Object.entries` lists the array-index keys first, in ascending numeric order, and
 * then the other string keys in creation order (the OrdinaryOwnPropertyKeys order of
 * section 10.1.11.1 of ECMA-262). An array index is the canonical decimal form of an
 * integer below 2^32 - 1.
 */
module JsObject {
  import opened Text
  import opened Seqs
  import opened Ordering

  type Entry = (string, nat)

  /** The keys of an object, in creation order. */
  function KeySeq(t: seq<Entry>): (r: seq<string>)
    ensures |r| == |t|
    ensures forall i :: 0 <= i < |t| ==> r[i] == t[i].0
  {
    seq(|t|, i requires 0 <= i < |t| => t[i].0)
  }

  ghost predicate DistinctKeys(t: seq<Entry>) {
    forall i, j :: 0 <= i < j < |t| ==> t[i].0 != t[j].0
  }

  /** `obj[k] || 0` for a counter, whose values are all at least 1. */
  function Lookup(t: seq<Entry>, k: string): (r: nat)
    ensures (forall i :: 0 <= i < |t| ==> t[i].0 != k) ==> r == 0
    decreases |t|
  {
    if |t| == 0 then 0 else if t[0].0 == k then t[0].1 else Lookup(t[1..], k)
  }

  /** `obj[k] = (obj[k] || 0) + 1`: an existing key is updated where it stands, a new
      key is created last. */
  function Bump(t: seq<Entry>, k: string): (r: seq<Entry>)
    decreases |t|
  {
    if |t| == 0 then [(k, 1)]
    else if t[0].0 == k then [(k, t[0].1 + 1)] + t[1..]
    else [t[0]] + Bump(t[1..], k)
  }

  /** The sum of the values. */
  function Total(t: seq<Entry>): nat
    decreases |t|
  {
    if |t| == 0 then 0 else Total(t[..|t| - 1]) + t[|t| - 1].1
  }

  lemma {:induction false} TotalCons(x: Entry, t: seq<Entry>)
    ensures Total([x] + t) == x.1 + Total(t)
    decreases |t|
  {
    if |t| > 0 {
      TotalCons(x, t[..|t| - 1]);
      assert ([x] + t)[..|t|] == [x] + t[..|t| - 1];
    } else {
      assert ([x] + t)[..0] == [];
    }
  }

  lemma {:induction false} TotalAppend(a: seq<Entry>, b: seq<Entry>)
    ensures Total(a + b) == Total(a) + Total(b)
    decreases |b|
  {
    if |b| > 0 {
      TotalAppend(a, b[..|b| - 1]);
      assert (a + b)[..|a + b| - 1] == a + b[..|b| - 1];
    } else {
      assert a + b == a;
    }
  }

  /** One increment: the count of `k` grows by one and every other count stays. */
  lemma {:induction false} BumpLookup(t: seq<Entry>, k: string, j: string)
    ensures Lookup(Bump(t, k), j) == Lookup(t, j) + (if j == k then 1 else 0)
    decreases |t|
  {
    if |t| > 0 && t[0].0 != k {
      BumpLookup(t[1..], k, j);
      assert ([t[0]] + Bump(t[1..], k))[1..] == Bump(t[1..], k);
    } else if |t| > 0 {
      assert ([(k, t[0].1 + 1)] + t[1..])[1..] == t[1..];
    }
  }

  /** The key order is kept when `k` exists, and gains `k` at the end otherwise. */
  lemma {:induction false} BumpKeys(t: seq<Entry>, k: string)
    ensures KeySeq(Bump(t, k)) == if k in KeySeq(t) then KeySeq(t) else KeySeq(t) + [k]
    decreases |t|
  {
    if |t| == 0 {
      assert KeySeq([(k, 1)]) == [k];
    } else if t[0].0 == k {
      KeySeqCons(t[0], t[1..]);
      KeySeqCons((k, t[0].1 + 1), t[1..]);
      assert [t[0]] + t[1..] == t;
    } else {
      BumpKeys(t[1..], k);
      BumpKeysPast(t, k);
    }
  }

  /** The step of `BumpKeys` past a head entry with another key. */
  lemma BumpKeysPast(t: seq<Entry>, k: string)
    requires |t| > 0 && t[0].0 != k
    requires KeySeq(Bump(t[1..], k)) == if k in KeySeq(t[1..]) then KeySeq(t[1..]) else KeySeq(t[1..]) + [k]
    ensures KeySeq(Bump(t, k)) == if k in KeySeq(t) then KeySeq(t) else KeySeq(t) + [k]
  {
    var tail := KeySeq(t[1..]);
    KeySeqCons(t[0], t[1..]);
    assert [t[0]] + t[1..] == t;
    KeySeqCons(t[0], Bump(t[1..], k));
    assert k in KeySeq(t) <==> k in tail;
    if k !in tail {
      assert [t[0].0] + (tail + [k]) == ([t[0].0] + tail) + [k];
    }
  }

  lemma KeySeqCons(x: Entry, t: seq<Entry>)
    ensures KeySeq([x] + t) == [x.0] + KeySeq(t)
  {
  }

  /** The keys stay distinct. */
  lemma BumpDistinct(t: seq<Entry>, k: string)
    requires DistinctKeys(t)
    ensures DistinctKeys(Bump(t, k))
  {
    var r := Bump(t, k);
    BumpKeys(t, k);
    assert forall i :: 0 <= i < |r| ==> r[i].0 == KeySeq(r)[i];
    if k !in KeySeq(t) {
      forall i, j | 0 <= i < j < |r| ensures r[i].0 != r[j].0 {
        if j == |t| {
          assert r[i].0 == KeySeq(t)[i];
        } else {
          assert r[i].0 == t[i].0 && r[j].0 == t[j].0;
        }
      }
    } else {
      forall i, j | 0 <= i < j < |r| ensures r[i].0 != r[j].0 {
        assert r[i].0 == t[i].0 && r[j].0 == t[j].0;
      }
    }
  }

  /** The values grow by exactly one in total. */
  lemma {:induction false} BumpTotal(t: seq<Entry>, k: string)
    ensures Total(Bump(t, k)) == Total(t) + 1
    decreases |t|
  {
    if |t| == 0 {
      assert [(k, 1)][..0] == [];
    } else {
      assert t == [t[0]] + t[1..];
      TotalCons(t[0], t[1..]);
      if t[0].0 == k {
        TotalCons((k, t[0].1 + 1), t[1..]);
      } else {
        BumpTotal(t[1..], k);
        TotalCons(t[0], Bump(t[1..], k));
      }
    }
  }

  /** The counter built by counting `keys` one after another. */
  function TallyOf(keys: seq<string>): seq<Entry>
    decreases |keys|
  {
    if |keys| == 0 then [] else Bump(TallyOf(keys[..|keys| - 1]), keys[|keys| - 1])
  }

  /** Each count is the number of occurrences of its key. */
  lemma {:induction false} TallyLookup(keys: seq<string>, j: string)
    ensures Lookup(TallyOf(keys), j) == multiset(keys)[j]
    decreases |keys|
  {
    if |keys| > 0 {
      var init := keys[..|keys| - 1];
      TallyLookup(init, j);
      BumpLookup(TallyOf(init), keys[|keys| - 1], j);
      assert keys == init + [keys[|keys| - 1]];
    }
  }

  /** The keys are distinct and are exactly the counted keys. */
  lemma {:induction false} TallyKeys(keys: seq<string>)
    ensures DistinctKeys(TallyOf(keys))
    ensures forall j :: j in KeySeq(TallyOf(keys)) <==> j in keys
    decreases |keys|
  {
    if |keys| > 0 {
      var init := keys[..|keys| - 1];
      var k := keys[|keys| - 1];
      TallyKeys(init);
      BumpKeys(TallyOf(init), k);
      BumpDistinct(TallyOf(init), k);
      assert keys == init + [k];
      assert forall j :: j in keys <==> j in init || j == k;
    }
  }

  /** There is one entry per distinct key. */
  lemma {:induction false} TallySize(keys: seq<string>)
    ensures |TallyOf(keys)| == |set k | k in keys|
    decreases |keys|
  {
    if |keys| > 0 {
      var init := keys[..|keys| - 1];
      var k := keys[|keys| - 1];
      TallySize(init);
      TallyKeys(init);
      BumpKeys(TallyOf(init), k);
      assert keys == init + [k];
      assert (set j | j in keys) == (set j | j in init) + {k};
      assert |KeySeq(TallyOf(keys))| == |TallyOf(keys)|;
    } else {
      assert (set j | j in keys) == {};
    }
  }

  /** The counts add up to the number of keys. */
  lemma {:induction false} TallyTotal(keys: seq<string>)
    ensures Total(TallyOf(keys)) == |keys|
    decreases |keys|
  {
    if |keys| > 0 {
      TallyTotal(keys[..|keys| - 1]);
      BumpTotal(TallyOf(keys[..|keys| - 1]), keys[|keys| - 1]);
    }
  }

  /** A new key is created after all the existing ones. */
  lemma TallyOrder(keys: seq<string>, k: string)
    ensures KeySeq(TallyOf(keys + [k])) == if k in keys then KeySeq(TallyOf(keys)) else KeySeq(TallyOf(keys)) + [k]
  {
    assert (keys + [k])[..|keys|] == keys;
    TallyKeys(keys);
    BumpKeys(TallyOf(keys), k);
  }

  /** In an object with distinct keys, the value stored under a key is what a lookup
      returns. */
  lemma {:induction false} LookupMember(t: seq<Entry>, x: Entry)
    requires DistinctKeys(t) && x in t
    ensures Lookup(t, x.0) == x.1
    decreases |t|
  {
    if t[0] != x {
      assert x in t[1..];
      LookupMember(t[1..], x);
    }
  }

  // ------------------------------------------------------------------ entries order

  /** The canonical decimal form of an integer in [0, 2^32 - 2]. */
  predicate IsArrayIndex(k: string) {
    |k| > 0 && (forall i :: 0 <= i < |k| ==> IsDigit(k[i]))
    && (k[0] != '0' || |k| == 1)
    && DigitsValue(k) < 0xFFFF_FFFF
  }

  lemma ArrayIndexOfNat(n: nat)
    requires n < 0xFFFF_FFFF
    ensures IsArrayIndex(NatToString(n))
  {
    NatToStringValue(n);
  }

  function IndexEntry(): Entry -> bool {
    (e: Entry) => IsArrayIndex(e.0)
  }

  function NamedEntry(): Entry -> bool {
    (e: Entry) => !IsArrayIndex(e.0)
  }

  /** The sort key of an array-index entry: its numeric value. */
  function IndexKey(): Entry -> seq<int> {
    (e: Entry) => if IsArrayIndex(e.0) then [DigitsValue(e.0)] else []
  }

  /** `Object.entries(obj)`. */
  function Entries(t: seq<Entry>): seq<Entry> {
    StableSort(Filter(t, IndexEntry()), IndexKey(), false) + Filter(t, NamedEntry())
  }

  lemma {:induction false} TotalInsert(x: Entry, r: seq<Entry>, key: Entry -> seq<int>, desc: bool)
    ensures Total(Insert(x, r, key, desc)) == Total(r) + x.1
    decreases |r|
  {
    if |r| == 0 {
      assert [x][..0] == [];
    } else if !Precedes(key(r[|r| - 1]), key(x), desc) {
      var ins := Insert(x, r[..|r| - 1], key, desc);
      TotalInsert(x, r[..|r| - 1], key, desc);
      assert (ins + [r[|r| - 1]])[..|ins|] == ins;
    }
  }

  lemma {:induction false} TotalStableSort(s: seq<Entry>, key: Entry -> seq<int>, desc: bool)
    ensures Total(StableSort(s, key, desc)) == Total(s)
    decreases |s|
  {
    if |s| > 0 {
      TotalStableSort(s[..|s| - 1], key, desc);
      TotalInsert(s[|s| - 1], StableSort(s[..|s| - 1], key, desc), key, desc);
    }
  }

  lemma TotalPartition(t: seq<Entry>)
    ensures Total(Filter(t, IndexEntry())) + Total(Filter(t, NamedEntry())) == Total(t)
  {
    TotalSplit(t, IndexEntry(), NamedEntry());
  }

  /** Splitting the entries by a predicate and its negation splits the total. */
  lemma {:induction false} TotalSplit(t: seq<Entry>, p: Entry -> bool, q: Entry -> bool)
    requires forall x :: q(x) == !p(x)
    ensures Total(Filter(t, p)) + Total(Filter(t, q)) == Total(t)
    decreases |t|
  {
    if |t| > 0 {
      var init := t[..|t| - 1];
      var x := t[|t| - 1];
      TotalSplit(init, p, q);
      assert t == init + [x];
      FilterAppend(init, [x], p);
      FilterAppend(init, [x], q);
      FilterSingle(x, p);
      FilterSingle(x, q);
      TotalAppend(Filter(init, p), Filter([x], p));
      TotalAppend(Filter(init, q), Filter([x], q));
      TotalAppend(init, [x]);
      assert Total([x]) == x.1 by {
        assert [x][..0] == [];
      }
    }
  }

  /** `Object.entries` lists every property exactly once, so the values add up to the
      same total. */
  lemma EntriesPermutation(t: seq<Entry>)
    ensures multiset(Entries(t)) == multiset(t)
    ensures Total(Entries(t)) == Total(t)
  {
    var idx := Filter(t, IndexEntry());
    StableSortSpec(idx, IndexKey(), false);
    FilterPartition(t, IndexEntry(), NamedEntry());
    TotalStableSort(idx, IndexKey(), false);
    TotalAppend(StableSort(idx, IndexKey(), false), Filter(t, NamedEntry()));
    TotalPartition(t);
  }

  /** The array-index keys come first, in ascending numeric order, then the other keys
      in creation order. */
  lemma EntriesOrder(t: seq<Entry>)
    ensures var n := |Filter(t, IndexEntry())|;
            n <= |Entries(t)|
            && (forall i :: 0 <= i < n ==> IsArrayIndex(Entries(t)[i].0))
            && (forall i, j :: 0 <= i < j < n ==> DigitsValue(Entries(t)[i].0) <= DigitsValue(Entries(t)[j].0))
            && Entries(t)[n..] == Filter(t, NamedEntry())
  {
    var idx := Filter(t, IndexEntry());
    var named := Filter(t, NamedEntry());
    var sorted := StableSort(idx, IndexKey(), false);
    StableSortSpec(idx, IndexKey(), false);
    forall i | 0 <= i < |idx|
      ensures IsArrayIndex(sorted[i].0)
    {
      assert sorted[i] in multiset(idx);
      FilterMembers(t, IndexEntry(), sorted[i]);
    }
    forall i, j | 0 <= i < j < |idx|
      ensures DigitsValue(sorted[i].0) <= DigitsValue(sorted[j].0)
    {
      assert Precedes(IndexKey()(sorted[i]), IndexKey()(sorted[j]), false);
      CompareSingle(DigitsValue(sorted[i].0), DigitsValue(sorted[j].0));
    }
    assert Entries(t) == sorted + named;
    assert (sorted + named)[|idx|..] == named;
  }

  /** With no array-index key, `Object.entries` and `Object.values` follow creation
      order. */
  lemma EntriesNamed(t: seq<Entry>)
    requires forall i :: 0 <= i < |t| ==> !IsArrayIndex(t[i].0)
    ensures Entries(t) == t
  {
    FilterNone(t, IndexEntry());
    FilterAll(t, NamedEntry());
    assert StableSort([], IndexKey(), false) == [];
  }

  /** Counting one more key is one more increment. */
  lemma TallySnoc(keys: seq<string>, k: string)
    ensures TallyOf(keys + [k]) == Bump(TallyOf(keys), k)
  {
    assert (keys + [k])[..|keys|] == keys;
  }
}
