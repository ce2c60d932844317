/** Sequence operations shared by the dashboard and the detectors: JavaScript's
    `filter` and `reverse`, and the sum of a list of counts. */
module Seqs {

  /** `s.filter(p)`: the elements satisfying `p`, in their original order. */
  function Filter<T>(s: seq<T>, p: T -> bool): (r: seq<T>)
    ensures |r| <= |s|
    ensures forall i :: 0 <= i < |r| ==> p(r[i])
    decreases |s|
  {
    if |s| == 0 then []
    else
      var init := s[..|s| - 1];
      assert s == init + [s[|s| - 1]];
      Filter(init, p) + (if p(s[|s| - 1]) then [s[|s| - 1]] else [])
  }

  /** The filter keeps exactly the elements that satisfy `p`. */
  lemma {:induction false} FilterMembers<T>(s: seq<T>, p: T -> bool, x: T)
    ensures x in Filter(s, p) <==> x in s && p(x)
    decreases |s|
  {
    if |s| > 0 {
      var init := s[..|s| - 1];
      FilterMembers(init, p, x);
      assert s == init + [s[|s| - 1]];
      assert x in s <==> x in init || x == s[|s| - 1];
    }
  }

  /** Filtering distributes over concatenation: the kept elements of a prefix come
      first, so the filter keeps the input order. */
  lemma {:induction false} FilterAppend<T>(a: seq<T>, b: seq<T>, p: T -> bool)
    ensures Filter(a + b, p) == Filter(a, p) + Filter(b, p)
    decreases |b|
  {
    if |b| > 0 {
      var b' := b[..|b| - 1];
      FilterAppend(a, b', p);
      assert (a + b)[..|a + b| - 1] == a + b';
    } else {
      assert a + b == a;
    }
  }

  /** `s.filter(p)` on a single element. */
  lemma FilterSingle<T>(x: T, p: T -> bool)
    ensures Filter([x], p) == if p(x) then [x] else []
  {
    assert [x][..0] == [];
  }

  /** `[...s].reverse()`. */
  function Reverse<T>(s: seq<T>): (r: seq<T>)
    ensures |r| == |s|
    ensures forall i :: 0 <= i < |s| ==> r[i] == s[|s| - 1 - i]
    decreases |s|
  {
    if |s| == 0 then [] else [s[|s| - 1]] + Reverse(s[..|s| - 1])
  }

  /** Reversal is a permutation. */
  lemma {:induction false} ReverseMultiset<T>(s: seq<T>)
    ensures multiset(Reverse(s)) == multiset(s)
    decreases |s|
  {
    if |s| > 0 {
      ReverseMultiset(s[..|s| - 1]);
      assert s == s[..|s| - 1] + [s[|s| - 1]];
    }
  }

  /** Reversing twice gives the list back. */
  lemma ReverseReverse<T>(s: seq<T>)
    ensures Reverse(Reverse(s)) == s
  {
  }

  /** The sum of a list of counts. */
  function Sum(s: seq<nat>): nat
    decreases |s|
  {
    if |s| == 0 then 0 else Sum(s[..|s| - 1]) + s[|s| - 1]
  }

  lemma {:induction false} SumAppend(a: seq<nat>, b: seq<nat>)
    ensures Sum(a + b) == Sum(a) + Sum(b)
    decreases |b|
  {
    if |b| > 0 {
      SumAppend(a, b[..|b| - 1]);
      assert (a + b)[..|a + b| - 1] == a + b[..|b| - 1];
    } else {
      assert a + b == a;
    }
  }

  /** `[f(n - 1), ..., f(1), f(0)]`: what a loop over `i` from 0 to `n - 1` builds by
      prepending `f(i)` at each step. */
  function Countdown<T>(n: nat, f: nat -> T): (r: seq<T>)
    ensures |r| == n
  {
    seq(n, k requires 0 <= k < n => f(n - 1 - k))
  }

  lemma CountdownIndex<T>(n: nat, f: nat -> T, k: nat)
    requires k < n
    ensures Countdown(n, f)[k] == f(n - 1 - k)
  {
  }

  /** One more step of the loop prepends the next element. */
  lemma CountdownStep<T>(n: nat, f: nat -> T)
    ensures Countdown(n + 1, f) == [f(n)] + Countdown(n, f)
  {
    assert forall k :: 0 <= k < n + 1 ==> Countdown(n + 1, f)[k] == ([f(n)] + Countdown(n, f))[k];
  }

  /** Countdowns of two functions that agree below `n` are equal. */
  lemma CountdownPointwise<T>(n: nat, f: nat -> T, g: nat -> T)
    requires forall i: nat :: i < n ==> f(i) == g(i)
    ensures Countdown(n, f) == Countdown(n, g)
  {
    assert forall k :: 0 <= k < n ==> Countdown(n, f)[k] == Countdown(n, g)[k];
  }

  /** Filtering by a predicate and by its negation splits the list into two parts
      that together hold every element. */
  lemma {:induction false} FilterPartition<T>(s: seq<T>, p: T -> bool, q: T -> bool)
    requires forall x :: q(x) == !p(x)
    ensures multiset(Filter(s, p)) + multiset(Filter(s, q)) == multiset(s)
    decreases |s|
  {
    if |s| > 0 {
      FilterPartition(s[..|s| - 1], p, q);
      FilterPartitionStep(s, p, q);
    }
  }

  lemma FilterPartitionStep<T>(s: seq<T>, p: T -> bool, q: T -> bool)
    requires |s| > 0 && (forall x :: q(x) == !p(x))
    requires var init := s[..|s| - 1];
             multiset(Filter(init, p)) + multiset(Filter(init, q)) == multiset(init)
    ensures multiset(Filter(s, p)) + multiset(Filter(s, q)) == multiset(s)
  {
    var init := s[..|s| - 1];
    var x := s[|s| - 1];
    assert s == init + [x];
    var fp, fq := Filter(init, p), Filter(init, q);
    if p(x) {
      assert Filter(s, p) == fp + [x] && Filter(s, q) == fq;
      assert multiset(fp + [x]) == multiset(fp) + multiset{x};
    } else {
      assert Filter(s, p) == fp && Filter(s, q) == fq + [x];
      assert multiset(fq + [x]) == multiset(fq) + multiset{x};
    }
    assert multiset(s) == multiset(init) + multiset{x};
  }

  /** The filter keeps every copy of a satisfying element and no copy of the rest. */
  lemma {:induction false} FilterMultiplicity<T>(s: seq<T>, p: T -> bool, x: T)
    ensures multiset(Filter(s, p))[x] == if p(x) then multiset(s)[x] else 0
    decreases |s|
  {
    if |s| > 0 {
      FilterMultiplicity(s[..|s| - 1], p, x);
      FilterMultiplicityStep(s, p, x);
    }
  }

  lemma FilterMultiplicityStep<T>(s: seq<T>, p: T -> bool, x: T)
    requires |s| > 0
    requires var init := s[..|s| - 1];
             multiset(Filter(init, p))[x] == if p(x) then multiset(init)[x] else 0
    ensures multiset(Filter(s, p))[x] == if p(x) then multiset(s)[x] else 0
  {
    var init := s[..|s| - 1];
    var y := s[|s| - 1];
    assert s == init + [y];
    var f := Filter(init, p);
    if p(y) {
      assert Filter(s, p) == f + [y];
      assert multiset(f + [y]) == multiset(f) + multiset{y};
    } else {
      assert Filter(s, p) == f;
    }
    assert multiset(s) == multiset(init) + multiset{y};
  }

  /** `s.map(f)`. */
  function Map<A, B>(s: seq<A>, f: A -> B): (r: seq<B>)
    ensures |r| == |s|
    ensures forall i :: 0 <= i < |s| ==> r[i] == f(s[i])
  {
    seq(|s|, i requires 0 <= i < |s| => f(s[i]))
  }

  lemma MapAppend<A, B>(a: seq<A>, b: seq<A>, f: A -> B)
    ensures Map(a + b, f) == Map(a, f) + Map(b, f)
  {
    assert forall i :: 0 <= i < |a + b| ==> Map(a + b, f)[i] == (Map(a, f) + Map(b, f))[i];
  }

  lemma MapCons<A, B>(s: seq<A>, f: A -> B)
    requires |s| > 0
    ensures Map(s, f) == [f(s[0])] + Map(s[1..], f)
  {
  }

  lemma ConcatAssoc<T>(a: seq<T>, b: seq<T>, c: seq<T>)
    ensures (a + b) + c == a + (b + c)
  {
  }

  /** A map over a growing prefix gains one element per step. */
  lemma MapPrefixStep<A, B>(s: seq<A>, i: nat, f: A -> B)
    requires i < |s|
    ensures Map(s[..i + 1], f) == Map(s[..i], f) + [f(s[i])]
  {
    assert s[..i + 1] == s[..i] + [s[i]];
    MapAppend(s[..i], [s[i]], f);
  }

  /** A filter that every element passes keeps the whole list. */
  lemma {:induction false} FilterAll<T>(s: seq<T>, p: T -> bool)
    requires forall i :: 0 <= i < |s| ==> p(s[i])
    ensures Filter(s, p) == s
    decreases |s|
  {
    if |s| > 0 {
      FilterAll(s[..|s| - 1], p);
    }
  }

  /** A filter that no element passes keeps nothing. */
  lemma {:induction false} FilterNone<T>(s: seq<T>, p: T -> bool)
    requires forall i :: 0 <= i < |s| ==> !p(s[i])
    ensures Filter(s, p) == []
    decreases |s|
  {
    if |s| > 0 {
      FilterNone(s[..|s| - 1], p);
    }
  }
}
