/**
 * The array library calls the core relies on: `findIndex`, `filter` and a stable
 * `sort` with a numeric comparator (`(a, b) => key(a) - key(b)`).
 */
module Seqs {

  /** JavaScript's `findIndex`: the first index whose element satisfies `p`, or -1. */
  function FirstIndex<T>(s: seq<T>, p: T -> bool): (k: int)
    ensures -1 <= k < |s|
    ensures k >= 0 ==> p(s[k]) && forall j :: 0 <= j < k ==> !p(s[j])
    ensures k == -1 <==> forall j :: 0 <= j < |s| ==> !p(s[j])
  {
    if s == [] then -1
    else if p(s[0]) then 0
    else
      var k := FirstIndex(s[1..], p);
      if k == -1 then -1 else k + 1
  }

  /** JavaScript's `filter`: the elements satisfying `p`, in their original order. */
  function Filter<T>(s: seq<T>, p: T -> bool): (r: seq<T>)
    ensures |r| <= |s|
    ensures forall i :: 0 <= i < |r| ==> r[i] in s && p(r[i])
  {
    if s == [] then []
    else
      assert s == [s[0]] + s[1..];
      (if p(s[0]) then [s[0]] else []) + Filter(s[1..], p)
  }

  /** `Filter` drops nothing that satisfies the predicate. */
  lemma {:induction false} FilterComplete<T>(s: seq<T>, p: T -> bool)
    ensures forall j :: 0 <= j < |s| && p(s[j]) ==> s[j] in Filter(s, p)
  {
    if s != [] {
      FilterComplete(s[1..], p);
      assert forall j :: 1 <= j < |s| ==> s[j] == s[1..][j - 1];
    }
  }

  /** Filtering with a predicate every element satisfies changes nothing. */
  lemma {:induction false} FilterKeepsAll<T>(s: seq<T>, p: T -> bool)
    requires forall j :: 0 <= j < |s| ==> p(s[j])
    ensures Filter(s, p) == s
  {
    if s != [] {
      FilterKeepsAll(s[1..], p);
    }
  }

  /** Filtering one element keeps it exactly when it satisfies the predicate. */
  lemma FilterSingleton<T>(x: T, p: T -> bool)
    ensures Filter([x], p) == if p(x) then [x] else []
  {
    assert [x][1..] == [];
  }

  /** Filtering distributes over concatenation. */
  lemma {:induction false} FilterAppend<T>(a: seq<T>, b: seq<T>, p: T -> bool)
    ensures Filter(a + b, p) == Filter(a, p) + Filter(b, p)
  {
    if a == [] {
      assert a + b == b;
    } else {
      assert (a + b)[1..] == a[1..] + b;
      FilterAppend(a[1..], b, p);
    }
  }

  /** What holds of every element still holds of every element kept. */
  lemma {:induction false} FilterPreserves<T>(s: seq<T>, p: T -> bool, q: T -> bool)
    requires forall j :: 0 <= j < |s| ==> q(s[j])
    ensures forall i :: 0 <= i < |Filter(s, p)| ==> q(Filter(s, p)[i])
  {
    if s != [] {
      FilterPreserves(s[1..], p, q);
    }
  }

  /** Filtering out the one element that fails `p` splices it out. */
  lemma {:induction false} FilterDropsOne<T>(s: seq<T>, p: T -> bool, k: nat)
    requires k < |s| && !p(s[k])
    requires forall j :: 0 <= j < |s| && j != k ==> p(s[j])
    ensures Filter(s, p) == s[..k] + s[k + 1..]
  {
    if k == 0 {
      FilterKeepsAll(s[1..], p);
    } else {
      FilterDropsOne(s[1..], p, k - 1);
      assert s[1..][..k - 1] + s[1..][k..] == s[1..k] + s[k + 1..];
      assert s[..k] == [s[0]] + s[1..k];
    }
  }

  /** Filtering by `p` and then by `q` is filtering by their conjunction `both`. */
  lemma {:induction false} FilterFilter<T>(s: seq<T>, p: T -> bool, q: T -> bool, both: T -> bool)
    requires forall x :: both(x) == (p(x) && q(x))
    ensures Filter(Filter(s, p), q) == Filter(s, both)
  {
    if s != [] {
      FilterFilter(s[1..], p, q, both);
      var one := if p(s[0]) then [s[0]] else [];
      FilterAppend(one, Filter(s[1..], p), q);
      if one != [] {
        assert one[1..] == [];
      }
    }
  }

  /** Every element's key is at most the key of every later element. */
  ghost predicate SortedByKey<T>(s: seq<T>, key: T -> real) {
    forall i, j :: 0 <= i < j < |s| ==> key(s[i]) <= key(s[j])
  }

  /**
   * Inserts `x` in front of the first element whose key is not smaller, so that among
   * equal keys the element inserted (which came first in the input) stays first.
   */
  function InsertByKey<T>(x: T, s: seq<T>, key: T -> real): (r: seq<T>)
    requires SortedByKey(s, key)
    ensures SortedByKey(r, key)
    ensures multiset(r) == multiset{x} + multiset(s)
  {
    if s == [] || key(x) <= key(s[0]) then [x] + s
    else
      var rest := InsertByKey(x, s[1..], key);
      InsertStep(x, s, rest, key);
      [s[0]] + rest
  }

  /** The head of `s` followed by `x` inserted into its tail is sorted and holds `x` and `s`. */
  lemma InsertStep<T>(x: T, s: seq<T>, rest: seq<T>, key: T -> real)
    requires s != [] && SortedByKey(s, key) && key(s[0]) < key(x)
    requires SortedByKey(rest, key) && multiset(rest) == multiset{x} + multiset(s[1..])
    ensures SortedByKey([s[0]] + rest, key)
    ensures multiset([s[0]] + rest) == multiset{x} + multiset(s)
  {
    assert s == [s[0]] + s[1..];
    AllAtLeast(x, s, rest, key);
    var r := [s[0]] + rest;
    forall i, j | 0 <= i < j < |r| ensures key(r[i]) <= key(r[j]) {
      assert r[j] == rest[j - 1];
      if i > 0 {
        assert r[i] == rest[i - 1];
      }
    }
  }

  /** Every element of `x` inserted into the tail of `s` has a key at least that of `s`'s head, when `x`'s key is larger. */
  lemma AllAtLeast<T>(x: T, s: seq<T>, rest: seq<T>, key: T -> real)
    requires s != [] && SortedByKey(s, key) && key(s[0]) < key(x)
    requires multiset(rest) == multiset{x} + multiset(s[1..])
    ensures forall i :: 0 <= i < |rest| ==> key(s[0]) <= key(rest[i])
  {
    forall i | 0 <= i < |rest| ensures key(s[0]) <= key(rest[i]) {
      assert rest[i] in multiset(rest);
      if rest[i] != x {
        assert rest[i] in multiset(s[1..]);
        var m :| 0 <= m < |s[1..]| && s[1..][m] == rest[i];
        assert s[m + 1] == rest[i];
      }
    }
  }

  /**
   * A stable sort by ascending key: the result is ordered by key and is a permutation of
   * the input. Sorting by the negated key gives a stable descending sort.
   */
  function SortByKey<T>(s: seq<T>, key: T -> real): (r: seq<T>)
    ensures SortedByKey(r, key)
    ensures multiset(r) == multiset(s)
    ensures |r| == |s|
  {
    if s == [] then []
    else
      assert s == [s[0]] + s[1..];
      var r := InsertByKey(s[0], SortByKey(s[1..], key), key);
      assert |r| == |multiset(r)|;
      r
  }

  /** Two sequences with the same multiset have the same elements. */
  lemma SameElements<T>(a: seq<T>, b: seq<T>)
    requires multiset(a) == multiset(b)
    ensures forall i :: 0 <= i < |b| ==> b[i] in a
    ensures forall j :: 0 <= j < |a| ==> a[j] in b
  {
    forall i | 0 <= i < |b| ensures b[i] in a {
      assert b[i] in multiset(b);
    }
    forall j | 0 <= j < |a| ensures a[j] in b {
      assert a[j] in multiset(a);
    }
  }

  /** `s.map(f)`. */
  function Map<A, B>(s: seq<A>, f: A -> B): (r: seq<B>)
    ensures |r| == |s| && forall i :: 0 <= i < |s| ==> r[i] == f(s[i])
  {
    seq(|s|, i requires 0 <= i < |s| => f(s[i]))
  }

  /** Mapping a list with a head maps the head, then the rest. */
  lemma MapCons<A, B>(x: A, rest: seq<A>, f: A -> B)
    ensures Map([x] + rest, f) == [f(x)] + Map(rest, f)
  {
    var l, r := Map([x] + rest, f), [f(x)] + Map(rest, f);
    forall i | 0 <= i < |l|
      ensures l[i] == r[i]
    {
      if i > 0 {
        assert ([x] + rest)[i] == rest[i - 1];
      }
    }
  }

  /** A slice holds no element its sequence does not. */
  lemma SliceWithin<T>(s: seq<T>, a: nat, b: nat)
    requires a <= b <= |s|
    ensures forall x :: x in s[a..b] ==> x in s
  {
    forall x | x in s[a..b] ensures x in s {
      var i :| 0 <= i < b - a && s[a..b][i] == x;
      assert s[a + i] == x;
    }
  }

  /** Two one-element lists joined are the two-element list. */
  lemma PairDisplay<T>(x: T, y: T)
    ensures [x] + [y] == [x, y]
  {
  }

  /**
   * `reduce((total, x) => total + f(x), 0)`: the sum of `f` over `s`, folded from the left
   * as `reduce` does.
   */
  function Sum<T>(s: seq<T>, f: T -> real): real {
    if s == [] then 0.0 else Sum(s[..|s| - 1], f) + f(s[|s| - 1])
  }

  /** The sum over one element is its term. */
  lemma SumSingleton<T>(x: T, f: T -> real)
    ensures Sum([x], f) == f(x)
  {
    assert [x][..0] == [];
  }

  /** The sum over a concatenation is the sum of the sums. */
  lemma {:induction false} SumAppend<T>(a: seq<T>, b: seq<T>, f: T -> real)
    ensures Sum(a + b, f) == Sum(a, f) + Sum(b, f)
  {
    if b == [] {
      assert a + b == a;
    } else {
      assert (a + b)[..|a + b| - 1] == a + b[..|b| - 1];
      SumAppend(a, b[..|b| - 1], f);
    }
  }

  /** Replacing one element changes the sum by the difference of the two terms. */
  lemma SumUpdate<T>(s: seq<T>, k: nat, x: T, f: T -> real)
    requires k < |s|
    ensures Sum(s[k := x], f) == Sum(s, f) - f(s[k]) + f(x)
  {
    var before, after := s[..k], s[k + 1..];
    assert s == (before + [s[k]]) + after;
    assert s[k := x] == (before + [x]) + after;
    SumAppend(before + [s[k]], after, f);
    SumAppend(before, [s[k]], f);
    SumAppend(before + [x], after, f);
    SumAppend(before, [x], f);
    SumSingleton(x, f);
    SumSingleton(s[k], f);
  }

  /** Removing one element takes its term off the sum. */
  lemma SumRemoveAt<T>(s: seq<T>, k: nat, f: T -> real)
    requires k < |s|
    ensures Sum(s[..k] + s[k + 1..], f) == Sum(s, f) - f(s[k])
  {
    var before, upTo, after := s[..k], s[..k + 1], s[k + 1..];
    assert upTo + after == s;
    assert upTo[..k] == before;
    SumAppend(upTo, after, f);
    SumAppend(before, after, f);
  }

  /** Two sequences whose terms agree position by position have the same sum. */
  lemma {:induction false} SumPointwise<A, B>(a: seq<A>, f: A -> real, b: seq<B>, g: B -> real)
    requires |a| == |b|
    requires forall i :: 0 <= i < |a| ==> f(a[i]) == g(b[i])
    ensures Sum(a, f) == Sum(b, g)
  {
    if a != [] {
      SumPointwise(a[..|a| - 1], f, b[..|b| - 1], g);
    }
  }
}
