/**
 * The JavaScript array operations the tracker relies on (`filter`, `findIndex`,
 * `Math.max(...xs, 0)` and the stable `sort` required since ECMAScript 2019),
 * as functions on sequences, with the laws the callers depend on.
 */
module Seqs {

  /** `r` can be obtained from `s` by deleting elements: every kept element keeps its relative order. */
  predicate IsSubsequence<T(==)>(r: seq<T>, s: seq<T>)
    decreases |s|
  {
    r == [] ||
    (s != [] && ((r[0] == s[0] && IsSubsequence(r[1..], s[1..])) || IsSubsequence(r, s[1..])))
  }

  /** The negation of a predicate, as a named value so that every use denotes the same function. */
  function Not<T(!new)>(p: T -> bool): (q: T -> bool)
    ensures forall x :: q(x) == !p(x)
  {
    x => !p(x)
  }

  /** `s.filter(p)`: the elements of `s` satisfying `p`, in their original order. */
  function Filter<T(==,!new)>(p: T -> bool, s: seq<T>): (r: seq<T>)
    ensures |r| <= |s|
    ensures forall x :: x in r <==> x in s && p(x)
    ensures IsSubsequence(r, s)
  {
    if s == [] then []
    else if p(s[0]) then [s[0]] + Filter(p, s[1..])
    else Filter(p, s[1..])
  }

  /** Filtering a sequence whose elements all satisfy `p` returns it unchanged. */
  lemma {:induction false} FilterKeepsAll<T(!new)>(p: T -> bool, s: seq<T>)
    requires forall x :: x in s ==> p(x)
    ensures Filter(p, s) == s
  {
    if s != [] {
      assert s[0] in s;
      FilterKeepsAll(p, s[1..]);
    }
  }

  /** Filtering with a predicate that holds of nothing in `s` returns the empty sequence. */
  lemma {:induction false} FilterKeepsNone<T(!new)>(p: T -> bool, s: seq<T>)
    requires forall x :: x in s ==> !p(x)
    ensures Filter(p, s) == []
  {
    if s != [] {
      assert s[0] in s;
      FilterKeepsNone(p, s[1..]);
    }
  }

  /** An element of `s` that fails `p` makes the filtered sequence strictly shorter. */
  lemma {:induction false} FilterDropsFailing<T(!new)>(p: T -> bool, s: seq<T>, j: int)
    requires 0 <= j < |s| && !p(s[j])
    ensures |Filter(p, s)| < |s|
  {
    if j > 0 {
      FilterDropsFailing(p, s[1..], j - 1);
    }
  }

  /** Every element satisfies exactly one of `p` and its negation, so the two filters split `s`. */
  lemma {:induction false} FilterComplement<T(!new)>(p: T -> bool, s: seq<T>)
    ensures |Filter(p, s)| + |Filter(Not(p), s)| == |s|
  {
    if s != [] {
      FilterComplement(p, s[1..]);
    }
  }

  /** A weaker predicate keeps at least as many elements. */
  lemma {:induction false} FilterMonotone<T(!new)>(p: T -> bool, q: T -> bool, s: seq<T>)
    requires forall x :: x in s && p(x) ==> q(x)
    ensures |Filter(p, s)| <= |Filter(q, s)|
  {
    if s != [] {
      assert s[0] in s;
      FilterMonotone(p, q, s[1..]);
    }
  }

  /** Two tests that agree on every element of `s` keep the same elements. */
  lemma {:induction false} FilterAgreeing<T(!new)>(p: T -> bool, q: T -> bool, s: seq<T>)
    requires forall x :: x in s ==> p(x) == q(x)
    ensures Filter(p, s) == Filter(q, s)
  {
    if s != [] {
      assert s[0] in s;
      FilterAgreeing(p, q, s[1..]);
    }
  }

  /** `s.findIndex(p)`: the index of the first element satisfying `p`, or -1 when there is none. */
  function FindIndex<T>(p: T -> bool, s: seq<T>): (i: int)
    ensures -1 <= i < |s|
    ensures 0 <= i ==> p(s[i]) && forall j :: 0 <= j < i ==> !p(s[j])
    ensures i == -1 <==> forall j :: 0 <= j < |s| ==> !p(s[j])
  {
    if s == [] then -1
    else if p(s[0]) then 0
    else
      var k := FindIndex(p, s[1..]);
      if k == -1 then -1 else k + 1
  }

  /** `Math.max(...xs, 0)`: the largest element of `xs`, or 0 when it is larger than all of them. */
  function MaxOrZero(xs: seq<int>): (m: int)
    ensures 0 <= m
    ensures forall x :: x in xs ==> x <= m
    ensures m == 0 || m in xs
  {
    if xs == [] then 0
    else
      var rest := MaxOrZero(xs[1..]);
      assert xs == [xs[0]] + xs[1..];
      if xs[0] > rest then xs[0] else rest
  }

  /** `s` is in ascending order of `key`. */
  predicate SortedBy<T>(key: T -> int, s: seq<T>)
  {
    forall i, j :: 0 <= i < j < |s| ==> key(s[i]) <= key(s[j])
  }

  /** Inserts `x` into the sorted `s` before the first element whose key is not smaller. */
  function InsertBy<T(==)>(key: T -> int, x: T, s: seq<T>): (r: seq<T>)
    requires SortedBy(key, s)
    ensures |r| == |s| + 1
    ensures r[0] == x || (s != [] && r[0] == s[0])
    ensures SortedBy(key, r)
    ensures multiset(r) == multiset(s) + multiset{x}
  {
    if s == [] || key(x) <= key(s[0]) then [x] + s
    else
      var t := InsertBy(key, x, s[1..]);
      assert s == [s[0]] + s[1..];
      assert SortedBy(key, [s[0]] + t);
      [s[0]] + t
  }

  /**
   * A stable sort of `s` in ascending order of `key`: the result of
   * `[...s].sort((a, b) => key(a) - key(b))`.
   */
  function SortBy<T(==)>(key: T -> int, s: seq<T>): (r: seq<T>)
    ensures |r| == |s|
    ensures SortedBy(key, r)
    ensures multiset(r) == multiset(s)
  {
    if s == [] then []
    else
      assert s == [s[0]] + s[1..];
      InsertBy(key, s[0], SortBy(key, s[1..]))
  }

  /** Sorting under two keys that agree everywhere gives the same result. */
  lemma {:induction false} SortBySameKeys<T>(key1: T -> int, key2: T -> int, s: seq<T>)
    requires forall x :: key1(x) == key2(x)
    ensures SortBy(key1, s) == SortBy(key2, s)
  {
    if s != [] {
      SortBySameKeys(key1, key2, s[1..]);
      InsertBySameKeys(key1, key2, s[0], SortBy(key1, s[1..]));
    }
  }

  lemma {:induction false} InsertBySameKeys<T>(key1: T -> int, key2: T -> int, x: T, s: seq<T>)
    requires forall y :: key1(y) == key2(y)
    requires SortedBy(key1, s)
    ensures SortedBy(key2, s) && InsertBy(key1, x, s) == InsertBy(key2, x, s)
  {
    if s != [] && key1(x) > key1(s[0]) {
      InsertBySameKeys(key1, key2, x, s[1..]);
    }
  }

  /** The elements of `s` whose key is `k`, in their order in `s`. */
  function KeyClass<T(==,!new)>(key: T -> int, k: int, s: seq<T>): (r: seq<T>)
    ensures forall x :: x in r <==> x in s && key(x) == k
  {
    Filter(x => key(x) == k, s)
  }

  lemma {:induction false} KeyClassCons<T(!new)>(key: T -> int, k: int, x: T, s: seq<T>)
    ensures KeyClass(key, k, [x] + s) == if key(x) == k then [x] + KeyClass(key, k, s) else KeyClass(key, k, s)
  {
    assert ([x] + s)[0] == x && ([x] + s)[1..] == s;
  }

  /** Inserting `x` puts it ahead of every element with the same key. */
  lemma {:induction false} KeyClassInsert<T(!new)>(key: T -> int, k: int, x: T, s: seq<T>)
    requires SortedBy(key, s)
    ensures KeyClass(key, k, InsertBy(key, x, s))
         == if key(x) == k then [x] + KeyClass(key, k, s) else KeyClass(key, k, s)
  {
    if s == [] || key(x) <= key(s[0]) {
      KeyClassCons(key, k, x, s);
    } else {
      var t := InsertBy(key, x, s[1..]);
      assert s == [s[0]] + s[1..];
      KeyClassCons(key, k, s[0], t);
      KeyClassCons(key, k, s[0], s[1..]);
      KeyClassInsert(key, k, x, s[1..]);
    }
  }

  /** Stability: for every key, the elements carrying it appear in the same relative order as in the input. */
  lemma {:induction false} SortByStable<T(!new)>(key: T -> int, k: int, s: seq<T>)
    ensures KeyClass(key, k, SortBy(key, s)) == KeyClass(key, k, s)
  {
    if s != [] {
      assert s == [s[0]] + s[1..];
      SortByStable(key, k, s[1..]);
      KeyClassInsert(key, k, s[0], SortBy(key, s[1..]));
      KeyClassCons(key, k, s[0], s[1..]);
    }
  }

  /** When every element has the same key, the stable sort is the identity. */
  lemma SortByConstantKey<T(!new)>(key: T -> int, c: int, s: seq<T>)
    requires forall x :: x in s ==> key(x) == c
    ensures SortBy(key, s) == s
  {
    var r := SortBy(key, s);
    assert multiset(r) == multiset(s);
    forall x | x in r ensures key(x) == c {
      assert x in multiset(r);
    }
    FilterKeepsAll(x => key(x) == c, s);
    FilterKeepsAll(x => key(x) == c, r);
    SortByStable(key, c, s);
  }
}
