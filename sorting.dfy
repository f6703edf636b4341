/**
 * The stable sort `Array.prototype.sort` performs with a comparator that orders by a
 * key: elements with equal keys keep their relative order.
 */
module Sorting {
  /** A sort key, compared on `major` first and on `minor` when the majors are equal. */
  datatype SortKey = SortKey(major: int, minor: real)

  predicate KeyLess(a: SortKey, b: SortKey) {
    a.major < b.major || (a.major == b.major && a.minor < b.minor)
  }

  /** No element sorts before an earlier one. */
  ghost predicate SortedBy<T>(s: seq<T>, key: T -> SortKey) {
    forall i, j :: 0 <= i < j < |s| ==> !KeyLess(key(s[j]), key(s[i]))
  }

  /** Inserts `x` into sorted `s` after every element that does not sort after `x`. */
  function InsertBy<T>(x: T, s: seq<T>, key: T -> SortKey): (r: seq<T>)
    ensures multiset(r) == multiset(s) + multiset{x}
  {
    if |s| == 0 then [x]
    else if KeyLess(key(x), key(s[0])) then [x] + s
    else
      assert s == [s[0]] + s[1..];
      [s[0]] + InsertBy(x, s[1..], key)
  }

  lemma {:induction false} InsertBySorted<T>(x: T, s: seq<T>, key: T -> SortKey)
    requires SortedBy(s, key)
    ensures SortedBy(InsertBy(x, s, key), key)
  {
    if |s| > 0 && !KeyLess(key(x), key(s[0])) {
      var rest := InsertBy(x, s[1..], key);
      InsertBySorted(x, s[1..], key);
      forall k | 0 <= k < |rest|
        ensures !KeyLess(key(rest[k]), key(s[0]))
      {
        assert rest[k] in multiset(s[1..]) + multiset{x};
        if rest[k] != x {
          assert rest[k] in s[1..];
        }
      }
      assert InsertBy(x, s, key) == [s[0]] + rest;
    }
  }

  /** The stable sort of `s` by `key`: each element is inserted after the ones before it. */
  function SortBy<T>(s: seq<T>, key: T -> SortKey): (r: seq<T>)
    ensures multiset(r) == multiset(s)
    ensures SortedBy(r, key)
  {
    if |s| == 0 then []
    else
      assert s == s[..|s| - 1] + [s[|s| - 1]];
      InsertBySorted(s[|s| - 1], SortBy(s[..|s| - 1], key), key);
      InsertBy(s[|s| - 1], SortBy(s[..|s| - 1], key), key)
  }

  /** Sorting keeps the length. */
  lemma SortByLength<T>(s: seq<T>, key: T -> SortKey)
    ensures |SortBy(s, key)| == |s|
  {
    assert |multiset(SortBy(s, key))| == |multiset(s)|;
  }

  /** Every element of the sorted sequence is an element of the input, and back. */
  lemma SortByMembers<T>(s: seq<T>, key: T -> SortKey, x: T)
    ensures x in SortBy(s, key) <==> x in s
  {
    assert x in multiset(SortBy(s, key)) <==> x in multiset(s);
  }

  /** Values `f` tells apart stay apart after sorting. */
  ghost predicate Distinct<T, K>(s: seq<T>, f: T -> K) {
    forall i, j :: 0 <= i < j < |s| ==> f(s[i]) != f(s[j])
  }

  lemma {:induction false} InsertByDistinct<T, K>(x: T, s: seq<T>, key: T -> SortKey, f: T -> K)
    requires Distinct(s, f)
    requires forall i :: 0 <= i < |s| ==> f(s[i]) != f(x)
    ensures Distinct(InsertBy(x, s, key), f)
  {
    if |s| > 0 && !KeyLess(key(x), key(s[0])) {
      var rest := InsertBy(x, s[1..], key);
      InsertByDistinct(x, s[1..], key, f);
      forall k | 0 <= k < |rest|
        ensures f(rest[k]) != f(s[0])
      {
        assert rest[k] in multiset(s[1..]) + multiset{x};
        if rest[k] != x {
          assert rest[k] in s[1..];
        }
      }
      assert InsertBy(x, s, key) == [s[0]] + rest;
    }
  }

  lemma {:induction false} SortByDistinct<T, K>(s: seq<T>, key: T -> SortKey, f: T -> K)
    requires Distinct(s, f)
    ensures Distinct(SortBy(s, key), f)
  {
    if |s| > 0 {
      var init := s[..|s| - 1];
      var sorted := SortBy(init, key);
      SortByDistinct(init, key, f);
      forall i | 0 <= i < |sorted|
        ensures f(sorted[i]) != f(s[|s| - 1])
      {
        SortByMembers(init, key, sorted[i]);
      }
      InsertByDistinct(s[|s| - 1], sorted, key, f);
    }
  }
}
