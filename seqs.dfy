/**
 * The array searches the normalisers repeat (`find`, `filter`, a loop that returns the
 * first usable entry), written once over sequences and a predicate or a partial map.
 */
module Seqs {
  import opened Wrappers

  /** `xs.find(p)`. */
  function Find<T>(xs: seq<T>, p: T -> bool): (r: Option<T>)
    ensures r.None? <==> forall i :: 0 <= i < |xs| ==> !p(xs[i])
    ensures r.Some? ==> p(r.value) && r.value in xs
  {
    if |xs| == 0 then None
    else if p(xs[0]) then Some(xs[0])
    else
      var rest := Find(xs[1..], p);
      assert forall i :: 1 <= i < |xs| ==> xs[i] == xs[1..][i - 1];
      rest
  }

  /** The element at `k` is found when no element before it satisfies `p`. */
  lemma {:induction false} FindAt<T>(xs: seq<T>, p: T -> bool, k: nat)
    requires k < |xs| && p(xs[k])
    requires forall j :: 0 <= j < k ==> !p(xs[j])
    ensures Find(xs, p) == Some(xs[k])
  {
    if k > 0 {
      assert forall j :: 0 <= j < k - 1 ==> xs[1..][j] == xs[j + 1];
      FindAt(xs[1..], p, k - 1);
    }
  }

  /**
   * Searching for a narrower condition finds the same element when the first element
   * of the wider one already meets it.
   */
  lemma {:induction false} FindNarrow<T>(xs: seq<T>, p: T -> bool, q: T -> bool)
    requires forall x :: q(x) ==> p(x)
    requires Find(xs, p).Some? && q(Find(xs, p).value)
    ensures Find(xs, q) == Find(xs, p)
  {
    if !p(xs[0]) {
      FindNarrow(xs[1..], p, q);
    }
  }

  /** `xs.filter(p)`. */
  function Filter<T>(xs: seq<T>, p: T -> bool): (r: seq<T>)
    ensures |r| <= |xs|
    ensures forall i :: 0 <= i < |r| ==> r[i] in xs && p(r[i])
    ensures forall i :: 0 <= i < |xs| && p(xs[i]) ==> xs[i] in r
  {
    if |xs| == 0 then []
    else
      var rest := Filter(xs[1..], p);
      assert forall i :: 1 <= i < |xs| ==> xs[i] == xs[1..][i - 1];
      if p(xs[0]) then [xs[0]] + rest else rest
  }

  /** Filtering keeps the input order: it distributes over concatenation. */
  lemma {:induction false} FilterAppend<T>(xs: seq<T>, ys: seq<T>, p: T -> bool)
    ensures Filter(xs + ys, p) == Filter(xs, p) + Filter(ys, p)
  {
    if |xs| > 0 {
      assert (xs + ys)[1..] == xs[1..] + ys;
      FilterAppend(xs[1..], ys, p);
    } else {
      assert xs + ys == ys;
    }
  }

  /** Searching the filtered sequence is searching for both conditions at once. */
  lemma {:induction false} FindInFilter<T>(xs: seq<T>, p: T -> bool, q: T -> bool, both: T -> bool)
    requires forall x :: both(x) == (p(x) && q(x))
    ensures Find(Filter(xs, p), q) == Find(xs, both)
  {
    if |xs| > 0 {
      FindInFilter(xs[1..], p, q, both);
    }
  }

  /** The first element of the filtered sequence is the first element satisfying `p`. */
  lemma {:induction false} FilterHead<T>(xs: seq<T>, p: T -> bool)
    ensures |Filter(xs, p)| > 0 <==> Find(xs, p).Some?
    ensures |Filter(xs, p)| > 0 ==> Filter(xs, p)[0] == Find(xs, p).value
  {
    if |xs| > 0 {
      FilterHead(xs[1..], p);
    }
  }

  /** The value `f` gives the first element for which it gives one. */
  function FirstSome<T, U>(f: T -> Option<U>, xs: seq<T>): (r: Option<U>)
    ensures r.None? <==> forall i :: 0 <= i < |xs| ==> f(xs[i]).None?
    ensures r.Some? ==> exists i :: 0 <= i < |xs| && f(xs[i]) == r
  {
    if |xs| == 0 then None
    else if f(xs[0]).Some? then f(xs[0])
    else
      var rest := FirstSome(f, xs[1..]);
      assert forall i :: 1 <= i < |xs| ==> xs[i] == xs[1..][i - 1];
      rest
  }

  /** The element at `k` wins when every element before it gives nothing. */
  lemma {:induction false} FirstSomeAt<T, U>(f: T -> Option<U>, xs: seq<T>, k: nat)
    requires k < |xs| && f(xs[k]).Some?
    requires forall j :: 0 <= j < k ==> f(xs[j]).None?
    ensures FirstSome(f, xs) == f(xs[k])
  {
    if k > 0 {
      assert forall j :: 0 <= j < k - 1 ==> xs[1..][j] == xs[j + 1];
      FirstSomeAt(f, xs[1..], k - 1);
    }
  }

  /** `xs.map(f).filter(defined)`: the values `f` gives, in order. */
  function FilterMap<T, U>(xs: seq<T>, f: T -> Option<U>): (r: seq<U>)
    ensures |r| <= |xs|
    ensures |r| == 0 <==> forall i :: 0 <= i < |xs| ==> f(xs[i]).None?
    ensures forall i :: 0 <= i < |r| ==> exists j :: 0 <= j < |xs| && f(xs[j]) == Some(r[i])
    ensures forall j :: 0 <= j < |xs| && f(xs[j]).Some? ==> f(xs[j]).value in r
  {
    if |xs| == 0 then []
    else
      var rest := FilterMap(xs[1..], f);
      assert forall j :: 1 <= j < |xs| ==> xs[j] == xs[1..][j - 1];
      if f(xs[0]).Some? then [f(xs[0]).value] + rest else rest
  }

  /** The first value is the value `f` gives the first element it is defined on. */
  lemma {:induction false} FilterMapHead<T, U>(xs: seq<T>, f: T -> Option<U>)
    ensures |FilterMap(xs, f)| > 0 ==> Some(FilterMap(xs, f)[0]) == FirstSome(f, xs)
  {
    if |xs| > 0 {
      FilterMapHead(xs[1..], f);
    }
  }

  /** Mapping a list extended by one element extends the result by that element's value, if any. */
  lemma {:induction false} FilterMapSnoc<T, U>(xs: seq<T>, x: T, f: T -> Option<U>)
    ensures FilterMap(xs + [x], f) == FilterMap(xs, f) + (if f(x).Some? then [f(x).value] else [])
  {
    if |xs| > 0 {
      assert (xs + [x])[1..] == xs[1..] + [x];
      FilterMapSnoc(xs[1..], x, f);
    } else {
      assert (xs + [x])[1..] == [];
    }
  }

  /** The loop that keeps the defined values of `f` over `xs`, in order. */
  method CollectSome<T, U>(xs: seq<T>, f: T -> Option<U>) returns (r: seq<U>)
    ensures r == FilterMap(xs, f)
  {
    r := [];
    for i := 0 to |xs|
      invariant r == FilterMap(xs[..i], f)
    {
      assert xs[..i + 1] == xs[..i] + [xs[i]];
      FilterMapSnoc(xs[..i], xs[i], f);
      var c := f(xs[i]);
      if c.Some? {
        r := r + [c.value];
      }
    }
    assert xs[..|xs|] == xs;
  }
}
