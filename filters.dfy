// Filtering a sequence by a test, as a database query or `Array.filter` does:
// the kept elements, in their order, each as often as the input holds it.

module Filters {

  /**
   * The elements of `xs` that satisfy `f`, in their order: each kept element
   * as often as `xs` holds it, every other element not at all.
   */
  function Keep<T(!new)>(xs: seq<T>, f: T -> bool): (r: seq<T>)
    ensures |r| <= |xs|
    ensures forall x :: x in r <==> x in xs && f(x)
    ensures forall x :: multiset(r)[x] == if f(x) then multiset(xs)[x] else 0
    decreases |xs|
  {
    if xs == [] then []
    else
      var last := xs[|xs| - 1];
      var rest := Keep(xs[..|xs| - 1], f);
      assert xs == xs[..|xs| - 1] + [last];
      if f(last) then rest + [last] else rest
  }

  /** Filtering a concatenation filters each part and keeps the parts in order. */
  lemma {:induction false} KeepAppend<T(!new)>(xs: seq<T>, ys: seq<T>, f: T -> bool)
    ensures Keep(xs + ys, f) == Keep(xs, f) + Keep(ys, f)
    decreases |ys|
  {
    if ys == [] {
      assert xs + ys == xs;
    } else {
      assert (xs + ys)[..|xs + ys| - 1] == xs + ys[..|ys| - 1];
      KeepAppend(xs, ys[..|ys| - 1], f);
    }
  }

  /** `xs` is sorted by `before`: every element comes `before` each element after it. */
  predicate Ordered<T>(xs: seq<T>, before: (T, T) -> bool)
  {
    forall i, j :: 0 <= i < j < |xs| ==> before(xs[i], xs[j])
  }

  /** Filtering keeps any order the input is sorted by, so a sorted query stays sorted. */
  lemma {:induction false} KeepOrdered<T(!new)>(xs: seq<T>, f: T -> bool, before: (T, T) -> bool)
    requires Ordered(xs, before)
    ensures Ordered(Keep(xs, f), before)
    decreases |xs|
  {
    if xs != [] {
      var init := xs[..|xs| - 1];
      var last := xs[|xs| - 1];
      var rest := Keep(init, f);
      KeepOrdered(init, f, before);
      if f(last) {
        forall i | 0 <= i < |rest|
          ensures before(rest[i], last)
        {
          assert rest[i] in init;
          var k :| 0 <= k < |init| && init[k] == rest[i];
          assert xs[k] == rest[i];
        }
        assert Keep(xs, f) == rest + [last];
      }
    }
  }

  /** Two tests that agree on every element keep the same elements. */
  lemma {:induction false} KeepSame<T(!new)>(xs: seq<T>, f: T -> bool, g: T -> bool)
    requires forall x :: f(x) == g(x)
    ensures Keep(xs, f) == Keep(xs, g)
    decreases |xs|
  {
    if xs != [] {
      KeepSame(xs[..|xs| - 1], f, g);
    }
  }

  /** A test every element passes keeps the whole sequence. */
  lemma {:induction false} KeepAll<T(!new)>(xs: seq<T>, f: T -> bool)
    requires forall x :: f(x)
    ensures Keep(xs, f) == xs
    decreases |xs|
  {
    if xs != [] {
      KeepAll(xs[..|xs| - 1], f);
      assert xs == xs[..|xs| - 1] + [xs[|xs| - 1]];
    }
  }
}
