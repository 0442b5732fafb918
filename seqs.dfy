/**
 * The two array idioms the application leans on everywhere:
 * `xs.find(p)` (here as the index of the first hit) and `xs.filter(p)`.
 */
module Seqs {
  import opened Wrappers

  /** `xs.findIndex(p)`: the first position whose element satisfies `p`. */
  function FirstIndex<T>(xs: seq<T>, p: T -> bool): (r: Option<nat>)
    ensures r.Some? ==> r.value < |xs| && p(xs[r.value])
    ensures r.Some? ==> forall j :: 0 <= j < r.value ==> !p(xs[j])
    ensures r.None? <==> forall j :: 0 <= j < |xs| ==> !p(xs[j])
    decreases |xs|
  {
    if xs == [] then None
    else if p(xs[0]) then Some(0)
    else match FirstIndex(xs[1..], p)
      case None => None
      case Some(k) => Some(k + 1)
  }

  /** Two tests that agree on every element find the same first position. */
  lemma FirstIndexAgree<T>(xs: seq<T>, p: T -> bool, q: T -> bool)
    requires forall i :: 0 <= i < |xs| ==> (p(xs[i]) <==> q(xs[i]))
    ensures FirstIndex(xs, p) == FirstIndex(xs, q)
  {
  }

  /** `xs.filter(p)`: the elements satisfying `p`, in their original order. */
  function Filter<T>(xs: seq<T>, p: T -> bool): (r: seq<T>)
    ensures |r| <= |xs|
    ensures forall i :: 0 <= i < |r| ==> p(r[i]) && r[i] in xs
    ensures forall i :: 0 <= i < |xs| && p(xs[i]) ==> xs[i] in r
    decreases |xs|
  {
    if xs == [] then []
    else (if p(xs[0]) then [xs[0]] else []) + Filter(xs[1..], p)
  }

  /** Filtering distributes over concatenation, so it keeps relative order. */
  lemma {:induction false} FilterConcat<T>(a: seq<T>, b: seq<T>, p: T -> bool)
    ensures Filter(a + b, p) == Filter(a, p) + Filter(b, p)
    decreases |a|
  {
    if a == [] {
      assert a + b == b;
    } else {
      assert (a + b)[0] == a[0];
      assert (a + b)[1..] == a[1..] + b;
      FilterConcat(a[1..], b, p);
    }
  }

  /** Filtering keeps everything exactly when every element passes. */
  lemma {:induction false} FilterAll<T>(xs: seq<T>, p: T -> bool)
    requires forall i :: 0 <= i < |xs| ==> p(xs[i])
    ensures Filter(xs, p) == xs
    decreases |xs|
  {
    if xs != [] {
      FilterAll(xs[1..], p);
    }
  }

  /** Filtering twice with the same predicate is filtering once. */
  lemma {:induction false} FilterIdempotent<T>(xs: seq<T>, p: T -> bool)
    ensures Filter(Filter(xs, p), p) == Filter(xs, p)
  {
    var r := Filter(xs, p);
    FilterAll(r, p);
  }

  /** Filtering keeps nothing when nothing passes. */
  lemma {:induction false} FilterNone<T>(xs: seq<T>, p: T -> bool)
    requires forall i :: 0 <= i < |xs| ==> !p(xs[i])
    ensures Filter(xs, p) == []
    decreases |xs|
  {
    if xs != [] {
      FilterNone(xs[1..], p);
    }
  }

  /** When exactly one element passes, filtering keeps just that element. */
  lemma {:induction false} FilterUnique<T>(xs: seq<T>, p: T -> bool, i: nat)
    requires i < |xs| && p(xs[i])
    requires forall j :: 0 <= j < |xs| && j != i ==> !p(xs[j])
    ensures Filter(xs, p) == [xs[i]]
    decreases |xs|
  {
    var tail := xs[1..];
    if i == 0 {
      FilterNone(tail, p);
      assert Filter(xs, p) == [xs[0]] + [];
    } else {
      assert !p(xs[0]);
      assert tail[i - 1] == xs[i];
      FilterUnique(tail, p, i - 1);
    }
  }

  /** Filtering a list with a given head: the head when it passes, then the filtered tail. */
  lemma FilterCons<T>(x: T, tail: seq<T>, p: T -> bool)
    ensures Filter([x] + tail, p) == (if p(x) then [x] else []) + Filter(tail, p)
  {
    assert ([x] + tail)[1..] == tail;
  }

  /** Filtering by `p` and then by a stronger `q` is filtering by `q`. */
  lemma {:induction false} FilterNarrow<T>(xs: seq<T>, p: T -> bool, q: T -> bool)
    requires forall i :: 0 <= i < |xs| && q(xs[i]) ==> p(xs[i])
    ensures Filter(Filter(xs, p), q) == Filter(xs, q)
    decreases |xs|
  {
    if xs != [] {
      var x, tail := xs[0], xs[1..];
      assert forall i :: 0 <= i < |tail| ==> tail[i] == xs[i + 1];
      FilterNarrow(tail, p, q);
      if p(x) {
        assert Filter(xs, p) == [x] + Filter(tail, p);
        FilterCons(x, Filter(tail, p), q);
      } else {
        assert !q(x);
        assert Filter(xs, p) == [] + Filter(tail, p) == Filter(tail, p);
        assert Filter(xs, q) == [] + Filter(tail, q) == Filter(tail, q);
      }
    }
  }
}
