/**
 * `Array.prototype.filter` and the facts about it the UI relies on: the
 * result is an order-preserving subsequence holding exactly the kept
 * elements, filtering twice is filtering once, and predicates that agree
 * give the same result.
 */
module Seqs {

  /** `ys` is `xs` with some elements dropped, the rest in their original order. */
  predicate SubsequenceOf<T(==)>(ys: seq<T>, xs: seq<T>)
    decreases |xs|
  {
    || ys == []
    || (xs != [] && ys[0] == xs[0] && SubsequenceOf(ys[1..], xs[1..]))
    || (xs != [] && SubsequenceOf(ys, xs[1..]))
  }

  /** `xs.filter(keep)`. */
  function Filter<T>(xs: seq<T>, keep: T -> bool): (ys: seq<T>)
    ensures |ys| <= |xs|
    ensures forall y :: y in ys ==> keep(y) && y in xs
    ensures forall i :: 0 <= i < |xs| && keep(xs[i]) ==> xs[i] in ys
  {
    if xs == [] then []
    else if keep(xs[0]) then [xs[0]] + Filter(xs[1..], keep)
    else Filter(xs[1..], keep)
  }

  /** Every kept element keeps its multiplicity; every dropped one is gone. */
  lemma {:induction false} FilterMultiset<T>(xs: seq<T>, keep: T -> bool, x: T)
    ensures multiset(Filter(xs, keep))[x] == if keep(x) then multiset(xs)[x] else 0
  {
    if xs != [] {
      FilterMultiset(xs[1..], keep, x);
      assert xs == [xs[0]] + xs[1..];
      assert multiset(xs)[x] == multiset([xs[0]])[x] + multiset(xs[1..])[x];
      if keep(xs[0]) {
        assert multiset(Filter(xs, keep))[x] == multiset([xs[0]])[x] + multiset(Filter(xs[1..], keep))[x];
      }
    }
  }

  /** The multiplicity law for every element at once. */
  lemma FilterMultisetAll<T>(xs: seq<T>, keep: T -> bool)
    ensures forall x :: multiset(Filter(xs, keep))[x] == if keep(x) then multiset(xs)[x] else 0
  {
    forall x {
      FilterMultiset(xs, keep, x);
    }
  }

  /** The filtered list is an order-preserving subsequence of the input. */
  lemma {:induction false} FilterIsSubsequence<T>(xs: seq<T>, keep: T -> bool)
    ensures SubsequenceOf(Filter(xs, keep), xs)
  {
    if xs != [] {
      FilterIsSubsequence(xs[1..], keep);
      var ys := Filter(xs, keep);
      if keep(xs[0]) {
        assert ys[0] == xs[0] && ys[1..] == Filter(xs[1..], keep);
      }
    }
  }

  /** A filter that keeps everything changes nothing. */
  lemma {:induction false} FilterKeepAll<T>(xs: seq<T>, keep: T -> bool)
    requires forall i :: 0 <= i < |xs| ==> keep(xs[i])
    ensures Filter(xs, keep) == xs
  {
    if xs != [] {
      FilterKeepAll(xs[1..], keep);
      assert [xs[0]] + xs[1..] == xs;
    }
  }

  /** Filtering again by the same predicate changes nothing. */
  lemma FilterIdempotent<T>(xs: seq<T>, keep: T -> bool)
    ensures Filter(Filter(xs, keep), keep) == Filter(xs, keep)
  {
    var ys := Filter(xs, keep);
    assert forall i :: 0 <= i < |ys| ==> ys[i] in ys;
    FilterKeepAll(ys, keep);
  }

  /** Predicates that agree on every element give the same filtered list. */
  lemma {:induction false} FilterAgree<T>(xs: seq<T>, f: T -> bool, g: T -> bool)
    requires forall i :: 0 <= i < |xs| ==> f(xs[i]) == g(xs[i])
    ensures Filter(xs, f) == Filter(xs, g)
  {
    if xs != [] {
      FilterAgree(xs[1..], f, g);
    }
  }
}
