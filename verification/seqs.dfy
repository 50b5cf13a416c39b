/**
  Sequence operations the application relies on through JavaScript's
  `Array.prototype.filter` and `Array.prototype.map`, with the facts about
  them that every filter and marker list of the application inherits.
*/
module Seqs {

  /** `xs` is an order-preserving subsequence of `ys`: `xs` can be obtained
      from `ys` by deleting elements, without reordering what is left. */
  ghost predicate IsSubsequence<T>(xs: seq<T>, ys: seq<T>)
    decreases |ys|
  {
    && |xs| <= |ys|
    && (|| xs == []
        || (xs[0] == ys[0] && IsSubsequence(xs[1..], ys[1..]))
        || IsSubsequence(xs, ys[1..]))
  }

  /** `Array.prototype.filter`: the elements of `s` that satisfy `p`, in their
      original order, each as many times as it occurs in `s`. */
  function Filter<T(!new)>(p: T -> bool, s: seq<T>): (r: seq<T>)
    ensures |r| <= |s|
    ensures forall x :: x in r <==> x in s && p(x)
    ensures forall i :: 0 <= i < |r| ==> p(r[i])
    ensures forall x :: multiset(r)[x] == if p(x) then multiset(s)[x] else 0
    ensures IsSubsequence(r, s)
  {
    if s == [] then []
    else
      var rest := Filter(p, s[1..]);
      assert s == [s[0]] + s[1..];
      if p(s[0]) then
        var r := [s[0]] + rest;
        assert r[1..] == rest;
        r
      else rest
  }

  /** `Array.prototype.map`: `f` applied to each element of `s`, in order. */
  function Map<T, U>(f: T -> U, s: seq<T>): (r: seq<U>)
    ensures |r| == |s|
    ensures forall i :: 0 <= i < |s| ==> r[i] == f(s[i])
  {
    if s == [] then [] else [f(s[0])] + Map(f, s[1..])
  }

  /** Filtering with a predicate `p` that is at least as strict as `q` gives
      the same result whether or not the sequence was first filtered by `q`.
      With `p == q` this is idempotence. */
  lemma {:induction false} FilterAbsorbs<T(!new)>(p: T -> bool, q: T -> bool, s: seq<T>)
    requires forall x :: p(x) ==> q(x)
    ensures Filter(p, Filter(q, s)) == Filter(p, s)
  {
    if s != [] {
      FilterAbsorbs(p, q, s[1..]);
    }
  }

  /** Filtering an already filtered sequence with the same predicate changes
      nothing. */
  lemma FilterIdempotent<T(!new)>(p: T -> bool, s: seq<T>)
    ensures Filter(p, Filter(p, s)) == Filter(p, s)
  {
    FilterAbsorbs(p, p, s);
  }

  /** A predicate that every element satisfies keeps the sequence whole. */
  lemma {:induction false} FilterAll<T(!new)>(p: T -> bool, s: seq<T>)
    requires forall i :: 0 <= i < |s| ==> p(s[i])
    ensures Filter(p, s) == s
  {
    if s != [] {
      FilterAll(p, s[1..]);
      assert s == [s[0]] + s[1..];
    }
  }

  /** Two predicates that agree on every element of `s` filter it alike. */
  lemma {:induction false} FilterCongruent<T(!new)>(p: T -> bool, q: T -> bool, s: seq<T>)
    requires forall i :: 0 <= i < |s| ==> p(s[i]) == q(s[i])
    ensures Filter(p, s) == Filter(q, s)
  {
    if s != [] {
      FilterCongruent(p, q, s[1..]);
    }
  }
}
