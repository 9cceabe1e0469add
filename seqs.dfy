/** Sequence combinators shared by the locator ladder, the penalty rules and the healing loops. */
module Seqs {
  import opened Wrappers

  /** The elements of `xs` that `keep` accepts, in their original order. */
  function Filter<T>(xs: seq<T>, keep: T -> bool): (r: seq<T>)
    ensures |r| <= |xs|
    ensures forall k | 0 <= k < |r| :: keep(r[k]) && r[k] in xs
  {
    if xs == [] then []
    else (if keep(xs[0]) then [xs[0]] else []) + Filter(xs[1..], keep)
  }

  /** `f` applied to every element of `xs`, built from the back as a loop of appends builds it. */
  function Map<A, B>(f: A -> B, xs: seq<A>): (r: seq<B>)
    ensures |r| == |xs|
    ensures forall i | 0 <= i < |xs| :: r[i] == f(xs[i])
  {
    if xs == [] then [] else Map(f, xs[..|xs| - 1]) + [f(xs[|xs| - 1])]
  }

  /** `xs` is strictly increasing in `rank`. */
  predicate IncreasingBy<T>(xs: seq<T>, rank: T -> int) {
    forall i, j | 0 <= i < j < |xs| :: rank(xs[i]) < rank(xs[j])
  }

  /** Filtering keeps the relative order: a sequence increasing in `rank` stays increasing. */
  lemma {:induction false} FilterKeepsOrder<T>(xs: seq<T>, keep: T -> bool, rank: T -> int)
    requires IncreasingBy(xs, rank)
    ensures IncreasingBy(Filter(xs, keep), rank)
  {
    if xs != [] {
      assert IncreasingBy(xs[1..], rank) by {
        forall i, j | 0 <= i < j < |xs[1..]| ensures rank(xs[1..][i]) < rank(xs[1..][j]) {
          assert xs[1..][i] == xs[i + 1] && xs[1..][j] == xs[j + 1];
        }
      }
      FilterKeepsOrder(xs[1..], keep, rank);
      var tail := Filter(xs[1..], keep);
      if keep(xs[0]) {
        forall y | y in tail ensures rank(xs[0]) < rank(y) {
          var k :| 1 <= k < |xs| && xs[k] == y;
        }
        OrderedCons(xs[0], tail, rank);
      }
    }
  }

  lemma OrderedCons<T>(x: T, tail: seq<T>, rank: T -> int)
    requires IncreasingBy(tail, rank)
    requires forall y | y in tail :: rank(x) < rank(y)
    ensures IncreasingBy([x] + tail, rank)
  {
    var r := [x] + tail;
    forall i, j | 0 <= i < j < |r| ensures rank(r[i]) < rank(r[j]) {
      assert r[j] == tail[j - 1] && r[j] in tail;
      if i > 0 {
        assert r[i] == tail[i - 1];
      }
    }
  }

  /** The first present value of `xs`: the early-exit "return the first truthy result" loop. */
  function FirstSome<T>(xs: seq<Option<T>>): (r: Option<T>)
    ensures r.Some? <==> exists i | 0 <= i < |xs| :: xs[i].Some?
    ensures r.Some? ==> r in xs
  {
    if xs == [] then None
    else if xs[0].Some? then xs[0]
    else
      assert forall i | 1 <= i < |xs| :: xs[i] == xs[1..][i - 1];
      FirstSome(xs[1..])
  }

  /** `FirstSome` skips exactly a prefix of absent values and stops at the first present one. */
  lemma {:induction false} FirstSomeIsFirst<T>(xs: seq<Option<T>>)
    requires FirstSome(xs).Some?
    ensures exists i | 0 <= i < |xs| ::
      xs[i] == FirstSome(xs) && forall j | 0 <= j < i :: xs[j].None?
  {
    if xs[0].None? {
      FirstSomeIsFirst(xs[1..]);
      var i :| 0 <= i < |xs[1..]| && xs[1..][i] == FirstSome(xs[1..])
        && forall j | 0 <= j < i :: xs[1..][j].None?;
      assert xs[i + 1] == FirstSome(xs);
      assert forall j | 0 <= j < i + 1 :: xs[j].None? by {
        forall j | 0 <= j < i + 1 ensures xs[j].None? {
          if j > 0 { assert xs[j] == xs[1..][j - 1]; }
        }
      }
    } else {
      assert xs[0] == FirstSome(xs);
    }
  }

  /** Skipping an absent head leaves the first present value unchanged. */
  lemma FirstSomeSkip<T>(xs: seq<Option<T>>, i: nat)
    requires i < |xs| && xs[i].None?
    ensures FirstSome(xs[i..]) == FirstSome(xs[i + 1..])
  {
    assert xs[i..][1..] == xs[i + 1..];
  }
}
