/** Sequence helpers that give the usage template's filtered `range` loops and
    its run of optional sections an order-preserving, element-wise meaning. */
module Seqs {

  /** The elements of `xs` that satisfy `keep`, in the order `xs` has them. */
  function Filter<T>(keep: T -> bool, xs: seq<T>): (r: seq<T>)
    ensures |r| <= |xs|
    ensures forall x :: x in r ==> x in xs && keep(x)
    ensures forall x :: x in xs && keep(x) ==> x in r
  {
    if xs == [] then []
    else
      assert forall x :: x in xs[1..] ==> x in xs;
      assert forall x :: x in xs ==> x == xs[0] || x in xs[1..];
      (if keep(xs[0]) then [xs[0]] else []) + Filter(keep, xs[1..])
  }

  /** The texts `f(x)` of the elements `x` of `xs`, joined with no separator. */
  function ConcatMap<T>(xs: seq<T>, f: T -> string): string
  {
    if xs == [] then "" else f(xs[0]) + ConcatMap(xs[1..], f)
  }

  /** `xs` lists its elements in strictly increasing `rank`. */
  predicate Increasing<T>(xs: seq<T>, rank: T -> int)
  {
    forall i, j :: 0 <= i < j < |xs| ==> rank(xs[i]) < rank(xs[j])
  }

  /** Filtering distributes over concatenation: nothing is reordered. */
  lemma {:induction false} FilterAppend<T>(keep: T -> bool, a: seq<T>, b: seq<T>)
    ensures Filter(keep, a + b) == Filter(keep, a) + Filter(keep, b)
  {
    if a == [] {
      assert a + b == b;
    } else {
      assert (a + b)[0] == a[0];
      assert (a + b)[1..] == a[1..] + b;
      FilterAppend(keep, a[1..], b);
    }
  }

  /** What is kept keeps the relative order it had. */
  lemma {:induction false} FilterIncreasing<T>(keep: T -> bool, xs: seq<T>, rank: T -> int)
    requires Increasing(xs, rank)
    ensures Increasing(Filter(keep, xs), rank)
  {
    if xs != [] {
      var tail := xs[1..];
      assert Increasing(tail, rank) by {
        forall i, j | 0 <= i < j < |tail| ensures rank(tail[i]) < rank(tail[j]) {
          assert tail[i] == xs[i + 1] && tail[j] == xs[j + 1];
        }
      }
      FilterIncreasing(keep, tail, rank);
      var rest := Filter(keep, tail);
      forall y | y in rest ensures rank(xs[0]) < rank(y) {
        var k :| 0 <= k < |tail| && tail[k] == y;
        assert xs[k + 1] == y;
      }
    }
  }

  /** Joining distributes over concatenation. */
  lemma {:induction false} ConcatMapAppend<T>(a: seq<T>, b: seq<T>, f: T -> string)
    ensures ConcatMap(a + b, f) == ConcatMap(a, f) + ConcatMap(b, f)
  {
    if a == [] {
      assert a + b == b;
    } else {
      assert (a + b)[0] == a[0];
      assert (a + b)[1..] == a[1..] + b;
      ConcatMapAppend(a[1..], b, f);
    }
  }

  /** Filtering, one element from the end. */
  lemma FilterLast<T>(keep: T -> bool, xs: seq<T>)
    requires xs != []
    ensures var n := |xs| - 1;
      Filter(keep, xs) == Filter(keep, xs[..n]) + (if keep(xs[n]) then [xs[n]] else [])
  {
    var n := |xs| - 1;
    var last := [xs[n]];
    assert xs == xs[..n] + last;
    FilterAppend(keep, xs[..n], last);
    assert last[1..] == [];
  }

  /** Joining a filtered list, one element from the end. */
  lemma FilterConcatMapLast<T>(keep: T -> bool, xs: seq<T>, f: T -> string)
    requires xs != []
    ensures var n := |xs| - 1;
      ConcatMap(Filter(keep, xs), f)
      == ConcatMap(Filter(keep, xs[..n]), f) + (if keep(xs[n]) then f(xs[n]) else "")
  {
    var n := |xs| - 1;
    FilterLast(keep, xs);
    var kept: seq<T> := if keep(xs[n]) then [xs[n]] else [];
    ConcatMapAppend(Filter(keep, xs[..n]), kept, f);
    if keep(xs[n]) {
      ConcatMapSingle(xs[n], f);
    }
  }

  lemma ConcatMapSingle<T>(x: T, f: T -> string)
    ensures ConcatMap([x], f) == f(x)
  {
    assert [x][1..] == [];
  }

  /** Concatenation regroups freely. */
  lemma Assoc<T>(a: seq<T>, b: seq<T>, c: seq<T>)
    ensures a + (b + c) == a + b + c
  {
  }
}
