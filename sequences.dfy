/** Small facts about sequences used by the level bookkeeping. */
module Sequences {

  /** No element occurs twice. */
  ghost predicate Distinct<T>(xs: seq<T>)
  {
    forall i, j :: 0 <= i < j < |xs| ==> xs[i] != xs[j]
  }

  /** The elements of `xs` whose flag in `keep` is set, in their original order. */
  function Filter<T>(xs: seq<T>, keep: seq<bool>): (r: seq<T>)
    requires |keep| == |xs|
    ensures |r| <= |xs|
  {
    if xs == [] then []
    else
      var n := |xs| - 1;
      Filter(xs[..n], keep[..n]) + (if keep[n] then [xs[n]] else [])
  }

  /** Number of occurrences of `x` in `xs`. */
  function Count<T(==)>(xs: seq<T>, x: T): (r: nat)
    ensures r <= |xs|
  {
    if xs == [] then 0
    else Count(xs[..|xs| - 1], x) + (if xs[|xs| - 1] == x then 1 else 0)
  }

  /** Number of set flags. */
  function Trues(keep: seq<bool>): nat
  {
    Count(keep, true)
  }

  /** Every kept element comes from a flagged position of the input, and every flagged
      input element is kept. */
  lemma {:induction false} FilterMembers<T>(xs: seq<T>, keep: seq<bool>)
    requires |keep| == |xs|
    ensures forall x :: x in Filter(xs, keep) ==> x in xs
    ensures forall x :: x in Filter(xs, keep) ==> exists i :: 0 <= i < |xs| && xs[i] == x && keep[i]
    ensures forall i :: 0 <= i < |xs| && keep[i] ==> xs[i] in Filter(xs, keep)
  {
    if xs != [] {
      var n := |xs| - 1;
      FilterMembers(xs[..n], keep[..n]);
      forall i | 0 <= i < n
        ensures xs[..n][i] == xs[i] && keep[..n][i] == keep[i]
      {
      }
      forall x | x in Filter(xs, keep)
        ensures exists i :: 0 <= i < |xs| && xs[i] == x && keep[i]
      {
        if x in Filter(xs[..n], keep[..n]) {
          var i :| 0 <= i < n && xs[..n][i] == x && keep[..n][i];
          assert xs[i] == x && keep[i];
        } else {
          assert xs[n] == x && keep[n];
        }
      }
    }
  }

  /** The filter keeps exactly as many elements as there are set flags. */
  lemma {:induction false} FilterLength<T>(xs: seq<T>, keep: seq<bool>)
    requires |keep| == |xs|
    ensures |Filter(xs, keep)| == Trues(keep)
  {
    if xs != [] {
      var n := |xs| - 1;
      FilterLength(xs[..n], keep[..n]);
    }
  }

  /** Filtering a sequence without repetitions gives a sequence without repetitions. */
  lemma {:induction false} FilterDistinct<T>(xs: seq<T>, keep: seq<bool>)
    requires |keep| == |xs| && Distinct(xs)
    ensures Distinct(Filter(xs, keep))
  {
    if xs != [] {
      var n := |xs| - 1;
      assert Distinct(xs[..n]);
      FilterDistinct(xs[..n], keep[..n]);
      FilterMembers(xs[..n], keep[..n]);
      var front := Filter(xs[..n], keep[..n]);
      if keep[n] {
        assert xs[n] !in xs[..n];
        assert xs[n] !in front;
        var r := front + [xs[n]];
        forall i, j | 0 <= i < j < |r| ensures r[i] != r[j] {
          if j == |r| - 1 {
            assert r[i] in front;
          }
        }
      }
    }
  }

  /** Counting over a concatenation adds up. */
  lemma {:induction false} CountAppend<T>(xs: seq<T>, ys: seq<T>, x: T)
    ensures Count(xs + ys, x) == Count(xs, x) + Count(ys, x)
  {
    if ys != [] {
      var n := |ys| - 1;
      assert (xs + ys)[..|xs + ys| - 1] == xs + ys[..n];
      CountAppend(xs, ys[..n], x);
    } else {
      assert xs + ys == xs;
    }
  }

  /** In a sequence without repetitions, an element survives the filter exactly when its
      flag is set. */
  lemma FilterExact<T>(xs: seq<T>, keep: seq<bool>, i: int)
    requires |keep| == |xs| && Distinct(xs) && 0 <= i < |xs|
    ensures xs[i] in Filter(xs, keep) <==> keep[i]
  {
    FilterMembers(xs, keep);
    if !keep[i] {
      FilterDrops(xs, keep, i);
    }
  }

  /** An element whose flag is clear, and that occurs nowhere else, is filtered out. */
  lemma {:induction false} FilterDrops<T>(xs: seq<T>, keep: seq<bool>, i: int)
    requires |keep| == |xs| && Distinct(xs) && 0 <= i < |xs| && !keep[i]
    ensures xs[i] !in Filter(xs, keep)
  {
    var n := |xs| - 1;
    assert Distinct(xs[..n]);
    FilterMembers(xs[..n], keep[..n]);
    if i < n {
      FilterDrops(xs[..n], keep[..n], i);
      assert xs[n] != xs[i];
    } else {
      assert xs[n] !in xs[..n];
    }
  }
}
