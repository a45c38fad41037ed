/** Python's filtered list comprehension `[f(x) for x in xs if p(x)]`, which
    the catalog-driven analyzer uses to split recommendations, and the facts
    about it that hold whatever the items are. */
module Comprehension {

  /** `[f(x) for x in xs if p(x)]`, built from the back as the loop's
      appends are. */
  function Filtered<T, U>(xs: seq<T>, p: T -> bool, f: T -> U): seq<U>
  {
    if xs == [] then []
    else
      var last := xs[|xs| - 1];
      Filtered(xs[..|xs| - 1], p, f) + (if p(last) then [f(last)] else [])
  }

  /** `[f(x) for x in xs]` */
  function Mapped<T, U>(xs: seq<T>, f: T -> U): (r: seq<U>)
    ensures |r| == |xs| && forall i :: 0 <= i < |xs| ==> r[i] == f(xs[i])
  {
    if xs == [] then [] else Mapped(xs[..|xs| - 1], f) + [f(xs[|xs| - 1])]
  }

  /** Filtering a concatenation filters each part, keeping their order. */
  lemma {:induction false} FilteredConcat<T, U>(xs: seq<T>, ys: seq<T>, p: T -> bool, f: T -> U)
    ensures Filtered(xs + ys, p, f) == Filtered(xs, p, f) + Filtered(ys, p, f)
    decreases |ys|
  {
    if ys == [] {
      assert xs + ys == xs;
    } else {
      var init := ys[..|ys| - 1];
      FilteredConcat(xs, init, p, f);
      assert (xs + ys)[..|xs + ys| - 1] == xs + init;
      assert (xs + ys)[|xs + ys| - 1] == ys[|ys| - 1];
    }
  }

  /** Every kept value is the image of an item that passes the filter. */
  lemma {:induction false} FilteredSource<T, U>(xs: seq<T>, p: T -> bool, f: T -> U, y: U) returns (i: nat)
    requires y in Filtered(xs, p, f)
    ensures i < |xs| && p(xs[i]) && f(xs[i]) == y
    decreases |xs|
  {
    var init := xs[..|xs| - 1];
    if y in Filtered(init, p, f) {
      i := FilteredSource(init, p, f, y);
      assert xs[i] == init[i];
    } else {
      i := |xs| - 1;
    }
  }

  /** Every item that passes the filter has its image kept. */
  lemma {:induction false} FilteredKeeps<T, U>(xs: seq<T>, p: T -> bool, f: T -> U, i: nat)
    requires i < |xs| && p(xs[i])
    ensures f(xs[i]) in Filtered(xs, p, f)
    decreases |xs|
  {
    var init := xs[..|xs| - 1];
    if i < |init| {
      assert init[i] == xs[i];
      FilteredKeeps(init, p, f, i);
    }
  }

  /** Two complementary filters split the mapped list between them. */
  lemma {:induction false} FilteredPartition<T, U>(xs: seq<T>, p: T -> bool, q: T -> bool, f: T -> U)
    requires forall x :: q(x) == !p(x)
    ensures |Filtered(xs, p, f)| + |Filtered(xs, q, f)| == |xs|
    ensures multiset(Filtered(xs, p, f)) + multiset(Filtered(xs, q, f)) == multiset(Mapped(xs, f))
    decreases |xs|
  {
    if xs != [] {
      FilteredPartition(xs[..|xs| - 1], p, q, f);
    }
  }
}
