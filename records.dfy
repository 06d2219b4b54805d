/**
 * The list edits the screens apply to their cached records: `filter`,
 * map-replace by id and filter-remove by id.
 */
module Records {
  import opened Js

  /** `xs.filter(keep)` */
  function Filter<R(==)>(xs: seq<R>, keep: R -> bool): (ys: seq<R>)
    ensures |ys| <= |xs|
    ensures forall i :: 0 <= i < |ys| ==> ys[i] in xs && keep(ys[i])
    ensures forall i :: 0 <= i < |xs| && keep(xs[i]) ==> xs[i] in ys
    decreases |xs|
  {
    if xs == [] then []
    else if keep(xs[0]) then [xs[0]] + Filter(xs[1..], keep)
    else Filter(xs[1..], keep)
  }

  /** ys is xs with some elements dropped and the rest in their order. */
  ghost predicate Subsequence<R>(ys: seq<R>, xs: seq<R>)
    decreases |xs|
  {
    if ys == [] then true
    else if xs == [] then false
    else (ys[0] == xs[0] && Subsequence(ys[1..], xs[1..])) || Subsequence(ys, xs[1..])
  }

  /** Filtering keeps the order of the records it keeps. */
  lemma {:induction false} FilterIsSubsequence<R>(xs: seq<R>, keep: R -> bool)
    ensures Subsequence(Filter(xs, keep), xs)
    decreases |xs|
  {
    if xs != [] {
      FilterIsSubsequence(xs[1..], keep);
      var rest := Filter(xs[1..], keep);
      if keep(xs[0]) {
        assert Filter(xs, keep) == [xs[0]] + rest;
        assert ([xs[0]] + rest)[1..] == rest;
      }
    }
  }

  /** Filtering a concatenation filters each part: relative order is kept. */
  lemma {:induction false} FilterConcat<R>(a: seq<R>, b: seq<R>, keep: R -> bool)
    ensures Filter(a + b, keep) == Filter(a, keep) + Filter(b, keep)
    decreases |a|
  {
    if a != [] {
      assert (a + b)[1..] == a[1..] + b;
      FilterConcat(a[1..], b, keep);
    } else {
      assert a + b == b;
    }
  }

  /** When every record is kept, filtering changes nothing. */
  lemma {:induction false} FilterKeepsAll<R>(xs: seq<R>, keep: R -> bool)
    requires forall i :: 0 <= i < |xs| ==> keep(xs[i])
    ensures Filter(xs, keep) == xs
    decreases |xs|
  {
    if xs != [] {
      FilterKeepsAll(xs[1..], keep);
      assert [xs[0]] + xs[1..] == xs;
    }
  }

  /** Filtering twice by the same test is filtering once. */
  lemma FilterIdempotent<R>(xs: seq<R>, keep: R -> bool)
    ensures Filter(Filter(xs, keep), keep) == Filter(xs, keep)
  {
    var ys := Filter(xs, keep);
    FilterKeepsAll(ys, keep);
  }

  /** Two tests that agree on every element filter alike. */
  lemma {:induction false} FilterAgrees<R>(xs: seq<R>, p: R -> bool, q: R -> bool)
    requires forall i :: 0 <= i < |xs| ==> p(xs[i]) == q(xs[i])
    ensures Filter(xs, p) == Filter(xs, q)
    decreases |xs|
  {
    if xs != [] {
      FilterAgrees(xs[1..], p, q);
    }
  }

  /** `xs.map(x => idOf(x) === id ? f(x) : x)` */
  function UpdateById<R>(xs: seq<R>, idOf: R -> int, id: int, f: R -> R): (ys: seq<R>)
    ensures |ys| == |xs|
    ensures forall i :: 0 <= i < |xs| && idOf(xs[i]) == id ==> ys[i] == f(xs[i])
    ensures forall i :: 0 <= i < |xs| && idOf(xs[i]) != id ==> ys[i] == xs[i]
  {
    seq(|xs|, i requires 0 <= i < |xs| => if idOf(xs[i]) == id then f(xs[i]) else xs[i])
  }

  /** An update that keeps ids leaves every position's id where it was. */
  lemma UpdateKeepsIds<R>(xs: seq<R>, idOf: R -> int, id: int, f: R -> R)
    requires forall i :: 0 <= i < |xs| ==> idOf(f(xs[i])) == idOf(xs[i])
    ensures forall i :: 0 <= i < |xs| ==> idOf(UpdateById(xs, idOf, id, f)[i]) == idOf(xs[i])
  {
  }

  /** `xs.map(x => idOf(x) === id ? y : x)`: every record with the id becomes y. */
  function ReplaceById<R>(xs: seq<R>, idOf: R -> int, id: int, y: R): (ys: seq<R>)
    ensures |ys| == |xs|
    ensures forall i :: 0 <= i < |xs| && idOf(xs[i]) == id ==> ys[i] == y
    ensures forall i :: 0 <= i < |xs| && idOf(xs[i]) != id ==> ys[i] == xs[i]
  {
    seq(|xs|, i requires 0 <= i < |xs| => if idOf(xs[i]) == id then y else xs[i])
  }

  /** The test `x => x.id !== pending`; a pending id of null keeps everything. */
  predicate OtherThan<R>(idOf: R -> int, pending: Option<int>, x: R) {
    !(pending.Some? && idOf(x) == pending.value)
  }

  /** `xs.filter(x => x.id !== pending)` */
  function RemoveById<R(==)>(xs: seq<R>, idOf: R -> int, pending: Option<int>): (ys: seq<R>)
    ensures forall i :: 0 <= i < |ys| ==> ys[i] in xs && OtherThan(idOf, pending, ys[i])
    ensures forall i :: 0 <= i < |xs| && OtherThan(idOf, pending, xs[i]) ==> xs[i] in ys
    ensures pending.Some? ==> forall i :: 0 <= i < |ys| ==> idOf(ys[i]) != pending.value
  {
    Filter(xs, x => OtherThan(idOf, pending, x))
  }

  /** Removing by a null id removes nothing. */
  lemma RemoveNothing<R>(xs: seq<R>, idOf: R -> int)
    ensures RemoveById(xs, idOf, None) == xs
  {
    FilterKeepsAll(xs, x => OtherThan(idOf, None, x));
  }

  /** Removing an id no record has removes nothing. */
  lemma RemoveAbsentId<R>(xs: seq<R>, idOf: R -> int, id: int)
    requires forall i :: 0 <= i < |xs| ==> idOf(xs[i]) != id
    ensures RemoveById(xs, idOf, Some(id)) == xs
  {
    FilterKeepsAll(xs, x => OtherThan(idOf, Some(id), x));
  }

  /** The records that survive a removal keep their relative order. */
  lemma RemoveKeepsOrder<R>(xs: seq<R>, idOf: R -> int, pending: Option<int>)
    ensures Subsequence(RemoveById(xs, idOf, pending), xs)
  {
    FilterIsSubsequence(xs, x => OtherThan(idOf, pending, x));
  }
}
