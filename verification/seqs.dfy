/**
 Order-preserving filtering of sequences, the behaviour of JavaScript's
 `Array.prototype.filter`, together with an independent description of its
 result: the elements at exactly the positions the predicate keeps, in
 increasing position order.
 */
module Seqs {

  /** True iff the positions in `idx` strictly increase. */
  ghost predicate Increasing(idx: seq<nat>) {
    forall k, l :: 0 <= k < l < |idx| ==> idx[k] < idx[l]
  }

  /** True iff `r` is read off `xs` at the positions `idx`, one element per position. */
  ghost predicate PickedAt<T>(r: seq<T>, xs: seq<T>, idx: seq<nat>) {
    && |r| == |idx|
    && forall k :: 0 <= k < |idx| ==> idx[k] < |xs| && r[k] == xs[idx[k]]
  }

  /** Keeps, in their original order, the elements of `xs` that satisfy `keep`. */
  function Filter<T(!new)>(xs: seq<T>, keep: T -> bool): (r: seq<T>)
    ensures |r| <= |xs|
    ensures forall x :: x in r <==> x in xs && keep(x)
    decreases |xs|
  {
    if xs == [] then []
    else
      var n := |xs| - 1;
      assert xs == xs[..n] + [xs[n]];
      Filter(xs[..n], keep) + (if keep(xs[n]) then [xs[n]] else [])
  }

  /** The positions of `xs` whose element satisfies `keep`, in increasing order. */
  function Positions<T>(xs: seq<T>, keep: T -> bool): (idx: seq<nat>)
    ensures Increasing(idx)
    ensures forall k :: 0 <= k < |idx| ==> idx[k] < |xs| && keep(xs[idx[k]])
    ensures forall i :: 0 <= i < |xs| && keep(xs[i]) ==> i in idx
    decreases |xs|
  {
    if xs == [] then []
    else
      var n := |xs| - 1;
      var front := Positions(xs[..n], keep);
      assert forall k :: 0 <= k < |front| ==> front[k] < n && xs[..n][front[k]] == xs[front[k]];
      front + (if keep(xs[n]) then [n] else [])
  }

  /**
   The filter is the order-preserving subsequence at exactly the kept
   positions: together with the contract of `Positions`, this pins the
   result down element by element.
   */
  lemma {:induction false} FilterPicksPositions<T(!new)>(xs: seq<T>, keep: T -> bool)
    ensures PickedAt(Filter(xs, keep), xs, Positions(xs, keep))
    decreases |xs|
  {
    if xs != [] {
      var n := |xs| - 1;
      var front := xs[..n];
      FilterPicksPositions(front, keep);
      var r, idx := Filter(front, keep), Positions(front, keep);
      assert Filter(xs, keep) == r + (if keep(xs[n]) then [xs[n]] else []);
      assert Positions(xs, keep) == idx + (if keep(xs[n]) then [n] else []);
      forall k | 0 <= k < |idx|
        ensures idx[k] < n && r[k] == xs[idx[k]]
      {
        assert front[idx[k]] == xs[idx[k]];
      }
    }
  }

  /** Appending one element extends the filter by that element exactly when it is kept. */
  lemma FilterSnoc<T(!new)>(xs: seq<T>, y: T, keep: T -> bool)
    ensures Filter(xs + [y], keep) == Filter(xs, keep) + (if keep(y) then [y] else [])
  {
    assert (xs + [y])[..|xs|] == xs;
  }

  /** Filtering one more element of a prefix extends the filtered prefix by that element exactly when it is kept. */
  lemma FilterPrefixStep<T(!new)>(xs: seq<T>, k: nat, keep: T -> bool)
    requires k < |xs|
    ensures Filter(xs[..k + 1], keep) == Filter(xs[..k], keep) + (if keep(xs[k]) then [xs[k]] else [])
  {
    assert xs[..k + 1] == xs[..k] + [xs[k]];
    FilterSnoc(xs[..k], xs[k], keep);
  }
}
