/** Crossing ("swap") detection between an amount series and a cost
    series sampled on the threshold grid. */
module Swaps {

  /** Element-wise `amount - cost`. */
  function Diff(amount: seq<real>, cost: seq<real>): (d: seq<real>)
    requires |amount| == |cost|
    ensures |d| == |amount|
    ensures forall i :: 0 <= i < |d| ==> d[i] == amount[i] - cost[i]
  {
    seq(|amount|, i requires 0 <= i < |amount| => amount[i] - cost[i])
  }

  /** The sign of the difference crosses between grid points `i` and
      `i + 1`: from negative to non-negative, or from positive to
      non-positive. A zero at `i` starts no crossing. */
  predicate CrossesAt(diff: seq<real>, i: nat)
    requires i + 1 < |diff|
  {
    (diff[i] < 0.0 && diff[i + 1] >= 0.0) || (diff[i] > 0.0 && diff[i + 1] <= 0.0)
  }

  /** Grid indices `i + 1`, for `i < n`, at which a crossing completes, in
      increasing order. */
  function SwapIndicesUpTo(diff: seq<real>, n: nat): (r: seq<nat>)
    requires n < |diff|
    ensures forall m :: 0 <= m < |r| ==> 1 <= r[m] <= n
  {
    if n == 0 then []
    else SwapIndicesUpTo(diff, n - 1) + (if CrossesAt(diff, n - 1) then [n] else [])
  }

  /** Grid indices at which a crossing completes, over the whole scan. */
  function SwapIndices(diff: seq<real>): seq<nat> {
    if |diff| < 2 then [] else SwapIndicesUpTo(diff, |diff| - 1)
  }

  /** The values of `series` at the indices `idx`, in order. */
  function Gather(idx: seq<nat>, series: seq<real>): (r: seq<real>)
    requires forall m :: 0 <= m < |idx| ==> idx[m] < |series|
    ensures |r| == |idx|
    ensures forall m :: 0 <= m < |r| ==> r[m] == series[idx[m]]
  {
    seq(|idx|, m requires 0 <= m < |idx| => series[idx[m]])
  }

  /** The values of `series` at the swap indices: the thresholds (or
      costs) recorded for the crossing markers. */
  function AtSwaps(diff: seq<real>, series: seq<real>): (r: seq<real>)
    requires |series| == |diff|
    ensures |r| == |SwapIndices(diff)|
    ensures forall m :: 0 <= m < |r| ==> 1 <= SwapIndices(diff)[m] < |diff| && r[m] == series[SwapIndices(diff)[m]]
  {
    SwapIndicesInRange(diff);
    Gather(SwapIndices(diff), series)
  }

  lemma SwapIndicesInRange(diff: seq<real>)
    ensures forall m :: 0 <= m < |SwapIndices(diff)| ==> 1 <= SwapIndices(diff)[m] < |diff|
  {
  }

  /** Gathering at one more index appends that index's value. */
  lemma GatherSnoc(idx: seq<nat>, x: nat, series: seq<real>)
    requires forall m :: 0 <= m < |idx| ==> idx[m] < |series|
    requires x < |series|
    ensures Gather(idx + [x], series) == Gather(idx, series) + [series[x]]
  {
  }

  /** The scan of the line-chart and total-amount plots: for each pair of
      neighbouring grid points whose difference crosses, the threshold and
      the cost at the second point are appended. */
  method FindSwaps(amount: seq<real>, cost: seq<real>, thresholds: seq<real>)
    returns (xs: seq<real>, ys: seq<real>)
    requires |amount| == |cost| == |thresholds|
    ensures xs == AtSwaps(Diff(amount, cost), thresholds)
    ensures ys == AtSwaps(Diff(amount, cost), cost)
  {
    var diff := Diff(amount, cost);
    xs, ys := [], [];
    if |diff| < 2 {
      return;
    }
    for i := 0 to |diff| - 1
      invariant xs == Gather(SwapIndicesUpTo(diff, i), thresholds)
      invariant ys == Gather(SwapIndicesUpTo(diff, i), cost)
    {
      ghost var seen := SwapIndicesUpTo(diff, i);
      if diff[i] < 0.0 && diff[i + 1] >= 0.0 {
        GatherSnoc(seen, i + 1, thresholds);
        GatherSnoc(seen, i + 1, cost);
        xs := xs + [thresholds[i + 1]];
        ys := ys + [cost[i + 1]];
      } else if diff[i] > 0.0 && diff[i + 1] <= 0.0 {
        GatherSnoc(seen, i + 1, thresholds);
        GatherSnoc(seen, i + 1, cost);
        xs := xs + [thresholds[i + 1]];
        ys := ys + [cost[i + 1]];
      }
      assert SwapIndicesUpTo(diff, i + 1) == seen + (if CrossesAt(diff, i) then [i + 1] else []);
    }
  }

  /** A grid index is recorded exactly when the difference crosses just
      before it, and the indices come in strictly increasing order. */
  lemma {:induction false} SwapIndicesUpToExact(diff: seq<real>, n: nat)
    requires n < |diff|
    ensures forall k :: k in SwapIndicesUpTo(diff, n) <==> 1 <= k <= n && CrossesAt(diff, k - 1)
    ensures forall a, b :: 0 <= a < b < |SwapIndicesUpTo(diff, n)| ==> SwapIndicesUpTo(diff, n)[a] < SwapIndicesUpTo(diff, n)[b]
  {
    if n > 0 {
      SwapIndicesUpToExact(diff, n - 1);
    }
  }

  lemma SwapIndicesExact(diff: seq<real>)
    ensures forall k :: k in SwapIndices(diff) <==> 1 <= k < |diff| && CrossesAt(diff, k - 1)
    ensures forall a, b :: 0 <= a < b < |SwapIndices(diff)| ==> SwapIndices(diff)[a] < SwapIndices(diff)[b]
  {
    if |diff| >= 2 {
      SwapIndicesUpToExact(diff, |diff| - 1);
    }
  }

  /** A crossing completes at grid index `k`. */
  predicate SwapAt(diff: seq<real>, k: int) {
    1 <= k < |diff| && CrossesAt(diff, k - 1)
  }

  /** Over a strictly increasing grid the recorded thresholds increase
      strictly too, and each is the grid point at which a crossing
      completes. */
  lemma SwapThresholdsOrdered(diff: seq<real>, thresholds: seq<real>)
    requires |thresholds| == |diff|
    requires forall i, j :: 0 <= i < j < |thresholds| ==> thresholds[i] < thresholds[j]
    ensures forall a, b :: 0 <= a < b < |AtSwaps(diff, thresholds)| ==> AtSwaps(diff, thresholds)[a] < AtSwaps(diff, thresholds)[b]
    ensures forall m :: 0 <= m < |AtSwaps(diff, thresholds)| ==>
              SwapAt(diff, SwapIndices(diff)[m]) && AtSwaps(diff, thresholds)[m] == thresholds[SwapIndices(diff)[m]]
  {
    SwapIndicesExact(diff);
    var idx := SwapIndices(diff);
    assert forall m :: 0 <= m < |idx| ==> idx[m] in idx;
  }

  /** A zero difference never starts a crossing. */
  lemma ZeroStartsNoSwap(diff: seq<real>, i: nat)
    requires i + 1 < |diff| && diff[i] == 0.0
    ensures i + 1 !in SwapIndices(diff)
  {
    SwapIndicesExact(diff);
  }

  predicate NoZero(diff: seq<real>) {
    forall i :: 0 <= i < |diff| ==> diff[i] != 0.0
  }

  /** When the difference never vanishes, the crossings are exactly the
      sign changes, so their number is even precisely when the first and
      last differences have the same sign. */
  lemma {:induction false} SwapParity(diff: seq<real>, n: nat)
    requires n < |diff| && NoZero(diff)
    ensures (|SwapIndicesUpTo(diff, n)| % 2 == 0) <==> ((diff[0] > 0.0) <==> (diff[n] > 0.0))
  {
    if n > 0 {
      SwapParity(diff, n - 1);
      assert diff[n - 1] != 0.0 && diff[n] != 0.0;
    }
  }
}
