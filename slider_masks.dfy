/** Slider steps of the four threshold plots. Each figure holds one flat
    list of traces; a slider step carries a visibility mask over that
    list which shows the plot's static traces and the block of traces
    drawn for one threshold. Every builder below allocates an all-false
    mask per step and switches entries on while advancing a running
    trace index, as the plotting code does. */
module SliderMasks {

  /** The mask that shows traces `[0, staticCount)` and
      `[start, start + width)` of a figure with `traceCount` traces. */
  function StepMask(traceCount: nat, staticCount: nat, start: nat, width: nat): (m: seq<bool>)
    ensures |m| == traceCount
    ensures forall j :: 0 <= j < traceCount ==> (m[j] <==> j < staticCount || start <= j < start + width)
  {
    seq(traceCount, j => j < staticCount || start <= j < start + width)
  }

  lemma {:induction false} NatMulMonotone(a: nat, b: nat, c: nat)
    requires a <= b
    ensures a * c <= b * c
  {
    if a < b {
      NatMulMonotone(a, b - 1, c);
      assert b * c == (b - 1) * c + c;
    }
  }

  /** With blocks of `width` traces after `offset`, trace `j` of the
      blocks belongs to block `(j - offset) / width` and to no other. */
  lemma BlockOwner(offset: nat, width: nat, blocks: nat, j: nat, k: nat)
    requires width > 0 && offset <= j < offset + width * blocks && k < blocks
    ensures (j - offset) / width < blocks
    ensures offset + width * k <= j < offset + width * k + width <==> k == (j - offset) / width
  {
    var x := j - offset;
    var q := x / width;
    var r := x % width;
    assert x == q * width + r && 0 <= r < width;
    assert width * blocks == blocks * width && width * k == k * width;
    QuotientBelow(x, q, r, width, blocks);
    if k < q {
      NatMulMonotone(k + 1, q, width);
      assert (k + 1) * width == k * width + width;
    } else if q < k {
      NatMulMonotone(q + 1, k, width);
      assert (q + 1) * width == q * width + width;
    }
  }

  /** A quotient of a number below `blocks * width` lies below `blocks`. */
  lemma QuotientBelow(x: nat, q: nat, r: nat, width: nat, blocks: nat)
    requires x == q * width + r && x < blocks * width
    ensures q < blocks
  {
    if q >= blocks {
      NatMulMonotone(blocks, q, width);
    }
  }

  // ---- violin plot: one violin, then a variable number of strip traces per threshold ----

  function Sum(s: seq<nat>): nat {
    if s == [] then 0 else Sum(s[..|s| - 1]) + s[|s| - 1]
  }

  lemma {:induction false} SumPrefixBound(s: seq<nat>, i: nat)
    requires i <= |s|
    ensures Sum(s[..i]) <= Sum(s)
  {
    if i < |s| {
      SumPrefixBound(s[..|s| - 1], i);
      assert s[..|s| - 1][..i] == s[..i];
      assert s[..|s|] == s;
    } else {
      assert s[..i] == s;
    }
  }

  lemma SumStep(s: seq<nat>, i: nat)
    requires i < |s|
    ensures Sum(s[..i + 1]) == Sum(s[..i]) + s[i]
  {
    assert s[..i + 1][..i] == s[..i];
  }

  /** Traces of the violin figure: the violin plus every strip trace. */
  function ViolinTraceCount(lengths: seq<nat>): nat {
    1 + Sum(lengths)
  }

  /** First trace of the strip block of threshold `i`. */
  function ViolinOffset(lengths: seq<nat>, i: nat): nat
    requires i <= |lengths|
  {
    1 + Sum(lengths[..i])
  }

  /** Mask of step `i`: the violin and the strip traces of threshold `i`. */
  function ViolinMask(lengths: seq<nat>, i: nat): seq<bool>
    requires i < |lengths|
  {
    StepMask(ViolinTraceCount(lengths), 1, ViolinOffset(lengths, i), lengths[i])
  }

  /** The violin plot's steps (`lengths[i]` is the number of strip traces
      drawn for threshold `i`), built with the running index `idx`. */
  method ViolinSliderMasks(lengths: seq<nat>, traceCount: nat) returns (masks: seq<seq<bool>>)
    requires traceCount == ViolinTraceCount(lengths)
    ensures |masks| == |lengths|
    ensures forall i :: 0 <= i < |lengths| ==> masks[i] == ViolinMask(lengths, i)
  {
    masks := [];
    var idx := 1;
    for i := 0 to |lengths|
      invariant |masks| == i
      invariant idx == ViolinOffset(lengths, i)
      invariant forall k :: 0 <= k < i ==> masks[k] == ViolinMask(lengths, k)
    {
      SumStep(lengths, i);
      SumPrefixBound(lengths, i + 1);
      var visible := new bool[traceCount](_ => false);
      var n := lengths[i];
      visible[0] := true;
      for j := idx to idx + n
        invariant forall m :: 0 <= m < traceCount ==> (visible[m] <==> m == 0 || idx <= m < j)
      {
        visible[j] := true;
      }
      idx := idx + n;
      masks := masks + [visible[..]];
    }
  }

  /** The violin figure as first shown: the violin is visible, the strip
      traces are hidden when added, then those of the first threshold are
      switched on. */
  method ViolinInitialVisibility(lengths: seq<nat>) returns (visible: seq<bool>)
    requires |lengths| > 0
    ensures visible == ViolinMask(lengths, 0)
  {
    SumStep(lengths, 0);
    SumPrefixBound(lengths, 1);
    var v := new bool[ViolinTraceCount(lengths)](m => m == 0);
    for j := 0 to lengths[0]
      invariant forall m :: 0 <= m < v.Length ==> (v[m] <==> m == 0 || 1 <= m < j + 1)
    {
      v[j + 1] := true;
    }
    visible := v[..];
  }

  /** The strip blocks tile the trace list: a strip trace lies in the
      block of threshold `i` exactly when `i` is its owner. */
  lemma {:induction false} ViolinBlockOwner(lengths: seq<nat>, j: nat)
    requires 1 <= j < ViolinTraceCount(lengths)
    ensures exists i :: 0 <= i < |lengths| && ViolinOffset(lengths, i) <= j < ViolinOffset(lengths, i) + lengths[i]
  {
    var last := |lengths| - 1;
    SumStep(lengths, last);
    assert lengths[..last + 1] == lengths;
    if j < ViolinOffset(lengths, last) {
      ViolinBlockOwner(lengths[..last], j);
      var i :| 0 <= i < last && ViolinOffset(lengths[..last], i) <= j < ViolinOffset(lengths[..last], i) + lengths[..last][i];
      assert lengths[..last][..i] == lengths[..i];
    }
  }

  lemma {:induction false} ViolinOffsetMonotone(lengths: seq<nat>, i1: nat, i2: nat)
    requires i1 <= i2 <= |lengths|
    ensures ViolinOffset(lengths, i1) <= ViolinOffset(lengths, i2)
  {
    if i1 < i2 {
      ViolinOffsetMonotone(lengths, i1, i2 - 1);
      SumStep(lengths, i2 - 1);
    }
  }

  /** In every step the violin is visible, and each strip trace is
      visible in exactly one step. */
  lemma ViolinEachStripOnce(lengths: seq<nat>, j: nat)
    requires 1 <= j < ViolinTraceCount(lengths)
    ensures forall i :: 0 <= i < |lengths| ==> ViolinMask(lengths, i)[0]
    ensures exists i :: 0 <= i < |lengths| && ViolinMask(lengths, i)[j]
    ensures forall i1, i2 ::
              (0 <= i1 < |lengths| && 0 <= i2 < |lengths| && ViolinMask(lengths, i1)[j] && ViolinMask(lengths, i2)[j])
              ==> i1 == i2
  {
    ViolinBlockOwner(lengths, j);
    var owner :| 0 <= owner < |lengths| && ViolinOffset(lengths, owner) <= j < ViolinOffset(lengths, owner) + lengths[owner];
    assert ViolinMask(lengths, owner)[j];
    forall i1, i2 | 0 <= i1 < |lengths| && 0 <= i2 < |lengths| && ViolinMask(lengths, i1)[j] && ViolinMask(lengths, i2)[j]
      ensures i1 == i2
    {
      if i1 < i2 {
        SumStep(lengths, i1);
        ViolinOffsetMonotone(lengths, i1 + 1, i2);
      } else if i2 < i1 {
        SumStep(lengths, i2);
        ViolinOffsetMonotone(lengths, i2 + 1, i1);
      }
    }
  }

  // ---- density plot: six traces per threshold, nothing static ----

  function DensityMask(gridSize: nat, k: nat): seq<bool> {
    StepMask(6 * gridSize, 0, 6 * k, 6)
  }

  /** The density plot's steps: four curves and two threshold lines per
      threshold, addressed by the running index `j`. */
  method DensitySliderMasks(gridSize: nat, traceCount: nat) returns (masks: seq<seq<bool>>)
    requires traceCount == 6 * gridSize
    ensures |masks| == gridSize
    ensures forall k :: 0 <= k < gridSize ==> masks[k] == DensityMask(gridSize, k)
  {
    masks := [];
    var j := 0;
    for k := 0 to gridSize
      invariant |masks| == k && j == 6 * k
      invariant forall i :: 0 <= i < k ==> masks[i] == DensityMask(gridSize, i)
    {
      var visible := new bool[traceCount](_ => false);
      visible[j] := true;      // TN curve
      visible[j + 1] := true;  // FP curve
      visible[j + 2] := true;  // FN curve
      visible[j + 3] := true;  // TP curve
      visible[j + 4] := true;  // threshold line, upper subplot
      visible[j + 5] := true;  // threshold line, lower subplot
      masks := masks + [visible[..]];
      j := j + 6;
    }
  }

  /** The density figure as first shown: all traces are added hidden,
      then traces 0 to 5 are switched on. */
  method DensityInitialVisibility(gridSize: nat) returns (visible: seq<bool>)
    requires gridSize > 0
    ensures visible == DensityMask(gridSize, 0)
  {
    var v := new bool[6 * gridSize](_ => false);
    v[0], v[1], v[2], v[3], v[4], v[5] := true, true, true, true, true, true;
    visible := v[..];
  }

  /** Each density trace is visible in exactly the step of its threshold. */
  lemma DensityEachTraceOnce(gridSize: nat, j: nat, k: nat)
    requires j < 6 * gridSize && k < gridSize
    ensures j / 6 < gridSize
    ensures DensityMask(gridSize, k)[j] <==> k == j / 6
  {
    BlockOwner(0, 6, gridSize, j, k);
  }

  // ---- confusion matrix plot: two tables always shown, two traces per threshold ----

  function ConfusionMatrixMask(gridSize: nat, k: nat): seq<bool> {
    StepMask(2 + 2 * gridSize, 2, 2 + 2 * k, 2)
  }

  /** The confusion-matrix plot's steps: the invariant-metrics table and
      the optimised-thresholds table, then the metrics table and heat map
      of one threshold, addressed by the running index `j`. */
  method ConfusionMatrixSliderMasks(gridSize: nat, traceCount: nat) returns (masks: seq<seq<bool>>)
    requires traceCount == 2 + 2 * gridSize
    ensures |masks| == gridSize
    ensures forall k :: 0 <= k < gridSize ==> masks[k] == ConfusionMatrixMask(gridSize, k)
  {
    masks := [];
    var j := 2;
    for k := 0 to gridSize
      invariant |masks| == k && j == 2 + 2 * k
      invariant forall i :: 0 <= i < k ==> masks[i] == ConfusionMatrixMask(gridSize, i)
    {
      var visible := new bool[traceCount](_ => false);
      visible[0] := true;
      visible[1] := true;
      visible[j] := true;
      visible[j + 1] := true;
      masks := masks + [visible[..]];
      j := j + 2;
    }
  }

  /** The confusion-matrix figure as first shown: the two tables are
      visible, per-threshold traces are added hidden, then traces 2 and 3
      are switched on. */
  method ConfusionMatrixInitialVisibility(gridSize: nat) returns (visible: seq<bool>)
    requires gridSize > 0
    ensures visible == ConfusionMatrixMask(gridSize, 0)
  {
    var v := new bool[2 + 2 * gridSize](m => m < 2);
    v[2], v[3] := true, true;
    visible := v[..];
  }

  /** The two tables are visible in every step; every other trace is
      visible in exactly the step of its threshold. */
  lemma ConfusionMatrixEachTraceOnce(gridSize: nat, j: nat, k: nat)
    requires j < 2 + 2 * gridSize && k < gridSize
    ensures j < 2 ==> ConfusionMatrixMask(gridSize, k)[j]
    ensures 2 <= j ==> (j - 2) / 2 < gridSize
    ensures 2 <= j ==> (ConfusionMatrixMask(gridSize, k)[j] <==> k == (j - 2) / 2)
  {
    if 2 <= j {
      BlockOwner(2, 2, gridSize, j, k);
    }
  }

  // ---- confusion line chart: static line charts, then marker blocks ----

  /** Static traces and markers per threshold of the line chart. */
  datatype LineChartLayout = LineChartLayout(staticCount: nat, markerCount: nat)

  /** With amounts and costs: four classes with an amount line, a cost
      line and a crossings trace each, and eight markers per threshold;
      otherwise four lines and four markers. */
  function LineChartLayoutFor(amountsGiven: bool, costsGiven: bool): (l: LineChartLayout)
    ensures l.markerCount > 0
    ensures amountsGiven && costsGiven ==> l == LineChartLayout(4 * 3, 4 * 2)
    ensures !(amountsGiven && costsGiven) ==> l == LineChartLayout(4, 4)
  {
    if amountsGiven && costsGiven then LineChartLayout(12, 8) else LineChartLayout(4, 4)
  }

  function LineChartMask(layout: LineChartLayout, gridSize: nat, k: nat): seq<bool> {
    StepMask(layout.staticCount + layout.markerCount * gridSize, layout.staticCount,
             layout.staticCount + layout.markerCount * k, layout.markerCount)
  }

  /** The line chart's steps: all static line charts and the markers of
      one threshold, written as two slice assignments. */
  method LineChartSliderMasks(layout: LineChartLayout, gridSize: nat, traceCount: nat)
    returns (masks: seq<seq<bool>>)
    requires traceCount == layout.staticCount + layout.markerCount * gridSize
    ensures |masks| == gridSize
    ensures forall k :: 0 <= k < gridSize ==> masks[k] == LineChartMask(layout, gridSize, k)
  {
    var s, m := layout.staticCount, layout.markerCount;
    masks := [];
    var j := s;
    for k := 0 to gridSize
      invariant |masks| == k && j == s + m * k
      invariant forall i :: 0 <= i < k ==> masks[i] == LineChartMask(layout, gridSize, i)
    {
      NatMulMonotone(k + 1, gridSize, m);
      var visible := new bool[traceCount](_ => false);
      forall i | 0 <= i < s {
        visible[i] := true;
      }
      forall i | j <= i < j + m {
        visible[i] := true;
      }
      masks := masks + [visible[..]];
      j := j + m;
    }
  }

  /** The line chart as first shown: the static charts are visible, the
      markers are added hidden, then those of the first threshold are
      switched on. */
  method LineChartInitialVisibility(layout: LineChartLayout, gridSize: nat) returns (visible: seq<bool>)
    requires gridSize > 0
    ensures visible == LineChartMask(layout, gridSize, 0)
  {
    var s, m := layout.staticCount, layout.markerCount;
    NatMulMonotone(1, gridSize, m);
    var v := new bool[s + m * gridSize](i => i < s);
    for i := 0 to m
      invariant forall x :: 0 <= x < v.Length ==> (v[x] <==> x < s + i)
    {
      v[s + i] := true;
    }
    visible := v[..];
  }

  /** The static charts are visible in every step; every marker is
      visible in exactly the step of its threshold. */
  lemma LineChartEachMarkerOnce(layout: LineChartLayout, gridSize: nat, j: nat, k: nat)
    requires layout.markerCount > 0
    requires j < layout.staticCount + layout.markerCount * gridSize && k < gridSize
    ensures j < layout.staticCount ==> LineChartMask(layout, gridSize, k)[j]
    ensures layout.staticCount <= j ==> (j - layout.staticCount) / layout.markerCount < gridSize
    ensures layout.staticCount <= j ==>
              (LineChartMask(layout, gridSize, k)[j] <==> k == (j - layout.staticCount) / layout.markerCount)
  {
    if layout.staticCount <= j {
      BlockOwner(layout.staticCount, layout.markerCount, gridSize, j, k);
    }
  }
}
