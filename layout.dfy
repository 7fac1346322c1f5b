/** Small decisions the slider plots take per threshold: where the density
    curves split, which annotations a density step shows, and where the
    line-chart markers put their text. */
module Layout {

  import opened Confusion
  import Grid

  // ---- density curves split at the threshold ----

  predicate Sorted(xs: seq<real>) {
    forall i, j :: 0 <= i < j < |xs| ==> xs[i] <= xs[j]
  }

  /** Left insertion point of `t` in the sorted `xs`: everything before it
      is below `t`, everything from it on is at least `t`. */
  function SearchSorted(xs: seq<real>, t: real): (i: nat)
    requires Sorted(xs)
    ensures i <= |xs|
    ensures forall k :: 0 <= k < i ==> xs[k] < t
    ensures forall k :: i <= k < |xs| ==> t <= xs[k]
  {
    if xs == [] || t <= xs[0] then 0 else 1 + SearchSorted(xs[1..], t)
  }

  /** One density curve cut at the threshold into the part drawn as
      predicted negative and the part drawn as predicted positive. */
  datatype CurveSplit = CurveSplit(belowX: seq<real>, belowY: seq<real>, aboveX: seq<real>, aboveY: seq<real>)

  function SplitCurve(xs: seq<real>, ys: seq<real>, t: real): (r: CurveSplit)
    requires Sorted(xs) && |xs| == |ys|
    ensures r.belowX + r.aboveX == xs && r.belowY + r.aboveY == ys
    ensures |r.belowX| == |r.belowY| && |r.aboveX| == |r.aboveY|
    ensures forall k :: 0 <= k < |r.belowX| ==> r.belowX[k] < t
    ensures forall k :: 0 <= k < |r.aboveX| ==> t <= r.aboveX[k]
  {
    var i := SearchSorted(xs, t);
    assert xs[..i] + xs[i..] == xs && ys[..i] + ys[i..] == ys;
    CurveSplit(xs[..i], ys[..i], xs[i..], ys[i..])
  }

  /** The split agrees with the classification: on the curve of actual
      negatives a point is drawn in the TN part exactly when a sample with
      that probability is a TN (and in the FP part otherwise); on the curve
      of actual positives, likewise with FN and TP. */
  lemma SplitMatchesClassification(xs: seq<real>, ys: seq<real>, t: real, k: nat)
    requires Sorted(xs) && |xs| == |ys| && k < |xs|
    ensures k < |SplitCurve(xs, ys, t).belowX| <==> Classify(Sample(Negative, xs[k]), t) == TN
    ensures k < |SplitCurve(xs, ys, t).belowX| <==> Classify(Sample(Positive, xs[k]), t) == FN
  {
    var r := SplitCurve(xs, ys, t);
    if k < |r.belowX| {
      assert xs[k] == r.belowX[k];
    } else {
      assert xs[k] == r.aboveX[k - |r.belowX|];
    }
  }

  // ---- density-step annotations ----

  /** The text that slides with the threshold line, or one of the four
      corner labels. */
  datatype Annotation = ThresholdLabel | Quadrant(c: ConfusionClass)

  /** Near the right edge the right-hand labels (FP, TP) are dropped, near
      the left edge the left-hand ones (TN, FN). */
  function StepAnnotations(t: real): seq<Annotation> {
    if t > 0.96 then [ThresholdLabel, Quadrant(TN), Quadrant(FN)]
    else if t < 0.04 then [ThresholdLabel, Quadrant(FP), Quadrant(TP)]
    else [ThresholdLabel, Quadrant(TN), Quadrant(FP), Quadrant(FN), Quadrant(TP)]
  }

  /** Every step shows the threshold label first; a left-hand label is
      shown exactly when `t >= 0.04`, a right-hand one exactly when
      `t <= 0.96`, and each annotation at most once. */
  lemma StepAnnotationsShown(t: real)
    ensures StepAnnotations(t)[0] == ThresholdLabel
    ensures Quadrant(TN) in StepAnnotations(t) <==> t >= 0.04
    ensures Quadrant(FN) in StepAnnotations(t) <==> t >= 0.04
    ensures Quadrant(FP) in StepAnnotations(t) <==> t <= 0.96
    ensures Quadrant(TP) in StepAnnotations(t) <==> t <= 0.96
    ensures forall i, j :: 0 <= i < j < |StepAnnotations(t)| ==> StepAnnotations(t)[i] != StepAnnotations(t)[j]
  {
  }

  /** The annotations the figure shows before the slider moves are those of
      the first grid point, 0. */
  lemma InitialAnnotationsAreFirstStep()
    ensures StepAnnotations(0.0) == [ThresholdLabel, Quadrant(FP), Quadrant(TP)]
  {
  }

  // ---- marker text positions in the line chart ----

  datatype Vertical = Top | Bottom
  datatype Horizontal = Left | Right

  datatype TextPosition = TextPosition(v: Vertical, h: Horizontal) {
    function Text(): string {
      (if v == Top then "top" else "bottom") + (if h == Left then " left" else " right")
    }
  }

  /** Middle of the threshold axis: half-way between the first and last grid point. */
  function MiddleX(grid: seq<real>): real
    requires |grid| > 0
  {
    (grid[0] + grid[|grid| - 1]) / 2.0
  }

  /** Text goes to the left of markers in the right half of the axis and
      to the right otherwise. */
  function Side(t: real, middleX: real): (h: Horizontal)
    ensures h == Left <==> t > middleX
  {
    if t > middleX then Left else Right
  }

  /** On the threshold grid, marker text goes to the left exactly at the
      points past the middle one: point `k` of `n` is left-labelled iff
      `2 * k > n - 1`. */
  lemma SideOnGrid(step: real, k: nat)
    requires step > 0.0 && k < Grid.GridSize(step)
    ensures Side(Grid.ThresholdGrid(step)[k], MiddleX(Grid.ThresholdGrid(step))) == Left
            <==> 2 * k > Grid.GridSize(step) - 1
  {
    var g := Grid.ThresholdGrid(step);
    var last := Grid.GridSize(step) - 1;
    var point, end := k as real * step, last as real * step;
    assert g[k] == point && g[0] == 0.0 && g[last] == end;
    assert MiddleX(g) == end / 2.0;
    var twice := (2 * k) as real * step;
    assert twice == 2.0 * point;
    if 2 * k > last {
      Grid.MulStrictMonotone(last as real, (2 * k) as real, step);
    } else {
      Grid.MulMonotone((2 * k) as real, last as real, step);
    }
  }

  /** With a single plotted variable: text above a marker that lies below
      the middle of the chart, below it otherwise. */
  function SinglePosition(y: real, middleY: real, side: Horizontal): TextPosition {
    if y < middleY then TextPosition(Top, side) else TextPosition(Bottom, side)
  }

  function Abs(x: real): real { if x < 0.0 then -x else x }

  /** With amount and cost plotted: when the two markers are closer than
      `unitY`, the higher one gets its text on top and the other below;
      otherwise each is placed by comparing it with the middle of the
      chart. Returns the amount's position, then the cost's. */
  function PairPositions(amount: real, cost: real, middleY: real, unitY: real, side: Horizontal)
    : (TextPosition, TextPosition)
  {
    if Abs(amount - cost) < unitY then
      if amount > cost then (TextPosition(Top, side), TextPosition(Bottom, side))
      else (TextPosition(Bottom, side), TextPosition(Top, side))
    else
      var costPos := if cost < middleY then TextPosition(Top, side) else TextPosition(Bottom, side);
      var amountPos := if amount < middleY then TextPosition(Top, side) else TextPosition(Bottom, side);
      (amountPos, costPos)
  }

  /** Close markers never share a vertical position: the amount's text is
      on top exactly when the amount exceeds the cost. Both texts keep the
      side chosen for the threshold. */
  lemma PairPositionsClose(amount: real, cost: real, middleY: real, unitY: real, side: Horizontal)
    requires Abs(amount - cost) < unitY
    ensures PairPositions(amount, cost, middleY, unitY, side).0.v != PairPositions(amount, cost, middleY, unitY, side).1.v
    ensures PairPositions(amount, cost, middleY, unitY, side).0.v == Top <==> amount > cost
    ensures PairPositions(amount, cost, middleY, unitY, side).0.h == side
    ensures PairPositions(amount, cost, middleY, unitY, side).1.h == side
  {
  }

  /** Markers that are far apart are placed by the single-variable rule. */
  lemma PairPositionsFar(amount: real, cost: real, middleY: real, unitY: real, side: Horizontal)
    requires Abs(amount - cost) >= unitY
    ensures PairPositions(amount, cost, middleY, unitY, side)
            == (SinglePosition(amount, middleY, side), SinglePosition(cost, middleY, side))
  {
  }

  /** A marker's text points towards the middle of its chart: on top below
      the middle, underneath at or above it. */
  lemma SinglePositionTowardsMiddle(y: real, middleY: real, side: Horizontal)
    ensures SinglePosition(y, middleY, side).v == Top <==> y < middleY
    ensures SinglePosition(y, middleY, side).h == side
  {
  }

  /** The position strings ("top left", ..., "bottom right") name the four
      positions one-to-one. */
  lemma TextIsInjective(p: TextPosition, q: TextPosition)
    ensures p.Text() == q.Text() <==> p == q
  {
    if p != q {
      if p.v != q.v {
        assert p.Text()[0] != q.Text()[0];
      } else {
        assert |p.Text()| != |q.Text()|;
      }
    }
  }
}
