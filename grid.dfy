/** The threshold grid every slider plot sweeps, the number of decimals
    used for its labels, and the small input rules applied before any
    plot is built. */
module Grid {

  import opened Outcomes

  /** Smallest integer not below `x`. */
  function Ceil(x: real): (n: int)
    ensures x <= n as real < x + 1.0
  {
    var f := x.Floor;
    if f as real == x then f else f + 1
  }

  lemma MulMonotone(a: real, b: real, c: real)
    requires a <= b && c > 0.0
    ensures a * c <= b * c
  {
    assert (b - a) * c >= 0.0;
  }

  lemma MulStrictMonotone(a: real, b: real, c: real)
    requires a < b && c > 0.0
    ensures a * c < b * c
  {
    assert (b - a) * c > 0.0;
  }

  /** Number of points of the range from 0 to `1 + step` (exclusive) in
      steps of `step`: the ceiling of `(1 + step) / step`, which is the
      ceiling of `1 / step` plus one. */
  function GridSize(step: real): (n: nat)
    requires step > 0.0
    ensures n >= 2
  {
    assert 1.0 / step > 0.0;
    Ceil(1.0 / step) + 1
  }

  /** The grid of thresholds: point `k` is `k * step`. */
  function ThresholdGrid(step: real): (g: seq<real>)
    requires step > 0.0
    ensures |g| == GridSize(step)
    ensures forall k :: 0 <= k < |g| ==> g[k] == k as real * step
  {
    seq(GridSize(step), k => k as real * step)
  }

  /** The grid size `n` satisfies `(n - 1) * step < 1 + step <= n * step`,
      and the last point `(n - 1) * step` is at least 1. */
  lemma GridSizeBounds(step: real)
    requires step > 0.0
    ensures 1.0 <= (GridSize(step) - 1) as real * step < 1.0 + step
    ensures 1.0 + step <= GridSize(step) as real * step
  {
    var m := GridSize(step) - 1;
    var y := 1.0 / step;
    assert m == Ceil(y);
    assert y * step == 1.0;
    MulStrictMonotone(m as real, y + 1.0, step);
    assert (y + 1.0) * step == 1.0 + step;
    assert m as real * step < 1.0 + step;
    MulMonotone(y, m as real, step);
    assert 1.0 <= m as real * step;
    assert GridSize(step) as real == m as real + 1.0;
    assert (m as real + 1.0) * step == m as real * step + step;
  }

  /** The grid starts at 0 and increases strictly. */
  lemma GridIncreasing(step: real)
    requires step > 0.0
    ensures ThresholdGrid(step)[0] == 0.0
    ensures forall i, j :: 0 <= i < j < |ThresholdGrid(step)| ==> ThresholdGrid(step)[i] < ThresholdGrid(step)[j]
  {
    var g := ThresholdGrid(step);
    forall i, j | 0 <= i < j < |g| ensures g[i] < g[j] {
      MulStrictMonotone(i as real, j as real, step);
    }
  }

  /** A point at least one step before a point `b * step` below `1 + step`
      lies below 1. */
  lemma BeforeLastBelowOne(a: real, b: real, step: real)
    requires a + 1.0 <= b && step > 0.0 && b * step < 1.0 + step
    ensures a * step < 1.0
  {
    MulMonotone(a + 1.0, b, step);
    var here, next, last := a * step, (a + 1.0) * step, b * step;
    assert next == here + step;
    assert next <= last < 1.0 + step;
  }

  /** A grid point before the last lies below 1. */
  lemma PointBeforeLastBelowOne(step: real, k: nat)
    requires step > 0.0 && k < GridSize(step) - 1
    ensures ThresholdGrid(step)[k] < 1.0
  {
    var m := GridSize(step) - 1;
    GridSizeBounds(step);
    BeforeLastBelowOne(k as real, m as real, step);
  }

  /** Every point but the last lies below 1; the last lies in `[1, 1 + step)`. */
  lemma GridCoversUnitInterval(step: real)
    requires step > 0.0
    ensures forall k :: 0 <= k < |ThresholdGrid(step)| - 1 ==> ThresholdGrid(step)[k] < 1.0
    ensures 1.0 <= ThresholdGrid(step)[|ThresholdGrid(step)| - 1] < 1.0 + step
  {
    var g := ThresholdGrid(step);
    GridSizeBounds(step);
    assert g[|g| - 1] == (GridSize(step) - 1) as real * step;
    forall k | 0 <= k < |g| - 1 ensures g[k] < 1.0 {
      PointBeforeLastBelowOne(step, k);
    }
  }

  // ---- decimals of the threshold step ----

  /** Position of the first `c` in `s` at or after `from`, or `|s|`. */
  function IndexOf(s: string, c: char, from: nat): (i: nat)
    requires from <= |s|
    ensures from <= i <= |s|
    ensures i < |s| ==> s[i] == c
    ensures forall k :: from <= k < i ==> s[k] != c
    decreases |s| - from
  {
    if from == |s| || s[from] == c then from else IndexOf(s, c, from + 1)
  }

  /** Decimals used for threshold labels, from the text of the step:
      the length of the second '.'-separated piece, or 4 when the text
      has no '.'. */
  function DecimalCount(stepText: string): nat {
    var dot := IndexOf(stepText, '.', 0);
    if dot == |stepText| then 4
    else IndexOf(stepText, '.', dot + 1) - dot - 1
  }

  /** A text without '.' falls back to 4 decimals. */
  lemma DecimalCountFallback(stepText: string)
    requires '.' !in stepText
    ensures DecimalCount(stepText) == 4
  {
  }

  /** For a text `whole + "." + frac + rest`, where neither `whole` nor
      `frac` holds a '.' and `rest` is empty or starts a further piece,
      the decimal count is the length of `frac`. */
  lemma DecimalCountOfPieces(whole: string, frac: string, rest: string)
    requires '.' !in whole && '.' !in frac
    requires rest == [] || rest[0] == '.'
    ensures DecimalCount(whole + "." + frac + rest) == |frac|
  {
    var s := whole + "." + frac + rest;
    var dot := IndexOf(s, '.', 0);
    assert s[|whole|] == '.';
    assert forall k :: 0 <= k < |whole| ==> s[k] == whole[k] && whole[k] in whole;
    assert dot == |whole|;
    var next := IndexOf(s, '.', dot + 1);
    assert forall k :: 0 <= k < |frac| ==> s[dot + 1 + k] == frac[k] && frac[k] in frac;
    assert rest != [] ==> s[dot + 1 + |frac|] == rest[0];
    assert next == dot + 1 + |frac|;
  }

  // ---- display currency ----

  /** The dollar sign is replaced by its markup-safe character reference. */
  function DisplayCurrency(currency: string): string {
    if currency == "$" then "&#36;" else currency
  }

  /** The substitution touches only the bare dollar sign, never yields
      it, and applying it twice changes nothing more. */
  lemma DisplayCurrencyRule(currency: string)
    ensures DisplayCurrency(currency) != "$"
    ensures currency != "$" ==> DisplayCurrency(currency) == currency
    ensures DisplayCurrency(DisplayCurrency(currency)) == DisplayCurrency(currency)
  {
    assert "&#36;" != "$" by { assert |"&#36;"| != |"$"|; }
  }

  // ---- F-beta weight ----

  /** The precision-recall plot rejects a negative F-beta weight. */
  function CheckBeta(beta: real): (r: Result<real>)
    ensures r.Ok? <==> beta >= 0.0
    ensures r.Ok? ==> r.value == beta
    ensures r.Err? ==> r.error.ValueError?
  {
    if beta < 0.0 then Err(ValueError("beta should be >=0 in the F-beta score")) else Ok(beta)
  }
}
