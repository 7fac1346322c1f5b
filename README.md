# Threshold plots of binclass-tools, modelled in Dafny

binclass-tools draws interactive Plotly figures for binary classifiers. Each
figure has a slider that moves a decision threshold over a grid from 0 to 1.
This project models the logic in `bctools/plots.py` that decides what those
figures contain. It leaves the drawing out. The modelled logic covers:

- how each sample is assigned one confusion class (TN, FP, FN, TP) at a
  threshold, and how the per-class counts become the step titles;
- the threshold grid, the number of decimals used for its labels, and the
  input rules: the `beta` check, the `'$'` substitution, and the expansion
  and validation of the amount and cost class selections;
- the visibility masks of the slider steps of the violin, density,
  confusion-matrix and line-chart plots, built as the source builds them. A
  running trace index moves over a flat trace list and switches entries of
  an all-false mask on;
- the detection of the "swaps", the grid points where the amount and cost
  series cross, in the line-chart and total amount/cost plots;
- the split of the density curves at the threshold, the choice of quadrant
  annotations, and the text position of the indicator markers.

Modules:

- `Outcomes` holds `Result`, `Option` and the error kinds the source raises.
- `Confusion` covers classification, counts and titles.
- `Grid` covers the threshold grid, decimals, currency and `beta`.
- `SliderMasks` holds the four mask builders.
- `Swaps` covers crossing detection.
- `Layout` covers the curve split, annotations and text positions.
- `Selection` covers the amount/cost selections and the total amount/cost
  plot.

Numbers are modelled as follows:

- Probabilities, thresholds, amounts and costs are `real`.
- Counts are `nat`.
- Labels are the two values of `Actual`, since the source only supports
  0 and 1.

## Model

| member | source | states |
|---|---|---|
| `Confusion.SelectionIsClassification` | bctools/plots.py:261-266 | Exactly one of the four selection conditions holds for every sample and threshold. The class selected is the one whose predicted side (`t <= pred`) and actual label agree with the sample. |
| `Confusion.CountsPartition` | bctools/plots.py:261-268 | At any threshold the four per-class counts add up to the number of samples. |
| `Confusion.PredictedPositiveMonotone` | bctools/plots.py:261-268 | Raising the threshold never increases the number of samples predicted positive (FP + TP). |
| `Confusion.AllPositiveAtLowThreshold` | bctools/plots.py:261-266 | When no prediction lies below the threshold, there are no TN and no FN. At threshold 0 every sample is predicted positive. |
| `Confusion.AllNegativeAtHighThreshold` | bctools/plots.py:261-266 | When every prediction lies below the threshold, there are no FP and no TP. |
| `Confusion.FourSampleScenario` | bctools/plots.py:261-268 | Four concrete samples at threshold 0.5 give TN 2, FP 0, FN 1, TP 1. |
| `Confusion.NatToStringRoundTrip` | bctools/plots.py:272 | A count's decimal text is non-empty, all digits and has no leading zero, and it reads back as the count. |
| `Confusion.ViolinTitle` | bctools/plots.py:270-274 | The loop that appends `"C: n,  "` per present class and then drops the last three characters yields the entries joined by `",  "`. With no classes the title is empty. |
| `Confusion.TitleCountsAddUp` | bctools/plots.py:268-274 | For a value-counts order (each present class once, absent classes never), the counts named in the title add up to the number of samples. |
| `Confusion.EmptyDataEmptyTitle` | bctools/plots.py:268-274 | With no samples, no class is present and the title is empty. |
| `Confusion.StripTracesPerThreshold` | bctools/plots.py:276-284 | The strip figure of a threshold has one trace per class present: between 1 and 4 for non-empty data. |
| `Confusion.DensityTitleListsAllClasses` | bctools/plots.py:406-408 | The density title lists all four classes in the order TN, FP, FN, TP, separated by `", "`, absent classes included. |
| `Grid.GridSizeBounds` | bctools/plots.py:241 | The number `n` of grid points is at least 2 and satisfies `(n-1)*step < 1+step <= n*step`, the length rule of a half-open range. The last point is at least 1. |
| `Grid.GridIncreasing` | bctools/plots.py:241 | The grid starts at 0 and increases strictly. |
| `Grid.GridCoversUnitInterval` | bctools/plots.py:241 | Every grid point before the last lies below 1. The last lies in `[1, 1+step)`. |
| `Grid.DecimalCountOfPieces` | bctools/plots.py:236-237 | For step text `whole.frac` or `whole.frac.rest`, the number of decimals is the length of `frac`. |
| `Grid.DecimalCountFallback` | bctools/plots.py:236-239 | A step text without a `'.'` falls back to 4 decimals. |
| `Grid.DisplayCurrencyRule` | bctools/plots.py:658-659 | Only the bare `"$"` is replaced, the result is never `"$"`, and a second application changes nothing. |
| `Grid.CheckBeta` | bctools/plots.py:51-52 | A negative `beta` gives a `ValueError`. Any other `beta` is accepted unchanged. |
| `SliderMasks.BlockOwner` | bctools/plots.py:550-560 | With equal-width blocks after a static prefix, each trace of the blocks belongs to exactly one block: the one given by its offset divided by the width. |
| `SliderMasks.ViolinSliderMasks` | bctools/plots.py:305-332 | Step `i` shows the violin and exactly the `lengths[i]` strip traces that start at `1 + lengths[0] + ... + lengths[i-1]`. This holds for the running index `idx` and the inner loop. |
| `SliderMasks.ViolinInitialVisibility` | bctools/plots.py:286-301 | The figure as first shown equals the mask of step 0. |
| `SliderMasks.ViolinEachStripOnce` | bctools/plots.py:305-332 | The violin is visible at every step, and every strip trace is visible at exactly one step. |
| `SliderMasks.DensitySliderMasks` | bctools/plots.py:527-562 | Step `k` shows exactly traces `6k .. 6k+5`: four curves and two threshold lines. |
| `SliderMasks.DensityInitialVisibility` | bctools/plots.py:520-525 | The figure as first shown equals the mask of step 0. |
| `SliderMasks.DensityEachTraceOnce` | bctools/plots.py:550-560 | Every trace of the density figure is shown by exactly one step, step `j / 6`. |
| `SliderMasks.ConfusionMatrixSliderMasks` | bctools/plots.py:786-803 | Step `k` shows the two fixed tables and exactly traces `2+2k` and `3+2k`. |
| `SliderMasks.ConfusionMatrixInitialVisibility` | bctools/plots.py:780-782 | The figure as first shown equals the mask of step 0. |
| `SliderMasks.ConfusionMatrixEachTraceOnce` | bctools/plots.py:786-803 | The two tables are shown by every step. Every other trace is shown by exactly one step. |
| `SliderMasks.LineChartLayoutFor` | bctools/plots.py:916-918 | With both amounts and costs there are 12 static traces and 8 markers per threshold. Otherwise there are 4 and 4. |
| `SliderMasks.LineChartSliderMasks` | bctools/plots.py:1135-1152 | Step `k` shows all static line charts and exactly the `markerCount` markers of threshold `k`. |
| `SliderMasks.LineChartInitialVisibility` | bctools/plots.py:1129-1133 | The figure as first shown equals the mask of step 0. |
| `SliderMasks.LineChartEachMarkerOnce` | bctools/plots.py:1135-1152 | The static charts are shown by every step. Every marker trace is shown by exactly one step. |
| `Swaps.FindSwaps` | bctools/plots.py:954-965 | The if/elif scan records, in order, the threshold and the cost at every grid point where a crossing of `amount - cost` completes. |
| `Swaps.SwapIndicesExact` | bctools/plots.py:958-965 | A grid index is recorded exactly when the difference goes from negative to non-negative, or from positive to non-positive, just before it. The indices strictly increase. |
| `Swaps.SwapThresholdsOrdered` | bctools/plots.py:958-965 | Over the strictly increasing grid, the recorded thresholds strictly increase. Each is a grid point where a crossing completes. |
| `Swaps.ZeroStartsNoSwap` | bctools/plots.py:958-965 | A zero difference never starts a crossing, whatever follows. |
| `Swaps.SwapParity` | bctools/plots.py:958-965 | When the difference never vanishes, the number of swaps is even exactly when the first and the last difference have the same sign. |
| `Layout.SearchSorted` | bctools/plots.py:411 | On a sorted series, the split index is the left insertion point: every earlier element is below the threshold and every later one is not. |
| `Layout.SplitCurve` | bctools/plots.py:411-421 | The two parts of each curve concatenate back to the curve. The x values of the first part lie below the threshold and those of the second part do not. |
| `Layout.SplitMatchesClassification` | bctools/plots.py:411-421 | A point falls in the TN (respectively FN) part of the curve exactly when a negative (respectively positive) sample at that prediction is classified TN (respectively FN). |
| `Layout.StepAnnotationsShown` | bctools/plots.py:534-542 | The threshold label comes first. TN and FN labels are present iff `t >= 0.04`, FP and TP labels iff `t <= 0.96`. No label appears twice. |
| `Layout.InitialAnnotationsAreFirstStep` | bctools/plots.py:573 | The annotations first shown are those of the step at threshold 0. |
| `Layout.SideOnGrid` | bctools/plots.py:989-992 | On the threshold grid, marker text goes to the left exactly at the points past the middle one: point `k` of `n` when `2k > n-1`. The middle is half-way between the first and last grid point, as computed at line 885. |
| `Layout.PairPositionsClose` | bctools/plots.py:1005-1013 | When amount and cost are closer than one unit, their labels go on opposite sides vertically, and the larger value's label goes on top. |
| `Layout.PairPositionsFar` | bctools/plots.py:1015-1025 | Otherwise each label goes on top exactly when its value lies below the middle of its chart. |
| `Layout.SinglePositionTowardsMiddle` | bctools/plots.py:1105-1108 | A single marker's label goes on top exactly when its value lies below the middle. |
| `Layout.TextIsInjective` | bctools/plots.py:1005-1025 | Distinct positions have distinct Plotly position texts. |
| `Selection.Mode` | bctools/plots.py:1268-1269 | The amount/cost table needs amounts, costs or both. With neither it fails. |
| `Selection.ResolveAsWritten` | bctools/plots.py:1255-1266 | The selection rule as written. Without its input, the default `"all"` raises `TypeError`. |
| `Selection.DefaultSelectionFailsAsWritten` | bctools/plots.py:1186-1188 | With the default arguments and only one of amounts and costs given, the as-written rule rejects the call. |
| `Selection.ResolveSelectionRule` | bctools/plots.py:1255-1266 | With its input present: none or `"all"` selects all four classes, a string selects itself, and a list selects its items. Without the input: none or `"all"` selects nothing, and any explicit choice raises `TypeError`. |
| `Selection.CorrectionOnlyAffectsDefault` | bctools/plots.py:1255-1266 | The corrected rule differs from the as-written one in exactly one case: `"all"` without its input. |
| `Selection.ClassOfNames` | bctools/plots.py:1284 | A name selects a table column exactly when it is one of the four labels. |
| `Selection.ParseClasses` | bctools/plots.py:1281-1285 | Every name of the selection maps to its class, in order, with duplicates kept. Any unknown name gives a `KeyError`. |
| `Selection.RowSumAppend` | bctools/plots.py:1285 | Summing two selections one after the other adds their sums, so a class selected twice counts twice. |
| `Selection.AllLabelsSumWholeRow` | bctools/plots.py:1255-1285 | On every row, selecting `"all"` sums the four class columns. |
| `Selection.TotalAmountCost` | bctools/plots.py:1255-1331 | The plot fails, in this order, with the amount `TypeError`, the cost `TypeError`, the missing-input error, the `KeyError` of an unknown amount class, then that of an unknown cost class; it succeeds exactly when none applies. Under the rule as written, the default call with amounts only raises the cost `TypeError`. A variable is plotted exactly when its input is given, as the sum of its selected columns, and with both plotted the swaps of their difference are recorded. |

## Left out

- Plotly itself is not modelled: figure objects, subplots, colours, sizes, hover templates, legends, the display mode bar and `fig.show`. Only the visibility masks and the choice of annotations and text positions are modelled.
- The scikit-learn calls are not modelled: the PR and ROC curves, `auc`, `fbeta_score` and `confusion_matrix`. The density title takes the four counts as given. The case where `confusion_matrix` returns a 1x1 matrix, because only one class occurs, is not modelled.
- The helpers `get_amount_cost_df`, `get_invariant_metrics_df` and `get_confusion_matrix_and_metrics_df` live in another file, which is not part of this model. Their per-threshold series are inputs (`Selection.ClassSeries`). Their error for missing amounts and costs is `MissingAmountsAndCosts`.
- Floating point is not modelled: how `np.arange` rounds, the kernel density estimates, the ISO F-beta curves, and `round` and number formatting of labels and titles. `Grid.DecimalCount` takes `str(threshold_step)` as its text input.
- `np.random.seed` and the strip jitter are not modelled, because they change no modelled value.
- `Layout.PairPositions`: `middle_y` and `unit_y`, computed from the plotted series, are inputs. The source adds two plotted arrays before taking their extremes, and whether that concatenates or adds element-wise depends on how Plotly stores them.
- `Confusion.ViolinTitle`: the order of `value_counts` is a parameter, constrained by `Confusion.ValueCountsOrder`: present classes once each, absent ones never, by decreasing count. Among classes with equal counts, the order pandas picks is not modelled.
- `Grid.GridSize` requires `step > 0`. The source checks neither the step nor for empty data. With a step of 0 NumPy fails, a step in `[-1, 0)` gives an empty grid, and a step below -1 gives the one-point grid `[0.0]`.
- The cost titles and subtitles of the confusion-matrix, line-chart and total plots are not modelled, nor the text of the "Swaps:" annotation. They are formatting of modelled values.
- `Layout.SplitCurve` requires the x and y series of a curve to have equal length, as the density estimate provides them.
- The initial-visibility methods model only the visibility flags set when traces are added and switched on.
- `Selection.SelectedSum`: an empty list selection sums to zero on every row. The source's pandas `apply(sum)` over no columns is not modelled more closely.
- True labels other than 0 and 1 are not modelled; the source does not support them either.

## Findings

| source | as written | input that shows it | evidently intended | confidence | as-written member | corrected member |
|---|---|---|---|---|---|---|
| bctools/plots.py:1186-1188,1259-1266 | Any selection that is not `None` without its input raises `TypeError`. That includes the default `'all'`. | `total_amount_cost_plot(y, p, amounts=a)` with `cost_classes` left at its default `'all'` and `cost_dict=None` raises "if cost_classes is given, cost_dict can't be None." | The default `'all'` selects nothing when its input is absent; only an explicit class choice without its input is an error | not executed; medium (read from the code and the defaults) | `Selection.ResolveAsWritten`, `Selection.DefaultSelectionFailsAsWritten`, `Selection.TotalAmountCost` with rule `AsWritten` | `Selection.ResolveSelection`, `Selection.ResolveSelectionRule`, `Selection.CorrectionOnlyAffectsDefault`, `Selection.TotalAmountCost` with rule `Corrected` |
