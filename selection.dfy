/** Validation of the optional inputs of the amount/cost plots, the
    expansion of their confusion-class selections, and the per-threshold
    sums and crossings of the total amount/cost plot. */
module Selection {

  import opened Outcomes
  import opened Confusion
  import Swaps

  /** Which of the optional inputs a call supplies. */
  datatype AggregationMode = AmountOnly | CostOnly | Both

  /** The amount/cost table needs amounts, costs or both. */
  function Mode(amountsGiven: bool, costsGiven: bool): (r: Result<AggregationMode>)
    ensures r.Err? <==> !amountsGiven && !costsGiven
    ensures r.Ok? ==> (r.value == AmountOnly <==> amountsGiven && !costsGiven)
    ensures r.Ok? ==> (r.value == CostOnly <==> !amountsGiven && costsGiven)
    ensures r.Ok? ==> (r.value == Both <==> amountsGiven && costsGiven)
  {
    if amountsGiven && costsGiven then Ok(Both)
    else if amountsGiven then Ok(AmountOnly)
    else if costsGiven then Ok(CostOnly)
    else Err(MissingAmountsAndCosts)
  }

  /** A class selection as passed by the caller: nothing, one string (the
      default is the string "all"), or a list of strings. */
  datatype ClassSelection = Unset | Text(name: string) | Items(names: seq<string>)

  const SupportedLabels: seq<string> := ["TN", "FP", "FN", "TP"]

  /** A single string stands for the one-element list. */
  function Wrap(sel: ClassSelection): seq<string>
    requires !sel.Unset?
  {
    match sel
    case Text(name) => [name]
    case Items(names) => names
  }

  /** The selection rule as written: with the input present, no selection
      or "all" becomes all four labels; without it, ANY selection other
      than none is rejected, including the default "all". */
  function ResolveAsWritten(inputGiven: bool, sel: ClassSelection, message: string)
    : (r: Result<Option<seq<string>>>)
    ensures !inputGiven && sel.Text? && sel.name == "all" ==> r == Err(TypeError(message))
  {
    if inputGiven then
      if sel == Unset || sel == Text("all") then Ok(Some(SupportedLabels)) else Ok(Some(Wrap(sel)))
    else if sel != Unset then Err(TypeError(message))
    else Ok(None)
  }

  /** The defaults `amount_classes = "all"`, `cost_classes = "all"` make a
      call that supplies only one of amounts and costs fail. */
  lemma DefaultSelectionFailsAsWritten(message: string)
    ensures ResolveAsWritten(false, Text("all"), message).Err?
    ensures ResolveAsWritten(true, Text("all"), message).Ok?
  {
  }

  /** The selection rule as intended: as written, except that the default
      "all" selects nothing when the input it refers to is absent. */
  function ResolveSelection(inputGiven: bool, sel: ClassSelection, message: string)
    : (r: Result<Option<seq<string>>>)
  {
    if inputGiven then
      if sel == Unset || sel == Text("all") then Ok(Some(SupportedLabels)) else Ok(Some(Wrap(sel)))
    else if sel != Unset && sel != Text("all") then Err(TypeError(message))
    else Ok(None)
  }

  /** With the input present the selection always resolves: none or "all"
      to all four labels, a string to itself alone, a list to itself.
      Without it, none and "all" resolve to no selection and any explicit
      choice raises a TypeError. */
  lemma ResolveSelectionRule(inputGiven: bool, sel: ClassSelection, message: string)
    ensures inputGiven ==> ResolveSelection(inputGiven, sel, message).Ok?
    ensures (inputGiven && (sel.Unset? || sel == Text("all")))
              ==> ResolveSelection(inputGiven, sel, message) == Ok(Some(["TN", "FP", "FN", "TP"]))
    ensures (inputGiven && sel.Text? && sel.name != "all")
              ==> ResolveSelection(inputGiven, sel, message) == Ok(Some([sel.name]))
    ensures inputGiven && sel.Items? ==> ResolveSelection(inputGiven, sel, message) == Ok(Some(sel.names))
    ensures !inputGiven ==>
              (ResolveSelection(inputGiven, sel, message) == Err(TypeError(message))
               <==> !sel.Unset? && sel != Text("all"))
    ensures !inputGiven && (sel.Unset? || sel == Text("all")) ==> ResolveSelection(inputGiven, sel, message) == Ok(None)
  {
  }

  /** The correction changes exactly one case: the default "all" without
      the input it refers to. */
  lemma CorrectionOnlyAffectsDefault(inputGiven: bool, sel: ClassSelection, message: string)
    ensures ResolveSelection(inputGiven, sel, message) != ResolveAsWritten(inputGiven, sel, message)
            <==> !inputGiven && sel == Text("all")
  {
  }

  // ---- class names to table columns ----

  function ClassOf(name: string): (r: Option<ConfusionClass>)
    ensures r.Some? ==> r.value.Name() == name
  {
    if name == "TN" then Some(TN)
    else if name == "FP" then Some(FP)
    else if name == "FN" then Some(FN)
    else if name == "TP" then Some(TP)
    else None
  }

  /** A name selects a column exactly when it is one of the four labels. */
  lemma ClassOfNames(c: ConfusionClass, name: string)
    ensures ClassOf(c.Name()) == Some(c)
    ensures ClassOf(name).Some? <==> name in SupportedLabels
  {
  }

  /** The column of every selected name; an unknown name has no column. */
  function ParseClasses(names: seq<string>): (r: Result<seq<ConfusionClass>>)
    ensures r.Ok? <==> forall i :: 0 <= i < |names| ==> ClassOf(names[i]).Some?
    ensures r.Ok? ==> |r.value| == |names| && forall i :: 0 <= i < |names| ==> r.value[i].Name() == names[i]
    ensures r.Err? ==> r.error.KeyError?
  {
    if names == [] then Ok([])
    else
      match ClassOf(names[0])
      case None => Err(KeyError(names[0]))
      case Some(c) =>
        match ParseClasses(names[1..])
        case Err(e) => Err(e)
        case Ok(rest) => Ok([c] + rest)
  }

  /** Per-threshold amount (or cost) of each confusion class, as computed
      by the amount/cost table helper. */
  datatype ClassSeries = ClassSeries(tn: seq<real>, fp: seq<real>, fn: seq<real>, tp: seq<real>) {
    predicate Valid(n: nat) { |tn| == n && |fp| == n && |fn| == n && |tp| == n }
    function Get(c: ConfusionClass): seq<real> {
      match c
      case TN => tn
      case FP => fp
      case FN => fn
      case TP => tp
    }
  }

  /** Sum of the selected columns in row `row`; a class selected twice
      counts twice. */
  function RowSum(series: ClassSeries, classes: seq<ConfusionClass>, n: nat, row: nat): real
    requires series.Valid(n) && row < n
  {
    if classes == [] then 0.0 else series.Get(classes[0])[row] + RowSum(series, classes[1..], n, row)
  }

  function SelectedSum(series: ClassSeries, classes: seq<ConfusionClass>, n: nat): (r: seq<real>)
    requires series.Valid(n)
    ensures |r| == n
  {
    seq(n, row requires 0 <= row < n => RowSum(series, classes, n, row))
  }

  /** Summing the concatenation of two selections adds their sums. */
  lemma {:induction false} RowSumAppend(series: ClassSeries, c1: seq<ConfusionClass>, c2: seq<ConfusionClass>, n: nat, row: nat)
    requires series.Valid(n) && row < n
    ensures RowSum(series, c1 + c2, n, row) == RowSum(series, c1, n, row) + RowSum(series, c2, n, row)
  {
    if c1 != [] {
      assert (c1 + c2)[1..] == c1[1..] + c2;
      RowSumAppend(series, c1[1..], c2, n, row);
    } else {
      assert c1 + c2 == c2;
    }
  }

  /** Selecting all four labels sums the whole row. */
  lemma AllLabelsSumWholeRow(series: ClassSeries, n: nat, row: nat)
    requires series.Valid(n) && row < n
    ensures ParseClasses(SupportedLabels) == Ok([TN, FP, FN, TP])
    ensures RowSum(series, [TN, FP, FN, TP], n, row)
            == series.tn[row] + series.fp[row] + series.fn[row] + series.tp[row]
  {
    var cs := [TN, FP, FN, TP];
    assert cs[1..] == [FP, FN, TP] && cs[1..][1..] == [FN, TP] && cs[1..][1..][1..] == [TP];
    assert cs[1..][1..][1..][1..] == [];
    assert RowSum(series, [TP], n, row) == series.tp[row];
    assert RowSum(series, [FN, TP], n, row) == series.fn[row] + series.tp[row];
    assert RowSum(series, [FP, FN, TP], n, row) == series.fp[row] + series.fn[row] + series.tp[row];
    var l0, l1, l2, l3: seq<string> := SupportedLabels, ["FP", "FN", "TP"], ["FN", "TP"], ["TP"];
    assert l0[0] == "TN" && l0[1..] == l1;
    assert l1[0] == "FP" && l1[1..] == l2;
    assert l2[0] == "FN" && l2[1..] == l3;
    assert l3[0] == "TP" && l3[1..] == [];
    assert ClassOf(l0[0]) == Some(TN) && ClassOf(l1[0]) == Some(FP);
    assert ClassOf(l2[0]) == Some(FN) && ClassOf(l3[0]) == Some(TP);
    var p3 := ParseClasses(l3);
    assert p3.Ok? && p3.value == [TP];
    var p2 := ParseClasses(l2);
    assert p2.Ok? && p2.value == [FN, TP];
    var p1 := ParseClasses(l1);
    assert p1.Ok? && p1.value == [FP, FN, TP];
    var p0 := ParseClasses(l0);
    assert p0.Ok? && p0.value == [TN, FP, FN, TP];
  }

  /** One selected variable of the total plot: its classes and per-threshold sum. */
  datatype Selected = Selected(classes: seq<ConfusionClass>, sum: seq<real>)

  /** What the total amount/cost plot computes: the selected amount sum,
      the selected cost sum, and, when both are present, the thresholds
      and costs at which they cross. */
  datatype TotalPlot = TotalPlot(amount: Option<Selected>, cost: Option<Selected>,
                                 swapThresholds: seq<real>, swapCosts: seq<real>)

  const AmountMessage := "if amount_classes is given, amounts can't be None."
  const CostMessage := "if cost_classes is given, cost_dict can't be None."

  /** Resolved selection of one variable, with its column sum. */
  function SelectVariable(table: Option<ClassSeries>, names: Option<seq<string>>, n: nat)
    : (r: Result<Option<Selected>>)
    requires table.Some? ==> table.value.Valid(n)
    requires names.Some? ==> table.Some?
    ensures r.Ok? ==> (r.value.Some? <==> names.Some?)
    ensures r.Ok? && r.value.Some? ==> |r.value.value.sum| == n
  {
    if names.None? then Ok(None)
    else
      match ParseClasses(names.value)
      case Err(e) => Err(e)
      case Ok(cs) => Ok(Some(Selected(cs, SelectedSum(table.value, cs, n))))
  }

  /** Which selection rule a plot applies: the code as written, or the
      intended rule in which the default "all" needs no input. */
  datatype SelectionRule = AsWritten | Corrected

  function Resolve(rule: SelectionRule, inputGiven: bool, sel: ClassSelection, message: string)
    : (r: Result<Option<seq<string>>>)
    ensures r.Ok? ==> (r.value.Some? <==> inputGiven)
    ensures r.Err? ==> r == Err(TypeError(message))
  {
    match rule
    case AsWritten => ResolveAsWritten(inputGiven, sel, message)
    case Corrected => ResolveSelection(inputGiven, sel, message)
  }

  /** The selection checks before any column is read pass: both
      selections resolve and at least one of amounts and costs is given. */
  predicate InputsAccepted(rule: SelectionRule, amountTable: Option<ClassSeries>, costTable: Option<ClassSeries>,
                           amountSel: ClassSelection, costSel: ClassSelection)
  {
    && Resolve(rule, amountTable.Some?, amountSel, AmountMessage).Ok?
    && Resolve(rule, costTable.Some?, costSel, CostMessage).Ok?
    && (amountTable.Some? || costTable.Some?)
  }

  /** A resolved selection names only known columns. */
  predicate NamesKnown(names: Result<Option<seq<string>>>) {
    names.Ok? && (names.value.Some? ==> ParseClasses(names.value.value).Ok?)
  }

  /** The total amount/cost plot: validates the selections, needs amounts
      or costs, sums the selected columns per threshold, and with both
      variables present records where the amount sum and the cost sum
      cross. `rule` chooses between the selection rule as written and the
      corrected one. */
  method TotalAmountCost(rule: SelectionRule, amountTable: Option<ClassSeries>, costTable: Option<ClassSeries>,
                         amountSel: ClassSelection, costSel: ClassSelection, thresholds: seq<real>)
    returns (r: Result<TotalPlot>)
    requires amountTable.Some? ==> amountTable.value.Valid(|thresholds|)
    requires costTable.Some? ==> costTable.value.Valid(|thresholds|)
    // the errors, in the order the plot raises them
    ensures Resolve(rule, amountTable.Some?, amountSel, AmountMessage).Err? ==> r == Err(TypeError(AmountMessage))
    ensures (Resolve(rule, amountTable.Some?, amountSel, AmountMessage).Ok?
             && Resolve(rule, costTable.Some?, costSel, CostMessage).Err?)
            ==> r == Err(TypeError(CostMessage))
    ensures (Resolve(rule, amountTable.Some?, amountSel, AmountMessage).Ok?
             && Resolve(rule, costTable.Some?, costSel, CostMessage).Ok?
             && amountTable.None? && costTable.None?)
            ==> r == Err(MissingAmountsAndCosts)
    ensures (InputsAccepted(rule, amountTable, costTable, amountSel, costSel)
             && !NamesKnown(Resolve(rule, amountTable.Some?, amountSel, AmountMessage)))
            ==> r == Err(ParseClasses(Resolve(rule, amountTable.Some?, amountSel, AmountMessage).value.value).error)
    ensures (InputsAccepted(rule, amountTable, costTable, amountSel, costSel)
             && NamesKnown(Resolve(rule, amountTable.Some?, amountSel, AmountMessage))
             && !NamesKnown(Resolve(rule, costTable.Some?, costSel, CostMessage)))
            ==> r == Err(ParseClasses(Resolve(rule, costTable.Some?, costSel, CostMessage).value.value).error)
    // when the plot is drawn
    ensures r.Ok? <==> InputsAccepted(rule, amountTable, costTable, amountSel, costSel)
                       && NamesKnown(Resolve(rule, amountTable.Some?, amountSel, AmountMessage))
                       && NamesKnown(Resolve(rule, costTable.Some?, costSel, CostMessage))
    ensures r.Err? ==> r.error.TypeError? || r.error.KeyError? || r.error.MissingAmountsAndCosts?
    // the source's default call with amounts only
    ensures rule == AsWritten && amountTable.Some? && costTable.None? && costSel == Text("all")
            ==> r == Err(TypeError(CostMessage))
    // what is drawn
    ensures r.Ok? ==> (r.value.amount.Some? <==> amountTable.Some?) && (r.value.cost.Some? <==> costTable.Some?)
    ensures r.Ok? && r.value.amount.Some? ==>
              ParseClasses(Resolve(rule, true, amountSel, AmountMessage).value.value) == Ok(r.value.amount.value.classes)
              && r.value.amount.value.sum == SelectedSum(amountTable.value, r.value.amount.value.classes, |thresholds|)
    ensures r.Ok? && r.value.cost.Some? ==>
              ParseClasses(Resolve(rule, true, costSel, CostMessage).value.value) == Ok(r.value.cost.value.classes)
              && r.value.cost.value.sum == SelectedSum(costTable.value, r.value.cost.value.classes, |thresholds|)
    ensures r.Ok? && r.value.amount.Some? && r.value.cost.Some? ==>
              var diff := Swaps.Diff(r.value.amount.value.sum, r.value.cost.value.sum);
              r.value.swapThresholds == Swaps.AtSwaps(diff, thresholds)
              && r.value.swapCosts == Swaps.AtSwaps(diff, r.value.cost.value.sum)
    ensures r.Ok? && (r.value.amount.None? || r.value.cost.None?) ==> r.value.swapThresholds == [] && r.value.swapCosts == []
  {
    var amountNames :- Resolve(rule, amountTable.Some?, amountSel, AmountMessage);
    var costNames :- Resolve(rule, costTable.Some?, costSel, CostMessage);
    var mode :- Mode(amountTable.Some?, costTable.Some?);
    var amount :- SelectVariable(amountTable, amountNames, |thresholds|);
    var cost :- SelectVariable(costTable, costNames, |thresholds|);
    var xs, ys := [], [];
    if amount.Some? && cost.Some? {
      xs, ys := Swaps.FindSwaps(amount.value.sum, cost.value.sum, thresholds);
    }
    return Ok(TotalPlot(amount, cost, xs, ys));
  }
}
