/** Per-threshold confusion classes, their counts and the count titles
    shown above the violin and density plots. */
module Confusion {

  import opened Outcomes

  /** A true label; the plotting functions accept only 0 and 1. */
  datatype Actual = Negative | Positive

  datatype ConfusionClass = TN | FP | FN | TP {
    predicate PredictedPositive() { this == FP || this == TP }
    predicate ActuallyPositive() { this == FN || this == TP }
    function Name(): string {
      match this
      case TN => "TN"
      case FP => "FP"
      case FN => "FN"
      case TP => "TP"
    }
  }

  /** One row of the data frame: true class and predicted probability. */
  datatype Sample = Sample(actual: Actual, pred: real)

  /** The label list the classification selects from, in this order. */
  const Choices: seq<ConfusionClass> := [TN, FP, FN, TP]

  /** The four selection conditions, in the order of `Choices`. */
  function Conditions(s: Sample, t: real): (c: seq<bool>)
    ensures |c| == 4
  {
    [ s.actual == Negative && s.pred < t,
      s.actual == Negative && s.pred >= t,
      s.actual == Positive && s.pred < t,
      s.actual == Positive && s.pred >= t ]
  }

  /** Multi-way selection: the choice of the first condition that holds. */
  function Select(conds: seq<bool>, choices: seq<ConfusionClass>): (r: Option<ConfusionClass>)
    requires |conds| == |choices|
    ensures r.Some? <==> true in conds
    ensures r.Some? ==> exists i :: 0 <= i < |conds| && conds[i] && choices[i] == r.value
  {
    if conds == [] then None
    else if conds[0] then Some(choices[0])
    else Select(conds[1..], choices[1..])
  }

  /** The confusion class of a sample at threshold `t`: predicted
      negative below the threshold, positive at or above it. */
  function Classify(s: Sample, t: real): (c: ConfusionClass)
    ensures c.PredictedPositive() <==> t <= s.pred
    ensures c.ActuallyPositive() <==> s.actual == Positive
  {
    match s.actual
    case Negative => if s.pred < t then TN else FP
    case Positive => if s.pred < t then FN else TP
  }

  function CountTrue(bs: seq<bool>): nat {
    if bs == [] then 0 else (if bs[0] then 1 else 0) + CountTrue(bs[1..])
  }

  /** Exactly one selection condition holds for every sample, and the
      selection picks the class `Classify` gives. */
  lemma SelectionIsClassification(s: Sample, t: real)
    ensures CountTrue(Conditions(s, t)) == 1
    ensures Select(Conditions(s, t), Choices) == Some(Classify(s, t))
  {
    var c := Conditions(s, t);
    assert c[1..][1..][1..][1..] == [];
    assert c[1..][1..][1..] == [c[3]];
    assert CountTrue(c[1..][1..][1..]) == (if c[3] then 1 else 0);
    assert CountTrue(c[1..][1..]) == (if c[2] then 1 else 0) + (if c[3] then 1 else 0);
    assert CountTrue(c[1..]) == (if c[1] then 1 else 0) + (if c[2] then 1 else 0) + (if c[3] then 1 else 0);
  }

  /** Number of samples that fall into class `c` at threshold `t`. */
  function Count(samples: seq<Sample>, t: real, c: ConfusionClass): (n: nat)
    ensures n <= |samples|
  {
    if samples == [] then 0
    else (if Classify(samples[0], t) == c then 1 else 0) + Count(samples[1..], t, c)
  }

  datatype Counts = Counts(tn: nat, fp: nat, fn: nat, tp: nat) {
    function Get(c: ConfusionClass): nat {
      match c
      case TN => tn
      case FP => fp
      case FN => fn
      case TP => tp
    }
    function Total(): nat { tn + fp + fn + tp }
  }

  /** The confusion matrix of the samples at threshold `t`. */
  function CountsAt(samples: seq<Sample>, t: real): (r: Counts)
    ensures forall c :: r.Get(c) == Count(samples, t, c)
  {
    Counts(Count(samples, t, TN), Count(samples, t, FP), Count(samples, t, FN), Count(samples, t, TP))
  }

  /** The four classes partition the samples. */
  lemma {:induction false} CountsPartition(samples: seq<Sample>, t: real)
    ensures CountsAt(samples, t).Total() == |samples|
  {
    if samples != [] {
      CountsPartition(samples[1..], t);
    }
  }

  function PredictedPositiveCount(samples: seq<Sample>, t: real): nat {
    Count(samples, t, FP) + Count(samples, t, TP)
  }

  /** Raising the threshold never adds predicted positives. */
  lemma {:induction false} PredictedPositiveMonotone(samples: seq<Sample>, t1: real, t2: real)
    requires t1 <= t2
    ensures PredictedPositiveCount(samples, t2) <= PredictedPositiveCount(samples, t1)
  {
    if samples != [] {
      PredictedPositiveMonotone(samples[1..], t1, t2);
    }
  }

  /** At a threshold no probability lies below, nothing is predicted negative. */
  lemma {:induction false} AllPositiveAtLowThreshold(samples: seq<Sample>, t: real)
    requires forall i :: 0 <= i < |samples| ==> t <= samples[i].pred
    ensures Count(samples, t, TN) == 0 && Count(samples, t, FN) == 0
  {
    if samples != [] {
      assert forall i :: 0 <= i < |samples[1..]| ==> samples[1..][i] == samples[i + 1];
      AllPositiveAtLowThreshold(samples[1..], t);
    }
  }

  /** At a threshold above every probability, nothing is predicted positive. */
  lemma {:induction false} AllNegativeAtHighThreshold(samples: seq<Sample>, t: real)
    requires forall i :: 0 <= i < |samples| ==> samples[i].pred < t
    ensures Count(samples, t, FP) == 0 && Count(samples, t, TP) == 0
  {
    if samples != [] {
      assert forall i :: 0 <= i < |samples[1..]| ==> samples[1..][i] == samples[i + 1];
      AllNegativeAtHighThreshold(samples[1..], t);
    }
  }

  /** Labels [0,0,1,1], probabilities [0.1,0.4,0.35,0.8], threshold 0.5. */
  lemma FourSampleScenario()
    ensures CountsAt([Sample(Negative, 0.1), Sample(Negative, 0.4),
                      Sample(Positive, 0.35), Sample(Positive, 0.8)], 0.5)
            == Counts(2, 0, 1, 1)
  {
    var s := [Sample(Negative, 0.1), Sample(Negative, 0.4), Sample(Positive, 0.35), Sample(Positive, 0.8)];
    assert s[1..][1..][1..][1..] == [];
  }

  // ---- decimal rendering of a count ----

  function DigitChar(d: nat): (ch: char)
    requires d < 10
    ensures '0' <= ch <= '9' && (ch as int) - ('0' as int) == d
  {
    "0123456789"[d]
  }

  predicate AllDigits(s: string) {
    forall i :: 0 <= i < |s| ==> '0' <= s[i] <= '9'
  }

  /** Decimal rendering of a natural number, without leading zeros. */
  function NatToString(n: nat): (s: string)
    ensures |s| >= 1 && AllDigits(s)
    ensures s[0] == '0' ==> n == 0
  {
    if n < 10 then [DigitChar(n)] else NatToString(n / 10) + [DigitChar(n % 10)]
  }

  /** Reads a numeral back; the reference against which `NatToString` is checked. */
  function ParseNat(s: string): nat
    requires AllDigits(s)
  {
    if s == [] then 0
    else ParseNat(s[..|s| - 1]) * 10 + ((s[|s| - 1] as int) - ('0' as int))
  }

  /** Rendering a count and reading it back gives the count. */
  lemma {:induction false} NatToStringRoundTrip(n: nat)
    ensures ParseNat(NatToString(n)) == n
  {
    if n >= 10 {
      NatToStringRoundTrip(n / 10);
      var s := NatToString(n);
      assert s[..|s| - 1] == NatToString(n / 10);
    }
  }

  // ---- count titles ----

  /** One title entry, `"LABEL: count"`. */
  function Entry(c: ConfusionClass, n: nat): string {
    c.Name() + ": " + NatToString(n)
  }

  function Entries(counts: Counts, order: seq<ConfusionClass>): (r: seq<string>)
    ensures |r| == |order|
    ensures forall i :: 0 <= i < |order| ==> r[i] == Entry(order[i], counts.Get(order[i]))
  {
    if order == [] then [] else [Entry(order[0], counts.Get(order[0]))] + Entries(counts, order[1..])
  }

  /** The parts separated by `sep`. */
  function Join(parts: seq<string>, sep: string): string {
    if parts == [] then ""
    else if |parts| == 1 then parts[0]
    else parts[0] + sep + Join(parts[1..], sep)
  }

  /** Every part followed by `sep`: what the title loop accumulates. */
  function Terminated(parts: seq<string>, sep: string): string {
    if parts == [] then "" else Terminated(parts[..|parts| - 1], sep) + parts[|parts| - 1] + sep
  }

  lemma {:induction false} TerminatedIsJoinPlusSep(parts: seq<string>, sep: string)
    requires parts != []
    ensures Terminated(parts, sep) == Join(parts, sep) + sep
  {
    if |parts| > 1 {
      var init := parts[..|parts| - 1];
      TerminatedIsJoinPlusSep(init, sep);
      JoinSnoc(init, parts[|parts| - 1], sep);
      assert init + [parts[|parts| - 1]] == parts;
    }
  }

  lemma {:induction false} JoinSnoc(parts: seq<string>, last: string, sep: string)
    requires parts != []
    ensures Join(parts + [last], sep) == Join(parts, sep) + sep + last
  {
    if |parts| > 1 {
      assert (parts + [last])[1..] == parts[1..] + [last];
      JoinSnoc(parts[1..], last, sep);
    } else {
      assert (parts + [last])[1..] == [last];
    }
  }

  /** Slicing away the last three characters; shorter strings become empty. */
  function DropLastThree(s: string): (r: string)
    ensures |s| >= 3 ==> r == s[..|s| - 3]
    ensures |s| < 3 ==> r == ""
  {
    if |s| >= 3 then s[..|s| - 3] else ""
  }

  lemma EntriesExtend(counts: Counts, order: seq<ConfusionClass>, i: nat)
    requires i < |order|
    ensures Terminated(Entries(counts, order[..i + 1]), ",  ")
            == Terminated(Entries(counts, order[..i]), ",  ") + Entry(order[i], counts.Get(order[i])) + ",  "
  {
    var longer := Entries(counts, order[..i + 1]);
    assert longer[..|longer| - 1] == Entries(counts, order[..i]);
  }

  /** Dropping the trailing separator of the accumulated entries leaves them joined. */
  lemma TrimSeparator(parts: seq<string>, sep: string)
    requires parts != [] && |sep| == 3
    ensures DropLastThree(Terminated(parts, sep)) == Join(parts, sep)
  {
    TerminatedIsJoinPlusSep(parts, sep);
    var full := Join(parts, sep);
    assert (full + sep)[..|full + sep| - 3] == full;
  }

  /** The violin-plot title loop: appends `"LABEL: count,  "` for each class
      listed by the value counts, then removes the trailing separator. */
  method ViolinTitle(counts: Counts, order: seq<ConfusionClass>) returns (title: string)
    ensures title == Join(Entries(counts, order), ",  ")
    ensures order == [] ==> title == ""
  {
    title := "";
    for i := 0 to |order|
      invariant title == Terminated(Entries(counts, order[..i]), ",  ")
    {
      EntriesExtend(counts, order, i);
      title := title + Entry(order[i], counts.Get(order[i])) + ",  ";
    }
    assert order[..|order|] == order;
    if order != [] {
      TrimSeparator(Entries(counts, order), ",  ");
    }
    title := DropLastThree(title);
  }

  /** The value counts of the classes at one threshold: each class that
      occurs is listed exactly once, and no other, by decreasing count. */
  predicate ValueCountsOrder(counts: Counts, order: seq<ConfusionClass>) {
    && (forall i, j :: 0 <= i < j < |order| ==> order[i] != order[j])
    && (forall c :: c in order <==> counts.Get(c) > 0)
    && (forall i, j :: 0 <= i < j < |order| ==> counts.Get(order[i]) >= counts.Get(order[j]))
  }

  function SumOver(counts: Counts, order: seq<ConfusionClass>): nat {
    if order == [] then 0 else counts.Get(order[0]) + SumOver(counts, order[1..])
  }

  /** Sum of the counts of the classes that occur in `classes`. */
  function Present(counts: Counts, classes: seq<ConfusionClass>): nat {
    (if TN in classes then counts.tn else 0) + (if FP in classes then counts.fp else 0)
    + (if FN in classes then counts.fn else 0) + (if TP in classes then counts.tp else 0)
  }

  lemma {:induction false} SumOverDistinct(counts: Counts, order: seq<ConfusionClass>)
    requires forall i, j :: 0 <= i < j < |order| ==> order[i] != order[j]
    ensures SumOver(counts, order) == Present(counts, order)
  {
    if order != [] {
      var rest := order[1..];
      assert forall i, j :: 0 <= i < j < |rest| ==> rest[i] != rest[j] by {
        forall i, j | 0 <= i < j < |rest| ensures rest[i] != rest[j] {
          assert rest[i] == order[i + 1] && rest[j] == order[j + 1];
        }
      }
      SumOverDistinct(counts, rest);
      assert order[0] !in rest by {
        forall k | 0 <= k < |rest| ensures rest[k] != order[0] {
          assert rest[k] == order[k + 1];
        }
      }
      assert forall c :: c in order <==> c == order[0] || c in rest;
    }
  }

  lemma SumOverValueCounts(counts: Counts, order: seq<ConfusionClass>)
    requires ValueCountsOrder(counts, order)
    ensures SumOver(counts, order) == counts.Total()
  {
    SumOverDistinct(counts, order);
    assert counts.Get(TN) > 0 <==> TN in order;
    assert counts.Get(FP) > 0 <==> FP in order;
    assert counts.Get(FN) > 0 <==> FN in order;
    assert counts.Get(TP) > 0 <==> TP in order;
  }

  /** The entries of a title list every sample once: their counts add up
      to the number of samples. */
  lemma TitleCountsAddUp(samples: seq<Sample>, t: real, order: seq<ConfusionClass>)
    requires ValueCountsOrder(CountsAt(samples, t), order)
    ensures SumOver(CountsAt(samples, t), order) == |samples|
  {
    SumOverValueCounts(CountsAt(samples, t), order);
    CountsPartition(samples, t);
  }

  /** Without samples nothing is counted, so the title is empty. */
  lemma EmptyDataEmptyTitle(t: real, order: seq<ConfusionClass>)
    requires ValueCountsOrder(CountsAt([], t), order)
    ensures order == []
    ensures Join(Entries(CountsAt([], t), order), ",  ") == ""
  {
    var counts := CountsAt([], t);
    assert counts == Counts(0, 0, 0, 0);
    SumOverValueCounts(counts, order);
    assert forall i :: 0 <= i < |order| ==> order[i] in order;
    SumOverPositive(counts, order);
  }

  lemma SumOverPositive(counts: Counts, order: seq<ConfusionClass>)
    requires forall i :: 0 <= i < |order| ==> counts.Get(order[i]) > 0
    ensures order != [] ==> SumOver(counts, order) > 0
  {
  }

  /** Number of classes that occur; the strip chart draws one trace each. */
  function PresentClasses(counts: Counts): nat {
    (if counts.tn > 0 then 1 else 0) + (if counts.fp > 0 then 1 else 0)
    + (if counts.fn > 0 then 1 else 0) + (if counts.tp > 0 then 1 else 0)
  }

  /** A non-empty data set yields between one and four strip traces per threshold. */
  lemma StripTracesPerThreshold(samples: seq<Sample>, t: real)
    requires samples != []
    ensures 1 <= PresentClasses(CountsAt(samples, t)) <= 4
  {
    CountsPartition(samples, t);
  }

  /** The density plot's title, `"TN: a, FP: b, FN: c, TP: d"`. */
  function DensityTitle(counts: Counts): string {
    Entry(TN, counts.tn) + ", " + Entry(FP, counts.fp) + ", "
    + Entry(FN, counts.fn) + ", " + Entry(TP, counts.tp)
  }

  /** The density title lists all four classes in fixed order, each with
      its count, separated by `", "`. */
  lemma DensityTitleListsAllClasses(counts: Counts)
    ensures DensityTitle(counts) == Join(Entries(counts, Choices), ", ")
  {
    var e := Entries(counts, Choices);
    assert e[1..][1..][1..] == [e[3]];
    assert Join(e[1..][1..], ", ") == e[2] + ", " + e[3];
    assert Join(e[1..], ", ") == e[1] + ", " + (e[2] + ", " + e[3]);
  }
}
