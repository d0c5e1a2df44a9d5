/**
 * Per-class precision, recall, F1 and support of a predicted label sequence
 * against a true one, with the program's guards against zero denominators.
 *
 * Quotients are exact `real` values; the program computes them in IEEE
 * doubles. Counts are unbounded integers.
 */
module Metrics {

  /** The per-class report of one label. */
  datatype ClassMetrics = ClassMetrics(precision: real, recall: real, f1: real, support: int)

  /** How one position of the two sequences stands with respect to the label under report. */
  datatype Outcome = TruePositive | FalsePositive | FalseNegative | TrueNegative

  function Classify(truth: int, predicted: int, lbl: int): (o: Outcome)
    ensures o == TruePositive <==> truth == lbl && predicted == lbl
    ensures o == FalsePositive <==> truth != lbl && predicted == lbl
    ensures o == FalseNegative <==> truth == lbl && predicted != lbl
  {
    if truth == lbl && predicted == lbl then TruePositive
    else if predicted == lbl then FalsePositive
    else if truth == lbl then FalseNegative
    else TrueNegative
  }

  /** The number of positions of `s` that hold `lbl`. */
  function CountOf(s: seq<int>, lbl: int): (c: nat)
    ensures c <= |s|
    ensures c == 0 <==> forall i :: 0 <= i < |s| ==> s[i] != lbl
  {
    if |s| == 0 then 0
    else CountOf(s[..|s| - 1], lbl) + (if s[|s| - 1] == lbl then 1 else 0)
  }

  /** The number of positions whose outcome for `lbl` is `o`. */
  function CountOutcome(yTrue: seq<int>, yPred: seq<int>, lbl: int, o: Outcome): (c: nat)
    requires |yTrue| == |yPred|
    ensures c <= |yTrue|
  {
    if |yTrue| == 0 then 0
    else
      var n := |yTrue| - 1;
      CountOutcome(yTrue[..n], yPred[..n], lbl, o)
        + (if Classify(yTrue[n], yPred[n], lbl) == o then 1 else 0)
  }

  /** Extending both prefixes by one position adds that position's outcome. */
  lemma OutcomePrefixStep(yTrue: seq<int>, yPred: seq<int>, lbl: int, i: nat)
    requires i < |yTrue| <= |yPred|
    ensures CountOutcome(yTrue[..i + 1], yPred[..i + 1], lbl, TruePositive)
            == CountOutcome(yTrue[..i], yPred[..i], lbl, TruePositive) + (if yTrue[i] == lbl && yPred[i] == lbl then 1 else 0)
    ensures CountOutcome(yTrue[..i + 1], yPred[..i + 1], lbl, FalsePositive)
            == CountOutcome(yTrue[..i], yPred[..i], lbl, FalsePositive) + (if yTrue[i] != lbl && yPred[i] == lbl then 1 else 0)
    ensures CountOutcome(yTrue[..i + 1], yPred[..i + 1], lbl, FalseNegative)
            == CountOutcome(yTrue[..i], yPred[..i], lbl, FalseNegative) + (if yTrue[i] == lbl && yPred[i] != lbl then 1 else 0)
  {
    assert yTrue[..i + 1][..i] == yTrue[..i] && yPred[..i + 1][..i] == yPred[..i];
  }

  /** Extending a prefix by one position adds one when that position holds the label. */
  lemma CountPrefixStep(s: seq<int>, lbl: int, i: nat)
    requires i < |s|
    ensures CountOf(s[..i + 1], lbl) == CountOf(s[..i], lbl) + (if s[i] == lbl then 1 else 0)
  {
    assert s[..i + 1][..i] == s[..i];
  }

  /**
   * The three counts the per-class report is built from: true positives and
   * false negatives split the true instances of the label, true positives and
   * false positives split its predicted instances.
   */
  lemma {:induction false} OutcomeTotals(yTrue: seq<int>, yPred: seq<int>, lbl: int)
    requires |yTrue| == |yPred|
    ensures CountOutcome(yTrue, yPred, lbl, TruePositive) + CountOutcome(yTrue, yPred, lbl, FalseNegative)
            == CountOf(yTrue, lbl)
    ensures CountOutcome(yTrue, yPred, lbl, TruePositive) + CountOutcome(yTrue, yPred, lbl, FalsePositive)
            == CountOf(yPred, lbl)
    ensures CountOutcome(yTrue, yPred, lbl, TruePositive) + CountOutcome(yTrue, yPred, lbl, FalsePositive)
            + CountOutcome(yTrue, yPred, lbl, FalseNegative) + CountOutcome(yTrue, yPred, lbl, TrueNegative)
            == |yTrue|
  {
    if |yTrue| > 0 {
      var n := |yTrue| - 1;
      OutcomeTotals(yTrue[..n], yPred[..n], lbl);
    }
  }

  /** When the prediction is the truth, there is no false positive and no false negative. */
  lemma {:induction false} SelfOutcomes(y: seq<int>, lbl: int)
    ensures CountOutcome(y, y, lbl, FalsePositive) == 0
    ensures CountOutcome(y, y, lbl, FalseNegative) == 0
    ensures CountOutcome(y, y, lbl, TruePositive) == CountOf(y, lbl)
  {
    if |y| > 0 {
      SelfOutcomes(y[..|y| - 1], lbl);
    }
  }

  /** A quotient of counts, 0 when the denominator is 0. */
  function Ratio(num: int, den: int): (r: real)
    ensures den == 0 ==> r == 0.0
    ensures 0 <= num <= den ==> 0.0 <= r <= 1.0
    ensures den != 0 ==> r * den as real == num as real
    ensures r == 1.0 <==> den != 0 && num == den
  {
    if den != 0 then
      var q := num as real / den as real;
      assert q * den as real == num as real;
      q
    else 0.0
  }

  /** The harmonic mean of precision and recall, 0 when both are 0. */
  function F1Score(precision: real, recall: real): (f: real)
    ensures precision + recall == 0.0 ==> f == 0.0
    ensures 0.0 <= precision && 0.0 <= recall && precision + recall != 0.0 ==>
      (precision <= f <= recall || recall <= f <= precision)
    ensures 0.0 <= precision && 0.0 <= recall ==> 0.0 <= f
  {
    if precision + recall != 0.0 then
      HarmonicMeanBetween(precision, recall);
      2.0 * precision * recall / (precision + recall)
    else 0.0
  }

  /** The harmonic mean of two non-negative reals lies between them. */
  lemma HarmonicMeanBetween(p: real, r: real)
    requires p + r != 0.0
    ensures 0.0 <= p && 0.0 <= r ==>
      var h := 2.0 * p * r / (p + r); p <= h <= r || r <= h <= p
  {
    if 0.0 <= p && 0.0 <= r {
      var s := p + r;
      var h := 2.0 * p * r / s;
      assert h * s == 2.0 * p * r;
      assert (h - p) * s == p * (r - p);
      assert (h - r) * s == r * (p - r);
      if p <= r {
        assert p * (r - p) >= 0.0 && r * (p - r) <= 0.0;
      } else {
        assert p * (r - p) <= 0.0 && r * (p - r) >= 0.0;
      }
    }
  }

  /** The report of one label, defined from the outcome counts. */
  function MetricsOf(yTrue: seq<int>, yPred: seq<int>, lbl: int): (m: ClassMetrics)
    requires |yTrue| == |yPred|
    ensures m.support == CountOf(yTrue, lbl)
    ensures CountOf(yPred, lbl) == 0 ==> m.precision == 0.0
    ensures CountOf(yTrue, lbl) == 0 ==> m.recall == 0.0
    ensures m.precision + m.recall == 0.0 ==> m.f1 == 0.0
    ensures 0.0 <= m.precision <= 1.0 && 0.0 <= m.recall <= 1.0 && 0.0 <= m.f1 <= 1.0
  {
    var tp := CountOutcome(yTrue, yPred, lbl, TruePositive);
    var fp := CountOutcome(yTrue, yPred, lbl, FalsePositive);
    var fn := CountOutcome(yTrue, yPred, lbl, FalseNegative);
    OutcomeTotals(yTrue, yPred, lbl);
    var precision := Ratio(tp, tp + fp);
    var recall := Ratio(tp, tp + fn);
    ClassMetrics(precision, recall, F1Score(precision, recall), CountOf(yTrue, lbl))
  }

  /** Precision and recall are each 1 exactly when there is no false positive, resp. false negative. */
  lemma PerfectPrecisionRecall(yTrue: seq<int>, yPred: seq<int>, lbl: int)
    requires |yTrue| == |yPred|
    ensures MetricsOf(yTrue, yPred, lbl).precision == 1.0 <==>
      CountOf(yPred, lbl) > 0 && CountOutcome(yTrue, yPred, lbl, FalsePositive) == 0
    ensures MetricsOf(yTrue, yPred, lbl).recall == 1.0 <==>
      CountOf(yTrue, lbl) > 0 && CountOutcome(yTrue, yPred, lbl, FalseNegative) == 0
  {
    OutcomeTotals(yTrue, yPred, lbl);
  }

  /**
   * Scoring a label sequence against itself: every score is 1 for a label that
   * occurs, and every score is 0 for a label that does not.
   */
  lemma SelfMetrics(y: seq<int>, lbl: int)
    ensures MetricsOf(y, y, lbl) ==
      if CountOf(y, lbl) > 0 then ClassMetrics(1.0, 1.0, 1.0, CountOf(y, lbl))
      else ClassMetrics(0.0, 0.0, 0.0, 0)
  {
    SelfOutcomes(y, lbl);
  }

  /**
   * The per-class report as the program computes it: one pass counting true
   * positives, false positives and false negatives over the first |yTrue|
   * positions, a second pass counting the support, then the guarded quotients.
   * The predictions must be at least as long as the truth.
   */
  method ComputeMetricsForLabel(yTrue: seq<int>, yPred: seq<int>, lbl: int) returns (m: ClassMetrics)
    requires |yTrue| <= |yPred|
    ensures m == MetricsOf(yTrue, yPred[..|yTrue|], lbl)
    ensures m.support <= |yTrue|
  {
    var tp, fp, fn := 0, 0, 0;
    var n := |yTrue|;
    for i := 0 to n
      invariant tp == CountOutcome(yTrue[..i], yPred[..i], lbl, TruePositive)
      invariant fp == CountOutcome(yTrue[..i], yPred[..i], lbl, FalsePositive)
      invariant fn == CountOutcome(yTrue[..i], yPred[..i], lbl, FalseNegative)
    {
      OutcomePrefixStep(yTrue, yPred, lbl, i);
      var t := yTrue[i] == lbl;
      var p := yPred[i] == lbl;
      if t && p { tp := tp + 1; }
      if !t && p { fp := fp + 1; }
      if t && !p { fn := fn + 1; }
    }
    var support := 0;
    for i := 0 to n
      invariant support == CountOf(yTrue[..i], lbl)
    {
      CountPrefixStep(yTrue, lbl, i);
      if yTrue[i] == lbl { support := support + 1; }
    }
    assert yTrue[..n] == yTrue && yPred[..n][..n] == yPred[..n];
    var precision := Ratio(tp, tp + fp);
    var recall := Ratio(tp, tp + fn);
    var f1 := F1Score(precision, recall);
    m := ClassMetrics(precision, recall, f1, support);
  }
}
