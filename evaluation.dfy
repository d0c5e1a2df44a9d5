/**
 * The evaluation stage of the simulator: the label columns of the test set,
 * the overall accuracy counters and the two per-class reports. The
 * "predictor" re-applies the labelling rules to samples that those same rules
 * labelled, so the evaluation scores the rules against themselves.
 */
module Evaluation {
  import opened Labeling
  import opened Metrics

  /** A floating-point quotient: a number, or NaN for 0/0. */
  datatype Quotient = Number(value: real) | NotANumber

  /** The number of positions where the prediction equals the truth. */
  function Matches(yTrue: seq<int>, yPred: seq<int>): (c: nat)
    requires |yTrue| == |yPred|
    ensures c <= |yTrue|
  {
    if |yTrue| == 0 then 0
    else
      var n := |yTrue| - 1;
      Matches(yTrue[..n], yPred[..n]) + (if yTrue[n] == yPred[n] then 1 else 0)
  }

  /** Every position matches exactly when the two sequences are equal. */
  lemma {:induction false} AllMatchIffEqual(yTrue: seq<int>, yPred: seq<int>)
    requires |yTrue| == |yPred|
    ensures Matches(yTrue, yPred) == |yTrue| <==> yTrue == yPred
  {
    if |yTrue| > 0 {
      var n := |yTrue| - 1;
      AllMatchIffEqual(yTrue[..n], yPred[..n]);
      if Matches(yTrue, yPred) == |yTrue| {
        assert yTrue == yTrue[..n] + [yTrue[n]] && yPred == yPred[..n] + [yPred[n]];
      }
    }
  }

  /** Extending both prefixes by one position adds one when that position matches. */
  lemma MatchesPrefixStep(yTrue: seq<int>, yPred: seq<int>, i: nat)
    requires i < |yTrue| <= |yPred|
    ensures Matches(yTrue[..i + 1], yPred[..i + 1])
            == Matches(yTrue[..i], yPred[..i]) + (if yTrue[i] == yPred[i] then 1 else 0)
  {
    assert yTrue[..i + 1][..i] == yTrue[..i] && yPred[..i + 1][..i] == yPred[..i];
  }

  /**
   * The accuracy counter: the number of exact matches over the positions of
   * the truth. The predictions must be at least as long as the truth.
   */
  method CountCorrect(yTrue: seq<int>, yPred: seq<int>) returns (correct: nat)
    requires |yTrue| <= |yPred|
    ensures correct == Matches(yTrue, yPred[..|yTrue|])
    ensures correct == |yTrue| <==> yTrue == yPred[..|yTrue|]
  {
    correct := 0;
    for i := 0 to |yTrue|
      invariant correct == Matches(yTrue[..i], yPred[..i])
    {
      MatchesPrefixStep(yTrue, yPred, i);
      if yTrue[i] == yPred[i] { correct := correct + 1; }
    }
    assert yTrue[..|yTrue|] == yTrue;
    AllMatchIffEqual(yTrue, yPred[..|yTrue|]);
  }

  /** The accuracy: matches divided by the length, NaN on an empty test set. */
  function Accuracy(correct: nat, total: nat): (acc: Quotient)
    requires correct <= total
    ensures acc == NotANumber <==> total == 0
    ensures acc.Number? ==> 0.0 <= acc.value <= 1.0
    ensures acc.Number? ==> (acc.value == 1.0 <==> correct == total)
  {
    if total == 0 then NotANumber else Number(Ratio(correct, total))
  }

  /**
   * The true AQI column: the levels stored in the samples. The ensures
   * spells out the comprehension pointwise for readers.
   */
  function TrueAqi(test: seq<Sample>): (y: seq<int>)
    ensures |y| == |test| && forall i :: 0 <= i < |test| ==> y[i] == test[i].aqiLevel
  {
    seq(|test|, i requires 0 <= i < |test| => test[i].aqiLevel)
  }

  /**
   * The predicted AQI column: the rule re-applied to each sample. The ensures
   * spells out the comprehension pointwise for readers.
   */
  function PredictedAqi(test: seq<Sample>): (y: seq<int>)
    ensures |y| == |test| && forall i :: 0 <= i < |test| ==> y[i] == ComputeAqiLevel(test[i])
  {
    seq(|test|, i requires 0 <= i < |test| => ComputeAqiLevel(test[i]))
  }

  /**
   * The true health-risk column: the risks stored in the samples. The ensures
   * spells out the comprehension pointwise for readers.
   */
  function TrueRisk(test: seq<Sample>): (y: seq<int>)
    ensures |y| == |test| && forall i :: 0 <= i < |test| ==> y[i] == test[i].healthRisk
  {
    seq(|test|, i requires 0 <= i < |test| => test[i].healthRisk)
  }

  /**
   * The predicted health-risk column: the rule re-applied to each sample's
   * stored AQI level. The ensures spells out the comprehension pointwise for
   * readers.
   */
  function PredictedRisk(test: seq<Sample>): (y: seq<int>)
    ensures |y| == |test| && forall i :: 0 <= i < |test| ==> y[i] == ComputeHealthRisk(test[i])
  {
    seq(|test|, i requires 0 <= i < |test| => ComputeHealthRisk(test[i]))
  }

  /** On a labelled test set the predicted columns are the true columns, and all lie on their scales. */
  lemma LabeledColumnsAgree(test: seq<Sample>)
    requires forall s :: s in test ==> IsLabeled(s)
    ensures PredictedAqi(test) == TrueAqi(test)
    ensures PredictedRisk(test) == TrueRisk(test)
    ensures forall i :: 0 <= i < |test| ==> Good <= TrueAqi(test)[i] <= Hazardous
    ensures forall i :: 0 <= i < |test| ==> Low <= TrueRisk(test)[i] <= High
  {
    forall i | 0 <= i < |test|
      ensures PredictedAqi(test)[i] == TrueAqi(test)[i] && PredictedRisk(test)[i] == TrueRisk(test)[i]
    {
      assert test[i] in test;
    }
  }

  /**
   * Builds the four label columns of the test set, one sample at a time: the
   * stored labels as truth, the re-applied rules as prediction.
   */
  method CollectLabels(test: seq<Sample>) returns (yTrueAqi: seq<int>, yPredAqi: seq<int>, yTrueRisk: seq<int>, yPredRisk: seq<int>)
    ensures yTrueAqi == TrueAqi(test) && yPredAqi == PredictedAqi(test)
    ensures yTrueRisk == TrueRisk(test) && yPredRisk == PredictedRisk(test)
  {
    yTrueAqi, yPredAqi, yTrueRisk, yPredRisk := [], [], [], [];
    for i := 0 to |test|
      invariant yTrueAqi == TrueAqi(test[..i]) && yPredAqi == PredictedAqi(test[..i])
      invariant yTrueRisk == TrueRisk(test[..i]) && yPredRisk == PredictedRisk(test[..i])
    {
      var s := test[i];
      assert test[..i + 1] == test[..i] + [s];
      yTrueAqi := yTrueAqi + [s.aqiLevel];
      yTrueRisk := yTrueRisk + [s.healthRisk];
      yPredAqi := yPredAqi + [ComputeAqiLevel(s)];
      yPredRisk := yPredRisk + [ComputeHealthRisk(s)];
    }
    assert test[..|test|] == test;
  }

  /** The evaluation report: the two accuracies and the per-class reports, AQI labels 0..3 and risk labels 0..2. */
  datatype Report = Report(aqiAccuracy: Quotient, riskAccuracy: Quotient,
                           aqiReport: seq<ClassMetrics>, riskReport: seq<ClassMetrics>)

  /** A per-class report is perfect: all ones for a label that occurs, all zeros for one that does not. */
  predicate PerfectOrAbsent(m: ClassMetrics) {
    (m.support > 0 && m.precision == 1.0 && m.recall == 1.0 && m.f1 == 1.0)
    || (m.support == 0 && m.precision == 0.0 && m.recall == 0.0 && m.f1 == 0.0)
  }

  /** The per-class reports of labels 0 .. count-1. */
  method ReportLabels(yTrue: seq<int>, yPred: seq<int>, count: nat) returns (reports: seq<ClassMetrics>)
    requires |yTrue| == |yPred|
    ensures |reports| == count
    ensures forall lbl :: 0 <= lbl < count ==> reports[lbl] == MetricsOf(yTrue, yPred, lbl)
  {
    reports := [];
    for lbl := 0 to count
      invariant |reports| == lbl
      invariant forall k :: 0 <= k < lbl ==> reports[k] == MetricsOf(yTrue, yPred, k)
    {
      var m := ComputeMetricsForLabel(yTrue, yPred, lbl);
      assert yPred[..|yTrue|] == yPred;
      reports := reports + [m];
    }
  }

  /**
   * The evaluation of the test set: both accuracies and both per-class
   * reports. On a non-empty labelled test set, self-evaluation scores
   * perfectly: both accuracies are 1, and every class is all ones or,
   * when it does not occur, all zeros.
   */
  method Evaluate(test: seq<Sample>) returns (report: Report)
    ensures |report.aqiReport| == 4 && |report.riskReport| == 3
    ensures forall lbl :: 0 <= lbl < 4 ==> report.aqiReport[lbl] == MetricsOf(TrueAqi(test), PredictedAqi(test), lbl)
    ensures forall lbl :: 0 <= lbl < 3 ==> report.riskReport[lbl] == MetricsOf(TrueRisk(test), PredictedRisk(test), lbl)
    ensures report.aqiAccuracy == Accuracy(Matches(TrueAqi(test), PredictedAqi(test)), |test|)
    ensures report.riskAccuracy == Accuracy(Matches(TrueRisk(test), PredictedRisk(test)), |test|)
    ensures (forall s :: s in test ==> IsLabeled(s)) && |test| > 0 ==>
      report.aqiAccuracy == Number(1.0) && report.riskAccuracy == Number(1.0)
      && (forall k :: 0 <= k < 4 ==> PerfectOrAbsent(report.aqiReport[k]))
      && (forall k :: 0 <= k < 3 ==> PerfectOrAbsent(report.riskReport[k]))
  {
    var yTrueAqi, yPredAqi, yTrueRisk, yPredRisk := CollectLabels(test);
    assert yPredAqi[..|yTrueAqi|] == yPredAqi && yPredRisk[..|yTrueRisk|] == yPredRisk;
    var correctAqi := CountCorrect(yTrueAqi, yPredAqi);
    var correctRisk := CountCorrect(yTrueRisk, yPredRisk);
    var aqiReport := ReportLabels(yTrueAqi, yPredAqi, 4);
    var riskReport := ReportLabels(yTrueRisk, yPredRisk, 3);
    report := Report(Accuracy(correctAqi, |test|), Accuracy(correctRisk, |test|), aqiReport, riskReport);
    if (forall s :: s in test ==> IsLabeled(s)) && |test| > 0 {
      LabeledColumnsAgree(test);
      forall k | 0 <= k < 4 ensures PerfectOrAbsent(aqiReport[k]) {
        SelfMetrics(yTrueAqi, k);
      }
      forall k | 0 <= k < 3 ensures PerfectOrAbsent(riskReport[k]) {
        SelfMetrics(yTrueRisk, k);
      }
    }
  }
}
