# Air-quality rule simulator: labelling rules and self-evaluation metrics

This project models the decision logic of a small C++ air-quality simulator (`aqi_predictor.cpp`) in Dafny.

The simulator draws random environmental samples. It labels each sample with two fixed rules:
- an AQI level (Good, Moderate, Unhealthy, Hazardous), read off a weighted pollutant score;
- a health-risk level (Low, Medium, High), read off the stored AQI level and an urban/rural flag.

It then "predicts" the test set by applying the same rules again. It reports the overall accuracy, and the per-class precision, recall, F1 and support. Last, it labels one sample typed by the user, or a fixed demo sample.

Modules:
- `Labeling` (`labeling.dfy`): the `Sample` record, the score, the two rules as functions, and their properties. These are range, band boundaries, monotonicity and the exact branch structure of the health-risk rule, including its asymmetric fallback.
- `Metrics` (`metrics.dfy`): the per-class report. The method `ComputeMetricsForLabel` keeps the program's two counting loops. It is proved equal to the specification function `MetricsOf`, which is defined from the outcome counts. Lemmas cover those counts: TP+FN is the support, TP+FP is the number of predictions of the label, and every count is at most n. Further lemmas cover the zero-denominator guards and the perfect score of a sequence compared with itself.
- `Evaluation` (`evaluation.dfy`): the accuracy counters, the label columns of the test set, and the whole evaluation. `Evaluate` proves the program's headline behaviour: on a non-empty labelled test set, both accuracies are 1. Every class also scores all ones, or all zeros when it does not occur.
- `Prediction` (`prediction.dfy`): the demo sample, the choice between extracted input and demo, and the two label-name tables. Every table lookup is proved in bounds.

Arithmetic: pollutant readings, the score and every quotient are exact `real` values. The program computes them in IEEE doubles, so rounding is not modelled. In particular, a score that lands exactly on a band boundary in real arithmetic may fall either side of it in floating point. Counts are unbounded integers.

## Model

| member | source | states |
|---|---|---|
| `Labeling.ComputeAqiLevel` | aqi_predictor.cpp:35-42 | The level is in 0..3. It is 0 iff score < 50, 1 iff 50 ≤ score < 100, 2 iff 100 ≤ score < 200, and 3 iff score ≥ 200. |
| `Labeling.AqiLevelCountsBreakpoints` | aqi_predictor.cpp:37-41 | The level equals the number of band boundaries (50, 100, 200) that the score has reached. |
| `Labeling.AqiLevelMonotone` | aqi_predictor.cpp:37-41 | A sample whose score is no higher never gets a higher AQI level. |
| `Labeling.MorePollutionNeverLowersAqi` | aqi_predictor.cpp:37-41 | Raising PM2.5, PM10, NO2 or O3 never lowers the AQI level. |
| `Labeling.ComputeHealthRisk` | aqi_predictor.cpp:44-54 | For every int level and city type, the risk is in 0..2. |
| `Labeling.HealthRiskLevelOnlyCases` | aqi_predictor.cpp:46-51 | Level 0 gives Low, level 1 gives Medium and level 3 gives High, whatever the city type. |
| `Labeling.HealthRiskUnhealthy` | aqi_predictor.cpp:48-52 | Level 2 gives High when the city type is 1, and Medium (via the fallback) for any other city type. |
| `Labeling.HealthRiskOutOfScale` | aqi_predictor.cpp:49-53 | A level outside 0..3 gives High when the city type is 1, and Medium otherwise. |
| `Labeling.UrbanNeverLowersRisk` | aqi_predictor.cpp:44-54 | Setting the city type to urban never lowers the risk. |
| `Labeling.HealthRiskMonotoneInLevel` | aqi_predictor.cpp:44-54 | Within levels 0..3 and for one city type, a higher level never gives a lower risk. |
| `Labeling.HealthRiskNotMonotoneOutsideScale` | aqi_predictor.cpp:49-53 | Outside 0..3 the fallback breaks monotonicity: level 4 in a rural area gives a lower risk than level 3. |
| `Labeling.Label` | aqi_predictor.cpp:109-110 | Labelling stores the AQI level, then the risk computed from that stored level. The result is consistent with both rules, both labels are on their scales, and no reading changes. |
| `Labeling.LabelIdempotent` | aqi_predictor.cpp:109-110 | Relabelling a labelled sample changes nothing. |
| `Labeling.LabeledRiskMonotoneInScore` | aqi_predictor.cpp:35-54 | For labelled samples of one city type, a higher score never gives a lower health risk. |
| `Metrics.Classify` | aqi_predictor.cpp:68-72 | Each position is exactly one of TP (both equal the label), FP (only the prediction does), FN (only the truth does) or TN. |
| `Metrics.CountOf` | aqi_predictor.cpp:76 | The support count is at most the length, and it is 0 iff no position holds the label. |
| `Metrics.CountOutcome` | aqi_predictor.cpp:67-73 | Each outcome count is at most n. |
| `Metrics.OutcomePrefixStep` | aqi_predictor.cpp:67-73 | One loop step adds exactly that position's TP, FP and FN increments. |
| `Metrics.CountPrefixStep` | aqi_predictor.cpp:76 | One loop step adds one to the support exactly when the position holds the label. |
| `Metrics.OutcomeTotals` | aqi_predictor.cpp:64-76 | TP+FN equals the support. TP+FP equals the number of positions predicted as the label. TP+FP+FN+TN equals n. |
| `Metrics.SelfOutcomes` | aqi_predictor.cpp:67-73 | When the predictions equal the truth, FP = FN = 0 and TP equals the support. |
| `Metrics.Ratio` | aqi_predictor.cpp:77-78 | The guarded quotient is 0 for a zero denominator. For any non-zero denominator it is num/den (r·den = num). It lies in [0,1] when 0 ≤ num ≤ den, and it is 1 iff den ≠ 0 and num = den. |
| `Metrics.F1Score` | aqi_predictor.cpp:79 | F1 is 0 when precision + recall is 0. For non-negative precision and recall, F1 is non-negative and, when their sum is non-zero, lies between them. |
| `Metrics.HarmonicMeanBetween` | aqi_predictor.cpp:79 | The harmonic mean of two non-negative reals with a non-zero sum lies between them. |
| `Metrics.MetricsOf` | aqi_predictor.cpp:64-81 | The support is the count of the label in the truth. Precision is 0 when the label is never predicted. Recall is 0 when it never occurs. F1 is 0 when precision + recall is 0. All three lie in [0,1]. |
| `Metrics.PerfectPrecisionRecall` | aqi_predictor.cpp:77-78 | Precision is 1 iff the label is predicted and there is no FP. Recall is 1 iff the label occurs and there is no FN. |
| `Metrics.SelfMetrics` | aqi_predictor.cpp:64-81 | Compared with itself, a sequence scores precision = recall = F1 = 1 for a label it contains, and all 0 with support 0 for one it does not. |
| `Metrics.ComputeMetricsForLabel` | aqi_predictor.cpp:64-81 | The two counting loops and the guarded quotients compute exactly `MetricsOf` over as many predictions as there are true labels. The support is at most n. |
| `Evaluation.Matches` | aqi_predictor.cpp:142 | The match count is at most the length. |
| `Evaluation.AllMatchIffEqual` | aqi_predictor.cpp:141-147 | Every position matches iff the prediction sequence equals the truth. |
| `Evaluation.MatchesPrefixStep` | aqi_predictor.cpp:142 | One loop step adds one exactly when that position matches. |
| `Evaluation.CountCorrect` | aqi_predictor.cpp:141-146 | The accuracy counter is the number of exact matches. It equals the length iff the predictions equal the truth. |
| `Evaluation.Accuracy` | aqi_predictor.cpp:143-147 | The accuracy is NaN iff the test set is empty. Otherwise it lies in [0,1] and is 1 iff every position matched. |
| `Evaluation.TrueAqi` | aqi_predictor.cpp:126 | The true AQI column holds each test sample's stored level, in order. |
| `Evaluation.PredictedAqi` | aqi_predictor.cpp:130-133 | The predicted AQI column holds the rule re-applied to each test sample, in order. |
| `Evaluation.TrueRisk` | aqi_predictor.cpp:127 | The true risk column holds each test sample's stored risk, in order. |
| `Evaluation.PredictedRisk` | aqi_predictor.cpp:131-134 | The predicted risk column holds the risk rule re-applied to each sample's stored level, in order. |
| `Evaluation.LabeledColumnsAgree` | aqi_predictor.cpp:109-135 | On samples labelled by the rules, each predicted column equals its true column, and all values lie on their scales. |
| `Evaluation.CollectLabels` | aqi_predictor.cpp:123-135 | The four columns built sample by sample are exactly the true and predicted columns of the test set. |
| `Evaluation.ReportLabels` | aqi_predictor.cpp:156-157 | The per-class loop yields, for each label 0..count-1, that label's `MetricsOf`. |
| `Evaluation.Evaluate` | aqi_predictor.cpp:123-170 | The report holds both accuracies, the 4 AQI class reports and the 3 risk class reports. On a non-empty labelled test set, both accuracies are 1, and every class is all ones or, when absent, all zeros. |
| `Prediction.ChooseSample` | aqi_predictor.cpp:189-218 | The line "demo" or a failed extraction gives the demo sample. Otherwise the extracted sample is used. |
| `Prediction.Predict` | aqi_predictor.cpp:220-228 | Both name lookups are in bounds. The AQI name follows the score band. The risk is Low iff score < 50, and High iff score ≥ 200 or (score ≥ 100 and urban). It is Medium otherwise. |
| `Prediction.DemoPrediction` | aqi_predictor.cpp:191-201 | The demo sample scores 92 and prints level 1 (Moderate) and risk 1 (Medium). |
| `Prediction.MalformedInputRunsDemo` | aqi_predictor.cpp:204-217 | Any line whose extraction fails prints the same prediction as the demo sample. |

## Left out

- Random generation (`rnd_double`, `rnd_int`, the 1500-sample loop, aqi_predictor.cpp:24-32, 89-113): this is library randomness. Only the labelling each generated sample receives is modelled (`Labeling.Label`).
- Shuffle and the 80/20 train/test split (aqi_predictor.cpp:116-119): this is library randomness, and the train half is never used. `Evaluation.Evaluate` takes the test set as a parameter, whatever its order or size.
- Console output (`cout`, `setw`, `setprecision`): this is I/O. `Evaluation.Report` and `Prediction.SamplePrediction` hold the values that are printed.
- Reading the input line (including the second `getline` after an empty line) and `istringstream` extraction (aqi_predictor.cpp:185-205): these are I/O and library semantics. The extraction outcome is a parameter of `Prediction.ChooseSample`. The partial assignments of a failed extraction are not modelled, because the demo values overwrite every field.
- IEEE double rounding of the score (aqi_predictor.cpp:37) and of every quotient (aqi_predictor.cpp:77-79, 143, 147): the model uses exact reals. Near a band boundary, the program's level may differ from the model's.
- 32-bit `int` counters and the `size_t` to `int` conversion of `n` (aqi_predictor.cpp:65-66): the model's counts are unbounded integers, which agree with the program for every vector shorter than 2^31.
- Out-of-bounds reads: `compute_metrics_for_label` and the accuracy loops read `y_pred[i]` for every index of `y_true`. The model requires the predictions to be at least as long as the truth, which every caller in the program guarantees.
