/**
 * The single-sample prediction at the end of the run: the choice between the
 * parsed input and the fixed demo sample, and the two label-name tables the
 * result is printed with. Reading the line and extracting the nine numbers
 * are left to the caller: the outcome of the extraction is a parameter.
 */
module Prediction {
  import opened Labeling

  /**
   * The demo sample. Its stored labels are unset in the program until the
   * rules label it; here they are 0, and every use relabels it.
   */
  const DemoSample := Sample(33.0, 65.0, 550.0, 150.0, 180.0, 80.0, 60.0, 3.5, Urban, 0, 0)

  const AqiNames: seq<string> := ["Good", "Moderate", "Unhealthy", "Hazardous"]
  const RiskNames: seq<string> := ["Low", "Medium", "High"]

  /** The outcome of extracting the nine fields from the input line. */
  datatype Extraction = Extracted(sample: Sample) | ExtractionFailed

  /** The sample to predict: the demo sample for the line "demo" or when extraction fails, else the extracted one. */
  function ChooseSample(line: string, extraction: Extraction): (s: Sample)
    ensures line == "demo" || extraction == ExtractionFailed ==> s == DemoSample
    ensures line != "demo" && extraction.Extracted? ==> s == extraction.sample
  {
    if line == "demo" then DemoSample
    else match extraction
      case Extracted(sample) => sample
      case ExtractionFailed => DemoSample
  }

  /** What is printed for the sample: both levels and their names. */
  datatype SamplePrediction = SamplePrediction(aqiLevel: int, aqiName: string, healthRisk: int, riskName: string)

  /**
   * Labels the sample and looks up both names. Every lookup is in bounds, and
   * the names read directly off the score and the city type: the risk is High
   * exactly for a Hazardous score, or an Unhealthy one in an urban area.
   */
  function Predict(s: Sample): (p: SamplePrediction)
    ensures 0 <= p.aqiLevel < |AqiNames| && p.aqiName == AqiNames[p.aqiLevel]
    ensures 0 <= p.healthRisk < |RiskNames| && p.riskName == RiskNames[p.healthRisk]
    ensures p.aqiName == "Good" <==> Score(s) < 50.0
    ensures p.aqiName == "Moderate" <==> 50.0 <= Score(s) < 100.0
    ensures p.aqiName == "Unhealthy" <==> 100.0 <= Score(s) < 200.0
    ensures p.aqiName == "Hazardous" <==> 200.0 <= Score(s)
    ensures p.riskName == "Low" <==> Score(s) < 50.0
    ensures p.riskName == "Medium" <==>
      50.0 <= Score(s) < 100.0 || (100.0 <= Score(s) < 200.0 && s.cityType != Urban)
    ensures p.riskName == "High" <==> 200.0 <= Score(s) || (100.0 <= Score(s) && s.cityType == Urban)
  {
    var labeled := Label(s);
    SamplePrediction(labeled.aqiLevel, AqiNames[labeled.aqiLevel], labeled.healthRisk, RiskNames[labeled.healthRisk])
  }

  /** The demo sample scores 92: Moderate, hence Medium risk even though it is urban. */
  lemma DemoPrediction(extraction: Extraction)
    ensures Score(DemoSample) == 92.0
    ensures Predict(ChooseSample("demo", extraction)) == SamplePrediction(Moderate, "Moderate", Medium, "Medium")
  {
  }

  /** Whatever the line, a failed extraction prints the demo result. */
  lemma MalformedInputRunsDemo(line: string)
    ensures Predict(ChooseSample(line, ExtractionFailed)) == Predict(DemoSample)
  {
  }
}
