/**
 * The two deterministic labelling rules of the air-quality simulator: the
 * AQI level derived from a weighted pollutant score, and the health-risk
 * level derived from the stored AQI level and the city-type flag.
 *
 * Pollutant readings are `real`: the weights 0.3, 0.2, 0.1 and 0.05 are exact
 * here, whereas the program multiplies and adds IEEE doubles.
 */
module Labeling {

  /** One record of the dataset: eight readings, the city-type flag and the two labels. */
  datatype Sample = Sample(
    temperature: real,
    humidity: real,
    co2: real,
    pm25: real,
    pm10: real,
    no2: real,
    o3: real,
    windSpeed: real,
    cityType: int,    // 1 is urban; every other value is treated as rural
    aqiLevel: int,    // 0 Good, 1 Moderate, 2 Unhealthy, 3 Hazardous
    healthRisk: int)  // 0 Low, 1 Medium, 2 High

  // AQI levels
  const Good := 0
  const Moderate := 1
  const Unhealthy := 2
  const Hazardous := 3

  // Health-risk levels
  const Low := 0
  const Medium := 1
  const High := 2

  const Urban := 1

  /** The weighted pollutant score the AQI level is read from. */
  function Score(s: Sample): real {
    0.3 * s.pm25 + 0.2 * s.pm10 + 0.1 * s.no2 + 0.05 * s.o3
  }

  /**
   * The AQI level: the score is cut into four bands at 50, 100 and 200, each
   * band closed below and open above.
   */
  function ComputeAqiLevel(s: Sample): (level: int)
    ensures Good <= level <= Hazardous
    ensures level == Good <==> Score(s) < 50.0
    ensures level == Moderate <==> 50.0 <= Score(s) < 100.0
    ensures level == Unhealthy <==> 100.0 <= Score(s) < 200.0
    ensures level == Hazardous <==> 200.0 <= Score(s)
  {
    var score := Score(s);
    if score < 50.0 then Good
    else if score < 100.0 then Moderate
    else if score < 200.0 then Unhealthy
    else Hazardous
  }

  /** The band boundaries of the AQI scale, in increasing order. */
  const Breakpoints: seq<real> := [50.0, 100.0, 200.0]

  /** How many band boundaries a score has reached: an independent reading of the AQI scale. */
  function BreakpointsReached(score: real): (k: nat)
    ensures k <= |Breakpoints|
  {
    (if Breakpoints[0] <= score then 1 else 0)
      + (if Breakpoints[1] <= score then 1 else 0)
      + (if Breakpoints[2] <= score then 1 else 0)
  }

  /** The AQI level is the number of boundaries the score has reached. */
  lemma AqiLevelCountsBreakpoints(s: Sample)
    ensures ComputeAqiLevel(s) == BreakpointsReached(Score(s))
  {
  }

  /** A sample whose score is no higher never gets a higher AQI level. */
  lemma AqiLevelMonotone(a: Sample, b: Sample)
    requires Score(a) <= Score(b)
    ensures ComputeAqiLevel(a) <= ComputeAqiLevel(b)
  {
  }

  /** Raising any pollutant reading never lowers the AQI level; the other readings do not matter. */
  lemma MorePollutionNeverLowersAqi(a: Sample, b: Sample)
    requires a.pm25 <= b.pm25 && a.pm10 <= b.pm10 && a.no2 <= b.no2 && a.o3 <= b.o3
    ensures ComputeAqiLevel(a) <= ComputeAqiLevel(b)
  {
    AqiLevelMonotone(a, b);
  }

  /**
   * The health-risk level, read from the STORED AQI level. The branch
   * structure is kept as written: Unhealthy-and-urban is High, Hazardous is
   * High in every city, and every other case (Unhealthy-and-rural, and any
   * level outside 0..3) falls through to "High if urban, else Medium".
   */
  function ComputeHealthRisk(s: Sample): (risk: int)
    ensures Low <= risk <= High
  {
    var aqi := s.aqiLevel;
    if aqi == Good then Low
    else if aqi == Moderate then Medium
    else if aqi == Unhealthy && s.cityType == Urban then High
    else if aqi == Hazardous then High
    else if s.cityType == Urban then High
    else Medium
  }

  /** Good, Moderate and Hazardous fix the risk whatever the city type. */
  lemma HealthRiskLevelOnlyCases(s: Sample)
    ensures s.aqiLevel == Good ==> ComputeHealthRisk(s) == Low
    ensures s.aqiLevel == Moderate ==> ComputeHealthRisk(s) == Medium
    ensures s.aqiLevel == Hazardous ==> ComputeHealthRisk(s) == High
  {
  }

  /** Unhealthy is High in an urban area and Medium everywhere else. */
  lemma HealthRiskUnhealthy(s: Sample)
    requires s.aqiLevel == Unhealthy
    ensures ComputeHealthRisk(s) == (if s.cityType == Urban then High else Medium)
  {
  }

  /** A level outside the AQI scale takes the fallback: High if urban, Medium otherwise. */
  lemma HealthRiskOutOfScale(s: Sample)
    requires s.aqiLevel < Good || Hazardous < s.aqiLevel
    ensures ComputeHealthRisk(s) == (if s.cityType == Urban then High else Medium)
  {
  }

  /** Making a sample urban never lowers its health risk. */
  lemma UrbanNeverLowersRisk(s: Sample)
    ensures ComputeHealthRisk(s) <= ComputeHealthRisk(s.(cityType := Urban))
  {
  }

  /** Within the AQI scale, and for one city type, a higher AQI level never lowers the risk. */
  lemma HealthRiskMonotoneInLevel(a: Sample, b: Sample)
    requires a.cityType == b.cityType
    requires Good <= a.aqiLevel <= b.aqiLevel <= Hazardous
    ensures ComputeHealthRisk(a) <= ComputeHealthRisk(b)
  {
  }

  /** The fallback makes the risk non-monotone outside the scale: level 4 in a rural area is below level 3. */
  lemma HealthRiskNotMonotoneOutsideScale()
    ensures var rural := Sample(0.0, 0.0, 0.0, 0.0, 0.0, 0.0, 0.0, 0.0, 0, Hazardous, 0);
      ComputeHealthRisk(rural.(aqiLevel := 4)) < ComputeHealthRisk(rural)
  {
  }

  /** A sample whose stored labels are the ones the rules give it. */
  predicate IsLabeled(s: Sample) {
    s.aqiLevel == ComputeAqiLevel(s) && s.healthRisk == ComputeHealthRisk(s)
  }

  /**
   * Labels a sample as the program does right after creating it: first the
   * AQI level, then the health risk from that freshly stored level.
   */
  function Label(s: Sample): (r: Sample)
    ensures IsLabeled(r)
    ensures Good <= r.aqiLevel <= Hazardous && Low <= r.healthRisk <= High
    ensures r.(aqiLevel := s.aqiLevel, healthRisk := s.healthRisk) == s
  {
    var withAqi := s.(aqiLevel := ComputeAqiLevel(s));
    withAqi.(healthRisk := ComputeHealthRisk(withAqi))
  }

  /** Labelling only reads the readings and the city type: relabelling changes nothing. */
  lemma LabelIdempotent(s: Sample)
    ensures Label(Label(s)) == Label(s)
  {
  }

  /** For labelled samples of one city type, a higher score never lowers the health risk. */
  lemma LabeledRiskMonotoneInScore(a: Sample, b: Sample)
    requires IsLabeled(a) && IsLabeled(b)
    requires a.cityType == b.cityType
    requires Score(a) <= Score(b)
    ensures a.healthRisk <= b.healthRisk
  {
    AqiLevelMonotone(a, b);
    HealthRiskMonotoneInLevel(a, b);
  }
}
