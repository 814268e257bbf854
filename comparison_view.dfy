/**
 * The decision rules of the comparison view (src/components/ComparisonView.tsx):
 * whether the sources agree on a property or on the chance of rain, whether any
 * source predicts rain, the precipitation category and intensity buckets, and which
 * source's location the view shows.  `tab` is the active tab ('current' or 'daily').
 */
module ComparisonView {
  import opened Wrappers
  import opened WeatherSources

  // ---------------------------------------------------------------------------
  // Values the sources report

  /** What is compared: a numeric property by name, or the precipitation probability. */
  datatype Measure = Property(name: string) | RainChance

  /**
   * The value one source contributes, None for null.  A property is read from `current` on the
   * 'current' tab and from `daily[0]` otherwise; it must be a number.  The rain chance needs a
   * `precipitation` object on the 'current' and 'daily' tabs and is `probability || 0`; on any
   * other tab the optional chain `data.daily?.[0]?.precipitation?.probability || 0` is read, which
   * gives 0 when anything along it is missing.
   */
  function Reported(s: WeatherService, tab: string, m: Measure): Option<real>
  {
    var reading := if tab == "current" then s.current else FirstDaily(s);
    match m
    case Property(name) =>
      if reading.Some? && name in reading.value.numbers then Some(reading.value.numbers[name]) else None
    case RainChance =>
      if reading.Some? && reading.value.precipitation.Some? then
        Some(reading.value.precipitation.value.probability.GetOr(0.0))
      else if tab == "current" || tab == "daily" then None
      else Some(0.0)
  }

  /** The non-null values, in source order (`.map(...).filter(val => val !== null)`). */
  function ReportedValues(data: seq<WeatherService>, tab: string, m: Measure): (values: seq<real>)
    ensures |values| <= |data|
  {
    if data == [] then []
    else
      var rest := ReportedValues(data[1..], tab, m);
      match Reported(data[0], tab, m)
      case Some(v) => [v] + rest
      case None => rest
  }

  /** The non-null values are exactly those some source reports. */
  lemma {:induction false} ReportedValuesMembers(data: seq<WeatherService>, tab: string, m: Measure)
    ensures forall v :: v in ReportedValues(data, tab, m) <==> exists i :: 0 <= i < |data| && Reported(data[i], tab, m) == Some(v)
  {
    if data != [] {
      ReportedValuesMembers(data[1..], tab, m);
      assert forall i :: 1 <= i < |data| ==> data[i] == data[1..][i - 1];
    }
  }

  /** The values of two runs of sources are the values of the first run followed by those of the second. */
  lemma {:induction false} ReportedValuesAppend(a: seq<WeatherService>, b: seq<WeatherService>, tab: string, m: Measure)
    ensures ReportedValues(a + b, tab, m) == ReportedValues(a, tab, m) + ReportedValues(b, tab, m)
  {
    if a == [] {
      assert a + b == b;
    } else {
      assert (a + b)[1..] == a[1..] + b;
      ReportedValuesAppend(a[1..], b, tab, m);
    }
  }

  /** One source contributes its value when it has one and nothing otherwise. */
  lemma ReportedValuesOfOne(s: WeatherService, tab: string, m: Measure)
    ensures Reported(s, tab, m).Some? ==> ReportedValues([s], tab, m) == [Reported(s, tab, m).value]
    ensures Reported(s, tab, m).None? ==> ReportedValues([s], tab, m) == []
  {
  }

  function Minimum(values: seq<real>): (low: real)
    requires |values| > 0
    ensures low in values && forall v :: v in values ==> low <= v
  {
    if |values| == 1 then values[0]
    else
      var rest := Minimum(values[1..]);
      assert forall v :: v in values ==> v == values[0] || v in values[1..];
      if values[0] <= rest then values[0] else rest
  }

  function Maximum(values: seq<real>): (high: real)
    requires |values| > 0
    ensures high in values && forall v :: v in values ==> v <= high
  {
    if |values| == 1 then values[0]
    else
      var rest := Maximum(values[1..]);
      assert forall v :: v in values ==> v == values[0] || v in values[1..];
      if values[0] >= rest then values[0] else rest
  }

  // ---------------------------------------------------------------------------
  // determineAgreement and determinePrecipAgreement

  datatype Level = High | Medium | Low

  datatype Agreement = Agreement(agrees: bool, difference: real, agreementLevel: Level)

  /** The answer when fewer than two sources, or fewer than two values, are present. */
  const Unanimous: Agreement := Agreement(true, 0.0, High)

  function Classify(difference: real, threshold: real): Level
  {
    if difference > threshold * 2.0 then Low
    else if difference > threshold then Medium
    else High
  }

  /** The shared body of determineAgreement and determinePrecipAgreement. */
  function AgreementOf(data: seq<WeatherService>, tab: string, m: Measure, threshold: real): (a: Agreement)
    ensures |data| < 2 || |ReportedValues(data, tab, m)| < 2 ==> a == Unanimous
    ensures a.difference >= 0.0
    ensures forall v, w :: v in ReportedValues(data, tab, m) && w in ReportedValues(data, tab, m) ==> v - w <= a.difference
    ensures a != Unanimous ==> exists v, w :: v in ReportedValues(data, tab, m) && w in ReportedValues(data, tab, m) && v - w == a.difference
    ensures |data| >= 2 && |ReportedValues(data, tab, m)| >= 2 ==> (a.agrees <==> a.difference <= threshold)
    ensures |data| >= 2 && |ReportedValues(data, tab, m)| >= 2 ==> a.agreementLevel == Classify(a.difference, threshold)
  {
    if |data| < 2 then Unanimous
    else
      var values := ReportedValues(data, tab, m);
      if |values| < 2 then
        assert forall v, w :: v in values && w in values ==> v == w by {
          if |values| == 1 { assert forall v :: v in values ==> v == values[0]; }
        }
        Unanimous
      else
        var low, high := Minimum(values), Maximum(values);
        var difference := high - low;
        Agreement(difference <= threshold, difference, Classify(difference, threshold))
  }

  /** determineAgreement(property, threshold = 5) */
  function DetermineAgreement(data: seq<WeatherService>, tab: string, property: string, threshold: real := 5.0): Agreement
  {
    AgreementOf(data, tab, Property(property), threshold)
  }

  /** determinePrecipAgreement(threshold = 20) */
  function DeterminePrecipAgreement(data: seq<WeatherService>, tab: string, threshold: real := 20.0): Agreement
  {
    AgreementOf(data, tab, RainChance, threshold)
  }

  /**
   * The level is 'low' above twice the threshold, 'medium' above the threshold, 'high' otherwise,
   * and for a threshold that is not negative the sources agree exactly when the level is 'high'.
   */
  lemma {:induction false} AgreementLevels(data: seq<WeatherService>, tab: string, m: Measure, threshold: real)
    requires threshold >= 0.0
    ensures var a := AgreementOf(data, tab, m, threshold);
      && (a.agreementLevel == Low <==> a.difference > 2.0 * threshold)
      && (a.agreementLevel == Medium <==> threshold < a.difference <= 2.0 * threshold)
      && (a.agreementLevel == High <==> a.difference <= threshold)
      && (a.agrees <==> a.agreementLevel == High)
  {
  }

  /** With fewer than two sources there is nothing to compare. */
  lemma FewSourcesAgree(data: seq<WeatherService>, tab: string, property: string, threshold: real)
    requires |data| < 2
    ensures DetermineAgreement(data, tab, property, threshold) == Unanimous
    ensures DeterminePrecipAgreement(data, tab, threshold) == Unanimous
  {
  }

  // ---------------------------------------------------------------------------
  // hasRainPrediction

  /** Percent chance at or above which a source counts as predicting rain. */
  const RainThreshold: real := 35.0

  /** hasRainPrediction: `validData.some(...)`, false on empty data. */
  function HasRainPrediction(data: seq<WeatherService>, tab: string): (r: bool)
    ensures data == [] ==> !r
    ensures r <==> exists i :: 0 <= i < |data| && Reported(data[i], tab, RainChance).Some?
                                && Reported(data[i], tab, RainChance).value >= RainThreshold
  {
    if data == [] then false
    else
      var here := Reported(data[0], tab, RainChance);
      var rest := HasRainPrediction(data[1..], tab);
      assert forall i :: 1 <= i < |data| ==> data[i] == data[1..][i - 1];
      (here.Some? && here.value >= RainThreshold) || rest
  }

  /** A source without a precipitation probability counts as 0%, so on its own it never predicts rain. */
  lemma {:induction false} MissingProbabilityIsDry(s: WeatherService, tab: string)
    requires s.current.Some? && s.current.value.precipitation.Some?
    requires s.current.value.precipitation.value.probability.None?
    ensures !HasRainPrediction([s], "current")
  {
  }

  // ---------------------------------------------------------------------------
  // getPrecipCategory and getPrecipIntensity

  datatype Category = VeryLow | LowChance | MediumChance | HighChance | VeryHigh

  function CategoryRank(c: Category): nat
  {
    match c
    case VeryLow => 0
    case LowChance => 1
    case MediumChance => 2
    case HighChance => 3
    case VeryHigh => 4
  }

  function GetPrecipCategory(probability: real): Category
  {
    if probability < 15.0 then VeryLow
    else if probability < 35.0 then LowChance
    else if probability < 65.0 then MediumChance
    else if probability < 85.0 then HighChance
    else VeryHigh
  }

  /** Each category is a half-open band: its lower cut point belongs to it. */
  lemma PrecipCategoryBands(p: real)
    ensures GetPrecipCategory(p) == VeryLow <==> p < 15.0
    ensures GetPrecipCategory(p) == LowChance <==> 15.0 <= p < 35.0
    ensures GetPrecipCategory(p) == MediumChance <==> 35.0 <= p < 65.0
    ensures GetPrecipCategory(p) == HighChance <==> 65.0 <= p < 85.0
    ensures GetPrecipCategory(p) == VeryHigh <==> 85.0 <= p
  {
  }

  /** A higher chance never gets a lower category. */
  lemma PrecipCategoryMonotone(p: real, q: real)
    requires p <= q
    ensures CategoryRank(GetPrecipCategory(p)) <= CategoryRank(GetPrecipCategory(q))
  {
  }

  /** The 'medium' category starts exactly where a source counts as predicting rain. */
  lemma RainStartsAtMediumCategory(p: real)
    ensures p >= RainThreshold <==> CategoryRank(GetPrecipCategory(p)) >= CategoryRank(MediumChance)
  {
  }

  datatype Intensity = NoPrecipitation | Light | Moderate | Heavy | Extreme

  function IntensityRank(i: Intensity): nat
  {
    match i
    case NoPrecipitation => 0
    case Light => 1
    case Moderate => 2
    case Heavy => 3
    case Extreme => 4
  }

  function GetPrecipIntensity(amount: real): Intensity
  {
    if amount == 0.0 then NoPrecipitation
    else if amount < 0.1 then Light
    else if amount < 0.3 then Moderate
    else if amount < 0.5 then Heavy
    else Extreme
  }

  /** 'none' is exactly 0; a negative amount falls in 'light'; the cut points are 0.1, 0.3 and 0.5. */
  lemma PrecipIntensityBands(a: real)
    ensures GetPrecipIntensity(a) == NoPrecipitation <==> a == 0.0
    ensures GetPrecipIntensity(a) == Light <==> a < 0.1 && a != 0.0
    ensures GetPrecipIntensity(a) == Moderate <==> 0.1 <= a < 0.3
    ensures GetPrecipIntensity(a) == Heavy <==> 0.3 <= a < 0.5
    ensures GetPrecipIntensity(a) == Extreme <==> 0.5 <= a
  {
  }

  /** On amounts that are not negative, a larger amount never gets a lower intensity. */
  lemma PrecipIntensityMonotone(a: real, b: real)
    requires 0.0 <= a <= b
    ensures IntensityRank(GetPrecipIntensity(a)) <= IntensityRank(GetPrecipIntensity(b))
  {
  }

  // ---------------------------------------------------------------------------
  // The location shown above the grid

  /** Index of the first source that is not an error, if any. */
  function FirstNonError(data: seq<WeatherService>): (r: Option<nat>)
    ensures r.Some? ==> r.value < |data| && !data[r.value].isError && forall j :: 0 <= j < r.value ==> data[j].isError
    ensures r.None? ==> forall j :: 0 <= j < |data| ==> data[j].isError
  {
    if data == [] then None
    else if !data[0].isError then Some(0)
    else match FirstNonError(data[1..])
      case None => None
      case Some(k) => Some(k + 1)
  }

  /** The location of the first source without an error, else of the first source, else none. */
  function SelectLocation(data: seq<WeatherService>): (r: Option<LocationInfo>)
    ensures data == [] ==> r.None?
    ensures (exists j :: 0 <= j < |data| && !data[j].isError) ==>
      exists j :: 0 <= j < |data| && !data[j].isError && r == data[j].location && forall k :: 0 <= k < j ==> data[k].isError
    ensures (forall j :: 0 <= j < |data| ==> data[j].isError) && data != [] ==> r == data[0].location
  {
    match FirstNonError(data)
    case Some(j) => data[j].location
    case None => if data == [] then None else data[0].location
  }
}
