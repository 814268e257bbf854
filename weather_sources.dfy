/**
 * The per-source records the comparison components receive (the `WeatherService`
 * interface of src/components/ComparisonView.tsx and src/components/HourlyComparisonGrid.tsx),
 * reduced to the fields their decision rules read, and the `getServiceInfo` lookup that
 * both components define identically apart from CSS class names.
 */
module WeatherSources {
  import opened Wrappers
  import opened Helpers

  /** A `precipitation` object: its `probability` (percent) and `amount`. */
  datatype Precipitation = Precipitation(probability: Option<real>, amount: Option<real>)

  /**
   * A `current` record or a `daily[]` entry: its numeric properties by name (a property that is
   * missing or not a number is absent), its `precipitation`, and the fields a daily entry adds.
   */
  datatype Reading = Reading(
    numbers: map<string, real>,
    precipitation: Option<Precipitation>,
    high: Option<real>,               // temperature.high
    icon: Option<string>,
    longDescription: Option<string>,
    description: Option<string>)

  /** An hour of the day, as Date.getHours returns it. */
  type Hour = h: int | 0 <= h < 24

  /** A timestamp, reduced to the local calendar day (a day number) and the hour of the day. */
  datatype Stamp = Stamp(day: int, hour: Hour)

  /** An `hourly[]` entry; None for a missing or falsy `timestamp`. */
  datatype HourEntry = HourEntry(timestamp: Option<Stamp>, precipitation: Option<Precipitation>)

  datatype LocationInfo = LocationInfo(city: Option<string>, state: Option<string>, zipCode: Option<string>, country: Option<string>)

  /** One source's data; an absent array is None, a null element of an array is None. */
  datatype WeatherService = WeatherService(
    source: string,
    location: Option<LocationInfo>,
    current: Option<Reading>,
    daily: Option<seq<Option<Reading>>>,
    hourly: Option<seq<Option<HourEntry>>>,
    isError: bool,
    rateLimited: bool,
    errorMessage: Option<string>,
    temperatureUnit: Option<string>)

  /** `data.daily[0]`, when the source has a daily array whose first element is not null. */
  function FirstDaily(s: WeatherService): Option<Reading>
  {
    match s.daily
    case None => None
    case Some(days) => if days == [] then None else days[0]
  }

  // ---------------------------------------------------------------------------
  // getServiceInfo

  /** The display name and the indicator letter of a source (its CSS class is not modelled). */
  datatype ServiceInfo = ServiceInfo(displayName: string, letter: string)

  const ServiceMap: map<string, ServiceInfo> := map[
    "AzureMaps" := ServiceInfo("Azure Maps (AccuWeather)", "A"),
    "OpenMeteo" := ServiceInfo("Open Meteo", "O"),
    "Foreca" := ServiceInfo("Foreca", "F"),
    "GoogleWeather" := ServiceInfo("Google Weather", "G")
  ]

  /** `sourceName.charAt(0).toUpperCase()` */
  function FirstLetterUpper(sourceName: string): string
  {
    if sourceName == "" then "" else [ToUpper(sourceName[0])]
  }

  /** getServiceInfo: the four known sources have fixed entries, any other name stands for itself. */
  function GetServiceInfo(sourceName: string): (info: ServiceInfo)
    ensures sourceName == "AzureMaps" ==> info == ServiceInfo("Azure Maps (AccuWeather)", "A")
    ensures sourceName == "OpenMeteo" ==> info == ServiceInfo("Open Meteo", "O")
    ensures sourceName == "Foreca" ==> info == ServiceInfo("Foreca", "F")
    ensures sourceName == "GoogleWeather" ==> info == ServiceInfo("Google Weather", "G")
    ensures sourceName !in ServiceMap ==> info.displayName == sourceName
  {
    if sourceName in ServiceMap then ServiceMap[sourceName] else ServiceInfo(sourceName, FirstLetterUpper(sourceName))
  }

  /** For every source, known or not, the letter is its name's first character in upper case. */
  lemma ServiceLetterIsInitial(sourceName: string)
    ensures GetServiceInfo(sourceName).letter == FirstLetterUpper(sourceName)
    ensures sourceName != "" ==> |GetServiceInfo(sourceName).letter| == 1
  {
  }

  /** The four known sources are told apart by their letters. */
  lemma KnownLettersDistinct(a: string, b: string)
    requires a in ServiceMap && b in ServiceMap && a != b
    ensures GetServiceInfo(a).letter != GetServiceInfo(b).letter
  {
  }
}
