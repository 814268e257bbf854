/**
 * The multi-day hourly grid (src/components/HourlyComparisonGrid.tsx): how many days are
 * generated, the header statistics of a day, the icon lookup, the per-source rows of one day
 * with their 24 hour slots, the precipitation colour class of a bar segment, the hour labels
 * of the header row and the expansion of the abbreviated month in a day's title.
 *
 * A day is a day number; `today` is a parameter.  Timestamps are (day, hour) pairs.
 */
module HourlyGrid {
  import opened Wrappers
  import opened Helpers
  import opened WeatherSources

  // ---------------------------------------------------------------------------
  // availableDays

  /** Days generated when no source has a longer daily forecast. */
  const MinDays: nat := 7
  /** The cap on the number of generated days. */
  const MaxDays: nat := 10

  /** One generated day: its position and its date (`today` plus `index` days). */
  datatype Day = Day(index: nat, date: int)

  function DailyLength(s: WeatherService): nat
  {
    if s.daily.Some? then |s.daily.value| else 0
  }

  function Max(a: int, b: int): int { if a >= b then a else b }
  function Min(a: int, b: int): int { if a <= b then a else b }

  /** The length of the longest daily array among the sources, 0 when none has one. */
  function LongestDaily(data: seq<WeatherService>): (n: nat)
    ensures forall i :: 0 <= i < |data| ==> DailyLength(data[i]) <= n
    ensures n == 0 || exists i :: 0 <= i < |data| && DailyLength(data[i]) == n
  {
    if data == [] then 0
    else
      var init := data[..|data| - 1];
      assert forall i :: 0 <= i < |init| ==> init[i] == data[i];
      Max(LongestDaily(init), DailyLength(data[|data| - 1]))
  }

  /** `Math.min(Math.max(7, longest daily array), 10)` */
  function DayCount(data: seq<WeatherService>): nat
  {
    Min(Max(MinDays, LongestDaily(data)), MaxDays)
  }

  /** The day count always lies between 7 and 10, and exceeds 7 only when some source has more daily entries. */
  lemma {:induction false} DayCountBounds(data: seq<WeatherService>)
    ensures MinDays <= DayCount(data) <= MaxDays
    ensures DayCount(data) > MinDays ==> exists i :: 0 <= i < |data| && DailyLength(data[i]) >= DayCount(data)
    ensures forall i :: 0 <= i < |data| && DailyLength(data[i]) <= MaxDays ==> DailyLength(data[i]) <= DayCount(data)
  {
  }

  /** The `availableDays` memo: find the longest daily array, clamp, then push one day per index. */
  method AvailableDays(data: seq<WeatherService>, today: int) returns (days: seq<Day>)
    ensures |days| == DayCount(data)
    ensures MinDays <= |days| <= MaxDays
    ensures forall i :: 0 <= i < |days| ==> days[i] == Day(i, today + i)
  {
    var maxDays: int := MinDays;
    var j := 0;
    while j < |data|
      invariant 0 <= j <= |data|
      invariant maxDays == Max(MinDays, LongestDaily(data[..j]))
    {
      assert data[..j + 1][..j] == data[..j];
      if data[j].daily.Some? {
        maxDays := Max(maxDays, |data[j].daily.value|);
      }
      j := j + 1;
    }
    assert data[..|data|] == data;
    maxDays := Min(maxDays, MaxDays);
    DayCountBounds(data);

    days := [];
    var i := 0;
    while i < maxDays
      invariant 0 <= i <= maxDays
      invariant |days| == i
      invariant forall k :: 0 <= k < i ==> days[k] == Day(k, today + k)
    {
      days := days + [Day(i, today + i)];
      i := i + 1;
    }
  }

  // ---------------------------------------------------------------------------
  // getDayStats and renderWeatherIcon

  /** The header of a day: its formatted high temperature ('N/A' when absent), icon key and description. */
  datatype DayStats = DayStats(highTemp: Formatted, weatherIcon: string, longDescription: string)

  const NoDayStats: DayStats := DayStats(NotAvailable, "unknown", "No data available")

  /** The first source named 'AzureMaps', else the first source, else none. */
  function StatsSource(data: seq<WeatherService>): (r: Option<WeatherService>)
    ensures data == [] <==> r.None?
    ensures r.Some? ==> r.value in data
    ensures (exists i :: 0 <= i < |data| && data[i].source == "AzureMaps") ==> r.Some? && r.value.source == "AzureMaps"
    ensures (forall i :: 0 <= i < |data| ==> data[i].source != "AzureMaps") && data != [] ==> r == Some(data[0])
    ensures r.Some? && r.value.source == "AzureMaps" ==>
      exists i :: 0 <= i < |data| && data[i] == r.value && forall j :: 0 <= j < i ==> data[j].source != "AzureMaps"
  {
    if data == [] then None
    else if data[0].source == "AzureMaps" then Some(data[0])
    else
      match StatsSource(data[1..])
      case Some(s) => if s.source == "AzureMaps" then Some(s) else Some(data[0])
      case None => Some(data[0])
  }

  /** `a || b` on optional strings. */
  function OrElse(a: Option<string>, b: string): (r: string)
    ensures Truthy(a) ==> r == a.value
    ensures !Truthy(a) ==> r == b
  {
    if Truthy(a) then a.value else b
  }

  function GetDayStats(data: seq<WeatherService>, dayIndex: nat): DayStats
  {
    match StatsSource(data)
    case None => NoDayStats
    case Some(s) =>
      if s.daily.None? || |s.daily.value| <= dayIndex then NoDayStats
      else
        match s.daily.value[dayIndex]
        case None => DayStats(NotAvailable, "unknown", "No description available")
        case Some(day) =>
          DayStats(
            if day.high.Some? then FormatTemperature(day.high, OrElse(s.temperatureUnit, "F")) else NotAvailable,
            OrElse(day.icon, "unknown"),
            OrElse(day.longDescription, OrElse(day.description, "No description available")))
  }

  /**
   * The header falls back to ('N/A', 'unknown', 'No data available') when the chosen source has
   * no daily entry at the index; otherwise the temperature is 'N/A' only without a high, the icon key and
   * the description are never empty, and the temperature carries the source's unit, 'F' by default.
   */
  lemma {:induction false} DayStatsFallbacks(data: seq<WeatherService>, dayIndex: nat)
    ensures var src := StatsSource(data);
      var stats := GetDayStats(data, dayIndex);
      && ((src.None? || src.value.daily.None? || |src.value.daily.value| <= dayIndex) ==> stats == NoDayStats)
      && (src.Some? && src.value.daily.Some? && dayIndex < |src.value.daily.value| ==>
            var entry := src.value.daily.value[dayIndex];
            && (entry.None? ==> stats == DayStats(NotAvailable, "unknown", "No description available"))
            && (stats.highTemp.NotAvailable? <==> entry.None? || entry.value.high.None?)
            && (stats.highTemp.Quantity? ==> stats.highTemp.suffix == "°" + OrElse(src.value.temperatureUnit, "F")))
      && stats.weatherIcon != "" && stats.longDescription != ""
  {
    var src := StatsSource(data);
    if src.Some? && src.value.daily.Some? && dayIndex < |src.value.daily.value| {
      var entry := src.value.daily.value[dayIndex];
      if entry.Some? && entry.value.high.Some? {
        assert GetDayStats(data, dayIndex).highTemp == FormatTemperature(entry.value.high, OrElse(src.value.temperatureUnit, "F"));
      }
    }
  }

  /** renderWeatherIcon's table. */
  const IconMap: map<string, string> := map[
    "sunny" := "☀️", "clear" := "☀️", "clear-day" := "☀️", "mostly-sunny" := "🌤️",
    "partly-sunny" := "⛅", "partly-cloudy" := "⛅", "partly-cloudy-day" := "⛅",
    "cloudy" := "☁️", "overcast" := "☁️", "mostly-cloudy" := "☁️", "mostly-cloudy-day" := "☁️",
    "intermittent-clouds" := "🌤️", "hazy-sunshine" := "🌤️", "dreary" := "☁️", "hazy" := "🌫️",
    "fog" := "🌫️", "windy" := "💨", "hot" := "🥵", "cold" := "🥶",
    "rain" := "🌧️", "showers" := "🌦️", "light-rain" := "🌦️", "heavy-rain" := "🌧️", "drizzle" := "🌦️",
    "thunderstorms" := "⛈️", "thunderstorm" := "⛈️", "severe-thunderstorms" := "⛈️",
    "isolated-thunderstorms" := "⛈️", "scattered-thunderstorms" := "⛈️",
    "partly-cloudy-showers" := "🌦️", "mostly-cloudy-showers" := "🌦️", "partly-sunny-showers" := "🌦️",
    "partly-cloudy-thunderstorms" := "⛈️", "mostly-cloudy-thunderstorms" := "⛈️",
    "partly-sunny-thunderstorms" := "⛈️",
    "snow" := "🌨️", "light-snow" := "🌨️", "heavy-snow" := "❄️", "flurries" := "🌨️", "blizzard" := "❄️",
    "freezing-rain" := "🌨️", "sleet" := "🌨️", "ice" := "🧊", "mostly-cloudy-flurries" := "🌨️",
    "mostly-cloudy-snow" := "🌨️", "partly-sunny-flurries" := "🌨️", "rain-and-snow" := "🌨️",
    "clear-night" := "🌙", "partly-cloudy-night" := "☁️", "mostly-clear-night" := "🌙",
    "intermittent-clouds-night" := "☁️", "hazy-night" := "🌙", "mostly-cloudy-night" := "☁️",
    "partly-cloudy-showers-night" := "🌦️", "mostly-cloudy-showers-night" := "🌦️",
    "partly-cloudy-thunderstorms-night" := "⛈️", "mostly-cloudy-thunderstorms-night" := "⛈️",
    "mostly-cloudy-flurries-night" := "🌨️", "mostly-cloudy-snow-night" := "🌨️",
    "unknown" := "❓"
  ]

  /** `iconMap[weatherIcon] || iconMap['unknown']`; every mapped icon is a non-empty string. */
  function RenderWeatherIcon(weatherIcon: string): string
  {
    if weatherIcon in IconMap then IconMap[weatherIcon] else IconMap["unknown"]
  }

  /** Known keys give their own icon, every other key the question mark. */
  lemma WeatherIconLookup(weatherIcon: string)
    ensures weatherIcon in IconMap ==> RenderWeatherIcon(weatherIcon) == IconMap[weatherIcon]
    ensures weatherIcon !in IconMap ==> RenderWeatherIcon(weatherIcon) == "❓"
    ensures RenderWeatherIcon(weatherIcon) in IconMap.Values
  {
  }

  /** A day without statistics shows the question mark. */
  lemma {:induction false} MissingDayShowsUnknownIcon(data: seq<WeatherService>, dayIndex: nat)
    requires GetDayStats(data, dayIndex) == NoDayStats
    ensures RenderWeatherIcon(GetDayStats(data, dayIndex).weatherIcon) == "❓"
  {
    assert "unknown" in IconMap;
  }

  // ---------------------------------------------------------------------------
  // getHourlyDataForDay

  /**
   * One source's row for a day.  An error row has no hours and shows its message; an empty row
   * (the source has no hourly array) shows 'No hourly data available'; a slot row has 24 slots,
   * and `hoursAvailable` is set on Google Weather rows with between 1 and 23 hours that day.
   */
  datatype Row =
    | ErrorRow(source: string, errorMessage: string, rateLimited: bool)
    | EmptyRow(source: string)
    | SlotRow(source: string, slots: seq<Option<HourEntry>>, hoursAvailable: Option<nat>)

  /** Some source has a non-empty hourly array. */
  predicate HasValidHourlyData(data: seq<WeatherService>)
  {
    exists i :: 0 <= i < |data| && data[i].hourly.Some? && |data[i].hourly.value| > 0
  }

  /** The entries of an hourly array that are not null, carry a timestamp and fall on `date`, in order. */
  function HoursForDay(hourly: seq<Option<HourEntry>>, date: int): (r: seq<HourEntry>)
    ensures |r| <= |hourly|
    ensures forall e :: e in r <==> Some(e) in hourly && e.timestamp.Some? && e.timestamp.value.day == date
  {
    if hourly == [] then []
    else
      var init := HoursForDay(hourly[..|hourly| - 1], date);
      assert forall x :: x in hourly <==> x in hourly[..|hourly| - 1] || x == hourly[|hourly| - 1];
      match hourly[|hourly| - 1]
      case Some(e) => if e.timestamp.Some? && e.timestamp.value.day == date then init + [e] else init
      case None => init
  }

  /** The entries of two runs of the hourly array are those of the first run followed by those of the second. */
  lemma {:induction false} HoursForDayAppend(a: seq<Option<HourEntry>>, b: seq<Option<HourEntry>>, date: int)
    ensures HoursForDay(a + b, date) == HoursForDay(a, date) + HoursForDay(b, date)
  {
    if b == [] {
      assert a + b == a;
    } else {
      var init := b[..|b| - 1];
      assert (a + b)[..|a + b| - 1] == a + init;
      assert (a + b)[|a + b| - 1] == b[|b| - 1];
      HoursForDayAppend(a, init, date);
    }
  }

  /** A null entry, an entry without a timestamp and an entry of another day contribute nothing; any other entry itself. */
  lemma HoursForDayOfOne(x: Option<HourEntry>, date: int)
    ensures x.Some? && x.value.timestamp.Some? && x.value.timestamp.value.day == date ==> HoursForDay([x], date) == [x.value]
    ensures !(x.Some? && x.value.timestamp.Some? && x.value.timestamp.value.day == date) ==> HoursForDay([x], date) == []
  {
  }

  predicate AtHour(e: HourEntry, h: int)
  {
    e.timestamp.Some? && e.timestamp.value.hour == h
  }

  /** The last entry, in input order, whose hour of the day is `h`. */
  function LastAt(hours: seq<HourEntry>, h: int): (r: Option<nat>)
    ensures r.Some? ==> r.value < |hours| && AtHour(hours[r.value], h)
    ensures r.Some? ==> forall j :: r.value < j < |hours| ==> !AtHour(hours[j], h)
    ensures r.None? ==> forall j :: 0 <= j < |hours| ==> !AtHour(hours[j], h)
  {
    if hours == [] then None
    else if AtHour(hours[|hours| - 1], h) then Some(|hours| - 1)
    else
      var init := hours[..|hours| - 1];
      assert forall j :: 0 <= j < |init| ==> init[j] == hours[j];
      LastAt(init, h)
  }

  /** The slot for hour `h`: the entry LastAt picks, or null. */
  function SlotAt(hours: seq<HourEntry>, h: int): Option<HourEntry>
  {
    match LastAt(hours, h)
    case Some(j) => Some(hours[j])
    case None => None
  }

  /** `Array(24).fill(null)`, then `hourlyData[getHours()] = hour` for each entry in order. */
  method FillSlots(hours: seq<HourEntry>) returns (slots: seq<Option<HourEntry>>)
    ensures |slots| == 24
    ensures forall h :: 0 <= h < 24 ==> slots[h] == SlotAt(hours, h)
  {
    var hourlyData := new Option<HourEntry>[24](_ => None);
    var k := 0;
    while k < |hours|
      invariant 0 <= k <= |hours|
      invariant forall h :: 0 <= h < 24 ==> hourlyData[h] == SlotAt(hours[..k], h)
    {
      var hour := hours[k];
      assert forall h :: 0 <= h < 24 ==> LastAt(hours[..k + 1], h) == (if AtHour(hour, h) then Some(k) else LastAt(hours[..k], h))
      by {
        assert hours[..k + 1][..k] == hours[..k];
      }
      if hour.timestamp.Some? {
        hourlyData[hour.timestamp.value.hour] := Some(hour);
      }
      k := k + 1;
    }
    assert hours[..|hours|] == hours;
    slots := hourlyData[..];
  }

  /** The row the forEach pushes for one source. */
  function RowFor(s: WeatherService, anyHourly: bool, date: int): Row
  {
    if !anyHourly then ErrorRow(s.source, "No data available", false)
    else if s.rateLimited then ErrorRow(s.source, "Rate limit exceeded. No data available.", true)
    else if s.hourly.None? then EmptyRow(s.source)
    else
      var hours := HoursForDay(s.hourly.value, date);
      var slots := seq(24, h => SlotAt(hours, h));
      if s.source == "GoogleWeather" && 0 < |hours| < 24 then SlotRow(s.source, slots, Some(|hours|))
      else SlotRow(s.source, slots, None)
  }

  /** getHourlyDataForDay: one row per source, in input order, for the day at `dayIndex`. */
  method HourlyDataForDay(data: seq<WeatherService>, days: seq<Day>, dayIndex: nat) returns (rows: seq<Row>)
    requires dayIndex < |days|
    ensures |rows| == |data|
    ensures forall i :: 0 <= i < |data| ==> rows[i] == RowFor(data[i], HasValidHourlyData(data), days[dayIndex].date)
  {
    var anyHourly := false;
    var j := 0;
    while j < |data|
      invariant 0 <= j <= |data|
      invariant anyHourly <==> exists i :: 0 <= i < j && data[i].hourly.Some? && |data[i].hourly.value| > 0
    {
      if data[j].hourly.Some? && |data[j].hourly.value| > 0 {
        anyHourly := true;
      }
      j := j + 1;
    }
    var date := days[dayIndex].date;
    rows := [];
    var i := 0;
    while i < |data|
      invariant 0 <= i <= |data|
      invariant |rows| == i
      invariant forall k :: 0 <= k < i ==> rows[k] == RowFor(data[k], anyHourly, date)
    {
      var source := data[i];
      if !anyHourly {
        rows := rows + [ErrorRow(source.source, "No data available", false)];
      } else if source.rateLimited {
        rows := rows + [ErrorRow(source.source, "Rate limit exceeded. No data available.", true)];
      } else if source.hourly.None? {
        rows := rows + [EmptyRow(source.source)];
      } else {
        var hoursForDay := HoursForDay(source.hourly.value, date);
        var slots := FillSlots(hoursForDay);
        assert slots == seq(24, h => SlotAt(hoursForDay, h));
        if source.source == "GoogleWeather" && 0 < |hoursForDay| < 24 {
          rows := rows + [SlotRow(source.source, slots, Some(|hoursForDay|))];
        } else {
          rows := rows + [SlotRow(source.source, slots, None)];
        }
      }
      i := i + 1;
    }
  }

  /**
   * Every row names its source.  Without hourly data anywhere every row is the error row
   * 'No data available'; otherwise a rate-limited source gets the rate-limit error row, a source
   * without an hourly array the empty row, and any other source 24 slots, where slot h holds the
   * last entry of that day whose hour is h and is null when there is none.
   */
  lemma {:induction false} RowShape(s: WeatherService, anyHourly: bool, date: int)
    ensures var row := RowFor(s, anyHourly, date);
      && row.source == s.source
      && (!anyHourly ==> row == ErrorRow(s.source, "No data available", false))
      && (anyHourly && s.rateLimited ==> row.ErrorRow? && row.rateLimited && row.errorMessage == "Rate limit exceeded. No data available.")
      && (row.SlotRow? <==> anyHourly && !s.rateLimited && s.hourly.Some?)
      && (row.SlotRow? ==> |row.slots| == 24)
      && (row.SlotRow? ==> forall h :: 0 <= h < 24 ==> SlotHolds(row.slots[h], s.hourly.value, date, h))
      && (row.SlotRow? && row.hoursAvailable.Some? ==> s.source == "GoogleWeather" && 0 < row.hoursAvailable.value < 24)
  {
    var row := RowFor(s, anyHourly, date);
    if row.SlotRow? {
      var hours := HoursForDay(s.hourly.value, date);
      forall h | 0 <= h < 24
        ensures SlotHolds(row.slots[h], s.hourly.value, date, h)
      {
        assert row.slots[h] == SlotAt(hours, h);
        match LastAt(hours, h)
        case Some(j) =>
          SlotHoldsIntro(row.slots[h], s.hourly.value, date, h, hours, j);
        case None =>
          assert forall e :: e in hours ==> !AtHour(e, h);
      }
    }
  }

  /**
   * What a slot holds: null when no entry of the hourly array falls on the day at hour h, and
   * otherwise such an entry after which the day's entries contain no other entry for hour h.
   */
  ghost predicate SlotHolds(slot: Option<HourEntry>, hourly: seq<Option<HourEntry>>, date: int, h: int)
  {
    var hours := HoursForDay(hourly, date);
    match slot
    case None => forall e :: e in hours ==> !AtHour(e, h)
    case Some(e) =>
      Some(e) in hourly && e.timestamp.Some?
      && e.timestamp.value.day == date && e.timestamp.value.hour == h
      && exists j :: 0 <= j < |hours| && hours[j] == e && forall k :: j < k < |hours| ==> !AtHour(hours[k], h)
  }

  lemma SlotHoldsIntro(slot: Option<HourEntry>, hourly: seq<Option<HourEntry>>, date: int, h: int, hours: seq<HourEntry>, j: nat)
    requires hours == HoursForDay(hourly, date)
    requires j < |hours| && slot == Some(hours[j]) && AtHour(hours[j], h)
    requires forall k :: j < k < |hours| ==> !AtHour(hours[k], h)
    ensures SlotHolds(slot, hourly, date, h)
  {
    assert hours[j] in hours;
  }

  // ---------------------------------------------------------------------------
  // getPrecipitationClass and the bar segments

  datatype PrecipClass = NoClass | Drizzle | LightRain | ModerateRain | HeavyRain

  function ClassRank(c: PrecipClass): nat
  {
    match c
    case NoClass => 0
    case Drizzle => 1
    case LightRain => 2
    case ModerateRain => 3
    case HeavyRain => 4
  }

  function GetPrecipitationClass(precipValue: real): PrecipClass
  {
    if precipValue > 5.0 then HeavyRain
    else if precipValue > 2.0 then ModerateRain
    else if precipValue > 0.4 then LightRain
    else if precipValue > 0.1 then Drizzle
    else NoClass
  }

  /** Each class is a band whose upper cut point belongs to it; values up to 0.1 get no class. */
  lemma PrecipitationClassBands(v: real)
    ensures GetPrecipitationClass(v) == NoClass <==> v <= 0.1
    ensures GetPrecipitationClass(v) == Drizzle <==> 0.1 < v <= 0.4
    ensures GetPrecipitationClass(v) == LightRain <==> 0.4 < v <= 2.0
    ensures GetPrecipitationClass(v) == ModerateRain <==> 2.0 < v <= 5.0
    ensures GetPrecipitationClass(v) == HeavyRain <==> 5.0 < v
  {
  }

  /** More precipitation never gets a lighter class. */
  lemma PrecipitationClassMonotone(v: real, w: real)
    requires v <= w
    ensures ClassRank(GetPrecipitationClass(v)) <= ClassRank(GetPrecipitationClass(w))
  {
  }

  /** A slot's bar segment: blank, or coloured by its class and labelled with the amount. */
  datatype Segment = Blank | Bar(cls: PrecipClass, amount: real)

  /** What rendering a slot does: draw a segment, or throw a TypeError. */
  datatype Rendered = Drawn(segment: Segment) | TypeError

  /**
   * The segment as written: `precipValue` is the amount when the slot and its precipitation are
   * present and null otherwise, and only null (`=== null`) or an amount of at most 0.1 is drawn
   * blank.  A precipitation object without an `amount` gives undefined, which passes both tests
   * (`undefined <= 0.1` is false), and `undefined.toFixed(1)` then throws.
   */
  function RenderSegmentAsWritten(slot: Option<HourEntry>): Rendered
  {
    if slot.None? || slot.value.precipitation.None? then Drawn(Blank)
    else
      match slot.value.precipitation.value.amount
      case None => TypeError
      case Some(v) => if v <= 0.1 then Drawn(Blank) else Drawn(Bar(GetPrecipitationClass(v), v))
  }

  /** An hour with a precipitation probability but no amount breaks the render. */
  lemma MissingAmountThrows()
    ensures RenderSegmentAsWritten(Some(HourEntry(Some(Stamp(0, 9)), Some(Precipitation(Some(40.0), None))))) == TypeError
  {
  }

  /** The segment with the missing amount treated like null, as for a missing slot or precipitation. */
  function RenderSegment(slot: Option<HourEntry>): (seg: Segment)
    ensures seg.Bar? ==> seg.amount > 0.1 && seg.cls != NoClass && seg.cls == GetPrecipitationClass(seg.amount)
    ensures seg.Bar? <==> slot.Some? && slot.value.precipitation.Some? && slot.value.precipitation.value.amount.Some?
                          && slot.value.precipitation.value.amount.value > 0.1
  {
    if slot.None? || slot.value.precipitation.None? then Blank
    else
      match slot.value.precipitation.value.amount
      case None => Blank
      case Some(v) => if v <= 0.1 then Blank else Bar(GetPrecipitationClass(v), v)
  }

  /** The corrected segment never throws and agrees with the code as written wherever that draws. */
  lemma RenderSegmentAgrees(slot: Option<HourEntry>)
    ensures RenderSegmentAsWritten(slot).Drawn? ==> RenderSegmentAsWritten(slot).segment == RenderSegment(slot)
    ensures RenderSegmentAsWritten(slot) == TypeError ==> RenderSegment(slot) == Blank
  {
  }

  // ---------------------------------------------------------------------------
  // The hour labels of the header row

  /** A column label: the number, the suffix, and whether it is visible (odd hours are hidden). */
  datatype HourLabel = HourLabel(number: int, suffix: string, visible: bool)

  function LabelFor(i: Hour): HourLabel
  {
    HourLabel(if i == 0 then 12 else if i <= 12 then i else i - 12, if i < 12 then "am" else "pm", i % 2 == 0)
  }

  /** Reading a 12-hour label back as an hour of the day. */
  function HourOfLabel(tag: HourLabel): int
  {
    if tag.suffix == "am" then (if tag.number == 12 then 0 else tag.number)
    else (if tag.number == 12 then 12 else tag.number + 12)
  }

  /**
   * The label number lies in 1..12, the suffix is 'am' exactly before noon, the label reads back as
   * the hour it labels (so no two columns share a label), and exactly the even numbers are visible.
   */
  lemma HourLabelRoundTrip(i: Hour)
    ensures 1 <= LabelFor(i).number <= 12
    ensures LabelFor(i).suffix == "am" <==> i < 12
    ensures HourOfLabel(LabelFor(i)) == i
    ensures LabelFor(i).visible <==> LabelFor(i).number % 2 == 0
  {
  }

  // ---------------------------------------------------------------------------
  // The month in a day's title

  const MonthNames: map<string, string> := map[
    "Jan" := "January", "Feb" := "February", "Mar" := "March", "Apr" := "April",
    "May" := "May", "Jun" := "June", "Jul" := "July", "Aug" := "August",
    "Sep" := "September", "Oct" := "October", "Nov" := "November", "Dec" := "December"
  ]

  /** `monthMap[month] || month` */
  function FullMonthName(month: string): string
  {
    if month in MonthNames then MonthNames[month] else month
  }

  /** The `(\w+) (\d+)` replacement on a short date already split into its month and day of month. */
  function ExpandDate(month: string, dayOfMonth: string): string
  {
    FullMonthName(month) + " " + dayOfMonth
  }

  /** A known abbreviation expands to the full name it abbreviates; anything else is kept. */
  lemma {:induction false} MonthExpansion(month: string, dayOfMonth: string)
    ensures month in MonthNames ==> |FullMonthName(month)| >= 3 && FullMonthName(month)[..3] == month
    ensures month !in MonthNames ==> FullMonthName(month) == month
    ensures |ExpandDate(month, dayOfMonth)| > |dayOfMonth| && ExpandDate(month, dayOfMonth)[|FullMonthName(month)|] == ' '
  {
    if month in MonthNames {
      if month == "Jan" {} else if month == "Feb" {} else if month == "Mar" {} else if month == "Apr" {}
      else if month == "May" {} else if month == "Jun" {} else if month == "Jul" {} else if month == "Aug" {}
      else if month == "Sep" {} else if month == "Oct" {} else if month == "Nov" {} else {}
    }
  }
}
