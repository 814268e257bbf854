# Super Sky weather app — a verified model of its decision logic

Super Sky is a Next.js weather app. Its API route fetches current conditions from Azure Maps and assembles a four-provider comparison. It keeps a process-wide response cache. The browser side keeps a list of recent ZIP codes and validates what the user types. It renders a comparison view and an hourly grid from the per-provider records. This project models the deterministic parts of that program in Dafny and proves what they promise.

- **Server cache** (`server_cache.dfy`): the module-level `Map` of `route.ts` as the class `ServerCache.Cache` over a `map<string, Entry>`, with `Get` and `Put` (including the sweep loop). The clock reading `now` is a parameter.
- **API route** (`weather_route.dfy`):
  - the normalisation of an Azure Maps payload;
  - the comparison's four-provider `services` list, built by appends;
  - the cache hit/miss path of `fetchComparisonWeatherData`;
  - the validation and dispatch of `GET`.
  An upstream call is an abstract outcome (`Failed` or `Delivered`) and a response is (status, body).
- **Hook** (`use_weather.dfy`): the recent-ZIP list update of `saveRecentZipCode`, and the input checks at the top of `fetchWeatherData` and `fetchTripleWeatherData`.
- **Helpers** (`helpers.dfy`):
  - ZIP-code validation, matched as the regular expression `^\d{5}(-\d{4})?$`;
  - "time ago" bucketing;
  - `capitalizeWords`;
  - the `N/A` handling and rounding bounds of the formatters;
  - JavaScript's `trim` and ASCII `toUpperCase`, which the components rely on.
- **Components**:
  - `weather_sources.dfy`: the per-source records and `getServiceInfo`;
  - `comparison_view.dfy`: agreement, rain prediction, category and intensity, and the location choice;
  - `hourly_grid.dfy`: the day count, day statistics, icons, 24-slot rows, precipitation classes, hour labels and month names;
  - `location_display.dfy`: the location line and its fallbacks;
  - `zip_code_input.dfy`: the form's state machine as the class `ZipCodeInput.ZipCodeForm`. The `onSubmit` callback is recorded as the log `submitted`.

Numbers are `real`. Times are integers in milliseconds. A calendar day is an integer day number, and an hourly timestamp is a (day, hour) pair.

## Model

| member | source | states |
|---|---|---|
| ServerCache.Cache.Get | src/app/api/weather/route.ts:14-25 | returns the data exactly when the key is present and at most the caller's `maxAge` old (default 15 minutes, whatever maximum age the entry was stored with); a stale entry is deleted, nothing else changes |
| ServerCache.Cache.Put | src/app/api/weather/route.ts:30-46 | overwrites the key with `{data, now, maxAge}`; when the table then holds more than 100 entries the loop deletes exactly the entries older than their own stored maximum age (loop invariant over the keys still pending) |
| ServerCache.LookupFresh | src/app/api/weather/route.ts:14-24 | a read hits iff the entry exists and `now - timestamp <= maxAge`; a hit returns the stored data and leaves the table unchanged |
| ServerCache.LookupMissDeletesOnlyKey | src/app/api/weather/route.ts:19-22 | a read that misses removes exactly the key it read and no other |
| ServerCache.LookupIgnoresStoredMaxAge | src/app/api/weather/route.ts:6-24 | an entry stored with the 30-minute maximum age and read after 20 minutes with the default is reported missing and deleted, though the sweep would still keep it |
| ServerCache.SweepExact | src/app/api/weather/route.ts:38-45 | the sweep keeps exactly the entries that are not expired, unchanged |
| ServerCache.StoreEffect | src/app/api/weather/route.ts:30-45 | at most 100 entries: no other entry touched; more: exactly the expired ones removed; every surviving entry unchanged; the new entry survives when its maximum age is not negative |
| ServerCache.ReadAfterWrite | src/app/api/weather/route.ts:14-35 | reading a key right after writing it returns the data written |
| ServerCache.ReadAfterExpiry | src/app/api/weather/route.ts:14-35 | reading a key more than the read's maximum age after writing it returns nothing |
| ServerCache.OverwriteReplaces | src/app/api/weather/route.ts:30-35 | a second write of a key replaces the first entry |
| ServerCache.SweepLeavesNoExpired | src/app/api/weather/route.ts:37-45 | after a sweeping write no entry left is expired |
| WeatherRoute.TransformAzureMapsWeather | src/app/api/weather/route.ts:51-85 | fails iff the payload has no `results[0]`; otherwise the ZIP code is the requested one and city, state and description are never empty |
| WeatherRoute.TransformDefaults | src/app/api/weather/route.ts:56-84 | every missing numeric field becomes 0; the description is the phrase or 'Unknown'; city and state come from the address search, then the conditions result, then 'Unknown' |
| WeatherRoute.FetchAzureMapsWeather | src/app/api/weather/route.ts:132-171 | an upstream failure is passed on as the error; an empty body gives 'No data received from Azure Maps API'; success carries the requested ZIP code |
| WeatherRoute.AssembleServices | src/app/api/weather/route.ts:184-228 | the four entries AzureMaps, OpenMeteo, Foreca, GoogleWeather in that order; a failed Azure fetch becomes an error entry; the others are 'Service not implemented yet' errors |
| WeatherRoute.ComparisonListsFourProviders | src/app/api/weather/route.ts:184-228 | a comparison has exactly 4 services in the fixed order; only Azure Maps can succeed; every error entry carries the ZIP code |
| WeatherRoute.FetchComparisonWeatherData | src/app/api/weather/route.ts:176-243 | a fresh cached comparison is returned with `cached: true`, with no upstream call and the cache unchanged; otherwise the new result (`cached: false`) is stored under `comparison-weather-<zip>` with the 15-minute maximum age |
| WeatherRoute.SecondComparisonServedFromCache | src/app/api/weather/route.ts:177-237 | a second comparison for the same ZIP code within 15 minutes of one that went upstream returns the first result tagged `cached: true` and calls nothing |
| WeatherRoute.ComparisonCachedForFifteenMinutes | src/app/api/weather/route.ts:230-237 | a comparison is stored with the 15-minute default, never the 30-minute constant |
| WeatherRoute.PlanRequest | src/app/api/weather/route.ts:245-283 | a missing ZIP code gives 'ZIP code is required' and an invalid one 'Invalid ZIP code format', both before any fetch; `type=comparison` runs the comparison; otherwise only service 'azure' (the default) is fetched, and any other service gives 'Unsupported weather service' |
| WeatherRoute.InvalidZipAlwaysRejected | src/app/api/weather/route.ts:258-265 | an invalid ZIP code is rejected whatever the service and type |
| WeatherRoute.Get | src/app/api/weather/route.ts:245-297 | a rejected request answers 400 with its message, makes no call and leaves the cache alone; a current-conditions request answers 200 with the data or 500 'Failed to fetch weather data' with the reason; a comparison answers 200 as the comparison fetch specifies |
| UseWeather.RemoveCode | src/hooks/useWeather.ts:85 | the filter keeps exactly the codes other than the saved one, each as many times as it occurred (as multisets, the input with the saved code's count set to 0) |
| UseWeather.RemoveCodeAppend | src/hooks/useWeather.ts:85 | filtering a concatenation is concatenating the filtered parts, so the kept codes stay in their order |
| UseWeather.RemoveCodeOfOne | src/hooks/useWeather.ts:85 | a one-code list loses its code iff it is the saved one |
| UseWeather.RemoveOnlyOccurrence | src/hooks/useWeather.ts:85 | filtering a list in which the code occurs once removes just that occurrence |
| UseWeather.Take | src/hooks/useWeather.ts:88 | `slice(0, n)` is the prefix of length min(n, length) |
| UseWeather.SaveRecentPutsCodeFirst | src/hooks/useWeather.ts:78-88 | after saving a non-empty code the list starts with it and holds at most 5 codes |
| UseWeather.SaveRecentCodeOnce | src/hooks/useWeather.ts:85-88 | the saved code occurs exactly once |
| UseWeather.SaveRecentMovesToFront | src/hooks/useWeather.ts:85-88 | saving a code that was at any one position, or absent, gives the code followed by the other codes in their earlier order, cut to 5 |
| UseWeather.SaveRecentIdempotent | src/hooks/useWeather.ts:85-88 | saving the same code twice gives the same list as saving it once |
| UseWeather.SaveRecentEmptyCode | src/hooks/useWeather.ts:79 | saving the empty code leaves the list unchanged |
| UseWeather.SaveRecentKeepsNoDuplicates | src/hooks/useWeather.ts:85-88 | a list without duplicates stays without duplicates |
| UseWeather.SaveRecentKeepsValidCodes | src/hooks/useWeather.ts:85-88 | saving a valid code into a list of valid codes gives a list of valid codes |
| UseWeather.StartFetchWeather | src/hooks/useWeather.ts:128-139 | blank input is refused with 'Please enter a ZIP code', input whose trimmed form does not match with the 'valid ZIP code' message; only the trimmed valid code is requested |
| UseWeather.StartFetchTriple | src/hooks/useWeather.ts:189-203 | only blank input is refused; the trimmed input is requested as a comparison |
| UseWeather.FetchWeatherRequestAccepted | src/hooks/useWeather.ts:128-139 | every request the hook lets through passes the route's validation and fetches current conditions |
| UseWeather.FetchWeatherOtherServiceRejected | src/hooks/useWeather.ts:128-139 | a request for a service other than 'azure' passes the hook but is answered 'Unsupported weather service' |
| UseWeather.TripleFetchLeavesCheckToRoute | src/hooks/useWeather.ts:189-203 | a non-blank malformed code that the single fetch refuses is sent on by the comparison fetch, and the route answers it 'Invalid ZIP code format' |
| Helpers.TrimStart | src/hooks/useWeather.ts:129 | `trim` drops a leading run of whitespace and nothing else |
| Helpers.TrimEnd | src/hooks/useWeather.ts:129 | `trim` drops a trailing run of whitespace and nothing else |
| Helpers.MatchDigits | src/utils/helpers.ts:136-139 | `\d{n}` matches exactly when the string starts with n ASCII digits, and leaves the rest |
| Helpers.ZipCodeShape | src/utils/helpers.ts:136-139 | valid iff exactly 5 digits, or 5 digits, '-' and 4 digits |
| Helpers.ValidZipCodeIsTrimmed | src/utils/helpers.ts:136-139 | a valid code has length 5 or 10 and is unchanged by `trim` |
| Helpers.TimeAgoBuckets | src/utils/helpers.ts:109-129 | under one minute 'Just now'; under 60 minutes the whole minutes; under 24 hours the whole hours; otherwise the whole days |
| Helpers.FormatTimeAgo | src/utils/helpers.ts:109-129 | 'N/A' exactly without a date; otherwise the bucket's text ('Just now', 'Nm ago', 'Nh ago', 'Nd ago') |
| Helpers.CapitalizeFrom | src/utils/helpers.ts:146-150 | same length; exactly the word characters that start a word (at the start or after a non-word character) are upper-cased, everything else is kept |
| Helpers.CapitalizeWords | src/utils/helpers.ts:146-150 | null or empty gives ''; otherwise as above |
| Helpers.CapitalizeWordsIdempotent | src/utils/helpers.ts:146-150 | capitalising twice is capitalising once |
| Helpers.Round | src/utils/helpers.ts:35 | `Math.round` gives the integer within one half of its argument, halves rounding up |
| Helpers.FormatTemperature | src/utils/helpers.ts:31-36 | 'N/A' exactly for null; otherwise a whole number within one half of the input, with '°' and the unit |
| Helpers.FormatWindSpeed | src/utils/helpers.ts:44-49 | 'N/A' exactly for null; otherwise the rounded speed and the unit |
| Helpers.FormatProbability | src/utils/helpers.ts:56-62 | 'N/A' exactly for null; values above 1 are already percentages, values up to 1 are scaled by 100; a probability in 0..100 formats within 0..100 |
| Helpers.FormatPressure | src/utils/helpers.ts:158-163 | 'N/A' exactly for null; otherwise within 0.005 of the input |
| Helpers.FormatVisibility | src/utils/helpers.ts:171-176 | 'N/A' exactly for null; otherwise within 0.05 of the input |
| WeatherSources.GetServiceInfo | src/components/ComparisonView.tsx:292-320 | the four known sources map to their display names and the letters A, O, F, G; any other name is its own display name |
| WeatherSources.ServiceLetterIsInitial | src/components/HourlyComparisonGrid.tsx:584-613 | every source's letter, known or not, is its name's first character in upper case |
| WeatherSources.KnownLettersDistinct | src/components/HourlyComparisonGrid.tsx:585-606 | the known sources have distinct letters |
| ComparisonView.ReportedValues | src/components/ComparisonView.tsx:110-125 | there are never more values than sources |
| ComparisonView.ReportedValuesMembers | src/components/ComparisonView.tsx:110-125 | the non-null values are exactly those some source reports |
| ComparisonView.ReportedValuesAppend | src/components/ComparisonView.tsx:110-125 | the values of two runs of sources are the first run's followed by the second's, so they are in source order |
| ComparisonView.ReportedValuesOfOne | src/components/ComparisonView.tsx:110-125 | one source contributes exactly its value when it reports one and nothing otherwise |
| ComparisonView.Minimum | src/components/ComparisonView.tsx:129 | `Math.min` is a value of the list no greater than any other |
| ComparisonView.Maximum | src/components/ComparisonView.tsx:130 | `Math.max` is a value of the list no smaller than any other |
| ComparisonView.AgreementOf | src/components/ComparisonView.tsx:110-185 | fewer than two sources or values: agreement, difference 0, level high; otherwise the difference is the largest gap between two reported values, never negative, the sources agree iff it is at most the threshold, and the level follows the thresholds |
| ComparisonView.AgreementLevels | src/components/ComparisonView.tsx:133-143 | level low iff difference > 2·threshold, medium iff between, high otherwise; for a threshold that is not negative, agreement iff level high |
| ComparisonView.FewSourcesAgree | src/components/ComparisonView.tsx:110-150 | with fewer than two sources both agreement checks report full agreement |
| ComparisonView.HasRainPrediction | src/components/ComparisonView.tsx:91-107 | false on no data; true iff some source's chance of rain (missing probability counts as 0) is at least 35 |
| ComparisonView.MissingProbabilityIsDry | src/components/ComparisonView.tsx:102-105 | a source whose precipitation lacks a probability does not predict rain |
| ComparisonView.PrecipCategoryBands | src/components/ComparisonView.tsx:188-194 | the categories are the bands cut at 15, 35, 65 and 85, each lower cut point inclusive |
| ComparisonView.PrecipCategoryMonotone | src/components/ComparisonView.tsx:188-194 | a higher chance never gets a lower category |
| ComparisonView.RainStartsAtMediumCategory | src/components/ComparisonView.tsx:188-194 | the rain-prediction threshold is exactly where the 'medium' category starts |
| ComparisonView.PrecipIntensityBands | src/components/ComparisonView.tsx:197-203 | 'none' only for exactly 0; negative amounts are 'light'; cut points 0.1, 0.3, 0.5 |
| ComparisonView.PrecipIntensityMonotone | src/components/ComparisonView.tsx:197-203 | on amounts that are not negative, more precipitation never gets a lower intensity |
| ComparisonView.FirstNonError | src/components/ComparisonView.tsx:86 | the index of the first source without an error, or none when every source has one |
| ComparisonView.SelectLocation | src/components/ComparisonView.tsx:86-88 | the location of the first source without an error, else of the first source, else none |
| HourlyGrid.LongestDaily | src/components/HourlyComparisonGrid.tsx:77-82 | the longest daily array among the sources: no source's is longer and some source's is that long |
| HourlyGrid.DayCountBounds | src/components/HourlyComparisonGrid.tsx:77-85 | the day count is between 7 and 10, exceeds 7 only for a source with that many daily entries, and covers every source's daily array of up to 10 entries |
| HourlyGrid.AvailableDays | src/components/HourlyComparisonGrid.tsx:72-106 | min(max(7, longest daily array), 10) days, day i being today plus i days |
| HourlyGrid.StatsSource | src/components/HourlyComparisonGrid.tsx:111 | the first 'AzureMaps' source, else the first source, else none |
| HourlyGrid.OrElse | src/components/HourlyComparisonGrid.tsx:129-130 | `a \|\| b` on strings: a when present and non-empty, else b |
| HourlyGrid.DayStatsFallbacks | src/components/HourlyComparisonGrid.tsx:109-153 | without a daily entry at the index: ('N/A', 'unknown', 'No data available'); for a null entry: ('N/A', 'unknown', 'No description available'); otherwise 'N/A' only without a high, and the unit defaults to 'F'; icon key and description are never empty |
| HourlyGrid.WeatherIconLookup | src/components/HourlyComparisonGrid.tsx:156-251 | a known key gives its own icon, any other key '❓' |
| HourlyGrid.MissingDayShowsUnknownIcon | src/components/HourlyComparisonGrid.tsx:237-238 | a day without statistics shows '❓' |
| HourlyGrid.HoursForDay | src/components/HourlyComparisonGrid.tsx:302-310 | the hourly entries kept for a day are exactly the non-null ones with a timestamp on that day, never more than the input |
| HourlyGrid.HoursForDayAppend | src/components/HourlyComparisonGrid.tsx:302-310 | the entries kept from two runs of the hourly array are the first run's followed by the second's, so they keep input order |
| HourlyGrid.HoursForDayOfOne | src/components/HourlyComparisonGrid.tsx:302-310 | one entry is kept, once, iff it is not null and has a timestamp on that day |
| HourlyGrid.LastAt | src/components/HourlyComparisonGrid.tsx:339-347 | the position of the last entry, in input order, at a given hour, or none when no entry is at that hour |
| HourlyGrid.FillSlots | src/components/HourlyComparisonGrid.tsx:317-347 | the 24-slot array: slot h holds the last entry at hour h, or null |
| HourlyGrid.HourlyDataForDay | src/components/HourlyComparisonGrid.tsx:254-371 | one row per source, in input order, each as the rules below classify it |
| HourlyGrid.RowShape | src/components/HourlyComparisonGrid.tsx:256-355 | no hourly data anywhere: every row is 'No data available'; a rate-limited source gets the rate-limit error row; otherwise a source with an hourly array gets exactly 24 slots, slot h holding the last entry of that day at hour h or null; only Google Weather rows with 1 to 23 hours carry `hoursAvailable` |
| HourlyGrid.PrecipitationClassBands | src/components/HourlyComparisonGrid.tsx:392-398 | strict cut points 5, 2, 0.4, 0.1; no class up to 0.1 |
| HourlyGrid.PrecipitationClassMonotone | src/components/HourlyComparisonGrid.tsx:392-398 | more precipitation never gets a lighter class |
| HourlyGrid.MissingAmountThrows | src/components/HourlyComparisonGrid.tsx:486-494 | an hour whose precipitation has no `amount` makes the segment render throw |
| HourlyGrid.RenderSegment | src/components/HourlyComparisonGrid.tsx:486-507 | a bar is drawn exactly for an amount above 0.1, always with a colour class matching the amount |
| HourlyGrid.RenderSegmentAgrees | src/components/HourlyComparisonGrid.tsx:486-507 | the corrected segment equals the original's wherever the original draws, and is blank where it throws |
| HourlyGrid.HourLabelRoundTrip | src/components/HourlyComparisonGrid.tsx:444-453 | the number is in 1..12, the suffix is 'am' iff the hour is before 12, the label reads back as its hour, and the visible labels are the even ones |
| HourlyGrid.MonthExpansion | src/components/HourlyComparisonGrid.tsx:408-415 | a known abbreviation expands to a month name beginning with it; any other month is kept; the day of month follows a space |
| LocationDisplay.Join | src/components/LocationDisplay.tsx:57 | joining non-empty parts gives '' iff there are none; one part is itself |
| LocationDisplay.LocationParts | src/components/LocationDisplay.tsx:46-54 | one part for a truthy city and one for a truthy state, none empty |
| LocationDisplay.LocationLine | src/components/LocationDisplay.tsx:37-99 | no location: 'Location unavailable'; the main line is city and state joined by ", " when present; the ZIP line shows iff a ZIP code is present and enabled, and then shows that code; the country shows iff it is present and not 'US' in any case, and then as its upper-cased text |
| LocationDisplay.CountryCase | src/components/LocationDisplay.tsx:95-98 | 'us' is hidden as the US; 'ca' shows as 'CA' |
| ZipCodeInput.ZipCodeForm.constructor | src/components/ZipCodeInput.tsx:29-30 | the form starts with empty input, no error shown and nothing submitted |
| ZipCodeInput.ZipCodeForm.HandleInputChange | src/components/ZipCodeInput.tsx:45-49 | stores the value and changes nothing else |
| ZipCodeInput.ZipCodeForm.Validate | src/components/ZipCodeInput.tsx:33-42 | blank input sets `isValid`; otherwise `isValid` is the pattern result on the trimmed value |
| ZipCodeInput.ZipCodeForm.HandleSubmit | src/components/ZipCodeInput.tsx:52-68 | the trimmed input is submitted iff it matches the pattern; otherwise `isValid` becomes false and nothing is submitted; a log of valid codes stays valid |
| ZipCodeInput.ZipCodeForm.HandleRecentSelect | src/components/ZipCodeInput.tsx:71-75 | shows the code, clears the error and submits it without checking |
| ZipCodeInput.ValidationAndSubmitAgree | src/components/ZipCodeInput.tsx:33-68 | running `Validate` and then `HandleSubmit` on the same value: no error is shown iff the value is blank or valid, the value is passed on iff it is valid, so the two differ exactly on blank input |
| ZipCodeInput.TypeAndSubmit | src/components/ZipCodeInput.tsx:45-68 | typing a value, letting its validation run and submitting passes on exactly the valid trimmed value, and leaves the error shown otherwise |

## Left out

- HTTP to Azure Maps (`fetchAzureMapsLocation` and the request in `fetchAzureMapsWeather`), the environment credentials, timeouts and `NextResponse` construction. An upstream call is an abstract `Failed`/`Delivered` outcome. A missing credential or coordinate is one more `Failed` message.
- ServerCache.Cache.Put: `saveToServerCache` reads `Date.now()` twice, once for the timestamp and once for the sweep. The model uses one clock reading per operation.
- The forecast and hourly arrays of the normalised Azure Maps record. They are always empty, so the model omits them.
- The async staleness guard of `useWeather` (`currentRequestRef`), the hook's React state, `localStorage`, `window.history` and URL parsing. The recent list is a plain sequence in and out.
- `debounce`, which is timer based. `ZipCodeForm.Validate` is the callback as it runs when the timer fires.
- `formatDate` and `formatTime`, the day and month names of `availableDays`, and the local-time arithmetic behind timestamps. All of these depend on locale and time zone. Days are day numbers and timestamps are (day, hour) pairs.
- ToUpper and ToUpperString: `toUpperCase` is modelled for ASCII letters only. Other characters are kept.
- Floating point: numbers are exact reals. NaN, infinities and non-numeric JSON values are not modelled, and neither is the text of `toFixed`. A property "is a number" exactly when it is in a reading's `numbers` map.
- Helpers.FormatPressure and Helpers.FormatVisibility: they state only the distance between the formatted and the exact value, not the decimal text.
- Lookups of keys that `Object.prototype` supplies (such as `constructor`) in the icon map, the month map and the service map. The model treats those keys like any other unknown key.
- HourlyGrid.HourlyDataForDay: the `precipitation` of an hour is an object with an optional `amount`. A JSON `null` amount is not told apart from a missing one.
- JSX, CSS class strings (`colorClass`, `styles.*`), `console.log` diagnostics, the loading and empty-state screens, and the component state of the comparison view (`activeTab`, display mode, auto-switch). The active tab is a parameter.
- The comparison cache's maximum age: `GOOGLE_WEATHER_CACHE_DURATION` (route.ts:6, 30 minutes) is defined but never passed. `saveToServerCache` at route.ts:230-237 stores comparisons with the 15-minute default, and the lookup reads them with it too. The model follows that (`WeatherRoute.ComparisonCachedForFifteenMinutes`).
- WeatherRoute.FetchComparisonWeatherData: the request is modelled as one atomic step with one clock reading. In route.ts:176-243 the location and weather calls are awaited (with a 10-second timeout each) between `getFromServerCache` and `saveToServerCache`. So the stored timestamp is later than the lookup time, and two concurrent requests for the same ZIP code can both go upstream, with the last write winning. Neither the interleaving nor the elapsed time is modelled.
- UseWeather.StartFetchWeather and UseWeather.FetchWeatherOtherServiceRejected: the service reaches the route as an already parsed parameter. useWeather.ts:149 pastes it into the URL without `encodeURIComponent`. A service containing `&`, `=`, `#`, `+` or `%` would be parsed differently. For example, `azure&type=comparison` runs a comparison instead of being rejected. The app itself only passes the default 'azure'.
- ZipCodeInput.TypeAndSubmit and ZipCodeInput.ZipCodeForm.HandleSubmit: the browser's own gating of form submission is not modelled. `maxLength={10}`, `pattern="[0-9]{5}(-[0-9]{4})?"` and the button's `disabled={isLoading || !inputValue.trim()}` (ZipCodeInput.tsx:88-95) keep some inputs from reaching `handleSubmit` at all, such as ' 12345' or blank input. The model calls the handler directly. `SubmitDisabled` states the button condition but no method consults it.

## Findings

| source | as written | input that shows it | evidently intended | confidence | as-written member | corrected member |
|---|---|---|---|---|---|---|
| src/components/HourlyComparisonGrid.tsx:486-494 | `precipValue` is `hour.precipitation.amount`, tested with `=== null` and `<= 0.1`; an undefined amount passes both tests and reaches `toFixed(1)` | an hourly entry with `precipitation: { probability: 40 }` and no `amount` | a missing amount is drawn as a blank segment, like a missing precipitation | medium, not executed | HourlyGrid.MissingAmountThrows | HourlyGrid.RenderSegment |
