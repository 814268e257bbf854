/**
 * The weather API route (src/app/api/weather/route.ts): normalising an Azure Maps
 * current-conditions payload, assembling the four-provider comparison behind the
 * response cache, and the validation and dispatch of GET /api/weather.
 *
 * The two upstream HTTP calls (address search, then current conditions) are one
 * abstract `Upstream` outcome; clock readings are the integer `now`.
 */
module WeatherRoute {
  import opened Wrappers
  import opened Helpers
  import ServerCache

  // ---------------------------------------------------------------------------
  // Upstream payloads, reduced to the fields the route reads

  /** `results[0]` of the address search: `address.municipality` and `address.countrySubdivision`. */
  datatype SearchResult = SearchResult(municipality: Option<string>, countrySubdivision: Option<string>)

  /** One element of the current-conditions `results` array. */
  datatype ConditionsResult = ConditionsResult(
    temperature: Option<real>,          // temperature.value
    realFeelTemperature: Option<real>,  // realFeelTemperature.value
    phrase: Option<string>,
    relativeHumidity: Option<real>,
    windSpeed: Option<real>,            // wind.speed.value
    windDirection: Option<real>,        // wind.direction.degrees
    pressure: Option<real>,             // pressure.value
    visibility: Option<real>,           // visibility.value
    uvIndex: Option<real>,
    cloudCover: Option<real>,
    city: Option<string>,               // location.city
    countrySubdivision: Option<string>) // location.countrySubdivision

  /** The payload's `results` (None when missing); a None element is a falsy one. */
  datatype ConditionsPayload = ConditionsPayload(results: Option<seq<Option<ConditionsResult>>>)

  /**
   * What the two upstream calls of fetchAzureMapsWeather produced: a failure of either call
   * (missing credentials, HTTP error, timeout, no location, no coordinates) with its message,
   * or the location found and the body of the conditions response (None when empty).
   */
  datatype Upstream = Failed(message: string) | Delivered(search: SearchResult, body: Option<ConditionsPayload>)

  // ---------------------------------------------------------------------------
  // The normalised record

  datatype Location = Location(city: string, state: string, zipCode: string)

  datatype Conditions = Conditions(
    temperature: real, feelsLike: real, description: string, humidity: real,
    windSpeed: real, windDirection: real, pressure: real, visibility: real,
    uvIndex: real, cloudCover: real)

  /** The normalised record; its `forecast` and `hourly` arrays are always empty and are not represented. */
  datatype NormalizedWeather = NormalizedWeather(
    service: string, location: Location, current: Conditions, cached: bool, timestamp: int)

  const AzureServiceName := "Azure Maps (AccuWeather)"
  const InvalidPayloadMessage := "Invalid Azure Maps weather data received"
  const NoDataMessage := "No data received from Azure Maps API"
  const UnknownText := "Unknown"

  /** `x || 0` on a numeric field: a missing value (or 0 itself) gives 0. */
  function OrZero(x: Option<real>): real
  {
    x.GetOr(0.0)
  }

  /** `a || b || fallback` on optional strings. */
  function FirstTruthy(a: Option<string>, b: Option<string>, fallback: string): string
  {
    if Truthy(a) then a.value else if Truthy(b) then b.value else fallback
  }

  /** `data.results[0]`, when the payload has one that is not falsy. */
  function FirstResult(data: ConditionsPayload): Option<ConditionsResult>
  {
    match data.results
    case None => None
    case Some(rs) => if rs == [] then None else rs[0]
  }

  /** transformAzureMapsWeather: throws without `results[0]`, otherwise fills every gap with a default. */
  function TransformAzureMapsWeather(data: ConditionsPayload, zipCode: string, locationInfo: Option<SearchResult>, now: int)
    : (r: Result<NormalizedWeather, string>)
    ensures r.Err? <==> FirstResult(data).None?
    ensures r.Err? ==> r.error == InvalidPayloadMessage
    ensures r.Ok? ==> r.value.location.zipCode == zipCode
    ensures r.Ok? ==> r.value.service == AzureServiceName && !r.value.cached && r.value.timestamp == now
    ensures r.Ok? ==> r.value.location.city != "" && r.value.location.state != "" && r.value.current.description != ""
  {
    match FirstResult(data)
    case None => Err(InvalidPayloadMessage)
    case Some(result) =>
      var search := locationInfo.GetOr(SearchResult(None, None));
      var location := Location(
        FirstTruthy(search.municipality, result.city, UnknownText),
        FirstTruthy(search.countrySubdivision, result.countrySubdivision, UnknownText),
        zipCode);
      var current := Conditions(
        OrZero(result.temperature), OrZero(result.realFeelTemperature),
        FirstTruthy(result.phrase, None, UnknownText), OrZero(result.relativeHumidity),
        OrZero(result.windSpeed), OrZero(result.windDirection), OrZero(result.pressure),
        OrZero(result.visibility), OrZero(result.uvIndex), OrZero(result.cloudCover));
      Ok(NormalizedWeather(AzureServiceName, location, current, false, now))
  }

  /**
   * The normalised fields: every numeric field is the upstream value or 0 when missing; the
   * description is the phrase or 'Unknown'; city and state come from the address search when it
   * has them, then from the conditions result, then 'Unknown'.
   */
  lemma {:induction false} TransformDefaults(data: ConditionsPayload, zipCode: string, locationInfo: Option<SearchResult>, now: int)
    requires FirstResult(data).Some?
    ensures var res := FirstResult(data).value;
      var w := TransformAzureMapsWeather(data, zipCode, locationInfo, now).value;
      && (res.temperature.Some? ==> w.current.temperature == res.temperature.value)
      && (res.temperature.None? ==> w.current.temperature == 0.0)
      && w.current.feelsLike == res.realFeelTemperature.GetOr(0.0)
      && w.current.humidity == res.relativeHumidity.GetOr(0.0)
      && w.current.windSpeed == res.windSpeed.GetOr(0.0)
      && w.current.windDirection == res.windDirection.GetOr(0.0)
      && w.current.pressure == res.pressure.GetOr(0.0)
      && w.current.visibility == res.visibility.GetOr(0.0)
      && w.current.uvIndex == res.uvIndex.GetOr(0.0)
      && w.current.cloudCover == res.cloudCover.GetOr(0.0)
      && (w.current.description == UnknownText <==> !Truthy(res.phrase) || res.phrase.value == UnknownText)
      && (locationInfo.Some? && Truthy(locationInfo.value.municipality) ==> w.location.city == locationInfo.value.municipality.value)
      && ((locationInfo.None? || !Truthy(locationInfo.value.municipality)) && Truthy(res.city) ==> w.location.city == res.city.value)
      && ((locationInfo.None? || !Truthy(locationInfo.value.municipality)) && !Truthy(res.city) ==> w.location.city == UnknownText)
      && (locationInfo.Some? && Truthy(locationInfo.value.countrySubdivision) ==> w.location.state == locationInfo.value.countrySubdivision.value)
      && ((locationInfo.None? || !Truthy(locationInfo.value.countrySubdivision)) && Truthy(res.countrySubdivision) ==> w.location.state == res.countrySubdivision.value)
      && ((locationInfo.None? || !Truthy(locationInfo.value.countrySubdivision)) && !Truthy(res.countrySubdivision) ==> w.location.state == UnknownText)
  {
  }

  /** fetchAzureMapsWeather: an upstream failure is rethrown; a delivered body is normalised. */
  function FetchAzureMapsWeather(zipCode: string, upstream: Upstream, now: int): (r: Result<NormalizedWeather, string>)
    ensures upstream.Failed? ==> r == Err(upstream.message)
    ensures upstream.Delivered? && upstream.body.None? ==> r == Err(NoDataMessage)
    ensures r.Ok? ==> upstream.Delivered? && r.value.location.zipCode == zipCode
  {
    match upstream
    case Failed(message) => Err(message)
    case Delivered(search, body) =>
      match body
      case None => Err(NoDataMessage)
      case Some(data) => TransformAzureMapsWeather(data, zipCode, Some(search), now)
  }

  // ---------------------------------------------------------------------------
  // The comparison

  /** One element of a comparison's `services`: a fetched record tagged with its source, or an error entry. */
  datatype ServiceEntry =
    | Fetched(source: string, weather: NormalizedWeather)
    | Unavailable(source: string, errorMessage: string, zipCode: string)
  {
    predicate IsError() { Unavailable? }
  }

  datatype ComparisonResult = ComparisonResult(zipCode: string, services: seq<ServiceEntry>, timestamp: int, cached: bool)

  /** The providers of a comparison, in the order they are listed. */
  const Providers: seq<string> := ["AzureMaps", "OpenMeteo", "Foreca", "GoogleWeather"]

  const AzureFailedMessage := "Failed to fetch Azure Maps data"
  const NotImplementedMessage := "Service not implemented yet"

  function CacheKey(zipCode: string): string
  {
    "comparison-weather-" + zipCode
  }

  /** The four entries of a comparison for `zipCode` whose Azure Maps fetch gave `azure`. */
  ghost predicate ServicesFor(services: seq<ServiceEntry>, zipCode: string, azure: Result<NormalizedWeather, string>)
  {
    && |services| == |Providers|
    && (forall i :: 0 <= i < |services| ==> services[i].source == Providers[i])
    && services[0] == (match azure
                       case Ok(w) => Fetched("AzureMaps", w)
                       case Err(_) => Unavailable("AzureMaps", AzureFailedMessage, zipCode))
    && (forall i :: 1 <= i < |services| ==> services[i] == Unavailable(Providers[i], NotImplementedMessage, zipCode))
  }

  /** The `services` list of fetchComparisonWeatherData, pushed one provider at a time; a failed fetch becomes an error entry. */
  method AssembleServices(zipCode: string, azure: Result<NormalizedWeather, string>) returns (services: seq<ServiceEntry>)
    ensures ServicesFor(services, zipCode, azure)
    ensures services[0].IsError() <==> azure.Err?
  {
    services := [];
    match azure {
      case Ok(azureData) =>
        services := services + [Fetched("AzureMaps", azureData)];
      case Err(_) =>
        services := services + [Unavailable("AzureMaps", AzureFailedMessage, zipCode)];
    }
    services := services + [Unavailable("OpenMeteo", NotImplementedMessage, zipCode)];
    services := services + [Unavailable("Foreca", NotImplementedMessage, zipCode)];
    services := services + [Unavailable("GoogleWeather", NotImplementedMessage, zipCode)];
  }

  /**
   * What fetchComparisonWeatherData does to the cache and returns, given the cache before (`before`)
   * and after (`after`): a fresh entry under the comparison key is returned with `cached: true` and
   * no upstream call; otherwise the providers are fetched and the new result, `cached: false`, is
   * stored under that key with the default 15-minute maximum age.
   */
  ghost predicate ComparisonOutcome(
    before: map<string, ServerCache.Entry<ComparisonResult>>, after: map<string, ServerCache.Entry<ComparisonResult>>,
    zipCode: string, upstream: Upstream, now: int, r: ComparisonResult, upstreamCalled: bool)
  {
    var hit := ServerCache.Lookup(before, CacheKey(zipCode), now, ServerCache.CacheDuration);
    if hit.Some? then
      && r == hit.value.(cached := true)
      && !upstreamCalled
      && after == before
    else
      && upstreamCalled
      && r.zipCode == zipCode && r.timestamp == now && !r.cached
      && ServicesFor(r.services, zipCode, FetchAzureMapsWeather(zipCode, upstream, now))
      && after == ServerCache.Store(before, CacheKey(zipCode), r, now, ServerCache.CacheDuration)
  }

  /** fetchComparisonWeatherData: the cache first, then the providers. */
  method FetchComparisonWeatherData(cache: ServerCache.Cache<ComparisonResult>, zipCode: string, upstream: Upstream, now: int)
    returns (r: ComparisonResult, upstreamCalled: bool)
    modifies cache
    ensures ComparisonOutcome(old(cache.entries), cache.entries, zipCode, upstream, now, r, upstreamCalled)
  {
    var cacheKey := CacheKey(zipCode);
    var cached := cache.Get(cacheKey, now);
    if cached.Some? {
      return cached.value.(cached := true), false;
    }
    var azure := FetchAzureMapsWeather(zipCode, upstream, now);
    var services := AssembleServices(zipCode, azure);
    r := ComparisonResult(zipCode, services, now, false);
    cache.Put(cacheKey, r, now);
    upstreamCalled := true;
  }

  // ---------------------------------------------------------------------------
  // GET /api/weather

  /** The search parameters; None when the parameter is absent. */
  datatype Query = Query(zipCode: Option<string>, service: Option<string>, kind: Option<string>)

  datatype Body =
    | ErrorBody(error: string)
    | FailureBody(error: string, details: string)
    | WeatherBody(weather: NormalizedWeather)
    | ComparisonBody(comparison: ComparisonResult)

  datatype Response = Response(status: int, body: Body)

  const ZipRequiredMessage := "ZIP code is required"
  const InvalidZipMessage := "Invalid ZIP code format"
  const UnsupportedServiceMessage := "Unsupported weather service"
  const FetchFailedMessage := "Failed to fetch weather data"

  /** What GET does once its parameters are read: answer 400 straight away, or run one of the two fetches. */
  datatype Plan = Reject(message: string) | CompareAll(zipCode: string) | FetchCurrent(zipCode: string)

  /** `searchParams.get(name) || fallback`. */
  function ParamOr(v: Option<string>, fallback: string): string
  {
    if Truthy(v) then v.value else fallback
  }

  /** The checks and the dispatch at the top of GET, all made before any fetch. */
  function PlanRequest(q: Query): (p: Plan)
    ensures !Truthy(q.zipCode) ==> p == Reject(ZipRequiredMessage)
    ensures Truthy(q.zipCode) && !IsValidZipCode(q.zipCode.value) ==> p == Reject(InvalidZipMessage)
    ensures !p.Reject? ==> Truthy(q.zipCode) && p.zipCode == q.zipCode.value && IsValidZipCode(p.zipCode)
    ensures p.CompareAll? <==> Truthy(q.zipCode) && IsValidZipCode(q.zipCode.value) && ParamOr(q.kind, "current") == "comparison"
    ensures p.FetchCurrent? <==>
      (Truthy(q.zipCode) && IsValidZipCode(q.zipCode.value)
       && ParamOr(q.kind, "current") != "comparison" && ParamOr(q.service, "azure") == "azure")
    ensures p.Reject? ==> p.message in {ZipRequiredMessage, InvalidZipMessage, UnsupportedServiceMessage}
    ensures (Truthy(q.zipCode) && IsValidZipCode(q.zipCode.value) && ParamOr(q.kind, "current") != "comparison"
             && ParamOr(q.service, "azure") != "azure") ==> p == Reject(UnsupportedServiceMessage)
  {
    var service := ParamOr(q.service, "azure");
    var kind := ParamOr(q.kind, "current");
    if !Truthy(q.zipCode) then Reject(ZipRequiredMessage)
    else if !IsValidZipCode(q.zipCode.value) then Reject(InvalidZipMessage)
    else if kind == "comparison" then CompareAll(q.zipCode.value)
    else if service == "azure" then FetchCurrent(q.zipCode.value)
    else Reject(UnsupportedServiceMessage)
  }

  /** A ZIP code that does not match the pattern is answered with 400, whatever the other parameters say. */
  lemma InvalidZipAlwaysRejected(zipCode: string, service: Option<string>, kind: Option<string>)
    requires !IsValidZipCode(zipCode)
    ensures PlanRequest(Query(Some(zipCode), service, kind)).Reject?
  {
  }

  /** GET: validation first; the comparison path goes through the cache, the single-service path never does. */
  method Get(cache: ServerCache.Cache<ComparisonResult>, q: Query, upstream: Upstream, now: int)
    returns (response: Response, upstreamCalled: bool)
    modifies cache
    ensures PlanRequest(q).Reject? ==>
      response == Response(400, ErrorBody(PlanRequest(q).message)) && !upstreamCalled && cache.entries == old(cache.entries)
    ensures PlanRequest(q).FetchCurrent? ==>
      && upstreamCalled && cache.entries == old(cache.entries)
      && response == (match FetchAzureMapsWeather(PlanRequest(q).zipCode, upstream, now)
                      case Ok(w) => Response(200, WeatherBody(w))
                      case Err(m) => Response(500, FailureBody(FetchFailedMessage, m)))
    ensures PlanRequest(q).CompareAll? ==>
      && response.status == 200 && response.body.ComparisonBody?
      && ComparisonOutcome(old(cache.entries), cache.entries, PlanRequest(q).zipCode, upstream, now,
                           response.body.comparison, upstreamCalled)
  {
    var plan := PlanRequest(q);
    match plan {
      case Reject(message) =>
        response, upstreamCalled := Response(400, ErrorBody(message)), false;
      case CompareAll(zipCode) =>
        var data;
        data, upstreamCalled := FetchComparisonWeatherData(cache, zipCode, upstream, now);
        response := Response(200, ComparisonBody(data));
      case FetchCurrent(zipCode) =>
        upstreamCalled := true;
        match FetchAzureMapsWeather(zipCode, upstream, now) {
          case Ok(data) => response := Response(200, WeatherBody(data));
          case Err(message) => response := Response(500, FailureBody(FetchFailedMessage, message));
        }
    }
  }

  // ---------------------------------------------------------------------------
  // Properties of the comparison

  /** A comparison always lists the four providers in the declared order, Azure Maps first. */
  lemma {:induction false} ComparisonListsFourProviders(services: seq<ServiceEntry>, zipCode: string, azure: Result<NormalizedWeather, string>)
    requires ServicesFor(services, zipCode, azure)
    ensures |services| == 4
    ensures services[0].source == "AzureMaps" && services[1].source == "OpenMeteo"
    ensures services[2].source == "Foreca" && services[3].source == "GoogleWeather"
    ensures services[0].IsError() <==> azure.Err?
    ensures forall i :: 1 <= i < 4 ==> services[i].IsError() && services[i].errorMessage == NotImplementedMessage
    ensures forall i :: 0 <= i < 4 && services[i].IsError() ==> services[i].zipCode == zipCode
  {
    assert services[1] == Unavailable(Providers[1], NotImplementedMessage, zipCode);
  }

  /**
   * A comparison that went upstream, followed within 15 minutes by another for the same ZIP code:
   * the second is the first one's result tagged `cached: true`, and makes no upstream call.
   */
  lemma {:induction false} SecondComparisonServedFromCache(
    m0: map<string, ServerCache.Entry<ComparisonResult>>, m1: map<string, ServerCache.Entry<ComparisonResult>>,
    m2: map<string, ServerCache.Entry<ComparisonResult>>, zipCode: string, up1: Upstream, up2: Upstream,
    t1: int, t2: int, r1: ComparisonResult, r2: ComparisonResult, called2: bool)
    requires ComparisonOutcome(m0, m1, zipCode, up1, t1, r1, true)
    requires ComparisonOutcome(m1, m2, zipCode, up2, t2, r2, called2)
    requires t1 <= t2 <= t1 + ServerCache.CacheDuration
    ensures r2.cached && !called2 && m2 == m1
    ensures r2 == r1.(cached := true)
  {
    ServerCache.StoreEffect(m0, CacheKey(zipCode), r1, t1, ServerCache.CacheDuration);
  }

  /** The route stores comparisons with the 15-minute default: the 30-minute constant is never the stored maximum age. */
  lemma {:induction false} ComparisonCachedForFifteenMinutes(
    before: map<string, ServerCache.Entry<ComparisonResult>>, after: map<string, ServerCache.Entry<ComparisonResult>>,
    zipCode: string, upstream: Upstream, now: int, r: ComparisonResult)
    requires ComparisonOutcome(before, after, zipCode, upstream, now, r, true)
    ensures CacheKey(zipCode) in after
    ensures after[CacheKey(zipCode)] == ServerCache.Entry(r, now, ServerCache.CacheDuration)
    ensures after[CacheKey(zipCode)].maxAge != ServerCache.GoogleWeatherCacheDuration
  {
    ServerCache.StoreEffect(before, CacheKey(zipCode), r, now, ServerCache.CacheDuration);
  }
}
