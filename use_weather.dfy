/**
 * The pure parts of the weather hook (src/hooks/useWeather.ts): the most-recently-used
 * list of ZIP codes kept by saveRecentZipCode, and the input checks at the top of
 * fetchWeatherData and fetchTripleWeatherData together with the request they issue.
 * The list is passed in and out as a sequence; browser storage is not modelled.
 */
module UseWeather {
  import opened Wrappers
  import opened Helpers
  import WeatherRoute

  /** MAX_RECENT_ZIP_CODES */
  const MaxRecentZipCodes: nat := 5

  /** `recent.filter(code => code !== zipCode)` */
  function RemoveCode(recent: seq<string>, zipCode: string): (r: seq<string>)
    ensures |r| <= |recent|
    ensures forall c :: c in r <==> c in recent && c != zipCode
    ensures multiset(r) == multiset(recent)[zipCode := 0]
  {
    if recent == [] then []
    else
      assert recent == [recent[0]] + recent[1..];
      if recent[0] == zipCode then RemoveCode(recent[1..], zipCode)
    else [recent[0]] + RemoveCode(recent[1..], zipCode)
  }

  /** The filter distributes over concatenation, so it keeps the order of the codes it keeps. */
  lemma {:induction false} RemoveCodeAppend(a: seq<string>, b: seq<string>, zipCode: string)
    ensures RemoveCode(a + b, zipCode) == RemoveCode(a, zipCode) + RemoveCode(b, zipCode)
  {
    if a == [] {
      assert a + b == b;
    } else {
      assert (a + b)[0] == a[0];
      assert (a + b)[1..] == a[1..] + b;
      RemoveCodeAppend(a[1..], b, zipCode);
    }
  }

  /** A one-code list loses its code exactly when it is the saved one. */
  lemma RemoveCodeOfOne(code: string, zipCode: string)
    ensures code == zipCode ==> RemoveCode([code], zipCode) == []
    ensures code != zipCode ==> RemoveCode([code], zipCode) == [code]
  {
  }

  /** `s.slice(0, n)`: at most the first n elements. */
  function Take<T>(s: seq<T>, n: nat): (r: seq<T>)
    ensures |r| == if |s| <= n then |s| else n
    ensures r == s[..|r|]
    ensures forall x :: x in r ==> x in s
  {
    if |s| <= n then s else s[..n]
  }

  /** saveRecentZipCode: a falsy code changes nothing; otherwise move it to the front and keep five. */
  function SaveRecentZipCode(recent: seq<string>, zipCode: string): seq<string>
  {
    if zipCode == "" then recent
    else Take([zipCode] + RemoveCode(recent, zipCode), MaxRecentZipCodes)
  }

  function Count(s: seq<string>, x: string): nat
  {
    if s == [] then 0 else (if s[0] == x then 1 else 0) + Count(s[1..], x)
  }

  predicate NoDuplicates(s: seq<string>)
  {
    forall i, j :: 0 <= i < j < |s| ==> s[i] != s[j]
  }

  lemma {:induction false} CountAbsent(s: seq<string>, x: string)
    requires x !in s
    ensures Count(s, x) == 0
  {
    if s != [] {
      CountAbsent(s[1..], x);
    }
  }

  /** Filtering out a code that is not in the list gives the list back. */
  lemma {:induction false} RemoveAbsent(recent: seq<string>, zipCode: string)
    requires zipCode !in recent
    ensures RemoveCode(recent, zipCode) == recent
  {
    if recent != [] {
      RemoveAbsent(recent[1..], zipCode);
    }
  }

  /** Filtering keeps the order and never introduces a repeat. */
  lemma {:induction false} RemoveKeepsNoDuplicates(recent: seq<string>, zipCode: string)
    requires NoDuplicates(recent)
    ensures NoDuplicates(RemoveCode(recent, zipCode))
  {
    if recent != [] {
      RemoveKeepsNoDuplicates(recent[1..], zipCode);
      var rest := RemoveCode(recent[1..], zipCode);
      if recent[0] != zipCode {
        assert recent[0] !in rest;
      }
    }
  }

  /** After saving a code it is first, and the list holds between one and five codes. */
  lemma SaveRecentPutsCodeFirst(recent: seq<string>, zipCode: string)
    requires zipCode != ""
    ensures var r := SaveRecentZipCode(recent, zipCode);
      1 <= |r| <= MaxRecentZipCodes && r[0] == zipCode
  {
  }

  /** The saved code occurs exactly once in the new list. */
  lemma {:induction false} SaveRecentCodeOnce(recent: seq<string>, zipCode: string)
    requires zipCode != ""
    ensures Count(SaveRecentZipCode(recent, zipCode), zipCode) == 1
  {
    var r := SaveRecentZipCode(recent, zipCode);
    assert r[1..] == Take(RemoveCode(recent, zipCode), MaxRecentZipCodes - 1);
    assert zipCode !in r[1..];
    CountAbsent(r[1..], zipCode);
  }

  /**
   * Saving moves the code to the front: whether or not it was already in the list, the new list is
   * the code followed by the other codes in their old order, cut to five.
   */
  lemma {:induction false} SaveRecentMovesToFront(before: seq<string>, after: seq<string>, zipCode: string)
    requires zipCode != "" && zipCode !in before && zipCode !in after
    ensures SaveRecentZipCode(before + [zipCode] + after, zipCode) == Take([zipCode] + before + after, MaxRecentZipCodes)
    ensures SaveRecentZipCode(before + after, zipCode) == Take([zipCode] + before + after, MaxRecentZipCodes)
  {
    assert zipCode !in before + after;
    RemoveAbsent(before + after, zipCode);
    RemoveOnlyOccurrence(before, after, zipCode);
    assert [zipCode] + before + after == [zipCode] + (before + after);
  }

  /** Filtering out a code that occurs once removes just that occurrence. */
  lemma {:induction false} RemoveOnlyOccurrence(before: seq<string>, after: seq<string>, zipCode: string)
    requires zipCode !in before && zipCode !in after
    ensures RemoveCode(before + [zipCode] + after, zipCode) == before + after
  {
    assert RemoveCode(before + [zipCode], zipCode) == before by {
      RemoveCodeAppend(before, [zipCode], zipCode);
      RemoveCodeOfOne(zipCode, zipCode);
      RemoveAbsent(before, zipCode);
    }
    assert RemoveCode(after, zipCode) == after by {
      RemoveAbsent(after, zipCode);
    }
    RemoveCodeAppend(before + [zipCode], after, zipCode);
  }

  /** Saving the same code twice in a row gives the same list as saving it once. */
  lemma {:induction false} SaveRecentIdempotent(recent: seq<string>, zipCode: string)
    ensures SaveRecentZipCode(SaveRecentZipCode(recent, zipCode), zipCode) == SaveRecentZipCode(recent, zipCode)
  {
    if zipCode != "" {
      var once := SaveRecentZipCode(recent, zipCode);
      var tail := Take(RemoveCode(recent, zipCode), MaxRecentZipCodes - 1);
      assert once == [zipCode] + tail;
      assert zipCode !in tail;
      assert RemoveCode(once, zipCode) == RemoveCode(tail, zipCode);
      RemoveAbsent(tail, zipCode);
    }
  }

  /** Saving an empty code leaves the list unchanged. */
  lemma SaveRecentEmptyCode(recent: seq<string>)
    ensures SaveRecentZipCode(recent, "") == recent
  {
  }

  /** A list without repeats stays without repeats. */
  lemma {:induction false} SaveRecentKeepsNoDuplicates(recent: seq<string>, zipCode: string)
    requires NoDuplicates(recent)
    ensures NoDuplicates(SaveRecentZipCode(recent, zipCode))
  {
    if zipCode != "" {
      RemoveKeepsNoDuplicates(recent, zipCode);
      var filtered := RemoveCode(recent, zipCode);
      var r := SaveRecentZipCode(recent, zipCode);
      assert r == Take([zipCode] + filtered, MaxRecentZipCodes);
      forall i, j | 0 <= i < j < |r|
        ensures r[i] != r[j]
      {
        if i == 0 {
          assert r[j] == filtered[j - 1];
          assert r[j] in filtered;
        } else {
          assert r[i] == filtered[i - 1] && r[j] == filtered[j - 1];
        }
      }
    }
  }

  /** A list of valid ZIP codes stays a list of valid ZIP codes when a valid code is saved. */
  lemma SaveRecentKeepsValidCodes(recent: seq<string>, zipCode: string)
    requires forall c :: c in recent ==> IsValidZipCode(c)
    requires IsValidZipCode(zipCode)
    ensures forall c :: c in SaveRecentZipCode(recent, zipCode) ==> IsValidZipCode(c)
  {
    var r := SaveRecentZipCode(recent, zipCode);
    forall c | c in r
      ensures IsValidZipCode(c)
    {
      var i :| 0 <= i < |r| && r[i] == c;
      if i > 0 {
        assert c in RemoveCode(recent, zipCode);
      }
    }
  }

  // ---------------------------------------------------------------------------
  // Input checks of fetchWeatherData and fetchTripleWeatherData

  const BlankMessage := "Please enter a ZIP code"
  const InvalidMessage := "Please enter a valid ZIP code (e.g., 12345 or 12345-6789)"

  /** Either the error the hook sets (and no request), or the query it sends to /api/weather. */
  datatype FetchStart = Refused(error: string) | Requested(query: WeatherRoute.Query)

  /** fetchWeatherData: blank or malformed input is refused; otherwise the trimmed code is requested. */
  function StartFetchWeather(zip: string, service: string := "azure"): (r: FetchStart)
    ensures Trim(zip) == "" ==> r == Refused(BlankMessage)
    ensures Trim(zip) != "" && !IsValidZipCode(Trim(zip)) ==> r == Refused(InvalidMessage)
    ensures r.Requested? <==> IsValidZipCode(Trim(zip))
    ensures r.Requested? ==> r.query == WeatherRoute.Query(Some(Trim(zip)), Some(service), None)
  {
    if Trim(zip) == "" then Refused(BlankMessage)
    else if !IsValidZipCode(Trim(zip)) then Refused(InvalidMessage)
    else Requested(WeatherRoute.Query(Some(Trim(zip)), Some(service), None))
  }

  /** fetchTripleWeatherData: only blank input is refused; the trimmed code is not checked against the pattern. */
  function StartFetchTriple(zip: string): (r: FetchStart)
    ensures r.Refused? <==> Trim(zip) == ""
    ensures r.Refused? ==> r.error == BlankMessage
    ensures r.Requested? ==> r.query == WeatherRoute.Query(Some(Trim(zip)), None, Some("comparison"))
  {
    if Trim(zip) == "" then Refused(BlankMessage)
    else Requested(WeatherRoute.Query(Some(Trim(zip)), None, Some("comparison")))
  }

  /** A request fetchWeatherData issues for the 'azure' service passes the route's checks and takes its single-service path. */
  lemma {:induction false} FetchWeatherRequestAccepted(zip: string)
    requires StartFetchWeather(zip).Requested?
    ensures WeatherRoute.PlanRequest(StartFetchWeather(zip).query) == WeatherRoute.FetchCurrent(Trim(zip))
  {
    var t := Trim(zip);
    assert StartFetchWeather(zip).query == WeatherRoute.Query(Some(t), Some("azure"), None);
    ValidCodePlan(t, "azure");
  }

  /** A request fetchWeatherData issues for any other service is answered 400 'Unsupported weather service'. */
  lemma {:induction false} FetchWeatherOtherServiceRejected(zip: string, service: string)
    requires StartFetchWeather(zip, service).Requested?
    requires service != "" && service != "azure"
    ensures WeatherRoute.PlanRequest(StartFetchWeather(zip, service).query) == WeatherRoute.Reject(WeatherRoute.UnsupportedServiceMessage)
  {
    var t := Trim(zip);
    assert StartFetchWeather(zip, service).query == WeatherRoute.Query(Some(t), Some(service), None);
    ValidCodePlan(t, service);
  }

  /** How the route plans a current-conditions query for a valid code. */
  lemma ValidCodePlan(t: string, service: string)
    requires IsValidZipCode(t)
    ensures service == "azure" ==> WeatherRoute.PlanRequest(WeatherRoute.Query(Some(t), Some(service), None)) == WeatherRoute.FetchCurrent(t)
    ensures service != "" && service != "azure" ==>
      WeatherRoute.PlanRequest(WeatherRoute.Query(Some(t), Some(service), None)) == WeatherRoute.Reject(WeatherRoute.UnsupportedServiceMessage)
  {
    assert t != "";
  }

  /**
   * The triple fetch leaves the pattern check to the route: a malformed code that fetchWeatherData
   * refuses is sent on by fetchTripleWeatherData and comes back 400 'Invalid ZIP code format'.
   */
  lemma {:induction false} TripleFetchLeavesCheckToRoute(zip: string)
    requires Trim(zip) != "" && !IsValidZipCode(Trim(zip))
    ensures StartFetchWeather(zip) == Refused(InvalidMessage)
    ensures StartFetchTriple(zip).Requested?
    ensures WeatherRoute.PlanRequest(StartFetchTriple(zip).query) == WeatherRoute.Reject(WeatherRoute.InvalidZipMessage)
  {
    var t := Trim(zip);
    assert StartFetchTriple(zip).query == WeatherRoute.Query(Some(t), None, Some("comparison"));
    WeatherRoute.InvalidZipAlwaysRejected(t, None, Some("comparison"));
  }
}
