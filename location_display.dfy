/**
 * What the location header shows (src/components/LocationDisplay.tsx): nothing but
 * 'Location unavailable' without a location; the ZIP line or 'Location information
 * incomplete' when neither city nor state is present; otherwise "city, state" followed
 * by the ZIP code (when shown) and the country in capitals when it is not the US.
 */
module LocationDisplay {
  import opened Wrappers
  import opened Helpers
  import opened WeatherSources

  datatype LocationView =
    | Unavailable                                        // 'Location unavailable'
    | Incomplete(zip: Option<string>)                    // 'ZIP Code: <zip>', or 'Location information incomplete'
    | Located(main: string, zip: Option<string>, country: Option<string>)

  /** `parts.join(sep)` */
  function Join(parts: seq<string>, sep: string): (r: string)
    ensures (forall i :: 0 <= i < |parts| ==> parts[i] != "") ==> (r == "" <==> parts == [])
    ensures |parts| == 1 ==> r == parts[0]
  {
    if parts == [] then ""
    else if |parts| == 1 then parts[0]
    else parts[0] + sep + Join(parts[1..], sep)
  }

  /** The city and the state, each pushed when truthy. */
  function LocationParts(loc: LocationInfo): (parts: seq<string>)
    ensures forall i :: 0 <= i < |parts| ==> parts[i] != ""
    ensures |parts| == (if Truthy(loc.city) then 1 else 0) + (if Truthy(loc.state) then 1 else 0)
  {
    (if Truthy(loc.city) then [loc.city.value] else []) + (if Truthy(loc.state) then [loc.state.value] else [])
  }

  /** The view for a location; `showZipCode` defaults to true. */
  function ShowLocation(location: Option<LocationInfo>, showZipCode: bool := true): LocationView
  {
    match location
    case None => Unavailable
    case Some(loc) =>
      var mainLocation := Join(LocationParts(loc), ", ");
      var zip := if Truthy(loc.zipCode) && showZipCode then loc.zipCode else None;
      if mainLocation == "" then Incomplete(zip)
      else
        var country := if Truthy(loc.country) && ToUpperString(loc.country.value) != "US"
                       then Some(ToUpperString(loc.country.value)) else None;
        Located(mainLocation, zip, country)
  }

  /**
   * The main line is the present ones of city and state joined by ", "; without either the ZIP
   * line is shown exactly when a ZIP code is present and enabled; the country is shown, in
   * capitals, exactly when it is present and not 'US' in any letter case.
   */
  lemma {:induction false} LocationLine(location: Option<LocationInfo>, showZipCode: bool)
    ensures location.None? <==> ShowLocation(location, showZipCode) == Unavailable
    ensures location.Some? ==>
      var loc := location.value;
      var view := ShowLocation(location, showZipCode);
      && (view.Located? <==> Truthy(loc.city) || Truthy(loc.state))
      && (Truthy(loc.city) && Truthy(loc.state) ==> view.main == loc.city.value + ", " + loc.state.value)
      && (Truthy(loc.city) && !Truthy(loc.state) ==> view.main == loc.city.value)
      && (!Truthy(loc.city) && Truthy(loc.state) ==> view.main == loc.state.value)
      && (!view.Unavailable? ==> (view.zip.Some? <==> Truthy(loc.zipCode) && showZipCode))
      && (view.Located? ==> (view.country.Some? <==> Truthy(loc.country) && ToUpperString(loc.country.value) != "US"))
      && (!view.Unavailable? && view.zip.Some? ==> view.zip.value == loc.zipCode.value)
      && (view.Located? && view.country.Some? ==> view.country.value == ToUpperString(loc.country.value))
      && (view.Located? && view.country.Some? ==> |view.country.value| == |loc.country.value|)
  {
    if location.Some? {
      var loc := location.value;
      var parts := LocationParts(loc);
      if Truthy(loc.city) && Truthy(loc.state) {
        assert parts == [loc.city.value, loc.state.value];
        assert parts[1..] == [loc.state.value];
      }
    }
  }

  /** 'us' and 'Us' are the US too; a two-letter code such as 'ca' is shown as 'CA'. */
  lemma CountryCase()
    ensures ShowLocation(Some(LocationInfo(Some("Austin"), None, None, Some("us")))) == Located("Austin", None, None)
    ensures ShowLocation(Some(LocationInfo(Some("Toronto"), None, None, Some("ca")))) == Located("Toronto", None, Some("CA"))
  {
    assert ToUpperString("us") == "US";
    assert ToUpperString("ca") == "CA";
  }
}
