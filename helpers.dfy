/**
 * The utility functions of the app (src/utils/helpers.ts): ZIP-code validation,
 * "time ago" bucketing, word capitalisation and the null handling and rounding of
 * the value formatters.  Also JavaScript's String.prototype.trim and the ASCII
 * case mapping, which several components rely on.
 */
module Helpers {
  import opened Wrappers

  // ---------------------------------------------------------------------------
  // Characters

  /** `\d` in a JavaScript regular expression without the `u` flag. */
  predicate IsDigit(c: char)
  {
    '0' <= c <= '9'
  }

  /** `\w`: ASCII letters, digits and underscore. */
  predicate IsWordChar(c: char)
  {
    'a' <= c <= 'z' || 'A' <= c <= 'Z' || IsDigit(c) || c == '_'
  }

  /** What String.prototype.trim strips: ECMAScript WhiteSpace and LineTerminator code points. */
  predicate IsWhitespace(c: char)
  {
    c == '\t' || c == '\n' || c == '\U{000B}' || c == '\U{000C}' || c == '\r' || c == ' '
    || c == '\U{00A0}' || c == '\U{1680}' || ('\U{2000}' <= c <= '\U{200A}')
    || c == '\U{2028}' || c == '\U{2029}' || c == '\U{202F}' || c == '\U{205F}'
    || c == '\U{3000}' || c == '\U{FEFF}'
  }

  /** toUpperCase on a character, for the ASCII range (the only letters `\w` can match). */
  function ToUpper(c: char): (u: char)
    ensures 'a' <= c <= 'z' ==> 'A' <= u <= 'Z' && u as int == c as int - 32
    ensures !('a' <= c <= 'z') ==> u == c
  {
    if 'a' <= c <= 'z' then (c as int - 32) as char else c
  }

  function ToUpperString(s: string): (r: string)
    ensures |r| == |s|
    ensures forall i :: 0 <= i < |s| ==> r[i] == ToUpper(s[i])
  {
    if s == [] then [] else [ToUpper(s[0])] + ToUpperString(s[1..])
  }

  /** An optional string that JavaScript's `||` and `!` treat as true: present and not empty. */
  predicate Truthy(s: Option<string>)
  {
    s.Some? && s.value != ""
  }

  // ---------------------------------------------------------------------------
  // String.prototype.trim

  function TrimStart(s: string): (r: string)
    ensures |r| <= |s| && r == s[|s| - |r|..]
    ensures forall i :: 0 <= i < |s| - |r| ==> IsWhitespace(s[i])
    ensures r == [] || !IsWhitespace(r[0])
  {
    if s != [] && IsWhitespace(s[0]) then TrimStart(s[1..]) else s
  }

  function TrimEnd(s: string): (r: string)
    ensures |r| <= |s| && r == s[..|r|]
    ensures forall i :: |r| <= i < |s| ==> IsWhitespace(s[i])
    ensures r == [] || !IsWhitespace(r[|r| - 1])
  {
    if s != [] && IsWhitespace(s[|s| - 1]) then TrimEnd(s[..|s| - 1]) else s
  }

  function Trim(s: string): string
  {
    TrimEnd(TrimStart(s))
  }

  /** A trimmed string is blank exactly when every character of the input is whitespace. */
  lemma TrimBlank(s: string)
    ensures Trim(s) == [] <==> forall i :: 0 <= i < |s| ==> IsWhitespace(s[i])
  {
  }

  /** Trimming a string that neither starts nor ends with whitespace changes nothing. */
  lemma TrimNoop(s: string)
    requires s == [] || (!IsWhitespace(s[0]) && !IsWhitespace(s[|s| - 1]))
    ensures Trim(s) == s
  {
  }

  // ---------------------------------------------------------------------------
  // isValidZipCode: /^\d{5}(-\d{4})?$/

  /** Matches `\d{n}` at the start of `s`, giving what follows the match. */
  function MatchDigits(s: string, n: nat): (rest: Option<string>)
    ensures rest.Some? <==> n <= |s| && forall i :: 0 <= i < n ==> IsDigit(s[i])
    ensures rest.Some? ==> rest.value == s[n..]
  {
    if n == 0 then Some(s)
    else if s != [] && IsDigit(s[0]) then MatchDigits(s[1..], n - 1)
    else None
  }

  /** The anchored pattern `^\d{5}(-\d{4})?$`, matched left to right. */
  predicate IsValidZipCode(s: string)
  {
    match MatchDigits(s, 5)
    case None => false
    case Some(rest) =>
      rest == [] || (rest[0] == '-' && MatchDigits(rest[1..], 4) == Some([]))
  }

  predicate AllDigits(s: string)
  {
    forall i :: 0 <= i < |s| ==> IsDigit(s[i])
  }

  /** The shape of a valid ZIP code: five digits, or five digits, a dash and four digits. */
  lemma {:induction false} ZipCodeShape(s: string)
    ensures IsValidZipCode(s) <==>
      (|s| == 5 && AllDigits(s)) || (|s| == 10 && AllDigits(s[..5]) && s[5] == '-' && AllDigits(s[6..]))
  {
    if |s| == 10 && AllDigits(s[..5]) && s[5] == '-' && AllDigits(s[6..]) {
      var rest := s[5..];
      assert MatchDigits(s, 5) == Some(rest);
      assert rest[1..] == s[6..];
      assert MatchDigits(rest[1..], 4) == Some([]);
    }
    if IsValidZipCode(s) && |s| != 5 {
      var rest := s[5..];
      assert rest[1..] == s[6..];
      assert s[..5] == s[..5];
      assert forall i :: 0 <= i < 5 ==> s[..5][i] == s[i];
    }
  }

  /** A valid ZIP code has length 5 or 10 and no whitespace, so trimming keeps it as it is. */
  lemma ValidZipCodeIsTrimmed(s: string)
    requires IsValidZipCode(s)
    ensures |s| == 5 || |s| == 10
    ensures Trim(s) == s
  {
    ZipCodeShape(s);
    assert IsDigit(s[0]) && IsDigit(s[|s| - 1]);
    TrimNoop(s);
  }

  // ---------------------------------------------------------------------------
  // formatTimeAgo

  const MsPerMinute: int := 1000 * 60
  const MsPerHour: int := 60 * MsPerMinute
  const MsPerDay: int := 24 * MsPerHour

  datatype TimeAgo = JustNow | MinutesAgo(minutes: int) | HoursAgo(hours: int) | DaysAgo(days: int)

  /**
   * The bucket for an elapsed time of `diffMs` milliseconds: whole minutes are
   * floor(diffMs / 60000) (Math.floor), hours are whole minutes / 60, days hours / 24.
   */
  function TimeAgoBucket(diffMs: int): TimeAgo
  {
    var diffMinutes := diffMs / MsPerMinute;
    if diffMinutes < 1 then JustNow
    else if diffMinutes < 60 then MinutesAgo(diffMinutes)
    else
      var diffHours := diffMinutes / 60;
      if diffHours < 24 then HoursAgo(diffHours)
      else DaysAgo(diffHours / 24)
  }

  lemma MinutesToHours(x: int)
    ensures (x / MsPerMinute) / 60 == x / MsPerHour
  {
  }

  lemma HoursToDays(x: int)
    ensures (x / MsPerHour) / 24 == x / MsPerDay
  {
  }

  /** Each bucket covers exactly the elapsed times the source's if-chain sends to it. */
  lemma {:induction false} TimeAgoBuckets(diffMs: int)
    ensures TimeAgoBucket(diffMs).JustNow? <==> diffMs < MsPerMinute
    ensures TimeAgoBucket(diffMs).MinutesAgo? <==> MsPerMinute <= diffMs < MsPerHour
    ensures TimeAgoBucket(diffMs).HoursAgo? <==> MsPerHour <= diffMs < MsPerDay
    ensures TimeAgoBucket(diffMs).DaysAgo? <==> MsPerDay <= diffMs
    ensures TimeAgoBucket(diffMs) == MinutesAgo(diffMs / MsPerMinute) || !TimeAgoBucket(diffMs).MinutesAgo?
    ensures TimeAgoBucket(diffMs) == HoursAgo(diffMs / MsPerHour) || !TimeAgoBucket(diffMs).HoursAgo?
    ensures TimeAgoBucket(diffMs) == DaysAgo(diffMs / MsPerDay) || !TimeAgoBucket(diffMs).DaysAgo?
    ensures match TimeAgoBucket(diffMs)
      case JustNow => true
      case MinutesAgo(m) => 1 <= m < 60
      case HoursAgo(h) => 1 <= h < 24
      case DaysAgo(d) => d >= 1
  {
    MinutesToHours(diffMs);
    HoursToDays(diffMs);
  }

  function DigitChar(d: int): char
    requires 0 <= d < 10
  {
    ('0' as int + d) as char
  }

  /** The decimal notation of a natural number, as template-literal interpolation prints it. */
  function NatToString(n: nat): (s: string)
    ensures |s| > 0 && AllDigits(s)
  {
    if n < 10 then [DigitChar(n)] else NatToString(n / 10) + [DigitChar(n % 10)]
  }

  function TimeAgoText(t: TimeAgo): string
  {
    match t
    case JustNow => "Just now"
    case MinutesAgo(m) => (if m >= 0 then NatToString(m) else "") + "m ago"
    case HoursAgo(h) => (if h >= 0 then NatToString(h) else "") + "h ago"
    case DaysAgo(d) => (if d >= 0 then NatToString(d) else "") + "d ago"
  }

  /**
   * formatTimeAgo: `date` is the timestamp in milliseconds (None for a missing or empty
   * date), `now` the clock reading.
   */
  function FormatTimeAgo(date: Option<int>, now: int): (r: string)
    ensures r == "N/A" <==> date.None?
    ensures date.Some? && now - date.value < MsPerMinute ==> r == "Just now"
    ensures date.Some? && MsPerMinute <= now - date.value < MsPerHour ==>
      r == NatToString((now - date.value) / MsPerMinute) + "m ago"
    ensures date.Some? && MsPerHour <= now - date.value < MsPerDay ==>
      r == NatToString((now - date.value) / MsPerHour) + "h ago"
    ensures date.Some? && MsPerDay <= now - date.value ==>
      r == NatToString((now - date.value) / MsPerDay) + "d ago"
  {
    match date
    case None => "N/A"
    case Some(t) =>
      TimeAgoBuckets(now - t);
      var text := TimeAgoText(TimeAgoBucket(now - t));
      assert text != "N/A" by {
        if text != "Just now" {
          assert text[|text| - 1] == 'o';
        }
      }
      text
  }

  // ---------------------------------------------------------------------------
  // capitalizeWords: str.replace(/\b\w/g, char => char.toUpperCase())

  /** `\b\w` matches at `i`: a word character at the start or after a non-word character. */
  predicate StartsWord(s: string, i: int)
    requires 0 <= i < |s|
  {
    IsWordChar(s[i]) && (i == 0 || !IsWordChar(s[i - 1]))
  }

  /** One left-to-right pass of the global replace; `afterWord` says whether the previous character was a word character. */
  function CapitalizeFrom(s: string, afterWord: bool): (r: string)
    ensures |r| == |s|
    ensures |s| > 0 ==> r[0] == if IsWordChar(s[0]) && !afterWord then ToUpper(s[0]) else s[0]
    ensures forall i :: 0 < i < |s| ==> r[i] == if StartsWord(s, i) then ToUpper(s[i]) else s[i]
  {
    if s == [] then []
    else
      var rest := CapitalizeFrom(s[1..], IsWordChar(s[0]));
      var r := [if IsWordChar(s[0]) && !afterWord then ToUpper(s[0]) else s[0]] + rest;
      assert forall i :: 0 < i < |s| ==> r[i] == rest[i - 1] && (i == 1 || StartsWord(s[1..], i - 1) == StartsWord(s, i));
      r
  }

  /** capitalizeWords: null, undefined and '' give ''. */
  function CapitalizeWords(str: Option<string>): (r: string)
    ensures str.None? ==> r == ""
    ensures str.Some? ==> |r| == |str.value|
    ensures str.Some? ==> forall i :: 0 <= i < |r| ==>
      r[i] == if StartsWord(str.value, i) then ToUpper(str.value[i]) else str.value[i]
  {
    match str
    case None => ""
    case Some(s) => if s == "" then "" else CapitalizeFrom(s, false)
  }

  /** Capitalising twice gives the same string as capitalising once. */
  lemma CapitalizeWordsIdempotent(s: string)
    ensures CapitalizeWords(Some(CapitalizeWords(Some(s)))) == CapitalizeWords(Some(s))
  {
    var once := CapitalizeWords(Some(s));
    var twice := CapitalizeWords(Some(once));
    forall i | 0 <= i < |s|
      ensures twice[i] == once[i]
    {
      assert IsWordChar(once[i]) == IsWordChar(s[i]);
      if i > 0 {
        assert IsWordChar(once[i - 1]) == IsWordChar(s[i - 1]);
      }
    }
  }

  // ---------------------------------------------------------------------------
  // The value formatters

  /** Math.round: the nearest integer, halves rounded up. */
  function Round(x: real): (n: int)
    ensures x - 0.5 < n as real <= x + 0.5
  {
    (x + 0.5).Floor
  }

  /** A formatted reading: 'N/A', or a number followed by its unit text. */
  datatype Formatted = NotAvailable | Quantity(value: real, suffix: string)
  {
    predicate IsWhole()
    {
      Quantity? && value == value.Floor as real
    }
  }

  /** formatTemperature: `${Math.round(temp)}°${unit}`. */
  function FormatTemperature(temp: Option<real>, unit: string := "F"): (r: Formatted)
    ensures r.NotAvailable? <==> temp.None?
    ensures temp.Some? ==> r.IsWhole() && temp.value - 0.5 < r.value <= temp.value + 0.5
    ensures temp.Some? ==> r.suffix == "°" + unit
  {
    match temp
    case None => NotAvailable
    case Some(t) => Quantity(Round(t) as real, "°" + unit)
  }

  /** formatWindSpeed: `${Math.round(speed)} ${unit}`. */
  function FormatWindSpeed(speed: Option<real>, unit: string := "mph"): (r: Formatted)
    ensures r.NotAvailable? <==> speed.None?
    ensures speed.Some? ==> r.IsWhole() && speed.value - 0.5 < r.value <= speed.value + 0.5
    ensures speed.Some? ==> r.suffix == " " + unit
  {
    match speed
    case None => NotAvailable
    case Some(v) => Quantity(Round(v) as real, " " + unit)
  }

  /** formatProbability: values above 1 are read as percentages, the others as fractions. */
  function FormatProbability(probability: Option<real>): (r: Formatted)
    ensures r.NotAvailable? <==> probability.None?
    ensures probability.Some? ==> r.IsWhole() && r.suffix == "%"
    ensures probability.Some? && probability.value > 1.0 ==>
      probability.value - 0.5 < r.value <= probability.value + 0.5
    ensures probability.Some? && probability.value <= 1.0 ==>
      probability.value * 100.0 - 0.5 < r.value <= probability.value * 100.0 + 0.5
    ensures probability.Some? && 0.0 <= probability.value <= 100.0 ==> 0.0 <= r.value <= 100.0
  {
    match probability
    case None => NotAvailable
    case Some(p) =>
      var percent := if p > 1.0 then p else p * 100.0;
      Quantity(Round(percent) as real, "%")
  }

  /** formatPressure: rounded to two decimal places. */
  function FormatPressure(pressure: Option<real>, unit: string := "inHg"): (r: Formatted)
    ensures r.NotAvailable? <==> pressure.None?
    ensures pressure.Some? ==> pressure.value - 0.005 < r.value <= pressure.value + 0.005
    ensures pressure.Some? ==> r.suffix == " " + unit
  {
    match pressure
    case None => NotAvailable
    case Some(p) => Quantity(Round(p * 100.0) as real / 100.0, " " + unit)
  }

  /** formatVisibility: rounded to one decimal place. */
  function FormatVisibility(visibility: Option<real>, unit: string := "mi"): (r: Formatted)
    ensures r.NotAvailable? <==> visibility.None?
    ensures visibility.Some? ==> visibility.value - 0.05 < r.value <= visibility.value + 0.05
    ensures visibility.Some? ==> r.suffix == " " + unit
  {
    match visibility
    case None => NotAvailable
    case Some(v) => Quantity(Round(v * 10.0) as real / 10.0, " " + unit)
  }
}
