/** The weather tool (lab5.py, `get_current_weather`): the location is cut
    at its first comma and stripped, the request URL is built from it, and
    the reply becomes either a weather record or an error record.

    The HTTP call is a parameter `get` from URL to response; the response
    body is kept as a value of the caller's type `J` (the decoded JSON). */
module Weather {
  import opened Common

  // ---------------------------------------------------------------------
  // str.strip()
  // ---------------------------------------------------------------------

  /** Python's `str.isspace` for one character: the code points `strip()`
      removes when called without arguments. */
  predicate IsSpace(c: char)
  {
    var n := c as int;
    n == 0x20 || 0x09 <= n <= 0x0d || 0x1c <= n <= 0x1f || n == 0x85 || n == 0xa0
    || n == 0x1680 || 0x2000 <= n <= 0x200a || n == 0x2028 || n == 0x2029
    || n == 0x202f || n == 0x205f || n == 0x3000
  }

  /** `s.lstrip()`: the suffix left after the leading whitespace. */
  function StripStart(s: string): (r: string)
    ensures |r| <= |s| && r == s[|s| - |r|..]
    ensures forall i :: 0 <= i < |s| - |r| ==> IsSpace(s[i])
    ensures r == [] || !IsSpace(r[0])
  {
    if s != [] && IsSpace(s[0]) then StripStart(s[1..]) else s
  }

  /** `s.rstrip()`: the prefix left before the trailing whitespace. */
  function StripEnd(s: string): (r: string)
    ensures |r| <= |s| && r == s[..|r|]
    ensures forall i :: |r| <= i < |s| ==> IsSpace(s[i])
    ensures r == [] || !IsSpace(r[|r| - 1])
  {
    if s != [] && IsSpace(s[|s| - 1]) then StripEnd(s[..|s| - 1]) else s
  }

  /** `s.strip()`. */
  function Strip(s: string): (r: string)
    ensures r == [] || (!IsSpace(r[0]) && !IsSpace(r[|r| - 1]))
    ensures (s == [] || (!IsSpace(s[0]) && !IsSpace(s[|s| - 1]))) ==> r == s
  {
    var t := StripStart(s);
    StripEnd(t)
  }

  /** `strip()` keeps a contiguous middle slice of `s`: it starts where
      `lstrip()` left off, and what `rstrip()` then removes is whitespace. */
  lemma StripIsMiddle(s: string)
    ensures |s| - |StripStart(s)| + |Strip(s)| <= |s|
    ensures Strip(s) == s[|s| - |StripStart(s)|..|s| - |StripStart(s)| + |Strip(s)|]
  {
    var t := StripStart(s);
    var r := Strip(s);
    assert r == StripEnd(t);
    assert |t| <= |s| && t == s[|s| - |t|..];
    assert |r| <= |t| && r == t[..|r|];
    SliceOfSuffix(s, t, r);
  }

  /** A prefix of a suffix of `s` is a slice of `s`. */
  lemma SliceOfSuffix(s: string, t: string, r: string)
    requires |t| <= |s| && t == s[|s| - |t|..]
    requires |r| <= |t| && r == t[..|r|]
    ensures r == s[|s| - |t|..|s| - |t| + |r|]
  {
  }

  /** A character absent from `s` is absent from `s.strip()`. */
  lemma StripKeepsAbsent(s: string, c: char)
    requires c !in s
    ensures c !in Strip(s)
  {
    StripIsMiddle(s);
    var i := |s| - |StripStart(s)|;
    var r := Strip(s);
    forall k | 0 <= k < |r| ensures r[k] != c {
      assert r[k] == s[i + k];
    }
  }

  // ---------------------------------------------------------------------
  // Location normalisation (lines 18-19)
  // ---------------------------------------------------------------------

  /** Index of the first `c` in `s`, or `|s|` when there is none. */
  function FirstIndex(s: string, c: char): (k: nat)
    ensures k <= |s|
    ensures forall i :: 0 <= i < k ==> s[i] != c
    ensures k < |s| ==> s[k] == c
    ensures c !in s <==> k == |s|
  {
    if s == [] then 0
    else if s[0] == c then 0
    else 1 + FirstIndex(s[1..], c)
  }

  /** `location.split(",")[0].strip()` when the location has a comma,
      otherwise the location untouched. */
  function NormaliseLocation(location: string): (r: string)
    ensures ',' !in r
    ensures ',' !in location ==> r == location
    ensures ',' in location ==>
              var k := FirstIndex(location, ',');
              r == Strip(location[..k]) && ',' !in location[..k]
  {
    if ',' in location then
      var prefix := location[..FirstIndex(location, ',')];
      StripKeepsAbsent(prefix, ',');
      Strip(prefix)
    else location
  }

  /** Normalising an already normalised location changes nothing. */
  lemma NormaliseIdempotent(location: string)
    ensures NormaliseLocation(NormaliseLocation(location)) == NormaliseLocation(location)
  {
  }

  // ---------------------------------------------------------------------
  // Request URL (lines 22-23)
  // ---------------------------------------------------------------------

  const BaseUrl: string := "https://api.openweathermap.org/data/2.5/weather"
  const QueryKey: string := "?q="
  const AppIdKey: string := "&appid="

  function RequestUrl(location: string, apiKey: string): (url: string)
    ensures StartsWith(url, BaseUrl + QueryKey + NormaliseLocation(location))
    ensures EndsWith(url, AppIdKey + apiKey)
    ensures |url| == |BaseUrl + QueryKey + NormaliseLocation(location)| + |AppIdKey + apiKey|
  {
    var head := BaseUrl + QueryKey + NormaliseLocation(location);
    ConcatEnds(head, AppIdKey + apiKey);
    assert head + AppIdKey + apiKey == head + (AppIdKey + apiKey);
    head + AppIdKey + apiKey
  }

  /** The raw text of the `q` parameter: what follows "?q=" up to the next
      '&', with no fragment split and no percent or '+' decoding. */
  function QueryValue(url: string): Option<string>
  {
    var prefix := BaseUrl + QueryKey;
    if StartsWith(url, prefix) then
      var rest := url[|prefix|..];
      Some(rest[..FirstIndex(rest, '&')])
    else None
  }

  /** The raw text after "?q=" up to the next '&' is the normalised
      location, as long as the location has no '&' (the source does not
      URL-encode it). */
  lemma UrlCarriesLocation(location: string, apiKey: string)
    requires '&' !in NormaliseLocation(location)
    ensures QueryValue(RequestUrl(location, apiKey)) == Some(NormaliseLocation(location))
  {
    var prefix := BaseUrl + QueryKey;
    var loc := NormaliseLocation(location);
    var rest := loc + (AppIdKey + apiKey);
    var url := prefix + rest;
    assert RequestUrl(location, apiKey) == url;
    ConcatEnds(prefix, rest);
    assert url[|prefix|..] == rest;
    FirstIndexBefore(loc, AppIdKey + apiKey, '&');
  }

  /** The first `c` of `a + b` is the first of `b` when `a` has none and
      `b` starts with one. */
  lemma FirstIndexBefore(a: string, b: string, c: char)
    requires c !in a && b != [] && b[0] == c
    ensures FirstIndex(a + b, c) == |a| && (a + b)[..|a|] == a
  {
    assert (a + b)[|a|] == c;
    assert forall i :: 0 <= i < |a| ==> (a + b)[i] == a[i] && (a + b)[i] != c;
  }

  // ---------------------------------------------------------------------
  // str.capitalize() (line 43), ASCII letters only
  // ---------------------------------------------------------------------

  function ToUpper(c: char): char
  {
    if 'a' <= c <= 'z' then (c as int - 32) as char else c
  }

  function ToLower(c: char): char
  {
    if 'A' <= c <= 'Z' then (c as int + 32) as char else c
  }

  /** `s.lower()`. */
  function Lowered(s: string): (r: string)
    ensures |r| == |s|
    ensures forall i :: 0 <= i < |s| ==> r[i] == ToLower(s[i])
  {
    if s == [] then [] else [ToLower(s[0])] + Lowered(s[1..])
  }

  /** `s.capitalize()`: the first character in upper case, the rest in lower. */
  function Capitalize(s: string): (r: string)
    ensures |r| == |s|
    ensures s != [] ==> r[0] == ToUpper(s[0]) && !('a' <= r[0] <= 'z')
    ensures forall i :: 1 <= i < |s| ==> r[i] == ToLower(s[i]) && !('A' <= r[i] <= 'Z')
  {
    if s == [] then [] else [ToUpper(s[0])] + Lowered(s[1..])
  }

  /** Capitalizing twice is capitalizing once. */
  lemma CapitalizeIdempotent(s: string)
    ensures Capitalize(Capitalize(s)) == Capitalize(s)
  {
    var r := Capitalize(s);
    assert forall i :: 0 <= i < |s| ==> Capitalize(r)[i] == r[i];
  }

  /** Capitalize ignores how the input was cased. */
  lemma CapitalizeIgnoresCase(s: string, t: string)
    requires Lowered(s) == Lowered(t)
    ensures Capitalize(s) == Capitalize(t)
  {
    assert |s| == |t|;
    forall i | 0 <= i < |s|
      ensures Capitalize(s)[i] == Capitalize(t)[i]
    {
      assert Lowered(s)[i] == Lowered(t)[i];
    }
  }

  // ---------------------------------------------------------------------
  // str(status_code)
  // ---------------------------------------------------------------------

  predicate IsDigit(c: char)
  {
    '0' <= c <= '9'
  }

  function DigitChar(d: nat): (c: char)
    requires d < 10
    ensures IsDigit(c)
  {
    ('0' as int + d) as char
  }

  function DigitValue(c: char): (d: nat)
    requires IsDigit(c)
    ensures d < 10
  {
    c as int - '0' as int
  }

  /** Decimal digits of `n`, most significant first, without leading zeros. */
  function NatToDecimal(n: nat): (r: string)
    ensures |r| >= 1
    ensures forall i :: 0 <= i < |r| ==> IsDigit(r[i])
    ensures r[0] == '0' ==> n == 0
    decreases n
  {
    if n < 10 then [DigitChar(n)] else NatToDecimal(n / 10) + [DigitChar(n % 10)]
  }

  /** The number a string of decimal digits denotes. */
  function DecimalValue(s: string): nat
    requires forall i :: 0 <= i < |s| ==> IsDigit(s[i])
  {
    if s == [] then 0 else DecimalValue(s[..|s| - 1]) * 10 + DigitValue(s[|s| - 1])
  }

  lemma {:induction false} NatDecimalRoundTrip(n: nat)
    ensures DecimalValue(NatToDecimal(n)) == n
    decreases n
  {
    var r := NatToDecimal(n);
    if n >= 10 {
      NatDecimalRoundTrip(n / 10);
      assert r[..|r| - 1] == NatToDecimal(n / 10);
    }
  }

  /** `str(i)` for an int: a minus sign before the digits of a negative number. */
  function IntToDecimal(i: int): string
  {
    if i < 0 then "-" + NatToDecimal(-i) else NatToDecimal(i)
  }

  /** `int(s)` for what `IntToDecimal` produces. */
  function IntValue(s: string): int
  {
    if s != [] && s[0] == '-' && (forall i :: 1 <= i < |s| ==> IsDigit(s[i])) then -(DecimalValue(s[1..]) as int)
    else if forall i :: 0 <= i < |s| ==> IsDigit(s[i]) then DecimalValue(s)
    else 0
  }

  /** Reading back `str(i)` gives `i`. */
  lemma IntDecimalRoundTrip(i: int)
    ensures IntValue(IntToDecimal(i)) == i
  {
    if i < 0 {
      var d := NatToDecimal(-i);
      assert ("-" + d)[1..] == d;
      NatDecimalRoundTrip(-i);
    } else {
      NatDecimalRoundTrip(i);
    }
  }

  // ---------------------------------------------------------------------
  // get_current_weather
  // ---------------------------------------------------------------------

  datatype Response<J> = Response(statusCode: int, body: J)

  /** The record the function returns. `data` is the decoded body from which
      the temperature, humidity and description fields are computed. */
  datatype WeatherRecord<J> =
    | Report(location: string, data: J)
    | ApiError(error: string, details: J)

  const ErrorPrefix: string := "API request failed with status code "

  function CurrentWeather<J>(location: string, apiKey: string, get: string -> Response<J>): (r: WeatherRecord<J>)
    ensures var response := get(RequestUrl(location, apiKey));
      && (r.ApiError? <==> response.statusCode != 200)
      && (r.Report? ==> r.location == Capitalize(NormaliseLocation(location)) && r.data == response.body)
      && (r.ApiError? ==> StartsWith(r.error, ErrorPrefix)
                          && r.error[|ErrorPrefix|..] == IntToDecimal(response.statusCode)
                          && r.details == response.body)
  {
    var normalised := NormaliseLocation(location);
    var response := get(RequestUrl(location, apiKey));
    if response.statusCode == 200 then
      Report(Capitalize(normalised), response.body)
    else
      var error := ErrorPrefix + IntToDecimal(response.statusCode);
      ConcatEnds(ErrorPrefix, IntToDecimal(response.statusCode));
      ApiError(error, response.body)
  }

  /** The error record names the status code: reading the number after the
      prefix gives it back. */
  lemma ErrorNamesStatus<J>(location: string, apiKey: string, get: string -> Response<J>)
    requires get(RequestUrl(location, apiKey)).statusCode != 200
    ensures var r := CurrentWeather(location, apiKey, get);
      r.ApiError? && IntValue(r.error[|ErrorPrefix|..]) == get(RequestUrl(location, apiKey)).statusCode
  {
    IntDecimalRoundTrip(get(RequestUrl(location, apiKey)).statusCode);
  }
}
