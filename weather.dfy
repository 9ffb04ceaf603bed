/**
 * `getLocationAndTemp` of App.jsx without its network calls: the query is
 * trimmed and checked, the geocoding response is checked for a first result,
 * the place label is built from that result, and the forecast response is
 * checked for a numeric temperature. The two HTTP responses are inputs; the
 * requests the function would issue are returned as a trace of lookups.
 */
module WeatherLookup {
  import opened Wrappers
  import opened JsString
  import opened Temperature

  /** One geocoding result; the label parts may be missing. */
  datatype GeoPlace = GeoPlace(
    name: Option<string>,
    admin1: Option<string>,
    country: Option<string>,
    latitude: real,
    longitude: real)

  /** The decoded geocoding body: its `results` list may be missing. */
  datatype GeoBody = GeoBody(results: Option<seq<GeoPlace>>)

  /**
   * The decoded forecast body: `current_weather.temperature` if it is a number.
   * JSON has no NaN literal, so a number decoded from it is never NaN; an
   * out-of-range literal such as `1e999` decodes to Infinity, which a real cannot be.
   */
  datatype WxBody = WxBody(temperature: Option<real>)

  /** An HTTP response: `ok` with its decoded body, or not `ok`. */
  datatype HttpResponse<T> = NotOk | Ok(body: T)

  /** A request the lookup issues, in order. */
  datatype Lookup = Geocode(query: string) | Forecast(latitude: real, longitude: real)

  /** The errors the lookup throws. */
  datatype FetchError = EmptyQuery | GeocodingFailed | NotFound | WeatherFailed | NoData

  /** The resolved place and its current temperature in Celsius. */
  datatype LocationTemp = LocationTemp(placeLabel: string, temp: real)

  /** What the lookup yields together with the requests it made. */
  datatype Fetched = Fetched(result: Result<LocationTemp, FetchError>, lookups: seq<Lookup>)

  /** The message of each thrown error, as the page shows it. */
  function Message(e: FetchError): (m: string)
    ensures m != []
  {
    match e
    case EmptyQuery => "Please enter a location."
    case GeocodingFailed => "Geocoding request failed."
    case NotFound => "Location not found. Try adding a country."
    case WeatherFailed => "Weather request failed."
    case NoData => "Weather data unavailable for this location."
  }

  /** Distinct errors show distinct messages: no two even have the same length. */
  lemma MessagesDistinct(e1: FetchError, e2: FetchError)
    requires e1 != e2
    ensures Message(e1) != Message(e2)
  {
    assert |Message(EmptyQuery)| == 24;
    assert |Message(GeocodingFailed)| == 25;
    assert |Message(NotFound)| == 41;
    assert |Message(WeatherFailed)| == 23;
    assert |Message(NoData)| == 43;
  }

  /** `Boolean(part)`: a string part is kept when present and non-empty. */
  predicate IsTruthy(part: Option<string>) {
    part.Some? && part.value != []
  }

  /** The part as `filter(Boolean)` keeps it: itself if truthy, else nothing. */
  function Kept(part: Option<string>): seq<string> {
    if IsTruthy(part) then [part.value] else []
  }

  /** `parts.filter(Boolean)`: the truthy parts, in their original order. */
  function Truthy(parts: seq<Option<string>>): (r: seq<string>)
    ensures |r| <= |parts|
    ensures forall k :: 0 <= k < |r| ==> r[k] != []
    decreases |parts|
  {
    if parts == [] then []
    else
      Kept(parts[0]) + Truthy(parts[1..])
  }

  /** Nothing is kept exactly when no part is truthy; everything, exactly when every part is. */
  lemma {:induction false} TruthyExtremes(parts: seq<Option<string>>)
    ensures Truthy(parts) == [] <==> forall k :: 0 <= k < |parts| ==> !IsTruthy(parts[k])
    ensures |Truthy(parts)| == |parts| <==> forall k :: 0 <= k < |parts| ==> IsTruthy(parts[k])
    decreases |parts|
  {
    if parts != [] {
      TruthyExtremes(parts[1..]);
      assert forall k :: 1 <= k < |parts| ==> parts[k] == parts[1..][k - 1];
    }
  }

  /** Every kept part is one of the inputs. */
  lemma {:induction false} TruthyFromParts(parts: seq<Option<string>>, k: nat)
    requires k < |Truthy(parts)|
    ensures Some(Truthy(parts)[k]) in parts
    decreases |parts|
  {
    var rest := Truthy(parts[1..]);
    if IsTruthy(parts[0]) {
      if k > 0 {
        TruthyFromParts(parts[1..], k - 1);
      }
    } else {
      TruthyFromParts(parts[1..], k);
    }
  }

  /** The label parts of a place, in the order the label lists them. */
  function LabelParts(p: GeoPlace): seq<Option<string>> {
    [p.name, p.admin1, p.country]
  }

  /** `[name, admin1, country].filter(Boolean).join(", ")`. */
  function Label(p: GeoPlace): (l: string)
    ensures l == Join(Kept(p.name) + (Kept(p.admin1) + Kept(p.country)), ", ")
  {
    TruthyThree(p.name, p.admin1, p.country);
    Join(Truthy(LabelParts(p)), ", ")
  }

  /** Filtering three parts keeps each truthy one, in order. */
  lemma TruthyThree(a: Option<string>, b: Option<string>, c: Option<string>)
    ensures Truthy([a, b, c]) == Kept(a) + (Kept(b) + Kept(c))
  {
    assert [a, b, c][1..] == [b, c];
    assert [b, c][1..] == [c];
    assert [c][1..] == [];
    assert Truthy([c]) == Kept(c);
  }

  /** With all three parts present, the label lists them in order with one separator between each. */
  lemma LabelAllPresent(p: GeoPlace)
    requires IsTruthy(p.name) && IsTruthy(p.admin1) && IsTruthy(p.country)
    ensures Label(p) == p.name.value + ", " + p.admin1.value + ", " + p.country.value
  {
    assert Kept(p.name) + (Kept(p.admin1) + Kept(p.country)) == [p.name.value, p.admin1.value, p.country.value];
    JoinThree(p.name.value, p.admin1.value, p.country.value, ", ");
  }

  /** With admin1 missing, name and country are joined by a single separator. */
  lemma LabelWithoutAdmin1(p: GeoPlace)
    requires IsTruthy(p.name) && !IsTruthy(p.admin1) && IsTruthy(p.country)
    ensures Label(p) == p.name.value + ", " + p.country.value
  {
    assert Kept(p.name) + (Kept(p.admin1) + Kept(p.country)) == [p.name.value, p.country.value];
    JoinTwo(p.name.value, p.country.value, ", ");
  }

  /** A single present part is the label, unchanged. */
  lemma LabelSinglePart(p: GeoPlace, i: nat)
    requires i < 3 && IsTruthy(LabelParts(p)[i])
    requires forall j :: 0 <= j < 3 && j != i ==> !IsTruthy(LabelParts(p)[j])
    ensures Label(p) == LabelParts(p)[i].value
  {
    var kept := Kept(p.name) + (Kept(p.admin1) + Kept(p.country));
    var parts := LabelParts(p);
    assert parts[0] == p.name && parts[1] == p.admin1 && parts[2] == p.country;
    if i == 0 {
      assert !IsTruthy(parts[1]) && !IsTruthy(parts[2]);
      assert !IsTruthy(p.admin1) && !IsTruthy(p.country);
      assert kept == [p.name.value];
    } else if i == 1 {
      assert !IsTruthy(parts[0]) && !IsTruthy(parts[2]);
      assert !IsTruthy(p.name) && !IsTruthy(p.country);
      assert kept == [p.admin1.value];
    } else {
      assert !IsTruthy(parts[0]) && !IsTruthy(parts[1]);
      assert !IsTruthy(p.name) && !IsTruthy(p.admin1);
      assert kept == [p.country.value];
    }
  }

  /** The label is empty exactly when none of the three parts is present. */
  lemma LabelEmptyIff(p: GeoPlace)
    ensures Label(p) == [] <==> !IsTruthy(p.name) && !IsTruthy(p.admin1) && !IsTruthy(p.country)
  {
    TruthyThree(p.name, p.admin1, p.country);
    JoinEmptyIff(Truthy(LabelParts(p)), ", ");
  }

  /**
   * The label begins with the first present part and ends with the last one,
   * so it begins with ", " only if that part does, and likewise at the end.
   */
  lemma LabelEnds(p: GeoPlace)
    requires Truthy(LabelParts(p)) != []
    ensures var parts := Truthy(LabelParts(p));
      var l := Label(p);
      && |parts[0]| <= |l| && l[..|parts[0]|] == parts[0]
      && |Last(parts)| <= |l| && l[|l| - |Last(parts)|..] == Last(parts)
  {
  }

  /** `geo?.results?.[0]`. */
  function BestResult(body: GeoBody): (best: Option<GeoPlace>)
    ensures best.Some? <==> body.results.Some? && body.results.value != []
    ensures best.Some? ==> best.value == body.results.value[0]
  {
    match body.results
    case None => None
    case Some(places) => if places == [] then None else Some(places[0])
  }

  /** `getLocationAndTemp(name)` given the two responses its requests would receive. */
  function GetLocationAndTemp(name: string, geo: HttpResponse<GeoBody>, wx: HttpResponse<WxBody>): (f: Fetched)
    // a blank query fails before any request
    ensures f.lookups == [] <==> Trim(name) == []
    ensures Trim(name) == [] ==> f.result == Failure(EmptyQuery)
    // otherwise the geocoder is asked for the trimmed query first
    ensures Trim(name) != [] ==> f.lookups[0] == Geocode(Trim(name))
    ensures |f.lookups| <= 2
    ensures Trim(name) != [] && |f.lookups| != 2 ==> f.lookups == [Geocode(Trim(name))]
    ensures f.result == Failure(GeocodingFailed) <==> Trim(name) != [] && geo.NotOk?
    ensures f.result == Failure(NotFound) <==> Trim(name) != [] && geo.Ok? && BestResult(geo.body).None?
    // the forecast is requested exactly when a place was found, at that place
    ensures |f.lookups| == 2 <==> Trim(name) != [] && geo.Ok? && BestResult(geo.body).Some?
    ensures |f.lookups| == 2 ==> var best := BestResult(geo.body).value;
      f.lookups[1] == Forecast(best.latitude, best.longitude)
    ensures f.result == Failure(WeatherFailed) <==> |f.lookups| == 2 && wx.NotOk?
    ensures f.result == Failure(NoData) <==> |f.lookups| == 2 && wx.Ok? && wx.body.temperature.None?
    // success is exactly the label of the first result and the reported temperature
    ensures f.result.Success? <==> |f.lookups| == 2 && wx.Ok? && wx.body.temperature.Some?
    ensures f.result.Success? ==>
      f.result.value == LocationTemp(Label(BestResult(geo.body).value), wx.body.temperature.value)
  {
    var q := Trim(name);
    if q == [] then Fetched(Failure(EmptyQuery), [])
    else if geo.NotOk? then Fetched(Failure(GeocodingFailed), [Geocode(q)])
    else
      match BestResult(geo.body)
      case None => Fetched(Failure(NotFound), [Geocode(q)])
      case Some(best) =>
        var placeLabel := Label(best);
        var lookups := [Geocode(q), Forecast(best.latitude, best.longitude)];
        if wx.NotOk? then Fetched(Failure(WeatherFailed), lookups)
        else
          match wx.body.temperature
          case None => Fetched(Failure(NoData), lookups)
          case Some(t) => Fetched(Success(LocationTemp(placeLabel, t)), lookups)
  }

  /** Surrounding white space in the query changes nothing. */
  lemma LookupIgnoresPadding(name: string, geo: HttpResponse<GeoBody>, wx: HttpResponse<WxBody>)
    ensures GetLocationAndTemp(Trim(name), geo, wx) == GetLocationAndTemp(name, geo, wx)
  {
    TrimIdempotent(name);
  }

  /**
   * The page state `fetchWeather` touches: the reading in `tempRef`, the
   * shown place label and temperature (`placeLabel`, `tempC`), and the error line.
   */
  datatype Page = Page(stored: TempValue, placeLabel: string, tempC: TempValue, error: string)

  /**
   * `fetchWeather`: the error line is cleared; on success the label and
   * temperature are shown and the temperature is stored for the sketch; on
   * failure the error message is shown and everything else is kept.
   */
  function FetchWeather(prior: Page, f: Fetched): (r: Page)
    ensures f.result.Success? ==>
      var v := f.result.value;
      r == Page(Celsius(v.temp), v.placeLabel, Celsius(v.temp), "")
    ensures f.result.Failure? ==>
      r == prior.(error := Message(f.result.error))
    ensures r.error == [] <==> f.result.Success?
    ensures r.stored.NaN? ==> prior.stored.NaN?
  {
    match f.result
    case Success(v) => Page(Celsius(v.temp), v.placeLabel, Celsius(v.temp), "")
    case Failure(e) => prior.(error := Message(e))
  }

  /** The page after a series of lookups. */
  function PageAfter(prior: Page, fetches: seq<Fetched>): Page
    decreases |fetches|
  {
    if fetches == [] then prior else PageAfter(FetchWeather(prior, fetches[0]), fetches[1..])
  }

  /** A reading that is not NaN never becomes NaN, whatever the lookups return. */
  lemma {:induction false} StoredAfterNoNaN(prior: Page, fetches: seq<Fetched>)
    requires !prior.stored.NaN?
    ensures !PageAfter(prior, fetches).stored.NaN?
    decreases |fetches|
  {
    if fetches != [] {
      StoredAfterNoNaN(FetchWeather(prior, fetches[0]), fetches[1..]);
    }
  }
}
