/** `GET /api/weather/current?location_id=X`: the location's live weather and
    the earthquake to show beside it. An active earthquake alert for the
    location wins; only without one is the live earthquake feed consulted.
    The database answers, the weather fetch and the feed lookup are inputs. */
module WeatherRoutes {
  import opened Common
  import JsNumber

  // ---------------------------------------------------------------------
  // Decoding an alert description

  const MagnitudeKey: string := "Magnitude "
  const EpicenterKey: string := "Epicenter: "
  const ThresholdKey: string := ". Threshold"
  const UnknownPlace: string := "Unknown Location"

  /** `/Magnitude ([\d.]+)/` matches at `i`. */
  predicate MagnitudeAt(s: string, i: nat) {
    OccursAt(s, i, MagnitudeKey) && i + |MagnitudeKey| < |s| && JsNumber.IsDigitOrPoint(s[i + |MagnitudeKey|])
  }

  /** The leftmost position, from `from` on, where the magnitude pattern matches. */
  function FindMagnitude(s: string, from: nat): (r: Option<nat>)
    decreases |s| - from
    ensures r.Some? ==> from <= r.value < |s| && MagnitudeAt(s, r.value)
    ensures r.Some? ==> forall j :: from <= j < r.value ==> !MagnitudeAt(s, j)
    ensures r.None? ==> forall j :: from <= j ==> !MagnitudeAt(s, j)
  {
    if from >= |s| then None
    else if MagnitudeAt(s, from) then Some(from)
    else FindMagnitude(s, from + 1)
  }

  /** `magMatch ? parseFloat(magMatch[1]) : 0`: the number after the first
      "Magnitude " that a digit or a point follows, or 0. */
  function DecodeMagnitude(desc: string): (r: Number)
    ensures FindMagnitude(desc, 0).None? ==> r == Finite(0.0)
    ensures r.Finite? || r.NaN?
    ensures r.Finite? ==> r.value >= 0.0
  {
    match FindMagnitude(desc, 0)
    case None => Finite(0.0)
    case Some(i) =>
      var g := JsNumber.PointRun(desc[i + |MagnitudeKey|..]);
      JsNumber.ParseFloatOfDigitsAndPoints(g);
      JsNumber.ParseFloat(g)
  }

  /** Wherever the first match is, the group is the whole run of `[\d.]`
      after its "Magnitude ", and the magnitude is `parseFloat` of that run. */
  lemma DecodeMagnitudeAfter(pre: string, g: string, rest: string)
    requires g != [] && JsNumber.DigitsAndPoints(g)
    requires rest == [] || !JsNumber.IsDigitOrPoint(rest[0])
    requires var s := pre + (MagnitudeKey + (g + rest));
      forall j :: 0 <= j < |pre| ==> !MagnitudeAt(s, j)
    ensures DecodeMagnitude(pre + (MagnitudeKey + (g + rest))) == JsNumber.ParseFloat(g)
  {
    var s := pre + (MagnitudeKey + (g + rest));
    MagnitudeSlices(pre, g, rest);
    assert FindMagnitude(s, 0) == Some(|pre|);
    JsNumber.PointRunOf(g, rest);
  }

  lemma MagnitudeSlices(pre: string, g: string, rest: string)
    requires g != [] && JsNumber.DigitsAndPoints(g)
    ensures var s := pre + (MagnitudeKey + (g + rest));
      MagnitudeAt(s, |pre|) && s[|pre| + |MagnitudeKey|..] == g + rest
  {
    var s := pre + (MagnitudeKey + (g + rest));
    var i := |pre|;
    assert s[i..i + |MagnitudeKey|] == MagnitudeKey;
    assert s[i + |MagnitudeKey|] == g[0];
    assert s[i + |MagnitudeKey|..] == g + rest;
  }

  /** The first "Magnitude " that a decimal numeral follows gives that
      numeral's value, whatever text comes before it. */
  lemma DecodeMagnitudeOf(pre: string, whole: string, frac: string, rest: string)
    requires whole != [] && AllDigits(whole) && AllDigits(frac)
    requires rest == [] || !JsNumber.IsDigitOrPoint(rest[0])
    requires var s := pre + (MagnitudeKey + (DecimalText(whole, frac) + rest));
      forall j :: 0 <= j < |pre| ==> !MagnitudeAt(s, j)
    ensures DecodeMagnitude(pre + (MagnitudeKey + (DecimalText(whole, frac) + rest))) == Finite(DecimalValue(whole, frac))
  {
    JsNumber.DecimalTextIsDigitsAndPoints(whole, frac);
    DecodeMagnitudeAfter(pre, DecimalText(whole, frac), rest);
    JsNumber.ParseFloatOfDecimal(whole, frac);
  }

  /** A run of points alone is matched but is no number: the magnitude is
      NaN, not the fallback 0. */
  lemma DecodeMagnitudeOfPoint(pre: string, rest: string)
    requires rest == [] || !JsNumber.IsDigitOrPoint(rest[0])
    requires var s := pre + (MagnitudeKey + ("." + rest));
      forall j :: 0 <= j < |pre| ==> !MagnitudeAt(s, j)
    ensures DecodeMagnitude(pre + (MagnitudeKey + ("." + rest))).NaN?
  {
    DecodeMagnitudeAfter(pre, ".", rest);
    assert !JsNumber.BeginsNumber(".");
    JsNumber.ParseFloatOfDigitsAndPoints(".");
  }

  /** The lazy `(.*?)\. Threshold` from position `k`: the first position at
      which ". Threshold" occurs, when no line terminator comes before it. */
  function LazyEnd(s: string, k: nat): (r: Option<nat>)
    decreases |s| - k
    ensures r.Some? ==> k <= r.value && OccursAt(s, r.value, ThresholdKey)
    ensures r.Some? ==> forall m :: k <= m < r.value ==> !OccursAt(s, m, ThresholdKey) && !IsLineTerminator(s[m])
  {
    if k >= |s| then None
    else if OccursAt(s, k, ThresholdKey) then Some(k)
    else if IsLineTerminator(s[k]) then None
    else LazyEnd(s, k + 1)
  }

  /** The first end the lazy group can reach is the one `LazyEnd` finds. */
  lemma {:induction false} LazyEndOf(s: string, k: nat, e: nat)
    requires k <= e && OccursAt(s, e, ThresholdKey)
    requires forall m :: k <= m < e ==> !OccursAt(s, m, ThresholdKey) && !IsLineTerminator(s[m])
    ensures LazyEnd(s, k) == Some(e)
    decreases e - k
  {
    if k < e {
      LazyEndOf(s, k + 1, e);
    }
  }

  /** `/Epicenter: (.*?)\. Threshold/` matches at `i`, ending its group at `e`. */
  predicate PlaceAt(s: string, i: nat) {
    OccursAt(s, i, EpicenterKey) && LazyEnd(s, i + |EpicenterKey|).Some?
  }

  /** The leftmost position, from `from` on, where the place pattern matches. */
  function FindPlace(s: string, from: nat): (r: Option<nat>)
    decreases |s| - from
    ensures r.Some? ==> from <= r.value < |s| && PlaceAt(s, r.value)
    ensures r.Some? ==> forall j :: from <= j < r.value ==> !PlaceAt(s, j)
    ensures r.None? ==> forall j :: from <= j ==> !PlaceAt(s, j)
  {
    if from >= |s| then None
    else if PlaceAt(s, from) then Some(from)
    else FindPlace(s, from + 1)
  }

  /** `placeMatch ? placeMatch[1] : 'Unknown Location'`: the text from the
      first match's "Epicenter: " up to the first ". Threshold" after it. */
  function DecodePlace(desc: string): (r: string)
    ensures FindPlace(desc, 0).None? ==> r == UnknownPlace
    ensures FindPlace(desc, 0).Some? ==> var start := FindPlace(desc, 0).value + |EpicenterKey|;
      start + |r| <= |desc| && desc[start..start + |r|] == r
      && OccursAt(desc, start + |r|, ThresholdKey)
      && forall m :: start <= m < start + |r| ==> !OccursAt(desc, m, ThresholdKey)
    ensures FindPlace(desc, 0).Some? ==> forall m :: 0 <= m < |r| ==> !IsLineTerminator(r[m])
  {
    match FindPlace(desc, 0)
    case None => UnknownPlace
    case Some(i) => LazyGroup(desc, i + |EpicenterKey|)
  }

  /** `(.*?)\. Threshold` from `start`: the text before the first ". Threshold". */
  function LazyGroup(desc: string, start: nat): (r: string)
    requires LazyEnd(desc, start).Some?
    ensures start + |r| <= |desc| && desc[start..start + |r|] == r
    ensures OccursAt(desc, start + |r|, ThresholdKey)
    ensures forall m :: start <= m < start + |r| ==> !OccursAt(desc, m, ThresholdKey)
    ensures forall m :: 0 <= m < |r| ==> !IsLineTerminator(r[m])
  {
    var e := LazyEnd(desc, start).value;
    var r := desc[start..e];
    assert start + |r| == e && desc[start..start + |r|] == r;
    assert forall m :: 0 <= m < |r| ==> r[m] == desc[start + m];
    r
  }

  /** The first "Epicenter: " that some ". Threshold" follows on the same
      line gives the text up to the first ". Threshold" after it, whatever
      text comes before it: the shortest text the lazy group can take. */
  lemma DecodePlaceOf(pre: string, place: string, rest: string)
    requires forall m :: 0 <= m < |place| ==> !IsLineTerminator(place[m])
    requires forall m :: 0 <= m < |place| ==> !OccursAt(place + ThresholdKey, m, ThresholdKey)
    requires var s := pre + (EpicenterKey + (place + (ThresholdKey + rest)));
      forall j :: 0 <= j < |pre| ==> !PlaceAt(s, j)
    ensures DecodePlace(pre + (EpicenterKey + (place + (ThresholdKey + rest)))) == place
  {
    var s := pre + (EpicenterKey + (place + (ThresholdKey + rest)));
    var start := |pre| + |EpicenterKey|;
    var e := start + |place|;
    PlaceSlices(pre, place, rest);
    NoEarlierEnd(pre, place, rest);
    LazyEndOf(s, start, e);
    assert PlaceAt(s, |pre|);
    assert FindPlace(s, 0) == Some(|pre|);
  }

  lemma PlaceSlices(pre: string, place: string, rest: string)
    ensures var s := pre + (EpicenterKey + (place + (ThresholdKey + rest)));
      var b := |pre| + |EpicenterKey|;
      var e := b + |place|;
      OccursAt(s, |pre|, EpicenterKey)
      && s[b..e] == place && OccursAt(s, e, ThresholdKey)
      && s[b..e + |ThresholdKey|] == place + ThresholdKey
  {
    var s := pre + (EpicenterKey + (place + (ThresholdKey + rest)));
    var b := |pre| + |EpicenterKey|;
    var e := b + |place|;
    assert s[|pre|..b] == EpicenterKey;
    assert s[e..e + |ThresholdKey|] == ThresholdKey;
    assert s[b..e] == place;
  }

  lemma NoEarlierEnd(pre: string, place: string, rest: string)
    requires forall m :: 0 <= m < |place| ==> !IsLineTerminator(place[m])
    requires forall m :: 0 <= m < |place| ==> !OccursAt(place + ThresholdKey, m, ThresholdKey)
    requires var s := pre + (EpicenterKey + (place + (ThresholdKey + rest)));
      var b := |pre| + |EpicenterKey|;
      s[b..b + |place| + |ThresholdKey|] == place + ThresholdKey
    ensures var s := pre + (EpicenterKey + (place + (ThresholdKey + rest)));
      var b := |pre| + |EpicenterKey|;
      forall m :: b <= m < b + |place| ==> !OccursAt(s, m, ThresholdKey) && !IsLineTerminator(s[m])
  {
    var s := pre + (EpicenterKey + (place + (ThresholdKey + rest)));
    var start := |pre| + |EpicenterKey|;
    var t := place + ThresholdKey;
    forall m | start <= m < start + |place|
      ensures !OccursAt(s, m, ThresholdKey) && !IsLineTerminator(s[m])
    {
      var d := m - start;
      assert s[m] == t[d] == place[d] && !IsLineTerminator(place[d]);
      assert !OccursAt(t, d, ThresholdKey);
      assert s[m..m + |ThresholdKey|] == t[d..d + |ThresholdKey|];
    }
  }

  // ---------------------------------------------------------------------
  // The handler

  /** A `locations` row. */
  datatype LocationRow = LocationRow(id: int, name: string, latitude: real, longitude: real)

  /** What `fetchWeatherData` returns, under the names of the weather API. */
  datatype WeatherData = WeatherData(temperature2m: real, relativeHumidity2m: real, rain: real,
    windSpeed10m: real, usAqi: real, time: string)

  /** A row of the active-earthquake-alert query. */
  datatype AlertRow = AlertRow(description: string, createdAt: string)

  /** An awaited call: its value, or the message of what it threw. */
  datatype Step<T> = Done(value: T) | Threw(message: string)

  datatype LocationView = LocationView(id: int, name: string, latitude: real, longitude: real)

  datatype WeatherView = WeatherView(temperature: real, humidity: real, rain: real,
    windSpeed: real, aqi: real, time: string)

  /** The `earthquake` field: decoded from an alert, or whatever the feed
      lookup (not part of this model) returned. */
  datatype Earthquake<F> =
    | FromAlert(magnitude: Number, place: string, time: string, distance: Option<real>)
    | FromFeed(result: F)

  datatype CurrentBody<F> = CurrentBody(location: LocationView, weather: WeatherView, earthquake: Earthquake<F>)

  datatype Response<F> = Failure(status: int, error: string) | Success(body: CurrentBody<F>)

  const MsgLocationRequired: string := "location_id is required"
  const MsgLocationNotFound: string := "Location not found"
  const MsgWeatherUnavailable: string := "Unable to fetch weather data from external API"

  /** `!location_id` is false for a present, non-empty parameter. */
  predicate HasLocationId(query: Option<string>) {
    query.Some? && query.value != ""
  }

  /** The handler. `rows`, `weather`, `activeEqs` and `feed` are the results of
      the awaited calls in order; `feedConsulted` says whether the feed was asked. */
  method Current<F>(query: Option<string>, rows: Step<seq<LocationRow>>, weather: Step<Option<WeatherData>>,
                    activeEqs: Step<seq<AlertRow>>, feed: Step<F>)
    returns (resp: Response<F>, feedConsulted: bool)
    ensures !HasLocationId(query) ==> resp == Failure(400, MsgLocationRequired)
    ensures HasLocationId(query) && rows.Threw? ==> resp == Failure(500, rows.message)
    ensures HasLocationId(query) && rows.Done? && rows.value == [] ==> resp == Failure(404, MsgLocationNotFound)
    ensures HasLocationId(query) && rows.Done? && rows.value != [] && weather.Threw? ==>
      resp == Failure(500, weather.message)
    ensures HasLocationId(query) && rows.Done? && rows.value != [] && weather == Done(None) ==>
      resp == Failure(503, MsgWeatherUnavailable)
    ensures (HasLocationId(query) && rows.Done? && rows.value != [] && weather.Done? && weather.value.Some?
             && activeEqs.Threw?) ==>
      resp == Failure(500, activeEqs.message)
    ensures (HasLocationId(query) && rows.Done? && rows.value != [] && weather.Done? && weather.value.Some?
             && activeEqs.Done? && activeEqs.value == [] && feed.Threw?) ==>
      resp == Failure(500, feed.message)
    ensures resp.Success? <==>
      HasLocationId(query) && rows.Done? && rows.value != [] && weather.Done? && weather.value.Some?
      && activeEqs.Done? && (activeEqs.value == [] ==> feed.Done?)
    ensures feedConsulted <==>
      HasLocationId(query) && rows.Done? && rows.value != [] && weather.Done? && weather.value.Some?
      && activeEqs.Done? && activeEqs.value == []
    ensures resp.Failure? ==> resp.status in {400, 404, 500, 503}
    ensures resp.Success? ==>
      var loc := rows.value[0];
      var w := weather.value.value;
      resp.body.location == LocationView(loc.id, loc.name, loc.latitude, loc.longitude)
      && resp.body.weather == WeatherView(w.temperature2m, w.relativeHumidity2m, w.rain, w.windSpeed10m, w.usAqi, w.time)
      && (resp.body.earthquake.FromAlert? <==> activeEqs.value != [])
      && (activeEqs.value != [] ==>
            var a := activeEqs.value[0];
            resp.body.earthquake == FromAlert(DecodeMagnitude(a.description), DecodePlace(a.description), a.createdAt, None))
      && (activeEqs.value == [] ==> resp.body.earthquake == FromFeed(feed.value))
  {
    feedConsulted := false;
    if !HasLocationId(query) {
      return Failure(400, MsgLocationRequired), false;
    }
    if rows.Threw? {
      return Failure(500, rows.message), false;
    }
    if rows.value == [] {
      return Failure(404, MsgLocationNotFound), false;
    }
    var location := rows.value[0];
    if weather.Threw? {
      return Failure(500, weather.message), false;
    }
    if weather.value.None? {
      return Failure(503, MsgWeatherUnavailable), false;
    }
    var w := weather.value.value;
    if activeEqs.Threw? {
      return Failure(500, activeEqs.message), false;
    }
    var localEq: Earthquake<F>;
    if activeEqs.value != [] {
      var eqAlert := activeEqs.value[0];
      localEq := FromAlert(DecodeMagnitude(eqAlert.description), DecodePlace(eqAlert.description), eqAlert.createdAt, None);
    } else {
      feedConsulted := true;
      if feed.Threw? {
        return Failure(500, feed.message), true;
      }
      localEq := FromFeed(feed.value);
    }
    resp := Success(CurrentBody(
      LocationView(location.id, location.name, location.latitude, location.longitude),
      WeatherView(w.temperature2m, w.relativeHumidity2m, w.rain, w.windSpeed10m, w.usAqi, w.time),
      localEq));
  }
}
