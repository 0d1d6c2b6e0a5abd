/** The WAQI response parser (backend/waqi_client.py): `_extract_value`, `_parse_forecast`
    and `parse_station_data`. Every exception the Python code raises and catches is a
    `None` here. */
module WaqiClient {
  import opened Wrappers
  import opened Seqs
  import opened JsonTree
  import opened Models

  // ---------------------------------------------------------------- _extract_value

  /** `_extract_value`: the `"v"` entry of a non-empty dictionary (`None` when it has
      none), and `None` for anything else. */
  function ExtractValue(data: Json): (r: Json)
    ensures data.JDict? && data.fields != map[] && "v" in data.fields ==> r == data.fields["v"]
    ensures data.JDict? && "v" !in data.fields ==> r == JNull
    ensures !data.JDict? ==> r == JNull
  {
    if Truthy(data) && data.JDict? then GetOr(data.fields, "v", JNull) else JNull
  }

  /** A WAQI reading `{"v": x}` gives back `x`. */
  lemma ExtractReading(x: Json, extra: map<string, Json>)
    ensures ExtractValue(JDict(extra["v" := x])) == x
  {
    assert "v" in extra["v" := x];
  }

  // ---------------------------------------------------------------- _parse_forecast

  /** The forecast keys the parser reads, in the order it reads them. */
  const ForecastKeys: seq<string> := ["pm25", "pm10", "o3", "uvi"]

  /** `float(v)` unless `v` is `None`: `Some(None)` for `None`, `None` when `float` raises. */
  function ConvertOptional(v: Json, conv: Coercions): Option<Option<real>> {
    if v.JNull? then Some(None)
    else if PyFloat(v, conv).Some? then Some(PyFloat(v, conv))
    else None
  }

  /** One forecast item: a dictionary whose `avg`, `max` and `min` convert and whose `day`
      (default `""`) is a string; anything else is skipped (`None`). */
  function ParseDay(item: Json, conv: Coercions): (r: Option<ForecastDay>)
    ensures !item.JDict? ==> r == None
    ensures item.JDict? && "avg" in item.fields && ConvertOptional(item.fields["avg"], conv).None? ==> r == None
    ensures item.JDict? && "max" in item.fields && ConvertOptional(item.fields["max"], conv).None? ==> r == None
    ensures item.JDict? && "min" in item.fields && ConvertOptional(item.fields["min"], conv).None? ==> r == None
    ensures r.Some? ==> "day" in item.fields ==> item.fields["day"] == JString(r.value.day)
    ensures r.Some? ==> "day" !in item.fields ==> r.value.day == ""
    ensures r.Some? ==> "avg" !in item.fields ==> r.value.avg == None
    ensures r.Some? ==> "max" !in item.fields ==> r.value.max == None
    ensures r.Some? ==> "min" !in item.fields ==> r.value.min == None
    ensures r.Some? && "avg" in item.fields ==> Some(r.value.avg) == ConvertOptional(item.fields["avg"], conv)
    ensures r.Some? && "max" in item.fields ==> Some(r.value.max) == ConvertOptional(item.fields["max"], conv)
    ensures r.Some? && "min" in item.fields ==> Some(r.value.min) == ConvertOptional(item.fields["min"], conv)
    ensures (item.JDict? &&
               ("avg" !in item.fields || ConvertOptional(item.fields["avg"], conv).Some?) &&
               ("max" !in item.fields || ConvertOptional(item.fields["max"], conv).Some?) &&
               ("min" !in item.fields || ConvertOptional(item.fields["min"], conv).Some?) &&
               ("day" !in item.fields || item.fields["day"].JString?))
            ==> r.Some?
  {
    if !item.JDict? then None
    else
      var f := item.fields;
      var day := GetOr(f, "day", JString(""));
      var avg := ConvertOptional(GetOr(f, "avg", JNull), conv);
      var max := ConvertOptional(GetOr(f, "max", JNull), conv);
      var min := ConvertOptional(GetOr(f, "min", JNull), conv);
      if avg.None? || max.None? || min.None? || !day.JString? then None
      else Some(ForecastDay(day.s, avg.value, max.value, min.value))
  }

  /** The item's day as a list of zero or one element. */
  function DayList(item: Json, conv: Coercions): seq<ForecastDay> {
    if ParseDay(item, conv).Some? then [ParseDay(item, conv).value] else []
  }

  /** The days of a list of items, skipping the ones that do not parse. */
  function ParseDays(items: seq<Json>, conv: Coercions): (r: seq<ForecastDay>)
    ensures |r| <= |items|
  {
    if items == [] then []
    else ParseDays(items[..|items| - 1], conv) + DayList(items[|items| - 1], conv)
  }

  /** A skipped item does not affect its neighbours, and items keep their order. */
  lemma {:induction false} ParseDaysAppend(a: seq<Json>, b: seq<Json>, conv: Coercions)
    ensures ParseDays(a + b, conv) == ParseDays(a, conv) + ParseDays(b, conv)
    decreases |b|
  {
    if b == [] {
      assert a + b == a;
    } else {
      var b0 := b[..|b| - 1];
      assert (a + b)[..|a + b| - 1] == a + b0;
      assert (a + b)[|a + b| - 1] == b[|b| - 1];
      ParseDaysAppend(a, b0, conv);
    }
  }

  /** Every parsed day comes from an item that parses to it, and every item that parses
      contributes its day. */
  lemma {:induction false} ParseDaysMembers(items: seq<Json>, conv: Coercions)
    ensures forall d :: d in ParseDays(items, conv) ==>
      exists i :: 0 <= i < |items| && ParseDay(items[i], conv) == Some(d)
    ensures forall i :: 0 <= i < |items| && ParseDay(items[i], conv).Some? ==>
      ParseDay(items[i], conv).value in ParseDays(items, conv)
  {
    if items != [] {
      var init := items[..|items| - 1];
      var last := items[|items| - 1];
      ParseDaysMembers(init, conv);
      forall d | d in ParseDays(items, conv)
        ensures exists i :: 0 <= i < |items| && ParseDay(items[i], conv) == Some(d)
      {
        if d in ParseDays(init, conv) {
          var i :| 0 <= i < |init| && ParseDay(init[i], conv) == Some(d);
          assert items[i] == init[i];
        } else {
          assert ParseDay(items[|items| - 1], conv) == Some(d);
        }
      }
      forall i | 0 <= i < |items| && ParseDay(items[i], conv).Some?
        ensures ParseDay(items[i], conv).value in ParseDays(items, conv)
      {
        if i < |init| {
          assert items[i] == init[i];
        }
      }
    }
  }

  /** The forecast built from `daily` by scanning `keys`: a key gets an entry when its value
      is a list with at least one parsed day. */
  function CollectForecast(daily: map<string, Json>, keys: seq<string>, conv: Coercions): map<string, seq<ForecastDay>> {
    if keys == [] then map[]
    else
      var prev := CollectForecast(daily, keys[..|keys| - 1], conv);
      var k := keys[|keys| - 1];
      if k in daily && daily[k].JList? && ParseDays(daily[k].items, conv) != [] then
        prev[k := ParseDays(daily[k].items, conv)]
      else prev
  }

  /** A key is in the collected forecast exactly when it was scanned and its list has a
      parsed day; its entry is those days. */
  lemma {:induction false} CollectForecastKeys(daily: map<string, Json>, keys: seq<string>, conv: Coercions, k: string)
    ensures k in CollectForecast(daily, keys, conv) <==>
      k in keys && k in daily && daily[k].JList? && ParseDays(daily[k].items, conv) != []
    ensures k in CollectForecast(daily, keys, conv) ==>
      CollectForecast(daily, keys, conv)[k] == ParseDays(daily[k].items, conv)
  {
    if keys != [] {
      var init := keys[..|keys| - 1];
      CollectForecastKeys(daily, init, conv, k);
      assert keys == init + [keys[|keys| - 1]];
    }
  }

  /** What `_parse_forecast` returns; `None` when it raises (a truthy argument that is not a
      dictionary has no `get`). */
  function ForecastSpec(forecast: Json, conv: Coercions): Option<map<string, seq<ForecastDay>>> {
    if !Truthy(forecast) then Some(map[])
    else if !forecast.JDict? then None
    else
      var daily := GetOr(forecast.fields, "daily", JDict(map[]));
      if !Truthy(daily) then Some(map[])
      // A truthy `daily` that is not a dictionary makes every key either absent or
      // raise inside the per-key `try`, so nothing is collected.
      else if !daily.JDict? then Some(map[])
      else Some(CollectForecast(daily.fields, ForecastKeys, conv))
  }

  /** `_parse_forecast`: the loops of the source, over the four keys and over each list. */
  method ParseForecast(forecast: Json, conv: Coercions) returns (r: Option<map<string, seq<ForecastDay>>>)
    ensures r == ForecastSpec(forecast, conv)
  {
    if !Truthy(forecast) {
      return Some(map[]);
    }
    if !forecast.JDict? {
      return None;
    }
    var daily := GetOr(forecast.fields, "daily", JDict(map[]));
    if !Truthy(daily) || !daily.JDict? {
      return Some(map[]);
    }
    var result: map<string, seq<ForecastDay>> := map[];
    for k := 0 to |ForecastKeys|
      invariant result == CollectForecast(daily.fields, ForecastKeys[..k], conv)
    {
      var pollutant := ForecastKeys[k];
      assert ForecastKeys[..k + 1][..k] == ForecastKeys[..k];
      if pollutant in daily.fields && daily.fields[pollutant].JList? {
        var items := daily.fields[pollutant].items;
        var forecastList: seq<ForecastDay> := [];
        for j := 0 to |items|
          invariant forecastList == ParseDays(items[..j], conv)
        {
          assert items[..j + 1][..j] == items[..j];
          var day := ParseDay(items[j], conv);
          if day.Some? {
            forecastList := forecastList + [day.value];
          }
        }
        assert items[..|items|] == items;
        if forecastList != [] {
          result := result[pollutant := forecastList];
        }
      }
    }
    assert ForecastKeys[..|ForecastKeys|] == ForecastKeys;
    return Some(result);
  }

  /** The forecast's shape: only the four keys, never an empty list, each list the parsed
      days of its items; an empty argument or a missing or empty `daily` gives `{}`. */
  lemma ForecastShape(forecast: Json, conv: Coercions, k: string)
    ensures !Truthy(forecast) ==> ForecastSpec(forecast, conv) == Some(map[])
    ensures forecast.JDict? && ("daily" !in forecast.fields || !Truthy(forecast.fields["daily"])) ==>
      ForecastSpec(forecast, conv) == Some(map[])
    ensures ForecastSpec(forecast, conv).Some? && k in ForecastSpec(forecast, conv).value ==>
      k in ForecastKeys && ForecastSpec(forecast, conv).value[k] != []
    ensures forecast.JDict? && "daily" in forecast.fields && forecast.fields["daily"].JDict? ==>
      var daily := forecast.fields["daily"].fields;
      var r := ForecastSpec(forecast, conv).value;
      (k in r <==> k in ForecastKeys && k in daily && daily[k].JList? && ParseDays(daily[k].items, conv) != []) &&
      (k in r ==> r[k] == ParseDays(daily[k].items, conv))
  {
    if forecast.JDict? && Truthy(forecast) {
      var daily := GetOr(forecast.fields, "daily", JDict(map[]));
      if Truthy(daily) && daily.JDict? {
        CollectForecastKeys(daily.fields, ForecastKeys, conv, k);
      }
    }
  }

  // ---------------------------------------------------------------- parse_station_data

  /** `_extract_value(iaqi.get(key))`, validated as an `Optional[float]` field. */
  function Reading(iaqi: map<string, Json>, key: string, conv: Coercions): Option<Option<real>> {
    OptionalFloatField(ExtractValue(GetOr(iaqi, key, JNull)), conv)
  }

  /** The `iaqi` keys of the six pollutants, in the order of `Pollutants`' fields. */
  const PollutantKeys: seq<string> := ["pm25", "pm10", "no2", "o3", "so2", "co"]

  /** The `iaqi` keys of temperature, humidity, wind and pressure. */
  const WeatherKeys: seq<string> := ["t", "h", "w", "p"]

  function PollutantValues(ps: Pollutants): seq<Option<real>> {
    [ps.pm25, ps.pm10, ps.no2, ps.o3, ps.so2, ps.co]
  }

  function WeatherValues(w: Weather): seq<Option<real>> {
    [w.temperature, w.humidity, w.wind, w.pressure]
  }

  /** The `Pollutants(...)` of `parse_station_data`: each field read from the `iaqi` key of
      the same name; validation fails when any of them does not convert. */
  function ParsePollutants(iaqi: map<string, Json>, conv: Coercions): (r: Option<Pollutants>)
    ensures r.Some? <==> forall n :: 0 <= n < |PollutantKeys| ==> Reading(iaqi, PollutantKeys[n], conv).Some?
    ensures r.Some? ==> forall n :: 0 <= n < |PollutantKeys| ==>
      Reading(iaqi, PollutantKeys[n], conv) == Some(PollutantValues(r.value)[n])
  {
    assert PollutantKeys[0] == "pm25" && PollutantKeys[1] == "pm10" && PollutantKeys[2] == "no2";
    assert PollutantKeys[3] == "o3" && PollutantKeys[4] == "so2" && PollutantKeys[5] == "co";
    var pm25, pm10, no2 := Reading(iaqi, "pm25", conv), Reading(iaqi, "pm10", conv), Reading(iaqi, "no2", conv);
    var o3, so2, co := Reading(iaqi, "o3", conv), Reading(iaqi, "so2", conv), Reading(iaqi, "co", conv);
    if pm25.None? || pm10.None? || no2.None? || o3.None? || so2.None? || co.None? then None
    else Some(Pollutants(pm25.value, pm10.value, no2.value, o3.value, so2.value, co.value))
  }

  /** The `Weather(...)` of `parse_station_data`: temperature, humidity, wind and pressure
      read from `t`, `h`, `w` and `p`; validation fails when any of them does not convert. */
  function ParseWeather(iaqi: map<string, Json>, conv: Coercions): (r: Option<Weather>)
    ensures r.Some? <==> forall n :: 0 <= n < |WeatherKeys| ==> Reading(iaqi, WeatherKeys[n], conv).Some?
    ensures r.Some? ==> forall n :: 0 <= n < |WeatherKeys| ==>
      Reading(iaqi, WeatherKeys[n], conv) == Some(WeatherValues(r.value)[n])
  {
    assert WeatherKeys[0] == "t" && WeatherKeys[1] == "h" && WeatherKeys[2] == "w" && WeatherKeys[3] == "p";
    var t, h, w, p := Reading(iaqi, "t", conv), Reading(iaqi, "h", conv), Reading(iaqi, "w", conv), Reading(iaqi, "p", conv);
    if t.None? || h.None? || w.None? || p.None? then None
    else Some(Weather(t.value, h.value, w.value, p.value))
  }

  /** `parse_station_data(raw_data, city)`: `None` when any step raises or a field fails
      validation. */
  function ParseStationData(raw: Json, city: string, conv: Coercions): (r: Option<StationData>)
    ensures r.Some? ==> raw.JDict? && r.value.city == city
  {
    if !raw.JDict? then None
    else
      var f := raw.fields;
      var cityObj := GetOr(f, "city", JDict(map[]));
      var time := GetOr(f, "time", JDict(map[]));
      var iaqi := GetOr(f, "iaqi", JDict(map[]));
      var forecastRaw := GetOr(f, "forecast", JDict(map[]));
      // `.get` on a non-dictionary raises, and so does the debug message's
      // `forecast_raw.keys()` on a truthy non-dictionary.
      if !cityObj.JDict? || !time.JDict? || !iaqi.JDict? || (Truthy(forecastRaw) && !forecastRaw.JDict?) then None
      else
        var station := StrField(GetOr(cityObj.fields, "name", JString("Unknown")));
        var aqi := IntField(GetOr(f, "aqi", JInt(0)), conv);
        var dominant := StrField(GetOr(f, "dominentpol", JString("")));
        var timestamp := StrField(GetOr(time.fields, "iso", JString("")));
        var pollutants := ParsePollutants(iaqi.fields, conv);
        var weather := ParseWeather(iaqi.fields, conv);
        var forecast := ForecastSpec(forecastRaw, conv);
        if station.None? || aqi.None? || dominant.None? || timestamp.None? ||
           pollutants.None? || weather.None? || forecast.None? then None
        else
          Some(StationData(
            city, station.value, timestamp.value, aqi.value, dominant.value,
            pollutants.value, weather.value, forecast.value))
  }

  /** A response without any of the fields read parses to the defaults: station
      `"Unknown"`, AQI 0, empty dominant pollutant and time stamp, no measurements and no
      forecast; the city is always the argument. */
  lemma ParseDefaults(raw: Json, city: string, conv: Coercions)
    requires raw.JDict?
    requires "city" !in raw.fields && "aqi" !in raw.fields && "dominentpol" !in raw.fields
    requires "time" !in raw.fields && "iaqi" !in raw.fields && "forecast" !in raw.fields
    ensures ParseStationData(raw, city, conv) == Some(StationData(
      city, "Unknown", "", 0, "",
      Pollutants(None, None, None, None, None, None),
      Weather(None, None, None, None),
      map[]))
  {
    assert ParsePollutants(map[], conv) == Some(Pollutants(None, None, None, None, None, None));
    assert ParseWeather(map[], conv) == Some(Weather(None, None, None, None));
    ForecastShape(JDict(map[]), conv, "");
  }

  /** A parsed reading takes its city from the argument, its scalar fields from the
      response (or their defaults), its measurements from the `iaqi` keys of the same name
      (`t`, `h`, `w`, `p` for the weather) and its forecast from `_parse_forecast`. */
  lemma ParsedFields(raw: Json, city: string, conv: Coercions)
    requires ParseStationData(raw, city, conv).Some?
    ensures var sd := ParseStationData(raw, city, conv).value;
      var f := raw.fields;
      sd.city == city &&
      ("aqi" in f ==> IntField(f["aqi"], conv) == Some(sd.aqi)) &&
      ("dominentpol" in f ==> f["dominentpol"] == JString(sd.dominant)) &&
      ("city" in f && "name" in f["city"].fields ==> f["city"].fields["name"] == JString(sd.station)) &&
      ("time" in f && "iso" in f["time"].fields ==> f["time"].fields["iso"] == JString(sd.timestamp)) &&
      ("forecast" in f ==> ForecastSpec(f["forecast"], conv) == Some(sd.forecast))
    ensures var sd := ParseStationData(raw, city, conv).value;
      var iaqi := GetOr(raw.fields, "iaqi", JDict(map[])).fields;
      ParsePollutants(iaqi, conv) == Some(sd.pollutants) && ParseWeather(iaqi, conv) == Some(sd.weather)
  {
  }

  /** Parsing fails, rather than raising, on a response that is not a dictionary, on an
      AQI that does not validate (WAQI's `"-"`, say, when the string conversion rejects
      it), and on a truthy forecast that is not a dictionary. */
  lemma ParseFailures(raw: Json, city: string, conv: Coercions)
    ensures !raw.JDict? ==> ParseStationData(raw, city, conv) == None
    ensures raw.JDict? && "aqi" in raw.fields && IntField(raw.fields["aqi"], conv).None? ==>
      ParseStationData(raw, city, conv) == None
    ensures raw.JDict? && "forecast" in raw.fields && Truthy(raw.fields["forecast"]) && !raw.fields["forecast"].JDict? ==>
      ParseStationData(raw, city, conv) == None
  {
  }

  /** Parsing succeeds exactly when every field it reads is of the right kind: a dictionary
      response whose `city` and `time`, when present, are dictionaries with a string `name`
      and `iso`, whose `iaqi`, when present, is a dictionary all ten of whose readings
      validate, whose AQI validates as an integer, whose dominant pollutant is a string, and
      whose forecast is falsy or a dictionary. */
  lemma ParseSucceeds(raw: Json, city: string, conv: Coercions)
    ensures ParseStationData(raw, city, conv).Some? <==>
      raw.JDict? &&
      var f := raw.fields;
      ("city" in f ==> f["city"].JDict? && ("name" in f["city"].fields ==> f["city"].fields["name"].JString?)) &&
      ("time" in f ==> f["time"].JDict? && ("iso" in f["time"].fields ==> f["time"].fields["iso"].JString?)) &&
      ("iaqi" in f ==>
         f["iaqi"].JDict? &&
         (forall n :: 0 <= n < |PollutantKeys| ==> Reading(f["iaqi"].fields, PollutantKeys[n], conv).Some?) &&
         (forall n :: 0 <= n < |WeatherKeys| ==> Reading(f["iaqi"].fields, WeatherKeys[n], conv).Some?)) &&
      ("aqi" in f ==> IntField(f["aqi"], conv).Some?) &&
      ("dominentpol" in f ==> f["dominentpol"].JString?) &&
      ("forecast" in f && Truthy(f["forecast"]) ==> f["forecast"].JDict?)
  {
  }
}
