/** The backend's records (backend/models.py) and the pydantic field checks the parser
    relies on when it builds them. */
module Models {
  import opened Wrappers
  import opened JsonTree

  datatype Pollutants = Pollutants(
    pm25: Option<real>, pm10: Option<real>, no2: Option<real>,
    o3: Option<real>, so2: Option<real>, co: Option<real>)

  datatype Weather = Weather(
    temperature: Option<real>, humidity: Option<real>, wind: Option<real>, pressure: Option<real>)

  datatype ForecastDay = ForecastDay(day: string, avg: Option<real>, max: Option<real>, min: Option<real>)

  /** One station reading; `forecast` maps a pollutant key to its days. */
  datatype StationData = StationData(
    city: string,
    station: string,
    timestamp: string,
    aqi: int,
    dominant: string,
    pollutants: Pollutants,
    weather: Weather,
    forecast: map<string, seq<ForecastDay>>)

  datatype CityInfo = CityInfo(city: string, stationId: Option<string>, stationName: Option<string>)

  /** A `str` field: only strings validate. */
  function StrField(x: Json): (r: Option<string>)
    ensures r.Some? <==> x.JString?
    ensures x.JString? ==> r.value == x.s
  {
    if x.JString? then Some(x.s) else None
  }

  /** An `int` field in lax mode: integers, booleans, floats without a fractional part and
      integer strings validate. */
  function IntField(x: Json, conv: Coercions): (r: Option<int>)
    ensures x.JInt? ==> r == Some(x.i)
    ensures x.JNull? || x.JList? || x.JDict? ==> r == None
    ensures x.JReal? ==> (r.Some? <==> x.r == x.r.Floor as real)
    ensures x.JReal? && r.Some? ==> r.value == x.r.Floor && r.value as real == x.r
    ensures x.JBool? ==> r == Some(if x.b then 1 else 0)
    ensures x.JString? ==> r == conv.toInt(x.s)
  {
    match x
    case JInt(i) => Some(i)
    case JBool(b) => Some(if b then 1 else 0)
    case JReal(v) => if v == v.Floor as real then Some(v.Floor) else None
    case JString(s) => conv.toInt(s)
    case _ => None
  }

  /** An `Optional[float]` field: `None` is accepted as itself (`Some(None)`), everything
      else as `float()` would convert it; the outer `None` is a validation error. */
  function OptionalFloatField(x: Json, conv: Coercions): (r: Option<Option<real>>)
    ensures x.JNull? ==> r == Some(None)
    ensures !x.JNull? ==> (r.Some? <==> PyFloat(x, conv).Some?)
    ensures !x.JNull? && r.Some? ==> r.value == PyFloat(x, conv)
  {
    if x.JNull? then Some(None)
    else if PyFloat(x, conv).Some? then Some(PyFloat(x, conv))
    else None
  }
}
