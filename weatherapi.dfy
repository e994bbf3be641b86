/** The WeatherAPI normalizer: a forecast response to the canonical record.
    Unlike the OpenWeatherMap path it passes the provider's condition code
    and compass label through unchanged, and it takes the Fahrenheit and
    mile-per-hour values from the provider when they are given. */
module WeatherApi {
  import opened Wrappers
  import opened Numeric
  import Codes
  import opened Canonical

  datatype Condition = Condition(code: Option<int>, text: Option<string>)

  datatype Current = Current(
    tempC: Option<real>,
    tempF: Option<real>,
    condition: Option<Condition>,
    windKph: Option<real>,
    windMph: Option<real>,
    windDegree: Option<real>,
    windDir: Option<string>,
    precipMm: Option<real>,
    humidity: Option<real>,
    pressureMb: Option<real>,
    visKm: Option<real>,
    cloud: Option<real>,
    feelslikeC: Option<real>,
    uv: Option<real>)

  datatype Location = Location(lat: Option<real>, lon: Option<real>)

  datatype DaySummary = DaySummary(
    maxtempC: Option<real>, maxtempF: Option<real>,
    mintempC: Option<real>, mintempF: Option<real>,
    avgtempC: Option<real>, avgtempF: Option<real>,
    totalsnowCm: Option<real>, uv: Option<real>)

  datatype ForecastDay = ForecastDay(date: Option<string>, day: Option<DaySummary>)

  datatype Forecast = Forecast(forecastday: Option<seq<ForecastDay>>)

  datatype Payload = Payload(current: Option<Current>, location: Option<Location>, forecast: Option<Forecast>)

  /** The code WeatherAPI's current conditions default to. */
  const DefaultCode: int := 1000

  /** Current conditions to the canonical entry. */
  function ConvertCurrent(c: Current): (r: CurrentCondition)
    ensures
      var t := c.tempC.GetOr(0.0);
      var kph := c.windKph.GetOr(0.0);
      var condition := c.condition.GetOr(Condition(None, None));
      && RoundsTo(t, r.tempC)
      && RoundsTo(c.tempF.GetOr(Fahrenheit(t)), r.tempF)
      && r.weatherCode == condition.code.GetOr(DefaultCode)
      && r.weatherDesc == condition.text.GetOr("Clear")
      && RoundsTo(kph, r.windspeedKmph)
      && RoundsTo(c.windMph.GetOr(kph * MphPerKmph), r.windspeedMiles)
      && r.winddirDegree == c.windDegree.GetOr(0.0)
      && r.winddir16Point == c.windDir.GetOr("N")
      && r.precipMM == c.precipMm.GetOr(0.0)
      && r.humidity == c.humidity.GetOr(0.0)
      && r.pressure == c.pressureMb.GetOr(0.0)
      && r.visibility == c.visKm.GetOr(0.0) * 1000.0
      && r.cloudcover == c.cloud.GetOr(0.0)
      && RoundsTo(c.feelslikeC.GetOr(t), r.feelsLikeC)
      && r.uvIndex == Trunc(c.uv.GetOr(0.0))
      && r.dayFields.None?
  {
    var t := c.tempC.GetOr(0.0);
    var kph := c.windKph.GetOr(0.0);
    var condition := c.condition.GetOr(Condition(None, None));
    CurrentCondition(
      tempC := Round(t),
      tempF := Round(c.tempF.GetOr(Fahrenheit(t))),
      weatherCode := condition.code.GetOr(DefaultCode),
      weatherDesc := condition.text.GetOr("Clear"),
      windspeedKmph := Round(kph),
      windspeedMiles := Round(c.windMph.GetOr(kph * MphPerKmph)),
      winddirDegree := c.windDegree.GetOr(0.0),
      winddir16Point := c.windDir.GetOr("N"),
      precipMM := c.precipMm.GetOr(0.0),
      humidity := c.humidity.GetOr(0.0),
      pressure := c.pressureMb.GetOr(0.0),
      visibility := c.visKm.GetOr(0.0) * 1000.0,
      cloudcover := c.cloud.GetOr(0.0),
      feelsLikeC := Round(c.feelslikeC.GetOr(t)),
      uvIndex := Trunc(c.uv.GetOr(0.0)),
      dayFields := None)
  }

  /** A forecast day to the canonical entry. Each Fahrenheit field is the
      provider's own, rounded, and reads 0 when absent: it is not derived
      from the Celsius field. */
  function ConvertDay(d: ForecastDay): (r: DailyForecast)
    ensures
      var s := d.day.GetOr(DaySummary(None, None, None, None, None, None, None, None));
      && r.date == DateText(d.date.GetOr(""))
      && RoundsTo(s.maxtempC.GetOr(0.0), r.maxtempC) && RoundsTo(s.maxtempF.GetOr(0.0), r.maxtempF)
      && RoundsTo(s.mintempC.GetOr(0.0), r.mintempC) && RoundsTo(s.mintempF.GetOr(0.0), r.mintempF)
      && RoundsTo(s.avgtempC.GetOr(0.0), r.avgtempC) && RoundsTo(s.avgtempF.GetOr(0.0), r.avgtempF)
      && r.totalSnowCm == s.totalsnowCm.GetOr(0.0)
      && r.sunHour == 12.0
      && r.uvIndex == Trunc(s.uv.GetOr(0.0))
      && r.carried.None?
  {
    var s := d.day.GetOr(DaySummary(None, None, None, None, None, None, None, None));
    DailyForecast(
      date := DateText(d.date.GetOr("")),
      maxtempC := Round(s.maxtempC.GetOr(0.0)), maxtempF := Round(s.maxtempF.GetOr(0.0)),
      mintempC := Round(s.mintempC.GetOr(0.0)), mintempF := Round(s.mintempF.GetOr(0.0)),
      avgtempC := Round(s.avgtempC.GetOr(0.0)), avgtempF := Round(s.avgtempF.GetOr(0.0)),
      totalSnowCm := s.totalsnowCm.GetOr(0.0),
      sunHour := 12.0,
      uvIndex := Trunc(s.uv.GetOr(0.0)),
      carried := None)
  }

  /** The forecast days of a response, if it has them. */
  function ForecastDays(p: Payload): seq<ForecastDay> {
    if p.forecast.Some? && p.forecast.value.forecastday.Some? then p.forecast.value.forecastday.value else []
  }

  /** A whole response to the canonical record; `Empty` unless both the
      current conditions and the location are present. */
  function Convert(p: Payload, days: int): (r: Outcome)
    ensures r.Empty? <==> p.current.None? || p.location.None?
    ensures !r.Fault?
    ensures r.Record? ==>
      && r.snapshot.current == ConvertCurrent(p.current.value)
      && r.snapshot.request == Query(p.location.value.lat.GetOr(0.0), p.location.value.lon.GetOr(0.0))
      && |r.snapshot.weather| == SliceLength(|ForecastDays(p)|, days)
      && forall i :: 0 <= i < |r.snapshot.weather| ==> r.snapshot.weather[i] == ConvertDay(ForecastDays(p)[i])
  {
    if p.current.None? || p.location.None? then Empty
    else
      var location := p.location.value;
      Record(Snapshot(
        Query(location.lat.GetOr(0.0), location.lon.GetOr(0.0)),
        ConvertCurrent(p.current.value),
        MapAll(ConvertDay, Slice(ForecastDays(p), days))))
  }

  /** Current conditions without a condition object carry code 1000, which
      is not a code of the canonical table, and a wind label that need not be
      a compass point. */
  lemma PassThroughExample()
    ensures
      var c := Current(None, None, None, None, None, None, Some("east"),
                       None, None, None, None, None, None, None);
      && ConvertCurrent(c).weatherCode == DefaultCode
      && DefaultCode !in Codes.WwoCodes
      && ConvertCurrent(c).winddir16Point !in Codes.CompassPoints
  {
  }

  /** The number of days only truncates the forecast: fewer days give the
      same outcome kind, the same current conditions and query, and a prefix
      of the forecast. */
  lemma FewerDays(p: Payload, a: int, b: int)
    requires 0 <= a <= b
    ensures Convert(p, a).Record? <==> Convert(p, b).Record?
    ensures Convert(p, a).Record? ==>
      var x, y := Convert(p, a).snapshot, Convert(p, b).snapshot;
      && x.current == y.current && x.request == y.request
      && |x.weather| <= |y.weather| && x.weather == y.weather[..|x.weather|]
  {
    FewerDaysPrefix(ConvertDay, ForecastDays(p), a, b);
  }
}
