/** The OpenWeatherMap normalizer: a One Call response (current conditions
    and daily forecasts) to the canonical record. Every `Option` field is a
    key that may be absent from the provider's JSON object. */
module OpenWeather {
  import opened Wrappers
  import opened Numeric
  import Text
  import Codes
  import opened Canonical

  datatype Condition = Condition(id: Option<int>, description: Option<string>)

  /** `temp` is a number for current conditions and an object of day parts
      for daily data; the hourly converter accepts both. */
  datatype Temperature = Degrees(celsius: real) | DayParts(day: Option<real>)

  datatype Rain = Rain(lastHour: Option<real>)

  datatype Hourly = Hourly(
    temp: Option<Temperature>,
    weather: Option<seq<Condition>>,
    windSpeed: Option<real>,
    windDeg: Option<real>,
    rain: Option<Rain>,
    humidity: Option<real>,
    pressure: Option<real>,
    visibility: Option<real>,
    clouds: Option<real>,
    feelsLike: Option<real>,
    uvi: Option<real>)

  datatype DailyTemperature = DailyTemperature(max: Option<real>, min: Option<real>, day: Option<real>)

  datatype Daily = Daily(dt: Option<int>, temp: Option<DailyTemperature>, snow: Option<real>, uvi: Option<real>)

  datatype Payload = Payload(lat: Option<real>, lon: Option<real>, current: Option<Hourly>, daily: Option<seq<Daily>>)

  /** The Celsius reading of an hourly entry, 0 when absent. */
  function CelsiusOf(h: Hourly): real {
    match h.temp
    case None => 0.0
    case Some(Degrees(c)) => c
    case Some(DayParts(day)) => day.GetOr(0.0)
  }

  /** The first entry of an hourly entry's `weather` list: `None` when the
      list is present but empty, where wttr.in's `[0]` raises; an entry
      with neither id nor description when the list is absent. */
  function FirstCondition(h: Hourly): (first: Option<Condition>)
    ensures first.None? <==> h.weather == Some([])
    ensures h.weather.None? ==> first == Some(Condition(None, None))
    ensures h.weather.Some? && h.weather.value != [] ==> first == Some(h.weather.value[0])
  {
    match h.weather
    case None => Some(Condition(None, None))
    case Some(conditions) => if conditions == [] then None else Some(conditions[0])
  }

  /** The current condition of hourly data whose first `weather` entry is
      `first`. */
  function Reading(h: Hourly, first: Condition): (c: CurrentCondition)
    ensures
      var t := CelsiusOf(h);
      var kmph := h.windSpeed.GetOr(0.0) * KmphPerMps;
      && RoundsTo(t, c.tempC)
      && RoundsTo(Fahrenheit(t), c.tempF)
      && c.weatherCode == Codes.WwoCode(first.id.GetOr(Codes.ClearSkyId))
      && c.weatherDesc == Text.Capitalize(first.description.GetOr("Clear"))
      && RoundsTo(kmph, c.windspeedKmph)
      && RoundsTo(kmph * MphPerKmph, c.windspeedMiles)
      && c.winddirDegree == h.windDeg.GetOr(0.0)
      && c.winddir16Point == Codes.Compass(c.winddirDegree)
      && c.precipMM == (if h.rain.Some? then h.rain.value.lastHour.GetOr(0.0) else 0.0)
      && c.humidity == h.humidity.GetOr(0.0)
      && c.pressure == h.pressure.GetOr(0.0)
      && c.visibility == h.visibility.GetOr(10000.0)
      && c.cloudcover == h.clouds.GetOr(0.0)
      && RoundsTo(h.feelsLike.GetOr(t), c.feelsLikeC)
      && c.uvIndex == Trunc(h.uvi.GetOr(0.0))
      && c.dayFields.None?
  {
    var t := CelsiusOf(h);
    var kmph := h.windSpeed.GetOr(0.0) * KmphPerMps;
    var degrees := h.windDeg.GetOr(0.0);
    CurrentCondition(
      tempC := Round(t),
      tempF := Round(Fahrenheit(t)),
      weatherCode := Codes.WwoCode(first.id.GetOr(Codes.ClearSkyId)),
      weatherDesc := Text.Capitalize(first.description.GetOr("Clear")),
      windspeedKmph := Round(kmph),
      windspeedMiles := Round(kmph * MphPerKmph),
      winddirDegree := degrees,
      winddir16Point := Codes.Compass(degrees),
      precipMM := if h.rain.Some? then h.rain.value.lastHour.GetOr(0.0) else 0.0,
      humidity := h.humidity.GetOr(0.0),
      pressure := h.pressure.GetOr(0.0),
      visibility := h.visibility.GetOr(10000.0),
      cloudcover := h.clouds.GetOr(0.0),
      feelsLikeC := Round(h.feelsLike.GetOr(t)),
      uvIndex := Trunc(h.uvi.GetOr(0.0)),
      dayFields := None)
  }

  /** Hourly data to a current condition; `None` when the entry's `weather`
      list is present but empty, where wttr.in's `[0]` raises. Without a
      `weather` list the reading is clear sky, described as "Clear". */
  function ConvertHourly(h: Hourly): (r: Option<CurrentCondition>)
    ensures r.None? <==> h.weather == Some([])
    ensures r.Some? ==> r.value == Reading(h, FirstCondition(h).value)
    ensures r.Some? && h.weather.None? ==>
      r.value.weatherCode == Codes.ClearSky && r.value.weatherDesc == "Clear"
  {
    var first := FirstCondition(h);
    if first.None? then None
    else
      Text.CapitalizeClear();
      Some(Reading(h, first.value))
  }

  /** A daily entry to a forecast day; every missing temperature reads as 0 °C. */
  function ConvertDaily(d: Daily): (r: DailyForecast)
    ensures
      var temp := d.temp.GetOr(DailyTemperature(None, None, None));
      var max, min, day := temp.max.GetOr(0.0), temp.min.GetOr(0.0), temp.day.GetOr(0.0);
      && r.date == UnixTime(d.dt.GetOr(0))
      && RoundsTo(max, r.maxtempC) && RoundsTo(Fahrenheit(max), r.maxtempF)
      && RoundsTo(min, r.mintempC) && RoundsTo(Fahrenheit(min), r.mintempF)
      && RoundsTo(day, r.avgtempC) && RoundsTo(Fahrenheit(day), r.avgtempF)
      && r.totalSnowCm == d.snow.GetOr(0.0)
      && r.sunHour == 12.0
      && r.uvIndex == Trunc(d.uvi.GetOr(0.0))
      && r.carried.None?
  {
    var temp := d.temp.GetOr(DailyTemperature(None, None, None));
    var max, min, day := temp.max.GetOr(0.0), temp.min.GetOr(0.0), temp.day.GetOr(0.0);
    DailyForecast(
      date := UnixTime(d.dt.GetOr(0)),
      maxtempC := Round(max), maxtempF := Round(Fahrenheit(max)),
      mintempC := Round(min), mintempF := Round(Fahrenheit(min)),
      avgtempC := Round(day), avgtempF := Round(Fahrenheit(day)),
      totalSnowCm := d.snow.GetOr(0.0),
      sunHour := 12.0,
      uvIndex := Trunc(d.uvi.GetOr(0.0)),
      carried := None)
  }

  /** A whole response to the canonical record, keeping at most `days`
      forecast days (Python's `[:days]`) in the provider's order. */
  function Convert(p: Payload, days: int): (r: Outcome)
    ensures r.Empty? <==> p.current.None?
    ensures r.Fault? <==> p.current.Some? && p.current.value.weather == Some([])
    ensures r.Record? ==>
      && Some(r.snapshot.current) == ConvertHourly(p.current.value)
      && r.snapshot.request == Query(p.lat.GetOr(0.0), p.lon.GetOr(0.0))
    ensures r.Record? && p.daily.None? ==> r.snapshot.weather == []
    ensures r.Record? && p.daily.Some? ==>
      && |r.snapshot.weather| == SliceLength(|p.daily.value|, days)
      && forall i :: 0 <= i < |r.snapshot.weather| ==> r.snapshot.weather[i] == ConvertDaily(p.daily.value[i])
  {
    if p.current.None? then Empty
    else
      var current := ConvertHourly(p.current.value);
      if current.None? then Fault
      else
        var weather := if p.daily.Some? then MapAll(ConvertDaily, Slice(p.daily.value, days)) else [];
        Record(Snapshot(Query(p.lat.GetOr(0.0), p.lon.GetOr(0.0)), current.value, weather))
  }

  /** A reading of 20.4 °C with a 10 m/s wind from 90 degrees shows as
      20 °C, 36 km/h (22 mph) from the east. */
  lemma EastWindExample(days: int)
    ensures
      var h := Hourly(Some(Degrees(20.4)), None, Some(10.0), Some(90.0), None,
                      None, None, None, None, None, None);
      var r := Convert(Payload(None, None, Some(h), None), days);
      && r.Record?
      && r.snapshot.current.tempC == 20
      && r.snapshot.current.tempF == 69
      && r.snapshot.current.windspeedKmph == 36
      && r.snapshot.current.windspeedMiles == 22
      && r.snapshot.current.winddir16Point == "E"
      && r.snapshot.current.weatherCode == 113
      && r.snapshot.weather == []
  {
    RoundNearest(20.4, 20);
    RoundNearest(Fahrenheit(20.4), 69);
    DisplayConversions();
    Codes.CompassExamples();
  }

  /** The number of days only truncates the forecast: fewer days give the
      same outcome kind, the same current conditions and query, and a prefix
      of the forecast. */
  lemma FewerDays(p: Payload, a: int, b: int)
    requires 0 <= a <= b
    ensures Convert(p, a).Record? <==> Convert(p, b).Record?
    ensures Convert(p, a).Record? ==>
      var x, y := Convert(p, a).snapshot, Convert(p, b).snapshot;
      && x.current == y.current && x.request == y.request
      && |x.weather| <= |y.weather| && x.weather == y.weather[..|x.weather|]
  {
    if p.current.Some? && p.daily.Some? {
      FewerDaysPrefix(ConvertDaily, p.daily.value, a, b);
    }
  }
}
