/** The AccuWeather normalizer: a list of daily forecasts to the canonical
    record. The provider gives no current conditions, so the first day stands
    in for them: wttr.in converts it like any day and then drops the
    day-only keys. Temperatures are read as Celsius, wind speeds as mph. */
module AccuWeather {
  import opened Wrappers
  import opened Numeric
  import opened Canonical

  datatype Measure = Measure(value: Option<real>)

  datatype Range = Range(maximum: Option<Measure>, minimum: Option<Measure>)

  datatype Direction = Direction(degrees: Option<real>)

  datatype Wind = Wind(speed: Option<Measure>, direction: Option<Direction>)

  datatype Day = Day(
    date: Option<string>,
    temperature: Option<Range>,
    realFeel: Option<Range>,
    wind: Option<Wind>,
    hoursOfSun: Option<real>,
    uvIndex: Option<int>,
    iconPhrase: Option<string>)

  /** A response is a JSON list of days, or any other JSON value. */
  datatype Payload = DayList(days: seq<Day>) | NotAList

  const NoRange := Range(None, None)
  const NoWind := Wind(None, None)

  function ValueOf(m: Option<Measure>, default: real): real {
    m.GetOr(Measure(None)).value.GetOr(default)
  }

  function MaxTemp(d: Day): real { ValueOf(d.temperature.GetOr(NoRange).maximum, 0.0) }
  function MinTemp(d: Day): real { ValueOf(d.temperature.GetOr(NoRange).minimum, 0.0) }

  /** Wind speed in mph, 0 when absent. */
  function WindMph(d: Day): real { ValueOf(d.wind.GetOr(NoWind).speed, 0.0) }

  /** A day to a forecast entry; the average is the mean of maximum and
      minimum. Every entry also carries the current-condition keys of the
      same day, so a later day's description, wind and feels-like reading
      reach the record only through its own entry. */
  function ConvertDaily(d: Day): (r: DailyForecast)
    ensures
      var avg := (MaxTemp(d) + MinTemp(d)) / 2.0;
      && r.date == DateText(d.date.GetOr(""))
      && RoundsTo(MaxTemp(d), r.maxtempC) && RoundsTo(Fahrenheit(MaxTemp(d)), r.maxtempF)
      && RoundsTo(MinTemp(d), r.mintempC) && RoundsTo(Fahrenheit(MinTemp(d)), r.mintempF)
      && RoundsTo(avg, r.avgtempC) && RoundsTo(Fahrenheit(avg), r.avgtempF)
      && r.totalSnowCm == 0.0
      && r.sunHour == d.hoursOfSun.GetOr(12.0)
      && r.uvIndex == d.uvIndex.GetOr(0)
      && r.carried == Some(ConvertCurrent(d))
  {
    var max, min := MaxTemp(d), MinTemp(d);
    var avg := (max + min) / 2.0;
    DailyForecast(
      date := DateText(d.date.GetOr("")),
      maxtempC := Round(max), maxtempF := Round(Fahrenheit(max)),
      mintempC := Round(min), mintempF := Round(Fahrenheit(min)),
      avgtempC := Round(avg), avgtempF := Round(Fahrenheit(avg)),
      totalSnowCm := 0.0,
      sunHour := d.hoursOfSun.GetOr(12.0),
      uvIndex := d.uvIndex.GetOr(0),
      carried := Some(ConvertCurrent(d)))
  }

  /** The current-condition keys a converted day carries: the average temperature
      as the reading, km/h derived from mph, and fixed values for what the
      provider's daily summary lacks (code 113, "N", 50 % humidity,
      1013 hPa, 10000 m visibility, no precipitation or cloud). */
  function ConvertCurrent(d: Day): (r: CurrentCondition)
    ensures
      var avg := (MaxTemp(d) + MinTemp(d)) / 2.0;
      && RoundsTo(avg, r.tempC) && RoundsTo(Fahrenheit(avg), r.tempF)
      && r.weatherCode == 113 && r.winddir16Point == "N"
      && r.weatherDesc == d.iconPhrase.GetOr("Clear")
      && RoundsTo(WindMph(d) * KmphPerMph, r.windspeedKmph)
      && RoundsTo(WindMph(d), r.windspeedMiles)
      && r.winddirDegree == d.wind.GetOr(NoWind).direction.GetOr(Direction(None)).degrees.GetOr(0.0)
      && r.precipMM == 0.0 && r.humidity == 50.0 && r.pressure == 1013.0
      && r.visibility == 10000.0 && r.cloudcover == 0.0
      && RoundsTo(ValueOf(d.realFeel.GetOr(NoRange).maximum, avg), r.feelsLikeC)
      && r.uvIndex == d.uvIndex.GetOr(0)
      && r.dayFields.None?
  {
    var avg := (MaxTemp(d) + MinTemp(d)) / 2.0;
    var wind := d.wind.GetOr(NoWind);
    CurrentCondition(
      tempC := Round(avg),
      tempF := Round(Fahrenheit(avg)),
      weatherCode := 113,
      weatherDesc := d.iconPhrase.GetOr("Clear"),
      windspeedKmph := Round(WindMph(d) * KmphPerMph),
      windspeedMiles := Round(WindMph(d)),
      winddirDegree := wind.direction.GetOr(Direction(None)).degrees.GetOr(0.0),
      winddir16Point := "N",
      precipMM := 0.0,
      humidity := 50.0,
      pressure := 1013.0,
      visibility := 10000.0,
      cloudcover := 0.0,
      feelsLikeC := Round(ValueOf(d.realFeel.GetOr(NoRange).maximum, avg)),
      uvIndex := d.uvIndex.GetOr(0),
      dayFields := None)
  }

  /** What is left of a converted day once its `date` and its six
      temperatures are removed: the carried current-condition keys, plus the
      day's `totalSnow_cm` and `sunHour`, which are not removed. */
  function WithoutDayKeys(e: DailyForecast): CurrentCondition
    requires e.carried.Some?
  {
    e.carried.value.(dayFields := Some(DayFields(e.totalSnowCm, e.sunHour)))
  }

  /** A whole response to the canonical record: `Empty` unless it is a
      non-empty list; the first day gives the current conditions even when
      no forecast day is kept. */
  function Convert(p: Payload, days: int): (r: Outcome)
    ensures r.Empty? <==> p.NotAList? || p.days == []
    ensures !r.Fault?
    ensures r.Record? ==>
      && r.snapshot.current == WithoutDayKeys(ConvertDaily(p.days[0]))
      && r.snapshot.request == Query(0.0, 0.0)
      && |r.snapshot.weather| == SliceLength(|p.days|, days)
      && forall i :: 0 <= i < |r.snapshot.weather| ==> r.snapshot.weather[i] == ConvertDaily(p.days[i])
  {
    if p.NotAList? || p.days == [] then Empty
    else Record(Snapshot(Query(0.0, 0.0), WithoutDayKeys(ConvertDaily(p.days[0])), MapAll(ConvertDaily, Slice(p.days, days))))
  }

  /** The current conditions are the first day's current-condition keys,
      with its snow (always 0) and its hours of sun (12 when absent). */
  lemma CurrentIsFirstDay(p: Payload, days: int)
    requires p.DayList? && p.days != []
    ensures Convert(p, days).snapshot.current
      == ConvertCurrent(p.days[0]).(dayFields := Some(DayFields(0.0, p.days[0].hoursOfSun.GetOr(12.0))))
  {
  }

  /** Each kept day carries its own current-condition keys, not the first
      day's: the description of day `i` is day `i`'s icon phrase. */
  lemma DaysCarryOwnKeys(p: Payload, days: int, i: int)
    requires p.DayList? && 0 <= i < |Slice(p.days, days)|
    ensures Convert(p, days).snapshot.weather[i].carried == Some(ConvertCurrent(p.days[i]))
    ensures Convert(p, days).snapshot.weather[i].carried.value.weatherDesc == p.days[i].iconPhrase.GetOr("Clear")
  {
  }

  /** The current reading and the first forecast day agree: both come from
      the first day of the list. */
  lemma CurrentMatchesFirstDay(p: Payload, days: int)
    requires p.DayList? && Slice(p.days, days) != []
    ensures
      var s := Convert(p, days).snapshot;
      s.current.tempC == s.weather[0].avgtempC && s.current.tempF == s.weather[0].avgtempF
      && s.current.uvIndex == s.weather[0].uvIndex
  {
    var s := Convert(p, days).snapshot;
    var avg := (MaxTemp(p.days[0]) + MinTemp(p.days[0])) / 2.0;
    RoundsToUnique(avg, s.current.tempC, s.weather[0].avgtempC);
    RoundsToUnique(Fahrenheit(avg), s.current.tempF, s.weather[0].avgtempF);
  }

  /** Wind of 10 mph shows as 16 km/h and 10 mph. */
  lemma WindExample()
    ensures
      var d := Day(None, None, None, Some(Wind(Some(Measure(Some(10.0))), None)), None, None, None);
      ConvertCurrent(d).windspeedKmph == 16 && ConvertCurrent(d).windspeedMiles == 10
  {
    DisplayConversions();
    RoundNearest(10.0, 10);
  }

  /** The number of days only truncates the forecast: fewer days give the
      same outcome kind, the same current conditions and query, and a prefix
      of the forecast. */
  lemma FewerDays(p: Payload, a: int, b: int)
    requires 0 <= a <= b
    ensures Convert(p, a).Record? <==> Convert(p, b).Record?
    ensures Convert(p, a).Record? ==>
      var x, y := Convert(p, a).snapshot, Convert(p, b).snapshot;
      && x.current == y.current && x.request == y.request
      && |x.weather| <= |y.weather| && x.weather == y.weather[..|x.weather|]
  {
    if p.DayList? && p.days != [] {
      FewerDaysPrefix(ConvertDaily, p.days, a, b);
    }
  }
}
