/** The canonical (wttr.in / World Weather Online) weather record every
    normalizer produces, and the sequence helpers the normalizers share. */
module Canonical {
  import opened Wrappers

  /** The `request` entry: the coordinates the record is for. */
  datatype Query = Query(lat: real, lon: real)

  /** A forecast day's `date`: OpenWeatherMap passes its Unix timestamp
      through, the other providers a date string. */
  datatype DateStamp = UnixTime(seconds: int) | DateText(text: string)

  /** The day-summary keys `totalSnow_cm` and `sunHour`. */
  datatype DayFields = DayFields(totalSnowCm: real, sunHour: real)

  /** One `current_condition` entry. Fields wttr.in fills with
      `int(round(...))` or `int(...)` are integers; fields it passes through
      with `str(...)` keep the provider's number. `dayFields` holds the
      day-summary keys an entry built from a forecast day keeps (AccuWeather);
      it is `None` where the entry has no such keys. */
  datatype CurrentCondition = CurrentCondition(
    tempC: int,
    tempF: int,
    weatherCode: int,
    weatherDesc: string,
    windspeedKmph: int,
    windspeedMiles: int,
    winddirDegree: real,
    winddir16Point: string,
    precipMM: real,
    humidity: real,
    pressure: real,
    visibility: real,
    cloudcover: real,
    feelsLikeC: int,
    uvIndex: int,
    dayFields: Option<DayFields>)

  /** One `weather` entry (a forecast day); its `hourly` list is always
      empty. `carried` holds the current-condition keys an entry also
      carries (AccuWeather's days do); it is `None` where it carries none. */
  datatype DailyForecast = DailyForecast(
    date: DateStamp,
    maxtempC: int,
    maxtempF: int,
    mintempC: int,
    mintempF: int,
    avgtempC: int,
    avgtempF: int,
    totalSnowCm: real,
    sunHour: real,
    uvIndex: int,
    carried: Option<CurrentCondition>)

  /** The `data` object of a normalized response. */
  datatype Snapshot = Snapshot(request: Query, current: CurrentCondition, weather: seq<DailyForecast>)

  /** What a fetch or a normalizer ends in: a record, Python's `None`, or a
      raised exception. */
  datatype Outcome = Record(snapshot: Snapshot) | Empty | Fault

  /** The number of elements Python's slice `s[:stop]` keeps. */
  function SliceLength(length: nat, stop: int): (n: nat)
    ensures n <= length
  {
    if stop >= 0 then (if stop < length then stop else length)
    else if length + stop > 0 then length + stop else 0
  }

  /** Python's `s[:stop]`: a negative `stop` counts from the end. */
  function Slice<T>(s: seq<T>, stop: int): (r: seq<T>)
    ensures 0 <= stop <= |s| ==> r == s[..stop]
    ensures stop > |s| ==> r == s
    ensures stop < 0 && -stop < |s| ==> r == s[..|s| + stop]
    ensures stop < 0 && -stop >= |s| ==> r == []
  {
    s[..SliceLength(|s|, stop)]
  }

  /** The list an append loop `for x in s: out.append(f(x))` builds. */
  function MapAll<A, B>(f: A -> B, s: seq<A>): (r: seq<B>)
    ensures |r| == |s|
    ensures forall i :: 0 <= i < |s| ==> r[i] == f(s[i])
  {
    if s == [] then [] else MapAll(f, s[..|s| - 1]) + [f(s[|s| - 1])]
  }

  /** Converting a prefix gives a prefix of the conversion. */
  lemma {:induction false} MapAllPrefix<A, B>(f: A -> B, s: seq<A>, n: nat)
    requires n <= |s|
    ensures MapAll(f, s[..n]) == MapAll(f, s)[..n]
  {
    var l := MapAll(f, s[..n]);
    var r := MapAll(f, s)[..n];
    assert |l| == |r|;
    forall i | 0 <= i < n ensures l[i] == r[i] {
      assert s[..n][i] == s[i];
    }
  }

  /** Asking for fewer days converts a prefix of what more days convert. */
  lemma FewerDaysPrefix<A, B>(f: A -> B, s: seq<A>, a: int, b: int)
    requires 0 <= a <= b
    ensures |MapAll(f, Slice(s, a))| <= |MapAll(f, Slice(s, b))|
    ensures MapAll(f, Slice(s, a)) == MapAll(f, Slice(s, b))[..|MapAll(f, Slice(s, a))|]
  {
    var k := |Slice(s, a)|;
    assert Slice(s, a) == Slice(s, b)[..k];
    MapAllPrefix(f, Slice(s, b), k);
  }
}
