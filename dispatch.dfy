/** The dispatch layer: the closed set of provider kinds and the routing of
    a fetch to the kind's HTTP exchange and normalizer. The HTTP exchange is
    not modelled; what it ended in is a parameter. */
module Dispatch {
  import opened Wrappers
  import opened Canonical
  import Owm = OpenWeather
  import Wapi = WeatherApi
  import Accu = AccuWeather

  /** The provider kinds (`DataSourceType`). */
  datatype SourceType = Metno | OpenWeatherMap | WeatherApi | AccuWeather

  /** How one provider's HTTP exchange ended: status 200 with a decoded
      body, another status, or a raised exception (timeout, transport error,
      undecodable body, malformed location). */
  datatype Http<T> = Ok(body: T) | NotOk | Raised

  /** What each provider would answer to the request being made. The MET
      Norway reply is already the record its converter builds, since that
      converter is not part of this model. */
  datatype Replies = Replies(
    metno: Http<Snapshot>,
    openWeatherMap: Http<Owm.Payload>,
    weatherApi: Http<Wapi.Payload>,
    accuWeather: Http<Accu.Payload>)

  /** The outcome of one exchange whose body is normalized by `convert`:
      a non-200 status is `None`, a raised exception stays raised. */
  function Finish<T>(reply: Http<T>, convert: T -> Outcome): (r: Outcome)
    ensures reply.NotOk? ==> r == Empty
    ensures reply.Raised? ==> r == Fault
    ensures reply.Ok? ==> r == convert(reply.body)
  {
    match reply
    case Ok(body) => convert(body)
    case NotOk => Empty
    case Raised => Fault
  }

  /** `_fetch_from_source`: the exchange and the normalizer of `kind`. It
      raises only when the exchange raised, or when an OpenWeatherMap body
      has an empty `weather` list in its current conditions; it is `None`
      exactly when the status was not 200 or the normalizer found a required
      part missing; a record comes only from a status-200 reply. A status-200
      body goes to the normalizer of `kind` with the requested `days`. */
  function FetchFromSource(kind: SourceType, replies: Replies, days: int): (r: Outcome)
    ensures r.Fault? <==>
      || ReplyOf(kind, replies).Raised?
      || (&& kind == OpenWeatherMap && replies.openWeatherMap.Ok?
          && replies.openWeatherMap.body.current.Some?
          && replies.openWeatherMap.body.current.value.weather == Some([]))
    ensures r.Empty? <==>
      || ReplyOf(kind, replies).NotOk?
      || (kind == OpenWeatherMap && replies.openWeatherMap.Ok? && replies.openWeatherMap.body.current.None?)
      || (&& kind == WeatherApi && replies.weatherApi.Ok?
          && (replies.weatherApi.body.current.None? || replies.weatherApi.body.location.None?))
      || (&& kind == AccuWeather && replies.accuWeather.Ok?
          && (replies.accuWeather.body.NotAList? || replies.accuWeather.body.days == []))
    ensures r.Record? ==> ReplyOf(kind, replies).Ok?
    ensures kind == Metno && replies.metno.Ok? ==> r == Record(replies.metno.body)
    ensures kind == OpenWeatherMap && replies.openWeatherMap.Ok? ==>
      r == Owm.Convert(replies.openWeatherMap.body, days)
    ensures kind == WeatherApi && replies.weatherApi.Ok? ==>
      r == Wapi.Convert(replies.weatherApi.body, days)
    ensures kind == AccuWeather && replies.accuWeather.Ok? ==>
      r == Accu.Convert(replies.accuWeather.body, days)
  {
    match kind
    case Metno => Finish(replies.metno, s => Record(s))
    case OpenWeatherMap => Finish(replies.openWeatherMap, p => Owm.Convert(p, days))
    case WeatherApi => Finish(replies.weatherApi, p => Wapi.Convert(p, days))
    case AccuWeather => Finish(replies.accuWeather, p => Accu.Convert(p, days))
  }

  /** The reply of the provider `kind` names. */
  function ReplyOf(kind: SourceType, replies: Replies): Http<()> {
    match kind
    case Metno => Erase(replies.metno)
    case OpenWeatherMap => Erase(replies.openWeatherMap)
    case WeatherApi => Erase(replies.weatherApi)
    case AccuWeather => Erase(replies.accuWeather)
  }

  function Erase<T>(reply: Http<T>): Http<()> {
    match reply
    case Ok(_) => Ok(())
    case NotOk => NotOk
    case Raised => Raised
  }

  /** Only the reply of the provider being used matters. */
  lemma FetchReadsOneProvider(kind: SourceType, a: Replies, b: Replies, days: int)
    requires kind == Metno ==> a.metno == b.metno
    requires kind == OpenWeatherMap ==> a.openWeatherMap == b.openWeatherMap
    requires kind == WeatherApi ==> a.weatherApi == b.weatherApi
    requires kind == AccuWeather ==> a.accuWeather == b.accuWeather
    ensures FetchFromSource(kind, a, days) == FetchFromSource(kind, b, days)
  {
  }
}
