/** The multi-source manager: a registry of providers with per-provider
    hourly quotas and a circuit breaker, and the fetch that selects one
    eligible provider, uses it once and records the outcome.

    The background threads of wttr.in become explicit calls: the hourly
    reset thread is `ResetSweep(now)`, one pass of its loop; each disable
    schedules a one-shot re-enable, kept as a `Timer` that `Reenable` fires
    once its due time has come. The clock is a parameter. */
module Manager {
  import opened Wrappers
  import opened Canonical
  import opened Dispatch

  /** A registered provider (`DataSource`); the usage counter, the time of
      the last reset and the enabled flag change at run time. */
  datatype DataSource = DataSource(
    name: string,
    kind: SourceType,
    baseUrl: string,
    apiKey: Option<string>,
    rateLimit: int,
    currentUsage: nat,
    lastReset: real,
    enabled: bool)

  /** A pending re-enable of the provider `name`, due at time `due`. */
  datatype Timer = Timer(name: string, due: real)

  /** Seconds a quota window lasts. */
  const ResetWindow: real := 3600.0
  /** Seconds a disabled provider stays out of rotation. */
  const CoolDown: real := 300.0

  /** The registry key of each kind (the `DataSourceType` value). */
  function NameOf(kind: SourceType): string {
    match kind
    case Metno => "metno"
    case OpenWeatherMap => "openweathermap"
    case WeatherApi => "weatherapi"
    case AccuWeather => "accuweather"
  }

  function BaseUrlOf(kind: SourceType): string {
    match kind
    case Metno => "https://api.met.no"
    case OpenWeatherMap => "https://api.openweathermap.org/data/2.5"
    case WeatherApi => "https://api.weatherapi.com/v1"
    case AccuWeather => "https://dataservice.accuweather.com"
  }

  /** Requests each kind may make before its quota is spent. */
  function RateLimitOf(kind: SourceType): int {
    match kind
    case Metno => 5000
    case OpenWeatherMap => 1000
    case WeatherApi => 1000000
    case AccuWeather => 50
  }

  /** The fixed part of a registry entry is the one configured for its kind. */
  predicate Registered(n: string, s: DataSource) {
    && s.name == n == NameOf(s.kind)
    && s.baseUrl == BaseUrlOf(s.kind)
    && s.rateLimit == RateLimitOf(s.kind)
  }

  /** Python truthiness of an environment value: set and non-empty. */
  predicate Truthy(key: Option<string>) {
    key.Some? && key.value != ""
  }

  function Fresh(kind: SourceType, apiKey: Option<string>): DataSource {
    DataSource(NameOf(kind), kind, BaseUrlOf(kind), apiKey, RateLimitOf(kind), 0, 0.0, true)
  }

  /** `_load_sources`: MET Norway always, every other provider only when its
      API key is set; every entry starts unused, enabled, last reset at 0. */
  function LoadSources(owmKey: Option<string>, weatherApiKey: Option<string>, accuWeatherKey: Option<string>)
    : (m: map<string, DataSource>)
    ensures "metno" in m && m["metno"].kind == Metno && m["metno"].apiKey.None?
    ensures "openweathermap" in m <==> Truthy(owmKey)
    ensures "weatherapi" in m <==> Truthy(weatherApiKey)
    ensures "accuweather" in m <==> Truthy(accuWeatherKey)
    ensures m.Keys <= {"metno", "openweathermap", "weatherapi", "accuweather"}
    ensures forall n :: n in m ==>
      Registered(n, m[n]) && m[n].currentUsage == 0 && m[n].lastReset == 0.0 && m[n].enabled
    ensures "openweathermap" in m ==> m["openweathermap"].apiKey == owmKey
    ensures "weatherapi" in m ==> m["weatherapi"].apiKey == weatherApiKey
    ensures "accuweather" in m ==> m["accuweather"].apiKey == accuWeatherKey
  {
    var m0 := map["metno" := Fresh(Metno, None)];
    var m1 := if Truthy(owmKey) then m0["openweathermap" := Fresh(OpenWeatherMap, owmKey)] else m0;
    var m2 := if Truthy(weatherApiKey) then m1["weatherapi" := Fresh(WeatherApi, weatherApiKey)] else m1;
    if Truthy(accuWeatherKey) then m2["accuweather" := Fresh(AccuWeather, accuWeatherKey)] else m2
  }

  /** The providers a request may go to: enabled and under quota. */
  function Eligible(m: map<string, DataSource>): set<string> {
    set n | n in m && m[n].enabled && m[n].currentUsage < m[n].rateLimit
  }

  /** Every provider's usage is within its quota. */
  predicate WithinQuota(m: map<string, DataSource>) {
    forall n :: n in m ==> m[n].currentUsage <= m[n].rateLimit
  }

  /** `mark_source_used`: one more request for `name`; nothing else changes,
      and an unknown name changes nothing. */
  function MarkUsed(m: map<string, DataSource>, name: string): (r: map<string, DataSource>)
    ensures r.Keys == m.Keys
    ensures forall n :: n in m && n != name ==> r[n] == m[n]
    ensures name in m ==> r[name] == m[name].(currentUsage := m[name].currentUsage + 1)
  {
    if name in m then m[name := m[name].(currentUsage := m[name].currentUsage + 1)] else m
  }

  /** `disable_source`'s immediate effect: `name` leaves rotation; nothing
      else changes, and an unknown name changes nothing. */
  function Disabled(m: map<string, DataSource>, name: string): (r: map<string, DataSource>)
    ensures r.Keys == m.Keys
    ensures forall n :: n in m && n != name ==> r[n] == m[n]
    ensures name in m ==> r[name] == m[name].(enabled := false)
  {
    if name in m then m[name := m[name].(enabled := false)] else m
  }

  /** The deferred re-enable: `name` is back in rotation, whatever happened
      to it in between. */
  function Enabled(m: map<string, DataSource>, name: string): (r: map<string, DataSource>)
    ensures r.Keys == m.Keys
    ensures forall n :: n in m && n != name ==> r[n] == m[n]
    ensures name in m ==> r[name] == m[name].(enabled := true)
  {
    if name in m then m[name := m[name].(enabled := true)] else m
  }

  /** One source in one pass of the reset loop. */
  function ResetIfDue(s: DataSource, now: real): DataSource {
    if now - s.lastReset >= ResetWindow then s.(currentUsage := 0, lastReset := now) else s
  }

  /** One pass of the hourly reset over every provider: exactly those whose
      last reset is a full window ago start a new window at `now`. */
  function Swept(m: map<string, DataSource>, now: real): (r: map<string, DataSource>)
    ensures r.Keys == m.Keys
    ensures forall n :: n in m && now - m[n].lastReset >= ResetWindow ==>
      r[n] == m[n].(currentUsage := 0, lastReset := now)
    ensures forall n :: n in m && now - m[n].lastReset < ResetWindow ==> r[n] == m[n]
  {
    map n | n in m :: ResetIfDue(m[n], now)
  }

  /** What a fetch that used `name` leaves behind: one more request when it
      produced a record, the provider disabled otherwise. */
  function AfterFetch(m: map<string, DataSource>, name: string, outcome: Outcome): map<string, DataSource> {
    if outcome.Record? then MarkUsed(m, name) else Disabled(m, name)
  }

  /** A fetch touches only the provider it used, and within it only the
      usage counter (on success) or the enabled flag (on failure). */
  lemma FetchTouchesOneSource(m: map<string, DataSource>, name: string, outcome: Outcome)
    requires name in Eligible(m)
    ensures var r := AfterFetch(m, name, outcome);
      && r.Keys == m.Keys
      && (forall n :: n in m && n != name ==> r[n] == m[n])
      && r[name].lastReset == m[name].lastReset
      && r[name].enabled == outcome.Record?
      && r[name].currentUsage == m[name].currentUsage + (if outcome.Record? then 1 else 0)
      && r[name].currentUsage <= r[name].rateLimit
  {
  }

  /** A reset makes an enabled provider whose window has run out eligible again. */
  lemma SweepRestoresQuota(m: map<string, DataSource>, name: string, now: real)
    requires name in m && m[name].enabled && m[name].rateLimit > 0
    requires now - m[name].lastReset >= ResetWindow
    ensures name in Eligible(Swept(m, now))
  {
  }

  /** A provider reset at `t1` is not reset again by a pass within the same
      window: usage resets once per window. */
  lemma SweepOncePerWindow(m: map<string, DataSource>, name: string, t1: real, t2: real)
    requires name in m && t1 - m[name].lastReset >= ResetWindow
    requires t1 <= t2 < t1 + ResetWindow
    ensures Swept(Swept(m, t1), t2)[name] == Swept(m, t1)[name]
  {
  }

  /** The state changes a manager goes through, as seen from the registry:
      a fetch that succeeded with, or failed on, the provider it selected; a
      reset pass; a re-enable. */
  datatype Event = Served(name: string) | Failed(name: string) | SweepAt(now: real) | Restored(name: string)

  /** Served and failed fetches happen only on a selected, so eligible, provider. */
  predicate Admissible(m: map<string, DataSource>, e: Event) {
    (e.Served? || e.Failed?) ==> e.name in Eligible(m)
  }

  function Step(m: map<string, DataSource>, e: Event): map<string, DataSource> {
    match e
    case Served(n) => MarkUsed(m, n)
    case Failed(n) => Disabled(m, n)
    case SweepAt(now) => Swept(m, now)
    case Restored(n) => Enabled(m, n)
  }

  function Run(m: map<string, DataSource>, events: seq<Event>): map<string, DataSource>
    decreases |events|
  {
    if events == [] then m else Run(Step(m, events[0]), events[1..])
  }

  predicate AdmissibleRun(m: map<string, DataSource>, events: seq<Event>)
    decreases |events|
  {
    events == [] || (Admissible(m, events[0]) && AdmissibleRun(Step(m, events[0]), events[1..]))
  }

  /** Usage never passes the quota when requests go only to eligible
      providers, whatever resets, failures and re-enables come in between. */
  lemma {:induction false} QuotaKeptAlongRun(m: map<string, DataSource>, events: seq<Event>)
    requires WithinQuota(m) && AdmissibleRun(m, events)
    ensures WithinQuota(Run(m, events))
    decreases |events|
  {
    if events != [] {
      var m' := Step(m, events[0]);
      assert WithinQuota(m');
      QuotaKeptAlongRun(m', events[1..]);
    }
  }

  /** The registry keys and the fixed part of every entry never change. */
  lemma {:induction false} RegistryKeptAlongRun(m: map<string, DataSource>, events: seq<Event>)
    requires forall n :: n in m ==> Registered(n, m[n])
    ensures Run(m, events).Keys == m.Keys
    ensures forall n :: n in m ==> Registered(n, Run(m, events)[n])
    decreases |events|
  {
    if events != [] {
      RegistryKeptAlongRun(Step(m, events[0]), events[1..]);
    }
  }

  /** Some pending timer will re-enable `n`. */
  predicate Pending(timers: seq<Timer>, n: string) {
    exists i :: 0 <= i < |timers| && timers[i].name == n
  }

  /** Timers name registered providers, and every disabled provider has a
      re-enable pending: a disable is always time-bounded. */
  predicate TimersCover(m: map<string, DataSource>, timers: seq<Timer>) {
    && (forall i :: 0 <= i < |timers| ==> timers[i].name in m)
    && (forall n :: n in m && !m[n].enabled ==> Pending(timers, n))
  }

  /** The cool-down discipline: every pending re-enable belongs to a
      disabled provider, is the only one pending for it, and is due one
      cool-down after that provider's latest disable (`disabledAt`). */
  predicate CoolDownKept(m: map<string, DataSource>, timers: seq<Timer>, disabledAt: map<string, real>) {
    && (forall i :: 0 <= i < |timers| ==>
          && timers[i].name in m && !m[timers[i].name].enabled
          && timers[i].name in disabledAt
          && timers[i].due == disabledAt[timers[i].name] + CoolDown)
    && (forall i, j :: 0 <= i < j < |timers| ==> timers[i].name != timers[j].name)
  }

  /** Two registries with the same providers, each enabled or disabled alike. */
  predicate SameFlags(m: map<string, DataSource>, m': map<string, DataSource>) {
    m'.Keys == m.Keys && forall n :: n in m ==> m'[n].enabled == m[n].enabled
  }

  /** Counting a request or resetting quotas changes no flag, so neither the
      pending re-enables nor the discipline are affected. */
  lemma FlagsKeepTimers(m: map<string, DataSource>, m': map<string, DataSource>,
                        timers: seq<Timer>, disabledAt: map<string, real>)
    requires SameFlags(m, m')
    ensures TimersCover(m, timers) ==> TimersCover(m', timers)
    ensures CoolDownKept(m, timers, disabledAt) ==> CoolDownKept(m', timers, disabledAt)
  {
  }

  /** Counting a request changes no flag and no configured field. */
  lemma MarkUsedKeepsFlags(m: map<string, DataSource>, name: string)
    ensures SameFlags(m, MarkUsed(m, name))
    ensures forall n :: n in m && Registered(n, m[n]) ==> Registered(n, MarkUsed(m, name)[n])
  {
  }

  /** Disabling a registered provider and scheduling its re-enable keeps
      every disabled provider covered by a pending re-enable. */
  lemma DisableKeepsCover(m: map<string, DataSource>, timers: seq<Timer>, name: string, due: real)
    requires name in m && TimersCover(m, timers)
    ensures TimersCover(Disabled(m, name), timers + [Timer(name, due)])
  {
    var m', t' := Disabled(m, name), timers + [Timer(name, due)];
    forall n | n in m' && !m'[n].enabled
      ensures Pending(t', n)
    {
      if n == name {
        assert t'[|timers|].name == n;
      } else {
        var j :| 0 <= j < |timers| && timers[j].name == n;
        assert t'[j] == timers[j];
      }
    }
  }

  /** Disabling an enabled provider at `now` keeps the discipline, with the
      provider's latest disable now at `now`. */
  lemma DisableKeepsCoolDown(m: map<string, DataSource>, timers: seq<Timer>,
                             disabledAt: map<string, real>, name: string, now: real)
    requires name in m && m[name].enabled && CoolDownKept(m, timers, disabledAt)
    ensures CoolDownKept(Disabled(m, name), timers + [Timer(name, now + CoolDown)], disabledAt[name := now])
  {
    var t' := timers + [Timer(name, now + CoolDown)];
    forall i | 0 <= i < |timers|
      ensures t'[i] == timers[i] && timers[i].name != name
    {
    }
  }

  /** Firing timer `i` keeps every disabled provider covered. */
  lemma ReenableKeepsCover(m: map<string, DataSource>, timers: seq<Timer>, i: nat)
    requires i < |timers| && TimersCover(m, timers)
    ensures TimersCover(Enabled(m, timers[i].name), timers[..i] + timers[i + 1..])
  {
    var m', t' := Enabled(m, timers[i].name), timers[..i] + timers[i + 1..];
    forall n | n in m' && !m'[n].enabled
      ensures Pending(t', n)
    {
      var j :| 0 <= j < |timers| && timers[j].name == n;
      if j < i {
        assert t'[j] == timers[j];
      } else {
        assert t'[j - 1] == timers[j];
      }
    }
  }

  /** Under the discipline, firing timer `i` happens no earlier than one
      cool-down after its provider's latest disable, and keeps the
      discipline: the provider had no other pending re-enable. */
  lemma ReenableKeepsCoolDown(m: map<string, DataSource>, timers: seq<Timer>,
                              disabledAt: map<string, real>, i: nat, now: real)
    requires i < |timers| && timers[i].due <= now && CoolDownKept(m, timers, disabledAt)
    ensures timers[i].name in disabledAt && disabledAt[timers[i].name] + CoolDown <= now
    ensures CoolDownKept(Enabled(m, timers[i].name), timers[..i] + timers[i + 1..], disabledAt)
  {
    var t' := timers[..i] + timers[i + 1..];
    forall k | 0 <= k < |t'|
      ensures t'[k] == timers[if k < i then k else k + 1]
      ensures t'[k].name != timers[i].name
    {
    }
  }

  class DataSourceManager {
    var sources: map<string, DataSource>
    /** The scheduled re-enables that have not fired yet. */
    var timers: seq<Timer>
    /** The latest time an operation was called at; time never runs backwards. */
    ghost var clock: real
    /** When each provider was last disabled. */
    ghost var disabledAt: map<string, real>

    /** Every entry is configured for its kind, MET Norway is registered,
        the pending re-enables cover every disabled provider, and no recorded
        disable lies in the future. */
    ghost predicate Valid()
      reads this
    {
      && "metno" in sources
      && (forall n :: n in sources ==> Registered(n, sources[n]))
      && TimersCover(sources, timers)
      && (forall n :: n in disabledAt ==> disabledAt[n] <= clock)
    }

    /** The cool-down discipline holds. Fetches, resets, re-enables and
        disabling an enabled provider keep it; disabling a provider that is
        already disabled breaks it, because its older re-enable then fires
        early. */
    ghost predicate Disciplined()
      reads this
    {
      CoolDownKept(sources, timers, disabledAt)
    }

    /** `__init__` without its background thread: the registry for the API
        keys that are set, nothing pending, the clock at the epoch. */
    constructor (owmKey: Option<string>, weatherApiKey: Option<string>, accuWeatherKey: Option<string>)
      ensures Valid() && Disciplined()
      ensures sources == LoadSources(owmKey, weatherApiKey, accuWeatherKey)
      ensures timers == [] && clock == 0.0 && disabledAt == map[]
    {
      sources := LoadSources(owmKey, weatherApiKey, accuWeatherKey);
      timers := [];
      clock := 0.0;
      disabledAt := map[];
    }

    /** `get_available_source`: no provider exactly when none is eligible,
        otherwise one eligible provider (wttr.in picks it at random). */
    method GetAvailableSource() returns (source: Option<DataSource>)
      requires Valid()
      ensures source.None? <==> Eligible(sources) == {}
      ensures source.Some? ==>
        source.value.name in Eligible(sources) && source.value == sources[source.value.name]
    {
      var available := Eligible(sources);
      if available == {} {
        return None;
      }
      var n :| n in available;
      source := Some(sources[n]);
    }

    method MarkSourceUsed(name: string)
      requires Valid()
      modifies this
      ensures Valid()
      ensures sources == MarkUsed(old(sources), name) && timers == old(timers)
      ensures clock == old(clock) && disabledAt == old(disabledAt)
      ensures old(Disciplined()) ==> Disciplined()
    {
      ghost var before := sources;
      sources := MarkUsed(sources, name);
      MarkUsedKeepsFlags(before, name);
      FlagsKeepTimers(before, sources, timers, disabledAt);
    }

    /** `disable_source` at time `now`: out of rotation at once, back after
        the cool-down. */
    method DisableSource(name: string, now: real)
      requires Valid() && clock <= now
      modifies this
      ensures Valid()
      ensures sources == Disabled(old(sources), name) && clock == now
      ensures name in old(sources) ==> timers == old(timers) + [Timer(name, now + CoolDown)]
      ensures name in old(sources) ==> disabledAt == old(disabledAt)[name := now]
      ensures name !in old(sources) ==> timers == old(timers) && disabledAt == old(disabledAt)
      ensures old(Disciplined()) && (name in old(sources) ==> old(sources)[name].enabled) ==> Disciplined()
    {
      clock := now;
      if name in sources {
        DisableKeepsCover(sources, timers, name, now + CoolDown);
        if Disciplined() && sources[name].enabled {
          DisableKeepsCoolDown(sources, timers, disabledAt, name, now);
        }
        sources := Disabled(sources, name);
        timers := timers + [Timer(name, now + CoolDown)];
        disabledAt := disabledAt[name := now];
      }
    }

    /** The re-enable thread of timer `i`, once its cool-down is over: the
        provider is enabled again unconditionally and the timer is gone.
        Under the cool-down discipline this is never earlier than one
        cool-down after the provider's latest disable. */
    method Reenable(i: nat, now: real)
      requires Valid() && i < |timers| && timers[i].due <= now && clock <= now
      modifies this
      ensures Valid()
      ensures sources == Enabled(old(sources), old(timers)[i].name)
      ensures timers == old(timers)[..i] + old(timers)[i + 1..]
      ensures clock == now && disabledAt == old(disabledAt)
      ensures old(Disciplined()) ==> Disciplined()
      ensures old(Disciplined()) ==>
        && old(timers)[i].name in old(disabledAt)
        && old(disabledAt)[old(timers)[i].name] + CoolDown <= now
    {
      ReenableKeepsCover(sources, timers, i);
      if Disciplined() {
        ReenableKeepsCoolDown(sources, timers, disabledAt, i, now);
      }
      clock := now;
      sources := Enabled(sources, timers[i].name);
      timers := timers[..i] + timers[i + 1..];
    }

    /** One pass of the hourly reset thread at time `now`. */
    method ResetSweep(now: real)
      requires Valid() && clock <= now
      modifies this
      ensures Valid()
      ensures sources == Swept(old(sources), now) && timers == old(timers)
      ensures clock == now && disabledAt == old(disabledAt)
      ensures old(Disciplined()) ==> Disciplined()
    {
      clock := now;
      ghost var start := sources;
      var todo := sources.Keys;
      while todo != {}
        invariant todo <= start.Keys && sources.Keys == start.Keys
        invariant forall n :: n in start && n !in todo ==> sources[n] == ResetIfDue(start[n], now)
        invariant forall n :: n in todo ==> sources[n] == start[n]
        invariant timers == old(timers) && clock == now && disabledAt == old(disabledAt)
        decreases todo
      {
        var n :| n in todo;
        var s := sources[n];
        if now - s.lastReset >= ResetWindow {
          sources := sources[n := s.(currentUsage := 0, lastReset := now)];
        }
        todo := todo - {n};
      }
      assert SameFlags(start, sources);
      FlagsKeepTimers(start, sources, timers, disabledAt);
    }

    /** `fetch_weather_data` at time `now` (for `days` forecast days, 3 by
        default), with `replies` standing for what each provider answers:
        select a provider; on a record, count the request and return it; on
        `None` or a raised exception, disable the provider and return `None`.
        `chosen` names the provider used. */
    method FetchWeatherData(now: real, replies: Replies, days: int := 3)
      returns (data: Option<Snapshot>, ghost chosen: Option<string>)
      requires Valid() && clock <= now
      modifies this
      ensures Valid() && clock == now
      ensures chosen.None? <==> old(Eligible(sources)) == {}
      ensures chosen.None? ==>
        data.None? && sources == old(sources) && timers == old(timers) && disabledAt == old(disabledAt)
      ensures chosen.Some? ==> chosen.value in old(Eligible(sources))
      ensures chosen.Some? ==>
        var n := chosen.value;
        var outcome := FetchFromSource(old(sources)[n].kind, replies, days);
        && sources == AfterFetch(old(sources), n, outcome)
        && (outcome.Record? ==>
              data == Some(outcome.snapshot) && timers == old(timers) && disabledAt == old(disabledAt))
        && (!outcome.Record? ==>
              && data.None?
              && timers == old(timers) + [Timer(n, now + CoolDown)]
              && disabledAt == old(disabledAt)[n := now])
      ensures WithinQuota(old(sources)) ==> WithinQuota(sources)
      ensures old(Disciplined()) ==> Disciplined()
    {
      clock := now;
      var source := GetAvailableSource();
      if source.None? {
        return None, None;
      }
      var s := source.value;
      chosen := Some(s.name);
      var outcome := FetchFromSource(s.kind, replies, days);
      if outcome.Record? {
        MarkSourceUsed(s.name);
        data := Some(outcome.snapshot);
      } else {
        DisableSource(s.name, now);
        data := None;
      }
    }
  }
}
