# wttr.in multi-source manager and v3 view, in Dafny

This project models two parts of wttr.in.

**The data-source manager** (`lib/datasource_manager.py`) keeps a registry of
weather providers: MET Norway, OpenWeatherMap, WeatherAPI and AccuWeather.
Each provider has an hourly request quota. A circuit breaker takes a failing
provider out of rotation for five minutes. A fetch picks one eligible
provider at random, asks it for a forecast and normalizes the answer into
wttr.in's canonical record (`current_condition`, `weather`, `request`). It
then counts the request or disables the provider.

**The v3 view** (`lib/view/v3.py`) decides from a location's suffix which
file type is asked for. It also computes the hour-bucketed cache path where
the rendered file lives.

Modules:

- `Wrappers`: `Option`.
- `Numeric`: Python's `round` (half to even), specified by the predicate `RoundsTo`. Also `int()` on a float, the unit factors and Fahrenheit.
- `Text`:
  - `str.endswith`, `str.startswith` and `str.capitalize` on ASCII;
  - `str(int)` and its inverse;
  - `os.path.join` on two parts.
- `Codes`: the 16-point compass and the OpenWeatherMap-to-WWO condition table.
- `Canonical`: the canonical record, Python's `[:stop]` slice, and the append loop over a slice.
- `OpenWeather`, `WeatherApi`, `AccuWeather`: each provider's payload and its normalizer.
- `Dispatch`: the provider kinds, how an HTTP exchange ends, and `_fetch_from_source`.
- `Manager`:
  - the registry as a map of `DataSource` records;
  - its transitions as functions;
  - the class `DataSourceManager`, whose methods update `sources` and the pending re-enable `timers` in place.
- `V3`: suffix classification, cache names and cache paths.

The environment, the clock, each provider's HTTP reply and the random choice
are parameters:
- API keys are constructor arguments.
- `now` is an argument. A ghost clock records the latest time and refuses one that runs backwards.
- `Replies` holds what each provider answers.
- The random choice is a `:|` choice among the eligible providers.

Background threads become explicit steps:
- `ResetSweep(now)` is one pass of the hourly reset loop.
- `DisableSource` records a `Timer`, which `Reenable` fires once it is due.

Python's `None` result and raised exceptions are the `Empty` and `Fault`
cases of `Outcome`.

## Model

| member | source | states |
|---|---|---|
| Numeric.Round | lib/datasource_manager.py:275-276 | `round(x, 0)` as an integer is the nearest integer, with ties going to the even one (`RoundsTo`) |
| Numeric.Trunc | lib/datasource_manager.py:289 | `int(x)` drops the fraction toward zero: `n <= x < n+1` for `x >= 0`, `n-1 < x <= n` otherwise |
| Numeric.DisplayConversions | lib/datasource_manager.py:272-280 | 0 °C and 100 °C show as 32 °F and 212 °F; 10 m/s is 36 km/h, 36 km/h is 22 mph, 10 mph is 16 km/h |
| Text.Capitalize | lib/datasource_manager.py:278 | same length, each character equal up to case, first character not lower case, the rest not upper case |
| Text.CapitalizeIdempotent | lib/datasource_manager.py:278 | capitalizing twice is capitalizing once |
| Text.CapitalizeClear | lib/datasource_manager.py:269 | the default description "Clear" comes out of `capitalize()` unchanged |
| Text.Digits | lib/view/v3.py:20 | the decimal digits of a natural number: non-empty, all digits, no leading zero unless the number is 0 |
| Text.DecimalText | lib/view/v3.py:20 | `str(n)`: non-empty, starts with '-' exactly for negative `n`, otherwise with a digit |
| Text.DigitsRoundTrip | lib/view/v3.py:20 | reading back the digits of `n` gives `n` |
| Text.DecimalRoundTrip | lib/view/v3.py:20 | parsing `str(n)` gives `n` for every integer |
| Text.DecimalTextInjective | lib/view/v3.py:20 | different hour numbers have different texts |
| Text.JoinPath | lib/view/v3.py:19-21 | `os.path.join(path, part)`: an absolute part replaces the path; a relative part follows a non-empty path after exactly one added '/', unless the path is empty or already ends with '/', where the two are simply concatenated |
| Codes.Compass | lib/datasource_manager.py:372-379 | the label is always one of the 16 compass points |
| Codes.CompassOfWholeDegrees | lib/datasource_manager.py:378 | for whole degrees `d` the sector is `(4d+45) div 90 mod 16`, so no tie can occur |
| Codes.CompassPeriodic | lib/datasource_manager.py:378 | adding 360 degrees does not change the label |
| Codes.CompassExamples | lib/datasource_manager.py:372-379 | 0 → N, 22.5 → NNE, 90 → E, 348.75 → N (a tie rounded to even), 360 → N |
| Codes.WwoCode | lib/datasource_manager.py:310-370 | a listed id gets its table value, any other id gets 113 (the clear-sky entry of 800); the result is always a value of the table |
| Codes.WwoCodeExamples | lib/datasource_manager.py:314-370 | 800 → 113, 804 → 122, 201 → 386, and the unlisted 0 and 799 → 113 |
| Canonical.Slice | lib/datasource_manager.py:247 | `s[:stop]`: the first `stop` elements, all of `s` past its length, all but the last `-stop` for a negative stop, and nothing once `-stop >= len(s)` |
| Canonical.MapAll | lib/datasource_manager.py:245-248 | the appended list has one converted element per input element, in order |
| Canonical.MapAllPrefix | lib/datasource_manager.py:247-248 | converting a prefix gives the prefix of the conversion |
| Canonical.FewerDaysPrefix | lib/datasource_manager.py:247-248 | converting the first `a` elements gives a prefix of converting the first `b >= a` |
| OpenWeather.FirstCondition | lib/datasource_manager.py:267-269 | the first `weather` entry: missing exactly when the list is present but empty (where `[0]` raises), an entry with neither id nor description when the list is absent |
| OpenWeather.Reading | lib/datasource_manager.py:263-290 | temperatures and wind speeds are the rounded conversions; the code is the WWO code of the entry's id (default 800); the description is capitalized (default "Clear"); the compass label comes from `wind_deg`; visibility defaults to 10000 and precipitation to the last hour's rain or 0; feels-like defaults to the temperature; UV is truncated |
| OpenWeather.ConvertHourly | lib/datasource_manager.py:261-290 | fails exactly when `weather` is an empty list, otherwise the reading of the first entry; without a `weather` list it is clear sky (113) described as "Clear" |
| OpenWeather.ConvertDaily | lib/datasource_manager.py:292-308 | date is `dt` (default 0); max, min and day temperatures rounded in °C and °F; snow passed through; sun hours 12; UV truncated |
| OpenWeather.Convert | lib/datasource_manager.py:232-259 | `None` exactly when `current` is missing; raises exactly when its `weather` list is empty. Otherwise: current from `ConvertHourly`; query from `lat`/`lon` (default 0); forecast is the first `days` daily entries converted in order, none without `daily` |
| OpenWeather.FewerDays | lib/datasource_manager.py:246-248 | fewer days give the same outcome kind, current conditions and query, and a prefix of the forecast |
| OpenWeather.EastWindExample | lib/datasource_manager.py:261-290 | 20.4 °C with 10 m/s from 90° becomes 20 °C / 69 °F, 36 km/h / 22 mph, "E", code 113 |
| WeatherApi.ConvertCurrent | lib/datasource_manager.py:409-431 | the condition code and the wind label pass through unchecked (defaults 1000 and "N"); °F and mph come from the provider, else are derived; visibility is km × 1000; feels-like defaults to the temperature |
| WeatherApi.ConvertDay | lib/datasource_manager.py:433-449 | every temperature is the provider's own °C or °F value rounded, default 0; date default ""; sun hours 12 |
| WeatherApi.Convert | lib/datasource_manager.py:381-407 | `None` exactly when `current` or `location` is missing, never raises; forecast is the first `days` forecast days converted in order, none when `forecast.forecastday` is absent |
| WeatherApi.FewerDays | lib/datasource_manager.py:394-396 | fewer days give the same outcome kind, current conditions and query, and a prefix of the forecast |
| WeatherApi.PassThroughExample | lib/datasource_manager.py:418-423 | without a condition the code is 1000, which is not a WWO code, and a provider label such as "east" is kept although it is no compass point |
| AccuWeather.ConvertDaily | lib/datasource_manager.py:488-526 | average is the mean of max and min; all three rounded in °C and °F; snow 0; sun hours default 12; UV default 0; and the entry also carries the same day's current-condition keys |
| AccuWeather.ConvertCurrent | lib/datasource_manager.py:511-525 | the current-condition keys a day carries: its average as the reading, its mph × 1.60934 as km/h, its icon phrase (default "Clear") and wind direction, code 113, "N", humidity 50, pressure 1013, visibility 10000, no precipitation or cloud; feels-like is the RealFeel maximum, else the average |
| AccuWeather.Convert | lib/datasource_manager.py:451-486 | `None` exactly for a non-list or an empty list, never raises; query (0, 0); current is the first converted day without its date and six temperatures; forecast is the first `days` days converted in order |
| AccuWeather.CurrentIsFirstDay | lib/datasource_manager.py:466-475 | the current conditions are the first day's carried keys plus its `totalSnow_cm` (0) and `sunHour` (`HoursOfSun`, default 12), which the removals leave in place |
| AccuWeather.DaysCarryOwnKeys | lib/datasource_manager.py:462-464 | every kept day carries its own current-condition keys, e.g. its own icon phrase, not the first day's |
| AccuWeather.FewerDays | lib/datasource_manager.py:463-464 | fewer days give the same outcome kind, current conditions and query, and a prefix of the forecast |
| AccuWeather.CurrentMatchesFirstDay | lib/datasource_manager.py:462-475 | when a forecast day is kept, the current temperature equals the first day's average in °C and °F, and UV agrees |
| AccuWeather.WindExample | lib/datasource_manager.py:516-517 | 10 mph shows as 16 km/h and 10 mph |
| Dispatch.Finish | lib/datasource_manager.py:165-167 | a status-200 reply is passed to the converter, another status gives `None`, a raised exception stays raised |
| Dispatch.FetchFromSource | lib/datasource_manager.py:146-215 | in terms of the modelled replies, a fetch raises exactly when the exchange raised or an OpenWeatherMap `current.weather` is empty; it is `None` exactly on a non-200 status or a normalizer's missing-part case; a record needs a status-200 reply; a status-200 body is exactly the normalizer's output for that kind with the requested `days`, and a MET Norway body is the record itself |
| Dispatch.FetchReadsOneProvider | lib/datasource_manager.py:146-156 | the result depends only on the reply of the provider of the given kind |
| Manager.LoadSources | lib/datasource_manager.py:39-80 | MET Norway is always registered without a key. Each other provider is registered exactly when its key is set and non-empty. No other entries; each entry has its kind's name, URL and quota, usage 0, last reset 0, enabled |
| Manager.MarkUsed | lib/datasource_manager.py:111-114 | usage of the named provider rises by one; every other entry and the key set are unchanged; an unknown name changes nothing |
| Manager.Disabled | lib/datasource_manager.py:116-119 | only the named provider's flag is cleared; an unknown name changes nothing |
| Manager.Enabled | lib/datasource_manager.py:121-123 | only the named provider's flag is set, whatever it was |
| Manager.Swept | lib/datasource_manager.py:84-89 | exactly the providers whose last reset is at least 3600 s ago get usage 0 and last reset `now`; the others are unchanged |
| Manager.FetchTouchesOneSource | lib/datasource_manager.py:127-144 | a fetch changes only the selected provider: usage +1 on success, disabled otherwise, and usage stays within quota |
| Manager.SweepRestoresQuota | lib/datasource_manager.py:84-89 | an enabled provider whose window has run out is eligible after a reset pass |
| Manager.SweepOncePerWindow | lib/datasource_manager.py:84-92 | a pass within 3600 s of a reset leaves that provider as the reset left it |
| Manager.QuotaKeptAlongRun | lib/datasource_manager.py:98-123 | along any sequence of fetches on eligible providers, resets, disables and re-enables, no usage exceeds its quota |
| Manager.RegistryKeptAlongRun | lib/datasource_manager.py:111-123 | no step adds or removes a provider or changes its name, kind, URL or quota |
| Manager.FlagsKeepTimers | lib/datasource_manager.py:84-89 | a change that keeps every enabled flag (counting a request, a reset pass) keeps the pending re-enables covering the disabled providers, and the cool-down discipline |
| Manager.DisableKeepsCover | lib/datasource_manager.py:116-125 | disabling a provider and scheduling its re-enable leaves every disabled provider with a re-enable pending |
| Manager.DisableKeepsCoolDown | lib/datasource_manager.py:116-125 | disabling an enabled provider at `now` keeps the discipline: one re-enable per disabled provider, due 300 s after its latest disable |
| Manager.ReenableKeepsCover | lib/datasource_manager.py:121-123 | firing a re-enable leaves every still-disabled provider with one pending |
| Manager.ReenableKeepsCoolDown | lib/datasource_manager.py:121-123 | under the discipline a re-enable fires no earlier than 300 s after its provider's latest disable, and the discipline is kept |
| Manager.DataSourceManager.constructor | lib/datasource_manager.py:34-37 | the registry is `LoadSources` of the keys, nothing is pending, and the discipline holds |
| Manager.DataSourceManager.GetAvailableSource | lib/datasource_manager.py:98-109 | no provider exactly when none is enabled and under quota, otherwise one such provider, as stored |
| Manager.DataSourceManager.MarkSourceUsed | lib/datasource_manager.py:111-114 | the registry becomes `MarkUsed` of the old one; timers, clock and disable times are unchanged; the invariant and the discipline are kept |
| Manager.DataSourceManager.DisableSource | lib/datasource_manager.py:116-125 | the registry becomes `Disabled` of the old one. A known name gets a re-enable due 300 s after `now`, and `now` becomes its latest disable, so every disabled provider has one pending. Disabling an enabled provider keeps the discipline. Time never runs backwards |
| Manager.DataSourceManager.Reenable | lib/datasource_manager.py:121-123 | a due timer enables its provider and is removed; every disabled provider still has a re-enable pending. Under the discipline, it fires no earlier than 300 s after the provider's latest disable, and the discipline is kept |
| Manager.DataSourceManager.ResetSweep | lib/datasource_manager.py:84-89 | the loop leaves the registry equal to `Swept` of the old one, timers unchanged, the discipline kept |
| Manager.DataSourceManager.FetchWeatherData | lib/datasource_manager.py:127-144 | `None` with nothing changed when no provider is eligible. Otherwise an eligible provider is fetched (`days` defaults to 3). On a record, the record is returned and the request counted. On `None` or an exception, `None` is returned and the provider is disabled until 300 s after `now`. Quota is never exceeded and the discipline is kept, so a provider a fetch disables at `t` is not re-enabled before `t` + 300 s |
| V3.CacheName | lib/view/v3.py:14-16 | a name ending in "." + type is cut to its first `len(type)+1` characters, which are a prefix of it; any other name is kept |
| V3.HourStamp | lib/view/v3.py:20 | the hour bucket is a non-empty text without '/' |
| V3.CacheFilename | lib/view/v3.py:14-21 | for a served type and a relative stored name the path is `/wttr.in/cache/v3/<type>[/<hour>]/<name>.<type>`; an absolute stored name escapes the cache directory |
| V3.SameHourSameFile | lib/view/v3.py:20-21 | two times give the same cache path exactly when they fall in the same hour bucket |
| V3.SuffixesExclusive | lib/view/v3.py:55-64 | no location ends in two of ".sxl", ".png" and ".it2" |
| V3.ClassifyV3 | lib/view/v3.py:55-69 | each served suffix selects its type and is dropped. Without one, a location with a dot is of unknown type, and one without is a PNG. The type is always served and the location is rebuilt from name and type |
| V3.V3File | lib/view/v3.py:55-70 | the error text exactly for an unknown type, otherwise the timestamped cache path of the classified request |
| V3.MainView | lib/view/v3.py:77-89 | a cached rendering exactly for ".sxl" and ".it2" (not ".png"), at the path `v3_file` gives |
| V3.DoubleSuffixSharesFile | lib/view/v3.py:14-16 | "London.png.png" and "Lond.png" map to the same cache file, because the truncation keeps a prefix |

## Left out

- HTTP requests, URL construction and `location.split(',')`: each provider's reply is a parameter. A malformed location is one way the reply ends in `Raised`.
- The MET Norway converter (`_convert_metno_to_standard`): its reply is taken as the finished record. The converter's `IndexError` on a status-200 body with an empty `timeseries` list (lib/datasource_manager.py:223) is therefore represented by a `Raised` reply.
- JSON `null`, wrong value types and keys beyond those read: payloads are typed, and `Option` stands for a key's presence.
- `str()` rendering of floats and the dict layout of the record: numeric fields are kept as numbers.
- The `hourly: []` key of every forecast day and of AccuWeather's current conditions: it is always the empty list.
- Logging (`print`) of fetch errors.
- The `api_key` checks inside the per-provider fetchers are not modelled. They cannot fail, because a provider is registered only when its key is set.
- Manager.DataSourceManager.constructor: does not run the first reset pass that wttr.in's thread starts at once; callers call `ResetSweep`.
- Manager.DataSourceManager.FetchWeatherData: the `location` argument is not modelled, because it only reaches the HTTP requests.
- Manager.DataSourceManager.GetAvailableSource: states which providers may be chosen, not that the choice is uniformly random.
- Threads, `time.sleep` and their interleaving: a reset pass and a re-enable are atomic steps that the caller orders, at times that never run backwards.
- Manager.DataSourceManager.DisableSource: the cool-down promise holds only under the discipline. wttr.in lets `disable_source` be called on a provider that is already disabled, for example from two threads. The older re-enable then fires early and brings the provider back before 300 s have passed since its latest disable. The model allows the same call and then no longer promises the cool-down.
- The v3 filesystem work (existence checks, `makedirs`, downloading from the upstream renderers, reading files), the HTML page of `main` and `remove_ansi`: only the paths and the choice of file are modelled.
- Text.Capitalize: works on ASCII letters only; Unicode case mapping is not modelled.
- `os.path.join` is modelled for two parts at a time, which is how `_get_cache_filename`'s joins reduce.
- Floating point: readings are exact reals, so `round` and `int()` act on the exact value, not on its nearest binary double.
