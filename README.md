# Irrigation decision engine (manuex)

This project models the decision core of a home-irrigation web app. The app
reads OpenWeatherMap responses into typed observations. A `DataPoint` is one
observation and a `Forecast` is an ordered list of 3-hour observations. The
controller then decides from the forecast, a soil-moisture reading and a
moisture threshold whether the actuator should water.

- `wrappers.dfy`: `Option` and `Result`.
- `json.dfy`: decoded JSON values, plus the Python dict lookups and truthiness
  that the weather code relies on. All JSON numbers are exact reals, so Python's
  `200 == 200.0` holds here as well.
- `weather.dfy`: `DataPoint` and `Forecast` construction as parsers returning
  `Result<_, WeatherError>`, and the status-code check of a refresh. It also
  holds the `WeatherApi` class, whose only state is the latest current
  observation and forecast.
- `controller.dfy`: `MakeDecision` is a method with the source's accumulation
  loop. It is proved equal to `Decision`, a closed-form function built from the
  sum and the 0-seeded maximum over the forecast prefix. The decision's
  properties are proved as lemmas about `Decision`.

Temperatures, humidity and rainfall are exact `real`s, and the constants
`0.45` and `30` are exact. The source uses binary floating point. The two can
differ exactly at the boundary `total_rainfall == 0.45 * steps`. For example,
take a 6-hour lookahead (two steps) with forecast rain of 0.2 mm and then 0.7 mm.
In binary floating point the total is 0.8999999999999999, which is below
`0.45 * 2`, so dry soil would be watered. The exact total is 0.9, so the model
does not water.

A refresh is not atomic. `self.current` is assigned before `Forecast(...)`
runs (`manuex-master/weather.py:125-126`), so a forecast that fails to build
leaves the new current observation next to the old forecast.
`WeatherApi.GetWeather` states exactly this. Only a failed status check, or a
current record that fails to build, leaves both fields unchanged.

## Model

| member | source | states |
|---|---|---|
| `Weather.ParseDataPoint` | manuex-master/weather.py:22-40 | Succeeds exactly on records that have an integral `dt`, numeric `main.temp` and `main.humidity`, and a non-empty `weather` list whose first element has `id`, `description` and `icon`; a `rain` value, when present, must be a dict of numbers. On success, temp and humidity come from `main`, and id, description and icon from `weather[0]`. The city name is `name`, or `{}` when the record has none. |
| `Weather.NoRainObjectMeansAbsent` | manuex-master/weather.py:39-40 | A record without a `rain` object yields both rain amounts absent (None), not 0. |
| `Weather.RainAmountsKept` | manuex-master/weather.py:39-40 | A reported `1h` or `3h` amount is stored unchanged, including an explicit 0. A key missing inside `rain` gives an absent amount. |
| `Weather.MissingRequiredFieldFails` | manuex-master/weather.py:32-37 | A missing `dt`, `main` (hence `main.temp`) or `main.humidity`, or an absent or empty `weather` list, makes construction fail. The error names the first field read that was missing. |
| `Weather.RecordRoundTrip` | manuex-master/weather.py:22-40 | Parsing the provider-shaped record of any observation gives back that same observation. |
| `Weather.ParseEach` | manuex-master/weather.py:59 | The list comprehension succeeds exactly when every element parses. It then holds one observation per element, in the same order. Otherwise it fails with the error of the first element that fails. |
| `Weather.ParseForecast` | manuex-master/weather.py:49-59 | A response with no `list` key (or one that is not a dict) fails. When `list` is an array, construction succeeds exactly when every element parses, giving one equal observation per element, in order. An empty dict or empty string under `list` gives an empty forecast; a non-empty one fails. |
| `Weather.ForecastOnePerRecord` | manuex-master/weather.py:59 | When `list` is an array, the forecast exists exactly when every element parses. It then has exactly one observation per element, each equal to that element parsed, in order. |
| `Weather.ForecastRoundTrip` | manuex-master/weather.py:49-59 | Parsing the response built from any forecast gives back that same forecast. |
| `Weather.CheckResponses` | manuex-master/weather.py:119-123 | The check passes exactly when both responses are non-empty dicts, the current `cod` is the number 200 and the forecast `cod` is the string `"200"`. When both are dicts carrying a `cod`, a rejection is the ValueError (`InvalidResponse`). |
| `Weather.WeatherApi.constructor` | manuex-master/weather.py:67-68 | No current observation or forecast is held before the first refresh. |
| `Weather.WeatherApi.GetWeather` | manuex-master/weather.py:119-126 | Succeeds exactly when the check passes and both responses parse. A failed check, or a current record that fails to parse, changes neither field. Otherwise `current` is replaced. `forecast` is replaced only if the forecast parses and is otherwise left as it was. |
| `Controller.Steps` | manuex-master/controller.py:9-12 | For a lookahead in [3, 120), the step count `h // 3` lies between 1 and 39 and covers the largest whole number of 3-hour steps within `h`. |
| `Controller.Window` | manuex-master/controller.py:18 | The window is the first `min(steps, len(data))` entries of the forecast. |
| `Controller.Decision` | manuex-master/controller.py:7-37 | The decision fails exactly when the lookahead is outside [3, 120). |
| `Controller.Accumulate` | manuex-master/controller.py:13-26 | The loop's rain total is the sum of the three-hour amounts over the window, counting an absent amount as 0. Its two maxima are the 0-seeded maxima of the temperatures and of the humidities. |
| `Controller.MakeDecision` | manuex-master/controller.py:7-37 | The method's result equals the closed-form `Decision` for every input. |
| `Controller.MaxFrom0IsMaxWithZero` | manuex-master/controller.py:14-26 | A maximum seeded at 0 is max(0, values). It is never negative, at least every value, and either 0 or one of the values. |
| `Controller.MaxTempIsMaxWithZero` | manuex-master/controller.py:22-23 | `max_temp` over the window equals max(0, temperatures). |
| `Controller.MaxHumidityIsMaxWithZero` | manuex-master/controller.py:25-26 | `max_humidity` over the window equals max(0, humidities). |
| `Controller.ColdWindowReportsZero` | manuex-master/controller.py:14-23 | A window whose temperatures are all at or below 0 reports a maximum of exactly 0. |
| `Controller.SumAppend` | manuex-master/controller.py:19-20 | The rain sum over two consecutive stretches is the sum of their sums. |
| `Controller.TotalRainfallAppend` | manuex-master/controller.py:13-20 | The rain total over two consecutive windows is the sum of their totals. |
| `Controller.AbsentAndZeroRainAlike` | manuex-master/controller.py:19-20 | An absent three-hour amount and a reported 0 give the same rain total. |
| `Controller.NoRainRecordAddsNothing` | manuex-master/controller.py:19-20 | An observation parsed from a record with no `rain` object adds exactly 0 to the rain total. |
| `Controller.LaterEntriesIgnored` | manuex-master/controller.py:18 | Entries after the first `steps` entries never change the decision. |
| `Controller.ShortForecastUsedWhole` | manuex-master/controller.py:18 | A forecast shorter than the step count is used whole, with no error. |
| `Controller.DrySoilRule` | manuex-master/controller.py:29-31 | When moisture is below the threshold, the decision is true exactly when total rain < 0.45 × steps. |
| `Controller.DrySoilIgnoresTemperature` | manuex-master/controller.py:29-31 | When moisture is below the threshold, two forecasts whose windows hold the same three-hour rain amounts get the same decision, whatever their temperatures or lengths. |
| `Controller.MoistSoilRule` | manuex-master/controller.py:32-35 | When moisture is at or above the threshold, the decision is true exactly when max temp > 30, total rain < 0.45 × steps and moisture < 60. |
| `Controller.EnoughRainNeverWaters` | manuex-master/controller.py:29-37 | When total rain ≥ 0.45 × steps, the decision is false in both branches. |
| `Controller.HumidityNeverMatters` | manuex-master/controller.py:25-37 | Forecasts that differ only in humidity get the same decision. |
| `Controller.WorkedScenarios` | manuex-master/controller.py:29-37 | Worked cases with threshold 45, lookahead 3 and one step: dry soil with no rain waters; dry soil with 1.0 mm does not; moisture 50 at 32 degrees with no rain waters; moisture 65 does not. |
| `Controller.LookaheadBounds` | manuex-master/controller.py:9 | Lookaheads 0, 1, 2 and anything from 120 up fail with `LookaheadOutOfRange`. |

## Left out

- `manuex-master/app.py` is not part of this model. It holds the Flask routes, templates, process-wide settings and sensor POST decoding, all of which are web-layer I/O.
- The HTTP fetch of a refresh (`manuex-master/weather.py:108-117`) is left out: URL building, timeouts and `ConnectionError`. `WeatherApi.GetWeather` takes the two decoded responses as parameters.
- `WeatherAPI.__init__` and `update` (`manuex-master/weather.py:70-93`) only store settings and call the fetch. The model's constructor starts with neither value held.
- `datetime.fromtimestamp` and its time-zone conversion are left out. `dt` is kept as the raw Unix timestamp.
- Weather.ParseDataPoint: rejects a fractional `dt`, which Python's `fromtimestamp` would accept, because the timestamp is kept as an integer.
- Weather.ParseDataPoint: requires `temp`, `humidity` and the rain amounts to be JSON numbers. Python stores whatever value is there. It fails only if a forecast entry inside the window has its `temp` or `humidity` compared, or has a truthy non-numeric `3h` amount added. In every other case the source accepts the refresh and the model rejects it. Those cases are: `rain_last_hour`, which is never read; the current observation, which never reaches the controller; forecast entries past the window; and a falsy `3h` amount such as `""`, `false`, `[]`, `{}` or `null`, which the truthiness test skips.
- JSON booleans where numbers are expected are rejected. Python treats `true` as 1 and `false` as 0, so it accepts them for `dt`, `temp`, `humidity` and the rain amounts.
- Python's exception classes (KeyError, IndexError, TypeError, AttributeError) all become `DataFormatError` naming a field. `ValueError` becomes `InvalidResponse`, and `AssertionError` becomes `LookaheadOutOfRange`.
- Bit-exact binary floating point is left out. Rain sums, `0.45 * steps` and the comparisons are exact reals.
- Controller.MakeDecision: the source's default `lookahead_hours = 3` is not a default parameter here; callers pass the lookahead explicitly.
- Controller.MakeDecision: the lookahead check is a Python `assert`. It disappears under `python -O`; the model always checks it.
- `DataPoint` and `Forecast` are values here, not mutable Python objects. So it is by construction that the decision cannot change its forecast.
- JSON objects are maps, so duplicate keys and key order are not represented.
