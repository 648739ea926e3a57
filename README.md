# pylocalwunder in Dafny

pylocalwunder is a small HTTP server. A weather station uploads its readings in the
Weather Underground style: a GET request whose query string holds values such as
`tempf` and `humidity`. The server forwards them to Home Assistant sensors. The
configuration holds a list of parameter definitions. Each definition gives:

- the query parameters it reads;
- the Home Assistant sensor id, name, unit and icon;
- an optional transform that turns those readings into the sensor's state.

For each request the server:

1. binds, for every definition, each input name to the query's value (None when absent);
2. picks the state, either the first input's value or the transform's result;
3. builds a JSON payload `{"state": ..., "attributes": {...}}`;
4. posts the payload to `/api/states/sensor.<id>` through an HTTP client session.

The session is created at startup, with a bearer token, and closed at shutdown.

The project models:

- the transforms of `pylocalwunder/common.py` (three unit conversions, the heat index
  in Fahrenheit and in Celsius) and its configuration records with their defaults;
- the request handling of `pylocalwunder/localwunderserver.py`: the per-definition
  input dictionary, the state and payload of each update, the sensor path, and the session
  lifecycle.

Files:

- `wrappers.dfy`: module `Wrappers`. Option, Result and the Python exceptions involved.
- `numeric.dfy`: module `Numeric`. Python's `round(Decimal, n)` as half-even
  quantization to a `Decimal(units, places)` value, with its reference predicate and
  its properties (uniqueness, monotonicity, error bound, idempotence); a bisection
  square root standing in for `math.sqrt`.
- `common.dfy`: module `Common`. Keyword-argument dictionaries, the transforms, and
  the `ParameterDefinition` and `Configuration` records.
- `server.dfy`: module `LocalWunder`. The query, the input dictionaries, the
  payload, the client session as a class whose `sent` list records delivered posts,
  and the server as a class with the startup, shutdown and request handlers.

How the model stands for Python:

- Readings are exact reals. A query value is a `Reading`: the text as sent (what a
  definition without a transform posts) and the decimal number it denotes (what
  `Decimal(value)` gives a transform).
- A Python exception is an `Err` value.
- `asyncio.create_task` is modelled as running the updates one after the other, in
  the order of the definitions. The handler returns the outcome of each update next to its reply.
- Whether a post reaches Home Assistant depends on the network. The set `unreachable`
  stands for it: it holds the paths whose post fails with ClientError.

A definition whose input is missing from the query is not skipped:

- the missing value is bound to None;
- without a transform, the state is the first input's value, so a missing first
  input is posted as JSON null (`MissingInputPostedAsNull`);
- the three unit conversions read only their first input and pass None through, so a
  conversion whose first input is missing posts JSON null too
  (`TemperatureMissingPostedAsNull`);
- the heat index transforms raise TypeError at `Decimal(None)`, so nothing is posted
  for them (`HeatIndexWithoutHumidityNotPosted`).

## Model

| member | source | states |
|---|---|---|
| Wrappers.FormatOptional | pylocalwunder/localwunderserver.py:62 | an f-string renders a None token as "None" and a string as itself |
| Wrappers.OrEmpty | pylocalwunder/localwunderserver.py:46-47 | `x or ''` gives "" for None and the string itself otherwise |
| Numeric.Round | pylocalwunder/common.py:30 | the result has d places and its coefficient is the half-even nearest integer to x·10^d |
| Numeric.HalfEvenRoundingUnique | pylocalwunder/common.py:30 | any Decimal meeting the half-even reference definition is the one Round returns |
| Numeric.RoundMonotone | pylocalwunder/common.py:30 | x <= y implies round(x, d) <= round(y, d) |
| Numeric.RoundError | pylocalwunder/common.py:30 | the rounded value is within half a unit of the d-th place of x |
| Numeric.RoundIdempotent | pylocalwunder/common.py:79 | rounding a rounded value again to the same places changes nothing (used for a heat index below 40F of a temperature already at one place) |
| Numeric.Sqrt | pylocalwunder/common.py:70 | a non-negative value whose square is at most x, and at most 1 when x is at most 1 |
| Common.FirstValue | pylocalwunder/common.py:29 | `values[next(iter(values))]`: the first keyword's value; StopIteration exactly when there are no keywords |
| Common.LookupFound | pylocalwunder/common.py:51 | with distinct names, `values[k]` gives the value of the entry named k |
| Common.LookupMissing | pylocalwunder/common.py:51 | a name no entry has is not found (the KeyError case) |
| Common.Single | pylocalwunder/common.py:83 | `f(tempf=v)` passes exactly one keyword, tempf, bound to v |
| Common.ConvertFToC | pylocalwunder/common.py:27-30 | StopIteration without arguments; None exactly for a None first value; otherwise (v − 32)·5/9 rounded half-even to 1 place |
| Common.ConvertInToMm | pylocalwunder/common.py:32-35 | StopIteration without arguments; None exactly for a None first value; otherwise v·25.4 rounded half-even to 2 places |
| Common.ConvertMphToKph | pylocalwunder/common.py:37-40 | StopIteration without arguments; None exactly for a None first value; otherwise v·1.609344 rounded half-even to 1 place |
| Common.ConvertFToCMonotone | pylocalwunder/common.py:30 | a higher Fahrenheit reading never gives a lower Celsius value |
| Common.ConvertFToCError | pylocalwunder/common.py:30 | the Celsius value is within 0.05 of the exact conversion |
| Common.ConvertFToCBodyTemperature | pylocalwunder/common.py:30 | 98.6F converts to the one-place Decimal 37.0 |
| Common.CorrectionFor | pylocalwunder/common.py:68-75 | the low-humidity correction applies exactly when RH <= 13 and 79 <= T <= 112; the high-humidity one exactly when RH > 85 and 79 <= T <= 87; never both |
| Common.LowHumidityRootFactor | pylocalwunder/common.py:70 | the square-root factor lies in [0, 1] |
| Common.LowHumidityAdjustment | pylocalwunder/common.py:69-71 | the low-humidity amount subtracted lies in [0, (13 − RH)/4] |
| Common.HighHumidityAdjustment | pylocalwunder/common.py:72-75 | the high-humidity amount subtracted is never negative, and at most 2.4 for RH <= 100 and T >= 79 |
| Common.SimpleEstimate | pylocalwunder/common.py:59-60 | the mean of T and 61 + 1.2 (T − 68) + 0.094 RH is 1.1 T + 0.047 RH − 10.3 |
| Common.Regression | pylocalwunder/common.py:46-67 | the 9-term regression with the coefficients of the list C (no contract of its own; its properties are stated by the heat index lemmas) |
| Common.UnroundedHeatIndex | pylocalwunder/common.py:56-77 | the temperature below 40F; the simple estimate while at most 79F; above that never more than the regression, equal to it without a correction, and at most 2.4 below it with the high-humidity one |
| Common.HeatIndex | pylocalwunder/common.py:54-79 | ValueError with the range message exactly when humidity is outside [0, 100], checked before any temperature branch; the corrected computation |
| Common.HeatIndexAsWritten | pylocalwunder/common.py:54-79 | the code as written: the same ValueError for humidity out of range, and an error exactly when humidity is out of range or the low-humidity path is taken |
| Common.HeatIndexOfRoundedTemperature | pylocalwunder/common.py:56-57 | below 40F a temperature already rounded to one place is returned unchanged |
| Common.HeatIndexBelowForty | pylocalwunder/common.py:56-57 | below 40F the result is the temperature rounded to 1 place |
| Common.HeatIndexSimpleEstimate | pylocalwunder/common.py:59-77 | from 40F, a simple estimate of at most 79F is the result, rounded |
| Common.HeatIndexRegression | pylocalwunder/common.py:62-75 | above a 79F estimate the result is the regression less the one correction that applies, rounded, and never above the rounded regression |
| Common.HighHumidityNeverRaises | pylocalwunder/common.py:72-75 | the high-humidity correction keeps the result between round(regression − 2.4) and round(regression) |
| Common.HeatIndexAsWrittenTypeError | pylocalwunder/common.py:68-71 | the code as written raises TypeError exactly on the low-humidity path and agrees with HeatIndex elsewhere |
| Common.HeatIndexAsWrittenCounterexample | pylocalwunder/common.py:68-71 | 100F at 5% humidity raises TypeError as written, while the corrected heat index is defined |
| Common.DecimalArg | pylocalwunder/common.py:51-52 | `Decimal(values[k])`: KeyError for a missing name, TypeError for None, the number otherwise |
| Common.CalculateHeatIndex | pylocalwunder/common.py:42-79 | as written: the tempf error first, then the humidity error; then ValueError for humidity out of range and TypeError on the low-humidity path; Ok exactly otherwise, with the heat index, and never None |
| Common.CalculateHeatIndexIntended | pylocalwunder/common.py:42-79 | corrected: the same argument and range errors, and Ok with the heat index for every humidity in range |
| Common.CalculateHeatIndexAgreement | pylocalwunder/common.py:68-71 | the transform as written and the corrected one differ exactly on the low-humidity path, where the first raises TypeError and the second returns a value |
| Common.CalculateHeatIndexC | pylocalwunder/common.py:81-83 | any failure of the Fahrenheit heat index is raised unchanged; otherwise its Celsius conversion, rounded to 1 place |
| Common.ParameterDefinition | pylocalwunder/common.py:93-118 | a definition holds its input names, sensor id and name, and optional unit, icon and transform; all six are required |
| Common.DefaultConfiguration | pylocalwunder/common.py:120-134 | a default Configuration has no URI, token or definitions, the upload path "/weatherstation/updateweatherstation.php" and port 5723 |
| LocalWunder.QueryGet | pylocalwunder/localwunderserver.py:33 | `request.query.get(k)`: None exactly when no pair is named k, otherwise the value of the first pair named k |
| LocalWunder.Dedup | pylocalwunder/localwunderserver.py:33 | the keys of the dict built from the names: distinct, the same names, the first name first, unchanged when already distinct |
| LocalWunder.DedupExtends | pylocalwunder/localwunderserver.py:33 | the deduplicated names of any prefix are a prefix of the deduplicated list, so together with Dedup's contract the keys are the names in the order of their first occurrence |
| LocalWunder.InputParams | pylocalwunder/localwunderserver.py:33 | one entry per distinct input parameter |
| LocalWunder.InputParamsContents | pylocalwunder/localwunderserver.py:33 | the keys are the input parameters deduplicated as Dedup states (first occurrences, in order by DedupExtends); each is bound to the query's value for it, or None |
| LocalWunder.NumberOf | pylocalwunder/common.py:51 | `Decimal(value)` of a reading is its number; None stays None |
| LocalWunder.Numbers | pylocalwunder/localwunderserver.py:44 | the transform receives one argument per entry, the first with the first entry's name and number |
| LocalWunder.NumbersContents | pylocalwunder/localwunderserver.py:44 | the transform sees the same names as the dictionary, each bound to its number |
| LocalWunder.TransformedState | pylocalwunder/localwunderserver.py:44-49 | a transform's None becomes JSON null, a Decimal a JSON number |
| LocalWunder.PassedState | pylocalwunder/localwunderserver.py:42-49 | a passed-through None becomes JSON null, a reading its text |
| LocalWunder.CoroutineError | pylocalwunder/localwunderserver.py:39-44 | a StopIteration escaping the coroutine reaches its awaiter as RuntimeError("coroutine raised StopIteration"); any other exception unchanged |
| LocalWunder.SensorState | pylocalwunder/localwunderserver.py:42-44 | no inputs: the coroutine's RuntimeError; no transform: the first input's value; a transform: its result over all inputs, or its exception as it escapes the coroutine (StopIteration turned into RuntimeError) |
| LocalWunder.AttributesOf | pylocalwunder/localwunderserver.py:46-48 | unit and icon default to "", the friendly name is the sensor name |
| LocalWunder.SensorPath | pylocalwunder/localwunderserver.py:53 | the path is "/api/states/sensor." followed by the sensor id |
| LocalWunder.SensorPathInjective | pylocalwunder/localwunderserver.py:53 | two sensors share a path exactly when they share an id |
| LocalWunder.PrepareUpdate | pylocalwunder/localwunderserver.py:42-53 | an update fails before its post exactly when its state fails; otherwise it posts the state and attributes to the sensor path |
| LocalWunder.AuthorizationHeader | pylocalwunder/localwunderserver.py:62 | the header is "Authorization" with "Bearer " followed by the token, or "Bearer None" |
| LocalWunder.ClientSession.constructor | pylocalwunder/localwunderserver.py:63 | a new session keeps its base URI and headers, is open and has delivered nothing |
| LocalWunder.ClientSession.Close | pylocalwunder/localwunderserver.py:67 | the session is closed and its delivered posts are unchanged |
| LocalWunder.ClientSession.Post | pylocalwunder/localwunderserver.py:54 | a closed session raises RuntimeError, an unreachable path ClientError; a delivered post is appended to `sent` and nothing else is |
| LocalWunder.Outcome | pylocalwunder/localwunderserver.py:39-58 | an update ends before posting exactly when preparing it fails; it is delivered exactly when prepared, the session is open and the path reachable; post failures are caught |
| LocalWunder.Outcomes | pylocalwunder/localwunderserver.py:32-35 | one outcome per definition |
| LocalWunder.OutcomesPerDefinition | pylocalwunder/localwunderserver.py:32-35 | the i-th outcome is the i-th definition's update with its own inputs; none skipped, none reordered |
| LocalWunder.Posts | pylocalwunder/localwunderserver.py:54 | the delivered posts of a run of updates are at most one per update |
| LocalWunder.PostsAppend | pylocalwunder/localwunderserver.py:32-35 | the posts of two runs of updates are those of the first followed by those of the second |
| LocalWunder.LocalWunderServer.constructor | pylocalwunder/localwunderserver.py:19-25 | the server keeps its configuration and starts without a session |
| LocalWunder.LocalWunderServer.CreateClientSession | pylocalwunder/localwunderserver.py:60-63 | a fresh open session with the configured base URI and the bearer header |
| LocalWunder.LocalWunderServer.CleanupClientSession | pylocalwunder/localwunderserver.py:65-67 | AttributeError exactly when there is no session; otherwise no error and the session is closed |
| LocalWunder.LocalWunderServer.UpdateHomeAssistant | pylocalwunder/localwunderserver.py:39-58 | the update ends as Outcome says for the current session; the session is only extended by the post it delivered |
| LocalWunder.LocalWunderServer.UpdateWeatherStation | pylocalwunder/localwunderserver.py:27-37 | definitions of None raise TypeError; otherwise HTTPOk whatever the query or the updates, one update per definition in order, and the session receives exactly their delivered posts |
| LocalWunder.TemperatureDefinition | debug.py:16-17 | the temperature definition reads `tempf` and has a transform |
| LocalWunder.TemperatureUpdatePosted | pylocalwunder/localwunderserver.py:39-54 | a reading of 98.6F posts the Decimal 37.0 with the sensor's attributes to "/api/states/sensor.wupws_temp" |
| LocalWunder.MissingInputPostedAsNull | pylocalwunder/localwunderserver.py:33-49 | a definition without a transform whose first input is missing still posts, with a null state |
| LocalWunder.TemperatureInputs | pylocalwunder/localwunderserver.py:33 | for a query holding just `tempf`, the temperature definition's dictionary is that one entry, and its transform gets the reading's number |
| LocalWunder.TemperatureMissingPostedAsNull | pylocalwunder/localwunderserver.py:42-49 | a query without `tempf` posts a null temperature, since the conversion passes None through |
| LocalWunder.TransformStopIterationNotPosted | pylocalwunder/localwunderserver.py:44 | a transform raising StopIteration ends the update with the coroutine's RuntimeError and posts nothing |
| LocalWunder.HeatIndexDefinition | debug.py:18-20 | the heat index definition reads `tempf` and `humidity` and has a transform |
| LocalWunder.DryHeatIndexNotPosted | pylocalwunder/localwunderserver.py:42-44 | 100F at 5% humidity makes the heat index transform raise TypeError on the low-humidity path, so the sensor is not updated |
| LocalWunder.HeatIndexWithoutHumidityNotPosted | pylocalwunder/localwunderserver.py:42-44 | a heat index definition with no humidity in the query ends with TypeError and posts nothing |
| LocalWunder.NoInputsNotPosted | pylocalwunder/localwunderserver.py:42 | a definition without inputs ends with the coroutine's RuntimeError before posting |

## Left out

- Decimal arithmetic is exact. The model does not follow Python's 28-digit Decimal context.
  The constants built from binary floats (`Decimal(5/9)`, `Decimal(25.4)`,
  `Decimal(1.609344)`, `Decimal(1.2)`, `Decimal(0.094)` and the regression
  coefficients) are taken as the rationals they are written as, not as the expansions
  of the binary doubles that `Decimal(float)` produces. So no result is claimed to be
  bit-exact with the Python program: for 0.025 inches the model gives 0.64 mm, where
  `Decimal(25.4)` is 25.39999999999999857… and the program gives 0.63.
- Numeric.Sqrt: states bounds only, not closeness to the true square root of
  `math.sqrt`'s double. It is used only by the corrected low-humidity correction.
- Numeric.Bisect: keeps the lower end of the bracket below the root. It does not
  carry the invariant that the upper end stays above it.
- Parsing query strings with `Decimal(str)` is not modelled. A reading carries the number it
  denotes. A non-numeric value, for which `Decimal` raises InvalidOperation, is not
  modelled.
- A transform is a function to `Result<Option<Decimal>>`, as the five transforms of
  `common.py` are. Transforms returning other kinds of values are not modelled.
- `simplejson.dumps` is not modelled. The payload is a record of the state and the
  attributes.
- The aiohttp `Application`, its router and its startup and shutdown hooks are not modelled.
  The handlers are methods of the server class, called directly.
- Network I/O, the response of a post, and joining the base URI with the path are not
  modelled. The `unreachable` set stands for posts the network makes fail.
- Logging is not modelled.
- `asyncio.create_task` concurrency is not modelled. Updates run in definition order,
  each to completion. An exception that escapes a task is reported as its outcome.
- `attr.dataclass` also generates equality and a repr for the records. These are not modelled.
  Its generated `__init__` replaces the hand-written one of `ParameterDefinition`, so all
  six fields are required there; the model follows the generated one.
- The entry scripts `debug.py`, `gunicorn.py` and `pylocalwunder/__init__.py` are
  process startup only. The temperature and heat index definitions of `debug.py`
  appear in the worked updates.

## Findings

| source | as written | input that shows it | evidently intended | confidence | as-written member | corrected member |
|---|---|---|---|---|---|---|
| pylocalwunder/common.py:69-71 | `heat_idx - (adj1 * adj2)` multiplies the Decimal `adj1` by the float `math.sqrt` returns; Python raises TypeError for Decimal times float, so the low-humidity correction always fails | tempf=100, humidity=5 (estimate above 79F, RH <= 13, 79 <= T <= 112) | subtract ((13 − RH)/4)·sqrt((17 − abs(T − 95))/17) from the regression value | not executed | Common.HeatIndexAsWritten, Common.CalculateHeatIndex, Common.HeatIndexAsWrittenTypeError, Common.HeatIndexAsWrittenCounterexample | Common.HeatIndex, Common.CalculateHeatIndexIntended |
