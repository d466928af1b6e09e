# Weather station service and synthetic history, modelled in Dafny

This project models two parts of a weather-monitoring dashboard.

**The ingestion and query service** (`src/server_api/server.js`) keeps two
pieces of state. One is an in-memory *snapshot*, the latest reading with
seven fields. The other is an append-only `weather_history` table of rows
`(temperature, humidity, timestamp)`. It serves three routes:

- `POST /api/weather` merges the posted temperature and humidity and the
  clock into the snapshot, and appends one row.
- `GET /api/weather` answers with the snapshot. When the snapshot is the
  zero placeholder (temperature and humidity both 0), it also starts a
  lookup of the newest row. That lookup's callback runs after the response
  has been sent.
- `GET /api/weather/minmax` returns the rows of the last 24 hours, oldest
  first, as temperature and humidity chart series. The other four series
  are always empty.

`Service` in `server.dfy` is a class with fields `snapshot`, `history` and
`pendingRefreshes`. `pendingRefreshes` counts lookups that have started and
whose callback has not run yet. The callback is its own step,
`RefreshFromHistory`. The SQL statements are pure functions over the rows in
`history_query.dfy`:

- `Since` is the `WHERE` filter.
- `SortByTime` is `ORDER BY timestamp ASC`, a stable insertion sort.
- `LatestRow` is `ORDER BY timestamp DESC LIMIT 1`.

**The synthetic history generator** (`src/lib/data.ts`) is the dashboard's
offline fallback. `generateWeatherData` draws one random reading.
`generateHistoricalData(hours)` counts down from `hours` to 0 and pushes one
point per hour onto six parallel series. The base temperature, humidity
centre and UV base depend on the local hour of day. The UV value is clamped
to 0..10.

Abstractions used throughout:

- Sensor values are exact `real`s and timestamps are `int` milliseconds.
- The clock is a parameter: `now`, plus `rowNow` for the second clock read
  in the POST handler.
- `toLocaleTimeString` is a parameter `fmt: int -> string`.
- `getHours` is a parameter `hourOf: int -> int`.
- `Math.sin` is a parameter `sine: real -> real`.
- Each `Math.random()` call is a caller-supplied draw in [0, 1), grouped six
  per reading in `Draws`.

## Model

| member | source | states |
|---|---|---|
| `WeatherServer.IsPlaceholder` | src/server_api/server.js:49 | Definition of the "no data yet" test: temperature and humidity both exactly zero. |
| `WeatherServer.Merge` | src/server_api/server.js:34-39 | The POST snapshot is a placeholder exactly when the posted temperature and humidity are both zero, so a genuine zero reading looks like no data. The four untracked metrics are zero after it exactly when they were zero before. |
| `WeatherServer.FromRow` | src/server_api/server.js:55-63 | The snapshot installed from a row has all four untracked metrics zero. It is a placeholder exactly when the row's temperature and humidity are both zero. |
| `WeatherServer.Service.constructor` | src/server_api/server.js:21-29 | At startup the snapshot is all zeros stamped with the start time, so it is the placeholder. The table keeps whatever rows it already holds, and no lookup is pending. The four untracked metrics are zero. |
| `WeatherServer.Service.Post` | src/server_api/server.js:32-45 | Temperature, humidity and timestamp become the posted values and the clock. Pressure, wind speed, rain probability and UV keep their previous values. Exactly one row `(temperature, humidity, rowNow)` is appended after the unchanged earlier rows. The answer is always `"ok"`. The untracked metrics are all zero afterwards exactly when they were before. |
| `WeatherServer.Service.GetLatest` | src/server_api/server.js:48-69 | The response is the snapshot as it was when the request arrived, even when a lookup is started. A lookup is scheduled exactly when the snapshot is the zero placeholder. Snapshot and table are unchanged. A response from a snapshot with zero untracked metrics has them zero. |
| `WeatherServer.Service.RefreshFromHistory` | src/server_api/server.js:50-65 | A successful lookup on a non-empty table replaces the snapshot, whatever it holds by then, with a row whose timestamp is greatest. That row supplies temperature, humidity and timestamp, and the other four fields become 0. A failed lookup or an empty table changes nothing. Either way one pending lookup is consumed, and zero untracked metrics stay zero. |
| `WeatherServer.Service.History24h` | src/server_api/server.js:71-101 | The reply is the storage error exactly when the table read fails (the 500 reply at line 77); the route changes no state. Otherwise the temperature and humidity series have one point per row of the window. Point k of both carries `fmt` of the k-th row's timestamp, with that row's temperature and humidity. The window is non-decreasing by timestamp and holds a table row exactly when its timestamp is at least now minus 86 400 000 ms. It has no more rows than the table. The other four series are empty. |
| `WeatherServer.Serve` | src/server_api/server.js:21-69 | For any sequence of POSTs, latest-reading GETs and lookup completions run against a freshly started service, every latest-reading answer has pressure, wind speed, rain probability and UV at zero. The loop's invariant keeps the snapshot so after every step. |
| `WeatherServer.ReplayLastWins` | src/server_api/server.js:34-39 | After any non-empty run of POSTs the snapshot holds the last POST's temperature, humidity and clock. The four fields POST never sets keep their values from before the run. |
| `WeatherServer.RefreshAfterPost` | src/server_api/server.js:40-63 | If a POST's row is strictly newer than every earlier row, a later lookup finds exactly that row. |
| `WeatherServer.GetLatestTwice` | src/server_api/server.js:48-69 | Two latest-reading requests with nothing in between give identical answers and leave snapshot and table unchanged. If the snapshot is not the placeholder, no lookup is started. |
| `WeatherServer.EmptyStoreHistory` | src/server_api/server.js:71-101 | A store with no rows answers the 24-hour route with six empty series. |
| `WeatherServer.PostThenHistory` | src/server_api/server.js:32-101 | One POST at time t, then the 24-hour route one hour later, gives exactly one temperature point and one humidity point. Both are at `fmt(t)` and carry the posted values. |
| `HistoryQuery.Since` | src/server_api/server.js:74 | The filter keeps only table rows at or after the cutoff and never grows the table. |
| `HistoryQuery.Insert` | src/server_api/server.js:74 | One step of the ordering: inserting a row gives one more row and keeps every other row (multiset plus that row). |
| `HistoryQuery.SinceCount` | src/server_api/server.js:74 | The filter keeps every row at or after the cutoff as many times as the table holds it, and drops every earlier row. |
| `HistoryQuery.SortByTime` | src/server_api/server.js:74 | Ordering keeps exactly the same rows with the same multiplicities (a permutation). |
| `HistoryQuery.SortAscending` | src/server_api/server.js:74 | Ordering yields non-decreasing timestamps. |
| `HistoryQuery.Window` | src/server_api/server.js:73-75 | The 24-hour SELECT is the filtered rows reordered (same multiset) into non-decreasing timestamp order. |
| `HistoryQuery.WindowSpec` | src/server_api/server.js:72-75 | The 24-hour selection is ordered oldest first. Its rows are exactly the table rows at or after the cutoff, each with its multiplicity in the table. It is never longer than the table. |
| `HistoryQuery.LatestRow` | src/server_api/server.js:51 | The newest-row query finds nothing exactly on an empty table. Otherwise it finds a table row whose timestamp is at least every row's timestamp. |
| `WeatherGenerator.GenerateWeatherData` | src/lib/data.ts:3-13 | With draws in [0, 1): temperature in [15, 30), humidity in [40, 80), pressure in [1000, 1020), wind in [0, 20), rain in [0, 100). The UV index is a whole number from 0 to 10, and the timestamp is the clock. |
| `WeatherGenerator.Floor` | src/lib/data.ts:70 | `Math.floor` (also used at data.ts:10): the greatest integer not above its argument. |
| `WeatherGenerator.BaseTemp` | src/lib/data.ts:30-40 | In both directions: base temperature 27 exactly for hours 10–14, 23 for 6–9, 25 for 15–18, and 18 for every other hour. The initial 20 never survives. |
| `WeatherGenerator.HumidityCentre` | src/lib/data.ts:49 | The humidity centre is one of 80, 70, 66, 62. It is 80 exactly when the base temperature is 18. |
| `WeatherGenerator.HumidityFallsAsTemperatureRises` | src/lib/data.ts:49 | A warmer base temperature always gives a strictly lower humidity centre. |
| `WeatherGenerator.UvBase` | src/lib/data.ts:67 | In both directions: UV base 8 exactly for hours 10–15, 5 for 7–9 and 16–18, and 0 otherwise. |
| `WeatherGenerator.Clamp` | src/lib/data.ts:70 | `max(lo, min(hi, x))` lies in [lo, hi]. It is `x` when `x` is in range, `lo` when `x` is below and `hi` when `x` is above. |
| `WeatherGenerator.UvValue` | src/lib/data.ts:70 | Every hourly UV value is a whole number in 0..10, for any draw. |
| `WeatherGenerator.UvValueNearBase` | src/lib/data.ts:67-70 | With a draw in [0, 1), the UV value is the base or one below it. It is 0 for a base of 0. The clamp only acts at night, turning -1 into 0. |
| `WeatherGenerator.HoursBefore` | src/lib/data.ts:27 | The timestamp `now - i` hours of loop iteration `i`. It is never after now for `i >= 0`, and equals now only for `i == 0`. |
| `WeatherGenerator.Sample` | src/lib/data.ts:27-71 | The six points of one loop iteration share the time string for `i` hours before now. The UV point is a whole number in 0..10. With valid draws, temperature is within 1.5 of the hour's base and humidity within 5 of its centre. |
| `WeatherGenerator.Chronological` | src/lib/data.ts:26-27 | Later indices belong to strictly later timestamps, exactly one hour apart per index. |
| `WeatherGenerator.GenerateHistoricalData` | src/lib/data.ts:15-75 | For `hours >= 0` all six series have exactly `hours + 1` entries; for `hours < 0` all six are empty. Entry k of every series is that metric's point for the iteration `hours - k` hours before now, using the k-th draw. So the series are aligned index by index and in chronological order. |

## Left out

- HTTP, JSON, CORS, Express routing, `app.listen`: the model calls the route handlers directly.
- The sqlite3 database: the table is an in-memory sequence. It has no auto-increment id; a row's position is its identity.
- Inserts are modelled as done immediately and always succeeding. `server.js` neither awaits nor checks the insert.
- The lookup in `RefreshFromHistory` reads the table as it is when the callback runs. A failed lookup is a `failed` flag that leaves the state unchanged. The service's attempt to send a 500 reply on that path is not modelled; the request was already answered at that point.
- Lookup timing against later inserts: the model runs the lookup when its callback step runs, so it always sees every row inserted before that step. In `server.js`, the SELECT started by a GET can run before the INSERT of a POST that arrives before the callback. The callback then installs a row older than that POST and overwrites the POST's values. The model cannot produce that interleaving.
- Failed lookup reply: on a lookup error `server.js` calls `res.status(500).json(...)` after `res.json` has already sent the response. Express then throws a headers-already-sent error inside the database callback, and nothing catches it. The model's `failed` flag only leaves the state unchanged; it does not model that uncaught error or its effect on the process.
- Concurrency and callback timing: each lookup is one explicit later step. `pendingRefreshes` only records that a step is owed.
- SQL does not fix the order of rows with equal timestamps. The model picks table order (`SortByTime` is stable, and `LatestRow` takes the last of the newest rows). The service contracts hold for any choice among tied rows, except the exact point order within a tie in `History24h`.
- POST bodies with missing or non-numeric fields (JavaScript `undefined`/`NaN`): values are always reals.
- Floating-point rounding: `toFixed(1)`/`parseFloat` rounding and IEEE arithmetic are not modelled; values are exact reals. Because of this, the ranges in `GenerateWeatherData` have open upper ends; rounding in `data.ts` could reach the upper end itself (for example 30.0).
- `WeatherGenerator.UvValueNearBase`: the UV value never exceeding its base holds for exact reals only. In double precision the largest `Math.random()` draws make `base + r*2` round up to `base + 2`, so `data.ts` line 70 can give 9 for base 8 and 6 for base 5.
- `WeatherGenerator.GenerateHistoricalData`: `hours` is an integer. A fractional `hours` in `data.ts` would iterate over fractional offsets.
- `toLocaleTimeString`, `getHours`, `Math.sin`, `Date.now()` and `Math.random()` are parameters with no properties assumed, apart from draws lying in [0, 1) where stated.
- The dashboard page (`src/pages/Home.tsx`) and its chart and card components: polling, React state and the fallback to synthetic data are UI glue.
