# Sensor store of the ESP32 monitoring server

The server accepts readings from an ESP32 board on five channels:
- `power`;
- `suhu` (temperature and humidity);
- `ph`;
- `tds` (dissolved solids and water temperature);
- `pompa` (the pump).

It keeps three things in memory:
- the last 100 readings of each channel, oldest first (`sensorData`);
- the newest reading of each channel (`latestData`);
- the device status (`deviceStatus`): an online flag, the last time anything arrived, the device identifier and a last-update timestamp per channel.

A channel is online while its last update is less than 30 seconds old. The device is online while some channel is. A periodic check recomputes the device flag.

This project models that store in Dafny:

- `values.dfy` (`Values`): JavaScript values as the server sees them.
  - A finite number, NaN and the infinities are separate constructors, along with booleans, strings, `null` and `undefined`.
  - It defines truthiness, `v || fallback`, and the `isNaN`/`isFinite` test.
  - A JSON object is a map from property keys to values. The keys the server names have their own constructors, and any other name is `Other(name)`.
- `channels.dfy` (`Channels`): the channel whitelist `validSensors`, the name check, and the synthesised device identifier `ESP32_<CHANNEL>`.
- `sanitiser.dfy` (`Sanitiser`): `validateSensorData`.
  - Per channel, a numeric field that is missing, NaN or infinite becomes 0, or 7.0 for pH.
  - The pump's `status` becomes a boolean and its `mode` a truthy value.
  - Nothing is rejected, and every other key is copied.
- `history.dfy` (`History`): push-then-`slice(-100)` on a channel history.
- `liveness.dfy` (`Liveness`): the timeout rule per channel and for the device, the health counter, and the age in seconds.
- `store.dfy` (`SensorStore`): the store as a class whose fields are the server's state. Its methods are the state-changing bodies of the routes and the queries of the read routes:
  - ingest, pump control and reset;
  - the periodic device check;
  - latest, history, health, status of all channels, and device info.
  - Every method keeps the invariant `Valid()`: each channel has at most 100 readings, and its latest snapshot is its newest reading, or the channel default when it has none.
- `scenarios.dfy` (`Scenarios`): three end-to-end cases, each stated on the functions the methods are specified by and run as calls on a new `Store`:
  - a power reading with a NaN voltage;
  - the same channel gone stale 31 s later, when the device check turns the device offline;
  - the pump switched on from the dashboard.

Clock readings are parameters:
- `now` stands for `Date.now()`;
- the locale time, locale date and ISO texts are strings passed in by the caller.

## Model

| member | source | states |
|---|---|---|
| Values.Truthy | server.js:86 | the falsy values are exactly `0`, `NaN`, `false`, `""`, `null` and `undefined`; every other value, including a non-empty string and an infinity, is truthy |
| Values.Or | server.js:137 | the short-circuit `or` of `v` and `fallback` is one of its two operands: the first whenever that is truthy and the second whenever the first is falsy; it is truthy exactly when either operand is |
| Values.FiniteNumber | server.js:50-51 | a value passes the `isNaN`/`isFinite` test: NaN, the infinities and `undefined` fail; finite numbers, booleans, `null` and `""` pass (they coerce to a finite number and are kept as they are); a string that passes holds only signs, digits and decimal points |
| Channels.ParseChannel | server.js:119-125 | a name is accepted exactly when it is one of the five valid sensor names, and then it denotes the channel of that name |
| Channels.ChannelListsAgree | server.js:43 | `validSensors` lists every channel, in the order `power, suhu, ph, tds, pompa` |
| Channels.UpperCase | server.js:137 | `toUpperCase` keeps the length and upper-cases each ASCII letter |
| Channels.DefaultDeviceId | server.js:137 | the synthesised identifier `ESP32_` + upper-cased channel name is truthy, so an ingest always leaves a truthy device id |
| Sanitiser.DefaultFieldsSpec | server.js:49-83 | after the per-field checks each listed field holds its value if that value is a finite number and the default otherwise; the keys are those of the payload plus the listed fields; unlisted keys are unchanged |
| Sanitiser.ValidateSensorDataSpec | server.js:46-91 | per channel, each numeric field is present and finite, keeping a finite payload value and otherwise taking 0 (7.0 for `ph`); for `pompa`, a non-boolean `status` becomes `false` and a falsy `mode` becomes `"manual"` while a boolean status and a truthy mode are kept; every other key is copied and none is added |
| Sanitiser.ValidateIdempotent | server.js:46-91 | sanitising an already sanitised reading changes nothing |
| History.Trim | server.js:154-156 | trimming keeps exactly the last `min(n, 100)` entries |
| History.Append | server.js:151-156 | after a push and trim the history ends with the new reading, holds `min(n + 1, 100)` entries and is a suffix of the old history followed by the reading |
| History.TrimThenExtend | server.js:154-156 | trimming after every push keeps what a single trim at the end would keep |
| History.AppendAllKeepsNewest | server.js:151-156 | after any sequence of readings pushed one at a time, the history is exactly the last 100 of all readings, oldest first (FIFO eviction) |
| Liveness.Fresh | server.js:289 | `t && now - t < timeout`: the timestamp is set, truthy as a JavaScript number and less than `timeout` milliseconds old |
| Liveness.AnyFresh | server.js:98-100 | `Object.values(lastSensorUpdate).some(...)` over the stored timestamps holds exactly when some channel's timestamp passes `Fresh` |
| Liveness.UpdateWindow | server.js:289 | after an update at a non-zero `t` the channel is online for every `now < t + 30000` and offline from `t + 30000` on |
| Liveness.ZeroIsNeverFresh | server.js:263-264 | a timestamp of 0 is falsy, so it never makes a channel online |
| Liveness.StaysOffline | server.js:289 | without a new update a channel that is offline stays offline as time advances |
| Liveness.CountFresh | server.js:262-267 | the number of online channels never exceeds the number of channels counted |
| Liveness.CountFreshPositive | server.js:262-267 | the online counter is positive exactly when one of the counted channels is online |
| Liveness.AnyFreshByChannel | server.js:98-100 | testing every stored timestamp agrees with testing every channel of `validSensors` |
| Liveness.HealthAgreesWithDevice | server.js:258-267 | the health counter is at most five, and positive exactly when the device check finds a recent update |
| Liveness.AgeSeconds | server.js:314 | the age in seconds is the elapsed milliseconds divided by 1000, rounded to the nearest second with halves rounded up |
| SensorStore.StampSpec | server.js:140-147 | the stamped reading keeps every sanitised key except the five metadata keys, which carry the device id, channel name, epoch time and time/date texts and override payload keys of the same name |
| SensorStore.PumpReading | server.js:187-195 | the synthesised pump reading has exactly its seven keys, `status` is true iff the action is `"on"`, `mode` is the given mode if truthy and otherwise `"manual"`, and `deviceId` is the current device id if truthy and otherwise `"WEB_CONTROL"` |
| SensorStore.ReplaceChannel | server.js:150-156 | replacing one channel's history and snapshot by a consistent pair keeps every channel consistent |
| SensorStore.Store.constructor | server.js:15-36 | at start every history is empty, every snapshot is the channel default (`{status: false, mode: "manual"}` for the pump), and the device is offline with no last-seen time, no id and no timestamps |
| SensorStore.Store.Record | server.js:150-156 | the reading becomes the channel's snapshot and is pushed onto its history trimmed to 100; other channels are unchanged and the invariant holds |
| SensorStore.Store.MarkSeen | server.js:133-136 | the device is online, last seen now, and the channel's timestamp is now, so the channel is online at a non-zero `now` |
| SensorStore.Store.Accept | server.js:133-156 | a sanitised reading is stamped and stored as latest and newest of its channel; the device is marked seen and takes the given id; the snapshot equals the newest history entry |
| SensorStore.Store.Ingest | server.js:115-175 | an unknown channel is rejected with nothing changed. For a known channel, the state after the call is as follows. The device is online and last seen now. The channel's timestamp is now. The device id is the payload's if truthy, otherwise `ESP32_<CHANNEL>`. The channel's snapshot is the stamped sanitised reading, which is also the newest entry of its trimmed history. Every other channel is unchanged |
| SensorStore.Store.ControlPump | server.js:178-201 | the pump's snapshot and newest history entry are the synthesised reading: on iff the action is `"on"`, mode or `"manual"`. The device is online and last seen now, the pump's timestamp is now, the device id is unchanged, and every other channel is unchanged |
| SensorStore.Store.CheckDeviceStatus | server.js:94-109 | afterwards the device is online exactly when some stored timestamp is non-zero and less than 30 s old |
| SensorStore.Store.ResetChannel | server.js:346-348 | the channel's history is emptied, its snapshot reset to the channel default and its timestamp nulled; other channels are unchanged |
| SensorStore.Store.ResetAll | server.js:357-363 | every channel is cleared; the device is offline with no last-seen time and keeps its id |
| SensorStore.Store.Reset | server.js:334-371 | with no channel name every channel is cleared, no channel is online, and the device is offline with no last-seen time and the same id. An unknown name is rejected with nothing changed. A known name clears that channel alone: it stays offline, and every other channel, the online flag, last-seen time and id are unchanged |
| SensorStore.Store.Latest | server.js:211-230 | an unknown channel is rejected; otherwise the channel's newest reading (or its default) and its last-update time when that is truthy |
| SensorStore.Store.AllReadings | server.js:233-250 | an unknown channel is rejected; otherwise the channel's history, oldest first, and its length, at most 100, with the newest entry equal to the latest snapshot |
| SensorStore.Store.Health | server.js:258-280 | each channel's status is its online test, and the counter is the number online, at most five, positive exactly when the device check would find the device online |
| SensorStore.Store.StatusAll | server.js:283-305 | per channel its online test, last update, latest snapshot and history length (at most 100) |
| SensorStore.Store.DeviceInfo | server.js:308-321 | per channel its last update; an age in seconds exactly when that update is truthy, rounded to the nearest second; and its online test |
| Scenarios.PowerDeviceId | server.js:137 | the synthesised identifier of the power channel is `ESP32_POWER` |
| Scenarios.NaNVoltageSanitised | server.js:50-63 | `{voltage: NaN, current: 2.5}` on the power channel sanitises to voltage 0, current 2.5 and the four missing power fields 0 |
| Scenarios.NaNVoltageStored | server.js:130-147 | the stored form of that payload carries those values, device id `ESP32_POWER` and sensor type `power` |
| Scenarios.PowerReadingGoesStale | server.js:98-100 | after the one update at t = 1000 the power channel is online at 1000 and offline at 32000, and the device check finds no recent update at 32000 |
| Scenarios.PumpSwitchedOn | server.js:182-195 | `action: "on", mode: "eco"` yields a reading that is on in mode `"eco"`, and the pump channel is online at the command's time |
| Scenarios.IngestNaNVoltage | server.js:130-156 | `Store.Ingest` of `{voltage: NaN, current: 2.5}` on `power` at t = 1000 stores a reading with voltage 0, current 2.5, sensor type `power` and device id `ESP32_POWER`, sets the device id to `ESP32_POWER`, marks the device online and sets the power timestamp to 1000 |
| Scenarios.PowerIngestGoesOffline | server.js:94-109 | on a new `Store`, that ingest at t = 1000 leaves the device online, and `CheckDeviceStatus` at t = 32000 turns it offline; the stored reading keeps voltage 0, current 2.5 and id `ESP32_POWER` |
| Scenarios.PumpOnFromDashboard | server.js:178-201 | on a new `Store`, `ControlPump` with `{action: "on", mode: "eco"}` at t = 5000 leaves a pump snapshot that is on, in mode `"eco"`, controlled by `web-dashboard` with id `WEB_CONTROL` (no device id yet), a pump history of one entry, and the pump online |

## Left out

- Express setup, CORS, body parsing, static files, the `/` and 404 handlers and `app.listen` are transport plumbing and are not modelled. So are console logging and the shapes of the JSON responses (`server_ip`, messages, HTTP status codes).
- The 5-second `setInterval` that runs the device check is not modelled. `CheckDeviceStatus` is the check itself, taking `now`.
- `toLocaleTimeString`, `toLocaleDateString`, `toISOString` and `process.uptime()` are host calls. Their texts are parameters, and the uptime is not modelled.
- `FiniteNumber` does not model IEEE floating point or the full string-to-number coercion of `isNaN`/`isFinite`. Finite numbers are `real`s. A string counts as finite only when it is empty or a signed decimal with at most one point. Surrounding whitespace, exponents, hex, binary and octal literals, and the text `"Infinity"` are not recognised.
- Payload values that are nested objects or arrays are not modelled.
- The model of an object key does not enforce that a named key is never written as `Other` with the same name. The model relies on readers of a payload to produce the named constructor.
- `SensorStore.Store.Ingest`: only JSON-object request bodies are modelled. A `null` body gets through the sanitiser (spreading `null` gives `{}`), the status fields are updated, and then reading `req.body.deviceId` throws; the `try/catch` answers 400 and the reading is not stored. That partial update and the catch path are not modelled. A number or boolean body is not a failure: it behaves like `Ingest` with the empty map, and a string body like the map from its character indices (keys under `Other`) to its characters.
- `SensorStore.Store.ControlPump`: only JSON-object request bodies are modelled. Destructuring a `null` body throws before any state changes. A number, boolean or string body gives `undefined` for `action` and `mode`, so it behaves like `ControlPump` with the empty map.
- `SensorStore.Store.Health`: uses one `now` for all five channels. The source reads `Date.now()` again for each channel, so a channel on the 30 s boundary could be judged against a slightly later time.
- `SensorStore.Store.StatusAll`: `online` is a boolean. The source stores the raw `lastUpdate && ...` value, which is `undefined`, `null` or `0` when the channel has no truthy timestamp. Likewise `lastUpdate` is `None` both for a timestamp never set (`undefined`) and for one reset to `null`.
- `SensorStore.Store.DeviceInfo`: only `sensor_updates` is modelled. `device_id`, `is_online` and `last_seen` are the store's fields as they stand, and `server_uptime` is a host call.
- `GET /api/status` returns the device status object unchanged. It is the store's fields and has no member of its own.
