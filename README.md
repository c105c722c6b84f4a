# SkyDash telemetry core in Dafny

SkyDash serves a drone's flight telemetry to a browser dashboard. Two producers
feed one canonical record (`Schema.Telemetry`, schema.dfy):

- **The simulator** (`Simulator`, simulator.dfy) — `DroneState` in
  backend/main.py. Its only evolving state is the request counter. Battery voltage
  is kept in integer millivolts: 16800 at start, 1 mV less per request, never
  below 14000. `status`, `armed` and `flight_mode` are derived from that voltage.
  The random draws, `math.sin(elapsed * 0.6)` and the clock are inputs
  (`Draws`, bounded by `DrawsInRange`, and a clock reading `now`). The class
  `Api` stands for the module-level `drone` and the `/reset` endpoint, which
  replaces it with a fresh `DroneState`.
- **The MAVLink link adapter** (`MavlinkAdapter`, mavlink.dfy) — `MAVLinkDrone` in
  backend/mavlink_adapter.py. `latest_telemetry` is a `map<Key, Value>` field.
  `ProcessMessage` folds one decoded message into it. Each message kind
  writes only its own keys and converts units first: radians × 57.2958 to
  degrees, mm / 1000 to m, degE7 / 1e7 to degrees, mV / 1000 to V.
  `Project` is `get_telemetry`: a read of that map with `.get` defaults.
  Raw protocol fields are integers where the protocol sends integers, and
  converted values are reals.

The code has no LOW_BATTERY/CRITICAL thresholds, no history window, no
heartbeat watchdog or staleness flag and no connection-string parser, so the
model has none either: status is only ARMED/RTL (simulator) or ARMED/DISARMED
(MAVLink).

## Model

| member | source | states |
|---|---|---|
| `Simulator.BatteryMillivolts` | backend/main.py:52-55 | voltage lies in [14000, 16800] mV; it is 16800 − n for n ≤ 2800 requests and the 14000 floor from 2800 on |
| `Simulator.Yaw` | backend/main.py:68 | the floored modulus `(elapsed*5) % 360` lies in [0, 360) and differs from `elapsed*5` by a whole number of turns |
| `Simulator.Truncate` | backend/main.py:58 | Python `int()` truncates toward zero: the floor for x ≥ 0, the ceiling for x < 0 |
| `Simulator.SimulatedRecord` | backend/main.py:42-99 | field bounds of one record: altitude in [45,55], yaw in [0,360), satellites in [10,14], signal in [85,100], ground speed in [0.5,2.5], lat/lon within 0.0001 of the origin, unrounded voltage in [14.0,16.8]; status ARMED iff the unrounded voltage > 14.0 iff fewer than 2800 requests; armed iff ARMED; STABILIZE iff armed, else RTL; gps altitude equals altitude |
| `Simulator.DroneState.constructor` | backend/main.py:27-33 | a fresh state has request count 0 and start time equal to the clock reading |
| `Simulator.DroneState.GetTelemetry` | backend/main.py:35-99 | each call increments the request count by exactly 1 and returns the record for the new count and elapsed time |
| `Simulator.Api.constructor` | backend/main.py:102-103 | the global drone is a fresh state at count 0 |
| `Simulator.Api.Telemetry` | backend/main.py:133-147 | the endpoint advances the same drone by exactly one request |
| `Simulator.Api.Reset` | backend/main.py:150-155 | after a reset the drone is a fresh object at count 0; the new state depends only on the clock reading, so resetting twice is resetting once |
| `Simulator.Api.ResetThenTelemetry` | backend/main.py:147-155 | a reset followed by one request yields count 1, unrounded voltage 16.799 V, ARMED, armed and STABILIZE |
| `Simulator.BatteryPercentage` | backend/main.py:58 | no contract; its properties are in `PercentageInRange` |
| `Simulator.Status` | backend/main.py:61 | no contract; its properties are in `StatusIffAboveFloor`, `RtlIsSticky` and `SimulatedRecord` |
| `Simulator.FlightMode` | backend/main.py:98 | no contract; its properties are in `SimulatedRecord` |
| `Simulator.VoltageNonIncreasing` | backend/main.py:42-55 | without a reset the voltage never rises, and before the floor it falls by exactly 1 mV per request |
| `Simulator.StatusIffAboveFloor` | backend/main.py:61 | status is ARMED iff fewer than 2800 requests, RTL iff at least 2800 |
| `Simulator.RtlIsSticky` | backend/main.py:52-61 | once RTL, every later request is RTL |
| `Simulator.PercentageInRange` | backend/main.py:57-58 | the unreported battery percentage lies in [0,100], and is 100 only at count 0 |
| `Simulator.FirstRecordAfterReset` | backend/main.py:27-31 | the first request after a reset has unrounded voltage 16.799 V, ARMED, armed, STABILIZE |
| `MavlinkAdapter.Patch` | backend/mavlink_adapter.py:65-96 | the update a message carries has exactly the keys of its kind and well-kinded values |
| `MavlinkAdapter.Apply` | backend/mavlink_adapter.py:65-96 | after one message the keys are the old keys plus the kind's keys; written keys hold the converted values; every other key keeps its value; well-kindedness is preserved |
| `MavlinkAdapter.ArmedBitSet` | backend/mavlink_adapter.py:95 | no contract; its properties are in `ArmedBitIsTopBit` |
| `MavlinkAdapter.Delivered` | backend/mavlink_adapter.py:59-61 | no contract; its properties are in `ReceiveLoop` |
| `MavlinkAdapter.ApplyAll` | backend/mavlink_adapter.py:57-61 | no contract; its properties are in `LastWriterWins`, `ApplyAllWellTyped` and `RepeatedMessageIsIdempotent` |
| `MavlinkAdapter.Project` | backend/mavlink_adapter.py:98-125 | status is ARMED iff armed, else DISARMED; gps altitude equals altitude; signal strength is 100; timestamp is the clock reading |
| `MavlinkAdapter.MavlinkDrone.constructor` | backend/mavlink_adapter.py:16-28 | a new adapter keeps its connection string (by default `udp:127.0.0.1:14550`) and starts with an empty dictionary |
| `MavlinkAdapter.MavlinkDrone.ProcessMessage` | backend/mavlink_adapter.py:65-96 | the dictionary becomes `Apply` of the old one; its keys grow by exactly the kind's keys and no other key changes |
| `MavlinkAdapter.MavlinkDrone.ReceiveLoop` | backend/mavlink_adapter.py:57-61 | the dictionary becomes the in-order fold of the delivered messages; timeouts are skipped |
| `MavlinkAdapter.MavlinkDrone.GetTelemetry` | backend/mavlink_adapter.py:98-125 | returns the projection of the current dictionary and modifies nothing |
| `MavlinkAdapter.EmptyGivesDefaults` | backend/mavlink_adapter.py:105-125 | on an empty dictionary: altitude 0, voltage 0, DISARMED, not armed, zero attitude, 0 satellites, signal 100, ground speed 0, UNKNOWN mode |
| `MavlinkAdapter.AttitudeUpdatesOnlyAttitude` | backend/mavlink_adapter.py:69-73 | ATTITUDE sets roll/pitch/yaw to radians × 57.2958; every other record field is unchanged |
| `MavlinkAdapter.GlobalPositionUpdatesOnlyPosition` | backend/mavlink_adapter.py:75-79 | GLOBAL_POSITION_INT sets altitude = relative_alt/1000 (also as gps altitude) and lat, lon = raw/1e7; attitude, battery and the rest are unchanged |
| `MavlinkAdapter.VfrHudUpdatesOnlyGroundSpeed` | backend/mavlink_adapter.py:81-83 | VFR_HUD stores altitude_msl and changes only the ground speed of the record |
| `MavlinkAdapter.SysStatusUpdatesOnlyBattery` | backend/mavlink_adapter.py:85-88 | SYS_STATUS stores battery_remaining and changes only the voltage, to voltage_battery/1000 |
| `MavlinkAdapter.GpsRawUpdatesOnlySatellites` | backend/mavlink_adapter.py:90-92 | GPS_RAW_INT stores the fix type and changes only the satellite count |
| `MavlinkAdapter.ArmedBitIsTopBit` | backend/mavlink_adapter.py:95 | `base_mode & 128 != 0` (`&` before `!=`) holds iff base_mode ≥ 128 |
| `MavlinkAdapter.HeartbeatUpdatesOnlyArming` | backend/mavlink_adapter.py:94-96 | HEARTBEAT sets armed iff bit 128 is set, hence the status, and the flight mode to the mode name; nothing else changes |
| `MavlinkAdapter.OtherChangesNothing` | backend/mavlink_adapter.py:65-96 | a message of an unhandled type leaves the dictionary unchanged |
| `MavlinkAdapter.ValidProjectionReadsStoredValues` | backend/mavlink_adapter.py:105-125 | on a well-kinded dictionary every record field is the stored value of its key, or the `.get` default when the key is missing |
| `MavlinkAdapter.ApplyIdempotent` | backend/mavlink_adapter.py:65-96 | processing a message twice equals processing it once |
| `MavlinkAdapter.LastWriter` | backend/mavlink_adapter.py:65-96 | the writer found for a key is a message of the sequence that writes the key and no later message writes it; there is none iff no message writes it |
| `MavlinkAdapter.LastWriterWins` | backend/mavlink_adapter.py:57-96 | after a sequence of messages each key holds the value its last writer put there; a key nobody wrote keeps its initial value |
| `MavlinkAdapter.ApplyAllWellTyped` | backend/mavlink_adapter.py:57-96 | every sequence of messages keeps each key holding the kind of value it is read as |
| `MavlinkAdapter.AltitudeFromLatestPosition` | backend/mavlink_adapter.py:75-77 | the reported altitude is relative_alt/1000 of the latest GLOBAL_POSITION_INT, or the earlier altitude when none arrived |
| `MavlinkAdapter.GpsMessagesKeepAttitudeAndBattery` | backend/mavlink_adapter.py:75-92 | any sequence of GPS-only messages leaves attitude and battery voltage unchanged |
| `MavlinkAdapter.RepeatedMessageIsIdempotent` | backend/mavlink_adapter.py:57-96 | a message delivered twice in a row has the effect of one delivery |

## Left out

- `round(..., 2)` on timestamp, altitude, voltage, attitude and ground speed is modelled as the identity. Float rounding can turn yaw 359.996 into 360.0, so the yaw bound is stated on the unrounded value.
- Floating-point voltage arithmetic: voltage is exact integer millivolts. The source's `16.8 - 0.001*n` in IEEE doubles could, in principle, move the clamp or the status flip by one request.
- `BatteryPercentage` is computed, as in the source, but never reported in the record.
- `Simulator.SimulatedRecord`: the voltage it states is the unrounded one. The source reports `round(battery_voltage, 2)` but tests `status` on the unrounded value, so requests 2796–2799 report 14.0 V while still ARMED; "ARMED iff voltage > 14.0" holds of the unrounded voltage only. The flip at request 2800 is the same in doubles.
- `Simulator.FirstRecordAfterReset`: 16.799 V is the unrounded voltage; after rounding to two places the source reports 16.8 V on requests 1–5.
- `Simulator.PercentageInRange`: the percentage is computed exactly from millivolts. In doubles the source's `int(((v - 14.0) / 2.8) * 100)` comes out one lower at some counts (request 196 gives 92 where the exact value is 93); the [0, 100] bound is unaffected.
- `time.time()`, `random.*` and `math.sin` are inputs: the clock reading `now` and the `Draws` datatype, bounded by `DrawsInRange`. The sine is an input in [-1, 1], not tied to the elapsed time. The Gaussian roll and pitch have no bound, and none is stated.
- `mavutil.mode_string_v10` is a library function; it is the `modeString` parameter.
- `connect`, `disconnect`, the background thread, `recv_match` with its timeout, the `running` flag and exception logging are transport I/O and concurrency. `ReceiveLoop` keeps only the in-order processing of what was received (a timeout is `None`). The source takes no lock, and `get_telemetry` reads `armed` twice (lines 109 and 123) while the receive thread may write; the model assumes a read never interleaves with the writes of one message, which is what `Project`'s "status ARMED iff armed" and the per-message "nothing else changes" lemmas rely on.
- The `master`, `running` and `thread` fields of `MAVLinkDrone`: they belong to the transport and the background thread.
- `DroneState`'s constant attributes (`initial_battery`, `battery_drain_rate`, `base_altitude`, `altitude_variance`) are module constants, because no code changes them.
- `Simulator.Api`: a reset twice with different clock readings gives different start times. Idempotence holds for a given clock reading.
- A message value of the wrong kind under a key cannot occur (`Valid()` keeps every key well kinded, and `ValidProjectionReadsStoredValues` shows the projection then reads exactly what `.get` reads). Only for a wrong-kinded value would the projection fall back to the default where Python returns the stored value.
- The FastAPI app, CORS middleware, the pydantic response model, the root endpoint and uvicorn startup are server framework wiring.
- backend/dji_adapter.py is not part of this model: it is HTTP calls to an external bridge with a fallback on exceptions.
