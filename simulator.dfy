/** The simulated drone of the SkyDash backend: a per-request state machine
    whose only evolving state is the request counter. Battery voltage is
    kept in integer millivolts so that the linear drain and its floor are
    exact; the random draws, `sin` and the clock are inputs. */
module Simulator {
  import opened Schema

  // Constants of `DroneState.__init__`, in millivolts where they are voltages.
  const InitialMillivolts: int := 16800        // initial_battery = 16.8 V
  const DrainPerRequestMillivolts: int := 1    // battery_drain_rate = 0.001 V
  const FloorMillivolts: int := 14000          // 4S LiPo cutoff, 14.0 V
  /** Number of requests after which the drain reaches the floor. */
  const RequestsToFloor: nat := 2800
  const BaseAltitude: real := 50.0
  const AltitudeVariance: real := 5.0
  /** Yaw drift in degrees per second of elapsed time. */
  const YawRate: real := 5.0
  const OriginLatitude: real := 37.7749
  const OriginLongitude: real := -122.4194
  const GpsJitter: real := 0.0001

  /** Battery voltage after `requestCount` requests: 16.8 V minus 1 mV per
      request, never below 14.0 V. */
  function BatteryMillivolts(requestCount: nat): (mv: int)
    ensures FloorMillivolts <= mv <= InitialMillivolts
    ensures requestCount <= RequestsToFloor ==> mv == InitialMillivolts - requestCount
    ensures requestCount >= RequestsToFloor ==> mv == FloorMillivolts
  {
    var drained := InitialMillivolts - DrainPerRequestMillivolts * requestCount;
    if drained > FloorMillivolts then drained else FloorMillivolts
  }

  function Volts(mv: int): real {
    mv as real / 1000.0
  }

  function Status(mv: int): string {
    if mv > FloorMillivolts then "ARMED" else "RTL"
  }

  function FlightMode(status: string): string {
    if status == "ARMED" then "STABILIZE" else "RTL"
  }

  /** Python's `int()` on a float: truncation toward zero. */
  function Truncate(x: real): (i: int)
    ensures 0.0 <= x ==> i as real <= x < i as real + 1.0
    ensures x < 0.0 ==> i as real - 1.0 < x <= i as real
  {
    if x >= 0.0 then x.Floor else -((-x).Floor)
  }

  /** `int(((v - 14.0) / 2.8) * 100)` with v = mv / 1000, which is
      (mv - 14000) / 28 exactly. */
  function BatteryPercentage(mv: int): int {
    Truncate((mv - FloorMillivolts) as real / 28.0)
  }

  /** `(elapsed_time * 5) % 360`: Python's `%` with a positive divisor is a
      floored modulus, so the result lies in [0, 360). */
  function Yaw(elapsed: real): (y: real)
    ensures 0.0 <= y < 360.0
    ensures ((elapsed * YawRate - y) / 360.0).Floor as real == (elapsed * YawRate - y) / 360.0
  {
    var turned := elapsed * YawRate;
    var turns := (turned / 360.0).Floor;
    assert turns as real * 360.0 <= turned < turns as real * 360.0 + 360.0;
    turned - 360.0 * turns as real
  }

  /** The values the source draws from `random`, `math.sin` and friends on
      one request. */
  datatype Draws = Draws(
    sine: real,            // math.sin(elapsed_time * 0.6)
    roll: real,            // random.gauss(0, 0.67)
    pitch: real,           // random.gauss(0, 0.67)
    satellites: int,       // random.randint(10, 14)
    signalStrength: int,   // random.randint(85, 100)
    groundSpeed: real,     // random.uniform(0.5, 2.5)
    latitudeJitter: real,  // random.uniform(-0.0001, 0.0001)
    longitudeJitter: real) // random.uniform(-0.0001, 0.0001)

  /** The ranges those sources guarantee; the Gaussian draws are unbounded. */
  predicate DrawsInRange(d: Draws) {
    && -1.0 <= d.sine <= 1.0
    && 10 <= d.satellites <= 14
    && 85 <= d.signalStrength <= 100
    && 0.5 <= d.groundSpeed <= 2.5
    && -GpsJitter <= d.latitudeJitter <= GpsJitter
    && -GpsJitter <= d.longitudeJitter <= GpsJitter
  }

  /** The record reported by the `requestCount`-th request, `elapsed`
      seconds after the state was created. */
  function SimulatedRecord(requestCount: nat, elapsed: real, d: Draws): (t: Telemetry)
    requires DrawsInRange(d)
    ensures t.timestamp == elapsed
    ensures 45.0 <= t.altitude <= 55.0 && t.gps.altitude == t.altitude
    ensures 14.0 <= t.batteryVoltage <= 16.8
    ensures t.batteryVoltage == Volts(BatteryMillivolts(requestCount))
    ensures t.status == "ARMED" <==> t.batteryVoltage > 14.0
    ensures t.status == (if requestCount < RequestsToFloor then "ARMED" else "RTL")
    ensures t.armed == (t.status == "ARMED")
    ensures t.flightMode == (if t.armed then "STABILIZE" else "RTL")
    ensures t.attitude.roll == d.roll && t.attitude.pitch == d.pitch
    ensures 0.0 <= t.attitude.yaw < 360.0
    ensures 10 <= t.gps.satellites <= 14
    ensures OriginLatitude - GpsJitter <= t.gps.latitude <= OriginLatitude + GpsJitter
    ensures OriginLongitude - GpsJitter <= t.gps.longitude <= OriginLongitude + GpsJitter
    ensures 85 <= t.signalStrength <= 100
    ensures 0.5 <= t.groundSpeed <= 2.5
  {
    var altitude := BaseAltitude + AltitudeVariance * d.sine;
    var mv := BatteryMillivolts(requestCount);
    var status := Status(mv);
    Telemetry(
      elapsed, altitude, Volts(mv), status,
      Attitude(d.roll, d.pitch, Yaw(elapsed)),
      Gps(d.satellites, OriginLatitude + d.latitudeJitter, OriginLongitude + d.longitudeJitter, altitude),
      d.signalStrength, d.groundSpeed, status == "ARMED", FlightMode(status))
  }

  /** `DroneState`: created with the clock reading `now`, it counts requests. */
  class DroneState {
    const startTime: real
    var requestCount: nat

    constructor (now: real)
      ensures startTime == now && requestCount == 0
    {
      startTime := now;
      requestCount := 0;
    }

    /** One `get_telemetry` call at clock reading `now`. */
    method GetTelemetry(now: real, d: Draws) returns (t: Telemetry)
      requires DrawsInRange(d)
      modifies this
      ensures requestCount == old(requestCount) + 1
      ensures t == SimulatedRecord(requestCount, now - startTime, d)
    {
      requestCount := requestCount + 1;
      var elapsed := now - startTime;
      t := SimulatedRecord(requestCount, elapsed, d);
    }
  }

  /** The module-level `drone` the endpoints use, and `reset_simulation`,
      which replaces it by a fresh `DroneState`. */
  class Api {
    var drone: DroneState

    constructor (now: real)
      ensures fresh(drone) && drone.startTime == now && drone.requestCount == 0
    {
      drone := new DroneState(now);
    }

    method Telemetry(now: real, d: Draws) returns (t: Schema.Telemetry)
      requires DrawsInRange(d)
      modifies drone
      ensures drone == old(drone)
      ensures drone.requestCount == old(drone.requestCount) + 1
      ensures t == SimulatedRecord(drone.requestCount, now - drone.startTime, d)
    {
      t := drone.GetTelemetry(now, d);
    }

    /** The state after a reset depends on the clock reading alone, so two
        resets in a row leave what the second one would leave by itself. */
    method Reset(now: real)
      modifies this
      ensures fresh(drone) && drone.startTime == now && drone.requestCount == 0
    {
      drone := new DroneState(now);
    }

    /** A reset at clock reading `now` followed by one telemetry request at
        `later`: the request is the first of the fresh state. */
    method ResetThenTelemetry(now: real, later: real, d: Draws) returns (t: Schema.Telemetry)
      requires DrawsInRange(d)
      modifies this
      ensures drone.requestCount == 1
      ensures t.batteryVoltage == 16.799 && t.status == "ARMED"
      ensures t.armed && t.flightMode == "STABILIZE"
    {
      Reset(now);
      t := Telemetry(later, d);
    }
  }

  // Properties of the request counter and the values derived from it.

  /** Without a reset the voltage never rises, and it falls by exactly 1 mV
      per request until the floor. */
  lemma VoltageNonIncreasing(n: nat, m: nat)
    requires n <= m
    ensures BatteryMillivolts(m) <= BatteryMillivolts(n)
    ensures m <= RequestsToFloor ==> BatteryMillivolts(n) - BatteryMillivolts(m) == m - n
  {
  }

  /** The status is ARMED exactly while the floor has not been reached. */
  lemma StatusIffAboveFloor(n: nat)
    ensures Status(BatteryMillivolts(n)) == "ARMED" <==> n < RequestsToFloor
    ensures Status(BatteryMillivolts(n)) == "RTL" <==> n >= RequestsToFloor
  {
  }

  /** Once RTL, later requests stay RTL until a reset. */
  lemma RtlIsSticky(n: nat, m: nat)
    requires n <= m && Status(BatteryMillivolts(n)) == "RTL"
    ensures Status(BatteryMillivolts(m)) == "RTL"
  {
  }

  /** The unreported battery percentage stays in [0, 100] for every
      reachable voltage, and is 100 only before the first request. */
  lemma PercentageInRange(n: nat)
    ensures 0 <= BatteryPercentage(BatteryMillivolts(n)) <= 100
    ensures BatteryPercentage(BatteryMillivolts(n)) == 100 <==> n == 0
  {
    var x := (BatteryMillivolts(n) - FloorMillivolts) as real / 28.0;
    assert 0.0 <= x <= 100.0;
    if n > 0 {
      assert x < 100.0;
    }
  }

  /** The first request after a reset reports 16.799 V, ARMED and STABILIZE. */
  lemma FirstRecordAfterReset(elapsed: real, d: Draws)
    requires DrawsInRange(d)
    ensures SimulatedRecord(1, elapsed, d).batteryVoltage == 16.799
    ensures SimulatedRecord(1, elapsed, d).status == "ARMED"
    ensures SimulatedRecord(1, elapsed, d).armed
    ensures SimulatedRecord(1, elapsed, d).flightMode == "STABILIZE"
  {
  }
}
