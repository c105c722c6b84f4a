/** The canonical telemetry record that every producer returns to the
    dashboard (the dictionary built by both `get_telemetry` methods and
    described by `TelemetryResponse`). Angles are degrees, distances metres,
    voltages volts. */
module Schema {

  datatype Attitude = Attitude(roll: real, pitch: real, yaw: real)

  datatype Gps = Gps(satellites: int, latitude: real, longitude: real, altitude: real)

  datatype Telemetry = Telemetry(
    timestamp: real,
    altitude: real,
    batteryVoltage: real,
    status: string,
    attitude: Attitude,
    gps: Gps,
    signalStrength: int,
    groundSpeed: real,
    armed: bool,
    flightMode: string)
}
