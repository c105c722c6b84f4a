/** The MAVLink link adapter: received messages are folded, one at a time,
    into the dictionary `latest_telemetry`; each message kind writes only its
    own keys, after converting protocol units to degrees, metres and volts.
    `get_telemetry` projects that dictionary, with defaults, onto the
    canonical record. */
module MavlinkAdapter {
  import Schema

  datatype Option<T> = None | Some(value: T)

  // Unit conversions applied by `_process_message`.
  const RadiansToDegrees: real := 57.2958
  const MillimetresPerMetre: real := 1000.0
  const DegE7PerDegree: real := 10000000.0
  const MillivoltsPerVolt: real := 1000.0
  /** MAV_MODE_FLAG_SAFETY_ARMED, a bit of HEARTBEAT's base_mode. */
  const SafetyArmedFlag: bv8 := 128

  /** The keys of `latest_telemetry`. */
  datatype Key =
    | Roll | Pitch | Yaw
    | Altitude | Latitude | Longitude
    | GroundSpeed | AltitudeMsl
    | BatteryVoltage | BatteryRemaining
    | GpsSatellites | GpsFixType
    | Armed | FlightMode

  /** A value stored in `latest_telemetry`. */
  datatype Value =
    | RealValue(r: real)
    | IntValue(i: int)
    | BoolValue(b: bool)
    | StringValue(s: string)

  /** A decoded message with the fields the adapter reads, in the protocol's
      raw units. `Other` is any message type the adapter does not handle. */
  datatype Message =
    | Attitude(roll: real, pitch: real, yaw: real)                       // radians
    | GlobalPositionInt(lat: int, lon: int, relativeAlt: int)            // degE7, degE7, mm
    | VfrHud(groundspeed: real, alt: real)                               // m/s, m
    | SysStatus(voltageBattery: int, batteryRemaining: int)              // mV, %
    | GpsRawInt(fixType: int, satellitesVisible: int)
    | Heartbeat(baseMode: bv8, customMode: int, mavType: int, autopilot: int)
    | Other

  /** The kind of value each key holds once written. */
  predicate HasKind(k: Key, v: Value) {
    match k
    case BatteryRemaining | GpsSatellites | GpsFixType => v.IntValue?
    case Armed => v.BoolValue?
    case FlightMode => v.StringValue?
    case _ => v.RealValue?
  }

  predicate WellTyped(m: map<Key, Value>) {
    forall k :: k in m ==> HasKind(k, m[k])
  }

  /** The keys a message of each kind writes. */
  function WrittenKeys(msg: Message): set<Key> {
    match msg
    case Attitude(_, _, _) => {Roll, Pitch, Yaw}
    case GlobalPositionInt(_, _, _) => {Altitude, Latitude, Longitude}
    case VfrHud(_, _) => {GroundSpeed, AltitudeMsl}
    case SysStatus(_, _) => {BatteryVoltage, BatteryRemaining}
    case GpsRawInt(_, _) => {GpsSatellites, GpsFixType}
    case Heartbeat(_, _, _, _) => {Armed, FlightMode}
    case Other => {}
  }

  /** HEARTBEAT's armed test, `base_mode & MAV_MODE_FLAG_SAFETY_ARMED != 0`
      (Python's `&` binds tighter than `!=`). */
  predicate ArmedBitSet(baseMode: bv8) {
    (baseMode & SafetyArmedFlag) != 0
  }

  /** The partial update a message contributes, with converted units.
      `modeString` stands for pymavlink's `mode_string_v10`. */
  function Patch(msg: Message, modeString: Message -> string): (p: map<Key, Value>)
    ensures p.Keys == WrittenKeys(msg)
    ensures WellTyped(p)
  {
    match msg
    case Attitude(roll, pitch, yaw) =>
      map[Roll := RealValue(roll * RadiansToDegrees),
          Pitch := RealValue(pitch * RadiansToDegrees),
          Yaw := RealValue(yaw * RadiansToDegrees)]
    case GlobalPositionInt(lat, lon, relativeAlt) =>
      map[Altitude := RealValue(relativeAlt as real / MillimetresPerMetre),
          Latitude := RealValue(lat as real / DegE7PerDegree),
          Longitude := RealValue(lon as real / DegE7PerDegree)]
    case VfrHud(groundspeed, alt) =>
      map[GroundSpeed := RealValue(groundspeed), AltitudeMsl := RealValue(alt)]
    case SysStatus(voltageBattery, batteryRemaining) =>
      map[BatteryVoltage := RealValue(voltageBattery as real / MillivoltsPerVolt),
          BatteryRemaining := IntValue(batteryRemaining)]
    case GpsRawInt(fixType, satellitesVisible) =>
      map[GpsSatellites := IntValue(satellitesVisible), GpsFixType := IntValue(fixType)]
    case Heartbeat(baseMode, _, _, _) =>
      map[Armed := BoolValue(ArmedBitSet(baseMode)), FlightMode := StringValue(modeString(msg))]
    case Other => map[]
  }

  /** `latest_telemetry` after `_process_message(msg)`: the message's keys are
      overwritten, every other key keeps its value. */
  function Apply(m: map<Key, Value>, msg: Message, modeString: Message -> string): (r: map<Key, Value>)
    ensures r.Keys == m.Keys + WrittenKeys(msg)
    ensures forall k :: k in m && k !in WrittenKeys(msg) ==> r[k] == m[k]
    ensures forall k :: k in WrittenKeys(msg) ==> r[k] == Patch(msg, modeString)[k]
    ensures WellTyped(m) ==> WellTyped(r)
  {
    m + Patch(msg, modeString)
  }

  /** `latest_telemetry` after processing `msgs` in arrival order. */
  function ApplyAll(m: map<Key, Value>, msgs: seq<Message>, modeString: Message -> string): map<Key, Value>
    decreases |msgs|
  {
    if msgs == [] then m
    else Apply(ApplyAll(m, msgs[..|msgs| - 1], modeString), msgs[|msgs| - 1], modeString)
  }

  /** The messages `recv_match` delivered; `None` is a timeout. */
  function Delivered(received: seq<Option<Message>>): seq<Message>
    decreases |received|
  {
    if received == [] then []
    else
      var earlier := Delivered(received[..|received| - 1]);
      match received[|received| - 1]
      case Some(msg) => earlier + [msg]
      case None => earlier
  }

  // `dict.get(key, default)` for the kind each key holds.

  function RealOr(m: map<Key, Value>, k: Key, default: real): real {
    if k in m && m[k].RealValue? then m[k].r else default
  }

  function IntOr(m: map<Key, Value>, k: Key, default: int): int {
    if k in m && m[k].IntValue? then m[k].i else default
  }

  function BoolOr(m: map<Key, Value>, k: Key, default: bool): bool {
    if k in m && m[k].BoolValue? then m[k].b else default
  }

  function StringOr(m: map<Key, Value>, k: Key, default: string): string {
    if k in m && m[k].StringValue? then m[k].s else default
  }

  /** `get_telemetry` on the dictionary `m` at clock reading `now`. */
  function Project(m: map<Key, Value>, now: real): (t: Schema.Telemetry)
    ensures t.timestamp == now
    ensures t.status == (if t.armed then "ARMED" else "DISARMED")
    ensures t.gps.altitude == t.altitude
    ensures t.signalStrength == 100
  {
    var armed := BoolOr(m, Armed, false);
    Schema.Telemetry(
      now,
      RealOr(m, Altitude, 0.0),
      RealOr(m, BatteryVoltage, 0.0),
      if armed then "ARMED" else "DISARMED",
      Schema.Attitude(RealOr(m, Roll, 0.0), RealOr(m, Pitch, 0.0), RealOr(m, Yaw, 0.0)),
      Schema.Gps(IntOr(m, GpsSatellites, 0), RealOr(m, Latitude, 0.0), RealOr(m, Longitude, 0.0),
                 RealOr(m, Altitude, 0.0)),
      100,
      RealOr(m, GroundSpeed, 0.0),
      armed,
      StringOr(m, FlightMode, "UNKNOWN"))
  }

  /** `MAVLinkDrone`, without its transport: the connection string and the
      dictionary of latest values. */
  class MavlinkDrone {
    const connectionString: string
    var latestTelemetry: map<Key, Value>

    ghost predicate Valid()
      reads this
    {
      WellTyped(latestTelemetry)
    }

    constructor (connectionString: string := "udp:127.0.0.1:14550")
      ensures this.connectionString == connectionString
      ensures latestTelemetry == map[] && Valid()
    {
      this.connectionString := connectionString;
      latestTelemetry := map[];
    }

    /** `_process_message`: one branch per handled message type. */
    method ProcessMessage(msg: Message, modeString: Message -> string)
      requires Valid()
      modifies this
      ensures Valid()
      ensures latestTelemetry == Apply(old(latestTelemetry), msg, modeString)
      ensures latestTelemetry.Keys == old(latestTelemetry).Keys + WrittenKeys(msg)
      ensures forall k :: k in old(latestTelemetry) && k !in WrittenKeys(msg) ==>
                latestTelemetry[k] == old(latestTelemetry)[k]
    {
      match msg {
      case Attitude(roll, pitch, yaw) =>
        latestTelemetry := latestTelemetry[Roll := RealValue(roll * RadiansToDegrees)];
        latestTelemetry := latestTelemetry[Pitch := RealValue(pitch * RadiansToDegrees)];
        latestTelemetry := latestTelemetry[Yaw := RealValue(yaw * RadiansToDegrees)];
      case GlobalPositionInt(lat, lon, relativeAlt) =>
        latestTelemetry := latestTelemetry[Altitude := RealValue(relativeAlt as real / MillimetresPerMetre)];
        latestTelemetry := latestTelemetry[Latitude := RealValue(lat as real / DegE7PerDegree)];
        latestTelemetry := latestTelemetry[Longitude := RealValue(lon as real / DegE7PerDegree)];
      case VfrHud(groundspeed, alt) =>
        latestTelemetry := latestTelemetry[GroundSpeed := RealValue(groundspeed)];
        latestTelemetry := latestTelemetry[AltitudeMsl := RealValue(alt)];
      case SysStatus(voltageBattery, batteryRemaining) =>
        latestTelemetry := latestTelemetry[BatteryVoltage := RealValue(voltageBattery as real / MillivoltsPerVolt)];
        latestTelemetry := latestTelemetry[BatteryRemaining := IntValue(batteryRemaining)];
      case GpsRawInt(fixType, satellitesVisible) =>
        latestTelemetry := latestTelemetry[GpsSatellites := IntValue(satellitesVisible)];
        latestTelemetry := latestTelemetry[GpsFixType := IntValue(fixType)];
      case Heartbeat(baseMode, _, _, _) =>
        latestTelemetry := latestTelemetry[Armed := BoolValue(ArmedBitSet(baseMode))];
        latestTelemetry := latestTelemetry[FlightMode := StringValue(modeString(msg))];
      case Other =>
      }
      assert latestTelemetry == old(latestTelemetry) + Patch(msg, modeString);
    }

    /** The body of `_receive_loop` over what `recv_match` returned, in
        order: every delivered message is processed, a timeout is skipped. */
    method ReceiveLoop(received: seq<Option<Message>>, modeString: Message -> string)
      requires Valid()
      modifies this
      ensures Valid()
      ensures latestTelemetry == ApplyAll(old(latestTelemetry), Delivered(received), modeString)
    {
      var i := 0;
      while i < |received|
        invariant 0 <= i <= |received|
        invariant Valid()
        invariant latestTelemetry == ApplyAll(old(latestTelemetry), Delivered(received[..i]), modeString)
      {
        DeliveredStep(received, i);
        match received[i] {
          case Some(msg) =>
            ApplyAllStep(old(latestTelemetry), Delivered(received[..i]), msg, modeString);
            ProcessMessage(msg, modeString);
          case None =>
            assert Delivered(received[..i + 1]) == Delivered(received[..i]);
        }
        i := i + 1;
      }
      assert received[..|received|] == received;
    }

    /** `get_telemetry`: reads the dictionary and changes nothing. */
    method GetTelemetry(now: real) returns (t: Schema.Telemetry)
      ensures t == Project(latestTelemetry, now)
    {
      t := Project(latestTelemetry, now);
    }
  }

  // Helpers for the fold.

  lemma DeliveredStep(received: seq<Option<Message>>, i: nat)
    requires i < |received|
    ensures Delivered(received[..i + 1]) ==
              Delivered(received[..i]) + (if received[i].Some? then [received[i].value] else [])
  {
    assert received[..i + 1][..i] == received[..i];
  }

  lemma ApplyAllStep(m: map<Key, Value>, msgs: seq<Message>, msg: Message, modeString: Message -> string)
    ensures ApplyAll(m, msgs + [msg], modeString) == Apply(ApplyAll(m, msgs, modeString), msg, modeString)
  {
    assert (msgs + [msg])[..|msgs|] == msgs;
  }

  // Properties of one message.

  /** On an empty dictionary every field takes its default. */
  lemma EmptyGivesDefaults(now: real)
    ensures Project(map[], now) ==
      Schema.Telemetry(now, 0.0, 0.0, "DISARMED", Schema.Attitude(0.0, 0.0, 0.0),
                       Schema.Gps(0, 0.0, 0.0, 0.0), 100, 0.0, false, "UNKNOWN")
  {
  }

  /** ATTITUDE sets roll, pitch and yaw from radians; no other field moves. */
  lemma AttitudeUpdatesOnlyAttitude(m: map<Key, Value>, msg: Message, modeString: Message -> string, now: real)
    requires msg.Attitude?
    ensures Project(Apply(m, msg, modeString), now).attitude ==
              Schema.Attitude(msg.roll * RadiansToDegrees, msg.pitch * RadiansToDegrees, msg.yaw * RadiansToDegrees)
    ensures Project(Apply(m, msg, modeString), now).(attitude := Project(m, now).attitude) == Project(m, now)
  {
  }

  /** GLOBAL_POSITION_INT sets altitude (mm to m) and latitude and longitude
      (degE7 to degrees); attitude, battery and the rest do not move. */
  lemma GlobalPositionUpdatesOnlyPosition(m: map<Key, Value>, msg: Message, modeString: Message -> string, now: real)
    requires msg.GlobalPositionInt?
    ensures Project(Apply(m, msg, modeString), now).altitude == msg.relativeAlt as real / 1000.0
    ensures Project(Apply(m, msg, modeString), now).gps ==
              Project(m, now).gps.(latitude := msg.lat as real / 10000000.0,
                                   longitude := msg.lon as real / 10000000.0,
                                   altitude := msg.relativeAlt as real / 1000.0)
    ensures Project(Apply(m, msg, modeString), now).(altitude := Project(m, now).altitude,
                                                     gps := Project(m, now).gps) == Project(m, now)
  {
  }

  /** VFR_HUD sets the ground speed (and the unreported altitude_msl). */
  lemma VfrHudUpdatesOnlyGroundSpeed(m: map<Key, Value>, msg: Message, modeString: Message -> string, now: real)
    requires msg.VfrHud?
    ensures Apply(m, msg, modeString)[AltitudeMsl] == RealValue(msg.alt)
    ensures Project(Apply(m, msg, modeString), now) == Project(m, now).(groundSpeed := msg.groundspeed)
  {
  }

  /** SYS_STATUS sets the voltage (mV to V) and the unreported
      battery_remaining. */
  lemma SysStatusUpdatesOnlyBattery(m: map<Key, Value>, msg: Message, modeString: Message -> string, now: real)
    requires msg.SysStatus?
    ensures Apply(m, msg, modeString)[BatteryRemaining] == IntValue(msg.batteryRemaining)
    ensures Project(Apply(m, msg, modeString), now) ==
              Project(m, now).(batteryVoltage := msg.voltageBattery as real / 1000.0)
  {
  }

  /** GPS_RAW_INT sets the satellite count (and the unreported fix type). */
  lemma GpsRawUpdatesOnlySatellites(m: map<Key, Value>, msg: Message, modeString: Message -> string, now: real)
    requires msg.GpsRawInt?
    ensures Apply(m, msg, modeString)[GpsFixType] == IntValue(msg.fixType)
    ensures Project(Apply(m, msg, modeString), now) ==
              Project(m, now).(gps := Project(m, now).gps.(satellites := msg.satellitesVisible))
  {
  }

  /** The armed test on base_mode is exactly "the top bit is set". */
  lemma ArmedBitIsTopBit(baseMode: bv8)
    ensures ArmedBitSet(baseMode) <==> baseMode as int >= 128
  {
  }

  /** HEARTBEAT sets armed from the safety bit, and with it the status, and
      the flight mode from the mode name; nothing else moves. */
  lemma HeartbeatUpdatesOnlyArming(m: map<Key, Value>, msg: Message, modeString: Message -> string, now: real)
    requires msg.Heartbeat?
    ensures Project(Apply(m, msg, modeString), now).armed <==> msg.baseMode as int >= 128
    ensures Project(Apply(m, msg, modeString), now) ==
              Project(m, now).(armed := ArmedBitSet(msg.baseMode),
                               status := if ArmedBitSet(msg.baseMode) then "ARMED" else "DISARMED",
                               flightMode := modeString(msg))
  {
    ArmedBitIsTopBit(msg.baseMode);
  }

  /** A message of a type the adapter does not handle changes nothing. */
  lemma OtherChangesNothing(m: map<Key, Value>, modeString: Message -> string)
    ensures Apply(m, Other, modeString) == m
  {
  }

  /** On a well-kinded dictionary the projection reads back every stored
      value, and falls back to the default only for a missing key. */
  lemma ValidProjectionReadsStoredValues(m: map<Key, Value>, now: real)
    requires WellTyped(m)
    ensures Project(m, now).altitude == (if Altitude in m then m[Altitude].r else 0.0)
    ensures Project(m, now).batteryVoltage == (if BatteryVoltage in m then m[BatteryVoltage].r else 0.0)
    ensures Project(m, now).attitude.roll == (if Roll in m then m[Roll].r else 0.0)
    ensures Project(m, now).attitude.pitch == (if Pitch in m then m[Pitch].r else 0.0)
    ensures Project(m, now).attitude.yaw == (if Yaw in m then m[Yaw].r else 0.0)
    ensures Project(m, now).gps.satellites == (if GpsSatellites in m then m[GpsSatellites].i else 0)
    ensures Project(m, now).gps.latitude == (if Latitude in m then m[Latitude].r else 0.0)
    ensures Project(m, now).gps.longitude == (if Longitude in m then m[Longitude].r else 0.0)
    ensures Project(m, now).groundSpeed == (if GroundSpeed in m then m[GroundSpeed].r else 0.0)
    ensures Project(m, now).armed == (if Armed in m then m[Armed].b else false)
    ensures Project(m, now).flightMode == (if FlightMode in m then m[FlightMode].s else "UNKNOWN")
  {
  }

  /** Processing the same message twice equals processing it once. */
  lemma ApplyIdempotent(m: map<Key, Value>, msg: Message, modeString: Message -> string)
    ensures Apply(Apply(m, msg, modeString), msg, modeString) == Apply(m, msg, modeString)
  {
  }

  // Properties of a sequence of messages.

  /** The last message in `msgs` that writes key `k`, if any. */
  function LastWriter(msgs: seq<Message>, k: Key): (w: Option<Message>)
    ensures w.Some? ==> w.value in msgs && k in WrittenKeys(w.value)
    ensures w.None? <==> forall i :: 0 <= i < |msgs| ==> k !in WrittenKeys(msgs[i])
    ensures w.Some? ==> exists j :: 0 <= j < |msgs| && msgs[j] == w.value &&
                          forall i :: j < i < |msgs| ==> k !in WrittenKeys(msgs[i])
    decreases |msgs|
  {
    if msgs == [] then None
    else
      var last := |msgs| - 1;
      if k in WrittenKeys(msgs[last]) then Some(msgs[last])
      else
        var earlier := msgs[..last];
        assert forall i :: 0 <= i < last ==> earlier[i] == msgs[i];
        LastWriter(earlier, k)
  }

  /** Each key holds what the last message writing it put there; a key no
      message writes keeps its initial value. */
  lemma {:induction false} LastWriterWins(m: map<Key, Value>, msgs: seq<Message>, modeString: Message -> string, k: Key)
    ensures LastWriter(msgs, k).Some? ==>
              k in ApplyAll(m, msgs, modeString) &&
              ApplyAll(m, msgs, modeString)[k] == Patch(LastWriter(msgs, k).value, modeString)[k]
    ensures LastWriter(msgs, k).None? ==>
              (k in ApplyAll(m, msgs, modeString) <==> k in m) &&
              (k in m ==> ApplyAll(m, msgs, modeString)[k] == m[k])
    decreases |msgs|
  {
    if msgs != [] {
      LastWriterWins(m, msgs[..|msgs| - 1], modeString, k);
    }
  }

  /** Every sequence of messages keeps the dictionary well typed. */
  lemma {:induction false} ApplyAllWellTyped(m: map<Key, Value>, msgs: seq<Message>, modeString: Message -> string)
    requires WellTyped(m)
    ensures WellTyped(ApplyAll(m, msgs, modeString))
    decreases |msgs|
  {
    if msgs != [] {
      ApplyAllWellTyped(m, msgs[..|msgs| - 1], modeString);
    }
  }

  /** The reported altitude is that of the latest GLOBAL_POSITION_INT, or the
      earlier one if none arrived. */
  lemma AltitudeFromLatestPosition(m: map<Key, Value>, msgs: seq<Message>, modeString: Message -> string, now: real)
    ensures LastWriter(msgs, Altitude).Some? ==>
              LastWriter(msgs, Altitude).value.GlobalPositionInt? &&
              Project(ApplyAll(m, msgs, modeString), now).altitude ==
                LastWriter(msgs, Altitude).value.relativeAlt as real / 1000.0
    ensures LastWriter(msgs, Altitude).None? ==>
              Project(ApplyAll(m, msgs, modeString), now).altitude == Project(m, now).altitude
  {
    LastWriterWins(m, msgs, modeString, Altitude);
  }

  /** Messages that carry only GPS data leave attitude and battery voltage
      as they were. */
  lemma GpsMessagesKeepAttitudeAndBattery(m: map<Key, Value>, msgs: seq<Message>, modeString: Message -> string, now: real)
    requires forall i :: 0 <= i < |msgs| ==> msgs[i].GlobalPositionInt? || msgs[i].GpsRawInt?
    ensures Project(ApplyAll(m, msgs, modeString), now).attitude == Project(m, now).attitude
    ensures Project(ApplyAll(m, msgs, modeString), now).batteryVoltage == Project(m, now).batteryVoltage
  {
    forall i | 0 <= i < |msgs|
      ensures WrittenKeys(msgs[i]) <= {Altitude, Latitude, Longitude, GpsSatellites, GpsFixType}
    {
    }
    assert LastWriter(msgs, Roll).None? && LastWriter(msgs, Pitch).None?;
    assert LastWriter(msgs, Yaw).None? && LastWriter(msgs, BatteryVoltage).None?;
    LastWriterWins(m, msgs, modeString, Roll);
    LastWriterWins(m, msgs, modeString, Pitch);
    LastWriterWins(m, msgs, modeString, Yaw);
    LastWriterWins(m, msgs, modeString, BatteryVoltage);
  }

  /** A message delivered twice in a row has the effect of delivering it once. */
  lemma RepeatedMessageIsIdempotent(m: map<Key, Value>, msgs: seq<Message>, msg: Message, modeString: Message -> string)
    ensures ApplyAll(m, msgs + [msg, msg], modeString) == ApplyAll(m, msgs + [msg], modeString)
  {
    assert msgs + [msg, msg] == (msgs + [msg]) + [msg];
    ApplyAllStep(m, msgs + [msg], msg, modeString);
    ApplyAllStep(m, msgs, msg, modeString);
    ApplyIdempotent(ApplyAll(m, msgs, modeString), msg, modeString);
  }
}
