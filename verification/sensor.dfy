/** The sensor platform of sensor.py: seven readings of one device, each a
    projection of the coordinator's latest status body onto one key of the
    first connector, with active power turned from kilowatts into watts. */
module Sensor {
  import opened Common
  import opened Payload

  /** The unit a sensor reports in. */
  datatype Unit = Watt | Ampere | Volt

  /** One row of the sensor table: the connector key read, the display name
      suffix, the unit, and whether the value is multiplied by 1000. */
  datatype SensorKind = SensorKind(key: string, name: string, unit: Unit, convertToWatts: bool)

  /** `VoolPowerSensor` as constructed: its kind and its unique id. */
  datatype PowerSensor = PowerSensor(kind: SensorKind, uniqueId: string)

  /** The sensors `async_setup_entry` creates, in order. */
  const Kinds: seq<SensorKind> := [
    SensorKind("active_power", "Active Power", Watt, true),
    SensorKind("current_l1", "Current L1", Ampere, false),
    SensorKind("current_l2", "Current L2", Ampere, false),
    SensorKind("current_l3", "Current L3", Ampere, false),
    SensorKind("voltage_l1", "Voltage L1", Volt, false),
    SensorKind("voltage_l2", "Voltage L2", Volt, false),
    SensorKind("voltage_l3", "Voltage L3", Volt, false)
  ]

  /** Equal strings with equal prefixes have equal remainders. */
  lemma PrefixCancels(prefix: string, a: string, b: string)
    requires prefix + a == prefix + b
    ensures a == b
  {
    assert a == (prefix + a)[|prefix|..];
    assert b == (prefix + b)[|prefix|..];
  }

  function UniqueId(deviceId: string, key: string): string {
    deviceId + "_" + key
  }

  /** `VoolPowerSensor.__init__`: the unique id is the device id, an
      underscore and the key. */
  function NewSensor(deviceId: string, kind: SensorKind): (s: PowerSensor)
    ensures s.kind == kind
    ensures |s.uniqueId| == |deviceId| + 1 + |kind.key|
    ensures s.uniqueId[..|deviceId|] == deviceId && s.uniqueId[|deviceId|] == '_'
    ensures s.uniqueId[|deviceId| + 1..] == kind.key
  {
    PowerSensor(kind, UniqueId(deviceId, kind.key))
  }

  /** Within one device, the unique id determines the key. */
  lemma UniqueIdDeterminesKey(deviceId: string, key1: string, key2: string)
    requires UniqueId(deviceId, key1) == UniqueId(deviceId, key2)
    ensures key1 == key2
  {
    assert UniqueId(deviceId, key1) == (deviceId + "_") + key1;
    assert UniqueId(deviceId, key2) == (deviceId + "_") + key2;
    PrefixCancels(deviceId + "_", key1, key2);
  }

  /** The `name` property: "Vool " followed by the table row's name. */
  function DisplayName(sensor: PowerSensor): (name: string)
    ensures |name| == 5 + |sensor.kind.name|
    ensures name[..5] == "Vool " && name[5..] == sensor.kind.name
  {
    "Vool " + sensor.kind.name
  }

  /** `async_setup_entry`: one sensor per table row, all for the device the
      coordinator's client queries. */
  function SetupEntities(deviceId: string): (sensors: seq<PowerSensor>)
    ensures |sensors| == 7
    ensures forall i | 0 <= i < |sensors| :: sensors[i] == NewSensor(deviceId, Kinds[i])
    ensures forall i, j | 0 <= i < j < |sensors| ::
      sensors[i].uniqueId != sensors[j].uniqueId && DisplayName(sensors[i]) != DisplayName(sensors[j])
    ensures forall i | 0 <= i < |sensors| ::
      sensors[i].kind.convertToWatts <==> sensors[i].kind.key == "active_power"
  {
    var sensors := seq(|Kinds|, i requires 0 <= i < |Kinds| => NewSensor(deviceId, Kinds[i]));
    sensors
  }

  /** The connector a reading comes from: the first one listed under
      `deviceStatus.connectors`, if the body has one. */
  function FirstConnector(data: Option<StatusBody>): Option<Connector> {
    match data
    case None => None
    case Some(body) =>
      match body.deviceStatus
      case None => None
      case Some(status) =>
        match status.connectors
        case None => None
        case Some(connectors) => if connectors == [] then None else Some(connectors[0])
  }

  /** The `state` property on coordinator data `data`: a falsy body, a
      missing `deviceStatus` or `connectors`, an empty connector list or a
      missing or null value all read as unavailable (`None`); a present value
      is multiplied by 1000 when the sensor converts to watts. */
  function State(sensor: PowerSensor, data: Option<StatusBody>): (reading: Option<real>)
    ensures data.None? || data.value.IsEmpty() ==> reading == None
    ensures reading.Some? <==>
      FirstConnector(data).Some? && sensor.kind.key in FirstConnector(data).value
      && FirstConnector(data).value[sensor.kind.key].Some?
    ensures reading.Some? ==>
      reading.value == (if sensor.kind.convertToWatts then 1000.0 else 1.0)
                       * FirstConnector(data).value[sensor.kind.key].value
  {
    if data.None? || data.value.IsEmpty() then None
    else
      var status := data.value.deviceStatus.GetOr(DeviceStatus(None));
      var connectors := status.connectors.GetOr([]);
      if connectors == [] then None
      else
        var value := if sensor.kind.key in connectors[0] then connectors[0][sensor.kind.key] else None;
        if value.Some? && sensor.kind.convertToWatts then Some(value.value * 1000.0) else value
  }

  /** Only the first connector is consulted. */
  lemma OnlyFirstConnectorCounts(sensor: PowerSensor, first: Connector, rest: seq<Connector>,
                                 otherKeys: set<string>)
    ensures State(sensor, Some(StatusBody(Some(DeviceStatus(Some([first] + rest))), otherKeys)))
         == State(sensor, Some(StatusBody(Some(DeviceStatus(Some([first]))), otherKeys)))
  {
  }

  /** The converting sensor reads the plain reading times 1000, and is
      unavailable exactly when the plain one is. */
  lemma ConversionScalesReading(sensor: PowerSensor, data: Option<StatusBody>)
    ensures State(sensor.(kind := sensor.kind.(convertToWatts := true)), data) ==
      match State(sensor.(kind := sensor.kind.(convertToWatts := false)), data)
      case None => None
      case Some(v) => Some(v * 1000.0)
  {
  }

  /** A snapshot whose first connector holds 5 kW of active power and 10 A
      on phase 1: the power sensor reads 5000 W, the current sensor 10 A,
      and a key the connector lacks reads as unavailable. */
  lemma ExampleReadings(deviceId: string)
    ensures var sensors := SetupEntities(deviceId);
      var data := Some(StatusBody(Some(DeviceStatus(Some([map["active_power" := Some(5.0), "current_l1" := Some(10.0)]]))), {}));
      && State(sensors[0], data) == Some(5000.0)
      && State(sensors[1], data) == Some(10.0)
      && State(sensors[4], data) == None
  {
  }
}
