/**
 End-to-end cases of the server's behaviour: a power reading with a NaN voltage,
 the staleness of its channel 31 seconds later, and a pump switched on from the
 dashboard. Each is stated on the functions the store methods are specified by,
 and then run as calls on a new `Store`.
 */
module Scenarios {
  import opened Values
  import opened Channels
  import opened Sanitiser
  import opened Liveness
  import opened SensorStore

  /** The identifier synthesised for the power channel. */
  lemma PowerDeviceId()
    ensures DefaultDeviceId(Power) == Str("ESP32_POWER")
  {
  }

  /** The sanitised form of `{voltage: NaN, current: 2.5}` on the power channel. */
  lemma NaNVoltageSanitised(body: Fields)
    requires Lookup(body, Voltage) == NaN && Lookup(body, Current) == Num(2.5)
    requires PowerField !in body && Energy !in body && Frequency !in body && PowerFactor !in body
    ensures var v := ValidateSensorData(body, Power);
            && Voltage in v && v[Voltage] == Num(0.0) && Current in v && v[Current] == Num(2.5)
            && PowerField in v && v[PowerField] == Num(0.0) && Energy in v && v[Energy] == Num(0.0)
            && Frequency in v && v[Frequency] == Num(0.0) && PowerFactor in v && v[PowerFactor] == Num(0.0)
  {
    ValidateSensorDataSpec(body, Power);
  }

  /** The reading an ingest stores for a power payload `{voltage: NaN, current: 2.5}`
      (possibly with other keys, but without a device identifier). */
  lemma NaNVoltageStored(body: Fields, now: int, timeText: string, dateText: string)
    requires Lookup(body, Voltage) == NaN && Lookup(body, Current) == Num(2.5)
    requires PowerField !in body && Energy !in body && Frequency !in body && PowerFactor !in body
    requires DeviceId !in body
    ensures var id := Or(Lookup(body, DeviceId), DefaultDeviceId(Power));
            var s := Stamp(ValidateSensorData(body, Power), Power, id, now, timeText, dateText);
            && Lookup(s, Voltage) == Num(0.0) && Lookup(s, Current) == Num(2.5)
            && Lookup(s, PowerField) == Num(0.0) && Lookup(s, Energy) == Num(0.0)
            && Lookup(s, Frequency) == Num(0.0) && Lookup(s, PowerFactor) == Num(0.0)
            && Lookup(s, DeviceId) == Str("ESP32_POWER") && Lookup(s, SensorType) == Str("power")
  {
    var v := ValidateSensorData(body, Power);
    NaNVoltageSanitised(body);
    PowerDeviceId();
    var id := Or(Lookup(body, DeviceId), DefaultDeviceId(Power));
    assert id == Str("ESP32_POWER");
    StampSpec(v, Power, id, now, timeText, dateText);
    var s := Stamp(v, Power, id, now, timeText, dateText);
    assert Voltage in s && Current in s && PowerField in s;
    assert Energy in s && Frequency in s && PowerFactor in s;
    assert DeviceId in s && SensorType in s;
  }

  /** The power channel's only update is at t = 1000, as after the first ingest
      from process start: the channel is online at t = 1000 and offline at
      t = 32000, when the device check also finds no recent update. */
  lemma PowerReadingGoesStale(m: Timestamps)
    requires m == map[][Power := Some(1000)]
    ensures ChannelFresh(m, Power, 1000, SensorTimeout)
    ensures !ChannelFresh(m, Power, 32000, SensorTimeout)
    ensures !AnyFresh(m, 32000, DeviceTimeout)
  {
  }

  /** `controlPump("on", "eco")`: the reading that becomes the pump's latest
      snapshot is on, in mode "eco", and the pump channel is online at the time
      of the command. */
  lemma PumpSwitchedOn(m: Timestamps, id: Val, now: int, isoText: string, timeText: string)
    requires now != 0
    ensures var r := PumpReading(Str("on"), Str("eco"), id, now, isoText, timeText);
            Lookup(r, Status) == Bool(true) && Lookup(r, Mode) == Str("eco")
    ensures ChannelFresh(m[Pompa := Some(now)], Pompa, now, SensorTimeout)
  {
  }

  /** The power ingest of `{voltage: NaN, current: 2.5}` (possibly with other
      keys, but without a device identifier) at t = 1000: the stored reading has
      voltage 0 and current 2.5 and carries the synthesised id, and the power
      channel's timestamp is 1000. */
  method IngestNaNVoltage(store: Store, body: Fields)
    requires store.Valid()
    requires Lookup(body, Voltage) == NaN && Lookup(body, Current) == Num(2.5)
    requires PowerField !in body && Energy !in body && Frequency !in body && PowerFactor !in body
    requires DeviceId !in body
    modifies store
    ensures store.Valid() && store.isOnline
    ensures Lookup(store.latestData[Power], Voltage) == Num(0.0) && Lookup(store.latestData[Power], Current) == Num(2.5)
    ensures Lookup(store.latestData[Power], SensorType) == Str("power")
    ensures store.deviceId == Str("ESP32_POWER") && Lookup(store.latestData[Power], DeviceId) == store.deviceId
    ensures store.lastSensorUpdate == old(store.lastSensorUpdate)[Power := Some(1000)]
  {
    assert ParseChannel("power") == Some(Power);
    var r := store.Ingest("power", body, 1000, "10:00:01", "1/1/2026");
    assert r == Ok(Power);
    NaNVoltageStored(body, 1000, "10:00:01", "1/1/2026");
    assert store.latestData[Power] == Stamp(ValidateSensorData(body, Power), Power, store.deviceId, 1000, "10:00:01", "1/1/2026");
  }

  /** A fresh store ingests that power reading at t = 1000, and the device check
      runs at t = 32000: the device was online after the ingest and is offline
      after the check. */
  method PowerIngestGoesOffline(body: Fields) returns (stored: Fields, id: Val, onlineAfterIngest: bool, onlineAfterCheck: bool)
    requires Lookup(body, Voltage) == NaN && Lookup(body, Current) == Num(2.5)
    requires PowerField !in body && Energy !in body && Frequency !in body && PowerFactor !in body
    requires DeviceId !in body
    ensures Lookup(stored, Voltage) == Num(0.0) && Lookup(stored, Current) == Num(2.5)
    ensures Lookup(stored, SensorType) == Str("power")
    ensures id == Str("ESP32_POWER") && Lookup(stored, DeviceId) == id
    ensures onlineAfterIngest && !onlineAfterCheck
  {
    var store := new Store();
    IngestNaNVoltage(store, body);
    stored := store.latestData[Power];
    id := store.deviceId;
    onlineAfterIngest := store.isOnline;
    PowerReadingGoesStale(store.lastSensorUpdate);
    store.CheckDeviceStatus(32000);
    onlineAfterCheck := store.isOnline;
  }

  /** A fresh store receives `{action: "on", mode: "eco"}` at t = 5000: the pump's
      latest snapshot is on, in mode "eco", controlled from the dashboard, and the
      pump channel is online at that time. */
  method PumpOnFromDashboard() returns (latest: Fields, pumpOnline: bool, historyCount: nat)
    ensures Lookup(latest, Status) == Bool(true) && Lookup(latest, Mode) == Str("eco")
    ensures Lookup(latest, ControlledBy) == Str("web-dashboard") && Lookup(latest, DeviceId) == Str("WEB_CONTROL")
    ensures pumpOnline && historyCount == 1
  {
    var store := new Store();
    var reading := store.ControlPump(map[Action := Str("on"), Mode := Str("eco")], 5000,
                                     "2026-01-01T00:00:05.000Z", "10:00:05");
    latest := store.latestData[Pompa];
    pumpOnline := ChannelFresh(store.lastSensorUpdate, Pompa, 5000, SensorTimeout);
    historyCount := |store.sensorData[Pompa]|;
  }
}
