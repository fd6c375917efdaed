/**
 The in-memory sensor store behind the HTTP routes: per-channel histories
 (`sensorData`), per-channel latest snapshots (`latestData`) and the device
 status (`isOnline`, `lastSeen`, `deviceId`, `lastSensorUpdate`).

 Every clock reading is a parameter: `now` stands for `Date.now()`, and the
 locale and ISO texts the routes stamp on readings are passed in as strings.
 */
module SensorStore {
  import opened Values
  import opened Channels
  import opened Sanitiser
  import opened History
  import opened Liveness

  /** The latest snapshot of a channel that has no reading: `{}`, or for the
      pump `{status: false, mode: "manual"}`. */
  function DefaultLatest(c: Channel): Fields {
    if c == Pompa then map[Status := Bool(false), Mode := Str("manual")] else map[]
  }

  /** The keys the ingest route stamps on a sanitised reading. */
  const MetadataKeys: set<Key> := {Timestamp, Date, DeviceId, SensorType, UnixTimestamp}

  /** `{...validated, timestamp, date, deviceId, sensorType, unix_timestamp}`;
      `StampSpec` states what it keeps and what it adds. */
  function Stamp(validated: Fields, c: Channel, id: Val, now: int, timeText: string, dateText: string): Fields
  {
    validated + map[Timestamp := Str(timeText), Date := Str(dateText), DeviceId := id,
                    SensorType := Str(Name(c)), UnixTimestamp := Num(now as real)]
  }

  /** The metadata is spread last, so it overrides payload keys of the same name;
      every other key of the sanitised reading is kept. */
  lemma StampSpec(validated: Fields, c: Channel, id: Val, now: int, timeText: string, dateText: string)
    ensures var r := Stamp(validated, c, id, now, timeText, dateText);
            r.Keys == validated.Keys + MetadataKeys
    ensures var r := Stamp(validated, c, id, now, timeText, dateText);
            forall k :: k in validated && k !in MetadataKeys ==> r[k] == validated[k]
    ensures var r := Stamp(validated, c, id, now, timeText, dateText);
            && r[DeviceId] == id && r[SensorType] == Str(Name(c)) && r[UnixTimestamp] == Num(now as real)
            && r[Timestamp] == Str(timeText) && r[Date] == Str(dateText)
  {
  }

  /** The reading the pump-control route synthesises from `action` and `mode`. */
  function PumpReading(action: Val, mode: Val, currentId: Val, now: int, isoText: string, timeText: string): (r: Fields)
    ensures r.Keys == {Status, Mode, LastUpdated, ControlledBy, DeviceId, Timestamp, UnixTimestamp}
    ensures r[Status] == Bool(action == Str("on"))
    ensures Truthy(r[Mode]) && (Truthy(mode) ==> r[Mode] == mode) && (!Truthy(mode) ==> r[Mode] == Str("manual"))
    ensures r[DeviceId] == (if Truthy(currentId) then currentId else Str("WEB_CONTROL"))
    ensures r[UnixTimestamp] == Num(now as real) && r[Timestamp] == Str(timeText)
    ensures r[LastUpdated] == Str(isoText) && r[ControlledBy] == Str("web-dashboard")
  {
    map[Status := Bool(action == Str("on")),
        Mode := Or(mode, Str("manual")),
        LastUpdated := Str(isoText),
        ControlledBy := Str("web-dashboard"),
        DeviceId := Or(currentId, Str("WEB_CONTROL")),
        Timestamp := Str(timeText),
        UnixTimestamp := Num(now as real)]
  }

  /** A channel's history holds at most 100 readings and its latest snapshot is
      the newest of them, or the channel default when there is none. */
  ghost predicate ChannelConsistent(c: Channel, history: seq<Fields>, latest: Fields) {
    && |history| <= Capacity
    && latest == if history == [] then DefaultLatest(c) else history[|history| - 1]
  }

  /** Every channel has a history and a latest snapshot, and the two are consistent. */
  ghost predicate AllConsistent(sensorData: map<Channel, seq<Fields>>, latestData: map<Channel, Fields>) {
    forall c: Channel ::
      c in sensorData && c in latestData && ChannelConsistent(c, sensorData[c], latestData[c])
  }

  /** Replacing one channel's history and snapshot by a consistent pair keeps the store consistent. */
  lemma ReplaceChannel(sensorData: map<Channel, seq<Fields>>, latestData: map<Channel, Fields>,
                       c: Channel, history: seq<Fields>, latest: Fields)
    requires AllConsistent(sensorData, latestData)
    requires ChannelConsistent(c, history, latest)
    ensures AllConsistent(sensorData[c := history], latestData[c := latest])
  {
  }

  /** What `GET /api/latest/:sensorType` reports about the channel. */
  datatype LatestView = LatestView(data: Fields, lastUpdate: Option<int>)

  /** One entry of `GET /api/status/all`. */
  datatype SensorStatus = SensorStatus(online: bool, lastUpdate: Option<int>, data: Fields, historyCount: nat)

  /** One entry of `GET /api/device/info`'s `sensor_updates`. */
  datatype SensorUpdate = SensorUpdate(lastUpdate: Option<int>, ageSeconds: Option<int>, online: bool)

  /** Which reset `DELETE /api/reset/:sensorType?` performed. */
  datatype ResetScope = OneChannel(channel: Channel) | AllChannelsReset

  class Store {
    var sensorData: map<Channel, seq<Fields>>
    var latestData: map<Channel, Fields>
    var isOnline: bool
    var lastSeen: Option<int>
    var deviceId: Val
    var lastSensorUpdate: Timestamps

    /** Every channel has a history and a latest snapshot, and the two are consistent. */
    ghost predicate Valid()
      reads this`sensorData, this`latestData
    {
      AllConsistent(sensorData, latestData)
    }

    /** The state at process start. */
    constructor ()
      ensures Valid()
      ensures forall c: Channel :: sensorData[c] == [] && latestData[c] == DefaultLatest(c)
      ensures !isOnline && lastSeen == None && deviceId == Null && lastSensorUpdate == map[]
    {
      sensorData := map[Power := [], Suhu := [], Ph := [], Tds := [], Pompa := []];
      latestData := map[Power := DefaultLatest(Power), Suhu := DefaultLatest(Suhu), Ph := DefaultLatest(Ph),
                        Tds := DefaultLatest(Tds), Pompa := DefaultLatest(Pompa)];
      isOnline := false;
      lastSeen := None;
      deviceId := Null;
      lastSensorUpdate := map[];
      new;
      forall c: Channel
        ensures c in sensorData && c in latestData && ChannelConsistent(c, sensorData[c], latestData[c])
      {
        match c
        case Power =>
        case Suhu =>
        case Ph =>
        case Tds =>
        case Pompa =>
      }
    }

    /** Store a reading as the channel's latest and push it onto the channel's
        history, keeping only the last 100. */
    method Record(c: Channel, reading: Fields)
      requires Valid()
      modifies this`latestData, this`sensorData
      ensures Valid()
      ensures latestData == old(latestData)[c := reading]
      ensures sensorData == old(sensorData)[c := Append(old(sensorData)[c], reading)]
    {
      ghost var appended := Append(sensorData[c], reading);
      var h := sensorData[c] + [reading];
      if |h| > Capacity {
        h := h[|h| - Capacity..];
      }
      assert h == appended;
      ReplaceChannel(sensorData, latestData, c, h, reading);
      latestData := latestData[c := reading];
      sensorData := sensorData[c := h];
    }

    /** The device-status part of accepting a reading on channel `c` at `now`. */
    method MarkSeen(c: Channel, now: int)
      modifies this`isOnline, this`lastSeen, this`lastSensorUpdate
      ensures isOnline && lastSeen == Some(now)
      ensures lastSensorUpdate == old(lastSensorUpdate)[c := Some(now)]
      ensures now != 0 ==> ChannelFresh(lastSensorUpdate, c, now, SensorTimeout)
    {
      isOnline := true;
      lastSeen := Some(now);
      lastSensorUpdate := lastSensorUpdate[c := Some(now)];
    }

    /** Accept a sanitised reading for channel `c` from device `id`: mark the
        device seen, stamp the reading and store it as the channel's latest and newest. */
    method Accept(c: Channel, validated: Fields, id: Val, now: int, timeText: string, dateText: string)
      requires Valid()
      modifies this`isOnline, this`lastSeen, this`lastSensorUpdate, this`deviceId, this`latestData, this`sensorData
      ensures Valid()
      ensures isOnline && lastSeen == Some(now)
      ensures lastSensorUpdate == old(lastSensorUpdate)[c := Some(now)]
      ensures deviceId == id
      ensures latestData == old(latestData)[c := Stamp(validated, c, id, now, timeText, dateText)]
      ensures sensorData == old(sensorData)[c := Append(old(sensorData)[c], Stamp(validated, c, id, now, timeText, dateText))]
      ensures latestData[c] == sensorData[c][|sensorData[c]| - 1]
      ensures now != 0 ==> ChannelFresh(lastSensorUpdate, c, now, SensorTimeout)
    {
      MarkSeen(c, now);
      deviceId := id;
      var stored := Stamp(validated, c, deviceId, now, timeText, dateText);
      Record(c, stored);
    }

    /** `POST /api/data/:sensorType`: an unknown channel is rejected and nothing
        changes; a known one accepts the reading. */
    method Ingest(sensorType: string, body: Fields, now: int, timeText: string, dateText: string)
      returns (r: Result<Channel>)
      requires Valid()
      modifies this
      ensures Valid()
      ensures r.Err? <==> ParseChannel(sensorType).None?
      ensures r.Err? ==> r.error == InvalidSensorType && unchanged(this)
      ensures r.Ok? ==>
        var c := r.value;
        var stored := Stamp(ValidateSensorData(body, c), c, deviceId, now, timeText, dateText);
        && Name(c) == sensorType
        // device status
        && isOnline && lastSeen == Some(now)
        && lastSensorUpdate == old(lastSensorUpdate)[c := Some(now)]
        && deviceId == Or(Lookup(body, DeviceId), DefaultDeviceId(c))
        // the channel's latest snapshot and history; other channels are untouched
        && latestData == old(latestData)[c := stored]
        && sensorData == old(sensorData)[c := Append(old(sensorData)[c], stored)]
        && latestData[c] == sensorData[c][|sensorData[c]| - 1]
        && (now != 0 ==> ChannelFresh(lastSensorUpdate, c, now, SensorTimeout))
    {
      var parsed := ParseChannel(sensorType);
      if parsed.None? {
        return Err(InvalidSensorType);
      }
      var c := parsed.value;
      var validated := ValidateSensorData(body, c);
      Accept(c, validated, Or(Lookup(body, DeviceId), DefaultDeviceId(c)), now, timeText, dateText);
      r := Ok(c);
    }

    /** `POST /api/pompa/control`: a reading synthesised from the command goes
        through the same latest, history and timestamp path as an ingest, but the
        device identifier is only read. */
    method ControlPump(body: Fields, now: int, isoText: string, timeText: string) returns (reading: Fields)
      requires Valid()
      modifies this
      ensures Valid()
      ensures reading == PumpReading(Lookup(body, Action), Lookup(body, Mode), old(deviceId), now, isoText, timeText)
      ensures reading[Status] == Bool(Lookup(body, Action) == Str("on"))
      ensures reading[Mode] == Or(Lookup(body, Mode), Str("manual"))
      ensures deviceId == old(deviceId) && isOnline && lastSeen == Some(now)
      ensures lastSensorUpdate == old(lastSensorUpdate)[Pompa := Some(now)]
      ensures latestData == old(latestData)[Pompa := reading]
      ensures sensorData == old(sensorData)[Pompa := Append(old(sensorData)[Pompa], reading)]
      ensures now != 0 ==> ChannelFresh(lastSensorUpdate, Pompa, now, SensorTimeout)
    {
      MarkSeen(Pompa, now);
      reading := PumpReading(Lookup(body, Action), Lookup(body, Mode), deviceId, now, isoText, timeText);
      Record(Pompa, reading);
    }

    /** `checkDeviceStatus`, run every 5 seconds: the device is online exactly
        when some channel was updated within `DEVICE_TIMEOUT`. */
    method CheckDeviceStatus(now: int)
      modifies this`isOnline
      ensures isOnline == AnyFresh(lastSensorUpdate, now, DeviceTimeout)
    {
      var recent := false;
      var i := 0;
      while i < |AllChannels| && !recent
        invariant 0 <= i <= |AllChannels|
        invariant recent <==> exists j :: 0 <= j < i && ChannelFresh(lastSensorUpdate, AllChannels[j], now, DeviceTimeout)
      {
        recent := ChannelFresh(lastSensorUpdate, AllChannels[i], now, DeviceTimeout);
        i := i + 1;
      }
      AnyFreshByChannel(lastSensorUpdate, now, DeviceTimeout);
      if !recent && isOnline {
        isOnline := false;
      } else if recent && !isOnline {
        isOnline := true;
      }
    }

    /** The body of the reset loop for one channel. */
    method ResetChannel(c: Channel)
      requires Valid()
      modifies this`sensorData, this`latestData, this`lastSensorUpdate
      ensures Valid()
      ensures sensorData == old(sensorData)[c := []]
      ensures latestData == old(latestData)[c := DefaultLatest(c)]
      ensures lastSensorUpdate == old(lastSensorUpdate)[c := None]
    {
      ReplaceChannel(sensorData, latestData, c, [], DefaultLatest(c));
      sensorData := sensorData[c := []];
      latestData := latestData[c := DefaultLatest(c)];
      lastSensorUpdate := lastSensorUpdate[c := None];
    }

    /** The global reset: every channel is cleared, the device is forced
        offline and `lastSeen` cleared; `deviceId` is kept. */
    method ResetAll()
      requires Valid()
      modifies this
      ensures Valid()
      ensures forall c: Channel :: Cleared(c)
      ensures !isOnline && lastSeen == None && deviceId == old(deviceId)
    {
      var i := 0;
      while i < |AllChannels|
        invariant 0 <= i <= |AllChannels|
        invariant Valid()
        invariant forall c: Channel :: c in AllChannels[..i] ==> Cleared(c)
        modifies this`sensorData, this`latestData, this`lastSensorUpdate
      {
        ResetChannel(AllChannels[i]);
        assert AllChannels[..i + 1] == AllChannels[..i] + [AllChannels[i]];
        i := i + 1;
      }
      isOnline := false;
      lastSeen := None;
      forall c: Channel
        ensures Cleared(c)
      {
        ChannelListsAgree(c);
        assert AllChannels[..i] == AllChannels;
      }
    }

    /** Channel `c` holds no readings, its default snapshot and a cleared timestamp. */
    predicate Cleared(c: Channel)
      reads this
    {
      && c in sensorData && sensorData[c] == []
      && c in latestData && latestData[c] == DefaultLatest(c)
      && c in lastSensorUpdate && lastSensorUpdate[c] == None
    }

    /** `DELETE /api/reset/:sensorType?`: with no (or an empty) channel name the
        global reset; otherwise the named channel alone, after the registry check. */
    method Reset(sensorType: Option<string>) returns (r: Result<ResetScope>)
      requires Valid()
      modifies this
      ensures Valid()
      ensures (sensorType.None? || sensorType.value == "") ==>
        && r == Ok(AllChannelsReset)
        && (forall c: Channel :: Cleared(c))
        && (forall c: Channel, now: int :: !ChannelFresh(lastSensorUpdate, c, now, SensorTimeout))
        && !isOnline && lastSeen == None && deviceId == old(deviceId)
      ensures sensorType.Some? && sensorType.value != "" && ParseChannel(sensorType.value).None? ==>
        r == Err(InvalidSensorType) && unchanged(this)
      ensures sensorType.Some? && sensorType.value != "" && ParseChannel(sensorType.value).Some? ==>
        var c := ParseChannel(sensorType.value).value;
        && r == Ok(OneChannel(c))
        && sensorData == old(sensorData)[c := []]
        && latestData == old(latestData)[c := DefaultLatest(c)]
        && lastSensorUpdate == old(lastSensorUpdate)[c := None]
        && (forall now: int :: !ChannelFresh(lastSensorUpdate, c, now, SensorTimeout))
        && isOnline == old(isOnline) && lastSeen == old(lastSeen) && deviceId == old(deviceId)
    {
      if sensorType.Some? && sensorType.value != "" {
        var parsed := ParseChannel(sensorType.value);
        if parsed.None? {
          return Err(InvalidSensorType);
        }
        ResetChannel(parsed.value);
        r := Ok(OneChannel(parsed.value));
      } else {
        ResetAll();
        forall c: Channel, now: int
          ensures !ChannelFresh(lastSensorUpdate, c, now, SensorTimeout)
        {
          assert Cleared(c);
        }
        r := Ok(AllChannelsReset);
      }
    }

    /** `GET /api/latest/:sensorType`: the channel's snapshot, which is its newest
        stored reading, and its last-update time (`|| null`). */
    method Latest(sensorType: string) returns (r: Result<LatestView>)
      requires Valid()
      ensures r.Err? <==> ParseChannel(sensorType).None?
      ensures r.Err? ==> r.error == InvalidSensorType
      ensures r.Ok? ==>
        var c := ParseChannel(sensorType).value;
        && r.value.data == (if sensorData[c] == [] then DefaultLatest(c) else sensorData[c][|sensorData[c]| - 1])
        && r.value.lastUpdate == (if Truthy(LastUpdateVal(c)) then LastUpdate(lastSensorUpdate, c) else None)
    {
      var parsed := ParseChannel(sensorType);
      if parsed.None? {
        return Err(InvalidSensorType);
      }
      var c := parsed.value;
      var t := LastUpdate(lastSensorUpdate, c);
      r := Ok(LatestView(latestData[c], if t.Some? && t.value != 0 then t else None));
    }

    /** The stored timestamp as the JavaScript value it is. */
    function LastUpdateVal(c: Channel): Val
      reads this
    {
      match LastUpdate(lastSensorUpdate, c)
      case None => Null
      case Some(t) => Num(t as real)
    }

    /** `GET /api/all/:sensorType`: the channel's history, oldest first, and its length. */
    method AllReadings(sensorType: string) returns (r: Result<seq<Fields>>, count: nat)
      requires Valid()
      ensures r.Err? <==> ParseChannel(sensorType).None?
      ensures r.Err? ==> r.error == InvalidSensorType && count == 0
      ensures r.Ok? ==>
        var c := ParseChannel(sensorType).value;
        && r.value == sensorData[c]
        && count == |r.value| <= Capacity
        && (r.value != [] ==> r.value[count - 1] == latestData[c])
    {
      var parsed := ParseChannel(sensorType);
      if parsed.None? {
        return Err(InvalidSensorType), 0;
      }
      r := Ok(sensorData[parsed.value]);
      count := |sensorData[parsed.value]|;
    }

    /** `GET /api/health`: each channel's status and the number online, which is
        positive exactly when the device check would find the device online. */
    method Health(now: int) returns (sensorStatus: map<Channel, bool>, onlineSensors: nat)
      ensures forall c: Channel :: c in sensorStatus && (sensorStatus[c] <==> ChannelFresh(lastSensorUpdate, c, now, SensorTimeout))
      ensures onlineSensors == CountFresh(lastSensorUpdate, AllChannels, now, SensorTimeout)
      ensures onlineSensors <= |AllChannels|
      ensures onlineSensors > 0 <==> AnyFresh(lastSensorUpdate, now, DeviceTimeout)
    {
      sensorStatus := map[];
      onlineSensors := 0;
      var i := 0;
      while i < |AllChannels|
        invariant 0 <= i <= |AllChannels|
        invariant forall j :: 0 <= j < i ==>
                    AllChannels[j] in sensorStatus && (sensorStatus[AllChannels[j]] <==> ChannelFresh(lastSensorUpdate, AllChannels[j], now, SensorTimeout))
        invariant onlineSensors == CountFresh(lastSensorUpdate, AllChannels[..i], now, SensorTimeout)
      {
        var sensor := AllChannels[i];
        var online := ChannelFresh(lastSensorUpdate, sensor, now, SensorTimeout);
        sensorStatus := sensorStatus[sensor := online];
        if online {
          onlineSensors := onlineSensors + 1;
        }
        assert AllChannels[..i + 1][..i] == AllChannels[..i];
        i := i + 1;
      }
      assert AllChannels[..i] == AllChannels;
      forall c: Channel
        ensures c in sensorStatus && (sensorStatus[c] <==> ChannelFresh(lastSensorUpdate, c, now, SensorTimeout))
      {
        ChannelListsAgree(c);
        var j :| 0 <= j < |AllChannels| && AllChannels[j] == c;
      }
      HealthAgreesWithDevice(lastSensorUpdate, now);
    }

    /** `GET /api/status/all`: per channel its status, last update, latest
        snapshot and history length. */
    method StatusAll(now: int) returns (sensors: map<Channel, SensorStatus>)
      requires Valid()
      ensures forall c: Channel ::
        && c in sensors
        && (sensors[c].online <==> ChannelFresh(lastSensorUpdate, c, now, SensorTimeout))
        && sensors[c].lastUpdate == LastUpdate(lastSensorUpdate, c)
        && sensors[c].data == latestData[c]
        && sensors[c].historyCount == |sensorData[c]| <= Capacity
    {
      sensors := map[];
      var i := 0;
      while i < |AllChannels|
        invariant 0 <= i <= |AllChannels|
        invariant forall j :: 0 <= j < i ==>
                    var c := AllChannels[j];
                    && c in sensors
                    && sensors[c] == SensorStatus(ChannelFresh(lastSensorUpdate, c, now, SensorTimeout), LastUpdate(lastSensorUpdate, c),
                                                  latestData[c], |sensorData[c]|)
      {
        var sensorType := AllChannels[i];
        var lastUpdate := LastUpdate(lastSensorUpdate, sensorType);
        sensors := sensors[sensorType := SensorStatus(ChannelFresh(lastSensorUpdate, sensorType, now, SensorTimeout), lastUpdate,
                                                      latestData[sensorType], |sensorData[sensorType]|)];
        i := i + 1;
      }
      forall c: Channel
        ensures c in sensors && sensors[c] == SensorStatus(ChannelFresh(lastSensorUpdate, c, now, SensorTimeout), LastUpdate(lastSensorUpdate, c),
                                                           latestData[c], |sensorData[c]|)
      {
        ChannelListsAgree(c);
        var j :| 0 <= j < |AllChannels| && AllChannels[j] == c;
      }
    }

    /** `GET /api/device/info`'s `sensor_updates`: per channel its last update,
        the age of that update in seconds when there is one, and its status. */
    method DeviceInfo(now: int) returns (sensorUpdates: map<Channel, SensorUpdate>)
      ensures forall c: Channel ::
        var t := LastUpdate(lastSensorUpdate, c);
        && c in sensorUpdates
        && sensorUpdates[c].lastUpdate == t
        && (sensorUpdates[c].ageSeconds.Some? <==> t.Some? && t.value != 0)
        && (sensorUpdates[c].ageSeconds.Some? ==>
              var age := sensorUpdates[c].ageSeconds.value;
              1000 * age - 500 <= now - t.value < 1000 * age + 500)
        && (sensorUpdates[c].online <==> ChannelFresh(lastSensorUpdate, c, now, SensorTimeout))
    {
      sensorUpdates := map[];
      var i := 0;
      while i < |AllChannels|
        invariant 0 <= i <= |AllChannels|
        invariant forall c: Channel :: c in AllChannels[..i] ==>
                    var t := LastUpdate(lastSensorUpdate, c);
                    && c in sensorUpdates
                    && sensorUpdates[c] == SensorUpdate(t, if t.Some? && t.value != 0 then Some(AgeSeconds(now, t.value)) else None,
                                                        ChannelFresh(lastSensorUpdate, c, now, SensorTimeout))
      {
        var sensor := AllChannels[i];
        var lastUpdate := LastUpdate(lastSensorUpdate, sensor);
        var ageSeconds := if lastUpdate.Some? && lastUpdate.value != 0 then Some(AgeSeconds(now, lastUpdate.value)) else None;
        sensorUpdates := sensorUpdates[sensor := SensorUpdate(lastUpdate, ageSeconds, ChannelFresh(lastSensorUpdate, sensor, now, SensorTimeout))];
        assert AllChannels[..i + 1] == AllChannels[..i] + [sensor];
        i := i + 1;
      }
      assert AllChannels[..i] == AllChannels;
      forall c: Channel
        ensures c in AllChannels
      {
        ChannelListsAgree(c);
      }
    }
  }
}
