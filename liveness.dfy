/**
 The liveness rule. A channel is online when its last-update timestamp is
 present, non-zero (a zero timestamp is falsy) and less than the timeout old;
 the device is online when some channel is.
 */
module Liveness {
  import opened Values
  import opened Channels

  /** `SENSOR_TIMEOUT`, used for the per-channel status. */
  const SensorTimeout: int := 30000
  /** `DEVICE_TIMEOUT`, used by the periodic device check. */
  const DeviceTimeout: int := 30000

  /** Per-channel last-update timestamps; an absent key was never set,
      `None` was cleared by a reset (`null`). */
  type Timestamps = map<Channel, Option<int>>

  /** `t && now - t < timeout`: the timestamp is set, truthy as a JavaScript
      number, and less than `timeout` milliseconds old. */
  predicate Fresh(t: Option<int>, now: int, timeout: int): (online: bool)
    ensures online <==> t.Some? && Truthy(Num(t.value as real)) && now < t.value + timeout
  {
    t.Some? && t.value != 0 && now - t.value < timeout
  }

  /** `lastSensorUpdate[c]`, with `undefined` and `null` both read as `None`. */
  function LastUpdate(m: Timestamps, c: Channel): Option<int> {
    if c in m then m[c] else None
  }

  /** The online status of one channel. */
  predicate ChannelFresh(m: Timestamps, c: Channel, now: int, timeout: int) {
    Fresh(LastUpdate(m, c), now, timeout)
  }

  /** `Object.values(lastSensorUpdate).some(t => t && now - t < timeout)`:
      some channel is online under `timeout`. */
  predicate AnyFresh(m: Timestamps, now: int, timeout: int): (any: bool)
    ensures any <==> exists c: Channel :: ChannelFresh(m, c, now, timeout)
  {
    StoredOrChannel(m, now, timeout);
    exists c :: c in m && Fresh(m[c], now, timeout)
  }

  /** A stored timestamp is fresh exactly when the channel it belongs to is online. */
  lemma StoredOrChannel(m: Timestamps, now: int, timeout: int)
    ensures (exists c :: c in m && Fresh(m[c], now, timeout)) <==> exists c: Channel :: ChannelFresh(m, c, now, timeout)
  {
    if c :| c in m && Fresh(m[c], now, timeout) {
      assert ChannelFresh(m, c, now, timeout);
    }
  }

  /** After a single update at `t`, the channel is online for every `now`
      below `t + 30000` and offline from `t + 30000` on. */
  lemma UpdateWindow(m: Timestamps, c: Channel, t: int, now: int)
    requires t != 0
    ensures ChannelFresh(m[c := Some(t)], c, now, SensorTimeout) <==> now < t + SensorTimeout
  {
  }

  /** A timestamp of 0 never makes a channel online. */
  lemma ZeroIsNeverFresh(m: Timestamps, c: Channel, now: int, timeout: int)
    requires LastUpdate(m, c) == Some(0)
    ensures !ChannelFresh(m, c, now, timeout)
  {
  }

  /** Without a new update, a channel that has gone offline stays offline as time advances. */
  lemma StaysOffline(m: Timestamps, c: Channel, now: int, later: int, timeout: int)
    requires now <= later
    requires !ChannelFresh(m, c, now, timeout)
    ensures !ChannelFresh(m, c, later, timeout)
  {
  }

  /** `Math.round((now - t) / 1000)`: the age of an update in whole seconds,
      rounded to the nearest second with halves rounded up. */
  function AgeSeconds(now: int, t: int): (r: int)
    ensures 1000 * r - 500 <= now - t < 1000 * r + 500
  {
    (now - t + 500) / 1000
  }

  /** The number of channels of `cs` that are online: the `/api/health` counter. */
  function CountFresh(m: Timestamps, cs: seq<Channel>, now: int, timeout: int): (n: nat)
    ensures n <= |cs|
  {
    if cs == [] then 0
    else CountFresh(m, cs[..|cs| - 1], now, timeout)
         + (if ChannelFresh(m, cs[|cs| - 1], now, timeout) then 1 else 0)
  }

  /** The counter is positive exactly when one of the channels counted is online. */
  lemma {:induction false} CountFreshPositive(m: Timestamps, cs: seq<Channel>, now: int, timeout: int)
    ensures CountFresh(m, cs, now, timeout) > 0 <==>
            exists i :: 0 <= i < |cs| && ChannelFresh(m, cs[i], now, timeout)
  {
    if cs != [] {
      var init := cs[..|cs| - 1];
      CountFreshPositive(m, init, now, timeout);
      if CountFresh(m, init, now, timeout) > 0 {
        var i :| 0 <= i < |init| && ChannelFresh(m, init[i], now, timeout);
        assert cs[i] == init[i];
      } else if exists i :: 0 <= i < |cs| && ChannelFresh(m, cs[i], now, timeout) {
        var i :| 0 <= i < |cs| && ChannelFresh(m, cs[i], now, timeout);
        if i < |init| {
          assert init[i] == cs[i];
        }
      }
    }
  }

  /** The device-level test over the stored timestamps agrees with testing
      every channel in `AllChannels` order. */
  lemma AnyFreshByChannel(m: Timestamps, now: int, timeout: int)
    ensures AnyFresh(m, now, timeout) <==>
            exists i :: 0 <= i < |AllChannels| && ChannelFresh(m, AllChannels[i], now, timeout)
  {
    if AnyFresh(m, now, timeout) {
      var c :| c in m && Fresh(m[c], now, timeout);
      ChannelListsAgree(c);
      var i :| 0 <= i < |AllChannels| && AllChannels[i] == c;
      assert ChannelFresh(m, AllChannels[i], now, timeout);
    }
  }

  /** All channels online counted: at most five, and positive exactly when the device check finds a recent update. */
  lemma HealthAgreesWithDevice(m: Timestamps, now: int)
    ensures CountFresh(m, AllChannels, now, SensorTimeout) <= 5
    ensures CountFresh(m, AllChannels, now, SensorTimeout) > 0 <==> AnyFresh(m, now, DeviceTimeout)
  {
    CountFreshPositive(m, AllChannels, now, SensorTimeout);
    AnyFreshByChannel(m, now, DeviceTimeout);
  }
}
