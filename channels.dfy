/**
 The channel registry: the five sensor channels the server accepts, under the
 names the device and the dashboard use in request paths
 (`power`, `suhu` = temperature, `ph`, `tds`, `pompa` = pump).
 */
module Channels {
  import opened Values

  datatype Channel = Power | Suhu | Ph | Tds | Pompa

  /** The rejection every channel-addressed operation signals for an unknown name. */
  datatype Error = InvalidSensorType

  datatype Result<+T> = Ok(value: T) | Err(error: Error)

  function Name(c: Channel): string {
    match c
    case Power => "power"
    case Suhu => "suhu"
    case Ph => "ph"
    case Tds => "tds"
    case Pompa => "pompa"
  }

  /** `validSensors`, in the order the server lists and iterates them. */
  const ValidSensors: seq<string> := ["power", "suhu", "ph", "tds", "pompa"]

  /** The channels in the order of `ValidSensors`. */
  const AllChannels: seq<Channel> := [Power, Suhu, Ph, Tds, Pompa]

  /** `validSensors.includes(s)`, returning the channel the name denotes. */
  function ParseChannel(s: string): (r: Option<Channel>)
    ensures r.Some? <==> s in ValidSensors
    ensures r.Some? ==> Name(r.value) == s
    ensures forall c: Channel :: Name(c) == s ==> r == Some(c)
  {
    if s == "power" then Some(Power)
    else if s == "suhu" then Some(Suhu)
    else if s == "ph" then Some(Ph)
    else if s == "tds" then Some(Tds)
    else if s == "pompa" then Some(Pompa)
    else None
  }

  /** Every channel is listed, and `ValidSensors` is `AllChannels` by name. */
  lemma ChannelListsAgree(c: Channel)
    ensures c in AllChannels
    ensures |ValidSensors| == |AllChannels|
    ensures forall i :: 0 <= i < |AllChannels| ==> ValidSensors[i] == Name(AllChannels[i])
  {
  }

  function UpperChar(ch: char): char {
    if 'a' <= ch <= 'z' then (ch as int - 'a' as int + 'A' as int) as char else ch
  }

  /** `s.toUpperCase()` on ASCII text, which is all the channel names contain. */
  function UpperCase(s: string): (r: string)
    ensures |r| == |s|
    ensures forall i :: 0 <= i < |s| ==> r[i] == UpperChar(s[i])
  {
    if s == [] then [] else [UpperChar(s[0])] + UpperCase(s[1..])
  }

  /** `'ESP32_' + sensorType.toUpperCase()`: the device identifier synthesised
      for a reading that carries none. */
  function DefaultDeviceId(c: Channel): (r: Val)
    ensures Truthy(r)
  {
    Str("ESP32_" + UpperCase(Name(c)))
  }
}
