/**
 The reading validator (`validateSensorData`): a copy of the payload in which
 each numeric field of the channel that is missing, NaN or infinite is
 replaced by the channel default, and the pump's `status` and `mode` are
 normalised. Nothing is ever rejected and every other key is kept.
 */
module Sanitiser {
  import opened Values
  import opened Channels

  /** The numeric fields checked for each channel, in the order the checks run. */
  function NumericFields(c: Channel): seq<Key> {
    match c
    case Power => [Voltage, Current, PowerField, Energy, Frequency, PowerFactor]
    case Suhu => [SuhuField, Kelembaban, HeatIndex]
    case Ph => [PhField]
    case Tds => [TdsField, SuhuAir]
    case Pompa => []
  }

  /** The value a non-finite numeric field is replaced by: neutral 7.0 for pH, 0 elsewhere. */
  function NumericDefault(c: Channel): Val {
    if c == Ph then Num(7.0) else Num(0.0)
  }

  /** The keys the pump branch may rewrite. */
  const PumpKeys: set<Key> := {Status, Mode}

  /** One statement `if (isNaN(v.key) || !isFinite(v.key)) v.key = dflt;`. */
  function DefaultField(obj: Fields, key: Key, dflt: Val): Fields {
    if FiniteNumber(Lookup(obj, key)) then obj else obj[key := dflt]
  }

  /** The checks of one channel, run in order over `keys`. */
  function DefaultFields(obj: Fields, keys: seq<Key>, dflt: Val): Fields
    decreases |keys|
  {
    if keys == [] then obj
    else DefaultFields(DefaultField(obj, keys[0], dflt), keys[1..], dflt)
  }

  /** After the checks each listed key holds its finite value or `dflt`, and no
      other key is touched. */
  lemma {:induction false} DefaultFieldsSpec(obj: Fields, keys: seq<Key>, dflt: Val)
    ensures var r := DefaultFields(obj, keys, dflt);
            r.Keys == obj.Keys + set k | k in keys
    ensures var r := DefaultFields(obj, keys, dflt);
            forall k :: k in keys ==> r[k] == if FiniteNumber(Lookup(obj, k)) then obj[k] else dflt
    ensures var r := DefaultFields(obj, keys, dflt);
            forall k :: k in obj && k !in keys ==> r[k] == obj[k]
    decreases |keys|
  {
    if keys != [] {
      var next := DefaultField(obj, keys[0], dflt);
      DefaultFieldsSpec(next, keys[1..], dflt);
    }
  }

  /** `validateSensorData(data, type)` for a channel already accepted by the
      registry; `ValidateSensorDataSpec` states what it guarantees. */
  function ValidateSensorData(data: Fields, c: Channel): Fields
  {
    match c
    case Pompa =>
      var withStatus := if Lookup(data, Status).Bool? then data else data[Status := Bool(false)];
      if Truthy(Lookup(withStatus, Mode)) then withStatus else withStatus[Mode := Str("manual")]
    case _ =>
      DefaultFields(data, NumericFields(c), NumericDefault(c))
  }

  /** What the validator guarantees, field by field. */
  lemma ValidateSensorDataSpec(data: Fields, c: Channel)
    // each numeric field of the channel is present, and keeps its value
    // exactly when that value is a finite number
    ensures var r := ValidateSensorData(data, c);
            forall k :: k in NumericFields(c) ==>
              k in r && r[k] == if FiniteNumber(Lookup(data, k)) then data[k] else NumericDefault(c)
    ensures var r := ValidateSensorData(data, c);
            forall k :: k in NumericFields(c) ==> FiniteNumber(r[k])
    // the pump's status becomes a boolean and its mode a truthy value
    ensures var r := ValidateSensorData(data, c);
            c == Pompa ==>
              && Status in r
              && r[Status] == (if Lookup(data, Status).Bool? then data[Status] else Bool(false))
              && Mode in r
              && r[Mode] == (if Truthy(Lookup(data, Mode)) then data[Mode] else Str("manual"))
    // every other key is copied unchanged, and no other key is added
    ensures var r := ValidateSensorData(data, c);
            forall k :: k in data && k !in NumericFields(c) && !(c == Pompa && k in PumpKeys) ==>
              k in r && r[k] == data[k]
    ensures var r := ValidateSensorData(data, c);
            forall k :: k in r ==> k in data || k in NumericFields(c) || (c == Pompa && k in PumpKeys)
  {
    if c != Pompa {
      DefaultFieldsSpec(data, NumericFields(c), NumericDefault(c));
    }
  }

  /** Sanitising a sanitised reading changes nothing. */
  lemma {:induction false} ValidateIdempotent(data: Fields, c: Channel)
    ensures ValidateSensorData(ValidateSensorData(data, c), c) == ValidateSensorData(data, c)
  {
    var once := ValidateSensorData(data, c);
    var twice := ValidateSensorData(once, c);
    ValidateSensorDataSpec(data, c);
    ValidateSensorDataSpec(once, c);
    forall k | k in twice
      ensures k in once && twice[k] == once[k]
    {
    }
    forall k | k in once
      ensures k in twice
    {
    }
    assert twice.Keys == once.Keys;
  }
}
