/**
 JavaScript values as the sensor server receives and stores them.

 Readings arrive as JSON objects whose fields the server inspects with
 `isNaN`, `isFinite`, `typeof` and truthiness tests. The model keeps the
 values abstract so that no floating-point arithmetic is needed: a finite
 number is a `real`, and NaN and the infinities are their own constructors.
 */
module Values {

  datatype Option<+T> = None | Some(value: T)

  datatype Val =
    | Num(x: real)          // a finite number
    | NaN
    | Inf(negative: bool)   // Infinity or -Infinity
    | Bool(b: bool)
    | Str(s: string)
    | Null
    | Undefined

  /** The property names the server reads or writes, by name, and every other
      property name as `Other` (a name listed here is never written as `Other`). */
  datatype Key =
    // numeric fields of the sensor channels
    | Voltage | Current | PowerField | Energy | Frequency | PowerFactor
    | SuhuField | Kelembaban | HeatIndex
    | PhField
    | TdsField | SuhuAir
    // pump fields and request fields
    | Status | Mode | Action
    // metadata the routes stamp on stored readings
    | DeviceId | Timestamp | Date | SensorType | UnixTimestamp | LastUpdated | ControlledBy
    | Other(name: string)

  /** The JavaScript property name a key stands for. */
  function KeyName(k: Key): string {
    match k
    case Voltage => "voltage"
    case Current => "current"
    case PowerField => "power"
    case Energy => "energy"
    case Frequency => "frequency"
    case PowerFactor => "power_factor"
    case SuhuField => "suhu"
    case Kelembaban => "kelembaban"
    case HeatIndex => "heat_index"
    case PhField => "ph"
    case TdsField => "tds"
    case SuhuAir => "suhu_air"
    case Status => "status"
    case Mode => "mode"
    case Action => "action"
    case DeviceId => "deviceId"
    case Timestamp => "timestamp"
    case Date => "date"
    case SensorType => "sensorType"
    case UnixTimestamp => "unix_timestamp"
    case LastUpdated => "last_updated"
    case ControlledBy => "controlled_by"
    case Other(name) => name
  }

  /** A JavaScript object: a reading, a request body, a latest snapshot. */
  type Fields = map<Key, Val>

  /** `obj.key`: a key that is not present reads as `undefined`. */
  function Lookup(obj: Fields, key: Key): Val {
    if key in obj then obj[key] else Undefined
  }

  /** JavaScript truthiness: `0`, `NaN`, `false`, `""`, `null` and `undefined`
      are the falsy values, and every other value is truthy. */
  predicate Truthy(v: Val): (truthy: bool)
    ensures !truthy <==> v == Num(0.0) || v == NaN || v == Bool(false) || v == Str("") || v == Null || v == Undefined
  {
    match v
    case Num(x) => x != 0.0
    case NaN => false
    case Inf(_) => true
    case Bool(b) => b
    case Str(s) => s != ""
    case Null => false
    case Undefined => false
  }

  /** `v || fallback`: the first operand when it is truthy, otherwise the
      second; the result is truthy when either operand is. */
  function Or(v: Val, fallback: Val): (r: Val)
    ensures r == v || r == fallback
    ensures Truthy(v) ==> r == v
    ensures !Truthy(v) ==> r == fallback
    ensures Truthy(r) <==> Truthy(v) || Truthy(fallback)
  {
    if Truthy(v) then v else fallback
  }

  predicate IsDigit(ch: char) {
    '0' <= ch <= '9'
  }

  /** The decimal texts that `Number(s)` turns into a finite number, in the
      subset modelled: the empty string (which is 0), or an optional sign
      followed by digits with at most one decimal point and at least one digit. */
  predicate DecimalText(s: string): (decimal: bool)
    ensures decimal ==> forall i :: 0 <= i < |s| ==> s[i] in "+-.0123456789"
  {
    || s == ""
    || var body := if s[0] == '+' || s[0] == '-' then s[1..] else s;
       && (exists i :: 0 <= i < |body| && IsDigit(body[i]))
       && (forall i :: 0 <= i < |body| ==> IsDigit(body[i]) || body[i] == '.')
       && multiset(body)['.'] <= 1
  }

  /** `!(isNaN(v) || !isFinite(v))`: `Number(v)` is a finite number.
      `true`/`false` coerce to 1/0 and `null` to 0; `undefined` coerces to NaN. */
  predicate FiniteNumber(v: Val): (finite: bool)
    ensures v == NaN || v == Undefined || v.Inf? ==> !finite
    ensures v.Num? || v.Bool? || v == Null || v == Str("") ==> finite
    ensures finite && v.Str? ==> forall i :: 0 <= i < |v.s| ==> v.s[i] in "+-.0123456789"
  {
    match v
    case Num(_) => true
    case NaN => false
    case Inf(_) => false
    case Bool(_) => true
    case Str(s) => DecimalText(s)
    case Null => true
    case Undefined => false
  }
}
