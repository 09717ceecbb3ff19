/** The JSON-like values a YAML document parses to, with the few JavaScript
    operations on them that the configuration code relies on. */
module JsValue {

  /** `Num` carries an integer: numbers are only ever compared, never computed with. */
  datatype Value =
    | Undefined
    | Null
    | Str(s: string)
    | Num(n: int)
    | Bool(b: bool)
    | Arr(items: seq<Value>)
    | Obj(fields: map<string, Value>)

  /** A property read `v.key`: a missing key, and any key of a non-object, reads as `undefined`. */
  function Field(v: Value, key: string): Value {
    if v.Obj? && key in v.fields then v.fields[key] else Undefined
  }

  /** `value === undefined || value === null` */
  predicate IsNullish(v: Value) {
    v == Undefined || v == Null
  }

  /** JavaScript truthiness: `undefined`, `null`, `false`, `0` and `''` are falsy. */
  predicate Truthy(v: Value) {
    match v
    case Undefined => false
    case Null => false
    case Bool(b) => b
    case Num(n) => n != 0
    case Str(s) => s != ""
    case Arr(_) => true
    case Obj(_) => true
  }

  /** `typeof value === 'object' && value !== null && !Array.isArray(value)` */
  predicate IsPlainObject(v: Value) {
    v.Obj?
  }

  /** A plain object whose every own value is a string. */
  predicate IsRecordOfStrings(v: Value) {
    v.Obj? && forall k :: k in v.fields ==> v.fields[k].Str?
  }

  /** An array whose every element is a string. */
  predicate IsArrayOfStrings(v: Value) {
    v.Arr? && forall i :: 0 <= i < |v.items| ==> v.items[i].Str?
  }

  /** The string elements of an array of strings. */
  function Strings(items: seq<Value>): (r: seq<string>)
    requires forall i :: 0 <= i < |items| ==> items[i].Str?
    ensures |r| == |items|
    ensures forall i :: 0 <= i < |items| ==> items[i] == Str(r[i])
  {
    seq(|items|, i requires 0 <= i < |items| => items[i].s)
  }

  /** The string values of a record of strings. */
  function StringRecord(fields: map<string, Value>): (r: map<string, string>)
    requires forall k :: k in fields ==> fields[k].Str?
    ensures r.Keys == fields.Keys
    ensures forall k :: k in fields ==> fields[k] == Str(r[k])
  {
    map k | k in fields :: fields[k].s
  }

  /** A string map viewed as a JavaScript object of strings. */
  function StringsObject(m: map<string, string>): (r: Value)
    ensures IsRecordOfStrings(r) && r.fields.Keys == m.Keys
    ensures forall k :: k in m ==> r.fields[k] == Str(m[k])
  {
    Obj(map k | k in m :: Str(m[k]))
  }
}
