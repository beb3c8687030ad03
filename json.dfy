/** JavaScript values as the pages and the backend pass them around: plain
    objects are maps from keys to values, so a missing key is `undefined` and
    the spread `{ ...a, ...b }` is the map union `a + b`, where the keys of `b`
    win. The order of an object's keys is not modelled. */
module Json {
  import opened Wrappers

  datatype Value =
    | Null
    | Bool(b: bool)
    | Int(i: int)
    | Decimal(r: real)
    | Str(s: string)
    | Arr(items: seq<Value>)
    | Obj(fields: map<string, Value>)

  type Object = map<string, Value>

  /** `obj[key]`, with None for `undefined`. */
  function Get(obj: Object, key: string): (v: Option<Value>)
    ensures v.Some? <==> key in obj
    ensures v.Some? ==> v.value == obj[key]
  {
    if key in obj then Some(obj[key]) else None
  }

  /** `obj[key]` when it holds a string. */
  function GetStr(obj: Object, key: string): (s: Option<string>)
    ensures s.Some? <==> key in obj && obj[key].Str?
    ensures s.Some? ==> obj[key] == Str(s.value)
  {
    if key in obj && obj[key].Str? then Some(obj[key].s) else None
  }

  /** JavaScript's truthiness for the values the model uses. */
  predicate Truthy(v: Option<Value>) {
    match v
    case None => false
    case Some(x) =>
      match x
      case Null => false
      case Bool(b) => b
      case Int(i) => i != 0
      case Decimal(r) => r != 0.0
      case Str(s) => s != ""
      case Arr(_) => true
      case Obj(_) => true
  }
}
