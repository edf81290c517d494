/**
 * The JSON values the client receives, and the three pieces of JavaScript
 * semantics its decoding depends on: truthiness, reading a property (which
 * throws on `null`), and copying properties with an object spread.
 */
module Wire {
  import opened Wrappers
  import Numerals

  /** A parsed JSON body; numbers are limited to integers. */
  datatype Json =
    | Null
    | Bool(b: bool)
    | Num(n: int)
    | Str(s: string)
    | Arr(items: seq<Json>)
    | Obj(fields: map<string, Json>)

  /** The reserved field of the server's collection envelope. */
  const ValuesKey: string := "$values"
  /** The field of a project that holds its tasks. */
  const TasksKey: string := "tasks"
  /** The properties the client reads from received values. */
  const ReadKeys: set<string> := {ValuesKey, TasksKey}

  /** JavaScript truthiness of a property read; `None` is `undefined`. */
  predicate Truthy(v: Option<Json>) {
    match v
    case None => false
    case Some(j) =>
      match j
      case Null => false
      case Bool(b) => b
      case Num(n) => n != 0
      case Str(s) => s != ""
      case Arr(_) => true
      case Obj(_) => true
  }

  /** `Array.isArray(v)`. */
  predicate IsArray(v: Option<Json>) {
    v.Some? && v.value.Arr?
  }

  /** The message of the TypeError a JavaScript engine (V8) raises for `null.key`. */
  function TypeErrorMessage(key: string): string {
    "Cannot read properties of null (reading '" + key + "')"
  }

  /**
   * `v.key` for one of the keys the client reads: it throws on `null`, gives
   * the field of an object, and is `undefined` on every other value (no array,
   * string, number or boolean has a property named "$values" or "tasks").
   */
  function Get(v: Json, key: string): (r: Result<Option<Json>, string>)
    requires key in ReadKeys
    ensures r.Failure? <==> v.Null?
    ensures r.Failure? ==> r.error == TypeErrorMessage(key)
    ensures r.Success? ==> (r.value.Some? <==> v.Obj? && key in v.fields)
    ensures r.Success? && r.value.Some? ==> r.value.value == v.fields[key]
  {
    match v
    case Null => Failure(TypeErrorMessage(key))
    case Obj(m) => Success(if key in m then Some(m[key]) else None)
    case _ => Success(None)
  }

  /**
   * The properties `{...v}` copies: the fields of an object, the elements of
   * an array or the characters of a string under their decimal indices, and
   * nothing for `null`, booleans and numbers.
   */
  function Spread(v: Json): (m: map<string, Json>)
    ensures v.Obj? ==> m == v.fields
  {
    match v
    case Obj(fields) => fields
    case Arr(items) =>
      Numerals.NatToStringInjective();
      map i | 0 <= i < |items| :: Numerals.NatToString(i) := items[i]
    case Str(s) =>
      Numerals.NatToStringInjective();
      map i | 0 <= i < |s| :: Numerals.NatToString(i) := Str([s[i]])
    case _ => map[]
  }
}
