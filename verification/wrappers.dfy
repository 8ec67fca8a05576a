/** Optional values and JSON values, shared by the server and the browser modules. */
module Wrappers {

  /** A value that may be absent: JavaScript's `undefined`, a missing key, or NaN. */
  datatype Option<+T> = None | Some(value: T)

  /** A JSON value as produced by `JSON.parse` (numbers are integers in this model). */
  datatype Json =
    | JNull
    | JBool(b: bool)
    | JNum(n: int)
    | JStr(s: string)
    | JArr(items: seq<Json>)
    | JObj(fields: map<string, Json>)

  /** A JavaScript object decoded from JSON: the participants and patches of the room service. */
  type Record = map<string, Json>

  /** JavaScript truthiness of a JSON value (arrays and objects are always truthy). */
  predicate Truthy(v: Json)
  {
    match v
    case JNull => false
    case JBool(b) => b
    case JNum(n) => n != 0
    case JStr(s) => s != ""
    case _ => true
  }

  /** `v[key]` on a decoded value: `None` stands for `undefined`. */
  function Field(v: Json, key: string): (r: Option<Json>)
    ensures r.Some? <==> v.JObj? && key in v.fields
    ensures r.Some? ==> r.value == v.fields[key]
  {
    if v.JObj? && key in v.fields then Some(v.fields[key]) else None
  }

  /** `obj[key]` on a record, `None` for `undefined`. */
  function Get(obj: Record, key: string): Option<Json>
  {
    if key in obj then Some(obj[key]) else None
  }

  /**
   * An object literal field whose value may be `undefined`: `JSON.stringify`
   * drops such a key, so the stored record simply lacks it.
   */
  function Put(obj: Record, key: string, v: Option<Json>): (r: Record)
    ensures v.Some? ==> r == obj[key := v.value]
    ensures v.None? ==> r == obj - {key}
  {
    if v.Some? then obj[key := v.value] else obj - {key}
  }

  /** Reading a key back after `Put`: the written value, or what was there before. */
  lemma GetPut(obj: Record, key: string, v: Option<Json>, k: string)
    ensures Get(Put(obj, key, v), k) == if k == key then v else Get(obj, k)
  {
  }

  /**
   * `a >= b` in JavaScript where `b` may be `undefined`: the comparison with NaN is false.
   * The server's join guard and the browser's room-full check both use it.
   */
  predicate AtLeast(a: int, b: Option<int>)
  {
    b.Some? && a >= b.value
  }

  /** A number that may be `undefined`, as a JSON field value. */
  function NumField(v: Option<int>): Option<Json>
  {
    if v.Some? then Some(JNum(v.value)) else None
  }
}
