/**
 * JSON values as a JavaScript handler sees them after `req.json()`, with `undefined` standing for
 * an absent property, and the two pieces of JavaScript semantics the handlers rely on: truthiness
 * (`!x`, `x || y`) and property access, which throws a TypeError on `null` and `undefined`.
 */
module Js {
  import opened Wrappers

  datatype JsValue =
    | Undefined
    | Null
    | Bool(b: bool)
    | Number(n: real)
    | Str(s: string)
    | Arr(items: seq<JsValue>)
    | Obj(fields: map<string, JsValue>)

  /** JavaScript truthiness; JSON cannot produce NaN, so the falsy values are these five. */
  predicate Truthy(v: JsValue) {
    match v
    case Undefined => false
    case Null => false
    case Bool(b) => b
    case Number(n) => n != 0.0
    case Str(s) => s != ""
    case Arr(_) => true
    case Obj(_) => true
  }

  /** `a || b` */
  function Or(a: JsValue, b: JsValue): (r: JsValue)
    ensures Truthy(a) ==> r == a
    ensures !Truthy(a) ==> r == b
  {
    if Truthy(a) then a else b
  }

  /** The message of the TypeError JavaScript throws when a property of `null`/`undefined` is read. */
  function ReadError(v: JsValue, key: string): string {
    "Cannot read properties of " + (if v.Null? then "null" else "undefined") + " (reading '" + key + "')"
  }

  /**
   * `v.key` (and destructuring): an object yields its field or `undefined`; reading a property of
   * `null` or `undefined` throws; every other value has none of the properties read here.
   */
  function Prop(v: JsValue, key: string): (r: Result<JsValue, string>)
    ensures r.Err? <==> (v.Undefined? || v.Null?)
    ensures v.Obj? && key in v.fields ==> r == Ok(v.fields[key])
    ensures v.Obj? && key !in v.fields ==> r == Ok(Undefined)
  {
    match v
    case Undefined => Err(ReadError(v, key))
    case Null => Err(ReadError(v, key))
    case Obj(fields) => Ok(if key in fields then fields[key] else Undefined)
    case _ => Ok(Undefined)
  }

  /** `v.key` where `v` is known to be neither `null` nor `undefined`. */
  function Field(v: JsValue, key: string): JsValue
    requires !v.Undefined? && !v.Null?
  {
    Prop(v, key).value
  }

  /** A request body: `req.json()` either throws (malformed JSON) or yields a value. */
  datatype RequestBody = Unparseable(reason: string) | Parsed(value: JsValue)
}
