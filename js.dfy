/** The slice of JavaScript's dynamic values that the option checks and
    `validate` inspect: `typeof`, `Array.isArray`, truthiness, `??` and
    property reads. Numbers are integers here (no NaN, no fractions). */
module Js {
  import opened Common

  datatype JsValue =
    | Undefined
    | Null
    | Bool(b: bool)
    | Number(n: int)
    | Str(s: string)
    | Array(elems: seq<JsValue>)
    | Object(fields: map<string, JsValue>)

  /** `typeof v` (`typeof null` is "object", as in JavaScript). */
  function TypeOf(v: JsValue): string
  {
    match v
    case Undefined => "undefined"
    case Null => "object"
    case Bool(_) => "boolean"
    case Number(_) => "number"
    case Str(_) => "string"
    case Array(_) => "object"
    case Object(_) => "object"
  }

  /** `Boolean(v)`, the truthiness test behind `!!v`, `&&` and `if (v)`. */
  predicate Truthy(v: JsValue)
  {
    match v
    case Undefined => false
    case Null => false
    case Bool(b) => b
    case Number(n) => n != 0
    case Str(s) => s != ""
    case Array(_) => true
    case Object(_) => true
  }

  /** `v.key`: a read on null or undefined throws a TypeError; a missing key,
      or any key of a primitive or array, reads as undefined. */
  function Get(v: JsValue, key: string): (r: Result<JsValue, Error>)
    ensures r.Err? <==> v.Null? || v.Undefined?
  {
    match v
    case Null => Err(TypeError)
    case Undefined => Err(TypeError)
    case Object(fields) => Ok(if key in fields then fields[key] else Undefined)
    case _ => Ok(Undefined)
  }

  /** `v?.key` */
  function GetOptional(v: JsValue, key: string): JsValue
  {
    match v
    case Object(fields) => if key in fields then fields[key] else Undefined
    case _ => Undefined
  }

  /** `v ?? fallback` */
  function Coalesce(v: JsValue, fallback: JsValue): JsValue
  {
    if v.Undefined? || v.Null? then fallback else v
  }

  /** The string a value stands for where only its truthiness and, when it is
      a string, its text matter: a falsy value becomes "". */
  function TruthyText(v: JsValue): (s: string)
    ensures s != "" <==> v.Str? && Truthy(v)
  {
    if v.Str? then v.s else ""
  }

  /** A value that passes the `x && typeof x !== "string"` test. */
  predicate TextOrFalsy(v: JsValue)
  {
    !Truthy(v) || v.Str?
  }

  /** A value for which `typeof (v ?? fallback) === "boolean"` holds with a
      boolean fallback. */
  predicate BooleanOrAbsent(v: JsValue)
  {
    v.Undefined? || v.Null? || v.Bool?
  }

  /** `v ?? fallback` for such a value, as a boolean. */
  function BooleanOr(v: JsValue, fallback: bool): bool
  {
    if v.Bool? then v.b else fallback
  }
}
