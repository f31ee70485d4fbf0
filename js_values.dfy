/**
 * The JavaScript values that reach the modelled code: absent, null, text and
 * integers. Booleans, floating-point numbers and Date objects are not modelled.
 */
module JsValues {
  import opened Text

  datatype JsValue = Undefined | Null | Str(s: string) | Int(i: int)

  /** `v === null || v === undefined`, the values `??` replaces. */
  predicate Nullish(v: JsValue) {
    v.Undefined? || v.Null?
  }

  /** The values `||` replaces: undefined, null, the empty string and zero. */
  predicate Falsy(v: JsValue) {
    Nullish(v) || v == Str("") || v == Int(0)
  }

  /** `String(v)` */
  function ToStr(v: JsValue): string {
    match v
    case Undefined => "undefined"
    case Null => "null"
    case Str(s) => s
    case Int(i) => IntToDecimal(i)
  }

  /** `v ?? d` */
  function Coalesce(v: JsValue, d: JsValue): JsValue {
    if Nullish(v) then d else v
  }

  /** `v || d` */
  function OrElse(v: JsValue, d: JsValue): JsValue {
    if Falsy(v) then d else v
  }

  /** A row of a JSON response: reading a missing key gives undefined. */
  type Row = map<string, JsValue>

  /** `r[k]` */
  function Get(r: Row, k: string): JsValue {
    if k in r then r[k] else Undefined
  }
}
