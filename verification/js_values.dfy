/**
 * The JavaScript values a JSON request body can hold, as far as the
 * controllers inspect them, and JavaScript's notion of truthiness.
 */
module JsValues {

  datatype JsValue =
    | Undefined
    | Null
    | Bool(b: bool)
    | Num(x: real)
    | NaN
    | Str(s: string)
    | Arr(items: seq<JsValue>)
    | Obj

  /** `!!v` in JavaScript: false exactly for undefined, null, false, 0, NaN and "". */
  predicate Truthy(v: JsValue) {
    match v
    case Undefined => false
    case Null => false
    case Bool(b) => b
    case Num(x) => x != 0.0
    case NaN => false
    case Str(s) => s != ""
    case Arr(_) => true
    case Obj => true
  }

  /** `typeof v === 'string'`. */
  predicate IsString(v: JsValue) {
    v.Str?
  }

  /** `typeof v === 'number'`, which holds for NaN as well. */
  predicate IsNumber(v: JsValue) {
    v.Num? || v.NaN?
  }

  /** `v || fallback`. */
  function Or(v: JsValue, fallback: JsValue): JsValue {
    if Truthy(v) then v else fallback
  }
}
