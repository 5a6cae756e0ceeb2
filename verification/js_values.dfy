/**
 * The JavaScript values a request body or a session field can hold, as far as
 * the handlers inspect them: truthiness, `typeof v === "number"`, and the
 * numeric coercion behind a comparison such as `v <= 0`.
 */
module JsValues {
  import opened Wrappers

  /**
   * A parsed JSON value. `asNumber` is what JavaScript's `Number(v)` gives for
   * a string or an object (`None` for `NaN`); that coercion is not modelled
   * further, the value carries it.
   */
  datatype JsValue =
    | Undefined
    | Null
    | Num(x: real)
    | Bool(b: bool)
    | Str(s: string, asNumber: Option<real>)
    | Obj(asNumber: Option<real>)

  /** JavaScript truthiness: `!!v`. */
  predicate Truthy(v: JsValue) {
    match v
    case Undefined => false
    case Null => false
    case Num(x) => x != 0.0
    case Bool(b) => b
    case Str(s, _) => s != ""
    case Obj(_) => true
  }

  /** `Number(v)`, with `None` standing for `NaN`. */
  function ToNumber(v: JsValue): (r: Option<real>)
    ensures v.Num? ==> r == Some(v.x)
    ensures v.Undefined? ==> r.None?
  {
    match v
    case Undefined => None
    case Null => Some(0.0)
    case Num(x) => Some(x)
    case Bool(b) => Some(if b then 1.0 else 0.0)
    case Str(_, n) => n
    case Obj(n) => n
  }

  /** `v <= 0`: false whenever the coercion gives `NaN`. */
  predicate AtMostZero(v: JsValue) {
    ToNumber(v).Some? && ToNumber(v).value <= 0.0
  }

  /** A number with no fractional part (`Number.isInteger`). */
  predicate IsIntegral(x: real) {
    x.Floor as real == x
  }
}
