/**
 * The parts of JavaScript number semantics the dashboard depends on. A number
 * parsed from text may be NaN or infinite; `x || null` drops every falsy number
 * (0 and NaN); JSON has no NaN or Infinity, so a JSON round trip turns them
 * into null; and dividing by zero yields an infinity or NaN instead of failing.
 * Finite numbers are exact `real`s here: rounding is not modelled.
 */
module JsNumber {
  import opened Wrappers

  datatype Float = Finite(value: real) | NaN | Infinity(negative: bool)

  /** JavaScript truthiness of a number: 0 and NaN are falsy. */
  predicate Truthy(x: Float) {
    match x
    case Finite(v) => v != 0.0
    case NaN => false
    case Infinity(_) => true
  }

  /** `x || null` for a nullable number that may be NaN or infinite. */
  function OrNull(x: Option<Float>): Option<Float> {
    if x.Some? && Truthy(x.value) then x else None
  }

  /** `x || null` for a nullable finite number. */
  function RealOrNull(x: Option<real>): Option<real> {
    if x.Some? && x.value != 0.0 then x else None
  }

  /** What `JSON.parse(JSON.stringify(x))` makes of a nullable number. */
  function JsonImage(x: Option<Float>): Option<Float> {
    if x.Some? && x.value.Finite? then x else None
  }

  /** IEEE division `a / b` of two finite numbers. */
  function Divide(a: real, b: real): Float {
    if b != 0.0 then Finite(a / b)
    else if a == 0.0 then NaN
    else Infinity(a < 0.0)
  }

  /** `x * k` for a positive finite factor `k`. */
  function Scale(x: Float, k: real): Float
    requires k > 0.0
  {
    match x
    case Finite(v) => Finite(v * k)
    case NaN => NaN
    case Infinity(neg) => Infinity(neg)
  }
}
