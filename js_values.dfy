/**
 * JavaScript scalar values as the pipeline receives and stores them, and the two
 * coercions the code applies to them: `parseFloat` and the global `isNaN`.
 */
module JsValues {

  /** A JavaScript `Date`, as milliseconds since the epoch. */
  type Time = int

  datatype Option<+T> = None | Some(value: T)

  /** An operation that either yields a value or throws with a message. */
  datatype Result<+T> = Ok(value: T) | Err(error: string)

  /** A raw JSON/JS scalar carried in a `value` field: null, missing, a number, or NaN. */
  datatype JsValue = Null | Undefined | Num(x: real) | NaN

  /** A JavaScript number after `parseFloat`: a finite value or NaN. */
  datatype Number = Finite(x: real) | NotANumber

  /** `parseFloat(v)`: numbers pass through, everything else becomes NaN. */
  function ParseFloat(v: JsValue): (n: Number)
    ensures n.Finite? <==> v.Num?
    ensures v.Num? ==> n.x == v.x
  {
    match v
    case Num(x) => Finite(x)
    case _ => NotANumber
  }

  /** The global `isNaN(v)`, which first coerces `v` to a number (`Number(null)` is 0). */
  predicate IsNaN(v: JsValue)
  {
    v.Undefined? || v.NaN?
  }

  /** `n >= t` on JavaScript numbers: false whenever `n` is NaN. */
  predicate AtLeast(n: Number, t: real)
  {
    n.Finite? && n.x >= t
  }

  /** `n <= t` on JavaScript numbers: false whenever `n` is NaN. */
  predicate AtMost(n: Number, t: real)
  {
    n.Finite? && n.x <= t
  }
}
