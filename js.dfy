/**
 * The small part of JavaScript value semantics the pages rely on: nullable
 * values, numbers that may be NaN, and the truthiness that `||`, `?:` and
 * `if (x)` test.
 */
module Js {

  /** A value that may be `null`. */
  datatype Option<T> = None | Some(value: T)

  /** A JavaScript number as produced by `parseFloat`/`parseInt`: NaN or a finite value. */
  datatype JsNumber = NaN | Num(value: real)

  /** Truthiness of a string: only the empty string is falsy. */
  predicate TruthyString(s: string) { s != "" }

  /** Truthiness of a number: NaN and 0 are falsy. */
  predicate TruthyNumber(n: JsNumber) { n.Num? && n.value != 0.0 }

  /** Truthiness of a nullable string (`editingId` and friends). */
  predicate TruthyNullable(o: Option<string>) { o.Some? && TruthyString(o.value) }

  /**
   * `n || 0` on a number: a falsy number (NaN or 0) becomes 0, any other
   * number is kept.
   */
  function OrZero(n: JsNumber): (r: real)
    ensures TruthyNumber(n) ==> n == Num(r)
    ensures !TruthyNumber(n) ==> r == 0.0
  {
    match n
    case NaN => 0.0
    case Num(x) => x
  }
}
