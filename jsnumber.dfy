/** JavaScript numbers where their non-finite values or their fractions matter. */
module JsNumbers {

  /** A JavaScript number: a finite value, or NaN or an infinity. */
  datatype JsNumber = Finite(value: real) | NotFinite

  /** `Math.trunc` on a finite number: the integer part, rounding toward zero. */
  function Trunc(x: real): (r: int)
    ensures x >= 0.0 ==> r >= 0 && r as real <= x < r as real + 1.0
    ensures x < 0.0 ==> r <= 0 && r as real - 1.0 < x <= r as real
  {
    if x >= 0.0 then x.Floor else -((-x).Floor)
  }

  /** Truncating an integer gives it back. */
  lemma TruncInt(n: int)
    ensures Trunc(n as real) == n
  {
  }

  /** The integer part lies in `lo..hi` exactly when the number lies in `[lo, hi + 1)`. */
  lemma TruncBetween(x: real, lo: int, hi: int)
    requires 1 <= lo <= hi
    ensures lo <= Trunc(x) <= hi <==> lo as real <= x < hi as real + 1.0
  {
  }

  /** A positive number whose integer part is 0: the fractions below one. */
  lemma TruncPositiveZero(x: real)
    requires 0.0 < x < 1.0
    ensures Trunc(x) == 0
  {
  }
}
