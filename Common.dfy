/** Small helpers shared by the store model: optional values, results with an
    error, and the numeric conversions the store performs on amounts. */
module Common {

  datatype Option<+T> = None | Some(value: T)

  datatype Result<+T, +E> = Success(value: T) | Failure(error: E)

  /** True when `x` has no fractional part, i.e. when its decimal text would
      be accepted by an integer parse. */
  predicate IsIntegral(x: real) {
    x == x.Floor as real
  }

  /** Conversion of an amount to an integer that drops the fractional part,
      rounding toward zero (also for negative amounts). */
  function Trunc(x: real): (r: int)
    ensures 0.0 <= x ==> 0 <= r && r as real <= x < r as real + 1.0
    ensures x < 0.0 ==> r <= 0 && r as real - 1.0 < x <= r as real
  {
    if x >= 0.0 then x.Floor else -((-x).Floor)
  }

  /** Truncation leaves an integral amount unchanged. */
  lemma TruncOfInt(n: int)
    ensures Trunc(n as real) == n
  {
  }

  /** Larger of zero and `x`, as used to clamp a loss to zero. */
  function ClampAtZero(x: real): (r: real)
    ensures 0.0 <= r && x <= r
    ensures r == 0.0 || r == x
  {
    if 0.0 >= x then 0.0 else x
  }
}
