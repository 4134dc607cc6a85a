/** `Math.round`, `Math.ceil` and the tick rounding of lib/tickSize.ts, over the reals. */
module Rounding {

  /** `Math.round`: the nearest integer, halves going up. */
  function RoundHalfUp(x: real): (r: int)
    ensures r as real - 0.5 <= x < r as real + 0.5
  {
    (x + 0.5).Floor
  }

  function Ceil(x: real): (r: int)
    ensures x <= r as real < x + 1.0
  {
    -((-x).Floor)
  }

  function Abs(x: real): (r: real)
    ensures r >= 0.0 && (r == x || r == -x)
  {
    if x < 0.0 then -x else x
  }

  /** `round(value, step)`: the nearest multiple of `step`. */
  function RoundToStep(value: real, step: real): real
    requires step > 0.0
  {
    RoundHalfUp(value / step) as real * step
  }

  /** An integer survives rounding, and rounding never crosses an integer. */
  lemma RoundOfInteger(x: real, n: int)
    ensures x == n as real ==> RoundHalfUp(x) == n
    ensures x <= n as real ==> RoundHalfUp(x) <= n
    ensures n as real <= x ==> n <= RoundHalfUp(x)
  {
  }
}
