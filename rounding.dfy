/** JavaScript's `Math.ceil`, taken over exact reals. */
module Rounding {

  /** The least integer that is not below `x`. */
  function Ceil(x: real): (n: int)
    ensures x <= n as real < x + 1.0
  {
    -((-x).Floor)
  }

  /** An integer in the window [x, x + 1) is the ceiling of `x`: the
      characterisation above determines `Ceil` uniquely. */
  lemma CeilUnique(x: real, n: int)
    requires x <= n as real < x + 1.0
    ensures Ceil(x) == n
  {
  }

  /** Rounding up preserves order. */
  lemma CeilMonotone(x: real, y: real)
    requires x <= y
    ensures Ceil(x) <= Ceil(y)
  {
  }
}
