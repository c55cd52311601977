/** The little arithmetic that several modules share. */
module Arithmetic {

  function Min(a: int, b: int): int {
    if a <= b then a else b
  }

  /** Two to the n. */
  function Power(n: nat): nat {
    if n == 0 then 1 else 2 * Power(n - 1)
  }
}
