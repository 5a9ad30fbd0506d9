/** Durations in nanoseconds, and the two rules by which the controllers combine them. */
module Durations {
  const SECOND: nat := 1_000_000_000

  /** The smaller of two waits, where a wait that is not positive asks for nothing. */
  function MinPositive(a: int, b: int): (r: int)
    ensures a > 0 || b > 0 ==> r > 0 && (r == a || r == b)
    ensures (a > 0 ==> r <= a) && (b > 0 ==> r <= b)
    ensures a <= 0 && b <= 0 ==> r <= 0
  {
    if a <= 0 then b else if b <= 0 then a else if a < b then a else b
  }

  /** A setting that is not positive is unset. */
  function OrDefault(configured: int, default: nat): (r: int)
    ensures r == configured || (configured <= 0 && r == default)
    ensures default > 0 ==> r > 0
  {
    if configured > 0 then configured else default
  }
}
