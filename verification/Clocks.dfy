// Clock readings: microseconds for expiries, and lifetimes in whole seconds.
module Clocks {
  const SECOND := 1_000_000

  // Python's `ceil` of a time difference in seconds.
  function CeilSeconds(micros: int): int { -((-micros) / SECOND) }

  function Max(a: int, b: int): int { if a >= b then a else b }
}
