/** Go's time.Duration: nanoseconds in a signed 64-bit integer. */
module Durations {

  const MAX_DURATION := 0x7fff_ffff_ffff_ffff
  const MIN_DURATION := -0x8000_0000_0000_0000
  const SECOND := 1_000_000_000

  predicate IsDuration(d: int) { MIN_DURATION <= d <= MAX_DURATION }

  /** Two's-complement wrap-around of 64-bit arithmetic. */
  function Wrap(x: int): (r: int)
    ensures IsDuration(r) && (r - x) % 0x1_0000_0000_0000_0000 == 0
  {
    (x + 0x8000_0000_0000_0000) % 0x1_0000_0000_0000_0000 - 0x8000_0000_0000_0000
  }

  /** time.Time.Sub saturates instead of wrapping. */
  function Sub(a: int, b: int): (r: int)
    ensures IsDuration(r)
    ensures forall d | IsDuration(d) && d < MAX_DURATION :: r > d <==> a - b > d
  {
    if a - b > MAX_DURATION then MAX_DURATION
    else if a - b < MIN_DURATION then MIN_DURATION
    else a - b
  }

  function Min(a: int, b: int): int { if a <= b then a else b }
}
