/** Integer ranges and roundings shared by the billing modules. */
module Numbers {
  const I64_MAX: int := 0x7fff_ffff_ffff_ffff
  const I64_MIN: int := -0x8000_0000_0000_0000

  predicate IsI64(x: int) { I64_MIN <= x <= I64_MAX }

  function Min(a: int, b: int): int { if a < b then a else b }

  function Max(a: int, b: int): int { if a < b then b else a }

  /** To the nearest integer, halves away from zero. */
  function Round(x: real): int {
    if x >= 0.0 then (x + 0.5).Floor else -((0.5 - x).Floor)
  }

  /** A float-to-i64 cast saturates. */
  function ToI64(x: int): int {
    Max(I64_MIN, Min(x, I64_MAX))
  }

  function RealMax(a: real, b: real): real { if a < b then b else a }

  function Ceil(x: real): int { -((-x).Floor) }

  /** Rounding keeps order, and a whole number is left alone. */
  lemma RoundMonotone(x: real, y: real)
    requires x <= y
    ensures Round(x) <= Round(y)
  {
  }

  lemma RoundWhole(n: int)
    ensures Round(n as real) == n
  {
  }
}
