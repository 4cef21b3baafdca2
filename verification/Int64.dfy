/** Go's signed 64-bit arithmetic. */
module Int64 {
  const MIN := -0x8000_0000_0000_0000
  const MAX := 0x7FFF_FFFF_FFFF_FFFF

  type int64 = x: int | MIN <= x <= MAX

  /** Two's complement wrap-around of an exact result. */
  function Wrap(x: int): int64 {
    (x + 0x8000_0000_0000_0000) % 0x1_0000_0000_0000_0000 - 0x8000_0000_0000_0000
  }

  function Mul(x: int64, y: int64): int64 {
    Wrap(x * y)
  }
}
