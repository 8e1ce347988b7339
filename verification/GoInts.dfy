/** Go's fixed-width signed integers. */
module GoInts {
  const TWO31 := 0x8000_0000
  const TWO32 := 0x1_0000_0000
  const TWO63 := 0x8000_0000_0000_0000
  const TWO64 := 0x1_0000_0000_0000_0000

  predicate IsInt32(x: int) {
    -TWO31 <= x < TWO31
  }

  predicate IsInt64(x: int) {
    -TWO63 <= x < TWO63
  }

  type Int32 = x: int | IsInt32(x)
  type Int64 = x: int | IsInt64(x)

  /** int32(x) */
  function Wrap32(x: int): (r: int)
    ensures IsInt32(r) && (r - x) % TWO32 == 0
    ensures IsInt32(x) ==> r == x
  {
    (x + TWO31) % TWO32 - TWO31
  }

  /** An int64 operation whose exact result is x. */
  function Wrap64(x: int): (r: int)
    ensures IsInt64(r) && (r - x) % TWO64 == 0
    ensures IsInt64(x) ==> r == x
  {
    (x + TWO63) % TWO64 - TWO63
  }

  /** Go's x / d for a positive constant d: truncation toward zero. */
  function Quotient(x: int, d: int): int
    requires d > 0
  {
    if x >= 0 then x / d else -(-x / d)
  }
}
