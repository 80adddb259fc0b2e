/** Go's 64-bit integer arithmetic, written out over unbounded integers. */
module GoInt {

  const Int64Min: int := -0x8000_0000_0000_0000
  const Int64Max: int := 0x7FFF_FFFF_FFFF_FFFF
  const TwoTo64: int := 0x1_0000_0000_0000_0000

  predicate IsInt64(x: int) { Int64Min <= x <= Int64Max }

  /** The two's-complement result of a 64-bit operation whose exact value is `x`. */
  function Wrap64(x: int): (r: int)
    ensures IsInt64(r)
    ensures (x - r) % TwoTo64 == 0
    ensures IsInt64(x) ==> r == x
  {
    var m := (x - Int64Min) % TwoTo64;
    assert x - Int64Min == (x - Int64Min) / TwoTo64 * TwoTo64 + m;
    m + Int64Min
  }

  /** Go's integer division by a positive divisor: the quotient is truncated toward zero. */
  function Quot(a: int, b: int): (r: int)
    requires b > 0
    ensures a >= 0 ==> 0 <= a - r * b < b
    ensures a < 0 ==> -b < a - r * b <= 0
  {
    if a >= 0 then a / b else -((-a) / b)
  }
}
