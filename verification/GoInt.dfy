/** The fixed-width integers of Go that the modelled code relies on. */
module GoInt {
  const TWO_31: int := 0x8000_0000
  const TWO_32: int := 0x1_0000_0000
  const TWO_63: int := 0x8000_0000_0000_0000
  const TWO_64: int := 0x1_0000_0000_0000_0000

  type int32 = x: int | -TWO_31 <= x < TWO_31
  type int64 = x: int | -TWO_63 <= x < TWO_63

  /** Two's-complement truncation to 32 bits: an int32 addition or conversion in Go. */
  function Wrap32(x: int): (r: int32)
    ensures (r - x) % TWO_32 == 0
  {
    if -TWO_31 <= x < TWO_31 then x else (x + TWO_31) % TWO_32 - TWO_31
  }

  /** Two's-complement truncation to 64 bits. */
  function Wrap64(x: int): (r: int64)
    ensures (r - x) % TWO_64 == 0
  {
    if -TWO_63 <= x < TWO_63 then x else (x + TWO_63) % TWO_64 - TWO_63
  }

  /** Go's `%` takes the sign of the dividend, where Dafny's is never negative. */
  function Rem(a: int, b: int): (r: int)
    requires b > 0
    ensures a >= 0 ==> 0 <= r < b
    ensures a <= 0 ==> -b < r <= 0
  {
    if a >= 0 then a % b else -((-a) % b)
  }
}
