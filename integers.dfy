/**
 * The C# integral types the collectors compute with. C# arithmetic is unchecked
 * by default, so each operation wraps around; the wrapping is written out here.
 */
module ClrIntegers {

  const TWO_32: int := 0x1_0000_0000
  const TWO_64: int := 0x1_0000_0000_0000_0000

  /** `ulong` */
  type UInt64 = x: int | 0 <= x < 0x1_0000_0000_0000_0000
  /** `int` */
  type Int32 = x: int | -0x8000_0000 <= x < 0x8000_0000
  /** `long` */
  type Int64 = x: int | -0x8000_0000_0000_0000 <= x < 0x8000_0000_0000_0000
  /** What LINQ `Count()` can return: it throws rather than exceed `int.MaxValue`. */
  type Count32 = x: int | 0 <= x < 0x8000_0000

  /** Unchecked `ulong` result of an exact value: reduced modulo 2^64. */
  function WrapU64(x: int): (r: UInt64)
    ensures 0 <= x < TWO_64 ==> r == x
  {
    x % TWO_64
  }

  /** Unchecked `int` result of an exact value: two's complement on 32 bits. */
  function WrapI32(x: int): (r: Int32)
    ensures -0x8000_0000 <= x < 0x8000_0000 ==> r == x
  {
    var m := x % TWO_32;
    if m >= 0x8000_0000 then m - TWO_32 else m
  }

  /** Unchecked `long` result of an exact value: two's complement on 64 bits. */
  function WrapI64(x: int): (r: Int64)
    ensures -0x8000_0000_0000_0000 <= x < 0x8000_0000_0000_0000 ==> r == x
  {
    var m := x % TWO_64;
    if m >= 0x8000_0000_0000_0000 then m - TWO_64 else m
  }

  /** Wrapping after every addition gives the same `int` as wrapping the exact total once. */
  lemma WrapI32Add(a: int, b: int)
    ensures WrapI32(WrapI32(a) + b) == WrapI32(a + b)
  {
    assert (a - WrapI32(a)) % TWO_32 == 0;
    var k := (a - WrapI32(a)) / TWO_32;
    assert a - WrapI32(a) == k * TWO_32;
    ModuloShift32(WrapI32(a) + b, k);
  }

  /** Adding a multiple of 2^32 does not change the remainder modulo 2^32. */
  lemma ModuloShift32(x: int, k: int)
    ensures (x + k * TWO_32) % TWO_32 == x % TWO_32
  {
    var q, r := x / TWO_32, x % TWO_32;
    assert x + k * TWO_32 == (q + k) * TWO_32 + r;
  }
}
