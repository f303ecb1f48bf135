/** The machine integers of the C code. Dafny checks every operation on them for overflow, so a method that
    verifies over these types is one in which no intermediate value wraps. */
module Machine {
  newtype uint32 = x: int | 0 <= x < 0x1_0000_0000
  newtype uint64 = x: int | 0 <= x < 0x1_0000_0000_0000_0000
  newtype uint128 = x: int | 0 <= x < 0x1_0000_0000_0000_0000_0000_0000_0000_0000

  /** The product as a term that linear reasoning treats as one unknown. */
  function Prod(x: int, y: int): int {
    x * y
  }

  lemma ProdBound(x: int, y: int, m: int, n: int)
    requires 0 <= x <= m && 0 <= y <= n
    ensures 0 <= Prod(x, y) <= m * n
  {
    assert x * y <= m * y <= m * n;
  }

  /** (uint128_t)x * y, which cannot overflow. */
  function Wide(x: uint64, y: uint64): (r: uint128)
    ensures r as int == Prod(x as int, y as int)
  {
    ProdBound(x as int, y as int, 0xFFFF_FFFF_FFFF_FFFF, 0xFFFF_FFFF_FFFF_FFFF);
    (x as int * y as int) as uint128
  }

  /** (uint64_t)x * y for 32-bit operands, which cannot overflow. */
  function Wide32(x: uint32, y: uint32): (r: uint64)
    ensures r as int == Prod(x as int, y as int)
  {
    ProdBound(x as int, y as int, 0xFFFF_FFFF, 0xFFFF_FFFF);
    (x as int * y as int) as uint64
  }
}
