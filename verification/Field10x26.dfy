/** Field elements modulo P as ten 32-bit limbs in base 2^26 (field_10x26_impl.h), with 64-bit accumulators. */
module Field10x26 {
  import opened Machine
  import opened NumberTheory
  import opened Params

  const B1: int := 0x400_0000  // 2^26
  const B2: int := 0x10000000000000
  const B3: int := 0x40000000000000000000
  const B4: int := 0x100000000000000000000000000
  const B5: int := 0x400000000000000000000000000000000
  const B6: int := 0x1000000000000000000000000000000000000000
  const B7: int := 0x4000000000000000000000000000000000000000000000
  const B8: int := 0x10000000000000000000000000000000000000000000000000000
  const B9: int := 0x40000000000000000000000000000000000000000000000000000000000
  const B10: int := 0x100000000000000000000000000000000000000000000000000000000000000000
  const B11: int := 0x400000000000000000000000000000000000000000000000000000000000000000000000
  const B12: int := 0x1000000000000000000000000000000000000000000000000000000000000000000000000000000
  const B13: int := 0x4000000000000000000000000000000000000000000000000000000000000000000000000000000000000
  const B14: int := 0x10000000000000000000000000000000000000000000000000000000000000000000000000000000000000000000
  const B15: int := 0x40000000000000000000000000000000000000000000000000000000000000000000000000000000000000000000000000
  const B16: int := 0x100000000000000000000000000000000000000000000000000000000000000000000000000000000000000000000000000000000
  const B17: int := 0x400000000000000000000000000000000000000000000000000000000000000000000000000000000000000000000000000000000000000
  const B18: int := 0x1000000000000000000000000000000000000000000000000000000000000000000000000000000000000000000000000000000000000000000000

  /** The value of ten limbs. */
  function Eval(n: seq<uint32>): int
    requires |n| == 10
  {
    n[0] as int + B1 * n[1] as int + B2 * n[2] as int + B3 * n[3] as int + B4 * n[4] as int
    + B5 * n[5] as int + B6 * n[6] as int + B7 * n[7] as int + B8 * n[8] as int + B9 * n[9] as int
  }

  /** The input bounds of the multiplication: 30 bits, the top limb 26. */
  predicate Operand(n: seq<uint32>) {
    |n| == 10
    && n[0] < 0x4000_0000 && n[1] < 0x4000_0000 && n[2] < 0x4000_0000 && n[3] < 0x4000_0000 && n[4] < 0x4000_0000
    && n[5] < 0x4000_0000 && n[6] < 0x4000_0000 && n[7] < 0x4000_0000 && n[8] < 0x4000_0000 && n[9] < 0x400_0000
  }

  /** The output bounds of the multiplication: 26 bits, limb 2 one more, the top limb 22. */
  predicate Product(n: seq<uint32>) {
    |n| == 10
    && n[0] < 0x400_0000 && n[1] < 0x400_0000 && n[2] < 0x800_0000 && n[3] < 0x400_0000 && n[4] < 0x400_0000
    && n[5] < 0x400_0000 && n[6] < 0x400_0000 && n[7] < 0x400_0000 && n[8] < 0x400_0000 && n[9] < 0x40_0000
  }

  // 2^260 mod P is R0 + 2^26 * R1, so a value shifted by ten limbs is worth R0 times it plus R1 times it one limb up
  const R0: uint64 := 0x3D10
  const R1: uint64 := 0x400

  /** A product of limbs, the first possibly doubled. */
  function Term(x: uint32, y: uint32): (r: uint64)
    ensures r as int == Prod(x as int, y as int)
    ensures x < 0x4000_0000 && y < 0x4000_0000 ==> r < 0x1000_0000_0000_0000
    ensures x < 0x8000_0000 && y < 0x4000_0000 ==> r < 0x2000_0000_0000_0000
    ensures x < 0x400_0000 && y < 0x400_0000 ==> r < 0x10_0000_0000_0000
  {
    ProdBound(x as int, y as int, if x < 0x4000_0000 then 0x3FFF_FFFF else x as int,
              if y < 0x4000_0000 then 0x3FFF_FFFF else y as int);
    ProdBound(x as int, y as int, if x < 0x8000_0000 then 0x7FFF_FFFF else x as int,
              if y < 0x4000_0000 then 0x3FFF_FFFF else y as int);
    ProdBound(x as int, y as int, if x < 0x400_0000 then 0x3FF_FFFF else x as int,
              if y < 0x400_0000 then 0x3FF_FFFF else y as int);
    Wide32(x, y)
  }

  /** lo = x & (2^26 - 1), hi = x >> 26. */
  method Split(x: uint64) returns (lo: uint64, hi: uint64)
    ensures x as int == lo as int + 0x400_0000 * hi as int && lo < 0x400_0000
  {
    lo, hi := x % 0x400_0000, x / 0x400_0000;
  }

  /** The step repeated for every column: u = d & M; d >>= 26; c += u * R0; t = c & M; c >>= 26; c += u * R1. */
  method Fold(c: uint64, d: uint64) returns (t: uint64, ghost u: int, c': uint64, d': uint64)
    requires c <= 0x9000_007B_8000_0008 + 0x1_0000_0000_0000
    ensures 0 <= u < 0x400_0000 && t < 0x400_0000
    ensures d as int == u + 0x400_0000 * d' as int
    ensures c as int + u * 0x3D10 == t as int + 0x400_0000 * (c' as int - u * 0x400)
  {
    var low;
    low, d' := Split(d);
    u := low as int;
    t, c' := Split(c + low * R0);
    c' := c' + low * R1;
  }

  /** The end of the computation: the carry d above column 18, column 9, and what passes bit 256. */
  method Finish(t0: uint64, t1: uint64, t2: uint64, t9: uint64, c: uint64, d: uint64)
    returns (r0: uint32, r1: uint32, r2: uint32, r9: uint32, z: uint64, ghost y: int, ghost e0: int, ghost e1: int)
    requires t0 < 0x400_0000 && t1 < 0x400_0000 && t2 < 0x400_0000 && t9 < 0x400_0000
    requires c <= 0x1_0000_0000_0000 && d <= 0x1000_0000
    ensures r0 < 0x400_0000 && r1 < 0x400_0000 && r2 < 0x800_0000 && r9 < 0x40_0000
    ensures c as int + d as int * 0x3D10 + t9 as int == r9 as int + 0x40_0000 * y
    ensures z as int == y + d as int * 0x4000
    ensures z as int * 0x3D1 + t0 as int == r0 as int + 0x400_0000 * e0
    ensures e0 + z as int * 0x40 + t1 as int == r1 as int + 0x400_0000 * e1
    ensures r2 as int == e1 + t2 as int
  {
    var w := c + (d * R0 + t9);
    r9, z := (w % 0x40_0000) as uint32, w / 0x40_0000;
    y := z as int;
    z := z + d * (R1 * 16);
    var e := z * (R0 / 16) + t0;
    var low; low, e := Split(e);
    r0, e0 := low as uint32, e as int;
    e := e + (z * (R1 / 16) + t1);
    low, e := Split(e);
    r1, e1 := low as uint32, e as int;
    e := e + t2;
    r2 := e as uint32;
  }

  lemma Row(x: int, b0: int, b1: int, b2: int, b3: int, b4: int, b5: int, b6: int, b7: int, b8: int, b9: int)
    ensures Prod(x, b0 + B1 * b1 + B2 * b2 + B3 * b3 + B4 * b4 + B5 * b5 + B6 * b6 + B7 * b7 + B8 * b8 + B9 * b9)
         == Prod(x, b0) + B1 * Prod(x, b1) + B2 * Prod(x, b2) + B3 * Prod(x, b3) + B4 * Prod(x, b4)
            + B5 * Prod(x, b5) + B6 * Prod(x, b6) + B7 * Prod(x, b7) + B8 * Prod(x, b8) + B9 * Prod(x, b9)
  {
    assert x * (B1 * b1) == B1 * (x * b1);
    assert x * (B2 * b2) == B2 * (x * b2);
    assert x * (B3 * b3) == B3 * (x * b3);
    assert x * (B4 * b4) == B4 * (x * b4);
    assert x * (B5 * b5) == B5 * (x * b5);
    assert x * (B6 * b6) == B6 * (x * b6);
    assert x * (B7 * b7) == B7 * (x * b7);
    assert x * (B8 * b8) == B8 * (x * b8);
    assert x * (B9 * b9) == B9 * (x * b9);
  }

  lemma ProdCommutes(x: int, y: int)
    ensures Prod(x, y) == Prod(y, x)
  {
  }

  lemma DoubledProd(x: int, y: int)
    ensures Prod(x * 2, y) == Prod(x, y * 2) == Prod(x, y) + Prod(y, x)
  {
  }

  /** The product of two evaluations, column by column. */
  lemma Columns(a0: int, a1: int, a2: int, a3: int, a4: int, a5: int, a6: int, a7: int, a8: int, a9: int,
                b0: int, b1: int, b2: int, b3: int, b4: int, b5: int, b6: int, b7: int, b8: int, b9: int)
    ensures Prod(a0 + B1 * a1 + B2 * a2 + B3 * a3 + B4 * a4 + B5 * a5 + B6 * a6 + B7 * a7 + B8 * a8 + B9 * a9,
                 b0 + B1 * b1 + B2 * b2 + B3 * b3 + B4 * b4 + B5 * b5 + B6 * b6 + B7 * b7 + B8 * b8 + B9 * b9)
         == Prod(a0, b0)
          + B1 * (Prod(a0, b1) + Prod(a1, b0))
          + B2 * (Prod(a0, b2) + Prod(a1, b1) + Prod(a2, b0))
          + B3 * (Prod(a0, b3) + Prod(a1, b2) + Prod(a2, b1) + Prod(a3, b0))
          + B4 * (Prod(a0, b4) + Prod(a1, b3) + Prod(a2, b2) + Prod(a3, b1) + Prod(a4, b0))
          + B5 * (Prod(a0, b5) + Prod(a1, b4) + Prod(a2, b3) + Prod(a3, b2) + Prod(a4, b1) + Prod(a5, b0))
          + B6 * (Prod(a0, b6) + Prod(a1, b5) + Prod(a2, b4) + Prod(a3, b3) + Prod(a4, b2) + Prod(a5, b1) + Prod(a6, b0))
          + B7 * (Prod(a0, b7) + Prod(a1, b6) + Prod(a2, b5) + Prod(a3, b4) + Prod(a4, b3) + Prod(a5, b2) + Prod(a6, b1)
            + Prod(a7, b0))
          + B8 * (Prod(a0, b8) + Prod(a1, b7) + Prod(a2, b6) + Prod(a3, b5) + Prod(a4, b4) + Prod(a5, b3) + Prod(a6, b2)
            + Prod(a7, b1) + Prod(a8, b0))
          + B9 * (Prod(a0, b9) + Prod(a1, b8) + Prod(a2, b7) + Prod(a3, b6) + Prod(a4, b5) + Prod(a5, b4) + Prod(a6, b3)
            + Prod(a7, b2) + Prod(a8, b1) + Prod(a9, b0))
          + B10 * (Prod(a1, b9) + Prod(a2, b8) + Prod(a3, b7) + Prod(a4, b6) + Prod(a5, b5) + Prod(a6, b4) + Prod(a7, b3)
            + Prod(a8, b2) + Prod(a9, b1))
          + B11 * (Prod(a2, b9) + Prod(a3, b8) + Prod(a4, b7) + Prod(a5, b6) + Prod(a6, b5) + Prod(a7, b4) + Prod(a8, b3)
            + Prod(a9, b2))
          + B12 * (Prod(a3, b9) + Prod(a4, b8) + Prod(a5, b7) + Prod(a6, b6) + Prod(a7, b5) + Prod(a8, b4) + Prod(a9, b3))
          + B13 * (Prod(a4, b9) + Prod(a5, b8) + Prod(a6, b7) + Prod(a7, b6) + Prod(a8, b5) + Prod(a9, b4))
          + B14 * (Prod(a5, b9) + Prod(a6, b8) + Prod(a7, b7) + Prod(a8, b6) + Prod(a9, b5))
          + B15 * (Prod(a6, b9) + Prod(a7, b8) + Prod(a8, b7) + Prod(a9, b6))
          + B16 * (Prod(a7, b9) + Prod(a8, b8) + Prod(a9, b7))
          + B17 * (Prod(a8, b9) + Prod(a9, b8))
          + B18 * (Prod(a9, b9))
  {
    hide Prod;
    var b := b0 + B1 * b1 + B2 * b2 + B3 * b3 + B4 * b4 + B5 * b5 + B6 * b6 + B7 * b7 + B8 * b8 + B9 * b9;
    Row(b, a0, a1, a2, a3, a4, a5, a6, a7, a8, a9);
    ProdCommutes(b, a0 + B1 * a1 + B2 * a2 + B3 * a3 + B4 * a4 + B5 * a5 + B6 * a6 + B7 * a7 + B8 * a8 + B9 * a9);
    ProdCommutes(b, a0); Row(a0, b0, b1, b2, b3, b4, b5, b6, b7, b8, b9);
    ProdCommutes(b, a1); Row(a1, b0, b1, b2, b3, b4, b5, b6, b7, b8, b9);
    ProdCommutes(b, a2); Row(a2, b0, b1, b2, b3, b4, b5, b6, b7, b8, b9);
    ProdCommutes(b, a3); Row(a3, b0, b1, b2, b3, b4, b5, b6, b7, b8, b9);
    ProdCommutes(b, a4); Row(a4, b0, b1, b2, b3, b4, b5, b6, b7, b8, b9);
    ProdCommutes(b, a5); Row(a5, b0, b1, b2, b3, b4, b5, b6, b7, b8, b9);
    ProdCommutes(b, a6); Row(a6, b0, b1, b2, b3, b4, b5, b6, b7, b8, b9);
    ProdCommutes(b, a7); Row(a7, b0, b1, b2, b3, b4, b5, b6, b7, b8, b9);
    ProdCommutes(b, a8); Row(a8, b0, b1, b2, b3, b4, b5, b6, b7, b8, b9);
    ProdCommutes(b, a9); Row(a9, b0, b1, b2, b3, b4, b5, b6, b7, b8, b9);
  }

  /** The bookkeeping of the reduction: from the equations of the steps, what is stored differs from the sum of
      the shifted columns by a multiple of P. */
  lemma Reduction(p0: int, p1: int, p2: int, p3: int, p4: int, p5: int, p6: int, p7: int, p8: int, p9: int
                 , p10: int, p11: int, p12: int, p13: int, p14: int, p15: int, p16: int, p17: int, p18: int,
                  u0: int, u1: int, u2: int, u3: int, u4: int, u5: int, u6: int, u7: int, u8: int,
                  t0: int, t1: int, t2: int, t3: int, t4: int, t5: int, t6: int, t7: int, t8: int, t9: int,
                  c1: int, c2: int, c3: int, c4: int, c5: int, c6: int, c7: int, c8: int, c9: int,
                  d0: int, d1: int, d2: int, d3: int, d4: int, d5: int, d6: int, d7: int, d8: int, d9: int,
                  r0: int, r1: int, r2: int, r9: int, y: int, z: int, e0: int, e1: int)
    returns (k: int)
    requires p9 == t9 + B1 * d0
    requires d0 + p10 == u0 + B1 * d1
    requires p0 + u0 * 0x3D10 == t0 + B1 * (c1 - u0 * 0x400)
    requires d1 + p11 == u1 + B1 * d2
    requires c1 + p1 + u1 * 0x3D10 == t1 + B1 * (c2 - u1 * 0x400)
    requires d2 + p12 == u2 + B1 * d3
    requires c2 + p2 + u2 * 0x3D10 == t2 + B1 * (c3 - u2 * 0x400)
    requires d3 + p13 == u3 + B1 * d4
    requires c3 + p3 + u3 * 0x3D10 == t3 + B1 * (c4 - u3 * 0x400)
    requires d4 + p14 == u4 + B1 * d5
    requires c4 + p4 + u4 * 0x3D10 == t4 + B1 * (c5 - u4 * 0x400)
    requires d5 + p15 == u5 + B1 * d6
    requires c5 + p5 + u5 * 0x3D10 == t5 + B1 * (c6 - u5 * 0x400)
    requires d6 + p16 == u6 + B1 * d7
    requires c6 + p6 + u6 * 0x3D10 == t6 + B1 * (c7 - u6 * 0x400)
    requires d7 + p17 == u7 + B1 * d8
    requires c7 + p7 + u7 * 0x3D10 == t7 + B1 * (c8 - u7 * 0x400)
    requires d8 + p18 == u8 + B1 * d9
    requires c8 + p8 + u8 * 0x3D10 == t8 + B1 * (c9 - u8 * 0x400)
    requires c9 + d9 * 0x3D10 + t9 == r9 + 0x40_0000 * y && z == y + d9 * 0x4000
    requires z * 0x3D1 + t0 == r0 + B1 * e0 && e0 + z * 0x40 + t1 == r1 + B1 * e1 && r2 == e1 + t2
    ensures p0 + B1 * p1 + B2 * p2 + B3 * p3 + B4 * p4 + B5 * p5 + B6 * p6 + B7 * p7 + B8 * p8 + B9 * p9 + B10 * p10
         + B11 * p11 + B12 * p12 + B13 * p13 + B14 * p14 + B15 * p15 + B16 * p16 + B17 * p17 + B18 * p18
         == r0 + B1 * r1 + B2 * r2 + B3 * t3 + B4 * t4 + B5 * t5 + B6 * t6 + B7 * t7 + B8 * t8 + B9 * r9 + k * P
  {
    k := 16 * (u0 + B1 * u1 + B2 * u2 + B3 * u3 + B4 * u4 + B5 * u5 + B6 * u6 + B7 * u7 + B8 * u8 + B9 * d9) + z;
  }

  /** Column 9. */
  method MulColumn9(a0: uint32, a1: uint32, a2: uint32, a3: uint32, a4: uint32, a5: uint32, a6: uint32, a7: uint32, a8: uint32, a9: uint32,
                    b0: uint32, b1: uint32, b2: uint32, b3: uint32, b4: uint32, b5: uint32, b6: uint32, b7: uint32, b8: uint32, b9: uint32)
    returns (t9: uint64, d: uint64)
    requires Operand([a0, a1, a2, a3, a4, a5, a6, a7, a8, a9]) && Operand([b0, b1, b2, b3, b4, b5, b6, b7, b8, b9])
    ensures t9 < 0x400_0000 && d <= 0x1_0000_0000_0000
    ensures Prod(a0 as int, b9 as int) + Prod(a1 as int, b8 as int) + Prod(a2 as int, b7 as int)
         + Prod(a3 as int, b6 as int) + Prod(a4 as int, b5 as int) + Prod(a5 as int, b4 as int)
         + Prod(a6 as int, b3 as int) + Prod(a7 as int, b2 as int) + Prod(a8 as int, b1 as int)
         + Prod(a9 as int, b0 as int) == t9 as int + B1 * d as int
  {
    hide Prod, Wide32, Term;
    d := Term(a0, b9) + Term(a1, b8) + Term(a2, b7) + Term(a3, b6) + Term(a4, b5) + Term(a5, b4) + Term(a6, b3)
           + Term(a7, b2) + Term(a8, b1) + Term(a9, b0);
    t9, d := Split(d);
  }

  /** Column 9, then columns 10-12 folded onto columns 0-2. */
  method MulLow(a0: uint32, a1: uint32, a2: uint32, a3: uint32, a4: uint32, a5: uint32, a6: uint32, a7: uint32, a8: uint32, a9: uint32,
                 b0: uint32, b1: uint32, b2: uint32, b3: uint32, b4: uint32, b5: uint32, b6: uint32, b7: uint32, b8: uint32, b9: uint32)
    returns (t9: uint64, t0: uint64, t1: uint64, t2: uint64, c: uint64, d: uint64,
             ghost d0: int, ghost u0: int, ghost u1: int, ghost u2: int, ghost c1: int, ghost d1: int, ghost c2: int, ghost d2: int)
    requires Operand([a0, a1, a2, a3, a4, a5, a6, a7, a8, a9]) && Operand([b0, b1, b2, b3, b4, b5, b6, b7, b8, b9])
    ensures t9 < 0x400_0000 && t0 < 0x400_0000 && t1 < 0x400_0000 && t2 < 0x400_0000
    ensures c <= 0x1_0000_0000_0000 && d <= 0x1_0000_0000_0000
    ensures Prod(a0 as int, b9 as int) + Prod(a1 as int, b8 as int) + Prod(a2 as int, b7 as int)
         + Prod(a3 as int, b6 as int) + Prod(a4 as int, b5 as int) + Prod(a5 as int, b4 as int)
         + Prod(a6 as int, b3 as int) + Prod(a7 as int, b2 as int) + Prod(a8 as int, b1 as int)
         + Prod(a9 as int, b0 as int) == t9 as int + B1 * d0
    ensures d0 + Prod(a1 as int, b9 as int) + Prod(a2 as int, b8 as int) + Prod(a3 as int, b7 as int)
         + Prod(a4 as int, b6 as int) + Prod(a5 as int, b5 as int) + Prod(a6 as int, b4 as int)
         + Prod(a7 as int, b3 as int) + Prod(a8 as int, b2 as int) + Prod(a9 as int, b1 as int) == u0 + B1 * d1
    ensures Prod(a0 as int, b0 as int) + u0 * 0x3D10 == t0 as int + B1 * (c1 - u0 * 0x400)
    ensures d1 + Prod(a2 as int, b9 as int) + Prod(a3 as int, b8 as int) + Prod(a4 as int, b7 as int)
         + Prod(a5 as int, b6 as int) + Prod(a6 as int, b5 as int) + Prod(a7 as int, b4 as int)
         + Prod(a8 as int, b3 as int) + Prod(a9 as int, b2 as int) == u1 + B1 * d2
    ensures c1 + Prod(a0 as int, b1 as int) + Prod(a1 as int, b0 as int) + u1 * 0x3D10 == t1 as int
         + B1 * (c2 - u1 * 0x400)
    ensures d2 + Prod(a3 as int, b9 as int) + Prod(a4 as int, b8 as int) + Prod(a5 as int, b7 as int)
         + Prod(a6 as int, b6 as int) + Prod(a7 as int, b5 as int) + Prod(a8 as int, b4 as int)
         + Prod(a9 as int, b3 as int) == u2 + B1 * d as int
    ensures c2 + Prod(a0 as int, b2 as int) + Prod(a1 as int, b1 as int) + Prod(a2 as int, b0 as int)
         + u2 * 0x3D10 == t2 as int + B1 * (c as int - u2 * 0x400)
  {
    hide Prod, Wide32, Term;
    t9, d := MulColumn9(a0, a1, a2, a3, a4, a5, a6, a7, a8, a9, b0, b1, b2, b3, b4, b5, b6, b7, b8, b9);
    d0 := d as int;
    c := Term(a0, b0);
    d := d + Term(a1, b9) + Term(a2, b8) + Term(a3, b7) + Term(a4, b6) + Term(a5, b5) + Term(a6, b4) + Term(a7, b3)
             + Term(a8, b2) + Term(a9, b1);
    t0, u0, c, d := Fold(c, d);
    c1, d1 := c as int, d as int;
    c := c + Term(a0, b1) + Term(a1, b0);
    d := d + Term(a2, b9) + Term(a3, b8) + Term(a4, b7) + Term(a5, b6) + Term(a6, b5) + Term(a7, b4) + Term(a8, b3)
             + Term(a9, b2);
    t1, u1, c, d := Fold(c, d);
    c2, d2 := c as int, d as int;
    c := c + Term(a0, b2) + Term(a1, b1) + Term(a2, b0);
    d := d + Term(a3, b9) + Term(a4, b8) + Term(a5, b7) + Term(a6, b6) + Term(a7, b5) + Term(a8, b4) + Term(a9, b3);
    t2, u2, c, d := Fold(c, d);
  }

  /** Columns 13-15 folded onto columns 3-5. */
  method MulMid(a0: uint32, a1: uint32, a2: uint32, a3: uint32, a4: uint32, a5: uint32, a6: uint32, a7: uint32, a8: uint32, a9: uint32,
                 b0: uint32, b1: uint32, b2: uint32, b3: uint32, b4: uint32, b5: uint32, b6: uint32, b7: uint32, b8: uint32, b9: uint32,
                 c': uint64, d': uint64)
    returns (t3: uint64, t4: uint64, t5: uint64, c: uint64, d: uint64,
             ghost u3: int, ghost u4: int, ghost u5: int, ghost c4: int, ghost d4: int, ghost c5: int, ghost d5: int)
    requires Operand([a0, a1, a2, a3, a4, a5, a6, a7, a8, a9]) && Operand([b0, b1, b2, b3, b4, b5, b6, b7, b8, b9])
    requires c' <= 0x1_0000_0000_0000 && d' <= 0x1_0000_0000_0000
    ensures t3 < 0x400_0000 && t4 < 0x400_0000 && t5 < 0x400_0000
    ensures c <= 0x1_0000_0000_0000 && d <= 0x1_0000_0000_0000
    ensures d' as int + Prod(a4 as int, b9 as int) + Prod(a5 as int, b8 as int) + Prod(a6 as int, b7 as int)
         + Prod(a7 as int, b6 as int) + Prod(a8 as int, b5 as int) + Prod(a9 as int, b4 as int) == u3 + B1 * d4
    ensures c' as int + Prod(a0 as int, b3 as int) + Prod(a1 as int, b2 as int) + Prod(a2 as int, b1 as int)
         + Prod(a3 as int, b0 as int) + u3 * 0x3D10 == t3 as int + B1 * (c4 - u3 * 0x400)
    ensures d4 + Prod(a5 as int, b9 as int) + Prod(a6 as int, b8 as int) + Prod(a7 as int, b7 as int)
         + Prod(a8 as int, b6 as int) + Prod(a9 as int, b5 as int) == u4 + B1 * d5
    ensures c4 + Prod(a0 as int, b4 as int) + Prod(a1 as int, b3 as int) + Prod(a2 as int, b2 as int)
         + Prod(a3 as int, b1 as int) + Prod(a4 as int, b0 as int) + u4 * 0x3D10 == t4 as int + B1 * (c5 - u4 * 0x400)
    ensures d5 + Prod(a6 as int, b9 as int) + Prod(a7 as int, b8 as int) + Prod(a8 as int, b7 as int)
         + Prod(a9 as int, b6 as int) == u5 + B1 * d as int
    ensures c5 + Prod(a0 as int, b5 as int) + Prod(a1 as int, b4 as int) + Prod(a2 as int, b3 as int)
         + Prod(a3 as int, b2 as int) + Prod(a4 as int, b1 as int) + Prod(a5 as int, b0 as int)
         + u5 * 0x3D10 == t5 as int + B1 * (c as int - u5 * 0x400)
  {
    hide Prod, Wide32, Term;
    c, d := c', d';
    c := c + Term(a0, b3) + Term(a1, b2) + Term(a2, b1) + Term(a3, b0);
    d := d + Term(a4, b9) + Term(a5, b8) + Term(a6, b7) + Term(a7, b6) + Term(a8, b5) + Term(a9, b4);
    t3, u3, c, d := Fold(c, d);
    c4, d4 := c as int, d as int;
    c := c + Term(a0, b4) + Term(a1, b3) + Term(a2, b2) + Term(a3, b1) + Term(a4, b0);
    d := d + Term(a5, b9) + Term(a6, b8) + Term(a7, b7) + Term(a8, b6) + Term(a9, b5);
    t4, u4, c, d := Fold(c, d);
    c5, d5 := c as int, d as int;
    c := c + Term(a0, b5) + Term(a1, b4) + Term(a2, b3) + Term(a3, b2) + Term(a4, b1) + Term(a5, b0);
    d := d + Term(a6, b9) + Term(a7, b8) + Term(a8, b7) + Term(a9, b6);
    t5, u5, c, d := Fold(c, d);
  }

  /** Columns 16-18 folded onto columns 6-8. */
  method MulHigh(a0: uint32, a1: uint32, a2: uint32, a3: uint32, a4: uint32, a5: uint32, a6: uint32, a7: uint32, a8: uint32, a9: uint32,
                 b0: uint32, b1: uint32, b2: uint32, b3: uint32, b4: uint32, b5: uint32, b6: uint32, b7: uint32, b8: uint32, b9: uint32,
                 c': uint64, d': uint64)
    returns (t6: uint64, t7: uint64, t8: uint64, c: uint64, d: uint64,
             ghost u6: int, ghost u7: int, ghost u8: int, ghost c7: int, ghost d7: int, ghost c8: int, ghost d8: int)
    requires Operand([a0, a1, a2, a3, a4, a5, a6, a7, a8, a9]) && Operand([b0, b1, b2, b3, b4, b5, b6, b7, b8, b9])
    requires c' <= 0x1_0000_0000_0000 && d' <= 0x1_0000_0000_0000
    ensures t6 < 0x400_0000 && t7 < 0x400_0000 && t8 < 0x400_0000
    ensures c <= 0x1_0000_0000_0000 && d <= 0x1000_0000
    ensures d' as int + Prod(a7 as int, b9 as int) + Prod(a8 as int, b8 as int) + Prod(a9 as int, b7 as int) == u6
         + B1 * d7
    ensures c' as int + Prod(a0 as int, b6 as int) + Prod(a1 as int, b5 as int) + Prod(a2 as int, b4 as int)
         + Prod(a3 as int, b3 as int) + Prod(a4 as int, b2 as int) + Prod(a5 as int, b1 as int)
         + Prod(a6 as int, b0 as int) + u6 * 0x3D10 == t6 as int + B1 * (c7 - u6 * 0x400)
    ensures d7 + Prod(a8 as int, b9 as int) + Prod(a9 as int, b8 as int) == u7 + B1 * d8
    ensures c7 + Prod(a0 as int, b7 as int) + Prod(a1 as int, b6 as int) + Prod(a2 as int, b5 as int)
         + Prod(a3 as int, b4 as int) + Prod(a4 as int, b3 as int) + Prod(a5 as int, b2 as int)
         + Prod(a6 as int, b1 as int) + Prod(a7 as int, b0 as int) + u7 * 0x3D10 == t7 as int + B1 * (c8 - u7 * 0x400)
    ensures d8 + Prod(a9 as int, b9 as int) == u8 + B1 * d as int
    ensures c8 + Prod(a0 as int, b8 as int) + Prod(a1 as int, b7 as int) + Prod(a2 as int, b6 as int)
         + Prod(a3 as int, b5 as int) + Prod(a4 as int, b4 as int) + Prod(a5 as int, b3 as int)
         + Prod(a6 as int, b2 as int) + Prod(a7 as int, b1 as int) + Prod(a8 as int, b0 as int)
         + u8 * 0x3D10 == t8 as int + B1 * (c as int - u8 * 0x400)
  {
    hide Prod, Wide32, Term;
    c, d := c', d';
    c := c + Term(a0, b6) + Term(a1, b5) + Term(a2, b4) + Term(a3, b3) + Term(a4, b2) + Term(a5, b1) + Term(a6, b0);
    d := d + Term(a7, b9) + Term(a8, b8) + Term(a9, b7);
    t6, u6, c, d := Fold(c, d);
    c7, d7 := c as int, d as int;
    c := c + Term(a0, b7) + Term(a1, b6) + Term(a2, b5) + Term(a3, b4) + Term(a4, b3) + Term(a5, b2) + Term(a6, b1)
             + Term(a7, b0);
    d := d + Term(a8, b9) + Term(a9, b8);
    t7, u7, c, d := Fold(c, d);
    c8, d8 := c as int, d as int;
    c := c + Term(a0, b8) + Term(a1, b7) + Term(a2, b6) + Term(a3, b5) + Term(a4, b4) + Term(a5, b3) + Term(a6, b2)
             + Term(a7, b1) + Term(a8, b0);
    d := d + Term(a9, b9);
    t8, u8, c, d := Fold(c, d);
  }

  method MulLimbs(a0: uint32, a1: uint32, a2: uint32, a3: uint32, a4: uint32, a5: uint32, a6: uint32, a7: uint32, a8: uint32, a9: uint32,
                 b0: uint32, b1: uint32, b2: uint32, b3: uint32, b4: uint32, b5: uint32, b6: uint32, b7: uint32, b8: uint32, b9: uint32)
    returns (r0: uint32, r1: uint32, r2: uint32, r3: uint32, r4: uint32, r5: uint32, r6: uint32, r7: uint32, r8: uint32, r9: uint32, ghost k: int)
    requires Operand([a0, a1, a2, a3, a4, a5, a6, a7, a8, a9]) && Operand([b0, b1, b2, b3, b4, b5, b6, b7, b8, b9])
    ensures Product([r0, r1, r2, r3, r4, r5, r6, r7, r8, r9])
    ensures Prod(a0 as int + B1 * a1 as int + B2 * a2 as int + B3 * a3 as int + B4 * a4 as int + B5 * a5 as int
                 + B6 * a6 as int + B7 * a7 as int + B8 * a8 as int + B9 * a9 as int,
                 b0 as int + B1 * b1 as int + B2 * b2 as int + B3 * b3 as int + B4 * b4 as int + B5 * b5 as int
                 + B6 * b6 as int + B7 * b7 as int + B8 * b8 as int + B9 * b9 as int)
         == r0 as int + B1 * r1 as int + B2 * r2 as int + B3 * r3 as int + B4 * r4 as int + B5 * r5 as int
            + B6 * r6 as int + B7 * r7 as int + B8 * r8 as int + B9 * r9 as int + k * P
  {
    hide Prod;
    var t9, t0, t1, t2, c3, d3, d0, u0, u1, u2, c1, d1, c2, d2 := MulLow(a0, a1, a2, a3, a4, a5, a6, a7, a8, a9, b0, b1, b2, b3, b4, b5, b6, b7, b8, b9);
    var t3, t4, t5, c6, d6, u3, u4, u5, c4, d4, c5, d5 := MulMid(a0, a1, a2, a3, a4, a5, a6, a7, a8, a9, b0, b1, b2, b3, b4, b5, b6, b7, b8, b9, c3, d3);
    var t6, t7, t8, c, d, u6, u7, u8, c7, d7, c8, d8 := MulHigh(a0, a1, a2, a3, a4, a5, a6, a7, a8, a9, b0, b1, b2, b3, b4, b5, b6, b7, b8, b9, c6, d6);
    var z; ghost var y, e0, e1;
    r0, r1, r2, r9, z, y, e0, e1 := Finish(t0, t1, t2, t9, c, d);
    r3, r4, r5, r6, r7, r8 := t3 as uint32, t4 as uint32, t5 as uint32, t6 as uint32, t7 as uint32, t8 as uint32;
    k := Reduction(
      Prod(a0 as int, b0 as int),
      Prod(a0 as int, b1 as int) + Prod(a1 as int, b0 as int),
      Prod(a0 as int, b2 as int) + Prod(a1 as int, b1 as int) + Prod(a2 as int, b0 as int),
      Prod(a0 as int, b3 as int) + Prod(a1 as int, b2 as int) + Prod(a2 as int, b1 as int)
      + Prod(a3 as int, b0 as int),
      Prod(a0 as int, b4 as int) + Prod(a1 as int, b3 as int) + Prod(a2 as int, b2 as int)
      + Prod(a3 as int, b1 as int) + Prod(a4 as int, b0 as int),
      Prod(a0 as int, b5 as int) + Prod(a1 as int, b4 as int) + Prod(a2 as int, b3 as int)
      + Prod(a3 as int, b2 as int) + Prod(a4 as int, b1 as int) + Prod(a5 as int, b0 as int),
      Prod(a0 as int, b6 as int) + Prod(a1 as int, b5 as int) + Prod(a2 as int, b4 as int)
      + Prod(a3 as int, b3 as int) + Prod(a4 as int, b2 as int) + Prod(a5 as int, b1 as int)
      + Prod(a6 as int, b0 as int),
      Prod(a0 as int, b7 as int) + Prod(a1 as int, b6 as int) + Prod(a2 as int, b5 as int)
      + Prod(a3 as int, b4 as int) + Prod(a4 as int, b3 as int) + Prod(a5 as int, b2 as int)
      + Prod(a6 as int, b1 as int) + Prod(a7 as int, b0 as int),
      Prod(a0 as int, b8 as int) + Prod(a1 as int, b7 as int) + Prod(a2 as int, b6 as int)
      + Prod(a3 as int, b5 as int) + Prod(a4 as int, b4 as int) + Prod(a5 as int, b3 as int)
      + Prod(a6 as int, b2 as int) + Prod(a7 as int, b1 as int) + Prod(a8 as int, b0 as int),
      Prod(a0 as int, b9 as int) + Prod(a1 as int, b8 as int) + Prod(a2 as int, b7 as int)
      + Prod(a3 as int, b6 as int) + Prod(a4 as int, b5 as int) + Prod(a5 as int, b4 as int)
      + Prod(a6 as int, b3 as int) + Prod(a7 as int, b2 as int) + Prod(a8 as int, b1 as int)
      + Prod(a9 as int, b0 as int),
      Prod(a1 as int, b9 as int) + Prod(a2 as int, b8 as int) + Prod(a3 as int, b7 as int)
      + Prod(a4 as int, b6 as int) + Prod(a5 as int, b5 as int) + Prod(a6 as int, b4 as int)
      + Prod(a7 as int, b3 as int) + Prod(a8 as int, b2 as int) + Prod(a9 as int, b1 as int),
      Prod(a2 as int, b9 as int) + Prod(a3 as int, b8 as int) + Prod(a4 as int, b7 as int)
      + Prod(a5 as int, b6 as int) + Prod(a6 as int, b5 as int) + Prod(a7 as int, b4 as int)
      + Prod(a8 as int, b3 as int) + Prod(a9 as int, b2 as int),
      Prod(a3 as int, b9 as int) + Prod(a4 as int, b8 as int) + Prod(a5 as int, b7 as int)
      + Prod(a6 as int, b6 as int) + Prod(a7 as int, b5 as int) + Prod(a8 as int, b4 as int)
      + Prod(a9 as int, b3 as int),
      Prod(a4 as int, b9 as int) + Prod(a5 as int, b8 as int) + Prod(a6 as int, b7 as int)
      + Prod(a7 as int, b6 as int) + Prod(a8 as int, b5 as int) + Prod(a9 as int, b4 as int),
      Prod(a5 as int, b9 as int) + Prod(a6 as int, b8 as int) + Prod(a7 as int, b7 as int)
      + Prod(a8 as int, b6 as int) + Prod(a9 as int, b5 as int),
      Prod(a6 as int, b9 as int) + Prod(a7 as int, b8 as int) + Prod(a8 as int, b7 as int)
      + Prod(a9 as int, b6 as int),
      Prod(a7 as int, b9 as int) + Prod(a8 as int, b8 as int) + Prod(a9 as int, b7 as int),
      Prod(a8 as int, b9 as int) + Prod(a9 as int, b8 as int),
      Prod(a9 as int, b9 as int),
      u0, u1, u2, u3, u4, u5, u6, u7, u8, t0 as int, t1 as int, t2 as int, t3 as int, t4 as int, t5 as int, t6 as int, t7 as int, t8 as int, t9 as int,
      c1, c2, c3 as int, c4, c5, c6 as int, c7, c8, c as int, d0, d1, d2, d3 as int, d4, d5, d6 as int, d7, d8, d as int,
      r0 as int, r1 as int, r2 as int, r9 as int, y, z as int, e0, e1);
    Columns(a0 as int, a1 as int, a2 as int, a3 as int, a4 as int, a5 as int, a6 as int, a7 as int, a8 as int, a9 as int,
            b0 as int, b1 as int, b2 as int, b3 as int, b4 as int, b5 as int, b6 as int, b7 as int, b8 as int, b9 as int);
  }

  /** secp256k1_fe_mul_inner. The output may be the first operand. No accumulator leaves its type. */
  method MulInner(r: array<uint32>, a: array<uint32>, b: array<uint32>)
    requires r.Length == a.Length == b.Length == 10 && r != b
    requires Operand(a[..]) && Operand(b[..])
    modifies r
    ensures Product(r[..])
    ensures Cong(Eval(r[..]), Prod(Eval(old(a[..])), Eval(old(b[..]))), P)
  {
    hide Prod, Cong;
    var r0, r1, r2, r3, r4, r5, r6, r7, r8, r9, k :=
      MulLimbs(a[0], a[1], a[2], a[3], a[4], a[5], a[6], a[7], a[8], a[9],
               b[0], b[1], b[2], b[3], b[4], b[5], b[6], b[7], b[8], b[9]);
    r[0], r[1], r[2], r[3], r[4], r[5], r[6], r[7], r[8], r[9] := r0, r1, r2, r3, r4, r5, r6, r7, r8, r9;
    ghost var x := Prod(Eval(old(a[..])), Eval(old(b[..])));
    CongFromDifference(x, Eval(r[..]), k, P);
    CongSymmetric(x, Eval(r[..]), P);
  }

  /** Column 9, then columns 10-12 folded onto columns 0-2. */
  method SqrLow(a0: uint32, a1: uint32, a2: uint32, a3: uint32, a4: uint32, a5: uint32, a6: uint32, a7: uint32, a8: uint32, a9: uint32)
    returns (t9: uint64, t0: uint64, t1: uint64, t2: uint64, c: uint64, d: uint64,
             ghost d0: int, ghost u0: int, ghost u1: int, ghost u2: int, ghost c1: int, ghost d1: int, ghost c2: int, ghost d2: int)
    requires Operand([a0, a1, a2, a3, a4, a5, a6, a7, a8, a9])
    ensures t9 < 0x400_0000 && t0 < 0x400_0000 && t1 < 0x400_0000 && t2 < 0x400_0000
    ensures c <= 0x1_0000_0000_0000 && d <= 0x1_0000_0000_0000
    ensures Prod(a0 as int, a9 as int) + Prod(a1 as int, a8 as int) + Prod(a2 as int, a7 as int)
         + Prod(a3 as int, a6 as int) + Prod(a4 as int, a5 as int) + Prod(a5 as int, a4 as int)
         + Prod(a6 as int, a3 as int) + Prod(a7 as int, a2 as int) + Prod(a8 as int, a1 as int)
         + Prod(a9 as int, a0 as int) == t9 as int + B1 * d0
    ensures d0 + Prod(a1 as int, a9 as int) + Prod(a2 as int, a8 as int) + Prod(a3 as int, a7 as int)
         + Prod(a4 as int, a6 as int) + Prod(a5 as int, a5 as int) + Prod(a6 as int, a4 as int)
         + Prod(a7 as int, a3 as int) + Prod(a8 as int, a2 as int) + Prod(a9 as int, a1 as int) == u0 + B1 * d1
    ensures Prod(a0 as int, a0 as int) + u0 * 0x3D10 == t0 as int + B1 * (c1 - u0 * 0x400)
    ensures d1 + Prod(a2 as int, a9 as int) + Prod(a3 as int, a8 as int) + Prod(a4 as int, a7 as int)
         + Prod(a5 as int, a6 as int) + Prod(a6 as int, a5 as int) + Prod(a7 as int, a4 as int)
         + Prod(a8 as int, a3 as int) + Prod(a9 as int, a2 as int) == u1 + B1 * d2
    ensures c1 + Prod(a0 as int, a1 as int) + Prod(a1 as int, a0 as int) + u1 * 0x3D10 == t1 as int
         + B1 * (c2 - u1 * 0x400)
    ensures d2 + Prod(a3 as int, a9 as int) + Prod(a4 as int, a8 as int) + Prod(a5 as int, a7 as int)
         + Prod(a6 as int, a6 as int) + Prod(a7 as int, a5 as int) + Prod(a8 as int, a4 as int)
         + Prod(a9 as int, a3 as int) == u2 + B1 * d as int
    ensures c2 + Prod(a0 as int, a2 as int) + Prod(a1 as int, a1 as int) + Prod(a2 as int, a0 as int)
         + u2 * 0x3D10 == t2 as int + B1 * (c as int - u2 * 0x400)
  {
    hide Prod, Wide32, Term;
    DoubledProd(a0 as int, a9 as int);
    DoubledProd(a1 as int, a8 as int);
    DoubledProd(a2 as int, a7 as int);
    DoubledProd(a3 as int, a6 as int);
    DoubledProd(a4 as int, a5 as int);
    DoubledProd(a0 as int, a1 as int);
    DoubledProd(a0 as int, a2 as int);
    DoubledProd(a1 as int, a9 as int);
    DoubledProd(a2 as int, a8 as int);
    DoubledProd(a3 as int, a7 as int);
    DoubledProd(a4 as int, a6 as int);
    DoubledProd(a2 as int, a9 as int);
    DoubledProd(a3 as int, a8 as int);
    DoubledProd(a4 as int, a7 as int);
    DoubledProd(a5 as int, a6 as int);
    DoubledProd(a3 as int, a9 as int);
    DoubledProd(a4 as int, a8 as int);
    DoubledProd(a5 as int, a7 as int);
    d := Term(a0 * 2, a9) + Term(a1 * 2, a8) + Term(a2 * 2, a7) + Term(a3 * 2, a6) + Term(a4 * 2, a5);
    t9, d := Split(d);
    d0 := d as int;
    c := Term(a0, a0);
    d := d + Term(a1 * 2, a9) + Term(a2 * 2, a8) + Term(a3 * 2, a7) + Term(a4 * 2, a6) + Term(a5, a5);
    t0, u0, c, d := Fold(c, d);
    c1, d1 := c as int, d as int;
    c := c + Term(a0 * 2, a1);
    d := d + Term(a2 * 2, a9) + Term(a3 * 2, a8) + Term(a4 * 2, a7) + Term(a5 * 2, a6);
    t1, u1, c, d := Fold(c, d);
    c2, d2 := c as int, d as int;
    c := c + Term(a0 * 2, a2) + Term(a1, a1);
    d := d + Term(a3 * 2, a9) + Term(a4 * 2, a8) + Term(a5 * 2, a7) + Term(a6, a6);
    t2, u2, c, d := Fold(c, d);
  }

  /** Columns 13-15 folded onto columns 3-5. */
  method SqrMid(a0: uint32, a1: uint32, a2: uint32, a3: uint32, a4: uint32, a5: uint32, a6: uint32, a7: uint32, a8: uint32, a9: uint32,
                 c': uint64, d': uint64)
    returns (t3: uint64, t4: uint64, t5: uint64, c: uint64, d: uint64,
             ghost u3: int, ghost u4: int, ghost u5: int, ghost c4: int, ghost d4: int, ghost c5: int, ghost d5: int)
    requires Operand([a0, a1, a2, a3, a4, a5, a6, a7, a8, a9])
    requires c' <= 0x1_0000_0000_0000 && d' <= 0x1_0000_0000_0000
    ensures t3 < 0x400_0000 && t4 < 0x400_0000 && t5 < 0x400_0000
    ensures c <= 0x1_0000_0000_0000 && d <= 0x1_0000_0000_0000
    ensures d' as int + Prod(a4 as int, a9 as int) + Prod(a5 as int, a8 as int) + Prod(a6 as int, a7 as int)
         + Prod(a7 as int, a6 as int) + Prod(a8 as int, a5 as int) + Prod(a9 as int, a4 as int) == u3 + B1 * d4
    ensures c' as int + Prod(a0 as int, a3 as int) + Prod(a1 as int, a2 as int) + Prod(a2 as int, a1 as int)
         + Prod(a3 as int, a0 as int) + u3 * 0x3D10 == t3 as int + B1 * (c4 - u3 * 0x400)
    ensures d4 + Prod(a5 as int, a9 as int) + Prod(a6 as int, a8 as int) + Prod(a7 as int, a7 as int)
         + Prod(a8 as int, a6 as int) + Prod(a9 as int, a5 as int) == u4 + B1 * d5
    ensures c4 + Prod(a0 as int, a4 as int) + Prod(a1 as int, a3 as int) + Prod(a2 as int, a2 as int)
         + Prod(a3 as int, a1 as int) + Prod(a4 as int, a0 as int) + u4 * 0x3D10 == t4 as int + B1 * (c5 - u4 * 0x400)
    ensures d5 + Prod(a6 as int, a9 as int) + Prod(a7 as int, a8 as int) + Prod(a8 as int, a7 as int)
         + Prod(a9 as int, a6 as int) == u5 + B1 * d as int
    ensures c5 + Prod(a0 as int, a5 as int) + Prod(a1 as int, a4 as int) + Prod(a2 as int, a3 as int)
         + Prod(a3 as int, a2 as int) + Prod(a4 as int, a1 as int) + Prod(a5 as int, a0 as int)
         + u5 * 0x3D10 == t5 as int + B1 * (c as int - u5 * 0x400)
  {
    hide Prod, Wide32, Term;
    DoubledProd(a0 as int, a3 as int);
    DoubledProd(a1 as int, a2 as int);
    DoubledProd(a0 as int, a4 as int);
    DoubledProd(a1 as int, a3 as int);
    DoubledProd(a0 as int, a5 as int);
    DoubledProd(a1 as int, a4 as int);
    DoubledProd(a2 as int, a3 as int);
    DoubledProd(a4 as int, a9 as int);
    DoubledProd(a5 as int, a8 as int);
    DoubledProd(a6 as int, a7 as int);
    DoubledProd(a5 as int, a9 as int);
    DoubledProd(a6 as int, a8 as int);
    DoubledProd(a6 as int, a9 as int);
    DoubledProd(a7 as int, a8 as int);
    c, d := c', d';
    c := c + Term(a0 * 2, a3) + Term(a1 * 2, a2);
    d := d + Term(a4 * 2, a9) + Term(a5 * 2, a8) + Term(a6 * 2, a7);
    t3, u3, c, d := Fold(c, d);
    c4, d4 := c as int, d as int;
    c := c + Term(a0 * 2, a4) + Term(a1 * 2, a3) + Term(a2, a2);
    d := d + Term(a5 * 2, a9) + Term(a6 * 2, a8) + Term(a7, a7);
    t4, u4, c, d := Fold(c, d);
    c5, d5 := c as int, d as int;
    c := c + Term(a0 * 2, a5) + Term(a1 * 2, a4) + Term(a2 * 2, a3);
    d := d + Term(a6 * 2, a9) + Term(a7 * 2, a8);
    t5, u5, c, d := Fold(c, d);
  }

  /** Columns 16-18 folded onto columns 6-8. */
  method SqrHigh(a0: uint32, a1: uint32, a2: uint32, a3: uint32, a4: uint32, a5: uint32, a6: uint32, a7: uint32, a8: uint32, a9: uint32,
                 c': uint64, d': uint64)
    returns (t6: uint64, t7: uint64, t8: uint64, c: uint64, d: uint64,
             ghost u6: int, ghost u7: int, ghost u8: int, ghost c7: int, ghost d7: int, ghost c8: int, ghost d8: int)
    requires Operand([a0, a1, a2, a3, a4, a5, a6, a7, a8, a9])
    requires c' <= 0x1_0000_0000_0000 && d' <= 0x1_0000_0000_0000
    ensures t6 < 0x400_0000 && t7 < 0x400_0000 && t8 < 0x400_0000
    ensures c <= 0x1_0000_0000_0000 && d <= 0x1000_0000
    ensures d' as int + Prod(a7 as int, a9 as int) + Prod(a8 as int, a8 as int) + Prod(a9 as int, a7 as int) == u6
         + B1 * d7
    ensures c' as int + Prod(a0 as int, a6 as int) + Prod(a1 as int, a5 as int) + Prod(a2 as int, a4 as int)
         + Prod(a3 as int, a3 as int) + Prod(a4 as int, a2 as int) + Prod(a5 as int, a1 as int)
         + Prod(a6 as int, a0 as int) + u6 * 0x3D10 == t6 as int + B1 * (c7 - u6 * 0x400)
    ensures d7 + Prod(a8 as int, a9 as int) + Prod(a9 as int, a8 as int) == u7 + B1 * d8
    ensures c7 + Prod(a0 as int, a7 as int) + Prod(a1 as int, a6 as int) + Prod(a2 as int, a5 as int)
         + Prod(a3 as int, a4 as int) + Prod(a4 as int, a3 as int) + Prod(a5 as int, a2 as int)
         + Prod(a6 as int, a1 as int) + Prod(a7 as int, a0 as int) + u7 * 0x3D10 == t7 as int + B1 * (c8 - u7 * 0x400)
    ensures d8 + Prod(a9 as int, a9 as int) == u8 + B1 * d as int
    ensures c8 + Prod(a0 as int, a8 as int) + Prod(a1 as int, a7 as int) + Prod(a2 as int, a6 as int)
         + Prod(a3 as int, a5 as int) + Prod(a4 as int, a4 as int) + Prod(a5 as int, a3 as int)
         + Prod(a6 as int, a2 as int) + Prod(a7 as int, a1 as int) + Prod(a8 as int, a0 as int)
         + u8 * 0x3D10 == t8 as int + B1 * (c as int - u8 * 0x400)
  {
    hide Prod, Wide32, Term;
    DoubledProd(a0 as int, a6 as int);
    DoubledProd(a1 as int, a5 as int);
    DoubledProd(a2 as int, a4 as int);
    DoubledProd(a0 as int, a7 as int);
    DoubledProd(a1 as int, a6 as int);
    DoubledProd(a2 as int, a5 as int);
    DoubledProd(a3 as int, a4 as int);
    DoubledProd(a0 as int, a8 as int);
    DoubledProd(a1 as int, a7 as int);
    DoubledProd(a2 as int, a6 as int);
    DoubledProd(a3 as int, a5 as int);
    DoubledProd(a7 as int, a9 as int);
    DoubledProd(a8 as int, a9 as int);
    c, d := c', d';
    c := c + Term(a0 * 2, a6) + Term(a1 * 2, a5) + Term(a2 * 2, a4) + Term(a3, a3);
    d := d + Term(a7 * 2, a9) + Term(a8, a8);
    t6, u6, c, d := Fold(c, d);
    c7, d7 := c as int, d as int;
    c := c + Term(a0 * 2, a7) + Term(a1 * 2, a6) + Term(a2 * 2, a5) + Term(a3 * 2, a4);
    d := d + Term(a8 * 2, a9);
    t7, u7, c, d := Fold(c, d);
    c8, d8 := c as int, d as int;
    c := c + Term(a0 * 2, a8) + Term(a1 * 2, a7) + Term(a2 * 2, a6) + Term(a3 * 2, a5) + Term(a4, a4);
    d := d + Term(a9, a9);
    t8, u8, c, d := Fold(c, d);
  }

  method SqrLimbs(a0: uint32, a1: uint32, a2: uint32, a3: uint32, a4: uint32, a5: uint32, a6: uint32, a7: uint32, a8: uint32, a9: uint32)
    returns (r0: uint32, r1: uint32, r2: uint32, r3: uint32, r4: uint32, r5: uint32, r6: uint32, r7: uint32, r8: uint32, r9: uint32, ghost k: int)
    requires Operand([a0, a1, a2, a3, a4, a5, a6, a7, a8, a9])
    ensures Product([r0, r1, r2, r3, r4, r5, r6, r7, r8, r9])
    ensures Prod(a0 as int + B1 * a1 as int + B2 * a2 as int + B3 * a3 as int + B4 * a4 as int + B5 * a5 as int
                 + B6 * a6 as int + B7 * a7 as int + B8 * a8 as int + B9 * a9 as int,
                 a0 as int + B1 * a1 as int + B2 * a2 as int + B3 * a3 as int + B4 * a4 as int + B5 * a5 as int
                 + B6 * a6 as int + B7 * a7 as int + B8 * a8 as int + B9 * a9 as int)
         == r0 as int + B1 * r1 as int + B2 * r2 as int + B3 * r3 as int + B4 * r4 as int + B5 * r5 as int
            + B6 * r6 as int + B7 * r7 as int + B8 * r8 as int + B9 * r9 as int + k * P
  {
    hide Prod;
    var t9, t0, t1, t2, c3, d3, d0, u0, u1, u2, c1, d1, c2, d2 := SqrLow(a0, a1, a2, a3, a4, a5, a6, a7, a8, a9);
    var t3, t4, t5, c6, d6, u3, u4, u5, c4, d4, c5, d5 := SqrMid(a0, a1, a2, a3, a4, a5, a6, a7, a8, a9, c3, d3);
    var t6, t7, t8, c, d, u6, u7, u8, c7, d7, c8, d8 := SqrHigh(a0, a1, a2, a3, a4, a5, a6, a7, a8, a9, c6, d6);
    var z; ghost var y, e0, e1;
    r0, r1, r2, r9, z, y, e0, e1 := Finish(t0, t1, t2, t9, c, d);
    r3, r4, r5, r6, r7, r8 := t3 as uint32, t4 as uint32, t5 as uint32, t6 as uint32, t7 as uint32, t8 as uint32;
    k := Reduction(
      Prod(a0 as int, a0 as int),
      Prod(a0 as int, a1 as int) + Prod(a1 as int, a0 as int),
      Prod(a0 as int, a2 as int) + Prod(a1 as int, a1 as int) + Prod(a2 as int, a0 as int),
      Prod(a0 as int, a3 as int) + Prod(a1 as int, a2 as int) + Prod(a2 as int, a1 as int)
      + Prod(a3 as int, a0 as int),
      Prod(a0 as int, a4 as int) + Prod(a1 as int, a3 as int) + Prod(a2 as int, a2 as int)
      + Prod(a3 as int, a1 as int) + Prod(a4 as int, a0 as int),
      Prod(a0 as int, a5 as int) + Prod(a1 as int, a4 as int) + Prod(a2 as int, a3 as int)
      + Prod(a3 as int, a2 as int) + Prod(a4 as int, a1 as int) + Prod(a5 as int, a0 as int),
      Prod(a0 as int, a6 as int) + Prod(a1 as int, a5 as int) + Prod(a2 as int, a4 as int)
      + Prod(a3 as int, a3 as int) + Prod(a4 as int, a2 as int) + Prod(a5 as int, a1 as int)
      + Prod(a6 as int, a0 as int),
      Prod(a0 as int, a7 as int) + Prod(a1 as int, a6 as int) + Prod(a2 as int, a5 as int)
      + Prod(a3 as int, a4 as int) + Prod(a4 as int, a3 as int) + Prod(a5 as int, a2 as int)
      + Prod(a6 as int, a1 as int) + Prod(a7 as int, a0 as int),
      Prod(a0 as int, a8 as int) + Prod(a1 as int, a7 as int) + Prod(a2 as int, a6 as int)
      + Prod(a3 as int, a5 as int) + Prod(a4 as int, a4 as int) + Prod(a5 as int, a3 as int)
      + Prod(a6 as int, a2 as int) + Prod(a7 as int, a1 as int) + Prod(a8 as int, a0 as int),
      Prod(a0 as int, a9 as int) + Prod(a1 as int, a8 as int) + Prod(a2 as int, a7 as int)
      + Prod(a3 as int, a6 as int) + Prod(a4 as int, a5 as int) + Prod(a5 as int, a4 as int)
      + Prod(a6 as int, a3 as int) + Prod(a7 as int, a2 as int) + Prod(a8 as int, a1 as int)
      + Prod(a9 as int, a0 as int),
      Prod(a1 as int, a9 as int) + Prod(a2 as int, a8 as int) + Prod(a3 as int, a7 as int)
      + Prod(a4 as int, a6 as int) + Prod(a5 as int, a5 as int) + Prod(a6 as int, a4 as int)
      + Prod(a7 as int, a3 as int) + Prod(a8 as int, a2 as int) + Prod(a9 as int, a1 as int),
      Prod(a2 as int, a9 as int) + Prod(a3 as int, a8 as int) + Prod(a4 as int, a7 as int)
      + Prod(a5 as int, a6 as int) + Prod(a6 as int, a5 as int) + Prod(a7 as int, a4 as int)
      + Prod(a8 as int, a3 as int) + Prod(a9 as int, a2 as int),
      Prod(a3 as int, a9 as int) + Prod(a4 as int, a8 as int) + Prod(a5 as int, a7 as int)
      + Prod(a6 as int, a6 as int) + Prod(a7 as int, a5 as int) + Prod(a8 as int, a4 as int)
      + Prod(a9 as int, a3 as int),
      Prod(a4 as int, a9 as int) + Prod(a5 as int, a8 as int) + Prod(a6 as int, a7 as int)
      + Prod(a7 as int, a6 as int) + Prod(a8 as int, a5 as int) + Prod(a9 as int, a4 as int),
      Prod(a5 as int, a9 as int) + Prod(a6 as int, a8 as int) + Prod(a7 as int, a7 as int)
      + Prod(a8 as int, a6 as int) + Prod(a9 as int, a5 as int),
      Prod(a6 as int, a9 as int) + Prod(a7 as int, a8 as int) + Prod(a8 as int, a7 as int)
      + Prod(a9 as int, a6 as int),
      Prod(a7 as int, a9 as int) + Prod(a8 as int, a8 as int) + Prod(a9 as int, a7 as int),
      Prod(a8 as int, a9 as int) + Prod(a9 as int, a8 as int),
      Prod(a9 as int, a9 as int),
      u0, u1, u2, u3, u4, u5, u6, u7, u8, t0 as int, t1 as int, t2 as int, t3 as int, t4 as int, t5 as int, t6 as int, t7 as int, t8 as int, t9 as int,
      c1, c2, c3 as int, c4, c5, c6 as int, c7, c8, c as int, d0, d1, d2, d3 as int, d4, d5, d6 as int, d7, d8, d as int,
      r0 as int, r1 as int, r2 as int, r9 as int, y, z as int, e0, e1);
    Columns(a0 as int, a1 as int, a2 as int, a3 as int, a4 as int, a5 as int, a6 as int, a7 as int, a8 as int, a9 as int,
            a0 as int, a1 as int, a2 as int, a3 as int, a4 as int, a5 as int, a6 as int, a7 as int, a8 as int, a9 as int);
  }

  /** secp256k1_fe_sqr_inner: the symmetric terms are computed once, from doubled limbs. */
  method SqrInner(r: array<uint32>, a: array<uint32>)
    requires r.Length == a.Length == 10
    requires Operand(a[..])
    modifies r
    ensures Product(r[..])
    ensures Cong(Eval(r[..]), Prod(Eval(old(a[..])), Eval(old(a[..]))), P)
  {
    hide Prod, Cong;
    var r0, r1, r2, r3, r4, r5, r6, r7, r8, r9, k :=
      SqrLimbs(a[0], a[1], a[2], a[3], a[4], a[5], a[6], a[7], a[8], a[9]);
    r[0], r[1], r[2], r[3], r[4], r[5], r[6], r[7], r[8], r[9] := r0, r1, r2, r3, r4, r5, r6, r7, r8, r9;
    ghost var x := Prod(Eval(old(a[..])), Eval(old(a[..])));
    CongFromDifference(x, Eval(r[..]), k, P);
    CongSymmetric(x, Eval(r[..]), P);
  }
}
