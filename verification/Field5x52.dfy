/** Field elements modulo P as five 64-bit limbs in base 2^52 (field_5x52_int128_impl.h, field_5x52_impl.h). */
module Field5x52 {
  import opened Machine
  import opened NumberTheory
  import opened Params

  const B1: int := 0x10_0000_0000_0000  // 2^52
  const B2: int := 0x100_0000_0000_0000_0000_0000_0000
  const B3: int := 0x1000_0000_0000_0000_0000_0000_0000_0000_0000_0000
  const B4: int := 0x1_0000_0000_0000_0000_0000_0000_0000_0000_0000_0000_0000_0000_0000

  /** The value of five limbs. */
  function Eval(n: seq<uint64>): int
    requires |n| == 5
  {
    n[0] as int + B1 * n[1] as int + B2 * n[2] as int + B3 * n[3] as int + B4 * n[4] as int
  }

  /** The input bounds of the multiplication: 56 bits, the top limb 52. */
  predicate Operand(n: seq<uint64>) {
    |n| == 5
    && n[0] < 0x100_0000_0000_0000 && n[1] < 0x100_0000_0000_0000 && n[2] < 0x100_0000_0000_0000
    && n[3] < 0x100_0000_0000_0000 && n[4] < 0x10_0000_0000_0000
  }

  /** The output bounds of the multiplication: 52 bits, the top limb 49 (that is, magnitude 1). */
  predicate Product(n: seq<uint64>) {
    |n| == 5
    && n[0] < 0x10_0000_0000_0000 && n[1] < 0x10_0000_0000_0000 && n[2] < 0x10_0000_0000_0000
    && n[3] < 0x10_0000_0000_0000 && n[4] <= 0x1_FFFF_FFFF_FFFE
  }

  const R: uint128 := 0x1000003D10  // 2^260 mod P, so a value shifted by five limbs is R times it

  /** A product of limbs, the first possibly doubled. */
  function Term(x: uint64, y: uint64): (r: uint128)
    ensures r as int == Prod(x as int, y as int)
    ensures x < 0x100_0000_0000_0000 && y < 0x100_0000_0000_0000 ==> r < 0x1_0000_0000_0000_0000_0000_0000_0000
    ensures x < 0x200_0000_0000_0000 && y < 0x200_0000_0000_0000 ==> r < 0x4_0000_0000_0000_0000_0000_0000_0000
  {
    ProdBound(x as int, y as int, if x < 0x100_0000_0000_0000 then 0xFF_FFFF_FFFF_FFFF else x as int,
              if y < 0x100_0000_0000_0000 then 0xFF_FFFF_FFFF_FFFF else y as int);
    ProdBound(x as int, y as int, if x < 0x200_0000_0000_0000 then 0x1FF_FFFF_FFFF_FFFF else x as int,
              if y < 0x200_0000_0000_0000 then 0x1FF_FFFF_FFFF_FFFF else y as int);
    Wide(x, y)
  }

  /** lo = x & (2^52 - 1), hi = x >> 52. */
  method Split(x: uint128) returns (lo: uint64, hi: uint128)
    ensures x as int == lo as int + 0x10_0000_0000_0000 * hi as int && lo < 0x10_0000_0000_0000
  {
    lo, hi := (x % B1 as uint128) as uint64, x / B1 as uint128;
  }

  lemma Row(x: int, b0: int, b1: int, b2: int, b3: int, b4: int)
    ensures Prod(x, b0 + B1 * b1 + B2 * b2 + B3 * b3 + B4 * b4)
         == Prod(x, b0) + B1 * Prod(x, b1) + B2 * Prod(x, b2) + B3 * Prod(x, b3) + B4 * Prod(x, b4)
  {
    assert x * (B1 * b1) == B1 * (x * b1) && x * (B2 * b2) == B2 * (x * b2);
    assert x * (B3 * b3) == B3 * (x * b3) && x * (B4 * b4) == B4 * (x * b4);
  }

  lemma ProdCommutes(x: int, y: int)
    ensures Prod(x, y) == Prod(y, x)
  {
  }

  /** The product of two evaluations, column by column. */
  lemma Columns(a0: int, a1: int, a2: int, a3: int, a4: int, b0: int, b1: int, b2: int, b3: int, b4: int)
    ensures Prod(a0 + B1 * a1 + B2 * a2 + B3 * a3 + B4 * a4, b0 + B1 * b1 + B2 * b2 + B3 * b3 + B4 * b4)
         == Prod(a0, b0) + B1 * (Prod(a0, b1) + Prod(a1, b0)) + B2 * (Prod(a0, b2) + Prod(a1, b1) + Prod(a2, b0))
          + B3 * (Prod(a0, b3) + Prod(a1, b2) + Prod(a2, b1) + Prod(a3, b0))
          + B4 * (Prod(a0, b4) + Prod(a1, b3) + Prod(a2, b2) + Prod(a3, b1) + Prod(a4, b0))
          + B4 * B1 * (Prod(a1, b4) + Prod(a2, b3) + Prod(a3, b2) + Prod(a4, b1))
          + B4 * B2 * (Prod(a2, b4) + Prod(a3, b3) + Prod(a4, b2))
          + B4 * B3 * (Prod(a3, b4) + Prod(a4, b3)) + B4 * B4 * Prod(a4, b4)
  {
    hide Prod;
    var b := b0 + B1 * b1 + B2 * b2 + B3 * b3 + B4 * b4;
    Row(b, a0, a1, a2, a3, a4);
    ProdCommutes(b, a0 + B1 * a1 + B2 * a2 + B3 * a3 + B4 * a4);
    ProdCommutes(b, a0); ProdCommutes(b, a1); ProdCommutes(b, a2); ProdCommutes(b, a3); ProdCommutes(b, a4);
    Row(a0, b0, b1, b2, b3, b4);
    Row(a1, b0, b1, b2, b3, b4);
    Row(a2, b0, b1, b2, b3, b4);
    Row(a3, b0, b1, b2, b3, b4);
    Row(a4, b0, b1, b2, b3, b4);
  }

  /** The bookkeeping of the reduction: from the equations of the ten splits, what is stored differs from
      the sum of the shifted columns by a multiple of P. */
  lemma Reduction(p0: int, p1: int, p2: int, p3: int, p4: int, p5: int, p6: int, p7: int, p8: int,
                  k0: int, k1: int, k2: int, k3: int, t3: int, t4: int, tx: int, u: int,
                  d1: int, d2: int, d3: int, d4: int, d5: int, c1: int, c2: int, c3: int, c4: int,
                  r0: int, r1: int, r2: int, r3: int)
    returns (k: int)
    requires p8 == k0 + B1 * k1
    requires p3 + k0 * 0x1000003D10 == t3 + B1 * d1
    requires d1 + p4 + k1 * 0x1000003D10 == t4 + 0x1_0000_0000_0000 * tx + B1 * d2
    requires d2 + p5 == u + B1 * d3
    requires p0 + (16 * u + tx) * 0x1000003D1 == r0 + B1 * c1
    requires d3 + p6 == k2 + B1 * d4
    requires c1 + p1 + k2 * 0x1000003D10 == r1 + B1 * c2
    requires d4 + p7 == k3 + B1 * d5
    requires c2 + p2 + k3 * 0x1000003D10 == r2 + B1 * c3
    requires c3 + d5 * 0x1000003D10 + t3 == r3 + B1 * c4
    ensures p0 + B1 * p1 + B2 * p2 + B3 * p3 + B4 * p4 + B4 * B1 * p5 + B4 * B2 * p6 + B4 * B3 * p7 + B4 * B4 * p8
         == r0 + B1 * r1 + B2 * r2 + B3 * r3 + B4 * (c4 + t4) + k * P
  {
    k := 16 * (k0 * B3 + k1 * B4 + k2 * B1 + k3 * B2 + d5 * B3) + 16 * u + tx;
  }

  /** The first half: columns 3, 4, 5 and 8 folded into t3, t4, a carry d, and tx, u above bit 256. */
  method MulHigh(a0: uint64, a1: uint64, a2: uint64, a3: uint64, a4: uint64,
                 b0: uint64, b1: uint64, b2: uint64, b3: uint64, b4: uint64)
    returns (t3: uint64, t4: uint64, tx: uint64, u: uint64, d: uint128, ghost k0: int, ghost k1: int, ghost d1: int, ghost d2: int)
    requires Operand([a0, a1, a2, a3, a4]) && Operand([b0, b1, b2, b3, b4])
    ensures t3 < 0x10_0000_0000_0000 && t4 < 0x1_0000_0000_0000 && tx < 16 && u < 0x10_0000_0000_0000 && d < 0x1_0000_0000_0000_0000
    ensures Prod(a4 as int, b4 as int) == k0 + B1 * k1
    ensures Prod(a0 as int, b3 as int) + Prod(a1 as int, b2 as int) + Prod(a2 as int, b1 as int) + Prod(a3 as int, b0 as int) + k0 * 0x1000003D10
         == t3 as int + B1 * d1
    ensures d1 + Prod(a0 as int, b4 as int) + Prod(a1 as int, b3 as int) + Prod(a2 as int, b2 as int) + Prod(a3 as int, b1 as int) + Prod(a4 as int, b0 as int)
         + k1 * 0x1000003D10 == t4 as int + 0x1_0000_0000_0000 * tx as int + B1 * d2
    ensures d2 + Prod(a1 as int, b4 as int) + Prod(a2 as int, b3 as int) + Prod(a3 as int, b2 as int) + Prod(a4 as int, b1 as int) == u as int + B1 * d as int
  {
    hide Prod, Wide, Term;
    d := Term(a0, b3) + Term(a1, b2) + Term(a2, b1) + Term(a3, b0);
    var c := Term(a4, b4);
    var low; low, c := Split(c);
    k0, k1 := low as int, c as int;
    d := d + low as uint128 * R;
    t3, d := Split(d);
    d1 := d as int;
    d := d + Term(a0, b4) + Term(a1, b3) + Term(a2, b2) + Term(a3, b1) + Term(a4, b0);
    d := d + c * R;
    t4, d := Split(d);
    d2 := d as int;
    tx := t4 / 0x1_0000_0000_0000; t4 := t4 % 0x1_0000_0000_0000;
    d := d + Term(a1, b4) + Term(a2, b3) + Term(a3, b2) + Term(a4, b1);
    u, d := Split(d);
  }

  /** The second half: the remaining columns, with what the first half left over. */
  method MulLow(a0: uint64, a1: uint64, a2: uint64, a3: uint64, a4: uint64,
                 b0: uint64, b1: uint64, b2: uint64, b3: uint64, b4: uint64,
                 t3: uint64, t4: uint64, tx: uint64, u: uint64, d': uint128)
    returns (r0: uint64, r1: uint64, r2: uint64, r3: uint64, r4: uint64,
             ghost k2: int, ghost k3: int, ghost c1: int, ghost c2: int, ghost c3: int, ghost c4: int, ghost d4: int, ghost d5: int)
    requires Operand([a0, a1, a2, a3, a4]) && Operand([b0, b1, b2, b3, b4])
    requires t3 < 0x10_0000_0000_0000 && t4 < 0x1_0000_0000_0000 && tx < 16 && u < 0x10_0000_0000_0000 && d' < 0x1_0000_0000_0000_0000
    ensures Product([r0, r1, r2, r3, r4])
    ensures Prod(a0 as int, b0 as int) + (16 * u as int + tx as int) * 0x1000003D1 == r0 as int + B1 * c1
    ensures d' as int + Prod(a2 as int, b4 as int) + Prod(a3 as int, b3 as int) + Prod(a4 as int, b2 as int) == k2 + B1 * d4
    ensures c1 + Prod(a0 as int, b1 as int) + Prod(a1 as int, b0 as int) + k2 * 0x1000003D10 == r1 as int + B1 * c2
    ensures d4 + Prod(a3 as int, b4 as int) + Prod(a4 as int, b3 as int) == k3 + B1 * d5
    ensures c2 + Prod(a0 as int, b2 as int) + Prod(a1 as int, b1 as int) + Prod(a2 as int, b0 as int) + k3 * 0x1000003D10
         == r2 as int + B1 * c3
    ensures c3 + d5 * 0x1000003D10 + t3 as int == r3 as int + B1 * c4 && r4 as int == c4 + t4 as int
  {
    hide Prod, Wide, Term;
    var c := Term(a0, b0);
    var u0 := u * 16 + tx;  // (u << 4) | tx, the two having no common bits
    c := c + u0 as uint128 * (R / 16);
    r0, c := Split(c);
    c1 := c as int;
    c := c + Term(a0, b1) + Term(a1, b0);
    var d := d' + Term(a2, b4) + Term(a3, b3) + Term(a4, b2);
    var low; low, d := Split(d);
    k2, d4 := low as int, d as int;
    c := c + low as uint128 * R;
    r1, c := Split(c);
    c2 := c as int;
    c := c + Term(a0, b2) + Term(a1, b1) + Term(a2, b0);
    d := d + Term(a3, b4) + Term(a4, b3);
    low, d := Split(d);
    k3, d5 := low as int, d as int;
    c := c + low as uint128 * R;
    r2, c := Split(c);
    c3 := c as int;
    c := c + d * R + t3 as uint128;
    r3, c := Split(c);
    c4 := c as int;
    c := c + t4 as uint128;
    r4 := c as uint64;
  }

  /** secp256k1_fe_mul_inner. The output may be the first operand. No accumulator leaves its type. */
  method MulInner(r: array<uint64>, a: array<uint64>, b: array<uint64>)
    requires r.Length == a.Length == b.Length == 5 && r != b
    requires Operand(a[..]) && Operand(b[..])
    modifies r
    ensures Product(r[..])
    ensures Cong(Eval(r[..]), Prod(Eval(old(a[..])), Eval(old(b[..]))), P)
  {
    hide Prod, Cong;
    var a0, a1, a2, a3, a4 := a[0], a[1], a[2], a[3], a[4];
    var b0, b1, b2, b3, b4 := b[0], b[1], b[2], b[3], b[4];
    var t3, t4, tx, u, d, k0, k1, d1, d2 := MulHigh(a0, a1, a2, a3, a4, b0, b1, b2, b3, b4);
    var r0, r1, r2, r3, r4, k2, k3, c1, c2, c3, c4, d4, d5 := MulLow(a0, a1, a2, a3, a4, b0, b1, b2, b3, b4, t3, t4, tx, u, d);
    r[0], r[1], r[2], r[3], r[4] := r0, r1, r2, r3, r4;
    ghost var k := Reduction(
      Prod(a0 as int, b0 as int),
      Prod(a0 as int, b1 as int) + Prod(a1 as int, b0 as int),
      Prod(a0 as int, b2 as int) + Prod(a1 as int, b1 as int) + Prod(a2 as int, b0 as int),
      Prod(a0 as int, b3 as int) + Prod(a1 as int, b2 as int) + Prod(a2 as int, b1 as int) + Prod(a3 as int, b0 as int),
      Prod(a0 as int, b4 as int) + Prod(a1 as int, b3 as int) + Prod(a2 as int, b2 as int) + Prod(a3 as int, b1 as int) + Prod(a4 as int, b0 as int),
      Prod(a1 as int, b4 as int) + Prod(a2 as int, b3 as int) + Prod(a3 as int, b2 as int) + Prod(a4 as int, b1 as int),
      Prod(a2 as int, b4 as int) + Prod(a3 as int, b3 as int) + Prod(a4 as int, b2 as int),
      Prod(a3 as int, b4 as int) + Prod(a4 as int, b3 as int),
      Prod(a4 as int, b4 as int),
      k0, k1, k2, k3, t3 as int, t4 as int, tx as int, u as int, d1, d2, d as int, d4, d5, c1, c2, c3, c4,
      r0 as int, r1 as int, r2 as int, r3 as int);
    Columns(a0 as int, a1 as int, a2 as int, a3 as int, a4 as int, b0 as int, b1 as int, b2 as int, b3 as int, b4 as int);
    ghost var x := Prod(Eval(old(a[..])), Eval(old(b[..])));
    CongFromDifference(x, Eval(r[..]), k, P);
    CongSymmetric(x, Eval(r[..]), P);
  }

  lemma DoubledProd(x: int, y: int)
    ensures Prod(x * 2, y) == Prod(x, y * 2) == Prod(x, y) + Prod(y, x)
  {
  }

  /** The first half: columns 3, 4, 5 and 8 folded into t3, t4, a carry d, and tx, u above bit 256. */
  method SqrHigh(a0: uint64, a1: uint64, a2: uint64, a3: uint64, a4: uint64)
    returns (t3: uint64, t4: uint64, tx: uint64, u: uint64, d: uint128, ghost k0: int, ghost k1: int, ghost d1: int, ghost d2: int)
    requires Operand([a0, a1, a2, a3, a4])
    ensures t3 < 0x10_0000_0000_0000 && t4 < 0x1_0000_0000_0000 && tx < 16 && u < 0x10_0000_0000_0000 && d < 0x1_0000_0000_0000_0000
    ensures Prod(a4 as int, a4 as int) == k0 + B1 * k1
    ensures Prod(a0 as int, a3 as int) + Prod(a1 as int, a2 as int) + Prod(a2 as int, a1 as int) + Prod(a3 as int, a0 as int) + k0 * 0x1000003D10
         == t3 as int + B1 * d1
    ensures d1 + Prod(a0 as int, a4 as int) + Prod(a1 as int, a3 as int) + Prod(a2 as int, a2 as int) + Prod(a3 as int, a1 as int) + Prod(a4 as int, a0 as int)
         + k1 * 0x1000003D10 == t4 as int + 0x1_0000_0000_0000 * tx as int + B1 * d2
    ensures d2 + Prod(a1 as int, a4 as int) + Prod(a2 as int, a3 as int) + Prod(a3 as int, a2 as int) + Prod(a4 as int, a1 as int) == u as int + B1 * d as int
  {
    hide Prod, Wide, Term;
    DoubledProd(a0 as int, a3 as int);
    DoubledProd(a1 as int, a2 as int);
    DoubledProd(a0 as int, a4 as int);
    DoubledProd(a1 as int, a3 as int);
    DoubledProd(a1 as int, a4 as int);
    DoubledProd(a2 as int, a3 as int);
    d := Term(a0 * 2, a3) + Term(a1 * 2, a2);
    var c := Term(a4, a4);
    var low; low, c := Split(c);
    k0, k1 := low as int, c as int;
    d := d + low as uint128 * R;
    t3, d := Split(d);
    d1 := d as int;
    d := d + Term(a0, a4 * 2) + Term(a1 * 2, a3) + Term(a2, a2);
    d := d + c * R;
    t4, d := Split(d);
    d2 := d as int;
    tx := t4 / 0x1_0000_0000_0000; t4 := t4 % 0x1_0000_0000_0000;
    d := d + Term(a1, a4 * 2) + Term(a2 * 2, a3);
    u, d := Split(d);
  }

  /** The second half: the remaining columns, with what the first half left over. */
  method SqrLow(a0: uint64, a1: uint64, a2: uint64, a3: uint64, a4: uint64,
                 t3: uint64, t4: uint64, tx: uint64, u: uint64, d': uint128)
    returns (r0: uint64, r1: uint64, r2: uint64, r3: uint64, r4: uint64,
             ghost k2: int, ghost k3: int, ghost c1: int, ghost c2: int, ghost c3: int, ghost c4: int, ghost d4: int, ghost d5: int)
    requires Operand([a0, a1, a2, a3, a4])
    requires t3 < 0x10_0000_0000_0000 && t4 < 0x1_0000_0000_0000 && tx < 16 && u < 0x10_0000_0000_0000 && d' < 0x1_0000_0000_0000_0000
    ensures Product([r0, r1, r2, r3, r4])
    ensures Prod(a0 as int, a0 as int) + (16 * u as int + tx as int) * 0x1000003D1 == r0 as int + B1 * c1
    ensures d' as int + Prod(a2 as int, a4 as int) + Prod(a3 as int, a3 as int) + Prod(a4 as int, a2 as int) == k2 + B1 * d4
    ensures c1 + Prod(a0 as int, a1 as int) + Prod(a1 as int, a0 as int) + k2 * 0x1000003D10 == r1 as int + B1 * c2
    ensures d4 + Prod(a3 as int, a4 as int) + Prod(a4 as int, a3 as int) == k3 + B1 * d5
    ensures c2 + Prod(a0 as int, a2 as int) + Prod(a1 as int, a1 as int) + Prod(a2 as int, a0 as int) + k3 * 0x1000003D10
         == r2 as int + B1 * c3
    ensures c3 + d5 * 0x1000003D10 + t3 as int == r3 as int + B1 * c4 && r4 as int == c4 + t4 as int
  {
    hide Prod, Wide, Term;
    DoubledProd(a0 as int, a1 as int);
    DoubledProd(a2 as int, a4 as int);
    DoubledProd(a0 as int, a2 as int);
    DoubledProd(a3 as int, a4 as int);
    var c := Term(a0, a0);
    var u0 := u * 16 + tx;  // (u << 4) | tx, the two having no common bits
    c := c + u0 as uint128 * (R / 16);
    r0, c := Split(c);
    c1 := c as int;
    c := c + Term(a0 * 2, a1);
    var d := d' + Term(a2, a4 * 2) + Term(a3, a3);
    var low; low, d := Split(d);
    k2, d4 := low as int, d as int;
    c := c + low as uint128 * R;
    r1, c := Split(c);
    c2 := c as int;
    c := c + Term(a0 * 2, a2) + Term(a1, a1);
    d := d + Term(a3, a4 * 2);
    low, d := Split(d);
    k3, d5 := low as int, d as int;
    c := c + low as uint128 * R;
    r2, c := Split(c);
    c3 := c as int;
    c := c + d * R + t3 as uint128;
    r3, c := Split(c);
    c4 := c as int;
    c := c + t4 as uint128;
    r4 := c as uint64;
  }

  /** secp256k1_fe_sqr_inner: the symmetric terms are computed once, from doubled limbs. */
  method SqrInner(r: array<uint64>, a: array<uint64>)
    requires r.Length == a.Length == 5
    requires Operand(a[..])
    modifies r
    ensures Product(r[..])
    ensures Cong(Eval(r[..]), Prod(Eval(old(a[..])), Eval(old(a[..]))), P)
  {
    hide Prod, Cong;
    var a0, a1, a2, a3, a4 := a[0], a[1], a[2], a[3], a[4];
    var t3, t4, tx, u, d, k0, k1, d1, d2 := SqrHigh(a0, a1, a2, a3, a4);
    var r0, r1, r2, r3, r4, k2, k3, c1, c2, c3, c4, d4, d5 := SqrLow(a0, a1, a2, a3, a4, t3, t4, tx, u, d);
    r[0], r[1], r[2], r[3], r[4] := r0, r1, r2, r3, r4;
    ghost var k := Reduction(
      Prod(a0 as int, a0 as int),
      Prod(a0 as int, a1 as int) + Prod(a1 as int, a0 as int),
      Prod(a0 as int, a2 as int) + Prod(a1 as int, a1 as int) + Prod(a2 as int, a0 as int),
      Prod(a0 as int, a3 as int) + Prod(a1 as int, a2 as int) + Prod(a2 as int, a1 as int) + Prod(a3 as int, a0 as int),
      Prod(a0 as int, a4 as int) + Prod(a1 as int, a3 as int) + Prod(a2 as int, a2 as int) + Prod(a3 as int, a1 as int) + Prod(a4 as int, a0 as int),
      Prod(a1 as int, a4 as int) + Prod(a2 as int, a3 as int) + Prod(a3 as int, a2 as int) + Prod(a4 as int, a1 as int),
      Prod(a2 as int, a4 as int) + Prod(a3 as int, a3 as int) + Prod(a4 as int, a2 as int),
      Prod(a3 as int, a4 as int) + Prod(a4 as int, a3 as int),
      Prod(a4 as int, a4 as int),
      k0, k1, k2, k3, t3 as int, t4 as int, tx as int, u as int, d1, d2, d as int, d4, d5, c1, c2, c3, c4,
      r0 as int, r1 as int, r2 as int, r3 as int);
    Columns(a0 as int, a1 as int, a2 as int, a3 as int, a4 as int, a0 as int, a1 as int, a2 as int, a3 as int, a4 as int);
    ghost var x := Prod(Eval(old(a[..])), Eval(old(a[..])));
    CongFromDifference(x, Eval(r[..]), k, P);
    CongSymmetric(x, Eval(r[..]), P);
  }
}
