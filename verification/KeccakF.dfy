/** Keccak-f[1600] (keccakf.go) against sections 3.2 and 3.3 of FIPS 202. A state is 25 lanes of 64 bits; lane (x, y) is
    at index x + 5 y. The code works in place and lets the lanes wander inside their columns for four rounds. */
module KeccakF {
  import opened Words

  type State = s: seq<Word> | |s| == 25 witness seq(25, i => 0)

  /** The coordinates of lane i. */
  function X(i: nat): (x: nat)
    requires i < 25
    ensures x < 5
  {
    i % 5
  }

  function Y(i: nat): (y: nat)
    requires i < 25
    ensures y < 5 && i == X(i) + 5 * y
  {
    i / 5
  }

  // ------------------------------------------------------------- the step mappings of section 3.2

  /** C[x]. */
  function Parity(s: State, x: nat): Word
    requires x < 5
  {
    Xor5(s[x], s[x + 5], s[x + 10], s[x + 15], s[x + 20])
  }

  /** D[x] = C[x - 1] + rot(C[x + 1], 1). */
  function ThetaD(s: State, x: nat): Word
    requires x < 5
  {
    Xor64(Parity(s, (x + 4) % 5), Rotl(Parity(s, (x + 1) % 5), 1))
  }

  function Theta(s: State): State {
    seq(25, i requires 0 <= i < 25 => Xor64(s[i], ThetaD(s, X(i))))
  }

  function Pick(x: nat, a: nat, b: nat, c: nat, d: nat, e: nat): nat {
    if x == 0 then a else if x == 1 then b else if x == 2 then c else if x == 3 then d else e
  }

  /** The rotation offset of lane (x, y). */
  function RhoOffset(x: nat, y: nat): (r: nat)
    ensures r < 64
  {
    if y == 0 then Pick(x, 0, 1, 62, 28, 27)
    else if y == 1 then Pick(x, 36, 44, 6, 55, 20)
    else if y == 2 then Pick(x, 3, 10, 43, 25, 39)
    else if y == 3 then Pick(x, 41, 45, 15, 21, 8)
    else Pick(x, 18, 2, 61, 56, 14)
  }

  function Rho(s: State): State {
    seq(25, i requires 0 <= i < 25 => Rotl(s[i], RhoOffset(X(i), Y(i))))
  }

  /** Lane (x, y) comes from lane (x + 3 y, x). */
  function Pi(s: State): State {
    seq(25, i requires 0 <= i < 25 => s[(X(i) + 3 * Y(i)) % 5 + 5 * X(i)])
  }

  /** Lane (x + k, y). */
  function InRow(i: nat, k: nat): (j: nat)
    requires i < 25
    ensures j < 25
  {
    (X(i) + k) % 5 + 5 * Y(i)
  }

  function Chi(s: State): State {
    seq(25, i requires 0 <= i < 25 => Xor64(s[i], AndNot(s[InRow(i, 2)], s[InRow(i, 1)])))
  }

  function Iota(s: State, rc: Word): State {
    s[0 := Xor64(s[0], rc)]
  }

  function Round(s: State, rc: Word): State {
    Iota(Chi(Pi(Rho(Theta(s)))), rc)
  }

  const RC: seq<Word> := [
    0x0000000000000001, 0x0000000000008082, 0x800000000000808A, 0x8000000080008000,
    0x000000000000808B, 0x0000000080000001, 0x8000000080008081, 0x8000000000008009,
    0x000000000000008A, 0x0000000000000088, 0x0000000080008009, 0x000000008000000A,
    0x000000008000808B, 0x800000000000008B, 0x8000000000008089, 0x8000000000008003,
    0x8000000000008002, 0x8000000000000080, 0x000000000000800A, 0x800000008000000A,
    0x8000000080008081, 0x8000000000008080, 0x0000000080000001, 0x8000000080008008
  ]

  /** The first n rounds. */
  function Rounds(s: State, n: nat): State
    requires n <= 24
  {
    if n == 0 then s else Round(Rounds(s, n - 1), RC[n - 1])
  }

  /** Keccak-f[1600] (section 3.3). */
  function Permutation(s: State): State {
    Rounds(s, 24)
  }

  // ------------------------------------------------------------- the mappings, lane by lane

  lemma LaneIndex(x: nat, y: nat)
    requires x < 5 && y < 5
    ensures x + 5 * y < 25 && X(x + 5 * y) == x && Y(x + 5 * y) == y
  {
  }

  /** Lane (x, y) after theta, rho and pi: it comes from lane (c, x) with c = x + 3 y. */
  lemma MovedLane(s: State, x: nat, y: nat)
    requires x < 5 && y < 5
    ensures var c := (x + 3 * y) % 5;
      Pi(Rho(Theta(s)))[x + 5 * y] == Rotl(Xor64(s[c + 5 * x], ThetaD(s, c)), RhoOffset(c, x))
  {
    hide Xor64, Rotl, ThetaD, RhoOffset, X, Y;
    LaneIndex(x, y);
    LaneIndex((x + 3 * y) % 5, x);
  }

  lemma ChiLane(s: State, x: nat, y: nat)
    requires x < 5 && y < 5
    ensures Chi(s)[x + 5 * y] == Xor64(s[x + 5 * y], AndNot(s[(x + 2) % 5 + 5 * y], s[(x + 1) % 5 + 5 * y]))
  {
    hide Xor64, AndNot, InRow;
    RowIndex(x, y, 1);
    RowIndex(x, y, 2);
  }

  lemma RowIndex(x: nat, y: nat, k: nat)
    requires x < 5 && y < 5
    ensures x + 5 * y < 25 && InRow(x + 5 * y, k) == (x + k) % 5 + 5 * y
  {
    hide X, Y;
    LaneIndex(x, y);
  }

  /** Two states with the same lanes are the same. */
  lemma SameLanes(s: State, t: State)
    requires forall x, y {:trigger LaneAt(s, x, y)} :: 0 <= x < 5 && 0 <= y < 5 ==> LaneAt(s, x, y) == LaneAt(t, x, y)
    ensures s == t
  {
    forall i | 0 <= i < 25
      ensures s[i] == t[i]
    {
      assert LaneAt(s, X(i), Y(i)) == LaneAt(t, X(i), Y(i));
    }
  }

  function LaneAt(s: State, x: nat, y: nat): Word
    requires x < 5 && y < 5
  {
    s[x + 5 * y]
  }

  // ------------------------------------------------------------- the mappings, bit by bit, as section 3.2 defines them

  /** A[x, y, z]. */
  function StateBit(s: State, x: nat, y: nat, z: nat): nat
    requires x < 5 && y < 5
  {
    BitOf(s[x + 5 * y], z)
  }

  /** C[x, z]. */
  function ColumnBit(s: State, x: nat, z: nat): nat
    requires x < 5
  {
    (StateBit(s, x, 0, z) + StateBit(s, x, 1, z) + StateBit(s, x, 2, z) + StateBit(s, x, 3, z) + StateBit(s, x, 4, z)) % 2
  }

  lemma Xor64Bits(a: Word, b: Word, z: nat)
    ensures BitOf(Xor64(a, b), z) == (BitOf(a, z) + BitOf(b, z)) % 2
  {
    XorBits(a, b, z);
  }

  lemma AddParity(x: nat, y: nat)
    ensures (x % 2 + y) % 2 == (x + y) % 2
  {
  }

  lemma FiveParities(a: nat, b: nat, c: nat, d: nat, e: nat)
    ensures ((((a + b) % 2 + c) % 2 + d) % 2 + e) % 2 == (a + b + c + d + e) % 2
  {
    AddParity(a + b, c);
    AddParity(a + b + c, d);
    AddParity(a + b + c + d, e);
  }

  lemma Xor5Bits(a: Word, b: Word, c: Word, d: Word, e: Word, z: nat)
    ensures BitOf(Xor5(a, b, c, d, e), z) == (BitOf(a, z) + BitOf(b, z) + BitOf(c, z) + BitOf(d, z) + BitOf(e, z)) % 2
  {
    hide BitOf, Xor64;
    Xor64Bits(a, b, z);
    Xor64Bits(Xor64(a, b), c, z);
    Xor64Bits(Xor64(Xor64(a, b), c), d, z);
    Xor64Bits(Xor64(Xor64(Xor64(a, b), c), d), e, z);
    FiveParities(BitOf(a, z), BitOf(b, z), BitOf(c, z), BitOf(d, z), BitOf(e, z));
  }

  lemma ColumnBits(s: State, x: nat, z: nat)
    requires x < 5
    ensures BitOf(Parity(s, x), z) == ColumnBit(s, x, z)
  {
    hide BitOf, Xor5;
    Xor5Bits(s[x], s[x + 5], s[x + 10], s[x + 15], s[x + 20], z);
  }

  /** D[x, z] = C[x - 1, z] + C[x + 1, z - 1]. */
  lemma ThetaDBits(s: State, x: nat, z: nat)
    requires x < 5 && z < 64
    ensures BitOf(ThetaD(s, x), z) == (ColumnBit(s, (x + 4) % 5, z) + ColumnBit(s, (x + 1) % 5, (z + 63) % 64)) % 2
  {
    hide BitOf, Parity, ColumnBit, Xor64, Rotl;
    var a, b := Parity(s, (x + 4) % 5), Parity(s, (x + 1) % 5);
    ColumnBits(s, (x + 4) % 5, z);
    ColumnBits(s, (x + 1) % 5, (z + 63) % 64);
    RotlBits(b, 1, (z + 63) % 64);
    assert ((z + 63) % 64 + 1) % 64 == z;
    Xor64Bits(a, Rotl(b, 1), z);
  }

  /** A'[x, y, z] = A[x, y, z] + D[x, z]. */
  lemma ThetaBits(s: State, x: nat, y: nat, z: nat)
    requires x < 5 && y < 5 && z < 64
    ensures StateBit(Theta(s), x, y, z)
         == (StateBit(s, x, y, z) + ColumnBit(s, (x + 4) % 5, z) + ColumnBit(s, (x + 1) % 5, (z + 63) % 64)) % 2
  {
    hide BitOf, ColumnBit, Xor64, ThetaD, X;
    LaneIndex(x, y);
    ThetaDBits(s, x, z);
    Xor64Bits(s[x + 5 * y], ThetaD(s, x), z);
  }

  /** Bit z of a lane moves up by the offset of the lane. */
  lemma RhoBits(s: State, x: nat, y: nat, z: nat)
    requires x < 5 && y < 5 && z < 64
    ensures StateBit(Rho(s), x, y, (z + RhoOffset(x, y)) % 64) == StateBit(s, x, y, z)
  {
    hide BitOf, Rotl, X, Y, RhoOffset;
    LaneIndex(x, y);
    RotlBits(s[x + 5 * y], RhoOffset(x, y), z);
  }

  /** A'[x, y, z] = A[x + 3 y, x, z]. */
  lemma PiBits(s: State, x: nat, y: nat, z: nat)
    requires x < 5 && y < 5
    ensures StateBit(Pi(s), x, y, z) == StateBit(s, (x + 3 * y) % 5, x, z)
  {
    hide BitOf, X, Y;
    LaneIndex(x, y);
  }

  /** A'[x, y, z] = A[x, y, z] + (A[x + 1, y, z] + 1) A[x + 2, y, z]. */
  lemma ChiBits(s: State, x: nat, y: nat, z: nat)
    requires x < 5 && y < 5 && z < 64
    ensures StateBit(Chi(s), x, y, z)
         == (StateBit(s, x, y, z)
             + if StateBit(s, (x + 1) % 5, y, z) == 0 && StateBit(s, (x + 2) % 5, y, z) == 1 then 1 else 0) % 2
  {
    hide Xor64, AndNot, Chi, BitOf;
    ChiLane(s, x, y);
    var b, c := s[(x + 1) % 5 + 5 * y], s[(x + 2) % 5 + 5 * y];
    AndNotBits(c, b, z);
    Xor64Bits(s[x + 5 * y], AndNot(c, b), z);
  }

  /** Only lane (0, 0) takes the round constant. */
  lemma IotaBits(s: State, rc: Word, x: nat, y: nat, z: nat)
    requires x < 5 && y < 5
    ensures StateBit(Iota(s, rc), x, y, z)
         == (StateBit(s, x, y, z) + if x == 0 && y == 0 then BitOf(rc, z) else 0) % 2
  {
    hide Xor64, BitOf;
    Xor64Bits(s[0], rc, z);
  }

  // ------------------------------------------------------------- the rotation offsets, from their definition

  /** Step t of the walk over the lanes that defines rho: (x, y) moves to (y, 2 x + 3 y). */
  function RhoWalk(t: nat): (p: (nat, nat))
    ensures p.0 < 5 && p.1 < 5
  {
    if t == 0 then (1, 0) else (RhoWalk(t - 1).1, (2 * RhoWalk(t - 1).0 + 3 * RhoWalk(t - 1).1) % 5)
  }

  lemma WalkFrom(t: nat, x: nat, y: nat)
    requires RhoWalk(t) == (x, y)
    ensures RhoWalk(t + 1) == (y, (2 * x + 3 * y) % 5)
  {
  }

  function Triangular(t: nat): nat {
    if t == 0 then 1 else Triangular(t - 1) + t + 1
  }

  lemma TriangularStep(t: nat, n: nat)
    requires Triangular(t) == n
    ensures Triangular(t + 1) == n + t + 2
  {
  }

  lemma {:induction false} TriangularFormula(t: nat)
    ensures 2 * Triangular(t) == (t + 1) * (t + 2)
  {
    if t > 0 { TriangularFormula(t - 1); }
  }

  /** Step t rotates by the triangular number (t + 1)(t + 2) / 2. */
  lemma RhoOffsetsAreTriangular(t: nat)
    requires t < 24
    ensures RhoOffset(RhoWalk(t).0, RhoWalk(t).1) == Triangular(t) % 64
  {
    hide RhoWalk, Triangular;
    WalkStarts();
    WalkFrom(0, 1, 0); TriangularStep(0, 1); WalkFrom(1, 0, 2); TriangularStep(1, 3);
    WalkFrom(2, 2, 1); TriangularStep(2, 6); WalkFrom(3, 1, 2); TriangularStep(3, 10);
    WalkFrom(4, 2, 3); TriangularStep(4, 15); WalkFrom(5, 3, 3); TriangularStep(5, 21);
    WalkFrom(6, 3, 0); TriangularStep(6, 28); WalkFrom(7, 0, 1); TriangularStep(7, 36);
    WalkFrom(8, 1, 3); TriangularStep(8, 45); WalkFrom(9, 3, 1); TriangularStep(9, 55);
    WalkFrom(10, 1, 4); TriangularStep(10, 66); WalkFrom(11, 4, 4); TriangularStep(11, 78);
    WalkFrom(12, 4, 0); TriangularStep(12, 91); WalkFrom(13, 0, 3); TriangularStep(13, 105);
    WalkFrom(14, 3, 4); TriangularStep(14, 120); WalkFrom(15, 4, 3); TriangularStep(15, 136);
    WalkFrom(16, 3, 2); TriangularStep(16, 153); WalkFrom(17, 2, 2); TriangularStep(17, 171);
    WalkFrom(18, 2, 0); TriangularStep(18, 190); WalkFrom(19, 0, 4); TriangularStep(19, 210);
    WalkFrom(20, 4, 2); TriangularStep(20, 231); WalkFrom(21, 2, 4); TriangularStep(21, 253);
    WalkFrom(22, 4, 1); TriangularStep(22, 276);
    if t == 0 {} else if t == 1 {} else if t == 2 {} else if t == 3 {} else if t == 4 {} else if t == 5 {}
    else if t == 6 {} else if t == 7 {} else if t == 8 {} else if t == 9 {} else if t == 10 {} else if t == 11 {}
    else if t == 12 {} else if t == 13 {} else if t == 14 {} else if t == 15 {} else if t == 16 {} else if t == 17 {}
    else if t == 18 {} else if t == 19 {} else if t == 20 {} else if t == 21 {} else if t == 22 {} else if t == 23 {}
  }

  lemma WalkStarts()
    ensures RhoWalk(0) == (1, 0) && Triangular(0) == 1
  {
  }

  // ------------------------------------------------------------- the round constants, from their definition

  /** The feedback shift register of algorithm 5. */
  datatype Lfsr = Lfsr(b0: bool, b1: bool, b2: bool, b3: bool, b4: bool, b5: bool, b6: bool, b7: bool)

  function LfsrStep(r: Lfsr): Lfsr {
    Lfsr(r.b7, r.b0, r.b1, r.b2, r.b3 != r.b7, r.b4 != r.b7, r.b5 != r.b7, r.b6)
  }

  function LfsrAt(t: nat): Lfsr {
    if t == 0 then Lfsr(true, false, false, false, false, false, false, false) else LfsrStep(LfsrAt(t - 1))
  }

  function Bit(b: bool, w: nat): nat {
    if b then w else 0
  }

  /** Bit 2^j - 1 of constant n is the output of the register at step j + 7 n. */
  function RoundConstant(n: nat): nat {
    Bit(LfsrAt(7 * n).b0, 0x1) + Bit(LfsrAt(7 * n + 1).b0, 0x2) + Bit(LfsrAt(7 * n + 2).b0, 0x8)
    + Bit(LfsrAt(7 * n + 3).b0, 0x80) + Bit(LfsrAt(7 * n + 4).b0, 0x8000) + Bit(LfsrAt(7 * n + 5).b0, 0x8000_0000)
    + Bit(LfsrAt(7 * n + 6).b0, 0x8000_0000_0000_0000)
  }

  lemma SevenSteps(n: nat, r: Lfsr, r': Lfsr, rc: nat)
    requires LfsrAt(7 * n) == r
    requires var r1 := LfsrStep(r); var r2 := LfsrStep(r1); var r3 := LfsrStep(r2); var r4 := LfsrStep(r3);
      var r5 := LfsrStep(r4); var r6 := LfsrStep(r5);
      r' == LfsrStep(r6)
      && rc == Bit(r.b0, 0x1) + Bit(r1.b0, 0x2) + Bit(r2.b0, 0x8) + Bit(r3.b0, 0x80) + Bit(r4.b0, 0x8000)
               + Bit(r5.b0, 0x8000_0000) + Bit(r6.b0, 0x8000_0000_0000_0000)
    ensures LfsrAt(7 * (n + 1)) == r' && RoundConstant(n) == rc
  {
    hide LfsrStep;
    NextStep(7 * n); NextStep(7 * n + 1); NextStep(7 * n + 2); NextStep(7 * n + 3); NextStep(7 * n + 4); NextStep(7 * n + 5);
    NextStep(7 * n + 6);
  }

  lemma NextStep(t: nat)
    ensures LfsrAt(t + 1) == LfsrStep(LfsrAt(t))
  {
  }

  /** The constants from the n-th one on. */
  ghost predicate Constants(n: nat, rcs: seq<nat>) {
    forall i :: 0 <= i < |rcs| ==> RoundConstant(n + i) == rcs[i]
  }

  /** From one state of the register on, the next six constants; four times. */
  lemma RoundConstants1(n: nat)
    requires LfsrAt(7 * n) == Lfsr(true, false, false, false, false, false, false, false)
    ensures LfsrAt(7 * (n + 6)) == Lfsr(true, false, true, false, true, true, false, false)
    ensures Constants(n, RC[0..6])
  {
    hide LfsrAt, RoundConstant;
    SevenSteps(n, Lfsr(true, false, false, false, false, false, false, false),
               Lfsr(false, false, false, false, false, false, false, true), 0x0000000000000001);
    SevenSteps(n + 1, Lfsr(false, false, false, false, false, false, false, true),
               Lfsr(false, false, false, true, true, false, true, true), 0x0000000000008082);
    SevenSteps(n + 2, Lfsr(false, false, false, true, true, false, true, true),
               Lfsr(false, true, false, true, true, false, false, false), 0x800000000000808A);
    SevenSteps(n + 3, Lfsr(false, true, false, true, true, false, false, false),
               Lfsr(true, true, true, true, true, false, true, true), 0x8000000080008000);
    SevenSteps(n + 4, Lfsr(true, true, true, true, true, false, true, true),
               Lfsr(true, false, false, true, false, false, false, false), 0x000000000000808B);
    SevenSteps(n + 5, Lfsr(true, false, false, true, false, false, false, false),
               Lfsr(true, false, true, false, true, true, false, false), 0x0000000080000001);
  }

  lemma RoundConstants2(n: nat)
    requires LfsrAt(7 * n) == Lfsr(true, false, true, false, true, true, false, false)
    ensures LfsrAt(7 * (n + 6)) == Lfsr(true, false, true, false, true, false, true, true)
    ensures Constants(n, RC[6..12])
  {
    hide LfsrAt, RoundConstant;
    SevenSteps(n, Lfsr(true, false, true, false, true, true, false, false),
               Lfsr(true, true, true, true, false, false, true, false), 0x8000000080008081);
    SevenSteps(n + 1, Lfsr(true, true, true, true, false, false, true, false),
               Lfsr(false, true, false, true, false, false, true, true), 0x8000000000008009);
    SevenSteps(n + 2, Lfsr(false, true, false, true, false, false, true, true),
               Lfsr(false, false, false, false, true, true, true, false), 0x000000000000008A);
    SevenSteps(n + 3, Lfsr(false, false, false, false, true, true, true, false),
               Lfsr(true, false, false, false, false, false, true, false), 0x0000000000000088);
    SevenSteps(n + 4, Lfsr(true, false, false, false, false, false, true, false),
               Lfsr(false, false, true, true, false, true, true, true), 0x0000000080008009);
    SevenSteps(n + 5, Lfsr(false, false, true, true, false, true, true, true),
               Lfsr(true, false, true, false, true, false, true, true), 0x000000008000000A);
  }

  lemma RoundConstants3(n: nat)
    requires LfsrAt(7 * n) == Lfsr(true, false, true, false, true, false, true, true)
    ensures LfsrAt(7 * (n + 6)) == Lfsr(false, true, false, false, true, true, true, true)
    ensures Constants(n, RC[12..18])
  {
    hide LfsrAt, RoundConstant;
    SevenSteps(n, Lfsr(true, false, true, false, true, false, true, true),
               Lfsr(true, false, true, true, false, false, true, true), 0x000000008000808B);
    SevenSteps(n + 1, Lfsr(true, false, true, true, false, false, true, true),
               Lfsr(true, true, false, false, false, true, true, false), 0x800000000000008B);
    SevenSteps(n + 2, Lfsr(true, true, false, false, false, true, true, false),
               Lfsr(true, true, false, true, false, true, false, true), 0x8000000000008089);
    SevenSteps(n + 3, Lfsr(true, true, false, true, false, true, false, true),
               Lfsr(false, true, false, true, false, true, false, true), 0x8000000000008003);
    SevenSteps(n + 4, Lfsr(false, true, false, true, false, true, false, true),
               Lfsr(false, true, false, true, false, true, false, false), 0x8000000000008002);
    SevenSteps(n + 5, Lfsr(false, true, false, true, false, true, false, false),
               Lfsr(false, true, false, false, true, true, true, true), 0x8000000000000080);
  }

  lemma RoundConstants4(n: nat)
    requires LfsrAt(7 * n) == Lfsr(false, true, false, false, true, true, true, true)
    ensures LfsrAt(7 * (n + 6)) == Lfsr(false, true, true, true, false, false, false, true)
    ensures Constants(n, RC[18..24])
  {
    hide LfsrAt, RoundConstant;
    SevenSteps(n, Lfsr(false, true, false, false, true, true, true, true),
               Lfsr(false, false, false, true, false, true, true, true), 0x000000000000800A);
    SevenSteps(n + 1, Lfsr(false, false, false, true, false, true, true, true),
               Lfsr(true, true, true, false, true, true, false, false), 0x800000008000000A);
    SevenSteps(n + 2, Lfsr(true, true, true, false, true, true, false, false),
               Lfsr(false, true, true, true, true, true, false, false), 0x8000000080008081);
    SevenSteps(n + 3, Lfsr(false, true, true, true, true, true, false, false),
               Lfsr(true, true, false, true, false, false, false, false), 0x8000000000008080);
    SevenSteps(n + 4, Lfsr(true, true, false, true, false, false, false, false),
               Lfsr(false, false, true, false, false, false, true, false), 0x0000000080000001);
    SevenSteps(n + 5, Lfsr(false, false, true, false, false, false, true, false),
               Lfsr(false, true, true, true, false, false, false, true), 0x8000000080008008);
  }

  lemma RegisterStarts()
    ensures LfsrAt(0) == Lfsr(true, false, false, false, false, false, false, false)
  {
  }

  /** The table holds the constants that section 3.2.5 defines. */
  lemma RoundConstantsAreDefined(n: nat)
    requires n < 24
    ensures RC[n] == RoundConstant(n)
  {
    hide LfsrAt, RoundConstant, Constants;
    RegisterStarts();
    RoundConstants1(0); RoundConstants2(6); RoundConstants3(12); RoundConstants4(18);
    var k := n / 6 * 6;
    assert k == 0 || k == 6 || k == 12 || k == 18;
    ConstantAmong(k, RC[k..k + 6], n - k);
  }

  lemma ConstantAmong(n: nat, rcs: seq<nat>, i: nat)
    requires Constants(n, rcs) && i < |rcs|
    ensures RoundConstant(n + i) == rcs[i]
  {
  }

  // ------------------------------------------------------------- where the lanes are

  /** Before round k of a group, lane (x, y) is in row (2^k - 1) x + 2^k y of its column. */
  function Row(k: nat, x: nat, y: nat): (r: nat)
    ensures y < 5 ==> r < 5
  {
    if k == 0 || k == 4 then y
    else if k == 1 then (x + 2 * y) % 5
    else if k == 2 then (3 * x + 4 * y) % 5
    else (2 * x + 3 * y) % 5
  }

  /** The coefficients are 2^k - 1 and 2^k modulo 5: they double, and after four rounds every lane is back. */
  lemma RowsDouble(k: nat, x: nat, y: nat)
    requires k < 4 && x < 5 && y < 5
    ensures Row(k + 1, x, y) == Row(k, x, (x + 2 * y) % 5)
  {
    if k == 1 { FromRound1(x, y); } else if k == 2 { FromRound2(x, y); } else if k == 3 { FromRound3(x, y); }
  }

  lemma FromRound1(x: nat, y: nat)
    ensures (x + 2 * ((x + 2 * y) % 5)) % 5 == (3 * x + 4 * y) % 5
  {
    InnerModulo(x, 2, x + 2 * y);
  }

  lemma FromRound2(x: nat, y: nat)
    ensures (3 * x + 4 * ((x + 2 * y) % 5)) % 5 == (2 * x + 3 * y) % 5
  {
    InnerModulo(3 * x, 4, x + 2 * y);
    MinusMultiple(7 * x + 8 * y, x + y);
  }

  lemma FromRound3(x: nat, y: nat)
    requires y < 5
    ensures (2 * x + 3 * ((x + 2 * y) % 5)) % 5 == y
  {
    InnerModulo(2 * x, 3, x + 2 * y);
    MinusMultiple(5 * x + 6 * y, x + y);
  }

  lemma InnerModulo(a: int, f: int, u: int)
    ensures (a + f * (u % 5)) % 5 == (a + f * u) % 5
  {
    var q := u / 5;
    assert u == 5 * q + u % 5;
    assert f * u == 5 * (f * q) + f * (u % 5);
    MinusMultiple(a + f * u, f * q);
  }

  lemma MinusMultiple(u: int, v: int)
    ensures (u - 5 * v) % 5 == u % 5
  {
  }

  /** The state that the array holds, lane by lane. */
  function Arrange(k: nat, s: State): State {
    seq(25, i requires 0 <= i < 25 => s[X(i) + 5 * Row(k, X(i), Y(i))])
  }

  lemma ArrangedLane(k: nat, s: State, x: nat, y: nat)
    requires x < 5 && y < 5
    ensures Arrange(k, s)[x + 5 * y] == s[x + 5 * Row(k, x, y)]
  {
    hide Row, X, Y;
    LaneIndex(x, y);
  }

  lemma FourRoundsReturn(s: State)
    ensures Arrange(4, s) == s && Arrange(0, s) == s
  {
    forall i | 0 <= i < 25
      ensures Arrange(4, s)[i] == s[i] && Arrange(0, s)[i] == s[i]
    {
    }
  }

  /** No two lanes of a column are in the same place. */
  lemma RowIsInjective(k: nat, x: nat, y: nat, z: nat)
    requires k <= 4 && x < 5 && y < 5 && z < 5 && Row(k, x, y) == Row(k, x, z)
    ensures y == z
  {
    if k == 0 || k == 4 {
    } else if k == 1 {
      SameMultiple(2, x, y, z);
    } else if k == 2 {
      SameMultiple(4, 3 * x, y, z);
    } else {
      SameMultiple(3, 2 * x, y, z);
    }
  }

  lemma SameMultiple(f: nat, c: nat, y: nat, z: nat)
    requires f == 2 || f == 3 || f == 4
    requires y < 5 && z < 5 && (c + f * y) % 5 == (c + f * z) % 5
    ensures y == z
  {
    var q := (c + f * y) / 5 - (c + f * z) / 5;
    assert f * y - f * z == 5 * q;
    if f == 2 {
      assert 2 * (y - z) == 5 * q;
    } else if f == 3 {
      assert 3 * (y - z) == 5 * q;
    } else {
      assert 4 * (y - z) == 5 * q;
    }
  }

  /** A plane is overwritten where it is read: lane (c, x) of this state, from which lane (x, y) of the next one is made,
      is in the place that lane (c, y) of the next one takes. */
  lemma PlaneIsReadInPlace(k: nat, x: nat, y: nat)
    requires k < 4 && x < 5 && y < 5
    ensures var c := (x + 3 * y) % 5; Row(k, c, x) == Row(k + 1, c, y)
  {
    var c := (x + 3 * y) % 5;
    SourceOfSource(x, y);
    RowsDouble(k, c, y);
  }

  lemma SourceOfSource(x: nat, y: nat)
    requires x < 5 && y < 5
    ensures ((x + 3 * y) % 5 + 2 * y) % 5 == x
  {
  }

  // ------------------------------------------------------------- parities do not depend on the arrangement

  lemma ColumnOrders(a: Word, b: Word, c: Word, d: Word, e: Word)
    ensures var p := Xor5(a, b, c, d, e);
      p == Xor5(b, c, d, e, a) == Xor5(c, d, e, a, b) == Xor5(d, e, a, b, c) == Xor5(e, a, b, c, d)
  {
    hide Xor5;
    Xor5Rotate(a, b, c, d, e);
    Xor5Rotate(b, c, d, e, a);
    Xor5Rotate(c, d, e, a, b);
    Xor5Rotate(d, e, a, b, c);
  }

  lemma AllOrders(a: Word, b: Word, c: Word, d: Word, e: Word)
    ensures Xor5(a, b, c, d, e) == Xor5(a, c, e, b, d) == Xor5(a, e, d, c, b) == Xor5(a, d, b, e, c)
  {
    hide Xor5;
    Xor5Alternate(a, b, c, d, e);
    Xor5Alternate(a, c, e, b, d);
    Xor5Alternate(a, e, d, c, b);
  }

  lemma ParityOfPlaces(k: nat, s: State, x: nat)
    requires k < 4 && x < 5
    ensures Parity(Arrange(k, s), x) == Xor5(s[x + 5 * Row(k, x, 0)], s[x + 5 * Row(k, x, 1)], s[x + 5 * Row(k, x, 2)],
                                             s[x + 5 * Row(k, x, 3)], s[x + 5 * Row(k, x, 4)])
  {
    hide Xor5, Arrange, Row;
    ArrangedLane(k, s, x, 0); ArrangedLane(k, s, x, 1); ArrangedLane(k, s, x, 2); ArrangedLane(k, s, x, 3); ArrangedLane(k, s, x, 4);
  }

  lemma ParityArranged(k: nat, s: State, x: nat)
    requires k < 4 && x < 5
    ensures Parity(Arrange(k, s), x) == Parity(s, x)
  {
    if k == 0 { ParityArranged0(s, x); } else if k == 1 { ParityArranged1(s, x); }
    else if k == 2 { ParityArranged2(s, x); } else { ParityArranged3(s, x); }
  }

  lemma ParityArranged0(s: State, x: nat)
    requires x < 5
    ensures Parity(Arrange(0, s), x) == Parity(s, x)
  {
    hide Xor5, Arrange, Row, Parity;
    ParityOfPlaces(0, s, x);
    RowsAtStart(x);
    StepsOfOne(s, x);
  }

  lemma ParityArranged1(s: State, x: nat)
    requires x < 5
    ensures Parity(Arrange(1, s), x) == Parity(s, x)
  {
    hide Xor5, Arrange, Row, Parity;
    ParityOfPlaces(1, s, x);
    ColumnRows(1, x);
    StepsOfTwo(s, x, Row(1, x, 0), Row(1, x, 1), Row(1, x, 2), Row(1, x, 3), Row(1, x, 4));
  }

  lemma ParityArranged2(s: State, x: nat)
    requires x < 5
    ensures Parity(Arrange(2, s), x) == Parity(s, x)
  {
    hide Xor5, Arrange, Row, Parity;
    ParityOfPlaces(2, s, x);
    ColumnRows(2, x);
    StepsOfFour(s, x, Row(2, x, 0), Row(2, x, 1), Row(2, x, 2), Row(2, x, 3), Row(2, x, 4));
  }

  lemma ParityArranged3(s: State, x: nat)
    requires x < 5
    ensures Parity(Arrange(3, s), x) == Parity(s, x)
  {
    hide Xor5, Arrange, Row, Parity;
    ParityOfPlaces(3, s, x);
    ColumnRows(3, x);
    StepsOfThree(s, x, Row(3, x, 0), Row(3, x, 1), Row(3, x, 2), Row(3, x, 3), Row(3, x, 4));
  }

  lemma StepsOfOne(s: State, x: nat)
    requires x < 5
    ensures Xor5(s[x], s[x + 5], s[x + 10], s[x + 15], s[x + 20]) == Parity(s, x)
  {
  }

  lemma StepsOfTwo(s: State, x: nat, r: nat, r1: nat, r2: nat, r3: nat, r4: nat)
    requires x < 5 && r < 5 && r1 == (r + 2) % 5 && r2 == (r + 4) % 5 && r3 == (r + 6) % 5 && r4 == (r + 8) % 5
    ensures Xor5(s[x + 5 * r], s[x + 5 * r1], s[x + 5 * r2], s[x + 5 * r3], s[x + 5 * r4]) == Parity(s, x)
  {
    hide Xor5;
    var a, b, c, d, e := s[x], s[x + 5], s[x + 10], s[x + 15], s[x + 20];
    AllOrders(a, b, c, d, e);
    ColumnOrders(a, c, e, b, d);
    if r == 0 {} else if r == 1 {} else if r == 2 {} else if r == 3 {} else {}
  }

  lemma StepsOfThree(s: State, x: nat, r: nat, r1: nat, r2: nat, r3: nat, r4: nat)
    requires x < 5 && r < 5 && r1 == (r + 3) % 5 && r2 == (r + 6) % 5 && r3 == (r + 9) % 5 && r4 == (r + 12) % 5
    ensures Xor5(s[x + 5 * r], s[x + 5 * r1], s[x + 5 * r2], s[x + 5 * r3], s[x + 5 * r4]) == Parity(s, x)
  {
    hide Xor5;
    var a, b, c, d, e := s[x], s[x + 5], s[x + 10], s[x + 15], s[x + 20];
    AllOrders(a, b, c, d, e);
    ColumnOrders(a, d, b, e, c);
    if r == 0 {} else if r == 1 {} else if r == 2 {} else if r == 3 {} else {}
  }

  lemma RowsAtStart(x: nat)
    ensures Row(0, x, 0) == 0 && Row(0, x, 1) == 1 && Row(0, x, 2) == 2 && Row(0, x, 3) == 3 && Row(0, x, 4) == 4
  {
  }

  lemma StepsOfFour(s: State, x: nat, r: nat, r1: nat, r2: nat, r3: nat, r4: nat)
    requires x < 5 && r < 5 && r1 == (r + 4) % 5 && r2 == (r + 8) % 5 && r3 == (r + 12) % 5 && r4 == (r + 16) % 5
    ensures Xor5(s[x + 5 * r], s[x + 5 * r1], s[x + 5 * r2], s[x + 5 * r3], s[x + 5 * r4]) == Parity(s, x)
  {
    hide Xor5;
    var a, b, c, d, e := s[x], s[x + 5], s[x + 10], s[x + 15], s[x + 20];
    AllOrders(a, b, c, d, e);
    ColumnOrders(a, e, d, c, b);
    if r == 0 {} else if r == 1 {} else if r == 2 {} else if r == 3 {} else {}
  }

  /** The rows of a column run through 0 to 4 in equal steps, from some start. */
  predicate RowsAre(k: nat, x: nat, a: nat, b: nat, c: nat, d: nat) {
    var r := Row(k, x, 0);
    Row(k, x, 1) == (r + a) % 5 && Row(k, x, 2) == (r + b) % 5 && Row(k, x, 3) == (r + c) % 5 && Row(k, x, 4) == (r + d) % 5
  }

  lemma ColumnRows(k: nat, x: nat)
    requires k < 4 && x < 5
    ensures Row(k, x, 0) < 5
    ensures k == 1 ==> RowsAre(k, x, 2, 4, 6, 8)
    ensures k == 2 ==> RowsAre(k, x, 4, 8, 12, 16)
    ensures k == 3 ==> RowsAre(k, x, 3, 6, 9, 12)
  {
    var c := if k == 0 then 0 else if k == 1 then x else if k == 2 then 3 * x else 2 * x;
    if k != 0 {
      var f := if k == 1 then 2 else if k == 2 then 4 else 3;
      MinusMultiple(c + f, c / 5); MinusMultiple(c + 2 * f, c / 5); MinusMultiple(c + 3 * f, c / 5); MinusMultiple(c + 4 * f, c / 5);
    }
  }

  // ------------------------------------------------------------- the code

  method Differences(a: array<Word>) returns (d: seq<Word>)
    requires a.Length == 25
    ensures |d| == 5 && forall x :: 0 <= x < 5 ==> d[x] == ThetaD(a[..], x)
  {
    hide Xor64, Rotl, Xor5;
    var bc0 := Xor5(a[0], a[5], a[10], a[15], a[20]);
    var bc1 := Xor5(a[1], a[6], a[11], a[16], a[21]);
    var bc2 := Xor5(a[2], a[7], a[12], a[17], a[22]);
    var bc3 := Xor5(a[3], a[8], a[13], a[18], a[23]);
    var bc4 := Xor5(a[4], a[9], a[14], a[19], a[24]);
    var d0 := Xor64(bc4, Rotl(bc1, 1));
    var d1 := Xor64(bc0, Rotl(bc2, 1));
    var d2 := Xor64(bc1, Rotl(bc3, 1));
    var d3 := Xor64(bc2, Rotl(bc4, 1));
    var d4 := Xor64(bc3, Rotl(bc0, 1));
    d := [d0, d1, d2, d3, d4];
  }

  /** One number for each column. */
  datatype Five = Five(c0: nat, c1: nat, c2: nat, c3: nat, c4: nat) {
    function At(c: nat): nat {
      if c == 0 then c0 else if c == 1 then c1 else if c == 2 then c2 else if c == 3 then c3 else c4
    }
  }

  /** Lane (x, y) after theta, rho and pi, found where the plane is. */
  function Moved(k: nat, s: State, x: nat, y: nat): Word
    requires y < 5 && x < 5
  {
    var c := (x + 3 * y) % 5;
    Rotl(Xor64(s[c + 5 * Row(k + 1, c, y)], ThetaD(s, c)), RhoOffset(c, x))
  }

  /** That is what the step mappings say. */
  lemma MovedIsSpecified(k: nat, s: State, x: nat, y: nat)
    requires k < 4 && y < 5 && x < 5
    ensures Moved(k, s, x, y) == Pi(Rho(Theta(Arrange(k, s))))[x + 5 * y]
  {
    hide Xor64, Rotl, Xor5, Parity, Pi, Rho, Theta, Row, RhoOffset, Arrange;
    var c := (x + 3 * y) % 5;
    PlaneIsReadInPlace(k, x, y);
    MovedLane(Arrange(k, s), x, y);
    ArrangedLane(k, s, c, x);
    ParityArranged(k, s, (c + 4) % 5);
    ParityArranged(k, s, (c + 1) % 5);
  }

  /** Lane (x, y) of the next state, before iota. */
  function Target(k: nat, s: State, x: nat, y: nat): Word
    requires x < 5 && y < 5
  {
    Xor64(Moved(k, s, x, y), AndNot(Moved(k, s, (x + 2) % 5, y), Moved(k, s, (x + 1) % 5, y)))
  }

  lemma TargetIsSpecified(k: nat, s: State, x: nat, y: nat)
    requires k < 4 && y < 5 && x < 5
    ensures Target(k, s, x, y) == Chi(Pi(Rho(Theta(Arrange(k, s)))))[x + 5 * y]
  {
    hide Xor64, AndNot, Moved, Pi, Rho, Theta, Chi, Arrange;
    MovedIsSpecified(k, s, x, y);
    MovedIsSpecified(k, s, (x + 1) % 5, y);
    MovedIsSpecified(k, s, (x + 2) % 5, y);
    ChiLane(Pi(Rho(Theta(Arrange(k, s)))), x, y);
  }

  /** The planes below n have been replaced, each lane in its place for the next round; the others are untouched. */
  ghost predicate Progress(k: nat, s: State, t: State, n: nat) {
    forall x, y {:trigger Row(k + 1, x, y)} :: 0 <= x < 5 && 0 <= y < 5 ==>
      t[x + 5 * Row(k + 1, x, y)] == if y < n then Target(k, s, x, y) else s[x + 5 * Row(k + 1, x, y)]
  }

  /** The literal positions and rotations of one block of the code: those of plane y in round k. */
  ghost predicate Block(k: nat, y: nat, p: Five, r: Five, shift: nat) {
    y < 5 && shift == (2 * y) % 5
    && p.c0 == 5 * Row(k + 1, 0, y) && p.c1 == 1 + 5 * Row(k + 1, 1, y) && p.c2 == 2 + 5 * Row(k + 1, 2, y)
    && p.c3 == 3 + 5 * Row(k + 1, 3, y) && p.c4 == 4 + 5 * Row(k + 1, 4, y)
    && r.c0 == RhoOffset(0, shift) && r.c1 == RhoOffset(1, (1 + shift) % 5) && r.c2 == RhoOffset(2, (2 + shift) % 5)
    && r.c3 == RhoOffset(3, (3 + shift) % 5) && r.c4 == RhoOffset(4, (4 + shift) % 5)
  }

  /** What lane x of the output row is made of. */
  function Rotated(a: seq<Word>, p: Five, d: seq<Word>, r: Five, shift: nat, x: nat): Word
    requires |a| == 25 && |d| == 5 && x < 5 && shift < 5
    requires forall c :: 0 <= c < 5 ==> p.At(c) < 25 && r.At(c) < 64
  {
    var c := (x + 5 - shift) % 5;
    Rotl(Xor64(a[p.At(c)], d[c]), r.At(c))
  }

  /** One block of the code: five lanes, one in each column, are read, rotated and combined in place. */
  method Plane(a: array<Word>, p: Five, d: seq<Word>, r: Five, shift: nat, ghost k: nat, ghost s: State, ghost y: nat)
    requires a.Length == 25 && k < 4 && Block(k, y, p, r, shift) && Progress(k, s, a[..], y)
    requires |d| == 5 && forall x :: 0 <= x < 5 ==> d[x] == ThetaD(s, x)
    modifies a
    ensures Progress(k, s, a[..], y + 1)
  {
    hide Xor64, Rotl, AndNot, Progress, Block, Moved, Row, ThetaD, Rotated;
    ghost var before := a[..];
    BlockBounds(k, y, p, r, shift);
    var bc0 := Rotated(a[..], p, d, r, shift, 0);
    var bc1 := Rotated(a[..], p, d, r, shift, 1);
    var bc2 := Rotated(a[..], p, d, r, shift, 2);
    var bc3 := Rotated(a[..], p, d, r, shift, 3);
    var bc4 := Rotated(a[..], p, d, r, shift, 4);
    RotatedIsMoved(k, s, before, y, p, d, r, shift, 0); RotatedIsMoved(k, s, before, y, p, d, r, shift, 1);
    RotatedIsMoved(k, s, before, y, p, d, r, shift, 2); RotatedIsMoved(k, s, before, y, p, d, r, shift, 3);
    RotatedIsMoved(k, s, before, y, p, d, r, shift, 4);
    a[p.c0] := Xor64(bc0, AndNot(bc2, bc1));
    a[p.c1] := Xor64(bc1, AndNot(bc3, bc2));
    a[p.c2] := Xor64(bc2, AndNot(bc4, bc3));
    a[p.c3] := Xor64(bc3, AndNot(bc0, bc4));
    a[p.c4] := Xor64(bc4, AndNot(bc1, bc0));
    PlaneDone(k, s, before, a[..], y, p, r, shift);
  }

  lemma BlockBounds(k: nat, y: nat, p: Five, r: Five, shift: nat)
    requires Block(k, y, p, r, shift)
    ensures y < 5 && shift < 5 && forall c :: 0 <= c < 5 ==> p.At(c) < 25 && r.At(c) < 64
    ensures p.c0 < 25 && p.c1 < 25 && p.c2 < 25 && p.c3 < 25 && p.c4 < 25
    ensures p.c0 != p.c1 && p.c0 != p.c2 && p.c0 != p.c3 && p.c0 != p.c4 && p.c1 != p.c2 && p.c1 != p.c3 && p.c1 != p.c4
    ensures p.c2 != p.c3 && p.c2 != p.c4 && p.c3 != p.c4
  {
    hide Row, RhoOffset;
  }

  lemma RotatedIsMoved(k: nat, s: State, t: State, y: nat, p: Five, d: seq<Word>, r: Five, shift: nat, x: nat)
    requires x < 5 && Block(k, y, p, r, shift) && Progress(k, s, t, y)
    requires |d| == 5 && forall c :: 0 <= c < 5 ==> d[c] == ThetaD(s, c)
    requires forall c :: 0 <= c < 5 ==> p.At(c) < 25 && r.At(c) < 64
    ensures Rotated(t, p, d, r, shift, x) == Moved(k, s, x, y)
  {
    hide Rotl, Xor64, ThetaD, Row, RhoOffset, Target, Block, Five.At;
    var c := (x + 5 - shift) % 5;
    BlockAt(k, y, p, r, shift, c);
    ColumnOfShift(x, y, shift);
    assert t[c + 5 * Row(k + 1, c, y)] == s[c + 5 * Row(k + 1, c, y)];
  }

  lemma BlockAt(k: nat, y: nat, p: Five, r: Five, shift: nat, c: nat)
    requires Block(k, y, p, r, shift) && c < 5
    ensures y < 5 && shift == (2 * y) % 5
    ensures p.At(c) == c + 5 * Row(k + 1, c, y) && r.At(c) == RhoOffset(c, (c + shift) % 5)
  {
    hide Row, RhoOffset;
  }

  lemma ColumnOfShift(x: nat, y: nat, shift: nat)
    requires x < 5 && y < 5 && shift == (2 * y) % 5
    ensures var c := (x + 5 - shift) % 5; 0 <= c < 5 && c == (x + 3 * y) % 5 && (c + shift) % 5 == x
  {
    if y == 0 {} else if y == 1 {} else if y == 2 {} else if y == 3 {} else {}
  }

  lemma PlaneDone(k: nat, s: State, t: State, t': State, y: nat, p: Five, r: Five, shift: nat)
    requires k < 4 && Block(k, y, p, r, shift) && Progress(k, s, t, y)
    requires t'[p.c0] == Target(k, s, 0, y) && t'[p.c1] == Target(k, s, 1, y) && t'[p.c2] == Target(k, s, 2, y)
    requires t'[p.c3] == Target(k, s, 3, y) && t'[p.c4] == Target(k, s, 4, y)
    requires forall q :: 0 <= q < 25 && q != p.c0 && q != p.c1 && q != p.c2 && q != p.c3 && q != p.c4 ==> t'[q] == t[q]
    ensures Progress(k, s, t', y + 1)
  {
    hide Target, Row, Block;
    BlockAt(k, y, p, r, shift, 0); BlockAt(k, y, p, r, shift, 1); BlockAt(k, y, p, r, shift, 2);
    BlockAt(k, y, p, r, shift, 3); BlockAt(k, y, p, r, shift, 4);
    forall x, z | 0 <= x < 5 && 0 <= z < 5
      ensures t'[x + 5 * Row(k + 1, x, z)] == if z < y + 1 then Target(k, s, x, z) else s[x + 5 * Row(k + 1, x, z)]
    {
      if z != y {
        if Row(k + 1, x, z) == Row(k + 1, x, y) { RowIsInjective(k + 1, x, z, y); }
        OtherPlace(x, Row(k + 1, x, z), p, Row(k + 1, 0, y), Row(k + 1, 1, y), Row(k + 1, 2, y), Row(k + 1, 3, y), Row(k + 1, 4, y));
      } else if x == 0 {
      } else if x == 1 {
      } else if x == 2 {
      } else if x == 3 {
      }
    }
  }

  /** A place in another row of column x is none of the five. */
  lemma OtherPlace(x: nat, row: nat, p: Five, r0: nat, r1: nat, r2: nat, r3: nat, r4: nat)
    requires x < 5 && row < 5
    requires p.c0 == 5 * r0 && p.c1 == 1 + 5 * r1 && p.c2 == 2 + 5 * r2 && p.c3 == 3 + 5 * r3 && p.c4 == 4 + 5 * r4
    requires row != (if x == 0 then r0 else if x == 1 then r1 else if x == 2 then r2 else if x == 3 then r3 else r4)
    ensures var q := x + 5 * row; q != p.c0 && q != p.c1 && q != p.c2 && q != p.c3 && q != p.c4 && q < 25
  {
  }

  lemma NothingDone(k: nat, s: State)
    ensures Progress(k, s, s, 0)
  {
    hide Target, Row;
  }

  /** With all planes replaced and the round constant added, the array holds the next state, one arrangement further. */
  lemma RoundDone(k: nat, s: State, t: State, rc: Word)
    requires k < 4 && Progress(k, s, t, 5)
    ensures Arrange(k + 1, t[0 := Xor64(t[0], rc)]) == Round(Arrange(k, s), rc)
  {
    hide Xor64, Chi, Pi, Rho, Theta, Target, Arrange, Row;
    var u := t[0 := Xor64(t[0], rc)];
    assert Row(k + 1, 0, 0) == 0 by { FirstRow(k + 1); }
    var v := Round(Arrange(k, s), rc);
    var w := Arrange(k + 1, u);
    forall x, y | 0 <= x < 5 && 0 <= y < 5
      ensures LaneAt(w, x, y) == LaneAt(v, x, y)
    {
      ArrangedLane(k + 1, u, x, y);
      TargetIsSpecified(k, s, x, y);
      if x == 0 && Row(k + 1, x, y) == 0 { RowIsInjective(k + 1, 0, y, 0); }
    }
    SameLanes(w, v);
  }

  lemma FirstRow(k: nat)
    ensures Row(k, 0, 0) == 0
  {
  }

  /** Round 1 of a group of four. */
  method Round1(a: array<Word>, rc: Word)
    requires a.Length == 25
    modifies a
    ensures Arrange(1, a[..]) == Round(Arrange(0, old(a[..])), rc)
  {
    hide Xor64, Rotl, Progress, Block, ThetaD, Round, Arrange;
    ghost var s := a[..];
    var d := Differences(a);
    NothingDone(0, s);
    Block10(); Block11(); Block12(); Block13(); Block14();
    Plane(a, Five(0, 6, 12, 18, 24), d, Five(0, 44, 43, 21, 14), 0, 0, s, 0);
    Plane(a, Five(10, 16, 22, 3, 9), d, Five(3, 45, 61, 28, 20), 2, 0, s, 1);
    Plane(a, Five(20, 1, 7, 13, 19), d, Five(18, 1, 6, 25, 8), 4, 0, s, 2);
    Plane(a, Five(5, 11, 17, 23, 4), d, Five(36, 10, 15, 56, 27), 1, 0, s, 3);
    Plane(a, Five(15, 21, 2, 8, 14), d, Five(41, 2, 62, 55, 39), 3, 0, s, 4);
    ghost var t := a[..];
    a[0] := Xor64(a[0], rc);
    assert a[..] == t[0 := Xor64(t[0], rc)];
    RoundDone(0, s, t, rc);
  }

  lemma Block10()
    ensures Block(0, 0, Five(0, 6, 12, 18, 24), Five(0, 44, 43, 21, 14), 0)
  {
  }

  lemma Block11()
    ensures Block(0, 1, Five(10, 16, 22, 3, 9), Five(3, 45, 61, 28, 20), 2)
  {
  }

  lemma Block12()
    ensures Block(0, 2, Five(20, 1, 7, 13, 19), Five(18, 1, 6, 25, 8), 4)
  {
  }

  lemma Block13()
    ensures Block(0, 3, Five(5, 11, 17, 23, 4), Five(36, 10, 15, 56, 27), 1)
  {
  }

  lemma Block14()
    ensures Block(0, 4, Five(15, 21, 2, 8, 14), Five(41, 2, 62, 55, 39), 3)
  {
  }

  /** Round 2 of a group of four. */
  method Round2(a: array<Word>, rc: Word)
    requires a.Length == 25
    modifies a
    ensures Arrange(2, a[..]) == Round(Arrange(1, old(a[..])), rc)
  {
    hide Xor64, Rotl, Progress, Block, ThetaD, Round, Arrange;
    ghost var s := a[..];
    var d := Differences(a);
    NothingDone(1, s);
    Block20(); Block21(); Block22(); Block23(); Block24();
    Plane(a, Five(0, 16, 7, 23, 14), d, Five(0, 44, 43, 21, 14), 0, 1, s, 0);
    Plane(a, Five(20, 11, 2, 18, 9), d, Five(3, 45, 61, 28, 20), 2, 1, s, 1);
    Plane(a, Five(15, 6, 22, 13, 4), d, Five(18, 1, 6, 25, 8), 4, 1, s, 2);
    Plane(a, Five(10, 1, 17, 8, 24), d, Five(36, 10, 15, 56, 27), 1, 1, s, 3);
    Plane(a, Five(5, 21, 12, 3, 19), d, Five(41, 2, 62, 55, 39), 3, 1, s, 4);
    ghost var t := a[..];
    a[0] := Xor64(a[0], rc);
    assert a[..] == t[0 := Xor64(t[0], rc)];
    RoundDone(1, s, t, rc);
  }

  lemma Block20()
    ensures Block(1, 0, Five(0, 16, 7, 23, 14), Five(0, 44, 43, 21, 14), 0)
  {
  }

  lemma Block21()
    ensures Block(1, 1, Five(20, 11, 2, 18, 9), Five(3, 45, 61, 28, 20), 2)
  {
  }

  lemma Block22()
    ensures Block(1, 2, Five(15, 6, 22, 13, 4), Five(18, 1, 6, 25, 8), 4)
  {
  }

  lemma Block23()
    ensures Block(1, 3, Five(10, 1, 17, 8, 24), Five(36, 10, 15, 56, 27), 1)
  {
  }

  lemma Block24()
    ensures Block(1, 4, Five(5, 21, 12, 3, 19), Five(41, 2, 62, 55, 39), 3)
  {
  }

  /** Round 3 of a group of four. */
  method Round3(a: array<Word>, rc: Word)
    requires a.Length == 25
    modifies a
    ensures Arrange(3, a[..]) == Round(Arrange(2, old(a[..])), rc)
  {
    hide Xor64, Rotl, Progress, Block, ThetaD, Round, Arrange;
    ghost var s := a[..];
    var d := Differences(a);
    NothingDone(2, s);
    Block30(); Block31(); Block32(); Block33(); Block34();
    Plane(a, Five(0, 11, 22, 8, 19), d, Five(0, 44, 43, 21, 14), 0, 2, s, 0);
    Plane(a, Five(15, 1, 12, 23, 9), d, Five(3, 45, 61, 28, 20), 2, 2, s, 1);
    Plane(a, Five(5, 16, 2, 13, 24), d, Five(18, 1, 6, 25, 8), 4, 2, s, 2);
    Plane(a, Five(20, 6, 17, 3, 14), d, Five(36, 10, 15, 56, 27), 1, 2, s, 3);
    Plane(a, Five(10, 21, 7, 18, 4), d, Five(41, 2, 62, 55, 39), 3, 2, s, 4);
    ghost var t := a[..];
    a[0] := Xor64(a[0], rc);
    assert a[..] == t[0 := Xor64(t[0], rc)];
    RoundDone(2, s, t, rc);
  }

  lemma Block30()
    ensures Block(2, 0, Five(0, 11, 22, 8, 19), Five(0, 44, 43, 21, 14), 0)
  {
  }

  lemma Block31()
    ensures Block(2, 1, Five(15, 1, 12, 23, 9), Five(3, 45, 61, 28, 20), 2)
  {
  }

  lemma Block32()
    ensures Block(2, 2, Five(5, 16, 2, 13, 24), Five(18, 1, 6, 25, 8), 4)
  {
  }

  lemma Block33()
    ensures Block(2, 3, Five(20, 6, 17, 3, 14), Five(36, 10, 15, 56, 27), 1)
  {
  }

  lemma Block34()
    ensures Block(2, 4, Five(10, 21, 7, 18, 4), Five(41, 2, 62, 55, 39), 3)
  {
  }

  /** Round 4 of a group of four. */
  method Round4(a: array<Word>, rc: Word)
    requires a.Length == 25
    modifies a
    ensures Arrange(4, a[..]) == Round(Arrange(3, old(a[..])), rc)
  {
    hide Xor64, Rotl, Progress, Block, ThetaD, Round, Arrange;
    ghost var s := a[..];
    var d := Differences(a);
    NothingDone(3, s);
    Block40(); Block41(); Block42(); Block43(); Block44();
    Plane(a, Five(0, 1, 2, 3, 4), d, Five(0, 44, 43, 21, 14), 0, 3, s, 0);
    Plane(a, Five(5, 6, 7, 8, 9), d, Five(3, 45, 61, 28, 20), 2, 3, s, 1);
    Plane(a, Five(10, 11, 12, 13, 14), d, Five(18, 1, 6, 25, 8), 4, 3, s, 2);
    Plane(a, Five(15, 16, 17, 18, 19), d, Five(36, 10, 15, 56, 27), 1, 3, s, 3);
    Plane(a, Five(20, 21, 22, 23, 24), d, Five(41, 2, 62, 55, 39), 3, 3, s, 4);
    ghost var t := a[..];
    a[0] := Xor64(a[0], rc);
    assert a[..] == t[0 := Xor64(t[0], rc)];
    RoundDone(3, s, t, rc);
  }

  lemma Block40()
    ensures Block(3, 0, Five(0, 1, 2, 3, 4), Five(0, 44, 43, 21, 14), 0)
  {
  }

  lemma Block41()
    ensures Block(3, 1, Five(5, 6, 7, 8, 9), Five(3, 45, 61, 28, 20), 2)
  {
  }

  lemma Block42()
    ensures Block(3, 2, Five(10, 11, 12, 13, 14), Five(18, 1, 6, 25, 8), 4)
  {
  }

  lemma Block43()
    ensures Block(3, 3, Five(15, 16, 17, 18, 19), Five(36, 10, 15, 56, 27), 1)
  {
  }

  lemma Block44()
    ensures Block(3, 4, Five(20, 21, 22, 23, 24), Five(41, 2, 62, 55, 39), 3)
  {
  }

  /** keccakF1600: 24 rounds, four at a time. */
  method KeccakF1600(a: array<Word>)
    requires a.Length == 25
    modifies a
    ensures a[..] == Permutation(old(a[..]))
  {
    hide Round, Arrange, Rounds;
    ghost var s := a[..];
    NoRounds(s);
    var i := 0;
    while i < 24
      invariant 0 <= i <= 24 && i % 4 == 0 && a[..] == Rounds(s, i)
    {
      FourRoundsReturn(a[..]);
      Round1(a, RC[i]);
      Round2(a, RC[i + 1]);
      Round3(a, RC[i + 2]);
      Round4(a, RC[i + 3]);
      FourRoundsReturn(a[..]);
      FourRounds(s, i);
      i := i + 4;
    }
  }

  lemma NoRounds(s: State)
    ensures Rounds(s, 0) == s
  {
  }

  lemma FourRounds(s: State, i: nat)
    requires i + 4 <= 24
    ensures Rounds(s, i + 4) == Round(Round(Round(Round(Rounds(s, i), RC[i]), RC[i + 1]), RC[i + 2]), RC[i + 3])
  {
    hide Round;
    assert Rounds(s, i + 4) == Round(Rounds(s, i + 3), RC[i + 3]);
    assert Rounds(s, i + 3) == Round(Rounds(s, i + 2), RC[i + 2]);
    assert Rounds(s, i + 2) == Round(Rounds(s, i + 1), RC[i + 1]);
  }
}
