/** The sponge of sha3.go over the permutation of KeccakF, against section 4 of FIPS 202 with the padding pad10*1 of
    section 5.1 on whole bytes and no domain bits. */
module Sponge {
  import opened NumberTheory
  import opened Bits
  import opened Wnaf
  import opened Words
  import opened KeccakF

  type Byte = x: nat | x < 256

  // ------------------------------------------------------------- bytes and lanes

  /** Bytes, least significant first. */
  function LittleEndian(p: seq<Byte>): (t: nat)
    ensures t < Two(8 * |p|)
  {
    if p == [] then 0 else
      ShiftByte(LittleEndian(p[1..]), p[0], |p| - 1);
      LittleEndian(p[1..]) * 256 + p[0]
  }

  lemma ShiftByte(t: nat, b: Byte, n: nat)
    requires t < Two(8 * n)
    ensures t * 256 + b < Two(8 * (n + 1))
  {
    hide Two;
    TwoAdd(8 * n, 8);
    TwoTo64();
    assert 8 * (n + 1) == 8 * n + 8;
  }

  lemma {:induction false} LittleEndianAppend(p: seq<Byte>, b: Byte)
    ensures LittleEndian(p + [b]) == LittleEndian(p) + b * Two(8 * |p|)
  {
    if p == [] {
      assert p + [b] == [b] && [b][1..] == [];
      TwoSmall();
    } else {
      hide Two;
      LittleEndianAppend(p[1..], b);
      assert (p + [b])[1..] == p[1..] + [b];
      TwoAdd(8 * (|p| - 1), 8);
      TwoTo64();
      assert 8 * |p| == 8 * (|p| - 1) + 8;
      AppendAlgebra(LittleEndian(p[1..]), b, Two(8 * (|p| - 1)), p[0]);
    }
  }

  lemma AppendAlgebra(t: int, b: int, m: int, c: int)
    ensures (t + b * m) * 256 + c == (t * 256 + c) + b * (m * 256)
  {
  }

  /** A byte shifted into its place in a lane. */
  function InLane(b: Byte, k: nat): (w: Word)
    requires k < 8
  {
    InLaneBound(b, k);
    b * Two(8 * k)
  }

  lemma InLaneBound(b: Byte, k: nat)
    requires k < 8
    ensures b * Two(8 * k) < 0x1_0000_0000_0000_0000
  {
    hide Two;
    TwoTo64();
    TwoAdd(8 * k, 8);
    TwoGrows(8 * k + 8, 64);
    assert b * Two(8 * k) <= 255 * Two(8 * k);
  }

  // ------------------------------------------------------------- absorbing

  type Rate = r: nat | 0 < r <= 200 && r % 8 == 0 witness 136

  /** The position in the block after n bytes. */
  function Offset(n: nat, rate: Rate): (o: nat)
    ensures o < rate
  {
    n % rate
  }

  /** The state with one byte of input added at a position. */
  function AbsorbByte(s: State, pos: nat, b: Byte): State
    requires pos < 200
  {
    s[pos / 8 := Xor64(s[pos / 8], InLane(b, pos % 8))]
  }

  /** Several bytes in a row, without a permutation. */
  function AbsorbRun(s: State, pos: nat, p: seq<Byte>): State
    requires pos + |p| <= 200
  {
    if p == [] then s else AbsorbByte(AbsorbRun(s, pos, p[..|p| - 1]), pos + |p| - 1, p[|p| - 1])
  }

  /** The state after n bytes takes one more; at each multiple of the rate it is permuted. */
  function Absorb(rate: Rate, s: State, n: nat, b: Byte): State {
    var s' := AbsorbByte(s, Offset(n, rate), b);
    if Offset(n + 1, rate) == 0 then Permutation(s') else s'
  }

  /** Byte by byte. */
  function AbsorbAll(rate: Rate, s: State, n: nat, p: seq<Byte>): State {
    if p == [] then s else Absorb(rate, AbsorbAll(rate, s, n, p[..|p| - 1]), n + |p| - 1, p[|p| - 1])
  }

  lemma {:induction false} AbsorbAllSplits(rate: Rate, s: State, n: nat, p: seq<Byte>, q: seq<Byte>)
    ensures AbsorbAll(rate, s, n, p + q) == AbsorbAll(rate, AbsorbAll(rate, s, n, p), n + |p|, q)
  {
    hide Absorb;
    if q == [] {
      assert p + q == p;
    } else {
      assert (p + q)[..|p + q| - 1] == p + q[..|q| - 1];
      AbsorbAllSplits(rate, s, n, p, q[..|q| - 1]);
    }
  }

  lemma RemainderOfSum(n: nat, k: nat, rate: Rate)
    requires Offset(n, rate) + k < rate
    ensures Offset(n + k, rate) == Offset(n, rate) + k
  {
    RemainderIsUnique(n + k, n / rate, n % rate + k, rate);
  }

  lemma FullBlock(n: nat, k: nat, rate: Rate)
    requires Offset(n, rate) + k == rate
    ensures Offset(n + k, rate) == 0
  {
    RemainderIsUnique(n + k, n / rate + 1, 0, rate);
  }

  /** Inside a block there is no permutation. */
  lemma {:induction false} RunInsideBlock(rate: Rate, s: State, n: nat, p: seq<Byte>)
    requires Offset(n, rate) + |p| < rate
    ensures AbsorbAll(rate, s, n, p) == AbsorbRun(s, Offset(n, rate), p)
  {
    hide AbsorbByte, Permutation, Offset;
    if p != [] {
      RunInsideBlock(rate, s, n, p[..|p| - 1]);
      RemainderOfSum(n, |p| - 1, rate);
      RemainderOfSum(n, |p|, rate);
    }
  }

  lemma LastOfRun(s: State, pos: nat, p: seq<Byte>)
    requires p != [] && pos + |p| <= 200
    ensures AbsorbRun(s, pos, p) == AbsorbByte(AbsorbRun(s, pos, p[..|p| - 1]), pos + |p| - 1, p[|p| - 1])
  {
  }

  /** A run that completes a block is followed by one. */
  lemma RunCompletesBlock(rate: Rate, s: State, n: nat, p: seq<Byte>)
    requires Offset(n, rate) + |p| == rate && p != []
    ensures AbsorbAll(rate, s, n, p) == Permutation(AbsorbRun(s, Offset(n, rate), p))
  {
    hide AbsorbByte, Permutation, Offset, AbsorbRun;
    RunInsideBlock(rate, s, n, p[..|p| - 1]);
    LastOfRun(s, Offset(n, rate), p);
    RemainderOfSum(n, |p| - 1, rate);
    FullBlock(n, |p|, rate);
  }

  /** A run inside one lane is a single exclusive or with the bytes in little-endian order. */
  lemma {:induction false} RunInsideLane(s: State, pos: nat, p: seq<Byte>)
    requires pos < 200 && pos % 8 + |p| <= 8
    ensures LittleEndian(p) * Two(8 * (pos % 8)) < 0x1_0000_0000_0000_0000
    ensures AbsorbRun(s, pos, p) == s[pos / 8 := Xor64(s[pos / 8], LittleEndian(p) * Two(8 * (pos % 8)))]
  {
    hide Two, InLane, LittleEndian, Xor64, AbsorbByte;
    LaneFits(LittleEndian(p), |p|, pos % 8);
    if p == [] {
      NoBytes();
      XorZero(s[pos / 8]);
      assert 0 * Two(8 * (pos % 8)) == 0;
    } else {
      var q, b := p[..|p| - 1], p[|p| - 1];
      RunInsideLane(s, pos, q);
      assert q + [b] == p;
      LittleEndianAppend(q, b);
      SameLane(pos, |q|);
      JoinBytes(s[pos / 8], LittleEndian(q), b, |q|, pos % 8);
      LaneStep(s, pos / 8, Xor64(s[pos / 8], LittleEndian(q) * Two(8 * (pos % 8))), pos + |q|, b);
    }
  }

  lemma LaneStep(s: State, lane: nat, w: Word, pos: nat, b: Byte)
    requires lane < 25 && pos / 8 == lane
    ensures AbsorbByte(s[lane := w], pos, b) == s[lane := Xor64(w, InLane(b, pos % 8))]
  {
    hide Xor64, InLane;
    assert s[lane := w][lane] == w;
  }

  lemma NoBytes()
    ensures LittleEndian([]) == 0
  {
  }

  lemma XorZero(w: Word)
    ensures Xor64(w, 0) == w
  {
  }

  lemma SameLane(pos: nat, k: nat)
    requires pos % 8 + k < 8
    ensures (pos + k) / 8 == pos / 8 && (pos + k) % 8 == pos % 8 + k
  {
  }

  lemma LaneFits(t: nat, n: nat, k: nat)
    requires t < Two(8 * n) && k + n <= 8
    ensures 0 <= t * Two(8 * k) < Two(8 * (n + k)) && Two(8 * (n + k)) <= 0x1_0000_0000_0000_0000
  {
    hide Two;
    TwoTo64();
    TwoAdd(8 * n, 8 * k);
    TwoGrows(8 * (n + k), 64);
    ProductBelow(t, Two(8 * n), Two(8 * k));
  }

  /** Adding two parts of a lane without common bits, one after the other. */
  lemma JoinParts(w: Word, lo: Word, c: nat, e: nat, hi: Word)
    requires lo < Two(e) && hi == c * Two(e) && lo + hi < 0x1_0000_0000_0000_0000
    ensures Xor64(Xor64(w, lo), hi) == Xor64(w, lo + hi)
  {
    hide Two, Xor;
    DisjointSum(c, lo, e);
    XorCommutes(hi, lo);
    XorAssociates(w, lo, hi);
  }

  lemma JoinBytes(w: Word, t: nat, b: Byte, n: nat, k: nat)
    requires t < Two(8 * n) && n + k < 8
    ensures 0 <= t * Two(8 * k) < 0x1_0000_0000_0000_0000
    ensures 0 <= (t + b * Two(8 * n)) * Two(8 * k) < 0x1_0000_0000_0000_0000
    ensures Xor64(Xor64(w, t * Two(8 * k)), InLane(b, n + k)) == Xor64(w, (t + b * Two(8 * n)) * Two(8 * k))
  {
    hide Two, Xor64;
    LaneFits(t, n, k);
    TwoAdd(8 * n, 8 * k);
    assert 8 * (n + k) == 8 * n + 8 * k;
    var e := 8 * (n + k);
    JoinedShift(t, b, Two(8 * n), Two(8 * k), Two(e));
    TopOfLane(t * Two(8 * k), b, e);
    InLaneBound(b, n + k);
    JoinParts(w, t * Two(8 * k), b, e, b * Two(e));
  }

  lemma JoinedShift(t: int, b: int, m: int, k: int, e: int)
    requires e == m * k
    ensures (t + b * m) * k == t * k + b * e
  {
    DistributeShift(t, b * m, k);
    Assoc3(b, m, k);
  }

  lemma TopOfLane(lo: nat, b: Byte, e: nat)
    requires lo < Two(e) && e + 8 <= 64
    ensures lo + b * Two(e) < 0x1_0000_0000_0000_0000
  {
    hide Two;
    TwoTo64();
    TwoAdd(e, 8);
    TwoGrows(e + 8, 64);
    assert b * Two(e) <= 255 * Two(e);
  }

  lemma DistributeShift(a: int, b: int, m: int)
    ensures (a + b) * m == a * m + b * m
  {
  }

  lemma Assoc3(a: int, b: int, c: int)
    ensures a * b * c == a * (b * c)
  {
  }

  lemma {:induction false} AbsorbRunSplits(s: State, pos: nat, p: seq<Byte>, q: seq<Byte>)
    requires pos + |p| + |q| <= 200
    ensures AbsorbRun(s, pos, p + q) == AbsorbRun(AbsorbRun(s, pos, p), pos + |p|, q)
  {
    hide AbsorbByte;
    if q == [] {
      assert p + q == p;
    } else {
      assert (p + q)[..|p + q| - 1] == p + q[..|q| - 1];
      AbsorbRunSplits(s, pos, p, q[..|q| - 1]);
    }
  }

  // ------------------------------------------------------------- the standard

  /** Every whole block of the padded message is added to the state and the state is permuted (algorithm 8). */
  function AbsorbBlocks(rate: Rate, s: State, p: seq<Byte>): State
    decreases |p|
  {
    if |p| < rate then s else AbsorbBlocks(rate, Permutation(AbsorbRun(s, 0, p[..rate])), p[rate..])
  }

  /** pad10*1 on bytes: a one bit, zeros, and a one bit at the end of the block. */
  function Padding(rate: Rate, n: nat): (p: seq<Byte>)
    ensures Offset(n + |p|, rate) == 0
  {
    var free := rate - Offset(n, rate);
    FullBlock(n, free, rate);
    if free == 1 then [0x81] else [0x01] + seq(free - 2, i => 0) + [0x80]
  }

  /** Byte i of the state. */
  function StateByte(s: State, i: nat): Byte
    requires i < 200
  {
    (s[i / 8] / Two(8 * (i % 8))) % 256
  }

  function StateBytes(s: State, n: nat): (b: seq<Byte>)
    requires n <= 200
    ensures |b| == n
  {
    seq(n, i requires 0 <= i < n => StateByte(s, i))
  }

  /** n bytes of output: blocks of the rate, with a permutation in between. */
  function Squeeze(rate: Rate, s: State, n: nat): (b: seq<Byte>)
    ensures |b| == n
    decreases n
  {
    if n <= rate then StateBytes(s, n) else StateBytes(s, rate) + Squeeze(rate, Permutation(s), n - rate)
  }

  function Zero(): State {
    seq(25, i => 0)
  }

  // ------------------------------------------------------------- where the bits of a string are (section 3.1.2)

  /** A byte in a lane. */
  lemma InLaneBits(b: Byte, k: nat, z: nat)
    requires k < 8 && z < 64
    ensures BitOf(InLane(b, k), z) == if z / 8 == k then BitOf(b, z % 8) else 0
  {
    hide Two, BitOf;
    TwoTo64();
    JoinedBits(b, 0, 8 * k, z);
    if z < 8 * k {
      ZeroBits(z);
    } else if z >= 8 * k + 8 {
      BitAbove(b, 8, z - 8 * k);
    }
  }

  /** Bit j of byte n of the input is added to bit 8 n + j of the state. */
  lemma AbsorbByteBits(s: State, pos: nat, b: Byte, i: nat, z: nat)
    requires pos < 200 && i < 25 && z < 64
    ensures BitOf(AbsorbByte(s, pos, b)[i], z) == (BitOf(s[i], z) + if 8 * i + z / 8 == pos then BitOf(b, z % 8) else 0) % 2
  {
    hide BitOf, Xor64, InLane;
    Xor64Bits(s[pos / 8], InLane(b, pos % 8), z);
    InLaneBits(b, pos % 8, z);
  }

  lemma {:induction false} AbsorbRunBits(s: State, pos: nat, p: seq<Byte>, i: nat, z: nat)
    requires pos + |p| <= 200 && i < 25 && z < 64
    ensures BitOf(AbsorbRun(s, pos, p)[i], z)
         == (BitOf(s[i], z) + if pos <= 8 * i + z / 8 < pos + |p| then BitOf(p[8 * i + z / 8 - pos], z % 8) else 0) % 2
  {
    hide BitOf, AbsorbByte;
    if p != [] {
      var n := |p| - 1;
      AbsorbRunBits(s, pos, p[..n], i, z);
      AbsorbByteBits(AbsorbRun(s, pos, p[..n]), pos + n, p[n], i, z);
    }
  }

  lemma StateByteBits(s: State, i: nat, j: nat)
    requires i < 200 && j < 8
    ensures BitOf(StateByte(s, i), j) == BitOf(s[i / 8], 8 * (i % 8) + j)
  {
    hide Two, BitOf;
    ByteBits(s[i / 8], i % 8, j);
  }

  /** Bit j of byte k of a word. */
  lemma ByteBits(w: Word, k: nat, j: nat)
    requires j < 8
    ensures 0 <= w / Two(8 * k) && 0 <= (w / Two(8 * k)) % 256 < 256
    ensures BitOf((w / Two(8 * k)) % 256, j) == BitOf(w, 8 * k + j)
  {
    hide Two, BitOf;
    TwoTo64();
    var h := w / Two(8 * k);
    QuotientAndRemainder(w, Two(8 * k));
    QuotientAndRemainder(h, 256);
    JoinedBits(h, w % Two(8 * k), 8 * k, 8 * k + j);
    JoinedBits(h / 256, h % 256, 8, j);
  }

  /** Reading undoes absorbing: the bytes come out in the order in which they went in. */
  lemma AbsorbedIsRead(p: seq<Byte>)
    requires |p| <= 200
    ensures StateBytes(AbsorbRun(Zero(), 0, p), |p|) == p
  {
    hide BitOf, AbsorbRun, StateByte, Two;
    var s := AbsorbRun(Zero(), 0, p);
    TwoTo64();
    forall i | 0 <= i < |p| ensures StateByte(s, i) == p[i] {
      forall j | 0 <= j < 8 ensures BitOf(StateByte(s, i), j) == BitOf(p[i], j) {
        StateByteBits(s, i, j);
        AbsorbRunBits(Zero(), 0, p, i / 8, 8 * (i % 8) + j);
        assert (8 * (i % 8) + j) / 8 == i % 8 && (8 * (i % 8) + j) % 8 == j;
        ZeroBits(8 * (i % 8) + j);
      }
      SameBits(StateByte(s, i), p[i], 8);
    }
  }

  lemma ZeroBits(z: nat)
    ensures BitOf(0, z) == 0
  {
    hide Two;
    TwoSmall();
    BitAbove(0, 0, z);
  }

  /** The bytes of a number, least significant first. */
  lemma {:induction false} LittleEndianBits(p: seq<Byte>, j: nat)
    requires j < 8 * |p|
    ensures BitOf(LittleEndian(p), j) == BitOf(p[j / 8], j % 8)
  {
    hide Two, BitOf;
    TwoTo64();
    JoinedBits(LittleEndian(p[1..]), p[0], 8, j);
    if j >= 8 {
      LittleEndianBits(p[1..], j - 8);
      assert (j - 8) / 8 == j / 8 - 1 && (j - 8) % 8 == j % 8;
    }
  }

  lemma PutIsLittleEndian(w: Word)
    ensures LittleEndian(PutUint64(w)) == w
  {
    hide Two, BitOf, LittleEndian;
    TwoTo64();
    var p := PutUint64(w);
    forall j | 0 <= j < 64 ensures BitOf(LittleEndian(p), j) == BitOf(w, j) {
      LittleEndianBits(p, j);
      ByteBits(w, j / 8, j % 8);
    }
    SameBits(LittleEndian(p), w, 64);
  }

  /** pad10*1: one bit at either end and zeros in between, as few as complete the block. */
  lemma PaddingBits(rate: Rate, n: nat, j: nat)
    requires j < 8 * |Padding(rate, n)|
    ensures 1 <= |Padding(rate, n)| <= rate
    ensures BitOf(Padding(rate, n)[j / 8], j % 8) == 1 <==> j == 0 || j == 8 * |Padding(rate, n)| - 1
  {
    hide Two, BitOf;
    ZeroBits(j % 8);
    EndBits(j % 8);
  }

  lemma EndBits(j: nat)
    requires j < 8
    ensures BitOf(0x01, j) == (if j == 0 then 1 else 0) && BitOf(0x80, j) == (if j == 7 then 1 else 0)
    ensures BitOf(0x81, j) == if j == 0 || j == 7 then 1 else 0
  {
    hide Two, BitOf;
    TwoSmall();
    JoinedBits(0, 1, 1, j);
    JoinedBits(1, 0, 7, j);
    JoinedBits(1, 1, 7, j);
    FirstBit(1);
    ZeroBits(j);
    if j > 0 { ZeroBits(j - 1); }
  }

  /** The sponge function applied to a message. */
  function Keccak(rate: Rate, message: seq<Byte>, n: nat): seq<Byte> {
    Squeeze(rate, AbsorbBlocks(rate, Zero(), message + Padding(rate, |message|)), n)
  }

  // ------------------------------------------------------------- blocks and bytes

  /** On whole blocks, byte by byte is block by block. */
  lemma {:induction false} BlocksAreBytes(rate: Rate, s: State, n: nat, p: seq<Byte>)
    requires Offset(n, rate) == 0 && |p| % rate == 0
    ensures AbsorbAll(rate, s, n, p) == AbsorbBlocks(rate, s, p)
    decreases |p|
  {
    hide Permutation, AbsorbByte, Absorb, AbsorbRun, AbsorbAll;
    if |p| < rate {
      RemainderIsUnique(|p|, 0, |p|, rate);
      NothingAbsorbed(rate, s, n);
      assert p == [];
    } else {
      var q, r := p[..rate], p[rate..];
      assert q + r == p;
      AbsorbAllSplits(rate, s, n, q, r);
      RunCompletesBlock(rate, s, n, q);
      FullBlock(n, rate, rate);
      OneBlockLess(|p|, rate);
      BlocksAreBytes(rate, Permutation(AbsorbRun(s, 0, q)), n + rate, r);
    }
  }

  lemma NothingAbsorbed(rate: Rate, s: State, n: nat)
    ensures AbsorbAll(rate, s, n, []) == s
  {
  }

  lemma OneBlockLess(n: nat, rate: Rate)
    requires Offset(n, rate) == 0 && n >= rate
    ensures (n - rate) % rate == 0
  {
    assert n == (n / rate) * rate;
    RemainderIsUnique(n - rate, n / rate - 1, 0, rate);
  }

  lemma AbsorbZero(s: State, pos: nat)
    requires pos < 200
    ensures AbsorbByte(s, pos, 0) == s
  {
    hide Two;
    assert 0 * Two(8 * (pos % 8)) == 0;
    XorZero(s[pos / 8]);
  }

  lemma {:induction false} AbsorbZeros(s: State, pos: nat, n: nat)
    requires pos + n <= 200
    ensures AbsorbRun(s, pos, seq(n, i => 0)) == s
  {
    hide AbsorbByte;
    var z: seq<Byte> := seq(n, i => 0);
    if n > 0 {
      var y: seq<Byte> := seq(n - 1, i => 0);
      assert z[..n - 1] == y;
      AbsorbZeros(s, pos, n - 1);
      AbsorbZero(s, pos + n - 1);
    }
  }

  /** Two bytes at the same position without common bits. */
  lemma AbsorbTwice(s: State, pos: nat)
    requires pos < 200
    ensures AbsorbByte(AbsorbByte(s, pos, 0x01), pos, 0x80) == AbsorbByte(s, pos, 0x81)
  {
    hide Two, Xor64;
    var k := pos % 8;
    var m := Two(8 * k);
    InLaneBound(0x01, k); InLaneBound(0x80, k); InLaneBound(0x81, k);
    TwoSmall();
    TwoAdd(8 * k, 7);
    BelowTop(k);
    JoinParts(s[pos / 8], m, 1, 8 * k + 7, 0x80 * m);
  }

  lemma BelowTop(k: nat)
    ensures Two(8 * k) < Two(8 * k + 7)
  {
    hide Two;
    TwoAdd(8 * k, 7);
    TwoSmall();
  }

  /** What pad does: the opening and the closing bit. */
  function Padded(rate: Rate, s: State, n: nat): State {
    AbsorbByte(AbsorbByte(s, Offset(n, rate), 0x01), rate - 1, 0x80)
  }

  lemma PaddingIsAbsorbed(rate: Rate, s: State, n: nat)
    ensures AbsorbAll(rate, s, n, Padding(rate, n)) == Permutation(Padded(rate, s, n))
  {
    hide AbsorbByte, Permutation, Offset;
    var free := rate - Offset(n, rate);
    var p := Padding(rate, n);
    RunCompletesBlock(rate, s, n, p);
    var o := Offset(n, rate);
    if free == 1 {
      assert p[..0] == [];
      assert AbsorbRun(s, o, p) == AbsorbByte(s, o, 0x81);
      AbsorbTwice(s, o);
    } else {
      var zeros: seq<Byte> := seq(free - 2, i => 0);
      AbsorbRunSplits(s, o, [0x01] + zeros, [0x80]);
      AbsorbRunSplits(s, o, [0x01], zeros);
      OneByte(s, o, 0x01);
      AbsorbZeros(AbsorbByte(s, o, 0x01), o + 1, free - 2);
      OneByte(AbsorbByte(s, o, 0x01), rate - 1, 0x80);
    }
  }

  lemma OneByte(s: State, pos: nat, b: Byte)
    requires pos < 200
    ensures AbsorbRun(s, pos, [b]) == AbsorbByte(s, pos, b)
  {
    hide AbsorbByte;
    assert [b][..0] == [];
  }

  lemma OffsetIsZero(n: nat, rate: Rate)
    requires Offset(n, rate) == 0
    ensures n % rate == 0
  {
  }

  /** Finalising the state of a message gives the state of the padded message. */
  lemma FinalState(rate: Rate, message: seq<Byte>)
    ensures Permutation(Padded(rate, AbsorbAll(rate, Zero(), 0, message), |message|))
         == AbsorbBlocks(rate, Zero(), message + Padding(rate, |message|))
  {
    hide Permutation, AbsorbByte, Padded, Absorb, AbsorbAll, AbsorbBlocks, Padding;
    var p := Padding(rate, |message|);
    AbsorbAllSplits(rate, Zero(), 0, message, p);
    PaddingIsAbsorbed(rate, AbsorbAll(rate, Zero(), 0, message), |message|);
    RemainderIsUnique(0, 0, 0, rate);
    OffsetIsZero(|message + p|, rate);
    BlocksAreBytes(rate, Zero(), 0, message + p);
  }

  // ------------------------------------------------------------- squeezing

  /** Fewer bytes are a prefix of more. */
  lemma PrefixOfState(s: State, n: nat, m: nat)
    requires n <= m <= 200
    ensures StateBytes(s, m)[..n] == StateBytes(s, n)
  {
    hide StateByte;
  }

  lemma {:induction false} SqueezePrefix(rate: Rate, s: State, n: nat, m: nat)
    requires n <= m
    ensures Squeeze(rate, s, m)[..n] == Squeeze(rate, s, n)
    decreases m
  {
    hide Permutation, StateBytes;
    if m <= rate {
      PrefixOfState(s, n, m);
    } else if n <= rate {
      PrefixOfState(s, n, rate);
    } else {
      SqueezePrefix(rate, Permutation(s), n - rate, m - rate);
    }
  }

  // ------------------------------------------------------------- the digest

  const LANE_SIZE: nat := 8
  const STATE_SIZE: nat := 200

  class Digest {
    const a: array<Word>
    const outputSize: nat
    const capacity: nat
    var absorbed: nat
    /** Everything written since the last reset. */
    ghost var message: seq<Byte>

    /** The state is that of the message, absorbed byte by byte; how it was split over writes leaves no trace. */
    ghost predicate Valid()
      reads this, a
    {
      a.Length == 25 && capacity % 8 == 0 && capacity < STATE_SIZE
      && absorbed == |message| && a[..] == AbsorbAll(Rate(), Zero(), 0, message)
    }

    /** rate. The capacities in use leave a whole number of lanes. */
    function Rate(): (r: Rate)
      ensures capacity % 8 == 0 && capacity < STATE_SIZE ==> r == STATE_SIZE - capacity
    {
      if capacity % 8 == 0 && capacity < STATE_SIZE then STATE_SIZE - capacity else STATE_SIZE
    }

    /** NewKeccak224 to NewKeccak512: the capacity is twice the output size. */
    constructor (bits: nat)
      requires bits == 224 || bits == 256 || bits == 384 || bits == 512
      ensures Valid() && message == [] && fresh(a) && outputSize == bits / 8 && capacity == 2 * outputSize
    {
      a := new Word[25](_ => 0);
      outputSize, capacity := bits / 8, 2 * bits / 8;
      absorbed, message := 0, [];
      new;
      assert a[..] == Zero();
    }

    constructor Copy(d: Digest)
      requires d.Valid()
      ensures Valid() && message == d.message && fresh(a) && outputSize == d.outputSize && capacity == d.capacity
    {
      var b := new Word[25](i requires 0 <= i < 25 reads d.a => d.a[i]);
      a := b;
      outputSize, capacity := d.outputSize, d.capacity;
      absorbed, message := d.absorbed, d.message;
      new;
      assert a[..] == d.a[..];
    }

    /** Reset. */
    method Reset()
      requires Valid()
      modifies this, a
      ensures Valid() && message == []
    {
      absorbed := 0;
      forall i | 0 <= i < a.Length { a[i] := 0; }
      message := [];
      assert a[..] == Zero();
    }

    /** The loop at the start of unalignedAbsorb: the bytes from the last to the first. */
    static method ReadBytes(p: seq<Byte>) returns (t: nat)
      requires |p| <= 8
      ensures t == LittleEndian(p) && t < 0x1_0000_0000_0000_0000
    {
      hide Two, LittleEndian, Shl, Bits.Or;
      t := 0;
      var i := |p| - 1;
      NoBytes();
      assert p[|p|..] == [];
      while i >= 0
        invariant -1 <= i < |p| && t == LittleEndian(p[i + 1..]) && 0 <= t < 0x1_0000_0000_0000_0000
      {
        NextByte(p, i);
        t := Shl(t, 8);
        t := Or(t, p[i]);
        i := i - 1;
      }
      assert p[0..] == p;
    }

    /** unalignedAbsorb: bytes that stay inside one lane, shifted into position. */
    method UnalignedAbsorb(p: seq<Byte>)
      requires a.Length == 25 && capacity % 8 == 0 && capacity < STATE_SIZE && Offset(absorbed, Rate()) % LANE_SIZE + |p| <= 8
      modifies this`absorbed, a
      ensures absorbed == old(absorbed) + |p|
      ensures a[..] == AbsorbRun(old(a[..]), Offset(old(absorbed), Rate()), p)
    {
      hide Two, LittleEndian, AbsorbRun, Xor64, Offset, Shl, Bits.Or;
      var t := ReadBytes(p);
      var offset := Offset(absorbed, Rate());
      RunInsideLane(a[..], offset, p);
      ShiftInLane(t, 8 * (offset % LANE_SIZE));
      t := Shl(t, 8 * (offset % LANE_SIZE));
      ghost var s := a[..];
      a[offset / LANE_SIZE] := Xor64(a[offset / LANE_SIZE], t);
      assert a[..] == s[offset / 8 := Xor64(s[offset / 8], t)];
      absorbed := absorbed + |p|;
    }

    /** The first lane of a write may be unaligned or incomplete. Returns what is left to absorb. */
    method AbsorbFirstLane(p: seq<Byte>) returns (rest: seq<Byte>)
      requires Valid() && |p| > 0 && (Offset(absorbed, Rate()) % LANE_SIZE != 0 || |p| < 8)
      modifies this, a
      ensures Valid() && message + rest == old(message) + p
      ensures |rest| > 0 ==> Offset(absorbed, Rate()) % LANE_SIZE == 0
    {
      hide AbsorbAll, AbsorbRun, Permutation, KeccakF.Rounds, Offset;
      var offset := Offset(absorbed, Rate());
      var toAbsorb := MinInt(LANE_SIZE - offset % LANE_SIZE, |p|);
      ghost var s, n, q := a[..], absorbed, p[..toAbsorb];
      UnalignedAbsorb(p[..toAbsorb]);
      rest := p[toAbsorb..];
      FitsInBlock(n, Rate(), toAbsorb);
      AbsorbAllSplits(Rate(), Zero(), 0, message, q);
      if Offset(absorbed, Rate()) == 0 {
        WholeBlock(n, Rate(), |q|);
        RunCompletesBlock(Rate(), s, n, q);
        KeccakF1600(a);
      } else {
        PartOfBlock(n, Rate(), |q|);
        RunInsideBlock(Rate(), s, n, q);
      }
      message := message + q;
      assert q + rest == p;
      if |rest| > 0 { LaneBoundary(n, toAbsorb, Rate()); }
    }

    /** The inner loop: input bytes into the lanes, eight at a time. */
    method XorLanes(p: seq<Byte>, firstLane: nat, lastLane: nat) returns (rest: seq<Byte>)
      requires a.Length == 25 && firstLane <= lastLane <= 25 && 8 * (lastLane - firstLane) <= |p|
      modifies a
      ensures rest == p[8 * (lastLane - firstLane)..]
      ensures a[..] == AbsorbRun(old(a[..]), 8 * firstLane, p[..8 * (lastLane - firstLane)])
    {
      hide AbsorbRun, LittleEndian, Xor64, Two;
      rest := p;
      ghost var s := a[..];
      var lane := firstLane;
      EmptyRun(s, 8 * firstLane);
      assert p[..0] == [];
      while lane < lastLane
        invariant firstLane <= lane <= lastLane && rest == p[8 * (lane - firstLane)..]
        invariant a[..] == AbsorbRun(s, 8 * firstLane, p[..8 * (lane - firstLane)])
      {
        ghost var k := 8 * (lane - firstLane);
        ghost var q := p[k..k + 8];
        AbsorbRunSplits(s, 8 * firstLane, p[..k], q);
        assert p[..k] + q == p[..k + 8];
        assert rest[..8] == q;
        LaneRun(a[..], lane, q);
        ghost var t := a[..];
        a[lane] := Xor64(a[lane], LittleEndian(rest[..8]));
        assert a[..] == t[lane := Xor64(t[lane], LittleEndian(q))];
        rest := rest[8..];
        lane := lane + 1;
      }
    }

    /** One pass of the aligned loop: as many whole lanes as there are up to the end of the block. */
    method AbsorbLanes(p: seq<Byte>, offset: nat) returns (rest: seq<Byte>)
      requires Valid() && |p| > 7 && offset == Offset(absorbed, Rate()) && offset % LANE_SIZE == 0
      modifies this, a
      ensures Valid() && message + rest == old(message) + p && |rest| < |p|
      ensures |rest| > 7 ==> Offset(absorbed, Rate()) == 0
      ensures Offset(absorbed, Rate()) % LANE_SIZE == 0
    {
      hide AbsorbAll, AbsorbRun, Permutation, KeccakF.Rounds, Offset;
      var firstLane := offset / LANE_SIZE;
      var lastLane := MinInt(Rate() / LANE_SIZE, firstLane + |p| / LANE_SIZE);
      ghost var s, n, m := a[..], absorbed, 8 * (lastLane - firstLane);
      LanesInBlock(offset, Rate(), |p|, lastLane);
      rest := XorLanes(p, firstLane, lastLane);
      ghost var q := p[..m];
      absorbed := absorbed + (lastLane - firstLane) * LANE_SIZE;
      AbsorbAllSplits(Rate(), Zero(), 0, message, q);
      if Offset(absorbed, Rate()) == 0 {
        WholeBlock(n, Rate(), |q|);
        RunCompletesBlock(Rate(), s, n, q);
        KeccakF1600(a);
      } else {
        PartOfBlock(n, Rate(), |q|);
        RunInsideBlock(Rate(), s, n, q);
        RemainderOfSum(n, m, Rate());
      }
      message := message + q;
      assert q + rest == p;
    }

    /** Write: the digest becomes that of the longer message. */
    method Write(p: seq<Byte>) returns (written: nat)
      requires Valid()
      modifies this, a
      ensures Valid() && message == old(message) + p && written == |p|
    {
      hide AbsorbAll, AbsorbRun, Permutation, KeccakF.Rounds, Offset;
      var offset := Offset(absorbed, Rate());
      var toWrite := |p|;
      var rest := p;
      if (offset % LANE_SIZE != 0 || |p| < 8) && |p| > 0 {
        rest := AbsorbFirstLane(p);
        offset := Offset(absorbed, Rate());
      }
      while |rest| > 7
        invariant Valid() && message + rest == old(message) + p
        invariant |rest| > 7 ==> offset == Offset(absorbed, Rate())
        invariant |rest| > 0 ==> Offset(absorbed, Rate()) % LANE_SIZE == 0
        decreases |rest|
      {
        rest := AbsorbLanes(rest, offset);
        offset := 0;
      }
      if |rest| > 0 {
        ghost var s, n := a[..], absorbed;
        UnalignedAbsorb(rest);
        InsideLastLane(n, Rate(), |rest|);
        RunInsideBlock(Rate(), s, n, rest);
        AbsorbAllSplits(Rate(), Zero(), 0, message, rest);
        message := message + rest;
      }
      return toWrite;
    }

    /** pad: the opening bit after the last byte, the closing bit at the end of the block. */
    method Pad()
      requires a.Length == 25 && capacity % 8 == 0 && capacity < STATE_SIZE
      modifies a
      ensures a[..] == Padded(Rate(), old(a[..]), absorbed)
    {
      hide Two, Xor64, AbsorbAll, Offset, InLane, Shl;
      var offset := Offset(absorbed, Rate());
      ghost var s := a[..];
      var padOpenLane := offset / LANE_SIZE;
      OpeningBit(offset % 8);
      a[padOpenLane] := Xor64(a[padOpenLane], Shl(1, 8 * (offset % LANE_SIZE)));
      ghost var t := a[..];
      assert t == s[offset / 8 := Xor64(s[offset / 8], InLane(0x01, offset % 8))];
      var padCloseLane := Rate() / LANE_SIZE - 1;
      ClosingBit(Rate());
      a[padCloseLane] := Xor64(a[padCloseLane], 0x8000_0000_0000_0000);
      assert a[..] == t[padCloseLane := Xor64(t[padCloseLane], 0x8000_0000_0000_0000)];
    }

    /** The lanes of one block, while bytes are still wanted. */
    method SqueezeLanes(out: seq<Byte>, left: nat) returns (out': seq<Byte>, left': nat)
      requires a.Length == 25 && capacity % 8 == 0 && capacity < STATE_SIZE && left % 8 == 0
      ensures left' <= left <= left' + Rate() && left' % 8 == 0 && (left' == 0 || left == left' + Rate())
      ensures out' == out + StateBytes(a[..], left - left')
    {
      hide StateByte, StateBytes, PutUint64;
      ghost var s := a[..];
      out', left' := out, left;
      var i := 0;
      assert StateBytes(s, 0) == [];
      while i < Rate() && left' > 0
        invariant i % 8 == 0 && i <= Rate() && left' == left - i && left' % 8 == 0
        invariant out' == out + StateBytes(s, i)
        decreases Rate() - i
      {
        LaneBytes(s, i);
        out' := out' + PutUint64(a[i / LANE_SIZE]);
        left' := left' - LANE_SIZE;
        i := i + LANE_SIZE;
      }
    }

    /** squeeze: whole lanes at a time, permuting after each block, and cut to the length asked for. */
    method SqueezeOut(input: seq<Byte>, toSqueeze: nat) returns (r: seq<Byte>)
      requires a.Length == 25 && capacity % 8 == 0 && capacity < STATE_SIZE
      modifies a
      ensures r == input + Squeeze(Rate(), old(a[..]), toSqueeze)
    {
      hide Permutation, KeccakF.Rounds, StateByte, StateBytes, Squeeze, PutUint64, Digest.Rate;
      var needed := toSqueeze + (LANE_SIZE - toSqueeze % LANE_SIZE) % LANE_SIZE;
      ghost var s0 := a[..];
      var out: seq<Byte> := [];
      var left: nat := needed;
      while left > 0
        invariant left % 8 == 0 && left <= needed && |out| == needed - left
        invariant out + Squeeze(Rate(), a[..], left) == Squeeze(Rate(), s0, needed)
        decreases left
      {
        ghost var s, before := a[..], left;
        out, left := SqueezeLanes(out, left);
        SqueezeBlock(Rate(), s, before, before - left);
        if left > 0 {
          KeccakF1600(a);
        } else {
          NothingLeftToSqueeze(Rate(), a[..]);
        }
      }
      if needed == 0 { NothingLeftToSqueeze(Rate(), s0); } else { NothingLeftToSqueeze(Rate(), a[..]); }
      SqueezePrefix(Rate(), s0, toSqueeze, needed);
      r := input + out[..toSqueeze];
    }

    /** Sum: the sponge output for the message so far, without changing the digest. */
    method Sum(input: seq<Byte>) returns (r: seq<Byte>)
      requires Valid()
      ensures r == input + Keccak(Rate(), message, outputSize)
    {
      hide AbsorbAll, Permutation, KeccakF.Rounds, AbsorbBlocks, Padded, Padding;
      var dup := new Digest.Copy(this);
      dup.Pad();
      KeccakF1600(dup.a);
      FinalState(Rate(), message);
      r := dup.SqueezeOut(input, dup.outputSize);
    }
  }

  function MinInt(v1: int, v2: int): int {
    if v1 <= v2 then v1 else v2
  }

  lemma NextByte(p: seq<Byte>, i: nat)
    requires i < |p| <= 8
    ensures LittleEndian(p[i + 1..]) < 0x100_0000_0000_0000
    ensures Shl(LittleEndian(p[i + 1..]), 8) == LittleEndian(p[i + 1..]) * 256
    ensures Or(LittleEndian(p[i + 1..]) * 256, p[i]) == LittleEndian(p[i..]) < 0x1_0000_0000_0000_0000
  {
    hide Two;
    var t := LittleEndian(p[i + 1..]);
    TwoTo64();
    TwoGrows(8 * |p[i + 1..]|, 56);
    TwoAdd(56, 8);
    DisjointSum(t, p[i], 8);
    assert p[i..][1..] == p[i + 1..] && p[i..][0] == p[i];
  }

  lemma ShiftInLane(t: nat, n: nat)
    requires t * Two(n) < 0x1_0000_0000_0000_0000
    ensures t < 0x1_0000_0000_0000_0000 && Shl(t, n) == t * Two(n)
  {
    hide Two;
    assert t * 1 <= t * Two(n);
  }

  lemma EmptyRun(s: State, pos: nat)
    requires pos <= 200
    ensures AbsorbRun(s, pos, []) == s
  {
  }

  lemma LaneRun(s: State, lane: nat, q: seq<Byte>)
    requires lane < 25 && |q| == 8
    ensures LittleEndian(q) < 0x1_0000_0000_0000_0000
    ensures AbsorbRun(s, 8 * lane, q) == s[lane := Xor64(s[lane], LittleEndian(q))]
  {
    hide AbsorbRun, LittleEndian, Two, Xor64;
    assert (8 * lane) % 8 == 0 && (8 * lane) / 8 == lane;
    RunInsideLane(s, 8 * lane, q);
    WholeLane(q);
  }

  lemma LanesInBlock(offset: nat, rate: Rate, n: nat, lastLane: nat)
    requires offset < rate && offset % 8 == 0 && n > 7 && lastLane == MinInt(rate / 8, offset / 8 + n / 8)
    ensures offset / 8 < lastLane <= 25 && 8 * (lastLane - offset / 8) <= n && 8 * lastLane <= rate && 8 * (offset / 8) == offset
    ensures n - 8 * (lastLane - offset / 8) > 7 ==> 8 * lastLane == rate
  {
  }

  lemma WholeLane(p: seq<Byte>)
    requires |p| == 8
    ensures LittleEndian(p) * Two(0) == LittleEndian(p) < 0x1_0000_0000_0000_0000
  {
    hide Two;
    TwoTo64();
    TwoSmall();
  }

  lemma FitsInBlock(n: nat, rate: Rate, k: nat)
    requires (Offset(n, rate)) % 8 + k <= 8
    ensures Offset(n, rate) + k <= rate
  {
    hide Offset;
  }

  lemma WholeBlock(n: nat, rate: Rate, k: nat)
    requires 0 < k && Offset(n, rate) + k <= rate && Offset(n + k, rate) == 0
    ensures Offset(n, rate) + k == rate
  {
    hide Offset;
    if Offset(n, rate) + k < rate { RemainderOfSum(n, k, rate); }
  }

  lemma PartOfBlock(n: nat, rate: Rate, k: nat)
    requires Offset(n, rate) + k <= rate && Offset(n + k, rate) != 0
    ensures Offset(n, rate) + k < rate
  {
    hide Offset;
    if Offset(n, rate) + k == rate { FullBlock(n, k, rate); }
  }

  /** After filling a lane, the position is a lane boundary. */
  lemma LaneBoundary(n: nat, k: nat, rate: Rate)
    requires k == 8 - Offset(n, rate) % 8
    ensures Offset(n + k, rate) % 8 == 0
  {
    hide Offset;
    var o := Offset(n, rate);
    if o + k < rate { RemainderOfSum(n, k, rate); } else { FullBlock(n, k, rate); }
  }

  lemma InsideLastLane(n: nat, rate: Rate, k: nat)
    requires (Offset(n, rate)) % 8 == 0 && k < 8
    ensures Offset(n, rate) + k < rate
  {
    hide Offset;
  }

  lemma OpeningBit(k: nat)
    requires k < 8
    ensures Shl(1, 8 * k) == InLane(0x01, k)
  {
    InLaneBound(1, k);
  }

  lemma ClosingBit(rate: Rate)
    ensures InLane(0x80, 7) == 0x8000_0000_0000_0000
    ensures (rate - 1) / 8 == rate / 8 - 1 && (rate - 1) % 8 == 7
  {
    hide Two;
    TwoTo64();
    TwoAdd(56, 8);
  }

  /** binary.LittleEndian.PutUint64. */
  function PutUint64(w: Word): (b: seq<Byte>)
    ensures |b| == 8
  {
    seq(8, i requires 0 <= i < 8 => (w / Two(8 * i)) % 256)
  }

  lemma LaneBytes(s: State, i: nat)
    requires i % 8 == 0 && i + 8 <= 200
    ensures StateBytes(s, i) + PutUint64(s[i / 8]) == StateBytes(s, i + 8)
  {
    hide Two;
    forall k | 0 <= k < 8
      ensures PutUint64(s[i / 8])[k] == StateByte(s, i + k)
    {
      assert (i + k) / 8 == i / 8 && (i + k) % 8 == k;
    }
  }

  lemma SqueezeBlock(rate: Rate, s: State, n: nat, i: nat)
    requires 0 < i <= n && i <= rate && (i == rate || i == n)
    ensures Squeeze(rate, s, n) == StateBytes(s, i) + (if i == n then [] else Squeeze(rate, Permutation(s), n - i))
  {
    hide Permutation, StateByte;
  }

  lemma NothingLeftToSqueeze(rate: Rate, s: State)
    ensures Squeeze(rate, s, 0) == []
  {
  }
}
