/** Normalisation of five-limb field elements, in place (field_5x52_impl.h). */
module FieldNormalize {
  import opened Machine
  import opened NumberTheory
  import opened Params
  import opened Bits
  import opened Field5x52

  const M52: int := 0xF_FFFF_FFFF_FFFF
  const M48: int := 0xFFFF_FFFF_FFFF

  /** Limbs of magnitude m: at most 2m(2^52 - 1), the top one 2m(2^48 - 1). */
  ghost predicate Magnitude(n: seq<uint64>, m: nat) {
    |n| == 5
    && n[0] as int <= 2 * m * M52 && n[1] as int <= 2 * m * M52 && n[2] as int <= 2 * m * M52
    && n[3] as int <= 2 * m * M52 && n[4] as int <= 2 * m * M48
  }

  /** The one addition that can wrap, the first of the first pass, does not. Every other one is safe up to magnitude 2048. */
  ghost predicate FirstAdditionFits(n: seq<uint64>)
    requires |n| == 5
  {
    n[0] as int + n[4] as int / 0x1_0000_0000_0000 * 0x1000003D1 < 0x1_0000_0000_0000_0000
  }

  /** What that addition takes away from the value. */
  ghost function Lost(n: seq<uint64>): int
    requires |n| == 5
  {
    if FirstAdditionFits(n) then 0 else 0x1_0000_0000_0000_0000
  }

  /** Fully reduced limbs: 52 bits each, 48 for the top one, value below P. */
  ghost predicate Normal(n: seq<uint64>) {
    |n| == 5
    && n[0] as int <= M52 && n[1] as int <= M52 && n[2] as int <= M52 && n[3] as int <= M52 && n[4] as int <= M48
    && Eval(n) < P
  }

  /** After the first pass: 52 bits each, the top limb 49, and the value below 2P. */
  ghost predicate Weak(n: seq<uint64>) {
    |n| == 5
    && n[0] as int <= M52 && n[1] as int <= M52 && n[2] as int <= M52 && n[3] as int <= M52
    && n[4] as int <= 2 * M48 && Eval(n) < 2 * P
  }

  lemma MagnitudeUpTo2047Fits(n: seq<uint64>, m: nat)
    requires m <= 2047 && Magnitude(n, m)
    ensures Magnitude(n, 2048) && FirstAdditionFits(n)
  {
    assert 2 * m * M52 <= 4094 * M52 && 2 * m * M48 <= 4094 * M48;
  }

  /** An element of magnitude 2048 with the residue 2^64: the addition wraps to 0, and all limbs of the result are 0. */
  function WrappingElement(): (n: seq<uint64>)
    ensures |n| == 5 && Magnitude(n, 2048) && !FirstAdditionFits(n) && Eval(n) == 0x1_0000_0000_0000_0000 + 0xFFF * P
  {
    [0xfffff000ffc2f3d1, 0, 0, 0, 0xFFF_0000_0000_0000]
  }

  /** The bound is sharp: the addition fits for every element of magnitude m exactly up to m = 2047, one less than the
      representation allows. */
  lemma FitsUpToMagnitude2047(m: nat)
    ensures (forall n :: Magnitude(n, m) ==> FirstAdditionFits(n)) <==> m <= 2047
  {
    if m <= 2047 {
      forall n | Magnitude(n, m) ensures FirstAdditionFits(n) { MagnitudeUpTo2047Fits(n, m); }
    } else {
      var n := WrappingElement();
      assert 2 * m * M52 >= 4096 * M52 && 2 * m * M48 >= 4096 * M48;
      assert Magnitude(n, m) && !FirstAdditionFits(n);
    }
  }

  /** A value without what is lost has the same residue only if nothing is. */
  lemma LossShows(n: seq<uint64>)
    requires |n| == 5
    ensures Cong(Eval(n) - Lost(n), Eval(n), P) <==> FirstAdditionFits(n)
    ensures (Eval(n) - Lost(n)) % P == Eval(n) % P <==> FirstAdditionFits(n)
    ensures (Eval(n) - Lost(n)) % P == 0 <==> Eval(n) % P == Lost(n)
    ensures Lost(n) == if FirstAdditionFits(n) then 0 else 0x1_0000_0000_0000_0000
  {
    hide Eval;
    if !FirstAdditionFits(n) { SmallShift(Eval(n), 0x1_0000_0000_0000_0000); }
  }

  lemma SmallShift(v: int, d: int)
    requires 0 < d < P
    ensures (v - d) % P != v % P && ((v - d) % P == 0 <==> v % P == d)
  {
    var r := v % P;
    if r >= d {
      RemainderIsUnique(v - d, v / P, r - d, P);
    } else {
      RemainderIsUnique(v - d, v / P - 1, r - d + P, P);
    }
  }

  /** hi += lo >> 52; lo &= 2^52 - 1. */
  method Carry(lo: uint64, hi: uint64) returns (lo': uint64, hi': uint64)
    requires hi as int + lo as int / 0x10_0000_0000_0000 < 0x1_0000_0000_0000_0000
    ensures lo' as int <= M52 && lo' as int == lo as int % 0x10_0000_0000_0000
    ensures lo' as int + 0x10_0000_0000_0000 * hi' as int == lo as int + 0x10_0000_0000_0000 * hi as int
  {
    lo', hi' := lo % 0x10_0000_0000_0000, hi + lo / 0x10_0000_0000_0000;
  }

  /** The first pass: x = n4 >> 48 multiples of P are taken off, and what the addition loses. */
  method FirstPass(n0: uint64, n1: uint64, n2: uint64, n3: uint64, n4: uint64)
    returns (t0: uint64, t1: uint64, t2: uint64, t3: uint64, t4: uint64, ghost x: int)
    requires Magnitude([n0, n1, n2, n3, n4], 2048)
    ensures Weak([t0, t1, t2, t3, t4])
    ensures Eval([t0, t1, t2, t3, t4]) == Eval([n0, n1, n2, n3, n4]) - Lost([n0, n1, n2, n3, n4]) - x * P
  {
    var q := n4 / 0x1_0000_0000_0000;
    x := q as int;
    var f0 := AddWrap(n0, q * 0x1000003D1);
    t0, t1, t2, t3, t4 := FirstCarries(n0, f0, n1, n2, n3, n4, x);
  }

  /** An addition modulo 2^64. */
  function AddWrap(x: uint64, y: uint64): (r: uint64)
    ensures r as int == x as int + y as int - if x as int + y as int < 0x1_0000_0000_0000_0000 then 0 else 0x1_0000_0000_0000_0000
  {
    ((x as int + y as int) % 0x1_0000_0000_0000_0000) as uint64
  }

  /** Its carries, when the top bits of n4 have been folded into n0, which gives f0. */
  method FirstCarries(ghost n0: uint64, f0: uint64, n1: uint64, n2: uint64, n3: uint64, n4: uint64, ghost x: int)
    returns (t0: uint64, t1: uint64, t2: uint64, t3: uint64, t4: uint64)
    requires Magnitude([n0, n1, n2, n3, n4], 2048)
    requires x == n4 as int / 0x1_0000_0000_0000
    requires f0 as int == n0 as int + x * 0x1000003D1 - Lost([n0, n1, n2, n3, n4])
    ensures Weak([t0, t1, t2, t3, t4]) && t0 as int == f0 as int % 0x10_0000_0000_0000
    ensures Eval([t0, t1, t2, t3, t4]) == Eval([n0, n1, n2, n3, n4]) - Lost([n0, n1, n2, n3, n4]) - x * P
  {
    t0, t1, t2, t3, t4 := f0, n1, n2, n3, n4 % 0x1_0000_0000_0000;
    t0, t1 := Carry(t0, t1);
    t1, t2 := Carry(t1, t2);
    t2, t3 := Carry(t2, t3);
    t3, t4 := Carry(t3, t4);
  }

  /** The comparison with P made limb by limb. */
  lemma AtLeastP(t: seq<uint64>)
    requires Weak(t)
    ensures Eval(t) >= P <==>
      t[4] as int >= 0x1_0000_0000_0000
      || (t[4] as int == M48 && t[3] as int == M52 && t[2] as int == M52 && t[1] as int == M52
          && t[0] >= 0xF_FFFE_FFFF_FC2F)
  {
  }

  lemma WeakIsNormal(t: seq<uint64>)
    requires Weak(t)
    ensures Eval(t) < P ==> Normal(t)
  {
    AtLeastP(t);
  }

  lemma NormalValue(t: seq<uint64>)
    requires Normal(t)
    ensures 0 <= Eval(t) < P
  {
  }

  /** The masks m and z1: the conjunction of limbs is all ones exactly when each of them is. */
  lemma AndThree(x: nat, y: nat, z: nat)
    requires x <= M52 && y <= M52 && z <= M52
    ensures And(And(x, y), z) == M52 <==> x == M52 && y == M52 && z == M52
    ensures And(And(x, y), z) <= M52
  {
    Ones52();
    AndAllOnes(x, y, 52);
    AndAllOnes(And(x, y), z, 52);
  }

  /** Whether the first pass left a value of at least P, from the carry bit and the masks. */
  method NeedsSubtraction(t0: uint64, t1: uint64, t2: uint64, t3: uint64, t4: uint64) returns (x: uint64)
    requires Weak([t0, t1, t2, t3, t4])
    ensures x == if Eval([t0, t1, t2, t3, t4]) >= P then 1 else 0
  {
    AtLeastP([t0, t1, t2, t3, t4]);
    AndThree(t1 as nat, t2 as nat, t3 as nat);
    var m := And(And(t1 as nat, t2 as nat), t3 as nat);
    x := if t4 / 0x1_0000_0000_0000 == 1 || (t4 as int == M48 && m == M52 && t0 >= 0xF_FFFE_FFFF_FC2F) then 1 else 0;
  }

  /** The final reduction, applied when x = 1. */
  method SecondPass(n0: uint64, n1: uint64, n2: uint64, n3: uint64, n4: uint64, x: uint64)
    returns (t0: uint64, t1: uint64, t2: uint64, t3: uint64, t4: uint64)
    requires Weak([n0, n1, n2, n3, n4]) && x == if Eval([n0, n1, n2, n3, n4]) >= P then 1 else 0
    ensures Normal([t0, t1, t2, t3, t4])
    ensures Eval([t0, t1, t2, t3, t4]) == Eval([n0, n1, n2, n3, n4]) - x as int * P
  {
    t0, t1, t2, t3, t4 := n0 + x * 0x1000003D1, n1, n2, n3, n4;
    t0, t1 := Carry(t0, t1);
    t1, t2 := Carry(t1, t2);
    t2, t3 := Carry(t2, t3);
    t3, t4 := Carry(t3, t4);
    TopBitIsCarry(t0, t1, t2, t3, t4, x);
    t4 := t4 % 0x1_0000_0000_0000;  // masks off the multiple of 2^256
  }

  lemma TopBitIsCarry(t0: uint64, t1: uint64, t2: uint64, t3: uint64, t4: uint64, x: uint64)
    requires t0 as int <= M52 && t1 as int <= M52 && t2 as int <= M52 && t3 as int <= M52
    requires 0 <= Eval([t0, t1, t2, t3, t4]) - 0x1000003D1 * x as int - x as int * P < P && x <= 1
    ensures t4 / 0x1_0000_0000_0000 == x
  {
  }

  lemma CongShares(a: int, b: int, c: int)
    requires Cong(a, b, P)
    ensures Cong(a, c, P) <==> Cong(b, c, P)
  {
  }

  lemma RemainderAfterSubtraction(v: int, w: int, x: int)
    requires w == v - x * P && 0 <= w < P
    ensures w == v % P
  {
    RemainderIsUnique(v, x, w, P);
  }

  /** secp256k1_fe_normalize: the unique reduced form of the same residue, if and only if the first addition fits. */
  method Normalize(r: array<uint64>)
    requires r.Length == 5 && Magnitude(r[..], 2048)
    modifies r
    ensures Normal(r[..]) && Eval(r[..]) == (Eval(old(r[..])) - Lost(old(r[..]))) % P
    ensures Eval(r[..]) == Eval(old(r[..])) % P <==> FirstAdditionFits(old(r[..]))
  {
    hide Eval, Lost, Weak, Normal, Magnitude, FirstAdditionFits;
    assert r[..] == [r[0], r[1], r[2], r[3], r[4]];
    var t0, t1, t2, t3, t4, q := FirstPass(r[0], r[1], r[2], r[3], r[4]);
    var x := NeedsSubtraction(t0, t1, t2, t3, t4);
    t0, t1, t2, t3, t4 := SecondPass(t0, t1, t2, t3, t4, x);  // always made, to take the same time
    r[0], r[1], r[2], r[3], r[4] := t0, t1, t2, t3, t4;
    assert r[..] == [t0, t1, t2, t3, t4];
    NormalValue(r[..]);
    RemainderAfterSubtraction(Eval(old(r[..])) - Lost(old(r[..])), Eval(r[..]), q + x as int);
    LossShows(old(r[..]));
  }

  /** secp256k1_fe_normalize_var: the same, skipping the second pass when it would do nothing. */
  method NormalizeVar(r: array<uint64>)
    requires r.Length == 5 && Magnitude(r[..], 2048)
    modifies r
    ensures Normal(r[..]) && Eval(r[..]) == (Eval(old(r[..])) - Lost(old(r[..]))) % P
    ensures Eval(r[..]) == Eval(old(r[..])) % P <==> FirstAdditionFits(old(r[..]))
  {
    hide Eval, Lost, Weak, Normal, Magnitude, FirstAdditionFits;
    assert r[..] == [r[0], r[1], r[2], r[3], r[4]];
    var t0, t1, t2, t3, t4, q := FirstPass(r[0], r[1], r[2], r[3], r[4]);
    var x := NeedsSubtraction(t0, t1, t2, t3, t4);
    WeakIsNormal([t0, t1, t2, t3, t4]);
    if x == 1 {
      t0, t1, t2, t3, t4 := SecondPass(t0, t1, t2, t3, t4, x);
    }
    r[0], r[1], r[2], r[3], r[4] := t0, t1, t2, t3, t4;
    assert r[..] == [t0, t1, t2, t3, t4];
    NormalValue(r[..]);
    RemainderAfterSubtraction(Eval(old(r[..])) - Lost(old(r[..])), Eval(r[..]), q + x as int);
    LossShows(old(r[..]));
  }

  /** secp256k1_fe_normalize_weak: magnitude 1, same residue. */
  method NormalizeWeak(r: array<uint64>)
    requires r.Length == 5 && Magnitude(r[..], 2048)
    modifies r
    ensures Weak(r[..]) && Magnitude(r[..], 1) && Cong(Eval(r[..]), Eval(old(r[..])) - Lost(old(r[..])), P)
    ensures Cong(Eval(r[..]), Eval(old(r[..])), P) <==> FirstAdditionFits(old(r[..]))
  {
    hide Eval, Lost, Cong, FirstAdditionFits;
    assert r[..] == [r[0], r[1], r[2], r[3], r[4]];
    var t0, t1, t2, t3, t4, q := FirstPass(r[0], r[1], r[2], r[3], r[4]);
    r[0], r[1], r[2], r[3], r[4] := t0, t1, t2, t3, t4;
    assert r[..] == [t0, t1, t2, t3, t4];
    SameResidue(Eval(r[..]), Eval(old(r[..])) - Lost(old(r[..])), q);
    LossShows(old(r[..]));
    CongShares(Eval(r[..]), Eval(old(r[..])) - Lost(old(r[..])), Eval(old(r[..])));
  }

  lemma SameResidue(w: int, v: int, q: int)
    requires w == v - q * P
    ensures Cong(w, v, P)
  {
    CongFromDifference(w, v, -q, P);
  }

  /** A value below 2P is 0 modulo P exactly when it is 0 or P, seen on its limbs. */
  lemma ZeroOrP(t: seq<uint64>)
    requires Weak(t)
    ensures Eval(t) % P == 0 <==>
      (t[0] == 0 && t[1] == 0 && t[2] == 0 && t[3] == 0 && t[4] == 0)
      || (t[0] == 0xF_FFFE_FFFF_FC2F && t[1] as int == M52 && t[2] as int == M52 && t[3] as int == M52 && t[4] as int == M48)
  {
    if Eval(t) < P {
      RemainderIsUnique(Eval(t), 0, Eval(t), P);
    } else {
      RemainderIsUnique(Eval(t), 1, Eval(t) - P, P);
    }
  }

  /** The accumulated tests: z0 is the disjunction of the limbs, z1 the conjunction of the limbs of P's complement. */
  function Z0(t0: nat, t1: nat, t2: nat, t3: nat, t4: nat): nat {
    Or(Or(Or(Or(t0, t1), t2), t3), t4)
  }

  function Z1(t0: nat, t1: nat, t2: nat, t3: nat, t4: nat): nat {
    And(And(And(And(Xor(t0, 0x1_0000_03D0), t1), t2), t3), Xor(t4, 0xF_0000_0000_0000))
  }

  lemma ZeroTests(t0: nat, t1: nat, t2: nat, t3: nat, t4: nat)
    requires t0 <= M52 && t1 <= M52 && t2 <= M52 && t3 <= M52 && t4 <= M52
    ensures Z0(t0, t1, t2, t3, t4) == 0 <==> t0 == 0 && t1 == 0 && t2 == 0 && t3 == 0 && t4 == 0
    ensures Z1(t0, t1, t2, t3, t4) == M52 <==>
      t0 == 0xF_FFFE_FFFF_FC2F && t1 == M52 && t2 == M52 && t3 == M52 && t4 == M48
  {
    OrZero(t0, t1);
    OrZero(Or(t0, t1), t2);
    OrZero(Or(Or(t0, t1), t2), t3);
    OrZero(Or(Or(Or(t0, t1), t2), t3), t4);
    Ones52();
    LowLimbTest(t0);
    XorAllOnes(t4, 0xF_0000_0000_0000, 52);
    var z := Xor(t0, 0x1_0000_03D0);
    AndAllOnes(z, t1, 52);
    AndAllOnes(And(z, t1), t2, 52);
    AndAllOnes(And(And(z, t1), t2), t3, 52);
    AndAllOnes(And(And(And(z, t1), t2), t3), Xor(t4, 0xF_0000_0000_0000), 52);
  }

  lemma LowLimbTest(z: nat)
    requires z <= M52
    ensures Xor(z, 0x1_0000_03D0) <= M52
    ensures Xor(z, 0x1_0000_03D0) == M52 <==> z == 0xF_FFFE_FFFF_FC2F
  {
    Ones52();
    XorAllOnes(z, 0x1_0000_03D0, 52);
  }

  /** secp256k1_fe_normalizes_to_zero. */
  method NormalizesToZero(r: array<uint64>) returns (zero: bool)
    requires r.Length == 5 && Magnitude(r[..], 2048)
    ensures zero <==> Eval(r[..]) % P == Lost(r[..])
    ensures (zero <==> Eval(r[..]) % P == 0) <==> FirstAdditionFits(r[..]) || Eval(r[..]) % P != 0x1_0000_0000_0000_0000
  {
    hide Eval, Lost, Weak, Magnitude, FirstAdditionFits, Z0, Z1;
    assert r[..] == [r[0], r[1], r[2], r[3], r[4]];
    var t0, t1, t2, t3, t4, q := FirstPass(r[0], r[1], r[2], r[3], r[4]);
    WeakResidue(Eval(r[..]) - Lost(r[..]), t0, t1, t2, t3, t4, q);
    zero := Z0(t0 as nat, t1 as nat, t2 as nat, t3 as nat, t4 as nat) == 0
         || Z1(t0 as nat, t1 as nat, t2 as nat, t3 as nat, t4 as nat) == M52;
    Verdict(r[..], zero);
  }

  /** A multiple of P shows one of two low limbs as soon as the top bits have been folded in. */
  lemma LowLimbOfMultiple(n0: uint64, n1: uint64, n2: uint64, n3: uint64, n4: uint64, v: int)
    requires Magnitude([n0, n1, n2, n3, n4], 2048) && v % P == 0
    requires v == Eval([n0, n1, n2, n3, n4]) || v == Eval([n0, n1, n2, n3, n4]) - Lost([n0, n1, n2, n3, n4])
    ensures
      var low := (n0 as int + n4 as int / 0x1_0000_0000_0000 * 0x1000003D1) % 0x10_0000_0000_0000;
      low == 0xF_FFFE_FFFF_FC2F || (low == 0 && v == n4 as int / 0x1_0000_0000_0000 * P)
  {
    var q, top := n4 as int / 0x1_0000_0000_0000, n4 as int % 0x1_0000_0000_0000;
    var w := if v == Eval([n0, n1, n2, n3, n4]) then 0 else 0x1000;
    var low, rest := n0 as int + q * 0x1000003D1, n1 as int + B1 * n2 as int + B2 * n3 as int + B3 * top - w;
    assert v == low + B1 * rest + q * P;
    RestIsSmall(n0, n1, n2, n3, n4, w);
    MultipleBelow2P(v, q, low, rest);
  }

  lemma RestIsSmall(n0: uint64, n1: uint64, n2: uint64, n3: uint64, n4: uint64, w: int)
    requires Magnitude([n0, n1, n2, n3, n4], 2048) && (w == 0 || w == 0x1000)
    requires w != 0 ==> !FirstAdditionFits([n0, n1, n2, n3, n4])
    ensures
      var q, top := n4 as int / 0x1_0000_0000_0000, n4 as int % 0x1_0000_0000_0000;
      0 <= n0 as int + q * 0x1000003D1 + B1 * (n1 as int + B1 * n2 as int + B2 * n3 as int + B3 * top - w) < 2 * P
  {
  }

  lemma MultipleBelow2P(v: int, q: int, low: int, rest: int)
    requires v % P == 0 && v == low + B1 * rest + q * P && 0 <= low + B1 * rest < 2 * P
    ensures low % B1 == 0xF_FFFE_FFFF_FC2F || (low % B1 == 0 && v == q * P)
  {
    var k := v / P - q;
    assert v == v / P * P;
    assert low + B1 * rest == k * P;
    assert k == 0 || k == 1;
    if k == 0 {
      RemainderIsUnique(low, -rest, 0, B1);
    } else {
      RemainderIsUnique(low, P / B1 - rest, 0xF_FFFE_FFFF_FC2F, B1);
    }
  }

  /** No multiple of P wraps. */
  lemma ZeroFits(n0: uint64, n1: uint64, n2: uint64, n3: uint64, n4: uint64)
    requires Magnitude([n0, n1, n2, n3, n4], 2048)
    ensures Eval([n0, n1, n2, n3, n4]) % P == 0 ==> FirstAdditionFits([n0, n1, n2, n3, n4])
  {
    var n := [n0, n1, n2, n3, n4];
    if Eval(n) % P == 0 && !FirstAdditionFits(n) {
      var q, top := n4 as int / 0x1_0000_0000_0000, n4 as int % 0x1_0000_0000_0000;
      LowLimbOfMultiple(n0, n1, n2, n3, n4, Eval(n));
      var rest := n1 as int + B1 * n2 as int + B2 * n3 as int + B3 * top;
      assert Eval(n) - q * P == n0 as int + q * 0x1000003D1 + B1 * rest;
      var f := n0 as int + q * 0x1000003D1;
      RemainderIsUnique(f, 0x1000, f - 0x1_0000_0000_0000_0000, B1);
    }
  }

  /** The addition that may wrap, as the methods make it. */
  lemma FoldedLimb(n0: uint64, n1: uint64, n2: uint64, n3: uint64, n4: uint64)
    ensures AddWrap(n0, n4 / 0x1_0000_0000_0000 * 0x1000003D1) as int
         == n0 as int + n4 as int / 0x1_0000_0000_0000 * 0x1000003D1 - Lost([n0, n1, n2, n3, n4])
  {
  }

  /** What the tests for zero find out: they are wrong exactly on the elements that wrap and have the residue 2^64. */
  lemma Verdict(n: seq<uint64>, zero: bool)
    requires Magnitude(n, 2048) && (zero <==> (Eval(n) - Lost(n)) % P == 0)
    ensures zero <==> Eval(n) % P == Lost(n)
    ensures (zero <==> Eval(n) % P == 0) <==> FirstAdditionFits(n) || Eval(n) % P != 0x1_0000_0000_0000_0000
  {
    hide Eval, FirstAdditionFits;
    LossShows(n);
    assert n == [n[0], n[1], n[2], n[3], n[4]];
    ZeroFits(n[0], n[1], n[2], n[3], n[4]);
  }

  lemma LowAfterLoss(x: int, lost: int)
    requires lost == 0 || lost == 0x1_0000_0000_0000_0000
    ensures (x - lost) % B1 == x % B1
  {
    CongFromDifference(x - lost, x, if lost == 0 then 0 else -0x1000, B1);
  }

  /** So another low limb rules out that the value is 0, or 2^64 when the addition wraps. */
  lemma NotZero(n0: uint64, n1: uint64, n2: uint64, n3: uint64, n4: uint64, f0: int)
    requires Magnitude([n0, n1, n2, n3, n4], 2048)
    requires f0 == n0 as int + n4 as int / 0x1_0000_0000_0000 * 0x1000003D1 - Lost([n0, n1, n2, n3, n4])
    requires f0 % B1 != 0 && f0 % B1 != 0xF_FFFE_FFFF_FC2F
    ensures (Eval([n0, n1, n2, n3, n4]) - Lost([n0, n1, n2, n3, n4])) % P != 0
  {
    hide Eval, Magnitude, FirstAdditionFits;
    var n := [n0, n1, n2, n3, n4];
    LowAfterLoss(f0 + Lost(n), Lost(n));
    if (Eval(n) - Lost(n)) % P == 0 {
      LowLimbOfMultiple(n0, n1, n2, n3, n4, Eval(n) - Lost(n));
    }
  }

  /** Folds the top bits into the low limb, which alone rules out most values. */
  method FoldAndTest(n0: uint64, n1: uint64, n2: uint64, n3: uint64, n4: uint64) returns (f0: uint64, nonzero: bool)
    requires Magnitude([n0, n1, n2, n3, n4], 2048)
    ensures f0 as int == n0 as int + n4 as int / 0x1_0000_0000_0000 * 0x1000003D1 - Lost([n0, n1, n2, n3, n4])
    ensures nonzero ==> (Eval([n0, n1, n2, n3, n4]) - Lost([n0, n1, n2, n3, n4])) % P != 0
  {
    hide Eval, Lost, Magnitude, Xor;
    FoldedLimb(n0, n1, n2, n3, n4);
    f0 := AddWrap(n0, n4 / 0x1_0000_0000_0000 * 0x1000003D1);
    var z0 := (f0 % 0x10_0000_0000_0000) as nat;
    LowLimbTest(z0);
    nonzero := z0 != 0 && Xor(z0, 0x1_0000_03D0) != M52;
    if nonzero {
      NotZero(n0, n1, n2, n3, n4, f0 as int);
    }
  }

  /** secp256k1_fe_normalizes_to_zero_var: the other limbs are looked at only if the low one leaves it open. */
  method NormalizesToZeroVar(r: array<uint64>) returns (zero: bool)
    requires r.Length == 5 && Magnitude(r[..], 2048)
    ensures zero <==> Eval(r[..]) % P == Lost(r[..])
    ensures (zero <==> Eval(r[..]) % P == 0) <==> FirstAdditionFits(r[..]) || Eval(r[..]) % P != 0x1_0000_0000_0000_0000
  {
    hide Eval, Lost, Weak, Magnitude, FirstAdditionFits, Z0, Z1;
    assert r[..] == [r[0], r[1], r[2], r[3], r[4]];
    var t0, nonzero := FoldAndTest(r[0], r[1], r[2], r[3], r[4]);
    if nonzero {
      Verdict(r[..], false);
      return false;
    }
    ghost var x := r[4] as int / 0x1_0000_0000_0000;
    var t1, t2, t3, t4;
    t0, t1, t2, t3, t4 := FirstCarries(r[0], t0, r[1], r[2], r[3], r[4], x);
    WeakResidue(Eval(r[..]) - Lost(r[..]), t0, t1, t2, t3, t4, x);
    zero := Z0(t0 as nat, t1 as nat, t2 as nat, t3 as nat, t4 as nat) == 0
         || Z1(t0 as nat, t1 as nat, t2 as nat, t3 as nat, t4 as nat) == M52;
    Verdict(r[..], zero);
  }

  /** The verdict read off the limbs left by the first pass. */
  lemma WeakResidue(v: int, t0: uint64, t1: uint64, t2: uint64, t3: uint64, t4: uint64, q: int)
    requires Weak([t0, t1, t2, t3, t4]) && Eval([t0, t1, t2, t3, t4]) == v - q * P
    ensures (Z0(t0 as nat, t1 as nat, t2 as nat, t3 as nat, t4 as nat) == 0
             || Z1(t0 as nat, t1 as nat, t2 as nat, t3 as nat, t4 as nat) == M52) <==> v % P == 0
  {
    hide Z0, Z1;
    CongFromDifference(Eval([t0, t1, t2, t3, t4]), v, -q, P);
    ZeroOrP([t0, t1, t2, t3, t4]);
    ZeroTests(t0 as nat, t1 as nat, t2 as nat, t3 as nat, t4 as nat);
  }
}
