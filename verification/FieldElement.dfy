/** secp256k1_fe with its VERIFY fields: five limbs, the magnitude that bounds them, and whether they are
    normalised (field_5x52_impl.h). The routines are the limb routines of Field5x52 and FieldNormalize; what they
    promise is stated about residues, and the magnitude rules of field.h are their preconditions. */
module FieldElement {
  import opened Machine
  import opened NumberTheory
  import opened Params
  import opened Bits
  import opened Field5x52
  import opened FieldNormalize

  type Limbs = n: seq<uint64> | |n| == 5 witness [0, 0, 0, 0, 0]

  datatype Fe = Fe(n: Limbs, magnitude: nat, normalized: bool) {
    /** secp256k1_fe_verify. */
    ghost predicate Valid() {
      FieldNormalize.Magnitude(n, magnitude) && magnitude <= 2048
      && (normalized ==> magnitude <= 1 && Normal(n))
    }
  }

  /** The residue of an integer, in [0, P). It is defined by steps of P, through functions that call each other, rather than
      as e % P, so that an equation between residues does not turn into arithmetic modulo a number of 256 bits wherever it
      is stated: unfolding stops before the arithmetic. ResIsMod connects both. */
  function Res(e: int): int {
    Reduce(e)
  }

  function Reduce(e: int): int
    decreases Distance(e), 2
  {
    ReduceAgain(e)
  }

  function ReduceAgain(e: int): int
    decreases Distance(e), 1
  {
    ReduceStep(e)
  }

  function ReduceStep(e: int): int
    decreases Distance(e), 0
  {
    if 0 <= e < P then e else if e < 0 then Reduce(e + P) else Reduce(e - P)
  }

  function Distance(e: int): nat {
    if e < 0 then P - e else e
  }

  lemma {:induction false} ResIsMod(e: int)
    ensures Res(e) == e % P
    decreases Distance(e)
  {
    assert Reduce(e) == ReduceAgain(e) == ReduceStep(e);
    if e < 0 {
      ResIsMod(e + P);
    } else if e >= P {
      ResIsMod(e - P);
    }
  }

  lemma ResIsCong(a: int, b: int)
    ensures Res(a) == Res(b) <==> Cong(a, b, P)
  {
    hide Res;
    ResIsMod(a);
    ResIsMod(b);
  }

  /** x y, by repeated addition: the definitions below use it for the same reason. */
  function Mul(x: int, y: int): int
    decreases if y < 0 then -y else y
  {
    if y == 0 then 0 else if y > 0 then Mul(x, y - 1) + x else Mul(x, y + 1) - x
  }

  lemma {:induction false} MulIsProduct(x: int, y: int)
    ensures Mul(x, y) == x * y
    decreases if y < 0 then -y else y
  {
    if y > 0 { MulIsProduct(x, y - 1); } else if y < 0 { MulIsProduct(x, y + 1); }
  }

  lemma Products()
    ensures forall x, y {:trigger Mul(x, y)} :: Mul(x, y) == x * y
  {
    forall x: int, y: int ensures Mul(x, y) == x * y { MulIsProduct(x, y); }
  }

  function MulP(a: int, b: int): int {
    Res(Mul(a, b))
  }

  function AddP(a: int, b: int): int {
    Res(a + b)
  }

  function SubP(a: int, b: int): int {
    Res(a - b)
  }

  /** The field element a represents. */
  function Value(a: Fe): int {
    Res(Eval(a.n))
  }

  lemma ResIdempotent(e: int)
    ensures 0 <= Res(e) < P && Res(Res(e)) == Res(e)
  {
    hide Res;
    ResIsMod(e);
    ResOfSmall(Res(e));
  }

  /** Written without the bounds, for the same reason. */
  predicate IsResidue(a: int) {
    Res(a) == a
  }

  lemma ResidueInRange(a: int)
    ensures IsResidue(a) <==> 0 <= a < P
  {
    hide Res;
    ResIsMod(a);
  }

  lemma ResOfSmall(e: int)
    ensures 0 <= e < P ==> Res(e) == e
  {
    hide Res;
    ResIsMod(e);
  }

  lemma ValueIsResidue(a: Fe)
    ensures 0 <= Value(a) < P && Res(Value(a)) == Value(a)
  {
    ResIdempotent(Eval(a.n));
  }

  lemma MulRes(e: int, f: int)
    ensures MulP(Res(e), Res(f)) == Res(e * f)
  {
    Products();
    hide Res;
    ResIsMod(e); ResIsMod(f); ResIsMod(Res(e) * Res(f)); ResIsMod(e * f);
    ModMul(e, f, P);
  }

  lemma AddRes(e: int, f: int)
    ensures AddP(Res(e), Res(f)) == Res(e + f) && SubP(Res(e), Res(f)) == Res(e - f)
  {
    hide Res;
    ResIsMod(e); ResIsMod(f);
    CongSelf(e, P);
    CongSelf(f, P);
    CongAdd(Res(e), e, Res(f), f, P);
    ResIsCong(Res(e) + Res(f), e + f);
    ResIsCong(Res(e) - Res(f), e - f);
  }

  /** Multiples of P do not matter. */
  lemma ResShift(e: int, k: int)
    ensures Res(e + k * P) == Res(e)
  {
    hide Res;
    CongFromDifference(e + k * P, e, k, P);
    ResIsCong(e + k * P, e);
  }

  // ------------------------------------------------------------ the routines

  lemma OperandOfMagnitude8(a: Fe)
    requires a.Valid() && a.magnitude <= 8
    ensures Operand(a.n)
  {
    assert 2 * a.magnitude * M52 <= 16 * M52 && 2 * a.magnitude * M48 <= 16 * M48;
  }

  lemma SumOfLimbs(a: seq<uint64>, b: seq<uint64>, c: seq<uint64>)
    requires |a| == |b| == |c| == 5
    requires forall i :: 0 <= i < 5 ==> c[i] as int == a[i] as int + b[i] as int
    ensures Eval(c) == Eval(a) + Eval(b)
  {
  }

  /** secp256k1_fe_mul. */
  method FeMul(a: Fe, b: Fe) returns (r: Fe)
    requires a.Valid() && b.Valid() && a.magnitude <= 8 && b.magnitude <= 8
    ensures r.Valid() && r.magnitude == 1 && !r.normalized
    ensures Value(r) == MulP(Value(a), Value(b))
  {
    OperandOfMagnitude8(a);
    OperandOfMagnitude8(b);
    var x, y := new uint64[5](i requires 0 <= i < 5 => a.n[i]), new uint64[5](i requires 0 <= i < 5 => b.n[i]);
    assert x[..] == a.n && y[..] == b.n;
    hide Res, Eval;
    MulInner(x, x, y);
    r := Fe(x[..], 1, false);
    ResIsCong(Eval(r.n), Eval(a.n) * Eval(b.n));
    MulRes(Eval(a.n), Eval(b.n));
  }

  /** secp256k1_fe_sqr. */
  method FeSqr(a: Fe) returns (r: Fe)
    requires a.Valid() && a.magnitude <= 8
    ensures r.Valid() && r.magnitude == 1 && !r.normalized
    ensures Value(r) == MulP(Value(a), Value(a))
  {
    OperandOfMagnitude8(a);
    var x := new uint64[5](i requires 0 <= i < 5 => a.n[i]);
    assert x[..] == a.n;
    hide Res, Eval;
    SqrInner(x, x);
    r := Fe(x[..], 1, false);
    ResIsCong(Eval(r.n), Eval(a.n) * Eval(a.n));
    MulRes(Eval(a.n), Eval(a.n));
  }

  /** secp256k1_fe_add: magnitudes add up. */
  method FeAdd(r: Fe, a: Fe) returns (r': Fe)
    requires r.Valid() && a.Valid() && r.magnitude + a.magnitude <= 2048
    ensures r'.Valid() && r'.magnitude == r.magnitude + a.magnitude && !r'.normalized
    ensures Value(r') == AddP(Value(r), Value(a))
  {
    hide Eval;
    MagnitudesAdd(r.magnitude, a.magnitude);
    r' := Fe([r.n[0] + a.n[0], r.n[1] + a.n[1], r.n[2] + a.n[2], r.n[3] + a.n[3], r.n[4] + a.n[4]],
             r.magnitude + a.magnitude, false);
    SumOfLimbs(r.n, a.n, r'.n);
    AddRes(Eval(r.n), Eval(a.n));
  }

  lemma MagnitudesAdd(m: nat, k: nat)
    requires m + k <= 2048
    ensures 2 * m * M52 + 2 * k * M52 == 2 * (m + k) * M52 <= 4096 * M52
    ensures 2 * m * M48 + 2 * k * M48 == 2 * (m + k) * M48 <= 4096 * M48
  {
  }

  /** secp256k1_fe_negate: subtracts from 2(m + 1) times P, so that no limb underflows. */
  method FeNegate(a: Fe, m: nat) returns (r: Fe)
    requires a.Valid() && a.magnitude <= m <= 2047
    ensures r.Valid() && r.magnitude == m + 1 && !r.normalized
    ensures Value(r) == SubP(0, Value(a))
  {
    hide Eval;
    NegationBounds(a, m);
    var k := 2 * (m as uint64 + 1);
    r := Fe([0xF_FFFE_FFFF_FC2F * k - a.n[0], 0xF_FFFF_FFFF_FFFF * k - a.n[1], 0xF_FFFF_FFFF_FFFF * k - a.n[2],
             0xF_FFFF_FFFF_FFFF * k - a.n[3], 0xFFFF_FFFF_FFFF * k - a.n[4]], m + 1, false);
    NegatedLimbs(a.n, r.n, k as int);
    ResShift(-Eval(a.n), k as int);
    AddRes(0, Eval(a.n));
    ResOfSmall(0);
  }

  lemma NegatedLimbs(a: seq<uint64>, r: seq<uint64>, k: int)
    requires |a| == |r| == 5
    requires r[0] as int == 0xF_FFFE_FFFF_FC2F * k - a[0] as int && r[1] as int == 0xF_FFFF_FFFF_FFFF * k - a[1] as int
    requires r[2] as int == 0xF_FFFF_FFFF_FFFF * k - a[2] as int && r[3] as int == 0xF_FFFF_FFFF_FFFF * k - a[3] as int
    requires r[4] as int == 0xFFFF_FFFF_FFFF * k - a[4] as int
    ensures Eval(r) == -Eval(a) + k * P
  {
  }

  lemma NegationBounds(a: Fe, m: nat)
    requires a.Valid() && a.magnitude <= m <= 2047
    ensures a.n[0] as int <= 0xF_FFFE_FFFF_FC2F * (2 * (m + 1)) && a.n[1] as int <= M52 * (2 * (m + 1))
    ensures a.n[2] as int <= M52 * (2 * (m + 1)) && a.n[3] as int <= M52 * (2 * (m + 1))
    ensures a.n[4] as int <= M48 * (2 * (m + 1))
  {
    assert 2 * a.magnitude * M52 <= 2 * m * M52 && 2 * a.magnitude * M48 <= 2 * m * M48;
  }

  /** secp256k1_fe_mul_int. */
  method FeMulInt(r: Fe, a: nat) returns (r': Fe)
    requires r.Valid() && r.magnitude * a <= 2048 && a <= 2048
    ensures r'.Valid() && r'.magnitude == r.magnitude * a && !r'.normalized
    ensures Value(r') == MulP(a, Value(r))
  {
    hide Res, Mul, Eval, MulP;
    IntBounds(r, a);
    var k := a as uint64;
    r' := Fe([r.n[0] * k, r.n[1] * k, r.n[2] * k, r.n[3] * k, r.n[4] * k], r.magnitude * a, false);
    ScaledValue(r.n, r'.n, a);
  }

  lemma ScaledValue(n: seq<uint64>, n': seq<uint64>, a: nat)
    requires |n| == |n'| == 5 && a < P && forall i :: 0 <= i < 5 ==> n'[i] as int == n[i] as int * a
    ensures Res(Eval(n')) == MulP(a, Res(Eval(n)))
  {
    ScaledLimbs(n[0] as int, n[1] as int, n[2] as int, n[3] as int, n[4] as int, a);
    assert Eval(n') == a * Eval(n);
    hide Res, Mul, Eval;
    MulIsProduct(a, Res(Eval(n)));
    MulIsProduct(Res(a), Res(Eval(n)));
    MulRes(a, Eval(n));
    ResOfSmall(a);
  }

  lemma IntBounds(r: Fe, a: nat)
    requires r.Valid() && r.magnitude * a <= 2048
    ensures 0 <= r.n[0] as int * a <= 2 * (r.magnitude * a) * M52 <= 4096 * M52
    ensures 0 <= r.n[1] as int * a <= 2 * (r.magnitude * a) * M52
    ensures 0 <= r.n[2] as int * a <= 2 * (r.magnitude * a) * M52
    ensures 0 <= r.n[3] as int * a <= 2 * (r.magnitude * a) * M52
    ensures 0 <= r.n[4] as int * a <= 2 * (r.magnitude * a) * M48 <= 4096 * M48
  {
    ScaledBound(r.n[0] as int, r.magnitude, a, M52);
    ScaledBound(r.n[1] as int, r.magnitude, a, M52);
    ScaledBound(r.n[2] as int, r.magnitude, a, M52);
    ScaledBound(r.n[3] as int, r.magnitude, a, M52);
    ScaledBound(r.n[4] as int, r.magnitude, a, M48);
  }

  lemma ScaledBound(x: int, m: nat, a: nat, c: int)
    requires 0 <= x <= 2 * m * c && c > 0
    ensures 0 <= x * a <= 2 * (m * a) * c
  {
    assert x * a <= (2 * m * c) * a;
    assert (2 * m * c) * a == 2 * (m * a) * c;
  }

  lemma ScaledLimbs(n0: int, n1: int, n2: int, n3: int, n4: int, a: int)
    ensures n0 * a + B1 * (n1 * a) + B2 * (n2 * a) + B3 * (n3 * a) + B4 * (n4 * a)
         == a * (n0 + B1 * n1 + B2 * n2 + B3 * n3 + B4 * n4)
  {
  }

  lemma Fits(r: Fe)
    requires r.Valid()
    ensures FieldNormalize.Magnitude(r.n, 2048) && (r.magnitude <= 2047 ==> FirstAdditionFits(r.n))
  {
    if r.magnitude <= 2047 { MagnitudeUpTo2047Fits(r.n, r.magnitude); }
  }

  /** secp256k1_fe_normalize_weak. */
  method FeNormalizeWeak(r: Fe) returns (r': Fe)
    requires r.Valid()
    ensures r'.Valid() && r'.magnitude == 1 && (r'.normalized ==> r.normalized)
    ensures r.magnitude <= 2047 ==> Value(r') == Value(r)
    ensures Value(r') == Value(r) <==> FirstAdditionFits(r.n)
  {
    Fits(r);
    var x := new uint64[5](i requires 0 <= i < 5 => r.n[i]);
    assert x[..] == r.n;
    hide Res, Eval;
    NormalizeWeak(x);
    r' := Fe(x[..], 1, false);
    ResIsCong(Eval(r'.n), Eval(r.n));
  }

  /** secp256k1_fe_normalizes_to_zero, and its variant that may take less time. */
  method FeNormalizesToZero(r: Fe, variable: bool) returns (zero: bool)
    requires r.Valid()
    ensures r.magnitude <= 2047 ==> (zero <==> Value(r) == 0)
    ensures zero <==> Value(r) == Lost(r.n)
  {
    Fits(r);
    hide Res;
    ResIsMod(Eval(r.n));
    var x := new uint64[5](i requires 0 <= i < 5 => r.n[i]);
    assert x[..] == r.n;
    if variable {
      zero := NormalizesToZeroVar(x);
    } else {
      zero := NormalizesToZero(x);
    }
  }

  /** secp256k1_fe_set_int, for the small constants the callers use. */
  function FeSetInt(a: uint32): (r: Fe)
    ensures r.Valid() && r.magnitude == 1 && Value(r) == a as int
  {
    ResOfSmall(a as int);
    Fe([a as uint64, 0, 0, 0, 0], 1, true)
  }

  /** secp256k1_fe_clear. */
  function FeClear(): (r: Fe)
    ensures r.Valid() && Value(r) == 0
  {
    ResOfSmall(0);
    Fe([0, 0, 0, 0, 0], 0, true)
  }

  function CmovLimb(r: uint64, a: uint64, flag: bool): (x: uint64)
    ensures x == if flag then a else r
  {
    MaskSelects(r as nat, a as nat);
    var mask0, mask1 := if flag then 0 else Ones(64), if flag then Ones(64) else 0;
    Or(And(r as nat, mask0), And(a as nat, mask1)) as uint64
  }

  lemma MaskSelects(r: nat, a: nat)
    requires r < 0x1_0000_0000_0000_0000 && a < 0x1_0000_0000_0000_0000
    ensures And(r, Ones(64)) == r && And(a, Ones(64)) == a
  {
    Ones52();
    NibbleOfOnes(52); NibbleOfOnes(56); NibbleOfOnes(60);
    AndOnes(r, 64);
    AndOnes(a, 64);
  }

  lemma {:induction false} AndOnes(x: nat, k: nat)
    requires x <= Ones(k)
    ensures And(x, Ones(k)) == x
  {
    if k > 0 { AndOnes(x / 2, k - 1); }
  }

  /** secp256k1_fe_cmov, by masks: mask0 = flag + ~0 keeps the old limbs, its complement takes the new ones. */
  function FeCmov(r: Fe, a: Fe, flag: bool): (r': Fe)
    requires r.Valid() && a.Valid()
    ensures r'.Valid() && Value(r') == (if flag then Value(a) else Value(r))
    ensures r'.magnitude == if a.magnitude > r.magnitude then a.magnitude else r.magnitude
  {
    var m := if a.magnitude > r.magnitude then a.magnitude else r.magnitude;
    var n := [CmovLimb(r.n[0], a.n[0], flag), CmovLimb(r.n[1], a.n[1], flag), CmovLimb(r.n[2], a.n[2], flag),
              CmovLimb(r.n[3], a.n[3], flag), CmovLimb(r.n[4], a.n[4], flag)];
    assert n == if flag then a.n else r.n;
    CmovValid(if flag then a else r, m, r.normalized && a.normalized);
    Fe(n, m, r.normalized && a.normalized)
  }

  lemma CmovValid(a: Fe, m: nat, normalized: bool)
    requires a.Valid() && a.magnitude <= m <= 2048 && (normalized ==> a.normalized && m <= 1)
    ensures Fe(a.n, m, normalized).Valid()
  {
    hide Eval;
    MagnitudesMonotone(a.magnitude, m);
  }

  lemma MagnitudesMonotone(k: nat, m: nat)
    requires k <= m
    ensures 2 * k * M52 <= 2 * m * M52 && 2 * k * M48 <= 2 * m * M48
  {
  }
}
