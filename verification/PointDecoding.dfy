/** Field elements and points from numbers: fe_set_b32 (field_5x52_impl.h), and the point of a given abscissa
    (group_impl.h). */
module PointDecoding {
  import opened Machine
  import opened Params
  import opened Field5x52
  import opened FieldNormalize
  import opened FieldElement
  import opened FieldInverse
  import opened Curve
  import opened Jacobian
  import opened Group
  import opened GroupTables
  import opened Wnaf

  // ------------------------------------------------------------- field elements

  /** secp256k1_fe_set_b32 of the bytes of a number below P. */
  function FeSetB32(v: nat): (r: Fe)
    requires v < P
    ensures r.Valid() && r.magnitude == 1 && r.normalized && Eval(r.n) == v && Value(r) == v
  {
    var n := [(v % B1) as uint64, (v / B1 % B1) as uint64, (v / B2 % B1) as uint64, (v / B3 % B1) as uint64, (v / B4) as uint64];
    LimbsOf(v, v / B1, v / B2, v / B3, v / B4);
    ResOfSmall(v);
    NormalLimbs(n, v);
    Fe(n, 1, true)
  }

  lemma LimbsOf(v: nat, q1: int, q2: int, q3: int, q4: int)
    requires v < P && q1 == v / B1 && q2 == v / B2 && q3 == v / B3 && q4 == v / B4
    ensures v % B1 + B1 * (q1 % B1) + B2 * (q2 % B1) + B3 * (q3 % B1) + B4 * q4 == v && 0 <= q4 < 0x1_0000_0000_0000
  {
    assert q2 == q1 / B1 && q3 == q2 / B1 && q4 == q3 / B1 by { NestedDivisions(v); }
    assert v == q1 * B1 + v % B1 && q1 == q2 * B1 + q1 % B1 && q2 == q3 * B1 + q2 % B1 && q3 == q4 * B1 + q3 % B1;
  }

  lemma NestedDivisions(v: nat)
    ensures v / B2 == (v / B1) / B1 && v / B3 == (v / B2) / B1 && v / B4 == (v / B3) / B1
  {
    DivideTwice(v, B1, B1);
    DivideTwice(v, B2, B1);
    DivideTwice(v, B3, B1);
  }

  lemma NormalLimbs(n: seq<uint64>, v: nat)
    requires |n| == 5 && v < P && Eval(n) == v
    requires n[0] as int < B1 && n[1] as int < B1 && n[2] as int < B1 && n[3] as int < B1 && (n[4] as int) < 0x1_0000_0000_0000
    ensures Fe(n, 1, true).Valid()
  {
  }

  /** secp256k1_fe_normalize_var. */
  method FeNormalizeVar(r: Fe) returns (r': Fe)
    requires r.Valid()
    ensures r'.Valid() && r'.magnitude == 1 && r'.normalized && Value(r') == Eval(r'.n)
    ensures r.magnitude <= 2047 ==> Value(r') == Value(r)
    ensures Value(r') == Value(r) <==> FirstAdditionFits(r.n)
  {
    Fits(r);
    var x := new uint64[5](i requires 0 <= i < 5 => r.n[i]);
    assert x[..] == r.n;
    hide Res, Eval;
    NormalizeVar(x);
    r' := Fe(x[..], 1, true);
    ResIsMod(Eval(r.n));
    NormalValue(r'.n);
    ResOfSmall(Eval(r'.n));
  }

  /** secp256k1_fe_is_odd. */
  method FeIsOdd(a: Fe) returns (odd: bool)
    requires a.Valid() && a.normalized
    ensures odd <==> Value(a) % 2 == 1
  {
    NormalForm(a);
    LowLimbParity(a.n);
    odd := a.n[0] % 2 == 1;
  }

  lemma NormalForm(a: Fe)
    requires a.Valid() && a.normalized
    ensures Normal(a.n) && Value(a) == Eval(a.n)
  {
    hide Res, Eval;
    ResOfSmall(Eval(a.n));
    NonnegativeLimbs(a.n);
  }

  lemma NonnegativeLimbs(n: seq<uint64>)
    requires |n| == 5
    ensures Eval(n) >= 0
  {
  }

  lemma LowLimbParity(n: seq<uint64>)
    requires |n| == 5
    ensures Eval(n) % 2 == n[0] as int % 2
  {
    var h := B1 / 2 * n[1] as int + B2 / 2 * n[2] as int + B3 / 2 * n[3] as int + B4 / 2 * n[4] as int;
    assert Eval(n) == 2 * h + n[0] as int;
    EvenPart(h, n[0] as int);
  }

  lemma EvenPart(h: int, x: int)
    ensures (2 * h + x) % 2 == x % 2
  {
  }

  // ------------------------------------------------------------- points

  /** The right-hand side of the curve equation. */
  function CurveAt(x: int): int {
    AddP(7, MulP(x, MulP(x, x)))
  }

  /** secp256k1_ge_set_xquad: the point whose ordinate is a square. */
  method GeSetXquad(x: Fe) returns (r: Ge, ok: bool)
    requires x.Valid() && x.magnitude <= 8
    ensures r.Valid() && !r.infinity && r.x == x && r.y.magnitude == 1 && IsSquare(Value(r.y))
    ensures ok <==> IsSquare(CurveAt(Value(x)))
    ensures ok ==> OnCurve(r.ToPoint(), 7)
  {
    hide Res, Value, Fe.Valid, IsSquare, OnCurve, CurveAt;
    var x2 := FeSqr(x);
    var x3 := FeMul(x, x2);
    var c := FeSetInt(7);
    c := FeAdd(c, x3);
    var y;
    y, ok := FeSqrt(c);
    r := Ge(x, y, false);
    RootIsOnCurve(x, y, c);
  }

  lemma RootIsOnCurve(x: Fe, y: Fe, c: Fe)
    requires Value(c) == AddP(7, MulP(Value(x), MulP(Value(x), Value(x))))
    ensures Value(c) == CurveAt(Value(x))
    ensures MulP(Value(y), Value(y)) == Value(c) ==> OnCurve(Affine(Value(x), Value(y)), 7)
  {
    hide Res, Value;
    ValueIsResidue(x);
    ValueIsResidue(y);
    ReorderedCube(Value(x));
  }

  lemma ReorderedCube(x: int)
    ensures CurveAt(x) == AddP(MulP(MulP(x, x), x), 7)
  {
    hide Res, Mul;
    MulIsProduct(x, MulP(x, x));
    MulIsProduct(MulP(x, x), x);
  }

  /** secp256k1_ge_set_xo_var: the point whose ordinate has the given parity. */
  method GeSetXoVar(x: Fe, odd: bool) returns (r: Ge, ok: bool)
    requires x.Valid() && x.magnitude <= 8
    ensures r.Valid() && !r.infinity && r.x == x
    ensures ok <==> IsSquare(CurveAt(Value(x)))
    ensures ok ==> OnCurve(r.ToPoint(), 7) && (Value(r.y) % 2 == 1 <==> odd)
  {
    hide Res, Value, Fe.Valid, IsSquare, OnCurve, CurveAt;
    r, ok := GeSetXquad(x);
    if !ok {
      return r, false;
    }
    ghost var p := r.ToPoint();
    var y := FeNormalizeVar(r.y);
    var yIsOdd := FeIsOdd(y);
    if yIsOdd != odd {
      OppositeParity(p);
      y := FeNegate(y, 1);
    }
    r := Ge(x, y, false);
  }

  /** The opposite point is on the curve, and its ordinate has the other parity. */
  lemma OppositeParity(p: Point)
    requires p.Affine? && OnCurve(p, 7)
    ensures OnCurve(Affine(p.x, SubP(0, p.y)), 7) && (SubP(0, p.y) % 2 == 1 <==> p.y % 2 == 0)
  {
    OrdinateIsNonzero(p);
    ResidueInRange(p.y);
    NegatedSquare(p.y);
    hide Res;
    ResIsMod(0 - p.y);
    ResIdempotent(0 - p.y);
    Parity(p.y);
  }

  lemma NegatedSquare(y: int)
    ensures MulP(SubP(0, y), SubP(0, y)) == MulP(y, y)
  {
    hide Res, Mul;
    MulIsProduct(y, y);
    MulIsProduct(SubP(0, y), SubP(0, y));
    ResIdempotent(0 - y);
    Both(SubP(0, y), 0 - y, SubP(0, y), 0 - y);
    assert (0 - y) * (0 - y) == y * y;
  }

  lemma Parity(y: int)
    requires 0 < y < P
    ensures (0 - y) % P == P - y && ((P - y) % 2 == 1 <==> y % 2 == 0)
  {
  }

  /** There is one point with a given abscissa and parity. */
  lemma ParityDecides(p: Point, q: Point)
    requires p.Affine? && q.Affine? && OnCurve(p, 7) && OnCurve(q, 7) && p.x == q.x && p.y % 2 == q.y % 2
    ensures p == q
  {
    hide Res, Mul;
    MulIsProduct(p.y, p.y);
    MulIsProduct(q.y, q.y);
    Replace(p.y * p.y, q.y * q.y, -(p.y * p.y));
    assert (q.y - p.y) * (p.y + q.y) == q.y * q.y - p.y * p.y;
    Both(q.y * q.y, p.y * p.y, p.y * p.y, p.y * p.y);
    ResOfSmall(0);
    OppositeOrEqual(p.y, q.y);
    if p.y != q.y {
      OrdinateIsNonzero(p);
      ResidueInRange(p.y);
      ResidueInRange(q.y);
      SumIsP(p.y, q.y);
    }
  }

  lemma SumIsP(y: int, y': int)
    requires 0 < y < P && 0 <= y' < P && Res(y + y') == 0
    ensures y + y' == P && y % 2 != y' % 2
  {
    hide Res;
    ResIsMod(y + y');
  }

  // ------------------------------------------------------------- the second generator

  /** The bytes "The scalar for this x is unknown", and the even ordinate that belongs to them. */
  const NUMS_X: nat := 0x54686520_7363616C_61722066_6F722074_68697320_78206973_20756E6B_6E6F776E
  const NUMS_Y: nat := 0x28EBB7E4_E1F6A12E_1C0FAAF4_7E09C333_05D50890_856930E6_7E529934_8FF7F20E

  lemma NumsIsOnCurve()
    ensures OnCurve(Affine(NUMS_X, NUMS_Y), 7)
  {
    hide Res, Mul;
    var x2, x3 := 0xC0967C88_74F6D561_DD02C66B_D5EA5065_D53E5B69_82524B41_4EA545D3_38A9AF7B,
                  0x5B16A6BE_E6F339FB_D9510367_FAC8E972_3E63D131_66BEF300_3CE88F6D_8E741C59;
    MulIsProduct(NUMS_X, NUMS_X); MulIsProduct(x2, NUMS_X); MulIsProduct(NUMS_Y, NUMS_Y);
    ResIsMod(NUMS_X * NUMS_X); ResIsMod(x2 * NUMS_X); ResIsMod(NUMS_Y * NUMS_Y);
    ResOfSmall(x3 + 7); ResOfSmall(NUMS_X); ResOfSmall(NUMS_Y);
    assert MulP(NUMS_X, NUMS_X) == x2;
    assert MulP(x2, NUMS_X) == x3;
  }

  /** The point that the context is built with: nothing up the sleeve. */
  method NumsPoint() returns (r: Ge)
    ensures r.Valid() && !r.infinity && OnCurve(r.ToPoint(), 7) && r.ToPoint() == Affine(NUMS_X, NUMS_Y)
  {
    hide Res, Value, Fe.Valid, OnCurve, CurveAt, IsSquare;
    var x := FeSetB32(NUMS_X);
    var ok;
    r, ok := GeSetXoVar(x, false);
    NumsIsOnCurve();
    NumsIsSquare();
    ParityDecides(r.ToPoint(), Affine(NUMS_X, NUMS_Y));
  }

  lemma NumsIsSquare()
    ensures IsSquare(CurveAt(NUMS_X))
  {
    NumsIsOnCurve();
    hide Res, Mul, MulP;
    ReorderedCube(NUMS_X);
    SquareWitness(NUMS_Y, CurveAt(NUMS_X));
  }
}
