/** Multiplying a point by a secret scalar (ecmult_const_impl.h): a fixed pattern of doublings and complete additions over
    two strings of odd digits, with a correction for the skew of the recoding. */
module EcmultConst {
  import opened NumberTheory
  import opened Params
  import opened FieldElement
  import opened Curve
  import opened Jacobian
  import opened Group
  import opened GroupTables
  import opened CurveGroup
  import opened CyclicGroup
  import opened Wnaf
  import opened ScalarSplit
  import opened Ecmult

  // ------------------------------------------------------------- complete addition on the scaled curve

  /** The constant of the curve scaled by Z. */
  function ScaledConstant(Z: int): int {
    7 * ((Z * Z) * (Z * Z) * (Z * Z))
  }

  lemma ScaledOnCurve(Z: int, p: Point)
    requires OnCurve(p, 7)
    ensures OnCurve(Scale(Z, p), ScaledConstant(Z))
  {
    Products();
    if p.Affine? {
      hide Res, OnCurve;
      var w := Z * Z;
      var c := w * w * w;
      CurveEquation(p, 7);
      Replace(p.y * p.y, p.x * p.x * p.x + 7, c);
      ScaledEquation(p.x, p.y, Z);
      ResIdempotent(p.x * w); ResIdempotent(p.y * (Z * Z * Z));
      EquationOfResidues(Scale(Z, p), p.x * w, p.y * (Z * Z * Z), ScaledConstant(Z));
    }
  }

  lemma ScaledEquation(x: int, y: int, Z: int)
    ensures var w := Z * Z; var c := w * w * w;
      (y * (Z * Z * Z)) * (y * (Z * Z * Z)) == (y * y) * c
      && (x * w) * (x * w) * (x * w) + ScaledConstant(Z) == (x * x * x + 7) * c
  {
    var w := Z * Z;
    var c := w * w * w;
    SquareOfCube(Z);
    assert (y * (Z * Z * Z)) * (y * (Z * Z * Z)) == (y * y) * ((Z * Z * Z) * (Z * Z * Z)) by { ProductSquared(y, Z * Z * Z); }
    assert (x * w) * (x * w) == (x * x) * (w * w) by { ProductSquared(x, w); }
    assert (x * x) * (w * w) * (x * w) == (x * x * x) * c by { ThreeProducts(x, w); }
    assert (x * x * x + 7) * c == (x * x * x) * c + 7 * c by { Times7(x * x * x, c); }
  }

  lemma SquareOfCube(Z: int)
    ensures (Z * Z * Z) * (Z * Z * Z) == (Z * Z) * (Z * Z) * (Z * Z)
  {
    assert (Z * Z * Z) * (Z * Z * Z) == (Z * Z) * (Z * (Z * Z * Z));
    assert Z * (Z * Z * Z) == (Z * Z) * (Z * Z);
  }

  lemma ProductSquared(a: int, b: int)
    ensures (a * b) * (a * b) == (a * a) * (b * b)
  {
  }

  lemma ThreeProducts(x: int, w: int)
    ensures (x * x) * (w * w) * (x * w) == (x * x * x) * (w * w * w)
  {
    assert (x * x) * (w * w) * (x * w) == (x * x) * x * ((w * w) * w);
  }

  lemma Times7(a: int, c: int)
    ensures (a + 7) * c == a * c + 7 * c
  {
  }

  method AddGeConstAt(r: Gej, b: Ge, ghost Z: int, ghost s: CurvePoint, ghost t: CurvePoint)
    requires At(r, Z, s) && Res(Z) != 0 && b.Valid() && !b.infinity && b.ToPoint() == Scale(Z, t)
    modifies r
    ensures At(r, Z, Sum(s, t))
  {
    hide Inv, Value, Fe.Valid, Scale, ToAffine, AddPoints, Sum, Res, ScaledConstant, OnCurve;
    AtIsUsable(r, Z, s);
    ScaledOnCurve(Z, s);
    ScaledOnCurve(Z, t);
    GejAddGe(r, r, b, ScaledConstant(Z));
    ScaledSum(Z, s, t);
  }

  // ------------------------------------------------------------- tables read in constant time

  /** The ordinates can be negated without normalising. */
  ghost predicate Negatable(pre: seq<Ge>) {
    forall i :: 0 <= i < |pre| ==> pre[i].y.magnitude <= 1
  }

  /** Every entry is passed through a conditional move; only the selected one sticks. */
  method Select(pre: seq<Ge>, index: nat) returns (x: Fe, y: Fe)
    requires index < |pre| && Negatable(pre) && forall i :: 0 <= i < |pre| ==> pre[i].Valid()
    ensures x.Valid() && y.Valid() && x.magnitude <= 8 && y.magnitude <= 1
    ensures Value(x) == Value(pre[index].x) && Value(y) == Value(pre[index].y)
  {
    hide Value, Fe.Valid;
    x, y := FeClear(), FeClear();
    x, y := x.(magnitude := 0), y.(magnitude := 0);
    for m := 0 to |pre|
      invariant x.Valid() && y.Valid() && x.magnitude <= 8 && y.magnitude <= 1
      invariant m > index ==> Value(x) == Value(pre[index].x) && Value(y) == Value(pre[index].y)
    {
      x := FeCmov(x, pre[m].x, m == index);
      y := FeCmov(y, pre[m].y, m == index);
    }
  }

  /** ECMULT_CONST_TABLE_GET_GE. */
  method ConstTableGet(pre: seq<Ge>, n: int, w: nat, ghost Z: int, ghost p: CurvePoint) returns (r: Ge)
    requires w >= 2 && |pre| == Two(w - 2) && OddDigit(n, Two(w - 1))
    requires OddTableAt(pre, Z, p) && Negatable(pre)
    ensures r.Valid() && !r.infinity && r.ToPoint() == Scale(Z, Multiple(n, p))
  {
    hide Inv, Value, Fe.Valid, Scale, Multiple, Two, Res, Negatable, OddTableAt;
    TwoStep(w - 2);
    var abs_n := n * ((if n > 0 then 1 else 0) * 2 - 1);
    var idx_n := abs_n / 2;
    AbsoluteDigit(n, abs_n, Two(w - 1), |pre|);
    EntriesValid(pre, Z, p);
    var x, y := Select(pre, idx_n);
    var neg_y := FeNegate(y, 1);
    var y' := FeCmov(y, neg_y, n != abs_n);
    r := Ge(x, y', false);
    EntryAt(pre, Z, p, idx_n, abs_n);
    if n < 0 {
      NegateScaled(Z, Multiple(-n, p));
      NegatedMultiple(-n, p);
    }
  }

  lemma AbsoluteDigit(n: int, abs_n: int, b: int, size: nat)
    requires OddDigit(n, b) && b == 2 * size && abs_n == n * ((if n > 0 then 1 else 0) * 2 - 1)
    ensures abs_n == (if n > 0 then n else -n) && 0 <= abs_n / 2 < size && 2 * (abs_n / 2) + 1 == abs_n && n != 0
  {
    if n > 0 { assert abs_n == n * 1; } else { assert abs_n == n * -1; }
  }

  lemma EntriesValid(pre: seq<Ge>, Z: int, p: CurvePoint)
    requires OddTableAt(pre, Z, p)
    ensures forall i :: 0 <= i < |pre| ==> pre[i].Valid()
  {
    hide Value, Fe.Valid, Scale, Multiple;
  }

  lemma EntryAt(pre: seq<Ge>, Z: int, p: CurvePoint, i: nat, k: int)
    requires OddTableAt(pre, Z, p) && i < |pre| && k == 2 * i + 1
    ensures pre[i].Valid() && Affine(Value(pre[i].x), Value(pre[i].y)) == Scale(Z, Multiple(k, p))
  {
    hide Value, Fe.Valid, Scale, Multiple;
  }

  // ------------------------------------------------------------- the multiplication

  lemma RadixStep(d: seq<int>, i: nat, b: int)
    requires i < |d|
    ensures Radix(d[i..], b) == d[i] + b * Radix(d[i + 1..], b)
  {
    assert d[i..][1..] == d[i + 1..];
  }

  /** The coefficient that the digits from i on stand for. */
  function Coefficient(d1: seq<int>, d2: seq<int>, i: nat): int
    requires i <= |d1| && i <= |d2|
  {
    Radix(d1[i..], 16) + Radix(d2[i..], 16) * LAMBDA
  }

  lemma CoefficientUnrolled(d1: seq<int>, d2: seq<int>, i: nat)
    requires i < |d1| && i < |d2|
    ensures 16 * Coefficient(d1, d2, i + 1) + d1[i] + d2[i] * LAMBDA == Coefficient(d1, d2, i)
  {
    hide Radix;
    RadixStep(d1, i, 16);
    RadixStep(d2, i, 16);
    Unrolled(d1[i], Radix(d1[i + 1..], 16), d2[i], Radix(d2[i + 1..], 16), LAMBDA);
  }

  lemma Unrolled(d: int, s: int, e: int, t: int, k: int)
    ensures 16 * (s + t * k) + d + e * k == (d + 16 * s) + (e + 16 * t) * k
  {
  }

  // ------------------------------------------------------------- why the accumulator is never infinity when it is doubled

  const TWO_129: int := 0x2_00000000_00000000_00000000_00000000
  const TAIL: int := 0x20000000_00000000_00000000_00000001

  /** Shifting out at least one digit leaves a number of at most 2^125 + 1 either way. */
  lemma {:induction false} TailIsShort(d: seq<int>, i: nat)
    requires OddDigits(d, 16) && -TWO_129 < Radix(d, 16) < TWO_129 && 1 <= i <= |d|
    ensures -TAIL <= Radix(d[i..], 16) <= TAIL
  {
    hide Radix;
    if i == 1 {
      assert d[0..] == d;
    } else {
      TailIsShort(d, i - 1);
    }
    RadixStep(d, i - 1, 16);
    assert OddDigit(d[i - 1], 16);
  }

  lemma TailIsOdd(d: seq<int>, i: nat)
    requires OddDigits(d, 16) && i < |d|
    ensures Radix(d[i..], 16) % 2 == 1
  {
    hide Radix;
    assert OddDigit(d[i], 16);
    hide OddDigits, OddDigit;
    RadixStep(d, i, 16);
    OddAboveEven(d[i], Radix(d[i + 1..], 16));
  }

  lemma OddAboveEven(d: int, t: int)
    requires d % 2 == 1
    ensures (d + 16 * t) % 2 == 1
  {
    assert d + 16 * t == d + 2 * (8 * t);
  }

  /** x^2 - x y + y^2, the norm of x + y lambda. */
  function Norm(x: int, y: int): int {
    Mul(x, x) - Mul(x, y) + Mul(y, y)
  }

  lemma NormForm(x: int, y: int)
    ensures Norm(x, y) == x * x - x * y + y * y
  {
    Products();
  }

  lemma NormIsSmall(x: int, y: int)
    requires x != 0 && -TAIL <= x <= TAIL && -TAIL <= y <= TAIL
    ensures 0 < Norm(x, y) < N
  {
    hide Norm;
    SquareBound(x, TAIL); SquareBound(y, TAIL); SquareBound(x - y, 2 * TAIL);
    TwiceNorm(x, y);
  }

  lemma SquareBound(x: int, b: int)
    requires -b <= x <= b
    ensures 0 <= x * x <= b * b && (x != 0 ==> x * x > 0)
  {
    assert b * b - x * x == (b - x) * (b + x);
  }

  lemma TwiceNorm(x: int, y: int)
    ensures 2 * Norm(x, y) == x * x + y * y + (x - y) * (x - y)
  {
    hide Norm;
    NormForm(x, y);
  }

  lemma NormFactors(x: int, y: int, l: int)
    ensures Norm(x, y) == (x + y * l) * (x - y - y * l) + (y * y) * (l * l + l + 1)
  {
    hide Norm;
    NormForm(x, y);
    var m := y * l;
    assert (x + m) * (x - y - m) == x * x - x * y - m * y - m * m;
    assert m * y == (y * y) * l;
    assert m * m == (y * y) * (l * l) by { ProductSquared(y, l); }
    assert (y * y) * (l * l + l + 1) == (y * y) * (l * l) + (y * y) * l + y * y;
  }

  /** lambda being a cube root of unity, N divides the norm of x + y lambda together with x + y lambda. */
  lemma NormOfZero(x: int, y: int)
    requires (x + y * LAMBDA) % N == 0
    ensures Norm(x, y) % N == 0
  {
    hide Norm;
    var z, w, f := x + y * LAMBDA, x - y - y * LAMBDA, LAMBDA * LAMBDA + LAMBDA + 1;
    LambdaIsCubeRoot();
    NormFactors(x, y, LAMBDA);
    CongMul(z, 0, w, w, N);
    CongMul(y * y, y * y, f, 0, N);
    CongAdd(z * w, 0, (y * y) * f, 0, N);
  }

  /** Shifting out at least one digit of each string leaves a coefficient that N does not divide. */
  lemma CoefficientIsNonzero(d1: seq<int>, d2: seq<int>, i: nat)
    requires |d1| == |d2| && 1 <= i < |d1| && OddDigits(d1, 16) && OddDigits(d2, 16)
    requires -TWO_129 < Radix(d1, 16) < TWO_129 && -TWO_129 < Radix(d2, 16) < TWO_129
    ensures Coefficient(d1, d2, i) % N != 0
  {
    hide Radix, OddDigits, Norm;
    TailIsShort(d1, i);
    TailIsShort(d2, i);
    TailIsOdd(d1, i);
    var x, y := Radix(d1[i..], 16), Radix(d2[i..], 16);
    NormIsSmall(x, y);
    if (x + y * LAMBDA) % N == 0 {
      NormOfZero(x, y);
    }
  }

  /** Adding one digit of a string over the table of k A. */
  method AddConstDigit(r: Gej, pre: seq<Ge>, n: int, ghost Z: int, ghost x: int, ghost k: int, ghost A: CurvePoint)
    requires At(r, Z, Multiple(x, A)) && Res(Z) != 0 && |pre| == 8 && OddDigit(n, 16)
    requires OddTableAt(pre, Z, Multiple(k, A)) && Negatable(pre)
    modifies r
    ensures At(r, Z, Multiple(x + n * k, A))
  {
    hide At, Multiple, OddTableAt, Negatable, Sum, Value, Fe.Valid, Res, Inv, Scale, AddPoints, Two;
    TableSizes();
    TwoStep(3);
    var tmpa := ConstTableGet(pre, n, 5, Z, Multiple(k, A));
    MultipleOfMultiple(n, k, A);
    AddGeConstAt(r, tmpa, Z, Multiple(x, A), Multiple(n * k, A));
    SumIsAdd(Multiple(x, A), Multiple(n * k, A));
    MultiplePlus(x, n * k, A);
  }

  /** Doubling an accumulator that is not infinity. */
  method DoubleNonzeroAt(r: Gej, ghost Z: int, ghost s: CurvePoint)
    requires At(r, Z, s) && Res(Z) != 0 && s != Infinity
    modifies r
    ensures At(r, Z, Sum(s, s)) && Sum(s, s) != Infinity
  {
    hide Inv, Value, Fe.Valid, Scale, ToAffine, AddPoints, Res, OnCurve;
    AtIsUsable(r, Z, s);
    ScaledIsFinite(Z, s);
    var rzr := GejDoubleNonzero(r, r);
    ScaledSum(Z, s, s);
    DoubleIsFinite(s);
  }

  method DoubleFourTimes(r: Gej, ghost Z: int, ghost x: int, ghost A: CurvePoint)
    requires At(r, Z, Multiple(x, A)) && Res(Z) != 0 && Multiple(x, A) != Infinity
    modifies r
    ensures At(r, Z, Multiple(16 * x, A))
  {
    hide At, Multiple, Sum, Res, AddPoints;
    ghost var y := x;
    for j := 0 to 4
      invariant At(r, Z, Multiple(y, A)) && Multiple(y, A) != Infinity
      invariant y == (if j == 0 then x else if j == 1 then 2 * x else if j == 2 then 4 * x else if j == 3 then 8 * x else 16 * x)
    {
      DoubleNonzeroAt(r, Z, Multiple(y, A));
      SumIsAdd(Multiple(y, A), Multiple(y, A));
      MultiplePlus(y, y, A);
      y := y + y;
    }
  }

  method ConstLoop(r: Gej, pre: seq<Ge>, preLam: seq<Ge>, wnaf1: array<int>, wnafLam: array<int>, ghost Z: int, ghost A: CurvePoint)
    requires r.Writable() && Res(Z) != 0 && |pre| == |preLam| == 8
    requires OddTableAt(pre, Z, Multiple(1, A)) && Negatable(pre) && OddTableAt(preLam, Z, Multiple(LAMBDA, A)) && Negatable(preLam)
    requires wnaf1.Length == wnafLam.Length == 33 && OddDigits(wnaf1[..], 16) && OddDigits(wnafLam[..], 16)
    requires -TWO_129 < Radix(wnaf1[..], 16) < TWO_129 && -TWO_129 < Radix(wnafLam[..], 16) < TWO_129 && A != Infinity
    modifies r
    ensures At(r, Z, Multiple(Coefficient(wnaf1[..], wnafLam[..], 0), A))
  {
    hide At, Multiple, OddTableAt, Negatable, Sum, Value, Fe.Valid, Res, Inv, Scale, AddPoints, Two, Radix, OddDigit, ToAffine,
         Coefficient;
    ghost var d1, d2 := wnaf1[..], wnafLam[..];
    TableSizes();
    TwoStep(3);
    var i := 32;
    var tmpa := ConstTableGet(pre, wnaf1[i], 5, Z, Multiple(1, A));
    MultipleOfMultiple(wnaf1[i], 1, A);
    GejSetGe(r, tmpa);
    IsAt(r, Z, Multiple(wnaf1[i], A));
    AddConstDigit(r, preLam, wnafLam[i], Z, wnaf1[i], LAMBDA, A);
    TopDigits(d1, d2);
    while i > 0
      invariant 0 <= i <= 32 && At(r, Z, Multiple(Coefficient(d1, d2, i), A))
    {
      i := i - 1;
      ghost var x := Coefficient(d1, d2, i + 1);
      CoefficientIsNonzero(d1, d2, i + 1);
      MultipleIsNonzero(x, A);
      DoubleFourTimes(r, Z, x, A);
      AddConstDigit(r, pre, wnaf1[i], Z, 16 * x, 1, A);
      AddConstDigit(r, preLam, wnafLam[i], Z, 16 * x + wnaf1[i] * 1, LAMBDA, A);
      CoefficientUnrolled(d1, d2, i);
    }
  }

  lemma IsAt(r: Gej, Z: int, s: CurvePoint)
    requires r.Valid() && r.ToPoint() == Scale(Z, s)
    ensures At(r, Z, s)
  {
  }

  lemma TopDigits(d1: seq<int>, d2: seq<int>)
    requires |d1| == |d2| == 33
    ensures Coefficient(d1, d2, 32) == d1[32] + d2[32] * LAMBDA
  {
    RadixStep(d1, 32, 16);
    RadixStep(d2, 32, 16);
    assert d1[33..] == [] && d2[33..] == [];
  }

  /** The point that the skew added: a or 2 a, by conditional moves. */
  method SelectCorrection(a: Ge, skew: nat, ghost A: CurvePoint) returns (correction: Ge)
    requires a.Valid() && !a.infinity && a.ToPoint() == A && (skew == 1 || skew == 2)
    ensures correction.Valid() && !correction.infinity && correction.ToPoint() == Multiple(skew, A)
  {
    hide Multiple, Value, Fe.Valid, Res, Inv, AddPoints, OnCurve, ToAffine;
    var tmpj := new Gej();
    GejSetGe(tmpj, a);
    AffineOrdinate(a);
    var rzr := GejDoubleVar(tmpj, tmpj);
    var doubled := GeSetGej(tmpj);
    SmallMultiples(A);
    DoubleMultiple(A);
    SumIsAdd(A, A);
    DoubleIsFinite(A);
    var x' := FeCmov(a.x, doubled.x, skew == 2);
    var y' := FeCmov(a.y, doubled.y, skew == 2);
    correction := Ge(x', y', false);
  }

  /** Subtracting the skew: k a or 2 k a, whichever was added. */
  method Skew(r: Gej, a: Ge, image: bool, skew: nat, ghost x: int, ghost A: CurvePoint)
    requires r.Valid() && r.ToPoint() == Multiple(x, A) && a.Valid() && !a.infinity && a.ToPoint() == A
    requires skew == 1 || skew == 2
    modifies r
    ensures r.Valid() && r.ToPoint() == Multiple(x - skew * (if image then LAMBDA else 1), A)
  {
    hide At, Multiple, Sum, Value, Fe.Valid, Res, Inv, Scale, AddPoints, OnCurve, ToAffine,
         Endomorphism, Negate;
    var correction := SelectCorrection(a, skew, A);
    correction := GeNeg(correction);
    ghost var k: int := skew;
    NegatedMultiple(k, A);
    k := -k;
    if image {
      correction := GeMulLambda(correction);
      EndomorphismIsLambda(Multiple(k, A));
      MultipleOfMultiple(LAMBDA, k, A);
      k := LAMBDA * k;
    }
    ScaleByOne(Multiple(x, A));
    ScaleByOne(Multiple(k, A));
    ResOfSmall(1);
    IsAt(r, 1, Multiple(x, A));
    AddGeConstAt(r, correction, 1, Multiple(x, A), Multiple(k, A));
    SumIsAdd(Multiple(x, A), Multiple(k, A));
    MultiplePlus(x, k, A);
    AtUnitScale(r, Multiple(x + k, A));
    assert x + k == x - skew * (if image then LAMBDA else 1);
  }

  lemma AffineOrdinate(a: Ge)
    requires a.Valid() && !a.infinity && OnCurve(a.ToPoint(), 7)
    ensures Value(a.y) != 0
  {
    OrdinateIsNonzero(a.ToPoint());
  }

  lemma AtUnitScale(r: Gej, s: CurvePoint)
    requires At(r, 1, s)
    ensures r.Valid() && r.ToPoint() == s
  {
    ScaleByOne(s);
  }

  method RecodeConst(q: nat) returns (wnaf: array<int>, skew: nat)
    requires Narrow(q, 128)
    ensures fresh(wnaf) && wnaf.Length == 33 && OddDigits(wnaf[..], 16) && (skew == 1 || skew == 2)
    ensures Radix(wnaf[..], 16) % N == (q + skew) % N && -TWO_129 < Radix(wnaf[..], 16) < TWO_129
  {
    hide OddDigits, Radix, Two, WnafSize, Narrow;
    ConstSizes();
    wnaf := new int[33];
    skew := WnafConst(wnaf, q, 4, 128);
    assert wnaf[..33] == wnaf[..];
  }

  /** The tables of a and of lambda a, at a common Z; r serves as a temporary. */
  method ConstTables(r: Gej, a: Ge, ghost A: CurvePoint) returns (preA: seq<Ge>, preLam: seq<Ge>, Z: Fe)
    requires a.Valid() && !a.infinity && a.ToPoint() == A && r.Writable()
    modifies r
    ensures r.Writable() && Z.Valid() && Z.magnitude <= 8 && Value(Z) != 0 && |preA| == |preLam| == 8
    ensures OddTableAt(preA, Value(Z), Multiple(1, A)) && Negatable(preA)
    ensures OddTableAt(preLam, Value(Z), Multiple(LAMBDA, A)) && Negatable(preLam)
  {
    hide Multiple, OddTableAt, Negatable, Value, Fe.Valid, Res, Inv, Scale, AddPoints, OnCurve, ToAffine,
         AllFinite, OddMultiple;
    GejSetGe(r, a);
    OddMultiplesAreFinite(A, 8);
    var pre := new Ge[8](_ => Ge(FeClear(), FeClear(), true));
    Z := OddMultiplesGlobalz(pre, FeClear(), r);
    ValueIsResidue(Z);
    OddTableFromEntries(pre[..], Value(Z), A);
    preA := NormalizeOrdinates(pre[..], Value(Z), A);
    preLam := MulLambdaConst(preA, Value(Z), A);
    FirstMultiple(A);
  }

  /** secp256k1_ecmult_const. */
  method EcmultConst(r: Gej, a: Ge, scalar: nat)
    requires a.Valid() && !a.infinity && OnCurve(a.ToPoint(), 7) && r.Writable() && scalar < N
    modifies r
    ensures r.Valid() && r.ToPoint() == Multiple(scalar, a.ToPoint())
  {
    hide At, Multiple, OddTableAt, Negatable, Sum, Value, Fe.Valid, Res, Inv, Scale, AddPoints, OnCurve, ToAffine,
         Radix, OddDigits, Narrow, AllFinite, OddMultiple, Coefficient, Two, WnafSize;
    ghost var A: CurvePoint := a.ToPoint();
    var q1, qLam := SplitLambda(scalar);
    var wnaf1, skew1 := RecodeConst(q1);
    var wnafLam, skewLam := RecodeConst(qLam);
    var preA, preLam, Z := ConstTables(r, a, A);
    ValueIsResidue(Z);
    ConstLoop(r, preA, preLam, wnaf1, wnafLam, Value(Z), A);
    ghost var x := Coefficient(wnaf1[..], wnafLam[..], 0);
    ScaleBackConst(r, Z, Multiple(x, A));
    Skew(r, a, false, skew1, x, A);
    Skew(r, a, true, skewLam, x - skew1 * 1, A);
    SkewCancels(wnaf1[..], wnafLam[..], q1, qLam, skew1, skewLam, scalar);
    MultipleModN(x - skew1 * 1 - skewLam * LAMBDA, scalar, A);
  }

  lemma ConstSizes()
    ensures WnafSize(128, 4) == 32 && Two(4) == 16 && Two(3) == 8 && Two(129) == TWO_129
  {
    hide Two;
    TableSizes();
    TwoStep(3);
    TwoTo255();
    TwoStep(128);
  }

  /** The Z of the table multiplies that of the result whether or not it is infinite. */
  method ScaleBackConst(r: Gej, Z: Fe, ghost s: CurvePoint)
    requires Z.Valid() && Z.magnitude <= 8 && Value(Z) != 0 && At(r, Value(Z), s)
    modifies r
    ensures r.Valid() && r.ToPoint() == s
  {
    hide Inv, Value, Fe.Valid, ToAffine, Res, MulP, Scale;
    ScaledIsFinite(Value(Z), s);
    ValueIsResidue(Z); ValueIsResidue(r.x); ValueIsResidue(r.y); ValueIsResidue(r.z);
    CurvePointInRange(s, 7);
    r.z := FeMul(r.z, Z);
    if !r.infinity { Unscaled(Value(r.x), Value(r.y), old(Value(r.z)), Value(Z), s, Value(r.z)); }
  }

  method NormalizeOrdinates(pre: seq<Ge>, ghost Z: int, ghost p: CurvePoint) returns (r: seq<Ge>)
    requires OddTableAt(pre, Z, p)
    ensures |r| == |pre| && OddTableAt(r, Z, p) && Negatable(r)
  {
    hide Inv, Value, Fe.Valid, Scale, Multiple, Res;
    r := [];
    for i := 0 to |pre|
      invariant |r| == i && OddTableAt(r, Z, p) && Negatable(r)
    {
      var y := FeNormalizeWeak(pre[i].y);
      r := r + [Ge(pre[i].x, y, pre[i].infinity)];
    }
  }

  method MulLambdaConst(pre: seq<Ge>, ghost Z: int, ghost p: CurvePoint) returns (lam: seq<Ge>)
    requires OddTableAt(pre, Z, p) && Negatable(pre)
    ensures |lam| == |pre| && OddTableAt(lam, Z, Multiple(LAMBDA, p)) && Negatable(lam)
  {
    hide Inv, Value, Fe.Valid, Scale, Multiple, Res, Endomorphism;
    lam := [];
    for i := 0 to |pre|
      invariant |lam| == i && OddTableAt(lam, Z, Multiple(LAMBDA, p)) && Negatable(lam)
    {
      var x := GeMulLambda(pre[i]);
      EndomorphismOfTableEntry(Z, 2 * i + 1, p);
      ScaledIsFinite(Z, Multiple(2 * i + 1, p));
      lam := lam + [x];
    }
  }

  /** With the skews subtracted, the coefficient is the scalar modulo N. */
  lemma SkewCancels(d1: seq<int>, d2: seq<int>, q1: nat, q2: nat, s1: nat, s2: nat, k: nat)
    requires Radix(d1, 16) % N == (q1 + s1) % N && Radix(d2, 16) % N == (q2 + s2) % N && (q1 + q2 * LAMBDA) % N == k % N
    ensures (Coefficient(d1, d2, 0) - s1 * 1 - s2 * LAMBDA) % N == k % N
  {
    hide Radix;
    assert d1[0..] == d1 && d2[0..] == d2;
    var r1, r2 := Radix(d1, 16), Radix(d2, 16);
    CongMul(r2, q2 + s2, LAMBDA, LAMBDA, N);
    CongAdd(r1, q1 + s1, r2 * LAMBDA, (q2 + s2) * LAMBDA, N);
    var s := s1 + s2 * LAMBDA;
    CongAdd(r1 + r2 * LAMBDA, (q1 + s1) + (q2 + s2) * LAMBDA, s, s, N);
    SkewAlgebra(q1, q2, s1, s2, LAMBDA);
  }

  lemma SkewAlgebra(q1: int, q2: int, s1: int, s2: int, l: int)
    ensures (q1 + s1) + (q2 + s2) * l - (s1 + s2 * l) == q1 + q2 * l
  {
  }
}
