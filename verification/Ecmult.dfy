/** Multiplying points by scalars in variable time (ecmult_impl.h): na A + ng G by interleaving four sparse digit strings
    over tables of odd multiples. The accumulator lives on the curve scaled by the common Z of A's table. */
module Ecmult {
  import opened NumberTheory
  import opened Params
  import opened FieldElement
  import opened Curve
  import opened Jacobian
  import opened Group
  import opened GroupTables
  import opened CurveGroup
  import opened CyclicGroup
  import opened GeneratorPoint
  import opened Wnaf
  import opened ScalarSplit

  // ------------------------------------------------------------- suffixes of a digit string

  function Digit(d: seq<int>, i: nat): int {
    if i < |d| then d[i] else 0
  }

  /** The value of the digits from i on. */
  function Suffix(d: seq<int>, i: nat): int {
    if i < |d| then Horner(d[i..]) else 0
  }

  lemma SuffixStep(d: seq<int>, i: nat)
    ensures Suffix(d, i) == Digit(d, i) + 2 * Suffix(d, i + 1)
  {
    if i < |d| { assert d[i..][1..] == d[i + 1..]; }
  }

  lemma SuffixWhole(d: seq<int>)
    ensures Suffix(d, 0) == Horner(d)
  {
    assert d[0..] == d;
  }

  lemma SuffixOfZeros(d: seq<int>, i: nat)
    requires forall j :: i <= j < |d| ==> d[j] == 0
    ensures Suffix(d, i) == 0
  {
    if i < |d| {
      HornerZeros(d[i..], 0);
      assert d[i..][..0] == [];
    }
  }

  // ------------------------------------------------------------- points on the scaled curve

  /** r is the point s, on the curve scaled by Z. */
  ghost predicate At(r: Gej, Z: int, s: CurvePoint)
    reads r
  {
    r.Valid() && r.ToPoint() == Scale(Z, s)
  }

  lemma AtIsUsable(r: Gej, Z: int, s: CurvePoint)
    requires At(r, Z, s) && Res(Z) != 0
    ensures r.Valid() && (!r.infinity ==> Value(r.y) != 0)
  {
    hide Inv, Value, Fe.Valid, Scale, ToAffine;
    ScaledIsFinite(Z, s);
    if !r.infinity {
      OrdinateIsNonzero(s);
      ValueIsResidue(r.y);
      CurvePointInRange(s, 7);
      ScaledOrdinateIsNonzero(Z, s, Value(r.x), Value(r.y), Value(r.z));
    }
  }

  lemma ScaledSum(Z: int, s: CurvePoint, t: CurvePoint)
    requires Res(Z) != 0
    ensures AddPoints(Scale(Z, s), Scale(Z, t)) == Scale(Z, Sum(s, t))
  {
    hide Inv, Scale, AddPoints;
    CurvePointInRange(s, 7); CurvePointInRange(t, 7);
    ScaleOfSum(Z, s, t);
  }

  method DoubleAt(r: Gej, ghost Z: int, ghost s: CurvePoint)
    requires At(r, Z, s) && Res(Z) != 0
    modifies r
    ensures At(r, Z, Sum(s, s))
  {
    hide Inv, Value, Fe.Valid, Scale, ToAffine, AddPoints, Sum, Res;
    AtIsUsable(r, Z, s);
    var rzr := GejDoubleVar(r, r);
    ScaledSum(Z, s, s);
  }

  method AddGeAt(r: Gej, b: Ge, ghost Z: int, ghost s: CurvePoint, ghost t: CurvePoint)
    requires At(r, Z, s) && Res(Z) != 0 && b.Valid() && b.ToPoint() == Scale(Z, t)
    modifies r
    ensures At(r, Z, Sum(s, t))
  {
    hide Inv, Value, Fe.Valid, Scale, ToAffine, AddPoints, Sum, Res;
    AtIsUsable(r, Z, s);
    var rzr := GejAddGeVar(r, r, b);
    ScaledSum(Z, s, t);
  }

  method AddZinvAt(r: Gej, b: Ge, Z: Fe, ghost s: CurvePoint, ghost t: CurvePoint)
    requires Z.Valid() && Z.magnitude <= 8 && Value(Z) != 0 && At(r, Value(Z), s) && b.Valid() && b.ToPoint() == t
    modifies r
    ensures At(r, Value(Z), Sum(s, t))
  {
    hide Inv, Value, Fe.Valid, Scale, ToAffine, AddPoints, Sum, Res;
    ValueIsResidue(Z);
    AtIsUsable(r, Value(Z), s);
    GejAddZinvVar(r, r, b, Z);
    ScaledSum(Value(Z), s, t);
  }

  /** Multiplying the Z of the accumulator by that of the table leads back to the curve itself. */
  method ScaleBackAt(r: Gej, Z: Fe, ghost s: CurvePoint)
    requires Z.Valid() && Z.magnitude <= 8 && Value(Z) != 0 && At(r, Value(Z), s)
    modifies r
    ensures r.Valid() && r.ToPoint() == s
  {
    hide Inv, Value, Fe.Valid, ToAffine, Res, MulP, Scale;
    ScaledIsFinite(Value(Z), s);
    ValueIsResidue(Z); ValueIsResidue(r.x); ValueIsResidue(r.y); ValueIsResidue(r.z);
    CurvePointInRange(s, 7);
    if !r.infinity {
      r.z := FeMul(r.z, Z);
      Unscaled(Value(r.x), Value(r.y), old(Value(r.z)), Value(Z), s, Value(r.z));
    }
  }

  // ------------------------------------------------------------- tables

  /** Entry i is (2i+1) p on the curve scaled by Z. */
  ghost predicate OddTableAt(pre: seq<Ge>, Z: int, p: CurvePoint) {
    forall i :: 0 <= i < |pre| ==> pre[i].Valid() && !pre[i].infinity && pre[i].ToPoint() == Scale(Z, Multiple(2 * i + 1, p))
  }

  lemma NegateScaled(Z: int, p: Point)
    ensures Negate(Scale(Z, p)) == Scale(Z, Negate(p))
  {
    Products();
    if p.Affine? {
      hide Res;
      var c := Z * Z * Z;
      ResIdempotent(p.y * c);
      Both(0, 0, Res(p.y * c), p.y * c);
      ResIdempotent(0 - p.y);
      Replace(SubP(0, p.y), 0 - p.y, c);
      assert (0 - p.y) * c == 0 - p.y * c;
    }
  }

  /** ECMULT_TABLE_GET_GE and ECMULT_TABLE_GET_GE_STORAGE. */
  method TableGet(pre: seq<Ge>, n: int, w: nat, ghost Z: int, ghost p: CurvePoint) returns (r: Ge)
    requires w >= 2 && |pre| == Two(w - 2) && n != 0 && SparseDigit(n, w) && OddTableAt(pre, Z, p)
    ensures r.Valid() && !r.infinity && r.ToPoint() == Scale(Z, Multiple(n, p))
  {
    hide Inv, Value, Fe.Valid, Scale, Multiple, Two, Res;
    TwoStep(w - 2);
    if n > 0 {
      r := pre[(n - 1) / 2];
      assert 2 * ((n - 1) / 2) + 1 == n;
    } else {
      r := GeNeg(pre[(-n - 1) / 2]);
      assert 2 * ((-n - 1) / 2) + 1 == -n;
      NegateScaled(Z, Multiple(-n, p));
      NegatedMultiple(-n, p);
    }
  }

  /** The table of lambda A from that of A. */
  method MulLambdaTable(pre: seq<Ge>, ghost Z: int, ghost p: CurvePoint) returns (lam: seq<Ge>)
    requires OddTableAt(pre, Z, p)
    ensures |lam| == |pre| && OddTableAt(lam, Z, Multiple(LAMBDA, p))
  {
    hide Inv, Value, Fe.Valid, Scale, Multiple, Res, Endomorphism;
    lam := [];
    for i := 0 to |pre|
      invariant |lam| == i && OddTableAt(lam, Z, Multiple(LAMBDA, p))
    {
      var x := GeMulLambda(pre[i]);
      EndomorphismOfTableEntry(Z, 2 * i + 1, p);
      ScaledIsFinite(Z, Multiple(2 * i + 1, p));
      lam := lam + [x];
    }
  }

  lemma EndomorphismOfTableEntry(Z: int, k: int, p: CurvePoint)
    ensures Endomorphism(Scale(Z, Multiple(k, p))) == Scale(Z, Multiple(k, Multiple(LAMBDA, p)))
    ensures Endomorphism(Scale(Z, Multiple(k, p))).Affine? <==> Scale(Z, Multiple(k, p)).Affine?
  {
    hide Multiple, Scale, Endomorphism;
    EndomorphismScaled(Z, Multiple(k, p));
    EndomorphismIsLambda(Multiple(k, p));
    MultipleOfMultiple(LAMBDA, k, p);
    MultipleOfMultiple(k, LAMBDA, p);
    assert LAMBDA * k == k * LAMBDA;
  }

  lemma EndomorphismScaled(Z: int, p: Point)
    ensures Endomorphism(Scale(Z, p)) == Scale(Z, Endomorphism(p))
    ensures Endomorphism(Scale(Z, p)).Affine? <==> Scale(Z, p).Affine?
  {
    Products();
    if p.Affine? {
      hide Res;
      var c := Z * Z;
      ResIdempotent(p.x * c);
      Replace(Res(p.x * c), p.x * c, BETA);
      ResIdempotent(BETA * p.x);
      Replace(Res(BETA * p.x), BETA * p.x, c);
      assert BETA * (p.x * c) == BETA * p.x * c by { Reassociate(BETA, p.x, c); }
    }
  }

  lemma Reassociate(a: int, b: int, c: int)
    ensures a * (b * c) == a * b * c
  {
  }

  // ------------------------------------------------------------- one digit

  /** Adding digit i of a string over the table of k A, with affine points at the accumulator's Z. */
  method AddDigitA(r: Gej, pre: seq<Ge>, wnaf: array<int>, bits: nat, i: nat, w: nat, ghost d: seq<int>, ghost Z: int,
                   ghost x: int, ghost k: int, ghost A: CurvePoint, ghost y: int, ghost G: CurvePoint)
    requires At(r, Z, LinearCombination(x, A, y, G)) && Res(Z) != 0
    requires w >= 2 && |pre| == Two(w - 2) && OddTableAt(pre, Z, Multiple(k, A))
    requires d == wnaf[..] && bits <= |d| && Sparse(d, w) && forall j :: bits <= j < |d| ==> d[j] == 0
    modifies r
    ensures At(r, Z, LinearCombination(x + Digit(d, i) * k, A, y, G))
  {
    hide At, LinearCombination, Multiple, OddTableAt, Sum, Two, Value, Fe.Valid, Res, Inv, Scale, Curve.AddPoints;
    if i < bits {
      var n := wnaf[i];
      if n != 0 {
        var tmpa := TableGet(pre, n, w, Z, Multiple(k, A));
        MultipleOfMultiple(n, k, A);
        AddGeAt(r, tmpa, Z, LinearCombination(x, A, y, G), Multiple(n * k, A));
        SumIsAdd(LinearCombination(x, A, y, G), Multiple(n * k, A));
        CombinationPlusFirst(x, A, y, G, n * k);
      }
    }
    ZeroDigit(d, i, k);
  }

  lemma ZeroDigit(d: seq<int>, i: nat, k: int)
    ensures Digit(d, i) == 0 ==> Digit(d, i) * k == 0
  {
  }

  lemma SumIsAdd(s: CurvePoint, t: CurvePoint)
    ensures Sum(s, t) == AddPoints(s, t)
  {
  }

  /** Adding digit i of a string over the table of k G, with points at Z = 1. */
  method AddDigitG(r: Gej, pre: seq<Ge>, wnaf: array<int>, bits: nat, i: nat, w: nat, Z: Fe, ghost d: seq<int>,
                   ghost x: int, ghost A: CurvePoint, ghost y: int, ghost k: int, ghost G: CurvePoint)
    requires Z.Valid() && Z.magnitude <= 8 && Value(Z) != 0
    requires At(r, Value(Z), LinearCombination(x, A, y, G))
    requires w >= 2 && |pre| == Two(w - 2) && OddTableAt(pre, 1, Multiple(k, G))
    requires d == wnaf[..] && bits <= |d| && Sparse(d, w) && forall j :: bits <= j < |d| ==> d[j] == 0
    modifies r
    ensures At(r, Value(Z), LinearCombination(x, A, y + Digit(d, i) * k, G))
  {
    hide At, LinearCombination, Multiple, OddTableAt, Sum, Two, Value, Fe.Valid, Res, Inv, Scale, Curve.AddPoints;
    if i < bits {
      var n := wnaf[i];
      if n != 0 {
        var tmpa := TableGet(pre, n, w, 1, Multiple(k, G));
        MultipleOfMultiple(n, k, G);
        ScaleByOne(Multiple(n * k, G));
        AddZinvAt(r, tmpa, Z, LinearCombination(x, A, y, G), Multiple(n * k, G));
        SumIsAdd(LinearCombination(x, A, y, G), Multiple(n * k, G));
        CombinationPlusSecond(x, A, y, G, n * k);
      }
    }
    ZeroDigit(d, i, k);
  }

  lemma ScaleByOne(p: CurvePoint)
    ensures Scale(1, p) == p
  {
    if p.Affine? {
      ResOfSmall(p.x);
      ResOfSmall(p.y);
    }
  }

  // ------------------------------------------------------------- the multiplication

  lemma NarrowMagnitude(a: nat)
    requires Narrow(a, 128)
    ensures a < N && Magnitude(a) < Two(129)
  {
    TwoTo255();
    TwoStep(128);
  }

  /** A digit string with the value v modulo N, ready for the loop. */
  ghost predicate Recoding(d: seq<int>, bits: nat, w: nat, v: int) {
    bits <= |d| && Sparse(d, w) && (forall j :: bits <= j < |d| ==> d[j] == 0) && Horner(d) % N == v % N
  }

  /** Recoding into a fresh array. */
  method Recode(len: nat, a: nat, w: nat) returns (wnaf: array<int>, bits: nat)
    requires 0 < len <= 256 && a < N && 2 <= w <= 31 && Magnitude(a) < Two(len - 1)
    ensures fresh(wnaf) && wnaf.Length == len && Recoding(wnaf[..], bits, w, a)
  {
    hide Two, Sparse, Horner;
    wnaf := new int[len];
    var carry;
    bits, carry := EcmultWnaf(wnaf, len, a, w, len - 1);
    assert wnaf[..len] == wnaf[..];
    MagnitudeIsScalar(a);
  }

  lemma MagnitudeIsScalar(a: nat)
    requires a < N
    ensures (SignOf(a) * Magnitude(a)) % N == a % N
  {
    RemainderIsUnique(a, 0, a, N);
  }

  /** The coefficients of A and G that the digits from i on stand for. */
  function CoefficientA(d1: seq<int>, d2: seq<int>, i: nat): int {
    Suffix(d1, i) + Suffix(d2, i) * LAMBDA
  }

  function CoefficientG(d3: seq<int>, d4: seq<int>, i: nat): int {
    Suffix(d3, i) + Suffix(d4, i) * Two(128)
  }

  lemma CoefficientStep(s: int, s': int, d: int, t: int, t': int, e: int, k: int)
    requires s == d + 2 * s' && t == e + 2 * t'
    ensures 2 * (s' + t' * k) + d * 1 + e * k == s + t * k
  {
    assert t * k == e * k + 2 * (t' * k);
  }

  method EcmultLoop(r: Gej, preA: seq<Ge>, preALam: seq<Ge>, preG: seq<Ge>, preG128: seq<Ge>, Z: Fe,
                    wnafA1: array<int>, bitsA1: nat, wnafALam: array<int>, bitsALam: nat,
                    wnafG1: array<int>, bitsG1: nat, wnafG128: array<int>, bitsG128: nat, bits: nat,
                    ghost na1: int, ghost naLam: int, ghost ng1: int, ghost ng128: int, ghost A: CurvePoint, ghost G: CurvePoint)
    requires Z.Valid() && Z.magnitude <= 8 && Value(Z) != 0 && r.Writable()
    requires |preA| == |preALam| == Two(3) && |preG| == |preG128| == Two(13)
    requires OddTableAt(preA, Value(Z), Multiple(1, A)) && OddTableAt(preALam, Value(Z), Multiple(LAMBDA, A))
    requires OddTableAt(preG, 1, Multiple(1, G)) && OddTableAt(preG128, 1, Multiple(Two(128), G))
    requires Recoding(wnafA1[..], bitsA1, 5, na1) && Recoding(wnafALam[..], bitsALam, 5, naLam)
    requires Recoding(wnafG1[..], bitsG1, 15, ng1) && Recoding(wnafG128[..], bitsG128, 15, ng128)
    requires bits >= bitsA1 && bits >= bitsALam && bits >= bitsG1 && bits >= bitsG128
    modifies r
    ensures var d1, d2, d3, d4 := wnafA1[..], wnafALam[..], wnafG1[..], wnafG128[..];
      At(r, Value(Z), LinearCombination(CoefficientA(d1, d2, 0), A, CoefficientG(d3, d4, 0), G))
  {
    hide At, LinearCombination, Multiple, OddTableAt, Sum, Two, Value, Fe.Valid, Res, Inv, Scale, Curve.AddPoints,
         Sparse, Horner, Suffix, Digit;
    ghost var d1, d2, d3, d4 := wnafA1[..], wnafALam[..], wnafG1[..], wnafG128[..];
    ValueIsResidue(Z);
    r.x, r.y, r.z, r.infinity := FeClear(), FeClear(), FeClear(), true;
    SuffixOfZeros(d1, bits); SuffixOfZeros(d2, bits); SuffixOfZeros(d3, bits); SuffixOfZeros(d4, bits);
    StartAtInfinity(r, Value(Z), A, G);
    var i := bits;
    while i > 0
      invariant 0 <= i <= bits
      invariant At(r, Value(Z), LinearCombination(CoefficientA(d1, d2, i), A, CoefficientG(d3, d4, i), G))
    {
      i := i - 1;
      ghost var x, y := CoefficientA(d1, d2, i + 1), CoefficientG(d3, d4, i + 1);
      DoubleAt(r, Value(Z), LinearCombination(x, A, y, G));
      SumIsAdd(LinearCombination(x, A, y, G), LinearCombination(x, A, y, G));
      CombinationDoubled(x, A, y, G);
      AddDigitA(r, preA, wnafA1, bitsA1, i, 5, d1, Value(Z), 2 * x, 1, A, 2 * y, G);
      AddDigitA(r, preALam, wnafALam, bitsALam, i, 5, d2, Value(Z), 2 * x + Digit(d1, i) * 1, LAMBDA, A, 2 * y, G);
      SuffixStep(d1, i); SuffixStep(d2, i); SuffixStep(d3, i); SuffixStep(d4, i);
      CoefficientStep(Suffix(d1, i), Suffix(d1, i + 1), Digit(d1, i), Suffix(d2, i), Suffix(d2, i + 1), Digit(d2, i), LAMBDA);
      AddDigitG(r, preG, wnafG1, bitsG1, i, 15, Z, d3, CoefficientA(d1, d2, i), A, 2 * y, 1, G);
      AddDigitG(r, preG128, wnafG128, bitsG128, i, 15, Z, d4, CoefficientA(d1, d2, i), A, 2 * y + Digit(d3, i) * 1, Two(128), G);
      CoefficientStep(Suffix(d3, i), Suffix(d3, i + 1), Digit(d3, i), Suffix(d4, i), Suffix(d4, i + 1), Digit(d4, i), Two(128));
    }
  }

  lemma StartAtInfinity(r: Gej, Z: int, A: CurvePoint, G: CurvePoint)
    requires r.Valid() && r.infinity
    ensures At(r, Z, LinearCombination(0, A, 0, G))
  {
    hide Inv, Value, Fe.Valid, Sum, Minus, AbelianGroup.Laws;
    PointsFormAbelianGroup();
    AbelianGroup.CombinationZero(Secp(), A, G);
  }

  /** A context for the multiples of G: the odd multiples of G and of 2^128 G. */
  ghost predicate Context(preG: seq<Ge>, preG128: seq<Ge>, G: CurvePoint) {
    |preG| == |preG128| == Two(13) && OddTableAt(preG, 1, Multiple(1, G)) && OddTableAt(preG128, 1, Multiple(Two(128), G))
  }

  /** The two digit strings of na. */
  method RecodeSplit(na: nat) returns (w1: array<int>, b1: nat, w2: array<int>, b2: nat, ghost v1: int, ghost v2: int)
    requires na < N
    ensures fresh(w1) && fresh(w2) && Recoding(w1[..], b1, 5, v1) && Recoding(w2[..], b2, 5, v2)
    ensures CoefficientA(w1[..], w2[..], 0) % N == na % N
  {
    hide Sparse, Horner, Suffix, Recoding, Narrow, Magnitude, Two;
    var na1, naLam := SplitLambda(na);
    NarrowMagnitude(na1); NarrowMagnitude(naLam);
    w1, b1 := Recode(130, na1, 5);
    w2, b2 := Recode(130, naLam, 5);
    v1, v2 := na1, naLam;
    WholeCoefficient(w1[..], b1, 5, na1, w2[..], b2, 5, naLam, LAMBDA, na);
  }

  /** The two digit strings of ng. */
  method RecodeHalves(ng: nat) returns (w1: array<int>, b1: nat, w2: array<int>, b2: nat, ghost v1: int, ghost v2: int)
    requires ng < N
    ensures fresh(w1) && fresh(w2) && Recoding(w1[..], b1, 15, v1) && Recoding(w2[..], b2, 15, v2)
    ensures CoefficientG(w1[..], w2[..], 0) % N == ng % N
  {
    hide Sparse, Horner, Suffix, Recoding, Narrow, Magnitude, Two;
    var halves := SplitIn128(ng);
    var ng1, ng128 := halves.0, halves.1;
    HalfIsNarrow(ng1); HalfIsNarrow(ng128);
    w1, b1 := Recode(129, ng1, 15);
    w2, b2 := Recode(129, ng128, 15);
    v1, v2 := ng1, ng128;
    WholeCoefficient(w1[..], b1, 15, ng1, w2[..], b2, 15, ng128, Two(128), ng);
  }

  /** The tables of A and of lambda A, over one Z. */
  method TablesOf(a: Gej, ghost A: CurvePoint) returns (pre: seq<Ge>, preLam: seq<Ge>, Z: Fe)
    requires a.Valid() && !a.infinity && a.ToPoint() == A
    ensures Z.Valid() && Z.magnitude <= 8 && Value(Z) != 0 && |pre| == |preLam| == Two(3)
    ensures OddTableAt(pre, Value(Z), Multiple(1, A)) && OddTableAt(preLam, Value(Z), Multiple(LAMBDA, A))
  {
    hide At, Multiple, OddTableAt, Sum, Two, Value, Fe.Valid, Res, Inv, Scale, Curve.AddPoints,
         AllFinite, OnCurve, OddMultiple, ToAffine;
    TableSizes();
    OddMultiplesAreFinite(A, 8);
    var table := new Ge[8](_ => Ge(FeClear(), FeClear(), true));
    Z := OddMultiplesGlobalz(table, FeClear(), a);
    pre := table[..];
    OddTableFromEntries(pre, Value(Z), A);
    preLam := MulLambdaTable(pre, Value(Z), A);
    FirstMultiple(A);
  }

  /** secp256k1_ecmult with the endomorphism: na A + ng G. */
  method Ecmult(preG: seq<Ge>, preG128: seq<Ge>, r: Gej, a: Gej, na: nat, ng: nat, ghost G: CurvePoint)
    requires a.Valid() && !a.infinity && OnCurve(a.ToPoint(), 7) && r.Writable() && na < N && ng < N
    requires Context(preG, preG128, G)
    modifies r
    ensures r.Valid() && r.ToPoint() == LinearCombination(na, old(a.ToPoint()), ng, G)
  {
    hide At, LinearCombination, Multiple, OddTableAt, Sum, Two, Value, Fe.Valid, Res, Inv, Scale, Curve.AddPoints,
         Recoding, OnCurve, ToAffine, CoefficientA, CoefficientG;
    ghost var A: CurvePoint := a.ToPoint();
    ghost var na1, naLam, ng1, ng128;
    var wnafA1, bitsA1, wnafALam, bitsALam;
    wnafA1, bitsA1, wnafALam, bitsALam, na1, naLam := RecodeSplit(na);
    var bits := bitsA1;
    if bitsALam > bits {
      bits := bitsALam;
    }
    var pre, preALam, Z := TablesOf(a, A);
    var wnafG1, bitsG1, wnafG128, bitsG128;
    wnafG1, bitsG1, wnafG128, bitsG128, ng1, ng128 := RecodeHalves(ng);
    if bitsG1 > bits {
      bits := bitsG1;
    }
    if bitsG128 > bits {
      bits := bitsG128;
    }
    EcmultLoop(r, pre, preALam, preG, preG128, Z, wnafA1, bitsA1, wnafALam, bitsALam, wnafG1, bitsG1, wnafG128, bitsG128, bits,
               na1, naLam, ng1, ng128, A, G);
    ghost var x, y := CoefficientA(wnafA1[..], wnafALam[..], 0), CoefficientG(wnafG1[..], wnafG128[..], 0);
    ScaleBackAt(r, Z, LinearCombination(x, A, y, G));
    CombinationModN(x, na, A, y, ng, G);
  }

  lemma TableSizes()
    ensures Two(3) == 8
  {
    TwoStep(2); TwoStep(1); TwoStep(0); TwoSmall();
  }

  lemma FirstMultiple(p: CurvePoint)
    ensures Multiple(1, p) == p
  {
    SmallMultiples(p);
  }

  lemma OddTableFromEntries(pre: seq<Ge>, Z: int, p: CurvePoint)
    requires forall i :: 0 <= i < |pre| ==>
      pre[i].Valid() && !pre[i].infinity && Affine(Value(pre[i].x), Value(pre[i].y)) == Scale(Z, OddMultiple(p, i))
    ensures OddTableAt(pre, Z, p)
  {
    hide OddMultiple, Multiple, Scale, Value, Fe.Valid;
    forall i | 0 <= i < |pre|
      ensures pre[i].ToPoint() == Scale(Z, Multiple(2 * i + 1, p))
    {
      OddMultipleIsMultiple(p, i);
    }
  }

  /** secp256k1_scalar_split_128. */
  function SplitIn128(k: nat): (r: (nat, nat))
    requires k < N
    ensures r.0 + r.1 * Two(128) == k && r.0 < Two(128) && r.1 < Two(128)
  {
    TwoTo255();
    QuotientBound(k, Two(128), Two(128));
    (k % Two(128), k / Two(128))
  }

  lemma QuotientBound(k: nat, m: int, n: int)
    requires m > 0 && k < m * n
    ensures 0 <= k / m < n && k % m + (k / m) * m == k
  {
  }

  lemma HalfIsNarrow(h: nat)
    requires h < Two(128)
    ensures h < N && Magnitude(h) < Two(128)
  {
    TwoTo255();
  }

  /** The two strings together have the value that was split. */
  lemma WholeCoefficient(d1: seq<int>, b1: nat, w1: nat, v1: int, d2: seq<int>, b2: nat, w2: nat, v2: int, k: int, v: int)
    requires Recoding(d1, b1, w1, v1) && Recoding(d2, b2, w2, v2) && (v1 + v2 * k) % N == v % N
    ensures (Suffix(d1, 0) + Suffix(d2, 0) * k) % N == v % N
  {
    hide Horner, Sparse, Suffix;
    SuffixWhole(d1); SuffixWhole(d2);
    CongMul(Horner(d2), v2, k, k, N);
    CongAdd(Horner(d1), v1, Horner(d2) * k, v2 * k, N);
  }

  // ------------------------------------------------------------- building the context

  /** The odd multiples of a point, in affine coordinates. */
  method OddMultiplesAffine(n: nat, a: Gej) returns (pre: seq<Ge>)
    requires n >= 1 && 2 * n < N && a.Valid() && !a.infinity && OnCurve(a.ToPoint(), 7)
    ensures |pre| == n && OddTableAt(pre, 1, a.ToPoint())
  {
    hide Value, Fe.Valid, Res, Inv, ToAffine, OnCurve, OddMultiple, AllFinite, OddTableAt, ConvertedFrom,
         OddTable, ZChain, Ratios, Coordinates;
    OddMultiplesAreFinite(a.ToPoint(), n);
    var prej, zr, zs := OddMultiplesTable(n, a);
    EntriesHaveCoordinates(prej, a.ToPoint(), zs);
    var r := new Ge[n](_ => Ge(FeClear(), FeClear(), true));
    GeSetTableGejVar(r, prej, zr, zs);
    pre := r[..];
    AffineTable(pre, prej, zs, a.ToPoint());
  }

  lemma AffineTable(pre: seq<Ge>, prej: seq<Jac>, zs: seq<int>, p: CurvePoint)
    requires ConvertedFrom(pre, prej, zs, 1, 0, |prej|) && OddTable(prej, p, zs)
    ensures OddTableAt(pre, 1, p)
  {
    hide Value, Fe.Valid, Inv, ToAffine, OddMultiple, Multiple, Scale;
    ResOfSmall(1);
    forall i | 0 <= i < |pre|
      ensures pre[i].Valid() && !pre[i].infinity && pre[i].ToPoint() == Scale(1, Multiple(2 * i + 1, p))
    {
      assert OddEntry(prej[i], p, i, zs[i]) && AtCommonZ(pre[i], prej[i], zs[i], 1);
      TableEntry(pre[i], prej[i], p, i, zs[i], 1);
      OddMultipleIsMultiple(p, i);
    }
  }

  /** secp256k1_ecmult_context_build. */
  method ContextBuild() returns (preG: seq<Ge>, preG128: seq<Ge>)
    ensures Context(preG, preG128, Generator().ToPoint())
  {
    preG, preG128 := TablesOfMultiples(Generator());
  }

  /** Its tables, for any point g. */
  method TablesOfMultiples(g: Ge) returns (preG: seq<Ge>, preG128: seq<Ge>)
    requires g.Valid() && !g.infinity && OnCurve(g.ToPoint(), 7)
    ensures Context(preG, preG128, g.ToPoint())
  {
    hide Value, Fe.Valid, Res, Inv, ToAffine, OnCurve, OddTableAt, Multiple, Curve.AddPoints, Two;
    ghost var G: CurvePoint := g.ToPoint();
    TableSizeG();
    var gj := new Gej();
    GejSetGe(gj, g);
    preG := OddMultiplesAffine(8192, gj);
    FirstMultiple(G);
    // 128 doublings of the generator
    var g_128j := new Gej();
    g_128j.x, g_128j.y, g_128j.z, g_128j.infinity := gj.x, gj.y, gj.z, gj.infinity;
    TwoSmall();
    for i := 0 to 128
      invariant g_128j.Valid() && g_128j.ToPoint() == Multiple(Two(i), G)
    {
      ScaleByOne(Multiple(Two(i), G));
      ResOfSmall(1);
      StartAt(g_128j, 1, Multiple(Two(i), G));
      AtIsUsable(g_128j, 1, Multiple(Two(i), G));
      var rzr := GejDoubleVar(g_128j, g_128j);
      MultiplePlus(Two(i), Two(i), G);
      TwoStep(i);
    }
    PowerNotMultiple();
    MultipleIsNonzero(Two(128), G);
    preG128 := OddMultiplesAffine(8192, g_128j);
  }

  lemma StartAt(r: Gej, Z: int, s: CurvePoint)
    requires r.Valid() && r.ToPoint() == Scale(Z, s)
    ensures At(r, Z, s)
  {
  }

  lemma TableSizeG()
    ensures Two(13) == 8192
  {
    hide Two;
    TwoSmall();
    TableSizes();
    TwoAdd(3, 3); TwoAdd(6, 7);
  }

  lemma PowerNotMultiple()
    ensures Two(128) % N != 0
  {
    TwoTo255();
  }

  /** secp256k1_ge_const_g. */
  function Generator(): (g: Ge)
    ensures g.Valid() && !g.infinity && OnCurve(g.ToPoint(), 7)
    ensures g.ToPoint() == G()
  {
    var g := Ge(Fe([0x2815b16f81798, 0xdb2dce28d959f, 0xe870b07029bfc, 0xbbac55a06295c, 0x79be667ef9dc], 1, true), Fe([0x7d08ffb10d4b8, 0x48a68554199c4, 0xe1108a8fd17b4, 0xc4655da4fbfc0, 0x483ada7726a3], 1, true), false);
    GeneratorOnCurve();
    g
  }
}
