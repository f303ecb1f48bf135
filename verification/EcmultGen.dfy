/** Multiplying the generator by a secret scalar (ecmult_gen_impl.h): a comb of 64 rows of 16 points, offset so that the
    offsets cancel, and blinded by a point whose multiple of G is known. */
module EcmultGen {
  import opened NumberTheory
  import opened Params
  import opened FieldElement
  import opened FieldInverse
  import opened Curve
  import opened Jacobian
  import opened Group
  import opened GroupTables
  import opened PointDecoding
  import opened CurveGroup
  import opened GeneratorPoint
  import opened CyclicGroup
  import opened NumsChain
  import opened Wnaf
  import opened Ecmult
  import opened EcmultConst

  // ------------------------------------------------------------- converting an array with one inversion

  ghost predicate JacValid(a: Jac) {
    a.Writable() && (!a.infinity ==> Value(a.z) != 0)
  }

  ghost function JacPoint(a: Jac): Point {
    if a.infinity then Infinity else ToAffine(Value(a.x), Value(a.y), Value(a.z))
  }

  /** The Z coordinates of the finite points, in order. */
  function FiniteZs(a: seq<Jac>): seq<Fe> {
    if a == [] then [] else FiniteZs(a[..|a| - 1]) + (if a[|a| - 1].infinity then [] else [a[|a| - 1].z])
  }

  lemma {:induction false} FiniteZsPrefix(a: seq<Jac>, i: nat)
    requires i < |a| && !a[i].infinity
    ensures |FiniteZs(a[..i])| < |FiniteZs(a)| && FiniteZs(a)[|FiniteZs(a[..i])|] == a[i].z
  {
    if i < |a| - 1 {
      assert a[..|a| - 1][..i] == a[..i];
      FiniteZsPrefix(a[..|a| - 1], i);
    }
  }

  lemma {:induction false} FiniteZsUsable(a: seq<Jac>)
    requires forall i :: 0 <= i < |a| ==> JacValid(a[i])
    ensures Usable(FiniteZs(a))
  {
    hide Value, Fe.Valid;
    if a != [] { FiniteZsUsable(a[..|a| - 1]); }
  }

  /** r is the same point as a. */
  ghost predicate Same(r: Ge, a: Jac) {
    r.Valid() && r.infinity == a.infinity && r.ToPoint() == JacPoint(a)
  }

  /** One finite point, given the inverse of its Z. */
  method ConvertFinite(a: Jac, zi: Fe) returns (r: Ge)
    requires JacValid(a) && !a.infinity && zi.Valid() && zi.magnitude <= 8 && MulP(Value(zi), Value(a.z)) == 1
    ensures Same(r, a)
  {
    hide Value, Fe.Valid, ToAffine, MulP, Res, Inv, Scale;
    r := GeSetGejZinv(a, zi);
    Commute(Value(zi), Value(a.z));
    ValueIsResidue(a.x); ValueIsResidue(a.y);
    ScaledByInverse(Value(a.x), Value(a.y), Value(a.z), Value(zi));
  }

  lemma InfiniteSame(a: Jac)
    requires a.infinity
    ensures Same(Ge(FeClear(), FeClear(), true), a)
  {
  }

  /** secp256k1_ge_set_all_gej_var. */
  method GeSetAllGejVar(a: seq<Jac>) returns (r: seq<Ge>)
    requires forall i :: 0 <= i < |a| ==> JacValid(a[i])
    ensures |r| == |a| && forall i :: 0 <= i < |a| ==> Same(r[i], a[i])
  {
    hide Value, Fe.Valid, ToAffine, MulP, Res, Inv, Usable, InvertsFrom, Scale, Same, JacValid, FiniteZs;
    var zs := [];
    NoZs();
    assert a[..0] == [];
    for i := 0 to |a|
      invariant zs == FiniteZs(a[..i])
    {
      NextZ(a, i);
      if !a[i].infinity {
        zs := zs + [a[i].z];
      }
    }
    assert a[..|a|] == a;
    FiniteZsUsable(a);
    var az := new Fe[|zs|](i requires 0 <= i < |zs| => zs[i]);
    var azi := new Fe[|zs|](_ => FeClear());
    assert az[..] == zs;
    FeInvAllVar(azi, az);
    var inverses := azi[..];
    r := [];
    var count := 0;
    for i := 0 to |a|
      invariant |r| == i && count == |FiniteZs(a[..i])|
      invariant forall k :: 0 <= k < i ==> Same(r[k], a[k])
    {
      NextZ(a, i);
      if a[i].infinity {
        InfiniteSame(a[i]);
        r := r + [Ge(FeClear(), FeClear(), true)];
      } else {
        FiniteZsPrefix(a, i);
        InverseAt(inverses, zs, count);
        var x := ConvertFinite(a[i], inverses[count]);
        r := r + [x];
        count := count + 1;
      }
    }
  }

  lemma NoZs()
    ensures FiniteZs([]) == []
  {
  }

  lemma NextZ(a: seq<Jac>, i: nat)
    requires i < |a|
    ensures FiniteZs(a[..i + 1]) == FiniteZs(a[..i]) + (if a[i].infinity then [] else [a[i].z])
  {
    assert a[..i + 1][..i] == a[..i];
  }

  lemma InverseAt(r: seq<Fe>, a: seq<Fe>, i: nat)
    requires InvertsFrom(r, a, 0) && i < |a|
    ensures |r| == |a| && r[i].Valid() && r[i].magnitude <= 8 && MulP(Value(r[i]), Value(a[i])) == 1
  {
  }

  // ------------------------------------------------------------- the comb

  /** The multiple of the offset point in row j: they sum to zero. */
  function Offset(j: nat): int {
    if j < 63 then Two(j) else 1 - Two(63)
  }

  function OffsetSum(j: nat): int {
    if j == 0 then 0 else OffsetSum(j - 1) + Offset(j - 1)
  }

  lemma {:induction false} OffsetsSumTo(j: nat)
    requires j <= 63
    ensures OffsetSum(j) == Two(j) - 1
  {
    if j > 0 {
      OffsetsSumTo(j - 1);
      TwoStep(j - 1);
    }
  }

  lemma OffsetsCancel()
    ensures OffsetSum(64) == 0
  {
    hide Two;
    OffsetsSumTo(63);
  }

  /** Entry i of row j: i 16^j G plus the offset. */
  function CombPoint(j: nat, i: nat, G: CurvePoint, U: CurvePoint): CurvePoint {
    LinearCombination(i * Pow(16, j), G, Offset(j), U)
  }

  /** None of the entries is the point at infinity, which has no stored form. */
  ghost predicate CombIsFinite(G: CurvePoint, U: CurvePoint) {
    forall j, i :: 0 <= j < 64 && 0 <= i < 16 ==> CombPoint(j, i, G, U) != Infinity
  }

  ghost predicate IsComb(prec: seq<Ge>, G: CurvePoint, U: CurvePoint) {
    |prec| == 1024
    && forall j, i :: 0 <= j < 64 && 0 <= i < 16 ==> CombEntry(prec[j * 16 + i], CombPoint(j, i, G, U))
  }

  ghost predicate CombEntry(g: Ge, p: CurvePoint) {
    g.Valid() && !g.infinity && g.ToPoint() == p
  }

  /** The entries before they are stored; some may be infinite. */
  ghost predicate IsTable(prec: seq<Ge>, G: CurvePoint, U: CurvePoint) {
    |prec| == 1024
    && forall j, i :: 0 <= j < 64 && 0 <= i < 16 ==> TableEntry(prec[j * 16 + i], CombPoint(j, i, G, U))
  }

  ghost predicate TableEntry(g: Ge, p: CurvePoint) {
    g.Valid() && g.ToPoint() == p
  }

  /** The entries can be stored exactly if none of their points is infinity. */
  lemma StoredTable(prec: seq<Ge>, G: CurvePoint, U: CurvePoint)
    requires IsTable(prec, G, U)
    ensures IsComb(prec, G, U) <==> CombIsFinite(G, U)
  {
    hide Value, Fe.Valid, CombPoint;
    if IsComb(prec, G, U) {
      forall j, i | 0 <= j < 64 && 0 <= i < 16 ensures CombPoint(j, i, G, U) != Infinity {
        assert CombEntry(prec[j * 16 + i], CombPoint(j, i, G, U));
      }
    }
    if CombIsFinite(G, U) {
      forall j, i | 0 <= j < 64 && 0 <= i < 16 ensures CombEntry(prec[j * 16 + i], CombPoint(j, i, G, U)) {
        assert TableEntry(prec[j * 16 + i], CombPoint(j, i, G, U));
      }
    }
  }

  // ------------------------------------------------------------- the context

  class Context {
    var prec: seq<Ge>
    var blind: nat
    var initial: Jac

    /** secp256k1_ecmult_gen_context_init: nothing is built yet. */
    constructor ()
      ensures prec == []
    {
      prec, blind, initial := [], 0, Jac(FeClear(), FeClear(), FeClear(), true);
    }

    /** initial + blind G = 0. */
    ghost predicate Blinded(G: CurvePoint)
      reads this
    {
      blind < N && JacValid(initial) && JacPoint(initial) == Multiple(-(blind as int), G)
    }

    /** What every built context keeps, whatever its blinding. */
    ghost predicate Valid(G: CurvePoint, U: CurvePoint)
      reads this
    {
      IsComb(prec, G, U) && Blinded(G)
    }
  }

  // ------------------------------------------------------------- multiplication

  /** Row j of the comb, read by conditional moves. */
  method CombGet(prec: seq<Ge>, j: nat, bits: nat, ghost G: CurvePoint, ghost U: CurvePoint) returns (add: Ge)
    requires IsComb(prec, G, U) && j < 64 && bits < 16
    ensures CombEntry(add, CombPoint(j, bits, G, U))
  {
    hide Value, Fe.Valid, CombPoint;
    var x, y := FeClear(), FeClear();
    for i := 0 to 16
      invariant x.Valid() && y.Valid() && x.magnitude <= 8 && y.magnitude <= 8
      invariant i > bits ==> Affine(Value(x), Value(y)) == CombPoint(j, bits, G, U)
    {
      assert CombEntry(prec[j * 16 + i], CombPoint(j, i, G, U));
      x := FeCmov(x, prec[j * 16 + i].x, i == bits);
      y := FeCmov(y, prec[j * 16 + i].y, i == bits);
    }
    add := Ge(x, y, false);
  }

  lemma LowDigits(s: nat, j: nat)
    ensures Pow(16, j) > 0 && Pow(16, j + 1) > 0 && s % Pow(16, j + 1) == s % Pow(16, j) + GetBits(s, j * 4, 4) * Pow(16, j)
    ensures GetBits(s, j * 4, 4) < 16
  {
    hide Pow;
    TwoSmall();
    PowPositive(16, j); PowPositive(16, j + 1);
    PowOfPow(2, 4, j); PowOfPow(2, 4, j + 1);
    assert 4 * j == j * 4 && 4 * (j + 1) == j * 4 + 4;
    LowBits(s, j * 4, 4);
    BitsBound(s, j * 4, 4);
  }

  lemma AllDigits(s: nat)
    requires s < N
    ensures Pow(16, 64) > 0 && s % Pow(16, 64) == s && Pow(16, 0) > 0 && s % Pow(16, 0) == 0
  {
    hide Pow;
    TwoSmall();
    PowOfPow(2, 4, 64);
    TwoTo256();
    RemainderIsUnique(s, 0, s, Pow(2, 256));
    FirstDigit(s);
  }

  lemma FirstDigit(s: nat)
    ensures Pow(16, 0) == 1 && s % Pow(16, 0) == 0
  {
  }

  lemma CombStep(x: int, G: CurvePoint, u: int, U: CurvePoint, c: int, o: int)
    ensures AddPoints(LinearCombination(x, G, u, U), LinearCombination(c, G, o, U)) == LinearCombination(x + c, G, u + o, U)
  {
    hide Sum, Minus, AbelianGroup.Times, AddPoints, AbelianGroup.Laws, Secp;
    PointsFormAbelianGroup();
    var g := Secp();
    SecpAdd(LinearCombination(x, G, u, U), LinearCombination(c, G, o, U));
    AbelianGroup.Interchange(g, AbelianGroup.Times(g, x, G), AbelianGroup.Times(g, u, U),
                             AbelianGroup.Times(g, c, G), AbelianGroup.Times(g, o, U));
    AbelianGroup.TimesAdd(g, x, c, G);
    AbelianGroup.TimesAdd(g, u, o, U);
  }

  lemma PureMultiple(x: int, G: CurvePoint, U: CurvePoint)
    ensures LinearCombination(x, G, 0, U) == Multiple(x, G)
  {
    hide Sum, Minus, AddPoints, AbelianGroup.Laws, Secp;
    PointsFormAbelianGroup();
    AbelianGroup.Zero(Secp(), Multiple(x, G));
  }

  /** secp256k1_ecmult_gen. */
  method EcmultGen(ctx: Context, r: Gej, gn: nat, ghost G: CurvePoint, ghost U: CurvePoint)
    requires ctx.Valid(G, U) && gn < N && r.Writable()
    modifies r
    ensures r.Valid() && r.ToPoint() == Multiple(gn, G)
  {
    hide Value, Fe.Valid, Res, Inv, ToAffine, Multiple, LinearCombination, AddPoints, Sum, Scale, At,
         CombPoint, OffsetSum, IsComb, OnCurve, Pow, Offset;
    r.x, r.y, r.z, r.infinity := ctx.initial.x, ctx.initial.y, ctx.initial.z, ctx.initial.infinity;
    // the blinding point carries the b that the digits lack
    var gnb := (gn + ctx.blind) % N;
    ghost var b: int := ctx.blind;
    AllDigits(gnb);
    StartOfComb(G, U, -b);
    ScaleByOne(LinearCombination(-b, G, 0, U));
    IsAt(r, 1, LinearCombination(-b, G, 0, U));
    ResOfSmall(1);
    for j := 0 to 64
      invariant Pow(16, j) > 0 && At(r, 1, LinearCombination(gnb % Pow(16, j) - b, G, OffsetSum(j), U))
    {
      LowDigits(gnb, j);
      var bits := GetBits(gnb, j * 4, 4);
      var add := CombGet(ctx.prec, j, bits, G, U);
      ghost var s := LinearCombination(gnb % Pow(16, j) - b, G, OffsetSum(j), U);
      ghost var t := CombPoint(j, bits, G, U);
      ScaleByOne(t);
      AddGeConstAt(r, add, 1, s, t);
      SumIsAdd(s, t);
      CombStepAt(gnb % Pow(16, j) - b, G, j, U, bits);
    }
    OffsetsCancel();
    AtUnitScale(r, LinearCombination(gnb - b, G, 0, U));
    PureMultiple(gnb - b, G, U);
    BlindingCancels(gn, ctx.blind);
    MultipleModN(gnb - b, gn, G);
  }

  lemma StartOfComb(G: CurvePoint, U: CurvePoint, x: int)
    ensures LinearCombination(x, G, 0, U) == Multiple(x, G) && OffsetSum(0) == 0
  {
    PureMultiple(x, G, U);
  }

  lemma CombStepAt(x: int, G: CurvePoint, j: nat, U: CurvePoint, bits: nat)
    ensures AddPoints(LinearCombination(x, G, OffsetSum(j), U), CombPoint(j, bits, G, U))
         == LinearCombination(x + bits * Pow(16, j), G, OffsetSum(j + 1), U)
  {
    hide LinearCombination, AddPoints, Pow, Offset;
    CombStep(x, G, OffsetSum(j), U, bits * Pow(16, j), Offset(j));
  }

  lemma BlindingCancels(gn: nat, b: nat)
    ensures ((gn + b) % N - b) % N == gn % N
  {
    CongSelf(gn + b, N);
    CongAdd((gn + b) % N, gn + b, b, b, N);
  }

  // ------------------------------------------------------------- blinding

  /** Without a seed, the initial point becomes -G and the blinding value 1. */
  method ResetBlinding(ctx: Context, g: Ge)
    requires g.Valid() && !g.infinity && OnCurve(g.ToPoint(), 7)
    modifies ctx
    ensures ctx.Blinded(g.ToPoint()) && ctx.prec == old(ctx.prec)
  {
    hide Value, Fe.Valid, Res, Inv, ToAffine, Multiple, OnCurve, AddPoints;
    var t := new Gej();
    GejSetGe(t, g);
    GejNeg(t, t);
    SmallMultiples(g.ToPoint());
    NegatedMultiple(1, g.ToPoint());
    ctx.initial := Copy(t);
    ctx.blind := 1;
  }

  /** Changing the projection of the initial point. */
  method RescaleInitial(ctx: Context, s: Fe, ghost G: CurvePoint)
    requires ctx.Blinded(G) && s.Valid() && s.magnitude <= 1 && Value(s) != 0
    modifies ctx
    ensures ctx.Blinded(G) && ctx.prec == old(ctx.prec) && ctx.blind == old(ctx.blind)
    ensures Value(ctx.initial.z) == MulP(old(Value(ctx.initial.z)), Value(s))
  {
    hide Value, Fe.Valid, Res, Inv, ToAffine, Multiple, MulP;
    var t := new Gej();
    t.x, t.y, t.z, t.infinity := ctx.initial.x, ctx.initial.y, ctx.initial.z, ctx.initial.infinity;
    GejRescale(t, s);
    ctx.initial := Copy(t);
  }

  /** secp256k1_ecmult_gen_blind: reset says whether there is no seed; the projection factor s and the new blinding
      value come from the random generator, which retries until they are in range. */
  method Blind(ctx: Context, reset: bool, g: Ge, s: Fe, b: nat, ghost U: CurvePoint)
    requires g.Valid() && !g.infinity && OnCurve(g.ToPoint(), 7) && IsComb(ctx.prec, g.ToPoint(), U)
    requires !reset ==> ctx.Blinded(g.ToPoint())
    requires s.Valid() && s.magnitude <= 1 && Value(s) != 0 && 0 < b < N
    modifies ctx
    ensures ctx.Valid(g.ToPoint(), U) && ctx.prec == old(ctx.prec) && ctx.blind == N - b
  {
    hide Value, Fe.Valid, Res, Inv, ToAffine, Multiple, IsComb, OnCurve, AddPoints;
    ghost var G: CurvePoint := g.ToPoint();
    if reset {
      ResetBlinding(ctx, g);
    }
    RescaleInitial(ctx, s, G);
    var gb := new Gej();
    EcmultGen(ctx, gb, b, G, U);
    ctx.blind := ScalarNegate(b);
    ctx.initial := Copy(gb);
    NegatedBlind(b);
    MultipleModN(b, -(N - b), G);
  }

  lemma NegatedBlind(b: nat)
    requires 0 < b < N
    ensures b % N == (-(N - b)) % N
  {
    CongFromDifference(-(N - b), b, -1, N);
  }

  // ------------------------------------------------------------- building

  /** A stored Jacobian point with a known value. */
  ghost predicate JacIs(a: Jac, p: CurvePoint) {
    JacValid(a) && JacPoint(a) == p
  }

  lemma GejIs(g: Gej, p: CurvePoint)
    requires g.Valid() && g.ToPoint() == p
    ensures JacIs(Copy(g), p) && (!g.infinity ==> Value(g.y) != 0)
  {
    hide Value, Fe.Valid, Res, Inv, ToAffine, Scale;
    ScaleByOne(p);
    ResOfSmall(1);
    IsAt(g, 1, p);
    AtIsUsable(g, 1, p);
  }

  /** One row of the comb: the offset, and gbase added to it fifteen times. */
  method BuildRow(numsbase: Gej, gbase: Gej, ghost j: nat, ghost G: CurvePoint, ghost U: CurvePoint) returns (row: seq<Jac>)
    requires numsbase.Valid() && numsbase.ToPoint() == Multiple(Offset(j), U)
    requires gbase.Valid() && gbase.ToPoint() == Multiple(Pow(16, j), G)
    ensures |row| == 16 && forall i :: 0 <= i < 16 ==> JacIs(row[i], CombPoint(j, i, G, U))
  {
    hide Value, Fe.Valid, Res, Inv, ToAffine, Multiple, AddPoints, Pow, Offset, JacIs, CombPoint;
    row := [Copy(numsbase)];
    GejIs(numsbase, Multiple(Offset(j), U));
    RowStart(j, G, U);
    var cur := new Gej();
    cur.x, cur.y, cur.z, cur.infinity := numsbase.x, numsbase.y, numsbase.z, numsbase.infinity;
    for i := 1 to 16
      invariant |row| == i && forall k :: 0 <= k < i ==> JacIs(row[k], CombPoint(j, k, G, U))
      invariant cur.Valid() && cur.ToPoint() == CombPoint(j, i - 1, G, U)
      invariant gbase.Valid() && gbase.ToPoint() == Multiple(Pow(16, j), G) && fresh(cur)
    {
      GejIs(cur, CombPoint(j, i - 1, G, U));
      var rzr := GejAddVar(cur, cur, gbase);
      RowStep(j, i, G, U);
      GejIs(cur, CombPoint(j, i, G, U));
      row := row + [Copy(cur)];
    }
  }

  lemma RowStart(j: nat, G: CurvePoint, U: CurvePoint)
    ensures CombPoint(j, 0, G, U) == Multiple(Offset(j), U)
  {
    hide Sum, Minus, AddPoints, AbelianGroup.Laws, Pow, Offset;
    assert 0 * Pow(16, j) == 0;
    PointsFormAbelianGroup();
    AbelianGroup.SmallTimes(Secp(), G);
    AbelianGroup.Zero(Secp(), Multiple(Offset(j), U));
  }

  lemma RowStep(j: nat, i: nat, G: CurvePoint, U: CurvePoint)
    requires i > 0
    ensures AddPoints(CombPoint(j, i - 1, G, U), Multiple(Pow(16, j), G)) == CombPoint(j, i, G, U)
  {
    hide LinearCombination, Multiple, AddPoints, Pow, Offset;
    CombinationPlusFirst((i - 1) * Pow(16, j), G, Offset(j), U, Pow(16, j));
    assert (i - 1) * Pow(16, j) + Pow(16, j) == i * Pow(16, j);
  }

  /** r becomes 2^k times what it was. */
  method DoubleTimes(r: Gej, k: nat, ghost p: CurvePoint)
    requires r.Valid() && r.ToPoint() == p
    modifies r
    ensures r.Valid() && r.ToPoint() == Multiple(Two(k), p)
  {
    hide Value, Fe.Valid, Res, Inv, ToAffine, Multiple, AddPoints, Two, JacIs;
    TwoSmall();
    SmallMultiples(p);
    for i := 0 to k
      invariant r.Valid() && r.ToPoint() == Multiple(Two(i), p)
    {
      GejIs(r, Multiple(Two(i), p));
      var rzr := GejDoubleVar(r, r);
      MultiplePlus(Two(i), Two(i), p);
      TwoStep(i);
    }
  }

  lemma Times16(j: nat, G: CurvePoint)
    ensures Multiple(Two(4), Multiple(Pow(16, j), G)) == Multiple(Pow(16, j + 1), G)
  {
    hide Multiple, Pow;
    TwoSmall();
    MultipleOfMultiple(16, Pow(16, j), G);
    PowStep(16, j);
  }

  /** The rows so far. */
  ghost predicate Rows(precj: seq<Jac>, n: nat, G: CurvePoint, U: CurvePoint) {
    |precj| == 16 * n && forall j, i :: 0 <= j < n && 0 <= i < 16 ==> JacIs(precj[j * 16 + i], CombPoint(j, i, G, U))
  }

  lemma RowAdded(precj: seq<Jac>, n: nat, row: seq<Jac>, G: CurvePoint, U: CurvePoint)
    requires Rows(precj, n, G, U) && |row| == 16 && forall i :: 0 <= i < 16 ==> JacIs(row[i], CombPoint(n, i, G, U))
    ensures Rows(precj + row, n + 1, G, U)
  {
    hide JacIs, CombPoint;
    forall j, i | 0 <= j < n + 1 && 0 <= i < 16
      ensures JacIs((precj + row)[j * 16 + i], CombPoint(j, i, G, U))
    {
      if j < n {
        assert (precj + row)[j * 16 + i] == precj[j * 16 + i];
      } else {
        assert (precj + row)[j * 16 + i] == row[i];
      }
    }
  }

  /** The offset of the next row, with the twist before the last one. */
  method NextOffset(numsbase: Gej, nums: Gej, j: nat, ghost U: CurvePoint)
    requires numsbase != nums && j < 63
    requires numsbase.Valid() && numsbase.ToPoint() == Multiple(Offset(j), U) && nums.Valid() && nums.ToPoint() == U
    modifies numsbase
    ensures numsbase.Valid() && numsbase.ToPoint() == Multiple(Offset(j + 1), U)
  {
    hide Value, Fe.Valid, Res, Inv, ToAffine, Multiple, AddPoints, Two, JacIs;
    GejIs(numsbase, Multiple(Offset(j), U));
    var rzr := GejDoubleVar(numsbase, numsbase);
    MultiplePlus(Offset(j), Offset(j), U);
    TwoStep(j);
    if j == 62 {
      // the last offset cancels all the others
      GejNeg(numsbase, numsbase);
      NegatedMultiple(Two(63), U);
      GejIs(numsbase, Multiple(-Two(63), U));
      rzr := GejAddVar(numsbase, numsbase, nums);
      SmallMultiples(U);
      MultiplePlus(-Two(63), 1, U);
    }
  }

  /** All rows, in Jacobian coordinates. */
  method BuildRows(g: Ge, nums: Gej, ghost G: CurvePoint, ghost U: CurvePoint) returns (precj: seq<Jac>)
    requires g.Valid() && g.ToPoint() == G && nums.Valid() && nums.ToPoint() == U
    ensures Rows(precj, 64, G, U)
  {
    hide Value, Fe.Valid, Res, Inv, ToAffine, Multiple, AddPoints, Pow, Offset, JacIs, CombPoint, Two, OnCurve, Sum;
    precj := [];
    var gbase := new Gej();
    var numsbase := new Gej();
    GejSetGe(gbase, g);
    numsbase.x, numsbase.y, numsbase.z, numsbase.infinity := nums.x, nums.y, nums.z, nums.infinity;
    FirstBases(G, U);
    for j := 0 to 64
      invariant Rows(precj, j, G, U)
      invariant gbase.Valid() && gbase.ToPoint() == Multiple(Pow(16, j), G)
      invariant numsbase.Valid() && (j < 64 ==> numsbase.ToPoint() == Multiple(Offset(j), U))
      invariant nums.Valid() && nums.ToPoint() == U
      invariant fresh(gbase) && fresh(numsbase) && gbase != numsbase && numsbase != nums && gbase != nums
    {
      var row := BuildRow(numsbase, gbase, j, G, U);
      RowAdded(precj, j, row, G, U);
      precj := precj + row;
      DoubleTimes(gbase, 4, Multiple(Pow(16, j), G));
      Times16(j, G);
      if j < 63 {
        NextOffset(numsbase, nums, j, U);
      } else {
        GejIs(numsbase, Multiple(Offset(j), U));
        var rzr := GejDoubleVar(numsbase, numsbase);
      }
    }
  }

  lemma FirstBases(G: CurvePoint, U: CurvePoint)
    ensures Multiple(Pow(16, 0), G) == G && Multiple(Offset(0), U) == U
  {
    hide Multiple;
    SmallMultiples(G);
    SmallMultiples(U);
    TwoSmall();
  }

  /** secp256k1_ecmult_gen_context_build; s and b are the random values of the first blinding. */
  method ContextBuild(ctx: Context, s: Fe, b: nat) returns (ghost U: CurvePoint)
    requires ctx.prec == []
    requires s.Valid() && s.magnitude <= 1 && Value(s) != 0 && 0 < b < N
    modifies ctx
    ensures U == FirstOffset() && ctx.Valid(G(), U)
  {
    hide CombIsFinite, Value, Fe.Valid, OnCurve, IsComb, IsTable, Sum, Multiple;
    var nums_ge := NumsPoint();
    var g := Generator();
    U := FirstOffset();
    var prec := BuildTable(g, nums_ge);
    CombOfGeneratorIsFinite();
    StoredTable(prec, G(), U);
    ctx.prec := prec;
    Blind(ctx, true, g, s, b, U);
  }

  /** With the two generators of the source, no entry of the comb is infinite. */
  lemma CombOfGeneratorIsFinite()
    ensures CombIsFinite(G(), FirstOffset())
  {
    hide CombPoint;
    forall j, i | 0 <= j < 64 && 0 <= i < 16 ensures CombPoint(j, i, G(), FirstOffset()) != Infinity {
      EntryIsFinite(j, i);
    }
  }

  lemma EntryIsFinite(j: nat, i: nat)
    requires j < 64 && i < 16
    ensures CombPoint(j, i, G(), FirstOffset()) != Infinity
  {
    hide LinearCombination, Multiple, Two, G, FirstOffset, OnCurve, Pow;
    var U := FirstOffset();
    if i == 0 {
      RowStart(j, G(), U);
      FirstOffsetAbscissa();
      OffsetIsNonzero(j);
      MultipleIsNonzero(Offset(j), U);
    } else {
      var m, e := OddPart(i);
      if j < 63 {
        EntryPower(i, m, e, j);
        SplitPower(m, e, j);
        EarlyRow(m, 3 * j + e);
        PowerIsNonzero(j);
        MultipleIsNonzero(Two(j), LinearCombination(m * Two(3 * j + e), G(), 1, U));
        MultipleOfCombination(Two(j), m * Two(3 * j + e), G(), 1, U);
      } else {
        EntryPower(i, m, e, j);
        LastRow(m, 4 * j + e);
      }
    }
  }

  lemma EntryPower(i: nat, m: nat, e: nat, j: nat)
    requires i == m * Two(e)
    ensures i * Pow(16, j) == m * Two(4 * j + e)
  {
    TwoSmall();
    PowOfPow(2, 4, j);
    assert Two(4 * j) == Pow(2, 4 * j) && Two(4) == Pow(2, 4);
    hide Two, Pow;
    TwoAdd(4 * j, e);
    assert m * Two(e) * Two(4 * j) == m * (Two(4 * j) * Two(e));
  }

  lemma SplitPower(m: nat, e: nat, j: nat)
    ensures m * Two(4 * j + e) == Two(j) * (m * Two(3 * j + e)) && Offset(j) == (if j < 63 then Two(j) * 1 else 1 - Two(63))
  {
    hide Two;
    TwoAdd(3 * j + e, j);
    assert m * (Two(3 * j + e) * Two(j)) == Two(j) * (m * Two(3 * j + e));
  }

  lemma OffsetIsNonzero(j: nat)
    requires j < 64
    ensures Offset(j) % N != 0
  {
    hide Two;
    if j < 63 {
      PowerIsNonzero(j);
    } else {
      TwoSmall();
      TwoAdd(8, 8); TwoAdd(16, 16); TwoAdd(32, 16); TwoAdd(48, 8); TwoAdd(56, 7);
      RemainderIsUnique(1 - Two(63), -1, N + 1 - Two(63), N);
    }
  }

  lemma OddPart(i: nat) returns (m: int, e: nat)
    requires 0 < i < 16
    ensures 0 < m < 16 && m % 2 == 1 && e <= 3 && i == m * Two(e)
  {
    hide Two;
    TwoSmall();
    TwoStep(1); TwoStep(2);
    if i % 2 == 1 { m, e := i, 0; }
    else if i % 4 == 2 { m, e := i / 2, 1; }
    else if i % 8 == 4 { m, e := i / 4, 2; }
    else { m, e := i / 8, 3; }
  }

  /** The entries for any generator g and any point nums_ge. */
  method BuildTable(g: Ge, nums_ge: Ge) returns (prec: seq<Ge>)
    requires g.Valid() && !g.infinity && OnCurve(g.ToPoint(), 7) && nums_ge.Valid() && OnCurve(nums_ge.ToPoint(), 7)
    ensures IsTable(prec, g.ToPoint(), Sum(nums_ge.ToPoint(), g.ToPoint()))
  {
    hide Value, Fe.Valid, Res, Inv, ToAffine, Multiple, AddPoints, OnCurve, JacIs, CombPoint, Sum, IsTable;
    ghost var G: CurvePoint, V: CurvePoint := g.ToPoint(), nums_ge.ToPoint();
    ghost var U := Sum(V, G);
    var nums := new Gej();
    GejSetGe(nums, nums_ge);
    GejIs(nums, V);
    // a shift of the decoded point by g
    var rzr := GejAddGeVar(nums, nums, g);
    SumIsAdd(V, G);
    var precj := BuildRows(g, nums, G, U);
    RowsAreValid(precj, G, U);
    prec := GeSetAllGejVar(precj);
    TableFromRows(prec, precj, G, U);
  }

  lemma RowsAreValid(precj: seq<Jac>, G: CurvePoint, U: CurvePoint)
    requires Rows(precj, 64, G, U)
    ensures forall k :: 0 <= k < |precj| ==> JacValid(precj[k])
  {
    hide Value, Fe.Valid, CombPoint;
    forall k | 0 <= k < |precj|
      ensures JacValid(precj[k])
    {
      assert k == (k / 16) * 16 + k % 16;
      assert JacIs(precj[(k / 16) * 16 + k % 16], CombPoint(k / 16, k % 16, G, U));
    }
  }

  lemma TableFromRows(prec: seq<Ge>, precj: seq<Jac>, G: CurvePoint, U: CurvePoint)
    requires Rows(precj, 64, G, U) && |prec| == |precj|
    requires forall k :: 0 <= k < |precj| ==> Same(prec[k], precj[k])
    ensures IsTable(prec, G, U)
  {
    hide Value, Fe.Valid, CombPoint, ToAffine;
    forall j, i | 0 <= j < 64 && 0 <= i < 16
      ensures TableEntry(prec[j * 16 + i], CombPoint(j, i, G, U))
    {
      assert JacIs(precj[j * 16 + i], CombPoint(j, i, G, U));
    }
  }
}
