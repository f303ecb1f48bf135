/** Tables of points (group_impl.h, ecmult_impl.h): conversions that share one inversion or none, walking backwards
    along the ratios of successive Z coordinates; and the endomorphism. */
module GroupTables {
  import opened Params
  import opened FieldElement
  import opened FieldInverse
  import opened Curve
  import opened Jacobian
  import opened Group
  import Secp256k1Prime

  // ------------------------------------------------------------- no point of order two

  /** On secp256k1 no point has y = 0, because -7 is not a cube. */
  lemma OrdinateIsNonzero(p: Point)
    requires p.Affine? && OnCurve(p, 7)
    ensures p.y != 0
  {
    if p.y == 0 {
      hide OnCurve, Inv, AddPoints, Res;
      CurveEquation(p, 7);
      assert p.y * p.y == 0;
      ResIsMod(p.x * p.x * p.x + 7);
      ResOfSmall(0);
      Secp256k1Prime.MinusSevenIsNotACube(p.x);
    }
  }

  /** So doubling a finite point gives a finite point, on which the doubling formula is right. */
  lemma DoubleIsFinite(p: Point)
    requires p.Affine? && OnCurve(p, 7)
    ensures AddPoints(p, p).Affine? && OnCurve(AddPoints(p, p), 7)
  {
    hide OnCurve, Inv;
    OrdinateIsNonzero(p);
    SumIsOnCurve(p, p, 7);
  }

  lemma ScaledOrdinateIsNonzero(u: int, p: Point, X: int, Y: int, Z: int)
    requires p.Affine? && IsResidue(p.y) && p.y != 0 && Res(u) != 0 && IsResidue(Y) && ToAffine(X, Y, Z) == Scale(u, p)
    ensures Y != 0
  {
    Products();
    hide Inv;
    ResOfSmall(0); ResOfSmall(p.y);
    ProductIsNonzero(u, u); ProductIsNonzero(u * u, u); ProductIsNonzero(p.y, u * u * u);
    ZeroTimesAny(Y, Inv(Z) * Inv(Z) * Inv(Z));
  }

  lemma ZeroTimesAny(y: int, w: int)
    ensures y == 0 ==> y * w == 0
  {
  }

  lemma OrdinateOfJacobian(X: int, Y: int, Z: int)
    requires IsResidue(X) && IsResidue(Y) && Res(Z) != 0 && OnCurve(ToAffine(X, Y, Z), 7)
    ensures Y != 0
  {
    Products();
    hide Inv, OnCurve, Res;
    OrdinateIsNonzero(ToAffine(X, Y, Z));
    ResOfSmall(0);
    ZeroTimesAny(Y, Inv(Z) * Inv(Z) * Inv(Z));
  }

  // ------------------------------------------------------------- one point

  /** A secp256k1_gej in an array: a struct, copied by assignment. */
  datatype Jac = Jac(x: Fe, y: Fe, z: Fe, infinity: bool) {
    ghost predicate Writable() {
      x.Valid() && y.Valid() && z.Valid() && x.magnitude <= 8 && y.magnitude <= 8 && z.magnitude <= 8
    }
  }

  function Copy(g: Gej): Jac
    reads g
  {
    Jac(g.x, g.y, g.z, g.infinity)
  }

  /** Multiplying the coordinates by u^2, u^3 and u leaves the point alone. */
  lemma RescaledTriple(X: int, Y: int, Z: int, u: int, Zu: int)
    requires IsResidue(X) && IsResidue(Y) && Res(Z) != 0 && Res(u) != 0 && Res(Zu) == Res(Z * u)
    ensures Res(Zu) != 0
    ensures var q := Scale(u, Affine(X, Y)); ToAffine(q.x, q.y, Zu) == ToAffine(X, Y, Z)
  {
    Products();
    hide Res, Inv, ToAffine;
    var p := ToAffine(X, Y, Z);
    AffineRepresents(X, Y, Z);
    ProductIsNonzero(Z, u);
    var q := Scale(u, Affine(X, Y));
    ResOfSmall(X); ResOfSmall(Y);
    Replace(X, p.x * (Z * Z), u * u);
    Replace(Y, p.y * (Z * Z * Z), u * u * u);
    SquareOfProduct(p.x, Z, u);
    CubeOfProduct(p.y, Z, u);
    PowersAgree(Zu, Z * u, p.x, p.y);
    ResIdempotent(X * (u * u)); ResIdempotent(Y * (u * u * u));
    RepresentationIsUnique(q.x, q.y, Zu, p);
  }

  lemma ScaledByInverse(X: int, Y: int, Z: int, u: int)
    requires IsResidue(X) && IsResidue(Y) && MulP(Z, u) == 1
    ensures Res(Z) != 0 && Scale(u, Affine(X, Y)) == ToAffine(X, Y, Z)
  {
    Products();
    hide Res, Inv, ToAffine;
    FactorsAreNonzero(Z, u);
    ResOfSmall(1);
    RescaledTriple(X, Y, Z, u, 1);
    ResIdempotent(X * (u * u)); ResIdempotent(Y * (u * u * u));
    AtUnitZ(Scale(u, Affine(X, Y)).x, Scale(u, Affine(X, Y)).y);
  }

  lemma FactorsAreNonzero(a: int, b: int)
    requires MulP(a, b) != 0
    ensures Res(a) != 0 && Res(b) != 0
  {
    Products();
    hide Res;
    ResOfSmall(0);
    if Res(a) == 0 { Replace(a, 0, b); }
    if Res(b) == 0 { Replace(b, 0, a); }
  }

  /** secp256k1_ge_set_gej_zinv. */
  method GeSetGejZinv(a: Jac, zi: Fe) returns (r: Ge)
    requires a.Writable() && zi.Valid() && zi.magnitude <= 8
    ensures r.Valid() && r.infinity == a.infinity && r.x.magnitude == 1 && r.y.magnitude == 1
    ensures Affine(Value(r.x), Value(r.y)) == Scale(Value(zi), Affine(Value(a.x), Value(a.y)))
  {
    hide Res, MulP, Value, Fe.Valid, Scale;
    var zi2 := FeSqr(zi);
    var zi3 := FeMul(zi2, zi);
    var x := FeMul(a.x, zi2);
    var y := FeMul(a.y, zi3);
    r := Ge(x, y, a.infinity);
    PointAtZinv(Value(a.x), Value(a.y), Value(zi), Value(zi2), Value(zi3), Value(x), Value(y));
  }

  /** secp256k1_ge_set_gej: the Jacobian point is brought to Z = 1 along the way. */
  method GeSetGej(a: Gej) returns (r: Ge)
    requires a.Valid()
    modifies a
    ensures r.Valid() && r.ToPoint() == old(a.ToPoint()) && r.x.magnitude == 1 && r.y.magnitude == 1
    ensures a.Valid() && a.ToPoint() == old(a.ToPoint()) && Value(a.z) == 1
  {
    hide Res, Inv, MulP, Value, Fe.Valid, Scale, ToAffine;
    ghost var X, Y, Z := Value(a.x), Value(a.y), Value(a.z);
    ValueIsResidue(a.x); ValueIsResidue(a.y); ValueIsResidue(a.z);
    a.z := FeInv(a.z); ghost var u := Value(a.z);
    var z2 := FeSqr(a.z);
    var z3 := FeMul(a.z, z2);
    a.x := FeMul(a.x, z2);
    a.y := FeMul(a.y, z3);
    a.z := FeSetInt(1);
    r := Ge(a.x, a.y, a.infinity);
    Commute(u, Value(z2));
    PointAtZinv(X, Y, u, Value(z2), Value(z3), Value(a.x), Value(a.y));
    if !a.infinity {
      ScaledByInverse(X, Y, Z, u);
      ValueIsResidue(a.x); ValueIsResidue(a.y);
      AtUnitZ(Value(a.x), Value(a.y));
    }
  }

  /** secp256k1_gej_rescale: another representation of the same point. */
  method GejRescale(r: Gej, s: Fe)
    requires r.Valid() && s.Valid() && s.magnitude <= 8 && Value(s) != 0
    modifies r
    ensures r.Valid() && r.ToPoint() == old(r.ToPoint())
    ensures Value(r.z) == MulP(old(Value(r.z)), Value(s))
  {
    hide Res, Inv, MulP, Value, Fe.Valid, Scale, ToAffine;
    ghost var X, Y, Z, u := Value(r.x), Value(r.y), Value(r.z), Value(s);
    ValueIsResidue(r.x); ValueIsResidue(r.y); ValueIsResidue(r.z); ValueIsResidue(s);
    var zz := FeSqr(s);
    r.x := FeMul(r.x, zz);
    r.y := FeMul(r.y, zz); ghost var y' := Value(r.y);
    r.y := FeMul(r.y, s);
    r.z := FeMul(r.z, s);
    ScaledInTwoSteps(X, Y, u, Value(zz), Value(r.x), y', Value(r.y));
    ProductIsResidue(Z, u, Value(r.z));
    if !r.infinity { RescaledTriple(X, Y, Z, u, Value(r.z)); }
  }

  lemma ScaledInTwoSteps(x: int, y: int, u: int, u2: int, X: int, y': int, Y: int)
    requires u2 == MulP(u, u) && X == MulP(x, u2) && y' == MulP(y, u2) && Y == MulP(y', u)
    ensures Affine(X, Y) == Scale(u, Affine(x, y))
  {
    Products();
    hide Res, MulP;
    VMul(u2, u, u, u, u); VMul(X, x, u2, x, u * u); VMul(y', y, u2, y, u * u); VMul(Y, y', u, y * (u * u), u);
    VIsResidue(x, u2); VIsResidue(y', u);
    ResIdempotent(x * (u * u)); ResIdempotent(y * (u * u * u));
    assert y * (u * u) * u == y * (u * u * u);
  }

  /** secp256k1_ge_neg. */
  method GeNeg(a: Ge) returns (r: Ge)
    requires a.Valid()
    ensures r.Valid() && r.ToPoint() == Negate(a.ToPoint()) && r.infinity == a.infinity && r.y.magnitude == 2
  {
    hide Res, Value, Fe.Valid;
    r := a;
    var y := FeNormalizeWeak(r.y);
    y := FeNegate(y, 1);
    r := Ge(r.x, y, r.infinity);
  }

  /** secp256k1_gej_neg. */
  method GejNeg(r: Gej, a: Gej)
    requires a.Valid() && r.Writable()
    modifies r
    ensures r.Valid() && r.ToPoint() == Negate(old(a.ToPoint())) && r.infinity == old(a.infinity)
    ensures r.x == old(a.x) && r.y.magnitude == 2 && r.z == old(a.z)
  {
    Products();
    hide Res, Inv, Value, Fe.Valid, SubP;
    r.infinity := a.infinity;
    r.x := a.x;
    r.y := a.y;
    r.z := a.z;
    ghost var X, Y, Z := Value(r.x), Value(r.y), Value(r.z);
    r.y := FeNormalizeWeak(r.y);
    r.y := FeNegate(r.y, 1);
    NegatedOrdinate(Y, Inv(Z) * Inv(Z) * Inv(Z), Value(r.y));
  }

  lemma NegatedOrdinate(Y: int, w: int, n: int)
    requires n == SubP(0, Y)
    ensures Res(n * w) == SubP(0, Res(Y * w))
  {
    hide Res;
    ResIdempotent(0 - Y);
    Replace(n, 0 - Y, w);
    assert (0 - Y) * w == 0 - Y * w;
    ResIdempotent(Y * w);
    Both(0, 0, Res(Y * w), Y * w);
  }

  /** secp256k1_gej_eq_x_var: compares x Z^2 with X instead of dividing. */
  method GejEqXVar(x: Fe, a: Gej) returns (equal: bool)
    requires x.Valid() && x.magnitude <= 8 && a.Valid() && !a.infinity
    ensures equal <==> a.ToPoint().x == Value(x)
  {
    hide Res, Inv, MulP, Value, Fe.Valid, ToAffine;
    var r := FeSqr(a.z); ghost var z2 := Value(r);
    r := FeMul(r, x);
    var r2 := a.x;
    r2 := FeNormalizeWeak(r2);
    equal := FeEqual(r, r2, true);
    ValueIsResidue(a.x); ValueIsResidue(a.y); ValueIsResidue(a.z); ValueIsResidue(x);
    SameAbscissa(Value(x), Value(a.x), Value(a.y), Value(a.z), z2, Value(r));
  }

  lemma SameAbscissa(x: int, X: int, Y: int, Z: int, z2: int, r: int)
    requires IsResidue(x) && IsResidue(X) && IsResidue(Y) && Res(Z) != 0 && z2 == MulP(Z, Z) && r == MulP(z2, x)
    ensures r == X <==> ToAffine(X, Y, Z).x == x
  {
    Products();
    hide Res, Inv, MulP, ToAffine;
    AffineRepresents(X, Y, Z);
    VMul(z2, Z, Z, Z, Z); VMul(r, z2, x, Z * Z, x); VIsResidue(z2, x);
    assert Z * Z * x == x * (Z * Z);
    ResOfSmall(X);
    ProductIsNonzero(Z, Z);
    ScaledCoordinatesAgree(x, ToAffine(X, Y, Z).x, Z * Z);
  }

  // ------------------------------------------------------------- tables

  /** The Z coordinates of a table: each is the one before times its ratio. */
  ghost predicate ZChain(zs: seq<int>, zr: seq<Fe>) {
    |zs| == |zr| && (forall i :: 0 <= i < |zs| ==> IsResidue(zs[i]))
    && forall i {:trigger zs[i]} :: 0 < i < |zs| ==> zs[i] == MulP(zs[i - 1], Value(zr[i]))
  }

  ghost predicate Ratios(zr: seq<Fe>) {
    forall i :: 0 < i < |zr| ==> zr[i].Valid() && zr[i].magnitude <= 8
  }

  ghost predicate Coordinates(a: seq<Jac>) {
    forall i :: 0 <= i < |a| ==> a[i].Writable()
  }

  /** With the common denominator Z, r[i] is the point that a[i] is with its own denominator. */
  ghost predicate AtCommonZ(r: Ge, a: Jac, z: int, Z: int) {
    r.Valid() && Res(z) != 0 && ToAffine(Value(r.x), Value(r.y), Z) == ToAffine(Value(a.x), Value(a.y), z)
  }

  lemma ChainStep(before: int, ratio: int, z: int, u: int, last: int)
    requires z == MulP(before, ratio) && MulP(z, u) == last
    ensures MulP(before, MulP(u, ratio)) == last
  {
    Products();
    hide Res;
    ResIdempotent(before * ratio); ResIdempotent(u * ratio);
    Replace(z, before * ratio, u);
    Replace(MulP(u, ratio), u * ratio, before);
    assert before * (u * ratio) == before * ratio * u;
  }

  lemma BroughtToCommonZ(r: Ge, a: Jac, z: int, u: int, Z: int)
    requires a.Writable() && r.Valid() && MulP(z, u) == Z && Z != 0
    requires Affine(Value(r.x), Value(r.y)) == Scale(u, Affine(Value(a.x), Value(a.y)))
    ensures AtCommonZ(r, a, z, Z)
  {
    hide Res, Inv, MulP, Value, Fe.Valid, Scale, ToAffine;
    FactorsAreNonzero(z, u);
    ValueIsResidue(a.x); ValueIsResidue(a.y);
    VIsResidue(z, u);
    ProductIsResidue(z, u, Z);
    RescaledTriple(Value(a.x), Value(a.y), z, u, Z);
  }

  lemma ItsOwnZ(r: Ge, a: Jac, z: int)
    requires a.Writable() && r.x == a.x && r.y == a.y && z == Value(a.z) != 0
    ensures AtCommonZ(r, a, z, z)
  {
    hide Inv, Value, Fe.Valid;
    ValueIsResidue(a.z);
  }

  /** The entries from index i on have been brought to the common Z, with their flags up to index n. */
  ghost predicate ConvertedFrom(r: seq<Ge>, a: seq<Jac>, zs: seq<int>, Z: int, i: nat, n: nat) {
    |r| == |a| == |zs| && n <= |a|
    && (forall k :: i <= k < |a| ==> AtCommonZ(r[k], a[k], zs[k], Z))
    && forall k :: i <= k < n ==> r[k].infinity == a[k].infinity
  }

  lemma ConvertOne(r: seq<Ge>, a: seq<Jac>, zs: seq<int>, Z: int, i: nat, n: nat, x: Ge, u: int)
    requires i < |r| && ConvertedFrom(r, a, zs, Z, i + 1, n) && Coordinates(a) && x.Valid() && MulP(zs[i], u) == Z && Z != 0
    requires Affine(Value(x.x), Value(x.y)) == Scale(u, Affine(Value(a[i].x), Value(a[i].y))) && x.infinity == a[i].infinity
    ensures ConvertedFrom(r[i := x], a, zs, Z, i, n)
  {
    hide Res, Inv, MulP, Value, Fe.Valid, Scale, ToAffine, AtCommonZ;
    BroughtToCommonZ(x, a[i], zs[i], u, Z);
  }

  lemma ConvertLast(r: seq<Ge>, a: seq<Jac>, zs: seq<int>, x: Ge)
    requires |r| == |a| == |zs| > 0 && Coordinates(a) && zs[|a| - 1] == Value(a[|a| - 1].z) != 0
    requires x.x == a[|a| - 1].x && x.y == a[|a| - 1].y
    ensures ConvertedFrom(r[|a| - 1 := x], a, zs, zs[|a| - 1], |a| - 1, |a| - 1)
  {
    hide Res, Inv, Value, Fe.Valid, ToAffine, AtCommonZ;
    ItsOwnZ(x, a[|a| - 1], zs[|a| - 1]);
  }

  lemma NothingConverted(r: seq<Ge>, a: seq<Jac>, zs: seq<int>, Z: int)
    requires |r| == |a| == |zs|
    ensures ConvertedFrom(r, a, zs, Z, |a|, |a|)
  {
  }

  lemma PreviousRatio(zs: seq<int>, zr: seq<Fe>, i: nat, u: int, Z: int)
    requires 0 < i < |zs| && ZChain(zs, zr) && Ratios(zr) && MulP(zs[i], u) == Z
    ensures zr[i].Valid() && zr[i].magnitude <= 8 && MulP(zs[i - 1], MulP(u, Value(zr[i]))) == Z
  {
    hide MulP, Value, Fe.Valid;
    ChainStep(zs[i - 1], Value(zr[i]), zs[i], u, Z);
  }

  lemma LastRatio(zs: seq<int>, zr: seq<Fe>)
    requires |zs| > 1 && ZChain(zs, zr) && Ratios(zr)
    ensures var i := |zs| - 1; zr[i].Valid() && zr[i].magnitude <= 8 && MulP(zs[i - 1], Value(zr[i])) == zs[i]
  {
    hide MulP, Value, Fe.Valid;
  }

  /** secp256k1_ge_globalz_set_table_gej: every point gets the Z of the last one, without an inversion. */
  method GeGlobalzSetTableGej(r: array<Ge>, globalz: Fe, a: seq<Jac>, zr: seq<Fe>, ghost zs: seq<int>) returns (globalz': Fe)
    requires r.Length == |a| == |zr| && Coordinates(a) && Ratios(zr) && ZChain(zs, zr)
    requires |a| > 0 ==> zs[|a| - 1] == Value(a[|a| - 1].z) != 0
    modifies r
    ensures |a| == 0 ==> globalz' == globalz
    ensures |a| > 0 ==> globalz' == a[|a| - 1].z && !r[|a| - 1].infinity
    ensures |a| > 0 ==> ConvertedFrom(r[..], a, zs, Value(globalz'), 0, |a| - 1)
  {
    hide Res, Inv, MulP, Value, Fe.Valid, Scale, ToAffine, AtCommonZ, ConvertedFrom, ZChain, Ratios;
    globalz' := globalz;
    var len := |a|;
    assert |zs| == len by { ChainLength(zs, zr); }
    if len > 0 {
      var i := len - 1;
      ghost var Z := zs[i];
      ghost var before := r[..];
      r[i] := Ge(a[i].x, a[i].y, false);
      assert r[..] == before[i := r[i]];
      ConvertLast(before, a, zs, r[i]);
      globalz' := a[i].z;
      var s := zr[i];
      if len > 1 { LastRatio(zs, zr); }
      while i > 0
        invariant 0 <= i < len && globalz' == a[len - 1].z
        invariant len > 1 ==> s.Valid() && s.magnitude <= 8
        invariant if i == len - 1 then s == zr[i] else MulP(zs[i], Value(s)) == Z
        invariant ConvertedFrom(r[..], a, zs, Z, i, len - 1)
        invariant !r[len - 1].infinity
      {
        if i != len - 1 {
          PreviousRatio(zs, zr, i, Value(s), Z);
          s := FeMul(s, zr[i]);
        }
        i := i - 1;
        var x := GeSetGejZinv(a[i], s);
        before := r[..];
        r[i] := x;
        assert r[..] == before[i := x];
        ConvertOne(before, a, zs, Z, i, len - 1, x, Value(s));
      }
    }
  }

  lemma ChainLength(zs: seq<int>, zr: seq<Fe>)
    requires ZChain(zs, zr)
    ensures |zs| == |zr|
  {
  }

  /** secp256k1_ge_set_table_gej_var: affine coordinates for the whole table with one inversion. */
  method GeSetTableGejVar(r: array<Ge>, a: seq<Jac>, zr: seq<Fe>, ghost zs: seq<int>)
    requires r.Length == |a| == |zr| && Coordinates(a) && Ratios(zr) && ZChain(zs, zr)
    requires |a| > 0 ==> zs[|a| - 1] == Value(a[|a| - 1].z) != 0
    modifies r
    ensures ConvertedFrom(r[..], a, zs, 1, 0, |a|)
  {
    hide Res, Inv, MulP, Value, Fe.Valid, Scale, ToAffine, AtCommonZ, ConvertedFrom, ZChain, Ratios;
    var len := |a|;
    assert |zs| == len by { ChainLength(zs, zr); }
    NothingConverted(r[..], a, zs, 1);
    if len > 0 {
      var i := len - 1;
      var zi := FeInv(a[i].z);
      var x := GeSetGejZinv(a[i], zi);
      ghost var before := r[..];
      r[i] := x;
      assert r[..] == before[i := x];
      ConvertOne(before, a, zs, 1, i, len, x, Value(zi));
      while i > 0
        invariant 0 <= i < len && zi.Valid() && zi.magnitude == 1 && MulP(zs[i], Value(zi)) == 1
        invariant ConvertedFrom(r[..], a, zs, 1, i, len)
      {
        PreviousRatio(zs, zr, i, Value(zi), 1);
        zi := FeMul(zi, zr[i]);
        i := i - 1;
        x := GeSetGejZinv(a[i], zi);
        before := r[..];
        r[i] := x;
        assert r[..] == before[i := x];
        ConvertOne(before, a, zs, 1, i, len, x, Value(zi));
      }
    }
  }

  // ------------------------------------------------------------- odd multiples

  /** p, p + 2p, (p + 2p) + 2p, ... */
  function OddMultiple(p: Point, i: nat): Point {
    if i == 0 then p else AddPoints(OddMultiple(p, i - 1), AddPoints(p, p))
  }

  lemma {:induction false} OddMultipleOnCurve(p: Point, i: nat)
    requires OnCurve(p, 7)
    ensures OnCurve(OddMultiple(p, i), 7)
  {
    hide OnCurve, AddPoints;
    if i > 0 {
      OddMultipleOnCurve(p, i - 1);
      SumIsOnCurve(p, p, 7);
      SumIsOnCurve(OddMultiple(p, i - 1), AddPoints(p, p), 7);
    }
  }

  /** g is a finite point whose coordinates are those of p on the curve scaled by u. */
  ghost predicate Holds(g: Jac, u: int, p: Point) {
    g.Writable() && !g.infinity && Value(g.z) != 0 && ToAffine(Value(g.x), Value(g.y), Value(g.z)) == Scale(u, p)
  }

  lemma HoldsIsUsable(g: Gej, u: int, p: Point)
    requires Holds(Copy(g), u, p) && p.Affine? && OnCurve(p, 7) && Res(u) != 0
    ensures g.Valid() && !g.infinity && Value(g.y) != 0 && g.ToPoint() == Scale(u, p)
  {
    hide Inv, Value, Fe.Valid, ToAffine, Scale;
    OrdinateIsNonzero(p);
    ValueIsResidue(g.y);
    ScaledOrdinateIsNonzero(u, p, Value(g.x), Value(g.y), Value(g.z));
  }

  lemma GejHolds(g: Gej, u: int, p: Point)
    requires g.Valid() && g.ToPoint() == Scale(u, p) && p.Affine?
    ensures Holds(Copy(g), u, p)
  {
    hide Inv, Value, Fe.Valid, ToAffine;
  }

  lemma NextOddMultiple(u: int, p: Point, i: nat, d: Point)
    requires OnCurve(p, 7) && Res(u) != 0 && i > 0 && d == Scale(u, AddPoints(p, p))
    ensures AddPoints(Scale(u, OddMultiple(p, i - 1)), d) == Scale(u, OddMultiple(p, i))
  {
    hide AddPoints, Inv, Scale;
    OddMultipleOnCurve(p, i - 1);
    SumIsOnCurve(p, p, 7);
    ScaleOfSum(u, OddMultiple(p, i - 1), AddPoints(p, p));
  }

  lemma ScaledIsFinite(u: int, p: Point)
    ensures Scale(u, p).Affine? <==> p.Affine?
  {
  }

  /** Unscaling: with Z multiplied by u, the point itself. */
  lemma Unscaled(X: int, Y: int, Z: int, u: int, p: Point, z: int)
    requires IsResidue(X) && IsResidue(Y) && Res(Z) != 0 && Res(u) != 0 && z == MulP(Z, u)
    requires p.Affine? && InRange(p) && ToAffine(X, Y, Z) == Scale(u, p)
    ensures z != 0 && ToAffine(X, Y, z) == p
  {
    Products();
    hide Res, Inv, MulP, ToAffine;
    ProductIsResidue(Z, u, z);
    ResOfSmall(0);
    RescaleZ(X, Y, Z, u, z);
    AffineRepresents(X, Y, z);
    var q := ToAffine(X, Y, z);
    ProductIsNonzero(u, u); ProductIsNonzero(u * u, u);
    ScaledCoordinatesAgree(p.x, q.x, u * u);
    ScaledCoordinatesAgree(p.y, q.y, u * u * u);
  }

  /** Entry i of the table: the point with denominator z is the odd multiple. */
  ghost predicate OddEntry(g: Jac, p: Point, i: nat, z: int) {
    g.Writable() && !g.infinity && Res(z) != 0 && ToAffine(Value(g.x), Value(g.y), z) == OddMultiple(p, i)
  }

  /** A table of n odd multiples, none of which is infinite. */
  ghost predicate AllFinite(p: Point, n: nat) {
    forall i :: 0 <= i < n ==> OddMultiple(p, i) != Infinity
  }

  ghost predicate OddTable(prej: seq<Jac>, p: Point, zs: seq<int>) {
    |zs| == |prej| && forall i :: 0 <= i < |prej| ==> OddEntry(prej[i], p, i, zs[i])
  }

  lemma EntryUnscaled(g: Jac, u: int, p: Point, i: nat, z: int)
    requires Holds(g, u, OddMultiple(p, i)) && OddMultiple(p, i).Affine? && OnCurve(OddMultiple(p, i), 7) && Res(u) != 0
    requires z == MulP(Value(g.z), u)
    ensures OddEntry(g, p, i, z) && IsResidue(z)
  {
    hide Inv, MulP, Value, Fe.Valid, ToAffine, Scale, AddPoints, OddMultiple;
    ValueIsResidue(g.x); ValueIsResidue(g.y); ValueIsResidue(g.z);
    Unscaled(Value(g.x), Value(g.y), Value(g.z), u, OddMultiple(p, i), z);
    VIsResidue(Value(g.z), u);
    ResIdempotent(Value(g.z) * u);
    ProductIsResidue(Value(g.z), u, z);
  }

  /** The double on the curve where it is affine: its coordinates, and the Z that leads back. */
  method AffineDoubleOf(a: Gej) returns (d_ge: Ge, dz: Fe)
    requires a.Valid() && !a.infinity && OnCurve(a.ToPoint(), 7)
    ensures d_ge.Valid() && !d_ge.infinity && dz.Valid() && dz.magnitude <= 8 && Res(Value(dz)) != 0
    ensures d_ge.ToPoint() == Scale(Value(dz), AddPoints(a.ToPoint(), a.ToPoint()))
  {
    hide Res, Inv, MulP, Value, Fe.Valid, ToAffine, Scale, AddPoints, OnCurve;
    ghost var p := a.ToPoint();
    ValueIsResidue(a.x); ValueIsResidue(a.y); ValueIsResidue(a.z);
    OrdinateOfJacobian(Value(a.x), Value(a.y), Value(a.z));
    DoubleIsFinite(p);
    var d := new Gej();
    var rzr := GejDoubleVar(d, a);
    d_ge := Ge(d.x, d.y, false);
    dz := d.z;
    ValueIsResidue(d.x); ValueIsResidue(d.y); ValueIsResidue(d.z);
    AffineDouble(Value(d.x), Value(d.y), Value(dz), AddPoints(p, p));
  }

  /** The entries are those of p, 3p, 5p, ... on the curve scaled by u, and Z grows by the ratios. */
  ghost predicate ScaledEntries(prej: seq<Jac>, zr: seq<Fe>, u: int, p: Point) {
    |prej| == |zr| && Ratios(zr)
    && (forall k :: 0 <= k < |prej| ==> Holds(prej[k], u, OddMultiple(p, k)))
    && forall k {:trigger prej[k]} :: 0 < k < |prej| ==> Value(prej[k].z) == MulP(Value(prej[k - 1].z), Value(zr[k]))
  }

  lemma ScaledEntriesGrow(prej: seq<Jac>, zr: seq<Fe>, u: int, p: Point, g: Jac, ratio: Fe)
    requires |prej| > 0 && ScaledEntries(prej, zr, u, p) && Holds(g, u, OddMultiple(p, |prej|))
    requires ratio.Valid() && ratio.magnitude <= 8 && Value(g.z) == MulP(Value(prej[|prej| - 1].z), Value(ratio))
    ensures ScaledEntries(prej + [g], zr + [ratio], u, p)
  {
    hide Fe.Valid, Value, MulP, Holds, OddMultiple;
  }

  lemma FirstScaledEntry(g: Jac, dz: Fe, u: int, p: Point)
    requires Holds(g, u, p)
    ensures ScaledEntries([g], [dz], u, p)
  {
    FirstOddMultiple(p);
  }

  /** The sums are formed on the isomorphic curve where the double is affine. */
  method OddMultiplesScaled(n: nat, a: Gej) returns (prej: seq<Jac>, zr: seq<Fe>, dz: Fe)
    requires n >= 1 && a.Valid() && !a.infinity && OnCurve(a.ToPoint(), 7)
    requires AllFinite(a.ToPoint(), n)
    ensures |prej| == n && dz.Valid() && dz.magnitude <= 8 && Res(Value(dz)) != 0
    ensures ScaledEntries(prej, zr, Value(dz), a.ToPoint()) && zr[0] == dz && prej[0].z == a.z
  {
    hide Res, Inv, MulP, Value, Fe.Valid, ToAffine, Scale, AddPoints, OnCurve, OddMultiple, Holds, ScaledEntries;
    ghost var p := a.ToPoint();
    var d_ge: Ge;
    d_ge, dz := AffineDoubleOf(a);
    ghost var u := Value(dz);
    var a_ge := GeSetGejZinv(Copy(a), dz);
    prej, zr := [Jac(a_ge.x, a_ge.y, a.z, false)], [dz];
    ValueIsResidue(a.x); ValueIsResidue(a.y); ValueIsResidue(a.z);
    FirstEntry(Value(a.x), Value(a.y), Value(a.z), u, Value(a_ge.x), Value(a_ge.y));
    FirstHolds(prej[0], u, p);
    FirstScaledEntry(prej[0], dz, u, p);
    var next := new Gej();
    next.x, next.y, next.z, next.infinity := a_ge.x, a_ge.y, a.z, false;
    FirstOddMultiple(p);
    for i := 1 to n
      invariant |prej| == |zr| == i && ScaledEntries(prej, zr, u, p) && zr[0] == dz && prej[0].z == a.z
      invariant Copy(next) == prej[i - 1] && Holds(Copy(next), u, OddMultiple(p, i - 1))
    {
      OddMultipleOnCurve(p, i - 1);
      HoldsIsUsable(next, u, OddMultiple(p, i - 1));
      NextOddMultiple(u, p, i, d_ge.ToPoint());
      ScaledIsFinite(u, OddMultiple(p, i));
      var ratio := GejAddGeVar(next, next, d_ge);
      GejHolds(next, u, OddMultiple(p, i));
      ScaledEntriesGrow(prej, zr, u, p, Copy(next), ratio);
      prej, zr := prej + [Copy(next)], zr + [ratio];
    }
  }

  lemma FirstHolds(g: Jac, u: int, p: Point)
    requires g.Writable() && !g.infinity && Value(g.z) != 0 && ToAffine(Value(g.x), Value(g.y), Value(g.z)) == Scale(u, p)
    ensures Holds(g, u, p)
  {
  }

  lemma FirstOddMultiple(p: Point)
    ensures OddMultiple(p, 0) == p
  {
  }

  /** Dropping the Z of a point scales it by that Z. */
  lemma AffineDouble(X: int, Y: int, u: int, p: Point)
    requires IsResidue(X) && IsResidue(Y) && Res(u) != 0 && ToAffine(X, Y, u) == p
    ensures Affine(X, Y) == Scale(u, p)
  {
    hide Inv, ToAffine;
    AffineRepresents(X, Y, u);
  }

  lemma FirstEntry(X: int, Y: int, Z: int, u: int, x: int, y: int)
    requires IsResidue(X) && IsResidue(Y) && Res(Z) != 0 && Res(u) != 0 && Affine(x, y) == Scale(u, Affine(X, Y))
    ensures ToAffine(x, y, Z) == Scale(u, ToAffine(X, Y, Z))
  {
    hide Res, Inv, ToAffine, Mul, Represents, Scale;
    var p := ToAffine(X, Y, Z);
    var q := Scale(u, p);
    ScaleForm(u, p);
    ScaleForm(u, Affine(X, Y));
    AffineRepresents(X, Y, Z);
    RepresentsForm(X, Y, Z, p);
    RepresentsForm(x, y, Z, q);
    ResIdempotent(X * (u * u)); ResIdempotent(Y * (u * u * u));
    ResIdempotent(p.x * (u * u)); ResIdempotent(p.y * (u * u * u));
    ResOfSmall(X); ResOfSmall(Y);
    Replace(X, p.x * (Z * Z), u * u);
    Replace(Y, p.y * (Z * Z * Z), u * u * u);
    Replace(q.x, p.x * (u * u), Z * Z);
    Replace(q.y, p.y * (u * u * u), Z * Z * Z);
    assert p.x * (Z * Z) * (u * u) == p.x * (u * u) * (Z * Z);
    assert p.y * (Z * Z * Z) * (u * u * u) == p.y * (u * u * u) * (Z * Z * Z);
    RepresentationIsUnique(x, y, Z, q);
  }

  /** The denominators of the entries once the curve is scaled back. */
  ghost function Denominators(prej: seq<Jac>, u: int): (zs: seq<int>)
    ensures |zs| == |prej|
  {
    if prej == [] then [] else Denominators(prej[..|prej| - 1], u) + [MulP(Value(prej[|prej| - 1].z), u)]
  }

  lemma {:induction false} DenominatorAt(prej: seq<Jac>, u: int, i: nat)
    requires i < |prej|
    ensures Denominators(prej, u)[i] == MulP(Value(prej[i].z), u)
  {
    hide Value, MulP;
    if i < |prej| - 1 { DenominatorAt(prej[..|prej| - 1], u, i); }
  }

  lemma ScaledBackTable(prej: seq<Jac>, zr: seq<Fe>, u: int, p: Point)
    requires ScaledEntries(prej, zr, u, p) && OnCurve(p, 7) && Res(u) != 0
    requires AllFinite(p, |prej|)
    ensures ZChain(Denominators(prej, u), zr)
    ensures OddTable(prej, p, Denominators(prej, u))
  {
    hide Value, MulP, Res, OddMultiple, AddPoints, Holds, Denominators, OddEntry, OnCurve, Fe.Valid;
    var zs := Denominators(prej, u);
    forall i | 0 <= i < |prej|
      ensures OddEntry(prej[i], p, i, zs[i]) && IsResidue(zs[i])
    {
      DenominatorAt(prej, u, i);
      OddMultipleOnCurve(p, i);
      EntryUnscaled(prej[i], u, p, i, zs[i]);
    }
    forall i | 0 < i < |prej|
      ensures zs[i] == MulP(zs[i - 1], Value(zr[i]))
    {
      DenominatorAt(prej, u, i);
      DenominatorAt(prej, u, i - 1);
      ChainScaled(Value(prej[i - 1].z), Value(zr[i]), Value(prej[i].z), u);
    }
  }

  /** secp256k1_ecmult_odd_multiples_table: the entries are p, 3p, 5p, ... once the ghost denominators are used, and
      the last entry carries its own. */
  method OddMultiplesTable(n: nat, a: Gej) returns (prej: seq<Jac>, zr: seq<Fe>, ghost zs: seq<int>)
    requires n >= 1 && a.Valid() && !a.infinity && OnCurve(a.ToPoint(), 7)
    requires AllFinite(a.ToPoint(), n)
    ensures |prej| == |zr| == n && ZChain(zs, zr) && Ratios(zr) && zs[n - 1] == Value(prej[n - 1].z) != 0
    ensures zs[0] == MulP(Value(a.z), Value(zr[0]))
    ensures OddTable(prej, a.ToPoint(), zs)
  {
    hide Res, Inv, MulP, Value, Fe.Valid, ToAffine, Scale, AddPoints, OnCurve, OddMultiple, Holds, Denominators, ZChain, OddEntry;
    ghost var p := a.ToPoint();
    var dz: Fe;
    prej, zr, dz := OddMultiplesScaled(n, a);
    ghost var u := Value(dz);
    zs := Denominators(prej, u);
    ScaledBackTable(prej, zr, u, p);
    DenominatorAt(prej, u, 0);
    DenominatorAt(prej, u, n - 1);
    LastIsHeld(prej[n - 1], u, OddMultiple(p, n - 1));
    var last := FeMul(prej[n - 1].z, dz);
    LastEntry(prej[n - 1], p, n - 1, zs[n - 1], last);
    prej := prej[n - 1 := prej[n - 1].(z := last)];
  }

  lemma LastEntry(g: Jac, p: Point, i: nat, z: int, last: Fe)
    requires OddEntry(g, p, i, z) && last.Valid() && last.magnitude <= 8 && Value(last) == z
    ensures OddEntry(g.(z := last), p, i, z) && Value(last) != 0
  {
    hide OddMultiple, ToAffine, Value, Fe.Valid;
    ResOfSmall(0);
  }

  lemma LastIsHeld(g: Jac, u: int, p: Point)
    requires Holds(g, u, p)
    ensures g.Writable()
  {
  }

  lemma ChainScaled(before: int, ratio: int, z: int, u: int)
    requires z == MulP(before, ratio)
    ensures MulP(z, u) == MulP(MulP(before, u), ratio)
  {
    Products();
    hide Res;
    ResIdempotent(before * ratio); ResIdempotent(before * u);
    Replace(z, before * ratio, u);
    Replace(MulP(before, u), before * u, ratio);
    assert before * u * ratio == before * ratio * u;
  }

  /** secp256k1_ecmult_odd_multiples_table_globalz_windowa, for any table size: affine coordinates on the curve scaled
      by the common Z. */
  method OddMultiplesGlobalz(pre: array<Ge>, globalz: Fe, a: Gej) returns (globalz': Fe)
    requires pre.Length >= 1 && a.Valid() && !a.infinity && OnCurve(a.ToPoint(), 7)
    requires AllFinite(a.ToPoint(), pre.Length)
    modifies pre
    ensures globalz'.Valid() && globalz'.magnitude <= 8 && Value(globalz') != 0
    ensures forall i :: 0 <= i < pre.Length ==>
      pre[i].Valid() && !pre[i].infinity && ToAffine(Value(pre[i].x), Value(pre[i].y), Value(globalz')) == OddMultiple(a.ToPoint(), i)
      && Affine(Value(pre[i].x), Value(pre[i].y)) == Scale(Value(globalz'), OddMultiple(a.ToPoint(), i))
  {
    hide Res, Inv, MulP, Value, Fe.Valid, ToAffine, Scale, AddPoints, OnCurve, OddMultiple;
    ghost var p := a.ToPoint();
    var prej, zr, zs := OddMultiplesTable(pre.Length, a);
    EntriesHaveCoordinates(prej, p, zs);
    globalz' := GeGlobalzSetTableGej(pre, globalz, prej, zr, zs);
    ValueIsResidue(globalz');
    forall i | 0 <= i < pre.Length
      ensures ToAffine(Value(pre[i].x), Value(pre[i].y), Value(globalz')) == OddMultiple(p, i)
      ensures pre[i].Valid() && Affine(Value(pre[i].x), Value(pre[i].y)) == Scale(Value(globalz'), OddMultiple(p, i))
    {
      TableEntry(pre[i], prej[i], p, i, zs[i], Value(globalz'));
    }
  }

  lemma EntriesHaveCoordinates(prej: seq<Jac>, p: Point, zs: seq<int>)
    requires OddTable(prej, p, zs)
    ensures Coordinates(prej) && forall i :: 0 <= i < |prej| ==> !prej[i].infinity
  {
    hide Fe.Valid, ToAffine, OddMultiple;
  }

  lemma TableEntry(r: Ge, g: Jac, p: Point, i: nat, z: int, Z: int)
    requires AtCommonZ(r, g, z, Z) && OddEntry(g, p, i, z) && Res(Z) != 0
    ensures ToAffine(Value(r.x), Value(r.y), Z) == OddMultiple(p, i)
    ensures r.Valid() && Affine(Value(r.x), Value(r.y)) == Scale(Z, OddMultiple(p, i))
  {
    hide Inv, Value, Fe.Valid, ToAffine, Scale, OddMultiple;
    ValueIsResidue(r.x); ValueIsResidue(r.y);
    AffineDouble(Value(r.x), Value(r.y), Z, OddMultiple(p, i));
  }

  // ------------------------------------------------------------- the endomorphism

  /** A cube root of unity modulo P. */
  const BETA: int := 0x7ae96a2b_657c0710_6e64479e_ac3434e9_9cf04975_12f58995_c1396c28_719501ee

  const BETA_SQUARED: int := 0x851695d49a83f8ef919bb86153cbcb16630fb68aed0a766a3ec693d68e6afa40

  /** (x, y) -> (BETA x, y). */
  function Endomorphism(p: Point): Point {
    if p.Infinity? then p else Affine(Res(BETA * p.x), p.y)
  }

  lemma BetaPowers()
    ensures Res(BETA_SQUARED * BETA_SQUARED) == BETA && Res(BETA * BETA_SQUARED) == 1 && Res(BETA_SQUARED) != 0
  {
    hide Res;
    ResIsMod(BETA_SQUARED * BETA_SQUARED); ResIsMod(BETA * BETA_SQUARED); ResIsMod(BETA_SQUARED);
  }

  /** It is the isomorphism of scaling by BETA^2, which maps the curve to itself. */
  lemma EndomorphismIsScaling(p: Point)
    requires InRange(p)
    ensures Endomorphism(p) == Scale(BETA_SQUARED, p) && InRange(Endomorphism(p))
  {
    Products();
    hide Res;
    BetaPowers();
    if p.Affine? {
      var u := BETA_SQUARED;
      ResOfSmall(BETA); ResOfSmall(1); ResOfSmall(p.y);
      Replace(u * u, BETA, p.x);
      assert p.x * BETA == BETA * p.x;
      Replace(u * u, BETA, u);
      Replace(u * u * u, 1, p.y);
      ResIdempotent(BETA * p.x);
    }
  }

  /** So it commutes with the group law. */
  lemma EndomorphismOfSum(p: Point, q: Point)
    requires OnCurve(p, 7) && OnCurve(q, 7)
    ensures Endomorphism(AddPoints(p, q)) == AddPoints(Endomorphism(p), Endomorphism(q))
  {
    hide Res, AddPoints, Endomorphism, Scale, OnCurve;
    BetaPowers();
    CurvePointInRange(p, 7); CurvePointInRange(q, 7);
    SumIsOnCurve(p, q, 7);
    CurvePointInRange(AddPoints(p, q), 7);
    EndomorphismIsScaling(p); EndomorphismIsScaling(q); EndomorphismIsScaling(AddPoints(p, q));
    ScaleOfSum(BETA_SQUARED, p, q);
  }

  lemma CurvePointInRange(p: Point, b: int)
    requires OnCurve(p, b)
    ensures InRange(p)
  {
  }

  /** And it stays on the curve, with order three. */
  lemma EndomorphismOnCurve(p: Point)
    requires OnCurve(p, 7)
    ensures OnCurve(Endomorphism(p), 7)
    ensures Endomorphism(Endomorphism(Endomorphism(p))) == p
  {
    if p.Affine? {
      hide Res;
      BetaPowers();
      var x := Res(BETA * p.x);
      ResIdempotent(BETA * p.x);
      CubeOfBeta(p.x, x);
      ThriceBeta(p.x);
      ResIdempotent(BETA * x);
      ResIdempotent(BETA * Res(BETA * x));
    }
  }

  lemma CubeOfBeta(a: int, x: int)
    requires x == Res(BETA * a)
    ensures MulP(MulP(x, x), x) == MulP(MulP(a, a), a)
  {
    Products();
    hide Res;
    ResIdempotent(BETA * a);
    ResIdempotent(x * x); ResIdempotent(a * a);
    Replace(MulP(x, x), x * x, x); Replace(MulP(a, a), a * a, a);
    Both(x, BETA * a, x, BETA * a);
    Both(x * x, (BETA * a) * (BETA * a), x, BETA * a);
    BetaCubed();
    Replace(BETA * BETA * BETA, 1, a * a * a);
    assert (BETA * a) * (BETA * a) * (BETA * a) == BETA * BETA * BETA * (a * a * a) by { CubeRegroup(BETA, a); }
  }

  lemma CubeRegroup(b: int, a: int)
    ensures (b * a) * (b * a) * (b * a) == b * b * b * (a * a * a)
  {
    assert (b * a) * (b * a) == (b * b) * (a * a);
  }

  lemma BetaCubed()
    ensures Res(BETA * BETA * BETA) == 1 && Res(1) == 1
  {
    hide Res;
    ResIsMod(BETA * BETA * BETA); ResIsMod(1);
  }

  lemma ThriceBeta(a: int)
    requires IsResidue(a)
    ensures Res(BETA * Res(BETA * Res(BETA * a))) == a
  {
    hide Res;
    BetaCubed();
    ResIdempotent(BETA * a);
    Replace(Res(BETA * a), BETA * a, BETA);
    ResIdempotent(BETA * Res(BETA * a));
    assert BETA * a * BETA == BETA * (BETA * a) by { Regroup(BETA, a); }
    Replace(Res(BETA * Res(BETA * a)), BETA * a * BETA, BETA);
    assert BETA * (BETA * a * BETA) == BETA * BETA * BETA * a by { Regroup(BETA, a); }
    Replace(BETA * BETA * BETA, 1, a);
    ResOfSmall(a);
  }

  lemma Regroup(b: int, a: int)
    ensures b * a * b == b * (b * a) && b * (b * a * b) == b * b * b * a
  {
    assert b * a * b == b * b * a;
  }

  /** secp256k1_ge_mul_lambda. */
  method GeMulLambda(a: Ge) returns (r: Ge)
    requires a.Valid()
    ensures r.Valid() && r.ToPoint() == Endomorphism(a.ToPoint()) && r.infinity == a.infinity && r.y == a.y
  {
    Products();
    hide Res, Value, Fe.Valid;
    var beta := FeBeta();
    var x := FeMul(a.x, beta);
    r := Ge(x, a.y, a.infinity);
    assert Value(a.x) * BETA == BETA * Value(a.x);
  }

  /** The constant BETA as limbs. */
  function FeBeta(): (r: Fe)
    ensures r.Valid() && r.magnitude == 1 && Value(r) == BETA
  {
    ResOfSmall(BETA);
    Fe([0x96c28719501ee, 0x7512f58995c13, 0xc3434e99cf049, 0x7106e64479ea, 0x7ae96a2b657c], 1, true)
  }
}
