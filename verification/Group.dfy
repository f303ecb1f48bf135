/** Group elements in affine and Jacobian coordinates (group_impl.h). Jacobian points are objects updated in place;
    the output of a routine may be one of its inputs. */
module Group {
  import opened NumberTheory
  import opened Params
  import opened FieldElement
  import opened Curve
  import opened Jacobian

  /** secp256k1_ge. */
  datatype Ge = Ge(x: Fe, y: Fe, infinity: bool) {
    ghost predicate Valid() {
      x.Valid() && y.Valid() && x.magnitude <= 8 && y.magnitude <= 8
    }

    ghost function ToPoint(): Point
      requires Valid()
    {
      if infinity then Infinity else Affine(Value(x), Value(y))
    }
  }

  /** secp256k1_gej. */
  class Gej {
    var x: Fe
    var y: Fe
    var z: Fe
    var infinity: bool

    /** The coordinates are field elements within the bounds; all that is asked of an output before it is written. */
    ghost predicate Writable()
      reads this
    {
      x.Valid() && y.Valid() && z.Valid() && x.magnitude <= 8 && y.magnitude <= 8 && z.magnitude <= 8
    }

    ghost predicate Valid()
      reads this
    {
      Writable() && (!infinity ==> Value(z) != 0)
    }

    ghost function ToPoint(): Point
      requires Valid()
      reads this
    {
      if infinity then Infinity else ToAffine(Value(x), Value(y), Value(z))
    }

    /** secp256k1_gej_set_infinity. */
    constructor ()
      ensures Valid() && ToPoint() == Infinity
    {
      x, y, z, infinity := FeClear(), FeClear(), FeClear(), true;
    }
  }

  // ------------------------------------------------------------- reading an expression off its evaluation

  lemma VMul(v: int, a: int, b: int, ea: int, eb: int)
    requires v == MulP(a, b) && Res(a) == Res(ea) && Res(b) == Res(eb)
    ensures Res(v) == Res(ea * eb)
  {
    Products();
    Both(a, ea, b, eb);
    ResIdempotent(a * b);
  }

  lemma VAdd(v: int, a: int, b: int, ea: int, eb: int)
    requires v == AddP(a, b) && Res(a) == Res(ea) && Res(b) == Res(eb)
    ensures Res(v) == Res(ea + eb)
  {
    Both(a, ea, b, eb);
    ResIdempotent(a + b);
  }

  lemma VIsResidue(a: int, b: int)
    ensures Res(MulP(a, b)) == MulP(a, b) && Res(AddP(a, b)) == AddP(a, b) && Res(SubP(a, b)) == SubP(a, b)
  {
    Products();
    ResIdempotent(a * b);
    ResIdempotent(a + b);
    ResIdempotent(a - b);
  }

  lemma VNeg(v: int, a: int, ea: int)
    requires v == SubP(0, a) && Res(a) == Res(ea)
    ensures Res(v) == Res(-ea)
  {
    Both(0, 0, a, ea);
    ResIdempotent(0 - a);
  }

  lemma AddInfinity(p: Point)
    ensures AddPoints(Infinity, p) == p && AddPoints(p, Infinity) == p
  {
  }

  // ------------------------------------------------------------- doubling

  /** Why the doubling formulas are right: a point with y != 0 has a tangent. */
  lemma DoubleIsTangent(X: int, Y: int, Z: int, t1: int, t3: int, X3: int, Y3: int, Z3: int)
    requires IsResidue(X) && IsResidue(Y) && Res(Z) != 0 && Res(Y) != 0
    requires Res(t1) == Res(3 * (X * X)) && Res(t3) == Res(2 * (X * (Y * Y)))
    requires X3 == Res(t1 * t1 - 4 * t3)
    requires Y3 == Res(t1 * (6 * t3 - t1 * t1) - 8 * ((Y * Y) * (Y * Y)))
    requires Res(Z3) == Res(2 * (Z * Y))
    ensures var p := ToAffine(X, Y, Z); Res(Z3) != 0 && ToAffine(X3, Y3, Z3) == AddPoints(p, p)
  {
    hide Res, Inv, Mul, Represents, ThirdPoint, ToAffine;
    var p := ToAffine(X, Y, Z);
    AffineRepresents(X, Y, Z);
    RepresentsForm(X, Y, Z, p);
    ResOfSmall(X); ResOfSmall(Y); ResOfSmall(0);
    assert p.y != 0 by {
      assert 0 * (Z * Z * Z) == 0;
    }
    assert AddPoints(p, p).Affine?;
    var l := SlopeExists(p, p);
    SlopeForm(l, p, p);
    TangentFormula(l, p, Z, X, Y, t1, t3, X3, Y3, Z3);
    ThirdPointForm(l, p, p);
    ResIdempotent(l * l - p.x - p.x);
    ResIdempotent(l * (p.x - ThirdPoint(l, p, p).x) - p.y);
    RepresentsForm(X3, Y3, Z3, ThirdPoint(l, p, p));
    RepresentationIsUnique(X3, Y3, Z3, ThirdPoint(l, p, p));
  }

  /** The values that the doubling computes, flattened to expressions in the coordinates. */
  lemma DoubleValues(X: int, Y: int, Z: int, x2: int, t1: int, t2: int, y2: int, t3': int, t3'': int, t4: int, t3: int,
                     x4: int, xn: int, X3: int, t2n: int, t6: int, ts: int, ym: int, t4n: int, Y3: int, z: int, Z3: int)
    requires IsResidue(X) && IsResidue(Y) && IsResidue(Z) && Z != 0 && Y != 0
    requires z == MulP(Z, Y) && Z3 == MulP(2, z)
    requires x2 == MulP(X, X) && t1 == MulP(3, x2) && t2 == MulP(t1, t1)
    requires y2 == MulP(Y, Y) && t3' == MulP(2, y2) && t3'' == MulP(t3', t3') && t4 == MulP(2, t3'') && t3 == MulP(t3', X)
    requires x4 == MulP(4, t3) && xn == SubP(0, x4) && X3 == AddP(xn, t2)
    requires t2n == SubP(0, t2) && t6 == MulP(6, t3) && ts == AddP(t6, t2n)
    requires ym == MulP(t1, ts) && t4n == SubP(0, t4) && Y3 == AddP(ym, t4n)
    ensures var p := ToAffine(X, Y, Z); Z3 != 0 && ToAffine(X3, Y3, Z3) == AddPoints(p, p)
    ensures Z3 == MulP(Z, MulP(2, Y))
  {
    hide Res, Inv, MulP, AddP, SubP;
    ResOfSmall(X); ResOfSmall(Y); ResOfSmall(Z); ResOfSmall(0);
    VMul(z, Z, Y, Z, Y); VMul(Z3, 2, z, 2, Z * Y);
    VMul(x2, X, X, X, X); VMul(t1, 3, x2, 3, X * X); VMul(t2, t1, t1, t1, t1);
    VMul(y2, Y, Y, Y, Y); VMul(t3', 2, y2, 2, Y * Y); VMul(t3, t3', X, 2 * (Y * Y), X);
    assert 2 * (Y * Y) * X == 2 * (X * (Y * Y));
    VMul(x4, 4, t3, 4, t3); VNeg(xn, x4, 4 * t3); VAdd(X3, xn, t2, -(4 * t3), t1 * t1);
    VNeg(t2n, t2, t1 * t1); VMul(t6, 6, t3, 6, t3); VAdd(ts, t6, t2n, 6 * t3, -(t1 * t1));
    VMul(ym, t1, ts, t1, 6 * t3 - t1 * t1);
    VMul(t3'', t3', t3', 2 * (Y * Y), 2 * (Y * Y)); VMul(t4, 2, t3'', 2, (2 * (Y * Y)) * (2 * (Y * Y)));
    assert 2 * ((2 * (Y * Y)) * (2 * (Y * Y))) == 8 * ((Y * Y) * (Y * Y));
    VNeg(t4n, t4, 8 * ((Y * Y) * (Y * Y))); VAdd(Y3, ym, t4n, t1 * (6 * t3 - t1 * t1), -(8 * ((Y * Y) * (Y * Y))));
    VIsResidue(xn, t2); VIsResidue(ym, t4n); VIsResidue(2, z);
    DoubleIsTangent(X, Y, Z, t1, t3, X3, Y3, Z3);
    VMul(MulP(2, Y), 2, Y, 2, Y); VMul(MulP(Z, MulP(2, Y)), Z, MulP(2, Y), Z, 2 * Y);
    assert Z * (2 * Y) == 2 * (Z * Y);
    VIsResidue(Z, MulP(2, Y));
  }

  /** secp256k1_gej_double_var. On secp256k1 no point has y = 0; at one, the result would not be the double. The
      second result is rzr, the ratio of the new Z to the old. */
  method GejDoubleVar(r: Gej, a: Gej) returns (rzr: Fe)
    requires a.Valid() && r.Writable() && (!a.infinity ==> Value(a.y) != 0)
    modifies r
    ensures r.Valid() && r.ToPoint() == AddPoints(old(a.ToPoint()), old(a.ToPoint()))
    ensures rzr.Valid() && rzr.magnitude <= 2 && r.infinity == old(a.infinity)
    ensures !r.infinity ==> Value(r.z) == MulP(old(Value(a.z)), Value(rzr))
  {
    hide Res, Inv, MulP, AddP, SubP, Value, Fe.Valid, ToAffine, AddPoints;
    ghost var X, Y, Z := Value(a.x), Value(a.y), Value(a.z);
    ValueIsResidue(a.x); ValueIsResidue(a.y); ValueIsResidue(a.z);
    r.infinity := a.infinity;
    if r.infinity {
      rzr := FeSetInt(1);
      AddInfinity(Infinity);
      return;
    }
    rzr := FeNormalizeWeak(a.y);
    rzr := FeMulInt(rzr, 2);

    r.z := FeMul(a.z, a.y); ghost var z := Value(r.z);
    r.z := FeMulInt(r.z, 2);
    var t1 := FeSqr(a.x); ghost var x2 := Value(t1);
    t1 := FeMulInt(t1, 3);
    var t2 := FeSqr(t1); ghost var v2 := Value(t2);
    var t3 := FeSqr(a.y); ghost var y2 := Value(t3);
    t3 := FeMulInt(t3, 2); ghost var v3 := Value(t3);
    var t4 := FeSqr(t3); ghost var v4 := Value(t4);
    t4 := FeMulInt(t4, 2);
    t3 := FeMul(t3, a.x); ghost var w3 := Value(t3);
    r.x := t3;
    r.x := FeMulInt(r.x, 4); ghost var x4 := Value(r.x);
    r.x := FeNegate(r.x, 4); ghost var xn := Value(r.x);
    r.x := FeAdd(r.x, t2);
    t2 := FeNegate(t2, 1);
    t3 := FeMulInt(t3, 6); ghost var v6 := Value(t3);
    t3 := FeAdd(t3, t2);
    r.y := FeMul(t1, t3); ghost var ym := Value(r.y);
    ghost var vt2 := Value(t2);
    t2 := FeNegate(t4, 2);
    r.y := FeAdd(r.y, t2);
    DoubleValues(X, Y, Z, x2, Value(t1), v2, y2, v3, v4, Value(t4), w3, x4, xn, Value(r.x), vt2, v6, Value(t3), ym,
                 Value(t2), Value(r.y), z, Value(r.z));
  }

  /** secp256k1_gej_double_nonzero: demands a finite point, and yields one. */
  method GejDoubleNonzero(r: Gej, a: Gej) returns (rzr: Fe)
    requires a.Valid() && !a.infinity && r.Writable() && Value(a.y) != 0
    modifies r
    ensures r.Valid() && !r.infinity && r.ToPoint() == AddPoints(old(a.ToPoint()), old(a.ToPoint()))
    ensures rzr.Valid() && rzr.magnitude <= 2 && Value(r.z) == MulP(old(Value(a.z)), Value(rzr))
  {
    hide Res, Inv, MulP, Value, Fe.Valid, ToAffine, AddPoints;
    rzr := GejDoubleVar(r, a);
  }

  // ------------------------------------------------------------- addition

  /** The coordinates of two finite points brought to a common Z: u1, s1 for p and u2, s2 for q. */
  ghost predicate CommonZ(p: Point, q: Point, Z: int, u1: int, u2: int, s1: int, s2: int) {
    p.Affine? && q.Affine? && InRange(p) && InRange(q) && Res(Z) != 0
    && Res(u1) == Res(Mul(p.x, Mul(Z, Z))) && Res(u2) == Res(Mul(q.x, Mul(Z, Z)))
    && Res(s1) == Res(Mul(p.y, Mul(Mul(Z, Z), Z))) && Res(s2) == Res(Mul(q.y, Mul(Mul(Z, Z), Z)))
  }

  /** h and i vanish exactly when the abscissas and the ordinates agree. */
  lemma CommonZDifferences(p: Point, q: Point, Z: int, u1: int, u2: int, s1: int, s2: int, un: int, h: int, sn: int, i: int)
    requires CommonZ(p, q, Z, u1, u2, s1, s2)
    requires un == SubP(0, u1) && h == AddP(un, u2) && sn == SubP(0, s1) && i == AddP(sn, s2)
    ensures Res(h) == Res((q.x - p.x) * (Z * Z)) && Res(i) == Res((q.y - p.y) * (Z * Z * Z))
    ensures h == 0 <==> p.x == q.x
    ensures i == 0 <==> p.y == q.y
  {
    Products();
    hide Res, MulP, AddP, SubP;
    VNeg(un, u1, p.x * (Z * Z)); VAdd(h, un, u2, -(p.x * (Z * Z)), q.x * (Z * Z));
    VNeg(sn, s1, p.y * (Z * Z * Z)); VAdd(i, sn, s2, -(p.y * (Z * Z * Z)), q.y * (Z * Z * Z));
    assert -(p.x * (Z * Z)) + q.x * (Z * Z) == (q.x - p.x) * (Z * Z);
    assert -(p.y * (Z * Z * Z)) + q.y * (Z * Z * Z) == (q.y - p.y) * (Z * Z * Z);
    ProductIsNonzero(Z, Z);
    ProductIsNonzero(Z * Z, Z);
    VIsResidue(un, u2); VIsResidue(sn, s2);
    ScaledDifference(p.x, q.x, Z * Z);
    ScaledDifference(p.y, q.y, Z * Z * Z);
  }

  lemma ScaledDifference(a: int, b: int, c: int)
    requires IsResidue(a) && IsResidue(b) && Res(c) != 0
    ensures Res((b - a) * c) == 0 <==> a == b
  {
    hide Res;
    ResOfSmall(0);
    DifferenceOfResidues(b, a);
    if Res((b - a) * c) == 0 {
      assert 0 * c == 0;
      Cancel(b - a, 0, c);
    }
    if a == b {
      assert (b - a) * c == 0;
    }
  }

  /** The values that the addition computes when the abscissas differ. */
  lemma ChordValues(p: Point, q: Point, Z: int, u1: int, u2: int, s1: int, s2: int, un: int, h: int, sn: int, i: int,
                    i2: int, h2: int, h3: int, t: int, xa: int, xb: int, xc: int, X3: int,
                    ya: int, yb: int, yc: int, hs: int, hn: int, Y3: int, Z3: int)
    requires CommonZ(p, q, Z, u1, u2, s1, s2)
    requires un == SubP(0, u1) && h == AddP(un, u2) && sn == SubP(0, s1) && i == AddP(sn, s2) && h != 0
    requires i2 == MulP(i, i) && h2 == MulP(h, h) && h3 == MulP(h, h2) && t == MulP(u1, h2)
    requires xa == MulP(2, t) && xb == AddP(xa, h3) && xc == SubP(0, xb) && X3 == AddP(xc, i2)
    requires ya == SubP(0, X3) && yb == AddP(ya, t) && yc == MulP(yb, i)
    requires hs == MulP(h3, s1) && hn == SubP(0, hs) && Y3 == AddP(yc, hn)
    requires Res(Z3) == Res(Z * h)
    ensures Res(Z3) != 0 && ToAffine(X3, Y3, Z3) == AddPoints(p, q)
  {
    Products();
    hide Res, Inv, MulP, AddP, SubP;
    CommonZDifferences(p, q, Z, u1, u2, s1, s2, un, h, sn, i);
    VIsResidue(un, u2);
    VMul(i2, i, i, i, i); VMul(h2, h, h, h, h); VMul(h3, h, h2, h, h * h); VMul(t, u1, h2, u1, h * h);
    VMul(xa, 2, t, 2, u1 * (h * h)); VAdd(xb, xa, h3, 2 * (u1 * (h * h)), h * (h * h));
    VNeg(xc, xb, 2 * (u1 * (h * h)) + h * (h * h));
    VAdd(X3, xc, i2, -(2 * (u1 * (h * h)) + h * (h * h)), i * i);
    assert 2 * (u1 * (h * h)) + h * (h * h) == h * h * (h + 2 * u1);
    VNeg(ya, X3, X3); VAdd(yb, ya, t, -X3, u1 * (h * h)); VMul(yc, yb, i, u1 * (h * h) - X3, i);
    VMul(hs, h3, s1, h * (h * h), s1); VNeg(hn, hs, h * (h * h) * s1); VAdd(Y3, yc, hn, (u1 * (h * h) - X3) * i, -(h * (h * h) * s1));
    assert (u1 * (h * h) - X3) * i == i * (u1 * (h * h) - X3) && h * (h * h) * s1 == s1 * (h * h * h);
    VIsResidue(xc, i2); VIsResidue(yc, hn);
    var l := SlopeExists(p, q);
    ChordFormula(l, p, q, Z, u1, s1, h, i, X3, Y3, Z3);
    var r := ThirdPoint(l, p, q);
    ResIdempotent(l * l - p.x - q.x);
    ResIdempotent(l * (p.x - r.x) - p.y);
    RepresentationIsUnique(X3, Y3, Z3, r);
  }

  lemma CommonZOfAffine(X: int, Y: int, Z: int, qx: int, qy: int, z2: int, u2: int, s': int, s2: int)
    requires IsResidue(X) && IsResidue(Y) && Res(Z) != 0 && IsResidue(qx) && IsResidue(qy)
    requires z2 == MulP(Z, Z) && u2 == MulP(qx, z2) && s' == MulP(qy, z2) && s2 == MulP(s', Z)
    ensures CommonZ(ToAffine(X, Y, Z), Affine(qx, qy), Z, X, u2, Y, s2)
  {
    hide Res, Inv, MulP, AddP, SubP, Mul, ToAffine;
    AffineRepresents(X, Y, Z);
    var p := ToAffine(X, Y, Z);
    MulIsProduct(Z, Z); MulIsProduct(p.x, Z * Z); MulIsProduct(qx, Z * Z);
    MulIsProduct(Z * Z, Z); MulIsProduct(p.y, Z * Z * Z); MulIsProduct(qy, Z * Z * Z);
    ResOfSmall(X); ResOfSmall(Y);
    VMul(z2, Z, Z, Z, Z); VMul(u2, qx, z2, qx, Z * Z); VMul(s', qy, z2, qy, Z * Z); VMul(s2, s', Z, qy * (Z * Z), Z);
    assert qy * (Z * Z) * Z == qy * (Z * Z * Z);
  }

  lemma CommonZOfJacobian(aX: int, aY: int, aZ: int, bX: int, bY: int, bZ: int, z22: int, z12: int,
                          u1: int, u2: int, s1': int, s1: int, s2': int, s2: int)
    requires IsResidue(aX) && IsResidue(aY) && Res(aZ) != 0 && IsResidue(bX) && IsResidue(bY) && Res(bZ) != 0
    requires z22 == MulP(bZ, bZ) && z12 == MulP(aZ, aZ) && u1 == MulP(aX, z22) && u2 == MulP(bX, z12)
    requires s1' == MulP(aY, z22) && s1 == MulP(s1', bZ) && s2' == MulP(bY, z12) && s2 == MulP(s2', aZ)
    ensures CommonZ(ToAffine(aX, aY, aZ), ToAffine(bX, bY, bZ), aZ * bZ, u1, u2, s1, s2)
  {
    Products();
    hide Res, Inv, ToAffine, MulP, AddP, SubP;
    var p, q := ToAffine(aX, aY, aZ), ToAffine(bX, bY, bZ);
    AffineRepresents(aX, aY, aZ);
    AffineRepresents(bX, bY, bZ);
    ProductIsNonzero(aZ, bZ);
    ResOfSmall(aX); ResOfSmall(aY); ResOfSmall(bX); ResOfSmall(bY);
    ToCommonZ(p.x, p.y, aX, aY, aZ, bZ, z22, u1, s1', s1);
    ToCommonZ(q.x, q.y, bX, bY, bZ, aZ, z12, u2, s2', s2);
    assert aZ * bZ == bZ * aZ;
  }

  lemma ToCommonZ(x: int, y: int, X: int, Y: int, Z: int, w: int, w2: int, u: int, s': int, s: int)
    requires Res(X) == Res(x * (Z * Z)) && Res(Y) == Res(y * (Z * Z * Z))
    requires w2 == MulP(w, w) && u == MulP(X, w2) && s' == MulP(Y, w2) && s == MulP(s', w)
    ensures Res(u) == Res(x * ((Z * w) * (Z * w))) && Res(s) == Res(y * ((Z * w) * (Z * w) * (Z * w)))
  {
    hide Res, MulP, AddP, SubP;
    VMul(w2, w, w, w, w); VMul(u, X, w2, x * (Z * Z), w * w);
    SquareOfProduct(x, Z, w);
    VMul(s', Y, w2, y * (Z * Z * Z), w * w); VMul(s, s', w, y * (Z * Z * Z) * (w * w), w);
    assert y * (Z * Z * Z) * (w * w) * w == y * (Z * Z * Z) * (w * w * w);
    CubeOfProduct(y, Z, w);
  }

  /** The differences h = u2 - u1 and i = s2 - s1, as the three additions compute them. */
  method Differences(u1: Fe, u2: Fe, s1: Fe, s2: Fe, ghost p: Point, ghost q: Point, ghost Z: int) returns (h: Fe, i: Fe)
    requires u1.Valid() && u2.Valid() && s1.Valid() && s2.Valid()
    requires u1.magnitude == 1 && u2.magnitude == 1 && s1.magnitude == 1 && s2.magnitude == 1
    requires CommonZ(p, q, Z, Value(u1), Value(u2), Value(s1), Value(s2))
    ensures h.Valid() && i.Valid() && h.magnitude == 3 && i.magnitude == 3
    ensures Value(h) == AddP(SubP(0, Value(u1)), Value(u2)) && Value(i) == AddP(SubP(0, Value(s1)), Value(s2))
    ensures Value(h) == 0 <==> p.x == q.x
    ensures Value(i) == 0 <==> p.y == q.y
  {
    hide Res, MulP, AddP, SubP, Value, Fe.Valid;
    h := FeNegate(u1, 1); h := FeAdd(h, u2);
    i := FeNegate(s1, 1); i := FeAdd(i, s2);
    CommonZDifferences(p, q, Z, Value(u1), Value(u2), Value(s1), Value(s2), SubP(0, Value(u1)), Value(h),
                       SubP(0, Value(s1)), Value(i));
  }

  /** The coordinates X3 and Y3 of the sum when h is not zero, as the three additions compute them. */
  method Chord(u1: Fe, s1: Fe, h: Fe, i: Fe, ghost u2: int, ghost s2: int, ghost p: Point, ghost q: Point, ghost Z: int)
    returns (x: Fe, y: Fe)
    requires u1.Valid() && s1.Valid() && h.Valid() && i.Valid()
    requires u1.magnitude == 1 && s1.magnitude == 1 && h.magnitude == 3 && i.magnitude == 3
    requires CommonZ(p, q, Z, Value(u1), u2, Value(s1), s2)
    requires Value(h) == AddP(SubP(0, Value(u1)), u2) && Value(i) == AddP(SubP(0, Value(s1)), s2) && Value(h) != 0
    ensures x.Valid() && y.Valid() && x.magnitude == 5 && y.magnitude == 3
    ensures forall Z3 :: Res(Z3) == Res(Z * Value(h)) ==>
      Res(Z3) != 0 && ToAffine(Value(x), Value(y), Z3) == AddPoints(p, q)
  {
    hide Res, Inv, MulP, AddP, SubP, Value, Fe.Valid, ToAffine, AddPoints;
    var i2 := FeSqr(i);
    var h2 := FeSqr(h);
    var h3 := FeMul(h, h2); ghost var v3 := Value(h3);
    var t := FeMul(u1, h2);
    x := t;
    x := FeMulInt(x, 2); ghost var xa := Value(x);
    x := FeAdd(x, h3); ghost var xb := Value(x);
    x := FeNegate(x, 3); ghost var xc := Value(x);
    x := FeAdd(x, i2);
    y := FeNegate(x, 5); ghost var ya := Value(y);
    y := FeAdd(y, t); ghost var yb := Value(y);
    y := FeMul(y, i); ghost var yc := Value(y);
    h3 := FeMul(h3, s1); ghost var hs := Value(h3);
    h3 := FeNegate(h3, 1);
    y := FeAdd(y, h3);
    forall Z3 | Res(Z3) == Res(Z * Value(h))
      ensures Res(Z3) != 0 && ToAffine(Value(x), Value(y), Z3) == AddPoints(p, q)
    {
      ChordValues(p, q, Z, Value(u1), u2, Value(s1), s2, SubP(0, Value(u1)), Value(h), SubP(0, Value(s1)), Value(i),
                  Value(i2), Value(h2), v3, Value(t), xa, xb, xc, Value(x), ya, yb, yc, hs, Value(h3), Value(y), Z3);
    }
  }

  lemma SumAtSameAbscissa(p: Point, q: Point)
    requires p.Affine? && q.Affine? && p.x == q.x && p.y != q.y
    ensures AddPoints(p, q) == Infinity
  {
  }

  lemma SameCoordinates(p: Point, q: Point)
    requires p.Affine? && q.Affine? && p.x == q.x && p.y == q.y
    ensures p == q
  {
  }

  lemma MulByOne(a: int)
    requires Res(a) == a
    ensures MulP(a, 1) == a
  {
  }

  /** secp256k1_gej_add_var. */
  method GejAddVar(r: Gej, a: Gej, b: Gej) returns (rzr: Fe)
    requires a.Valid() && b.Valid() && r.Writable() && (!a.infinity ==> Value(a.y) != 0)
    modifies r
    ensures r.Valid() && r.ToPoint() == AddPoints(old(a.ToPoint()), old(b.ToPoint()))
    ensures rzr.Valid() && rzr.magnitude <= 2
    ensures !old(a.infinity) && !r.infinity ==> Value(r.z) == MulP(old(Value(a.z)), Value(rzr))
    ensures !old(a.infinity) && r.infinity ==> Value(rzr) == 0
  {
    hide Res, Inv, MulP, AddP, SubP, Value, Fe.Valid, ToAffine, AddPoints, CommonZ;
    ghost var aX, aY, aZ := Value(a.x), Value(a.y), Value(a.z);
    ghost var bX, bY, bZ := Value(b.x), Value(b.y), Value(b.z);
    ValueIsResidue(a.x); ValueIsResidue(a.y); ValueIsResidue(a.z);
    ValueIsResidue(b.x); ValueIsResidue(b.y); ValueIsResidue(b.z);
    ghost var p, q := a.ToPoint(), b.ToPoint();
    AddInfinity(p); AddInfinity(q);
    rzr := FeSetInt(1);
    if a.infinity {
      r.x, r.y, r.z, r.infinity := b.x, b.y, b.z, b.infinity;
      return;
    }
    if b.infinity {
      r.x, r.y, r.z, r.infinity := a.x, a.y, a.z, a.infinity;
      MulByOne(aZ);
      return;
    }
    r.infinity := false;
    var z22 := FeSqr(b.z);
    var z12 := FeSqr(a.z);
    var u1 := FeMul(a.x, z22);
    var u2 := FeMul(b.x, z12);
    var s1 := FeMul(a.y, z22); ghost var s1' := Value(s1);
    s1 := FeMul(s1, b.z);
    var s2 := FeMul(b.y, z12); ghost var s2' := Value(s2);
    s2 := FeMul(s2, a.z);
    CommonZOfJacobian(aX, aY, aZ, bX, bY, bZ, Value(z22), Value(z12), Value(u1), Value(u2), s1', Value(s1), s2', Value(s2));
    var h, i := Differences(u1, u2, s1, s2, p, q, aZ * bZ);
    var same := FeNormalizesToZero(h, true);
    if same {
      var equal := FeNormalizesToZero(i, true);
      if equal {
        SameCoordinates(p, q);
        rzr := GejDoubleVar(r, a);
      } else {
        SumAtSameAbscissa(p, q);
        rzr := FeSetInt(0);
        r.infinity := true;
      }
      return;
    }
    ghost var d := Value(h);
    var x, y := Chord(u1, s1, h, i, Value(u2), Value(s2), p, q, aZ * bZ);
    h := FeMul(h, b.z);
    rzr := h;
    r.z := FeMul(a.z, h);
    r.x, r.y := x, y;
    ThreeFactors(aZ, bZ, d, Value(h), Value(r.z));
  }

  lemma ThreeFactors(a: int, b: int, d: int, h: int, z: int)
    requires h == MulP(d, b) && z == MulP(a, h)
    ensures Res(z) == Res(a * b * d) && Res(z) == z
  {
    hide Res, MulP;
    VMul(h, d, b, d, b); VMul(z, a, h, a, d * b);
    assert a * (d * b) == a * b * d;
    VIsResidue(a, h);
  }

  /** Bringing a Jacobian and an affine point to the Z of the first: the opening of the three mixed additions. */
  method MixedToCommonZ(x: Fe, y: Fe, z: Fe, b: Ge) returns (u1: Fe, u2: Fe, s1: Fe, s2: Fe)
    requires x.Valid() && y.Valid() && z.Valid() && x.magnitude <= 8 && y.magnitude <= 8 && z.magnitude <= 8
    requires b.Valid() && !b.infinity
    ensures u1.Valid() && u2.Valid() && s1.Valid() && s2.Valid()
    ensures u1.magnitude == 1 && u2.magnitude == 1 && s1.magnitude == 1 && s2.magnitude == 1
    ensures Value(z) != 0 ==>
      CommonZ(ToAffine(Value(x), Value(y), Value(z)), b.ToPoint(), Value(z), Value(u1), Value(u2), Value(s1), Value(s2))
  {
    hide Res, Inv, MulP, Value, Fe.Valid, ToAffine, CommonZ;
    ValueIsResidue(x); ValueIsResidue(y); ValueIsResidue(z); ValueIsResidue(b.x); ValueIsResidue(b.y);
    var zz := FeSqr(z);
    u1 := x; u1 := FeNormalizeWeak(u1);
    u2 := FeMul(b.x, zz);
    s1 := y; s1 := FeNormalizeWeak(s1);
    s2 := FeMul(b.y, zz); ghost var s2' := Value(s2);
    s2 := FeMul(s2, z);
    if Value(z) != 0 {
      CommonZOfAffine(Value(x), Value(y), Value(z), Value(b.x), Value(b.y), Value(zz), Value(u2), s2', Value(s2));
    }
  }

  /** secp256k1_gej_add_ge_var: the second point is affine. */
  method GejAddGeVar(r: Gej, a: Gej, b: Ge) returns (rzr: Fe)
    requires a.Valid() && b.Valid() && r.Writable() && (!a.infinity ==> Value(a.y) != 0)
    modifies r
    ensures r.Valid() && r.ToPoint() == AddPoints(old(a.ToPoint()), b.ToPoint())
    ensures rzr.Valid() && rzr.magnitude <= 3
    ensures !old(a.infinity) && !r.infinity ==> Value(r.z) == MulP(old(Value(a.z)), Value(rzr))
    ensures !old(a.infinity) && r.infinity ==> Value(rzr) == 0
  {
    hide Res, Inv, MulP, AddP, SubP, Value, Fe.Valid, ToAffine, AddPoints, CommonZ;
    ghost var aX, aY, aZ := Value(a.x), Value(a.y), Value(a.z);
    ValueIsResidue(a.x); ValueIsResidue(a.y); ValueIsResidue(a.z); ValueIsResidue(b.x); ValueIsResidue(b.y);
    ghost var p, q := a.ToPoint(), b.ToPoint();
    AddInfinity(p); AddInfinity(q);
    rzr := FeSetInt(1);
    if a.infinity {
      GejSetGe(r, b);
      return;
    }
    if b.infinity {
      r.x, r.y, r.z, r.infinity := a.x, a.y, a.z, a.infinity;
      MulByOne(aZ);
      return;
    }
    r.infinity := false;
    var u1, u2, s1, s2 := MixedToCommonZ(a.x, a.y, a.z, b);
    var h, i := Differences(u1, u2, s1, s2, p, q, aZ);
    var same := FeNormalizesToZero(h, true);
    if same {
      var equal := FeNormalizesToZero(i, true);
      if equal {
        SameCoordinates(p, q);
        rzr := GejDoubleVar(r, a);
      } else {
        SumAtSameAbscissa(p, q);
        rzr := FeSetInt(0);
        r.infinity := true;
      }
      return;
    }
    var x, y := Chord(u1, s1, h, i, Value(u2), Value(s2), p, q, aZ);
    rzr := h;
    r.z := FeMul(a.z, h);
    r.x, r.y := x, y;
    ProductIsResidue(aZ, Value(h), Value(r.z));
  }

  lemma ProductIsResidue(a: int, h: int, z: int)
    requires z == MulP(a, h)
    ensures Res(z) == Res(a * h) && Res(z) == z
  {
    Products();
    ResIdempotent(a * h);
  }

  /** secp256k1_gej_set_ge. */
  method GejSetGe(r: Gej, a: Ge)
    requires a.Valid() && r.Writable()
    modifies r
    ensures r.Valid() && r.ToPoint() == a.ToPoint() && r.infinity == a.infinity && r.x == a.x && r.y == a.y
    ensures Value(r.z) == 1
  {
    hide Res, Inv, Value, Fe.Valid, ToAffine;
    r.infinity := a.infinity;
    r.x, r.y := a.x, a.y;
    r.z := FeSetInt(1);
    ValueIsResidue(a.x); ValueIsResidue(a.y);
    AtUnitZ(Value(a.x), Value(a.y));
  }

  lemma AtUnitZ(x: int, y: int)
    requires IsResidue(x) && IsResidue(y)
    ensures ToAffine(x, y, 1) == Affine(x, y)
  {
    hide Inv, ToAffine;
    ResOfSmall(1); ResOfSmall(x); ResOfSmall(y);
    RepresentationIsUnique(x, y, 1, Affine(x, y));
  }

  // ------------------------------------------------------------- adding a point whose 1/Z is known

  /** Multiplying Z by u divides the coordinates by u^2 and u^3. */
  lemma RescaleZ(X: int, Y: int, Z: int, u: int, Zu: int)
    requires IsResidue(X) && IsResidue(Y) && Res(Z) != 0 && Res(u) != 0 && Res(Zu) == Res(Z * u)
    ensures Res(Zu) != 0 && ToAffine(X, Y, Z) == Scale(u, ToAffine(X, Y, Zu))
  {
    Products();
    hide Res, Inv, ToAffine;
    ProductIsNonzero(Z, u);
    AffineRepresents(X, Y, Zu);
    var p := ToAffine(X, Y, Zu);
    var q := Scale(u, p);
    PowersAgree(Zu, Z * u, p.x, p.y);
    ResIdempotent(p.x * (u * u));
    ResIdempotent(p.y * (u * u * u));
    Replace(q.x, p.x * (u * u), Z * Z);
    Replace(q.y, p.y * (u * u * u), Z * Z * Z);
    SquareOfProduct(p.x, u, Z);
    CubeOfProduct(p.y, u, Z);
    assert u * Z == Z * u;
    RepresentationIsUnique(X, Y, Z, q);
  }

  /** What the isomorphism makes of the addition: scaled back, the sum computed at Z u is the sum at Z. */
  lemma SumAfterScaling(aX: int, aY: int, aZ: int, u: int, az: int, q: Point)
    requires IsResidue(aX) && IsResidue(aY) && Res(aZ) != 0 && Res(u) != 0 && az == MulP(aZ, u) && q.Affine? && InRange(q)
    ensures Res(az) == az && az != 0
    ensures var p := ToAffine(aX, aY, aZ); var p' := ToAffine(aX, aY, az);
      InRange(p') && p == Scale(u, p') && AddPoints(p, Scale(u, q)) == Scale(u, AddPoints(p', q))
  {
    hide Res, Inv, ToAffine, AddPoints, MulP;
    VMul(az, aZ, u, aZ, u);
    VIsResidue(aZ, u);
    RescaleZ(aX, aY, aZ, u, az);
    ResOfSmall(0);
    AffineRepresents(aX, aY, az);
    ScaleOfSum(u, ToAffine(aX, aY, az), q);
  }

  lemma ThreeFactorsZinv(aZ: int, u: int, az: int, h: int, z: int)
    requires az == MulP(aZ, u) && z == MulP(aZ, h)
    ensures Res(z) == z && Res(z * u) == Res(az * h)
  {
    hide Res, MulP;
    VMul(az, aZ, u, aZ, u); VMul(z, aZ, h, aZ, h);
    VIsResidue(aZ, h);
    Replace(az, aZ * u, h); Replace(z, aZ * h, u);
    assert aZ * h * u == aZ * u * h;
  }

  lemma PointAtZinv(x: int, y: int, u: int, u2: int, u3: int, X: int, Y: int)
    requires u2 == MulP(u, u) && u3 == MulP(u2, u) && X == MulP(x, u2) && Y == MulP(y, u3)
    ensures Affine(X, Y) == Scale(u, Affine(x, y))
  {
    Products();
    hide Res, MulP;
    VMul(u2, u, u, u, u); VMul(u3, u2, u, u * u, u); VMul(X, x, u2, x, u * u); VMul(Y, y, u3, y, u * u * u);
    VIsResidue(x, u2); VIsResidue(y, u3);
    ResIdempotent(x * (u * u)); ResIdempotent(y * (u * u * u));
  }

  lemma InfinityScaled(u: int)
    ensures Scale(u, Infinity) == Infinity
  {
  }

  /** secp256k1_gej_add_zinv_var: the second point is (b.x, b.y, 1 / bzinv). The factor bzinv enters the computation
      of the coordinates but not that of Z. */
  method GejAddZinvVar(r: Gej, a: Gej, b: Ge, bzinv: Fe)
    requires a.Valid() && b.Valid() && r.Writable() && (!a.infinity ==> Value(a.y) != 0)
    requires bzinv.Valid() && bzinv.magnitude <= 8 && Value(bzinv) != 0
    modifies r
    ensures r.Valid() && r.ToPoint() == AddPoints(old(a.ToPoint()), Scale(Value(bzinv), b.ToPoint()))
  {
    hide Res, Inv, MulP, AddP, SubP, Value, Fe.Valid, ToAffine, AddPoints, CommonZ, Scale;
    ghost var aX, aY, aZ, u := Value(a.x), Value(a.y), Value(a.z), Value(bzinv);
    ValueIsResidue(a.x); ValueIsResidue(a.y); ValueIsResidue(a.z); ValueIsResidue(b.x); ValueIsResidue(b.y);
    ValueIsResidue(bzinv);
    ghost var p, q := a.ToPoint(), b.ToPoint();
    AddInfinity(p); AddInfinity(Scale(u, q)); InfinityScaled(u);
    if b.infinity {
      r.x, r.y, r.z, r.infinity := a.x, a.y, a.z, a.infinity;
      return;
    }
    if a.infinity {
      var bzinv2 := FeSqr(bzinv);
      var bzinv3 := FeMul(bzinv2, bzinv);
      var x := FeMul(b.x, bzinv2);
      var y := FeMul(b.y, bzinv3);
      PointAtZinv(Value(b.x), Value(b.y), u, Value(bzinv2), Value(bzinv3), Value(x), Value(y));
      GejSetGe(r, Ge(x, y, b.infinity));
      return;
    }
    r.infinity := false;
    var az := FeMul(a.z, bzinv);
    SumAfterScaling(aX, aY, aZ, u, Value(az), q);
    ghost var p' := ToAffine(aX, aY, Value(az));
    var u1, u2, s1, s2 := MixedToCommonZ(a.x, a.y, az, b);
    var h, i := Differences(u1, u2, s1, s2, p', q, Value(az));
    var same := FeNormalizesToZero(h, true);
    if same {
      var equal := FeNormalizesToZero(i, true);
      if equal {
        SameCoordinates(p', q);
        var rzr := GejDoubleVar(r, a);
      } else {
        SumAtSameAbscissa(p', q);
        r.infinity := true;
      }
      return;
    }
    var x, y := Chord(u1, s1, h, i, Value(u2), Value(s2), p', q, Value(az));
    r.z := a.z; r.z := FeMul(r.z, h);
    r.x, r.y := x, y;
    ValueIsResidue(x); ValueIsResidue(y);
    ThreeFactorsZinv(aZ, u, Value(az), Value(h), Value(r.z));
    ZinvResult(Value(x), Value(y), Value(r.z), u);
  }

  lemma ZinvResult(X: int, Y: int, z: int, u: int)
    requires IsResidue(X) && IsResidue(Y) && Res(z) == z && Res(u) != 0 && Res(z * u) != 0
    ensures z != 0 && ToAffine(X, Y, z) == Scale(u, ToAffine(X, Y, z * u))
  {
    hide Inv, ToAffine, Scale;
    NonzeroFactor(z, u);
    RescaleZ(X, Y, z, u, z * u);
  }

  lemma NonzeroFactor(z: int, u: int)
    requires Res(z * u) != 0
    ensures z != 0
  {
    ResOfSmall(0);
  }

  // ------------------------------------------------------------- the constant-time addition

  /** When y1 + y2 = 0 and the abscissas agree, and only then, the sum is infinite. */
  lemma InfiniteSum(p: Point, q: Point, b: int)
    requires p.Affine? && q.Affine? && OnCurve(p, b) && OnCurve(q, b)
    ensures AddPoints(p, q) == Infinity <==> p.x == q.x && Res(p.y + q.y) == 0
  {
    hide Inv;
    if p.x == q.x {
      DifferenceOfCubes(p, q, b);
      ResOfSmall(0);
      assert (q.x - p.x) * (p.x * p.x + p.x * q.x + q.x * q.x) == 0;
      OppositeOrEqual(p.y, q.y);
    }
  }

  lemma OppositeOrEqual(y: int, y': int)
    requires IsResidue(y) && IsResidue(y') && Res((y' - y) * (y + y')) == 0
    ensures Res(y + y') == 0 || y == y'
    ensures y == y' ==> (Res(y + y') == 0 <==> y == 0)
  {
    hide Res;
    DifferenceOfResidues(y', y);
    if Res(y' - y) != 0 && Res(y + y') != 0 { ProductIsNonzero(y' - y, y + y'); }
    TwiceIsZero(y);
  }

  /** lambda = R / M wherever it is not 0/0: R = x1^2 + x1 x2 + x2^2 is lambda (y1 + y2). */
  lemma RegularSlope(l: int, p: Point, q: Point, b: int)
    requires p.Affine? && q.Affine? && OnCurve(p, b) && OnCurve(q, b) && Slope(l, p, q)
    ensures Res(p.x * p.x + p.x * q.x + q.x * q.x) == Res(l * (p.y + q.y))
  {
    Products();
    hide Res;
    if p.x != q.x {
      DifferenceOfCubes(p, q, b);
      DifferenceOfResidues(q.x, p.x);
      Replace(l * (q.x - p.x), q.y - p.y, p.y + q.y);
      CrossMultiplied(l, q.x - p.x, p.x * p.x + p.x * q.x + q.x * q.x, p.y + q.y);
    }
  }

  lemma Commuted(l: int, d: int, s: int, y: int)
    ensures l * d * y == l * y * d && d * s == s * d
  {
  }

  lemma CrossMultiplied(l: int, d: int, s: int, y: int)
    requires Res(d) != 0 && Res(d * s) == Res(l * d * y)
    ensures Res(s) == Res(l * y)
  {
    hide Res;
    Commuted(l, d, s, y);
    Cancel(s, l * y, d);
  }

  /** The shapes of the values: sums and products of coordinates at a common Z. */
  lemma UnifiedParts(p: Point, q: Point, Z: int, u1: int, u2: int, s1: int, s2: int, t: int, m: int, rr: int)
    requires CommonZ(p, q, Z, u1, u2, s1, s2)
    requires Res(t) == Res(u1 + u2) && Res(m) == Res(s1 + s2) && Res(rr) == Res(t * t - u1 * u2)
    ensures Res(t) == Res((p.x + q.x) * (Z * Z)) && Res(m) == Res((p.y + q.y) * (Z * Z * Z))
    ensures Res(rr) == Res((p.x * p.x + p.x * q.x + q.x * q.x) * ((Z * Z) * (Z * Z)))
  {
    Products();
    hide Res;
    var z := Z * Z;
    Both(u1, p.x * z, u2, q.x * z);
    Both(s1, p.y * (z * Z), s2, q.y * (z * Z));
    assert p.x * z + q.x * z == (p.x + q.x) * z;
    assert p.y * (z * Z) + q.y * (z * Z) == (p.y + q.y) * (z * Z);
    Both(t, (p.x + q.x) * z, t, (p.x + q.x) * z);
    Both(t * t, ((p.x + q.x) * z) * ((p.x + q.x) * z), u1 * u2, (p.x * z) * (q.x * z));
    SquareMinusProduct(p.x, q.x, z);
  }

  lemma SquareMinusProduct(a: int, b: int, z: int)
    ensures ((a + b) * z) * ((a + b) * z) - (a * z) * (b * z) == (a * a + a * b + b * b) * (z * z)
  {
    assert ((a + b) * z) * ((a + b) * z) == (a + b) * (a + b) * (z * z);
    assert (a * z) * (b * z) == a * b * (z * z);
  }

  /** What the choice between the two expressions for lambda gives: its numerator and denominator, and M^3 Malt. */
  ghost predicate Chosen(p: Point, q: Point, Z: int, m: int, rr: int, u1: int, u2: int, s1: int,
                         degenerate: bool, Ralt: int, Malt: int, n: int) {
    (degenerate <==> Res(m) == 0 && Res(rr) == 0)
    && Res(Malt) == Res(if degenerate then u1 - u2 else m)
    && Res(Ralt) == Res(if degenerate then 2 * s1 else rr)
    && Res(n) == Res(if degenerate then m else Mul(Mul(Malt, Malt), Mul(Malt, Malt)))
  }

  /** Malt vanishes exactly when the sum is infinite. */
  lemma DenominatorVanishes(p: Point, q: Point, b: int, Z: int, u1: int, u2: int, s1: int, s2: int, m: int, rr: int,
                            degenerate: bool, Ralt: int, Malt: int, n: int)
    requires CommonZ(p, q, Z, u1, u2, s1, s2) && OnCurve(p, b) && OnCurve(q, b)
    requires Res(m) == Res((p.y + q.y) * (Z * Z * Z))
    requires Res(rr) == Res((p.x * p.x + p.x * q.x + q.x * q.x) * ((Z * Z) * (Z * Z)))
    requires Chosen(p, q, Z, m, rr, u1, u2, s1, degenerate, Ralt, Malt, n)
    ensures Res(m) == 0 <==> Res(p.y + q.y) == 0
    ensures Res(Malt) == 0 <==> AddPoints(p, q) == Infinity
  {
    Products();
    hide Res, Inv, AddPoints;
    ResOfSmall(0);
    ProductIsNonzero(Z, Z); ProductIsNonzero(Z * Z, Z); ProductIsNonzero(Z * Z, Z * Z);
    ZeroTimes(p.y + q.y, Z * Z * Z);
    InfiniteSum(p, q, b);
    if degenerate {
      Both(u1, p.x * (Z * Z), u2, q.x * (Z * Z));
      assert p.x * (Z * Z) - q.x * (Z * Z) == (p.x - q.x) * (Z * Z);
      ZeroTimes(p.x - q.x, Z * Z);
      DifferenceOfResidues(p.x, q.x);
    } else if Res(p.y + q.y) == 0 {
      // then x1^3 = x2^3 while R is not 0, so the abscissas agree
      var s := p.x * p.x + p.x * q.x + q.x * q.x;
      ZeroTimes(s, (Z * Z) * (Z * Z));
      DifferenceOfCubes(p, q, b);
      Replace(p.y + q.y, 0, q.y - p.y);
      DifferenceOfResidues(q.x, p.x);
      if Res(q.x - p.x) != 0 { ProductIsNonzero(q.x - p.x, s); }
    }
  }

  lemma ZeroTimes(a: int, c: int)
    requires Res(c) != 0
    ensures Res(a * c) == 0 <==> Res(a) == 0
  {
    hide Res;
    ResOfSmall(0);
    if Res(a) != 0 { ProductIsNonzero(a, c); }
    if Res(a) == 0 { Replace(a, 0, c); }
  }

  /** The numerator is lambda times the denominator times Z, in both cases, and n is (y1 + y2) (Z Malt)^3. */
  lemma NumeratorAndCube(l: int, p: Point, q: Point, b: int, Z: int, u1: int, u2: int, s1: int, s2: int, m: int, rr: int,
                         degenerate: bool, Ralt: int, Malt: int, n: int)
    requires CommonZ(p, q, Z, u1, u2, s1, s2) && OnCurve(p, b) && OnCurve(q, b)
    requires Slope(l, p, q) && Res(l * (q.x - p.x)) == Res(q.y - p.y)
    requires Res(m) == Res((p.y + q.y) * (Z * Z * Z)) && Res(m) == Res(s1 + s2)
    requires Res(rr) == Res((p.x * p.x + p.x * q.x + q.x * q.x) * ((Z * Z) * (Z * Z)))
    requires Chosen(p, q, Z, m, rr, u1, u2, s1, degenerate, Ralt, Malt, n)
    ensures Res(Ralt) == Res(l * (Z * Malt))
    ensures Res(n) == Res((p.y + q.y) * ((Z * Malt) * (Z * Malt) * (Z * Malt)))
  {
    Products();
    hide Res;
    ResOfSmall(0);
    var w := Z * Malt;
    if degenerate {
      DegenerateNumerator(l, p, q, Z, u1, u2, s1, s2, Ralt, Malt);
      ProductIsNonzero(Z, Z); ProductIsNonzero(Z * Z, Z);
      ZeroTimes(p.y + q.y, Z * Z * Z);
      Replace(p.y + q.y, 0, w * w * w);
    } else {
      RegularSlope(l, p, q, b);
      var s := p.x * p.x + p.x * q.x + q.x * q.x;
      Replace(s, l * (p.y + q.y), (Z * Z) * (Z * Z));
      Replace(Malt, (p.y + q.y) * (Z * Z * Z), l * Z);
      RegularRegroup(l, p.y + q.y, Z, Malt);
      Replace(Malt, (p.y + q.y) * (Z * Z * Z), Malt * Malt * Malt);
      CubeOfProduct(p.y + q.y, Z, Malt);
    }
  }

  lemma RegularRegroup(l: int, y: int, Z: int, M: int)
    ensures l * y * ((Z * Z) * (Z * Z)) == l * Z * (y * (Z * Z * Z)) && l * Z * M == l * (Z * M)
    ensures (M * M) * (M * M) == M * M * M * M && M * (M * M * M) == M * M * M * M
  {
    assert (Z * Z) * (Z * Z) == Z * (Z * Z * Z);
  }

  lemma DegenerateNumerator(l: int, p: Point, q: Point, Z: int, u1: int, u2: int, s1: int, s2: int, Ralt: int, Malt: int)
    requires CommonZ(p, q, Z, u1, u2, s1, s2) && Res(l * (q.x - p.x)) == Res(q.y - p.y)
    requires Res(s1 + s2) == 0 && Res(Ralt) == Res(2 * s1) && Res(Malt) == Res(u1 - u2)
    ensures Res(Ralt) == Res(l * (Z * Malt))
  {
    Products();
    hide Res;
    ResOfSmall(0);
    Both(s1 - s2, s1 - s2, s1 + s2, 0);
    assert (s1 - s2) + (s1 + s2) == 2 * s1;
    Both(s1, p.y * (Z * Z * Z), s2, q.y * (Z * Z * Z));
    Both(u1, p.x * (Z * Z), u2, q.x * (Z * Z));
    Replace(Malt, p.x * (Z * Z) - q.x * (Z * Z), l * Z);
    Replace(l * (q.x - p.x), q.y - p.y, -(Z * Z * Z));
    DegenerateRegroup(l, p.x, q.x, p.y, q.y, Z, Malt);
  }

  lemma DegenerateRegroup(l: int, px: int, qx: int, py: int, qy: int, Z: int, M: int)
    ensures l * Z * (px * (Z * Z) - qx * (Z * Z)) == l * (qx - px) * -(Z * Z * Z)
    ensures py * (Z * Z * Z) - qy * (Z * Z * Z) == (qy - py) * -(Z * Z * Z) && l * Z * M == l * (Z * M)
  {
    assert px * (Z * Z) - qx * (Z * Z) == (px - qx) * (Z * Z);
    assert Z * (Z * Z) == Z * Z * Z;
    assert l * Z * ((px - qx) * (Z * Z)) == l * (px - qx) * (Z * (Z * Z));
    assert l * (px - qx) == -(l * (qx - px));
  }

  /** The coordinates that the constant-time addition computes, when the sum is finite. */
  lemma UnifiedValues(p: Point, q: Point, b: int, Z: int, u1: int, u2: int, s1: int, s2: int, t: int, m: int, rr: int,
                      degenerate: bool, Ralt: int, Malt: int, n: int,
                      mm: int, qq: int, tt: int, z1: int, Z3: int, qn: int, x1: int, x2: int, y1: int, y2: int, y3: int, yn: int,
                      X3: int, Y3: int)
    requires CommonZ(p, q, Z, u1, u2, s1, s2) && OnCurve(p, b) && OnCurve(q, b)
    requires Res(t) == Res(u1 + u2) && Res(m) == Res(s1 + s2) && Res(rr) == Res(t * t - u1 * u2)
    requires Chosen(p, q, Z, m, rr, u1, u2, s1, degenerate, Ralt, Malt, n) && AddPoints(p, q) != Infinity
    requires mm == MulP(Malt, Malt) && qq == MulP(mm, t) && tt == MulP(Ralt, Ralt)
    requires z1 == MulP(Z, Malt) && Z3 == MulP(2, z1)
    requires qn == SubP(0, qq) && x1 == AddP(tt, qn) && X3 == MulP(4, x1)
    requires x2 == MulP(2, x1) && y1 == AddP(x2, qn) && y2 == MulP(y1, Ralt) && y3 == AddP(y2, n)
    requires yn == SubP(0, y3) && Y3 == MulP(4, yn)
    ensures Z3 != 0 && ToAffine(X3, Y3, Z3) == AddPoints(p, q)
  {
    hide Res, Inv, MulP, AddP, SubP, AddPoints, ToAffine;
    UnifiedParts(p, q, Z, u1, u2, s1, s2, t, m, rr);
    DenominatorVanishes(p, q, b, Z, u1, u2, s1, s2, m, rr, degenerate, Ralt, Malt, n);
    var l := SlopeExists(p, q);
    NumeratorAndCube(l, p, q, b, Z, u1, u2, s1, s2, m, rr, degenerate, Ralt, Malt, n);
    ProductIsNonzero(Z, Malt);
    VMul(mm, Malt, Malt, Malt, Malt); VMul(qq, mm, t, Malt * Malt, t); VMul(tt, Ralt, Ralt, Ralt, Ralt);
    var Q := t * (Malt * Malt);
    assert (Malt * Malt) * t == Q;
    VMul(z1, Z, Malt, Z, Malt); VMul(Z3, 2, z1, 2, Z * Malt);
    VNeg(qn, qq, Q); VAdd(x1, tt, qn, Ralt * Ralt, -Q); VMul(X3, 4, x1, 4, x1);
    VMul(x2, 2, x1, 2, x1); VAdd(y1, x2, qn, 2 * x1, -Q); VMul(y2, y1, Ralt, 2 * x1 - Q, Ralt);
    assert (2 * x1 - Q) * Ralt == Ralt * (2 * x1 - Q);
    VAdd(y3, y2, n, Ralt * (2 * x1 - Q), n); VNeg(yn, y3, Ralt * (2 * x1 - Q) + n);
    VMul(Y3, 4, yn, 4, -(Ralt * (2 * x1 - Q) + n));
    assert 4 * -(Ralt * (2 * x1 - Q) + n) == -4 * (Ralt * (2 * x1 - Q) + n);
    VIsResidue(4, x1); VIsResidue(4, yn); VIsResidue(2, z1);
    UnifiedFormula(l, p, q, Z, t, Ralt, Malt, n, x1, X3, Y3, Z3);
    SumInRange(p, q, l);
    RepresentationIsUnique(X3, Y3, Z3, ThirdPoint(l, p, q));
    ResOfSmall(0);
  }

  /** Both outcomes: the flag is raised exactly for an infinite sum, and otherwise the coordinates are right. */
  lemma UnifiedResult(p: Point, q: Point, b: int, Z: int, u1: int, u2: int, s1: int, s2: int, t: int, m: int, rr: int,
                      degenerate: bool, Ralt: int, Malt: int, m4: int, n: int,
                      mm: int, qq: int, tt: int, z1: int, Z3: int, qn: int, x1: int, x2: int, y1: int, y2: int, y3: int, yn: int,
                      X3: int, Y3: int)
    requires CommonZ(p, q, Z, u1, u2, s1, s2) && OnCurve(p, b) && OnCurve(q, b)
    requires Res(t) == Res(u1 + u2) && Res(m) == Res(s1 + s2) && Res(rr) == Res(t * t - u1 * u2)
    requires degenerate <==> Res(m) == 0 && Res(rr) == 0
    requires Res(Malt) == Res(if degenerate then u1 - u2 else m) && Res(Ralt) == Res(if degenerate then 2 * s1 else rr)
    requires mm == MulP(Malt, Malt) && m4 == MulP(mm, mm) && n == (if degenerate then m else m4)
    requires qq == MulP(mm, t) && tt == MulP(Ralt, Ralt) && z1 == MulP(Z, Malt) && Z3 == MulP(2, z1)
    requires qn == SubP(0, qq) && x1 == AddP(tt, qn) && X3 == MulP(4, x1)
    requires x2 == MulP(2, x1) && y1 == AddP(x2, qn) && y2 == MulP(y1, Ralt) && y3 == AddP(y2, n)
    requires yn == SubP(0, y3) && Y3 == MulP(4, yn)
    ensures z1 == 0 <==> AddPoints(p, q) == Infinity
    ensures z1 != 0 ==> Z3 != 0 && ToAffine(X3, Y3, Z3) == AddPoints(p, q)
  {
    Products();
    hide Res, Inv, MulP, AddP, SubP, AddPoints, ToAffine;
    VMul(mm, Malt, Malt, Malt, Malt); VMul(m4, mm, mm, Malt * Malt, Malt * Malt);
    VMul(z1, Z, Malt, Z, Malt); VIsResidue(Z, Malt);
    assert Chosen(p, q, Z, m, rr, u1, u2, s1, degenerate, Ralt, Malt, n);
    UnifiedParts(p, q, Z, u1, u2, s1, s2, t, m, rr);
    DenominatorVanishes(p, q, b, Z, u1, u2, s1, s2, m, rr, degenerate, Ralt, Malt, n);
    ZeroTimes(Malt, Z);
    assert Malt * Z == Z * Malt;
    if z1 != 0 {
      UnifiedValues(p, q, b, Z, u1, u2, s1, s2, t, m, rr, degenerate, Ralt, Malt, n,
                    mm, qq, tt, z1, Z3, qn, x1, x2, y1, y2, y3, yn, X3, Y3);
    }
  }

  lemma SumInRange(p: Point, q: Point, l: int)
    requires p.Affine? && q.Affine?
    ensures InRange(ThirdPoint(l, p, q))
  {
    Products();
    ResIdempotent(l * l - p.x - q.x);
    ResIdempotent(l * (p.x - ThirdPoint(l, p, q).x) - p.y);
  }

  /** T, M and the numerator and denominator of lambda, taking the alternative expression when R / M is 0 / 0. */
  method Lambda(u1: Fe, u2: Fe, s1: Fe, s2: Fe)
    returns (t: Fe, m: Fe, rr_alt: Fe, m_alt: Fe, degenerate: bool, ghost R: int)
    requires u1.Valid() && u2.Valid() && s1.Valid() && s2.Valid()
    requires u1.magnitude == 1 && u2.magnitude == 1 && s1.magnitude == 1 && s2.magnitude == 1
    ensures t.Valid() && m.Valid() && rr_alt.Valid() && m_alt.Valid()
    ensures t.magnitude == 2 && m.magnitude == 2 && rr_alt.magnitude == 2 && m_alt.magnitude == 3
    ensures Res(Value(t)) == Res(Value(u1) + Value(u2)) && Res(Value(m)) == Res(Value(s1) + Value(s2))
    ensures Res(R) == Res(Value(t) * Value(t) - Value(u1) * Value(u2))
    ensures degenerate <==> Res(Value(m)) == 0 && Res(R) == 0
    ensures Res(Value(m_alt)) == Res(if degenerate then Value(u1) - Value(u2) else Value(m))
    ensures Res(Value(rr_alt)) == Res(if degenerate then 2 * Value(s1) else R)
  {
    hide Res, MulP, AddP, SubP, Value, Fe.Valid;
    ghost var U1, U2, S1, S2 := Value(u1), Value(u2), Value(s1), Value(s2);
    t := u1; t := FeAdd(t, u2);
    VAdd(Value(t), U1, U2, U1, U2);
    m := s1; m := FeAdd(m, s2);
    VAdd(Value(m), S1, S2, S1, S2);
    var rr := FeSqr(t); ghost var tsq := Value(rr);
    ghost var T := Value(t);
    VMul(tsq, T, T, T, T);
    m_alt := FeNegate(u2, 1); ghost var un := Value(m_alt);
    VNeg(un, U2, U2);
    var tt := FeMul(u1, m_alt);
    VMul(Value(tt), U1, un, U1, -U2);
    rr := FeAdd(rr, tt);
    VAdd(Value(rr), tsq, Value(tt), T * T, U1 * -U2);
    assert T * T + U1 * -U2 == T * T - U1 * U2 by { TimesNegative(U1, U2); }
    R := Value(rr);
    ValueIsResidue(m); ValueIsResidue(rr);
    var mZero := FeNormalizesToZero(m, false);
    var rrZero := FeNormalizesToZero(rr, false);
    degenerate := mZero && rrZero;
    rr_alt := s1;
    rr_alt := FeMulInt(rr_alt, 2);
    VMul(Value(rr_alt), 2, S1, 2, S1);
    m_alt := FeAdd(m_alt, u1);
    VAdd(Value(m_alt), un, U1, -U2, U1);
    rr_alt := FeCmov(rr_alt, rr, !degenerate);
    m_alt := FeCmov(m_alt, m, !degenerate);
  }

  lemma TimesNegative(a: int, b: int)
    ensures a * -b == -(a * b)
  {
  }

  /** X3 and Y3 from T, M and lambda. */
  method UnifiedCoordinates(t': Fe, m: Fe, rr_alt: Fe, m_alt: Fe, degenerate: bool, ghost finite: bool, ghost p: Point, ghost q: Point,
                            ghost k: int, ghost Z: int, ghost u1: int, ghost u2: int, ghost s1: int, ghost s2: int, ghost R: int)
    returns (x: Fe, y: Fe)
    requires t'.Valid() && m.Valid() && rr_alt.Valid() && m_alt.Valid()
    requires t'.magnitude == 2 && m.magnitude == 2 && rr_alt.magnitude == 2 && m_alt.magnitude == 3
    requires finite ==>
      CommonZ(p, q, Z, u1, u2, s1, s2) && OnCurve(p, k) && OnCurve(q, k)
      && Res(Value(t')) == Res(u1 + u2) && Res(Value(m)) == Res(s1 + s2) && Res(R) == Res(Value(t') * Value(t') - u1 * u2)
      && (degenerate <==> Res(Value(m)) == 0 && Res(R) == 0)
      && Res(Value(m_alt)) == Res(if degenerate then u1 - u2 else Value(m))
      && Res(Value(rr_alt)) == Res(if degenerate then 2 * s1 else R)
    ensures x.Valid() && y.Valid() && x.magnitude == 4 && y.magnitude == 4
    ensures finite ==> var z := MulP(Z, Value(m_alt));
      (z == 0 <==> AddPoints(p, q) == Infinity)
      && (z != 0 ==> MulP(2, z) != 0 && ToAffine(Value(x), Value(y), MulP(2, z)) == AddPoints(p, q))
  {
    hide Res, Inv, MulP, AddP, SubP, Value, Fe.Valid, ToAffine, AddPoints, CommonZ, OnCurve;
    var t := t';
    var n := FeSqr(m_alt); ghost var mm := Value(n);
    var q' := FeMul(n, t); ghost var qq := Value(q');
    n := FeSqr(n); ghost var m4 := Value(n);
    n := FeCmov(n, m, degenerate);
    t := FeSqr(rr_alt); ghost var rsq := Value(t);
    q' := FeNegate(q', 1);
    t := FeAdd(t, q'); ghost var x1 := Value(t);
    t := FeNormalizeWeak(t);
    x := t;
    t := FeMulInt(t, 2); ghost var x2 := Value(t);
    t := FeAdd(t, q'); ghost var y1 := Value(t);
    t := FeMul(t, rr_alt); ghost var y2 := Value(t);
    t := FeAdd(t, n);
    y := FeNegate(t, 3); ghost var yn := Value(y);
    y := FeNormalizeWeak(y);
    x := FeMulInt(x, 4);
    y := FeMulInt(y, 4);
    if finite {
      ghost var z := MulP(Z, Value(m_alt));
      UnifiedResult(p, q, k, Z, u1, u2, s1, s2, Value(t'), Value(m), R, degenerate, Value(rr_alt), Value(m_alt),
                    m4, Value(n), mm, qq, rsq, z, MulP(2, z), Value(q'), x1, x2, y1, y2, Value(t), yn, Value(x), Value(y));
    }
  }

  /** secp256k1_gej_add_ge: one formula for sums and doubles, without a branch on the points. The magnitudes in the
      preconditions of the field routines are the ones in parentheses in the C comments. */
  method GejAddGe(r: Gej, a: Gej, b: Ge, ghost k: int)
    requires a.Valid() && b.Valid() && !b.infinity && r.Writable()
    requires OnCurve(a.ToPoint(), k) && OnCurve(b.ToPoint(), k)
    modifies r
    ensures r.Valid() && r.ToPoint() == AddPoints(old(a.ToPoint()), b.ToPoint())
  {
    hide Res, Inv, MulP, AddP, SubP, Value, Fe.Valid, ToAffine, AddPoints, CommonZ, OnCurve;
    ghost var aX, aY, aZ := Value(a.x), Value(a.y), Value(a.z);
    ValueIsResidue(a.x); ValueIsResidue(a.y); ValueIsResidue(a.z); ValueIsResidue(b.x); ValueIsResidue(b.y);
    ghost var p, q := a.ToPoint(), b.ToPoint();
    AddInfinity(q);
    var u1, u2, s1, s2 := MixedToCommonZ(a.x, a.y, a.z, b);
    var t, m, rr_alt, m_alt, degenerate, R := Lambda(u1, u2, s1, s2);
    var x, y := UnifiedCoordinates(t, m, rr_alt, m_alt, degenerate, !a.infinity, p, q, k, aZ, Value(u1), Value(u2), Value(s1),
                                   Value(s2), R);
    ghost var sum := AddPoints(p, q);
    FinishUnified(r, a.z, m_alt, x, y, a.infinity, b, sum);
  }

  /** Its end: Z, and the choice of the second operand if the first is infinite. */
  method FinishUnified(r: Gej, aZ: Fe, m_alt: Fe, x: Fe, y: Fe, aInfinity: bool, b: Ge, ghost sum: Point)
    requires r.Writable() && aZ.Valid() && m_alt.Valid() && x.Valid() && y.Valid() && b.Valid()
    requires aZ.magnitude <= 8 && m_alt.magnitude <= 8 && x.magnitude == 4 && y.magnitude == 4
    requires if aInfinity then sum == Affine(Value(b.x), Value(b.y))
             else var z := MulP(Value(aZ), Value(m_alt));
               (z == 0 <==> sum == Infinity)
               && (z != 0 ==> MulP(2, z) != 0 && ToAffine(Value(x), Value(y), MulP(2, z)) == sum)
    modifies r
    ensures r.Valid() && r.ToPoint() == sum
  {
    hide Res, Inv, MulP, Value, Fe.Valid, ToAffine, FieldNormalize.Lost;
    ValueIsResidue(b.x); ValueIsResidue(b.y);
    var z := FeMul(aZ, m_alt);
    var zZero := FeNormalizesToZero(z, false);
    var infinity := zZero && !aInfinity;
    z := FeMulInt(z, 2);
    r.x := FeCmov(x, b.x, aInfinity);
    r.y := FeCmov(y, b.y, aInfinity);
    r.z := FeCmov(z, FeSetInt(1), aInfinity);
    r.infinity := infinity;
    if aInfinity { AtUnitZ(Value(b.x), Value(b.y)); }
  }
}
