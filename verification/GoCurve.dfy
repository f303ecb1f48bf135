/** The curve arithmetic of curve.go on unbounded integers, for the parameters of theCurve. Infinity is (0, 0). */
module GoCurve {
  import opened NumberTheory
  import opened Params
  import opened FieldElement
  import opened Curve
  import opened Jacobian
  import Group
  import GroupTables

  /** The point that a pair of coordinates stands for. */
  function AsPoint(x: int, y: int): Point {
    if x == 0 && y == 0 then Infinity else Affine(x, y)
  }

  /** The pair of coordinates of a point. */
  function Pair(p: Point): (int, int) {
    if p.Infinity? then (0, 0) else (p.x, p.y)
  }

  /** IsOnCurve, for any integers. */
  method IsOnCurve(x: int, y: int) returns (onCurve: bool)
    ensures onCurve <==> Res(y * y) == Res(x * x * x + 7)
    ensures IsResidue(x) && IsResidue(y) ==> (onCurve <==> OnCurve(Affine(x, y), 7))
  {
    Products();
    var y2 := y * y;
    y2 := y2 % P;
    var x3 := x * x;
    x3 := x3 * x;
    x3 := x3 + 7;
    x3 := x3 % P;
    hide Res;
    ResIsMod(y * y); ResIsMod(x * x * x + 7);
    EquationModP(x);
    return x3 == y2;
  }

  lemma EquationModP(x: int)
    ensures AddP(MulP(MulP(x, x), x), 7) == Res(x * x * x + 7)
  {
    Products();
    hide Res;
    ResIdempotent(x * x);
    Replace(Res(x * x), x * x, x);
    ResIdempotent(MulP(x, x) * x);
    Replace(Res(MulP(x, x) * x), x * x * x, 7);
  }

  /** affineFromJacobian; ModInverse is the inverse modulo the prime P. */
  method AffineFromJacobian(x: int, y: int, z: int) returns (xOut: int, yOut: int)
    ensures z == 0 ==> xOut == 0 && yOut == 0
    ensures z != 0 ==> Affine(xOut, yOut) == ToAffine(x, y, z)
  {
    Products();
    if z == 0 {
      return 0, 0;
    }
    hide Res;
    var zinv := Inv(z);
    var zinvsq := zinv * zinv;
    xOut := x * zinvsq;
    ResIsMod(xOut);
    xOut := xOut % P;
    zinvsq := zinvsq * zinv;
    yOut := y * zinvsq;
    ResIsMod(yOut);
    yOut := yOut % P;
  }

  // ------------------------------------------------------------- doubling

  /** doubleJacobian. */
  method DoubleJacobian(x: int, y: int, z: int) returns (x3: int, y3: int, z3: int)
    requires IsResidue(x) && IsResidue(y) && IsResidue(z) && z != 0
    ensures y == 0 ==> z3 == 0
    ensures y != 0 ==> z3 != 0 && ToAffine(x3, y3, z3) == AddPoints(ToAffine(x, y, z), ToAffine(x, y, z))
  {
    hide Res, Inv, ToAffine, AddPoints;
    var a := x * x;
    var b := y * y;
    var c := b * b;
    var d := x + b;
    d := d * d;
    d := d - a;
    d := d - c;
    d := d * 2;
    var e := 3 * a;
    var f := e * e;
    x3 := 2 * d;
    x3 := f - x3;
    ghost var x3' := x3;
    x3 := Mod(x3);
    y3 := d - x3;
    y3 := e * y3;
    y3 := y3 - 8 * c;
    ghost var y3' := y3;
    y3 := Mod(y3);
    z3 := y * z;
    z3 := 2 * z3;
    ghost var z3' := z3;
    z3 := Mod(z3);
    DoubleShape(x, y, a, b, c, d, e, f, x3', x3, y3');
    DoubleResult(x, y, z, x3, y3, z3);
  }

  /** big.Int's Mod is Euclidean. */
  method Mod(a: int) returns (r: int)
    ensures r == Res(a)
  {
    ResIsMod(a);
    r := a % P;
  }

  /** The formulas of doubleJacobian are those of DoubleIsTangent, with d = 2 t3. */
  lemma DoubleShape(x: int, y: int, a: int, b: int, c: int, d: int, e: int, f: int, x3': int, x3: int, y3': int)
    requires a == x * x && b == y * y && c == b * b && d == ((x + b) * (x + b) - a - c) * 2 && e == 3 * a && f == e * e
    requires x3' == f - 2 * d && x3 == Res(x3') && y3' == e * (d - x3) - 8 * c
    ensures var t1, t3 := 3 * (x * x), 2 * (x * (y * y));
      x3 == Res(t1 * t1 - 4 * t3) && Res(y3') == Res(t1 * (6 * t3 - t1 * t1) - 8 * ((y * y) * (y * y)))
  {
    hide Res;
    var t1, t3 := 3 * (x * x), 2 * (x * (y * y));
    assert (x + b) * (x + b) == x * x + 2 * (x * b) + b * b by { SquareOfSum(x, b); }
    assert d == 2 * t3;
    assert x3' == t1 * t1 - 4 * t3;
    ResIdempotent(x3');
    Replace(x3, x3', d);
    Replace(d - x3, d - x3', e);
    Replace(e * (d - x3), e * (d - x3'), 8 * c);
    assert d - x3' == 6 * t3 - t1 * t1;
  }

  lemma SquareOfSum(a: int, b: int)
    ensures (a + b) * (a + b) == a * a + 2 * (a * b) + b * b
  {
  }

  lemma DoubleResult(x: int, y: int, z: int, x3: int, y3: int, z3: int)
    requires IsResidue(x) && IsResidue(y) && IsResidue(z) && z != 0 && z3 == Res(2 * (y * z))
    requires var t1, t3 := 3 * (x * x), 2 * (x * (y * y));
      x3 == Res(t1 * t1 - 4 * t3) && y3 == Res(t1 * (6 * t3 - t1 * t1) - 8 * ((y * y) * (y * y)))
    ensures y == 0 ==> z3 == 0
    ensures y != 0 ==> z3 != 0 && ToAffine(x3, y3, z3) == AddPoints(ToAffine(x, y, z), ToAffine(x, y, z))
  {
    hide Res, Inv, ToAffine, AddPoints;
    ResOfSmall(y); ResOfSmall(z); ResOfSmall(0);
    assert y * z == z * y;
    if y == 0 {
      ZeroProduct(y, z);
    } else {
      ResIdempotent(2 * (y * z));
      Group.DoubleIsTangent(x, y, z, 3 * (x * x), 2 * (x * (y * y)), x3, y3, z3);
    }
  }

  lemma ZeroProduct(y: int, z: int)
    requires y == 0
    ensures 2 * (y * z) == 0
  {
  }

  // ------------------------------------------------------------- addition

  /** addJacobian: right wherever the abscissas differ; otherwise z3 is 0. */
  method AddJacobian(x1: int, y1: int, z1: int, x2: int, y2: int, z2: int) returns (x3: int, y3: int, z3: int)
    requires IsResidue(x1) && IsResidue(y1) && IsResidue(z1) && z1 != 0 && IsResidue(x2) && IsResidue(y2) && IsResidue(z2) && z2 != 0
    ensures var p, q := ToAffine(x1, y1, z1), ToAffine(x2, y2, z2);
      if p.x == q.x then z3 == 0 else z3 != 0 && ToAffine(x3, y3, z3) == AddPoints(p, q)
  {
    hide Res, Inv, ToAffine, AddPoints;
    var z1z1 := z1 * z1; z1z1 := Mod(z1z1);
    var z2z2 := z2 * z2; z2z2 := Mod(z2z2);
    var u1 := x1 * z2z2; u1 := Mod(u1);
    var u2 := x2 * z1z1; u2 := Mod(u2);
    var h := u2 - u1;
    if h < 0 {
      h := h + P;
    }
    var i := h * 2;
    i := i * i;
    var j := h * i;
    var s1 := y1 * z2;
    s1 := s1 * z2z2;
    s1 := Mod(s1);
    var s2 := y2 * z1;
    s2 := s2 * z1z1;
    s2 := Mod(s2);
    var r := s2 - s1;
    if r < 0 {
      r := r + P;
    }
    ghost var r1 := r;
    r := r * 2;
    var v := u1 * i;
    x3 := r;
    x3 := x3 * x3;
    x3 := x3 - j;
    x3 := x3 - v;
    x3 := x3 - v;
    x3 := Mod(x3);
    y3 := r;
    ghost var v0 := v;
    v := v - x3;
    y3 := y3 * v;
    ghost var s := s1;
    s1 := s1 * j;
    s1 := s1 * 2;
    y3 := y3 - s1;
    y3 := Mod(y3);
    z3 := z1 + z2;
    z3 := z3 * z3;
    z3 := z3 - z1z1;
    if z3 < 0 {
      z3 := z3 + P;
    }
    z3 := z3 - z2z2;
    if z3 < 0 {
      z3 := z3 + P;
    }
    ghost var zs := z3;
    z3 := z3 * h;
    z3 := Mod(z3);
    var p, q := ToAffine(x1, y1, z1), ToAffine(x2, y2, z2);
    CommonZOfPair(x1, y1, z1, x2, y2, z2, z1z1, z2z2, u1, u2, s, s2);
    DifferencesOfPair(p, q, z1 * z2, u1, u2, s, s2, h, r1);
    SumOfZs(z1, z2, z1z1, z2z2, zs, h, z3);
    AddResult(p, q, z1 * z2, u1, u2, s, s2, h, r1, i, j, r, v0, x3, y3, z3);
  }

  lemma CommonZOfPair(x1: int, y1: int, z1: int, x2: int, y2: int, z2: int, z11: int, z22: int, u1: int, u2: int, s1: int, s2: int)
    requires IsResidue(x1) && IsResidue(y1) && IsResidue(z1) && z1 != 0 && IsResidue(x2) && IsResidue(y2) && IsResidue(z2) && z2 != 0
    requires z11 == Res(z1 * z1) && z22 == Res(z2 * z2) && u1 == Res(x1 * z22) && u2 == Res(x2 * z11)
    requires s1 == Res(y1 * z2 * z22) && s2 == Res(y2 * z1 * z11)
    ensures Group.CommonZ(ToAffine(x1, y1, z1), ToAffine(x2, y2, z2), z1 * z2, u1, u2, s1, s2)
    ensures IsResidue(u1) && IsResidue(u2) && IsResidue(s1) && IsResidue(s2)
  {
    Products();
    hide Res, Inv, ToAffine;
    ResOfSmall(z1); ResOfSmall(z2); ResOfSmall(0);
    OrdinateTerm(y1, z2, z22, s1);
    OrdinateTerm(y2, z1, z11, s2);
    Group.CommonZOfJacobian(x1, y1, z1, x2, y2, z2, z22, z11, u1, u2, MulP(y1, z22), s1, MulP(y2, z11), s2);
    ResIdempotent(x1 * z22); ResIdempotent(x2 * z11); ResIdempotent(y1 * z2 * z22); ResIdempotent(y2 * z1 * z11);
  }

  lemma OrdinateTerm(y: int, z: int, zz: int, s: int)
    requires s == Res(y * z * zz)
    ensures s == MulP(MulP(y, zz), z)
  {
    Products();
    hide Res;
    ResIdempotent(y * zz);
    Replace(Res(y * zz), y * zz, z);
    assert y * zz * z == y * z * zz by { SwapFactors(y, z, zz); }
  }

  lemma SwapFactors(a: int, b: int, c: int)
    ensures a * c * b == a * b * c
  {
    assert a * c * b == a * (c * b);
  }

  /** The differences, made nonnegative by adding P once. */
  lemma DifferencesOfPair(p: Point, q: Point, Z: int, u1: int, u2: int, s1: int, s2: int, h: int, r: int)
    requires Group.CommonZ(p, q, Z, u1, u2, s1, s2) && IsResidue(u1) && IsResidue(u2)
    requires h == (if u2 - u1 < 0 then u2 - u1 + P else u2 - u1) && r == (if s2 - s1 < 0 then s2 - s1 + P else s2 - s1)
    ensures Res(h) == Res((q.x - p.x) * (Z * Z)) && Res(r) == Res((q.y - p.y) * (Z * Z * Z))
    ensures h == 0 <==> p.x == q.x
    ensures Res(h) == 0 <==> h == 0
  {
    Products();
    hide Res;
    ResShift(u2 - u1, if u2 - u1 < 0 then 1 else 0);
    ResShift(s2 - s1, if s2 - s1 < 0 then 1 else 0);
    Both(u2, q.x * (Z * Z), u1, p.x * (Z * Z));
    Both(s2, q.y * (Z * Z * Z), s1, p.y * (Z * Z * Z));
    assert q.x * (Z * Z) - p.x * (Z * Z) == (q.x - p.x) * (Z * Z) by { CommonFactor(q.x, p.x, Z * Z); }
    assert q.y * (Z * Z * Z) - p.y * (Z * Z * Z) == (q.y - p.y) * (Z * Z * Z) by { CommonFactor(q.y, p.y, Z * Z * Z); }
    ProductIsNonzero(Z, Z);
    Group.ScaledDifference(p.x, q.x, Z * Z);
    ResOfSmall(h); ResOfSmall(0);
  }

  lemma CommonFactor(a: int, b: int, c: int)
    ensures a * c - b * c == (a - b) * c
  {
  }

  /** (z1 + z2)^2 - z1^2 - z2^2 is 2 z1 z2, modulo P. */
  lemma SumOfZs(z1: int, z2: int, z11: int, z22: int, zs: int, h: int, z3: int)
    requires z11 == Res(z1 * z1) && z22 == Res(z2 * z2) && z3 == Res(zs * h)
    requires var t := (z1 + z2) * (z1 + z2) - z11; var t' := (if t < 0 then t + P else t) - z22; zs == if t' < 0 then t' + P else t'
    ensures z3 == Res(2 * (z1 * z2) * h)
  {
    hide Res;
    var t := (z1 + z2) * (z1 + z2) - z11;
    var n1 := if t < 0 then 1 else 0;
    var t' := t + n1 * P - z22;
    var n2 := if t' < 0 then 1 else 0;
    assert zs == (z1 + z2) * (z1 + z2) - z11 - z22 + (n1 + n2) * P;
    ResShift((z1 + z2) * (z1 + z2) - z11 - z22, n1 + n2);
    ResIdempotent(z1 * z1); ResIdempotent(z2 * z2);
    Replace(z11, z1 * z1, (z1 + z2) * (z1 + z2));
    Both((z1 + z2) * (z1 + z2) - z11, (z1 + z2) * (z1 + z2) - z1 * z1, z22, z2 * z2);
    SquareOfSum(z1, z2);
    Replace(zs, 2 * (z1 * z2), h);
  }

  /** Compared with the chord formula the coordinates are scaled by 4, 8 and 2. */
  lemma AddResult(p: Point, q: Point, Z: int, u1: int, u2: int, s1: int, s2: int, h: int, r1: int, i: int, j: int, r: int,
                  v: int, x3: int, y3: int, z3: int)
    requires Group.CommonZ(p, q, Z, u1, u2, s1, s2)
    requires Res(h) == Res((q.x - p.x) * (Z * Z)) && Res(r1) == Res((q.y - p.y) * (Z * Z * Z))
    requires (h == 0 <==> p.x == q.x) && (Res(h) == 0 <==> h == 0)
    requires i == (h * 2) * (h * 2) && j == h * i && r == r1 * 2 && v == u1 * i
    requires x3 == Res(r * r - j - v - v) && y3 == Res(r * (v - x3) - s1 * j * 2) && z3 == Res(2 * Z * h)
    ensures if p.x == q.x then z3 == 0 else z3 != 0 && ToAffine(x3, y3, z3) == AddPoints(p, q)
  {
    Products();
    hide Res, Inv, ToAffine, AddPoints;
    ResOfSmall(0);
    if p.x == q.x {
      ZeroFactorRight(2 * Z, h);
    } else {
      assert AddPoints(p, q).Affine? by { DifferentAbscissas(p, q); }
      var l := SlopeExists(p, q);
      var X := Res(r1 * r1 - h * h * (h + 2 * u1));
      var Y := Res(r1 * (u1 * (h * h) - X) - s1 * (h * h * h));
      ResIdempotent(Z * h);
      ChordFormula(l, p, q, Z, u1, s1, h, r1, X, Y, Z * h);
      var t := ThirdPoint(l, p, q);
      Group.SumInRange(p, q, l);
      RepresentationIsUnique(X, Y, Z * h, t);
      TwiceScaled(u1, s1, h, r1, i, j, r, v, X, Y, x3, y3);
      ResIdempotent(r1 * r1 - h * h * (h + 2 * u1)); ResIdempotent(r1 * (u1 * (h * h) - X) - s1 * (h * h * h));
      ResOfSmall(2);
      assert 2 * Z * h == Z * h * 2 by { ThreeFactorOrder(2, Z, h); }
      ResIdempotent(2 * Z * h);
      GroupTables.RescaledTriple(X, Y, Z * h, 2, z3);
    }
  }

  lemma ThreeFactorOrder(a: int, b: int, c: int)
    ensures a * b * c == b * c * a
  {
    assert a * b * c == a * (b * c);
  }

  lemma ZeroFactorRight(a: int, h: int)
    ensures h == 0 ==> a * h == 0
  {
  }

  lemma DifferentAbscissas(p: Point, q: Point)
    requires p.Affine? && q.Affine? && p.x != q.x
    ensures AddPoints(p, q).Affine?
  {
  }

  lemma TwiceScaled(u1: int, s1: int, h: int, r1: int, i: int, j: int, r: int, v: int, X: int, Y: int, x3: int, y3: int)
    requires i == (h * 2) * (h * 2) && j == h * i && r == r1 * 2 && v == u1 * i
    requires X == Res(r1 * r1 - h * h * (h + 2 * u1)) && Y == Res(r1 * (u1 * (h * h) - X) - s1 * (h * h * h))
    requires x3 == Res(r * r - j - v - v) && y3 == Res(r * (v - x3) - s1 * j * 2)
    ensures x3 == Res(X * (2 * 2)) && y3 == Res(Y * (2 * 2 * 2))
  {
    hide Res;
    ScaledBy4(u1, h, r1, i, j, r, v);
    ResIdempotent(r1 * r1 - h * h * (h + 2 * u1));
    Replace(X, r1 * r1 - h * h * (h + 2 * u1), 4);
    ResIdempotent(r * r - j - v - v);
    Replace(x3, X * 4, v);
    Replace(v - x3, v - X * 4, r);
    Replace(r * (v - x3), r * (v - X * 4), s1 * j * 2);
    ScaledBy8(u1, s1, h, r1, i, j, r, v, X);
    ResIdempotent(r1 * (u1 * (h * h) - X) - s1 * (h * h * h));
    Replace(Y, r1 * (u1 * (h * h) - X) - s1 * (h * h * h), 8);
  }

  lemma ScaledBy4(u1: int, h: int, r1: int, i: int, j: int, r: int, v: int)
    requires i == (h * 2) * (h * 2) && j == h * i && r == r1 * 2 && v == u1 * i
    ensures r * r - j - v - v == (r1 * r1 - h * h * (h + 2 * u1)) * 4
  {
    assert i == 4 * (h * h) && r * r == 4 * (r1 * r1);
    assert j == 4 * (h * (h * h)) && v == 4 * (u1 * (h * h));
    assert h * h * (h + 2 * u1) == h * (h * h) + 2 * (u1 * (h * h)) by { DistributeSquare(h * h, h, u1); }
  }

  lemma DistributeSquare(s: int, h: int, u: int)
    ensures s * (h + 2 * u) == h * s + 2 * (u * s)
  {
    assert s * (2 * u) == 2 * (u * s);
  }

  lemma ScaledBy8(u1: int, s1: int, h: int, r1: int, i: int, j: int, r: int, v: int, X: int)
    requires i == (h * 2) * (h * 2) && j == h * i && r == r1 * 2 && v == u1 * i
    ensures r * (v - X * 4) - s1 * j * 2 == (r1 * (u1 * (h * h) - X) - s1 * (h * h * h)) * 8
  {
    var w := u1 * (h * h) - X;
    assert i == 4 * (h * h);
    assert v == 4 * (u1 * (h * h));
    assert v - X * 4 == 4 * w;
    assert r * (4 * w) == 8 * (r1 * w);
    assert j == 4 * (h * h * h);
    assert s1 * (4 * (h * h * h)) == 4 * (s1 * (h * h * h)) by { TakeOut4(s1, h * h * h); }
  }

  lemma TakeOut4(a: int, b: int)
    ensures a * (4 * b) == 4 * (a * b)
  {
  }

  // ------------------------------------------------------------- the public operations

  lemma PairOnCurve(x: int, y: int)
    requires OnCurve(AsPoint(x, y), 7)
    ensures IsResidue(x) && IsResidue(y) && IsResidue(1)
  {
    ResOfSmall(0);
    ResOfSmall(1);
  }

  lemma UnitZ(x: int, y: int)
    requires IsResidue(x) && IsResidue(y)
    ensures ToAffine(x, y, 1) == Affine(x, y)
  {
    Group.AtUnitZ(x, y);
  }

  /** (0, 0) is not on the curve, so a finite point never looks like infinity. */
  lemma OriginIsOffCurve(p: Point)
    requires p.Affine? && OnCurve(p, 7)
    ensures !(p.x == 0 && p.y == 0)
  {
    GroupTables.OrdinateIsNonzero(p);
  }

  lemma PairOfSum(p: Point, q: Point)
    requires OnCurve(p, 7) && OnCurve(q, 7)
    ensures var r := Pair(AddPoints(p, q)); AsPoint(r.0, r.1) == AddPoints(p, q) && OnCurve(AsPoint(r.0, r.1), 7)
  {
    hide OnCurve, AddPoints;
    SumIsOnCurve(p, q, 7);
    if AddPoints(p, q).Affine? { OriginIsOffCurve(AddPoints(p, q)); }
  }

  /** Double. */
  method Double(x1: int, y1: int) returns (x: int, y: int)
    requires OnCurve(AsPoint(x1, y1), 7)
    ensures (x, y) == Pair(AddPoints(AsPoint(x1, y1), AsPoint(x1, y1)))
    ensures AsPoint(x, y) == AddPoints(AsPoint(x1, y1), AsPoint(x1, y1)) && OnCurve(AsPoint(x, y), 7)
  {
    hide Inv, ToAffine, AddPoints, OnCurve, Res;
    PairOnCurve(x1, y1);
    var z1 := 1;
    var x3, y3, z3 := DoubleJacobian(x1, y1, z1);
    x, y := AffineFromJacobian(x3, y3, z3);
    UnitZ(x1, y1);
    var p := AsPoint(x1, y1);
    PairOfSum(p, p);
    if p.Affine? {
      GroupTables.OrdinateIsNonzero(p);
      GroupTables.DoubleIsFinite(p);
    } else {
      Group.AddInfinity(Infinity);
    }
  }

  /** Add: the affine sum, with opposite points giving (0, 0). */
  method Add(x1: int, y1: int, x2: int, y2: int) returns (x: int, y: int)
    requires OnCurve(AsPoint(x1, y1), 7)
    requires OnCurve(AsPoint(x2, y2), 7)
    ensures (x, y) == Pair(AddPoints(AsPoint(x1, y1), AsPoint(x2, y2)))
    ensures AsPoint(x, y) == AddPoints(AsPoint(x1, y1), AsPoint(x2, y2)) && OnCurve(AsPoint(x, y), 7)
  {
    hide Inv, ToAffine, AddPoints, OnCurve, Res;
    var p, q := AsPoint(x1, y1), AsPoint(x2, y2);
    PairOnCurve(x1, y1);
    PairOnCurve(x2, y2);
    PairOfSum(p, q);
    Group.AddInfinity(p);
    Group.AddInfinity(q);
    if x1 == 0 && y1 == 0 {
      return x2, y2;
    }
    if x2 == 0 && y2 == 0 {
      return x1, y1;
    }
    var z := 1;
    UnitZ(x1, y1);
    UnitZ(x2, y2);
    if x1 == x2 && y1 == y2 {
      var x3, y3, z3 := DoubleJacobian(x1, y1, z);
      x, y := AffineFromJacobian(x3, y3, z3);
      GroupTables.OrdinateIsNonzero(p);
    } else {
      var x3, y3, z3 := AddJacobian(x1, y1, z, x2, y2, z);
      x, y := AffineFromJacobian(x3, y3, z3);
      if x1 == x2 {
        Group.SumAtSameAbscissa(p, q);
      }
    }
    if AddPoints(p, q).Affine? { PairIsAffine(AddPoints(p, q)); }
  }

  lemma PairIsAffine(p: Point)
    requires p.Affine?
    ensures Pair(p) == (p.x, p.y)
  {
  }
}
