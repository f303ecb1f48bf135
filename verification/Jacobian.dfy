/** Jacobian coordinates (X, Y, Z) for the affine point (X/Z^2, Y/Z^3), and why the formulas of group_impl.h and
    curve.go compute the group law on them. All equations are between residues modulo P. */
module Jacobian {
  import opened NumberTheory
  import opened Params
  import opened FieldElement
  import opened Curve

  ghost predicate Represents(X: int, Y: int, Z: int, p: Point) {
    p.Affine? && Res(Z) != 0 && X == Res(Mul(p.x, Mul(Z, Z))) && Y == Res(Mul(p.y, Mul(Mul(Z, Z), Z)))
  }

  /** The point that finite Jacobian coordinates stand for. */
  function ToAffine(X: int, Y: int, Z: int): (p: Point)
    ensures p.Affine?
  {
    var w := Inv(Z);
    Affine(Res(Mul(X, Mul(w, w))), Res(Mul(Y, Mul(Mul(w, w), w))))
  }

  ghost predicate InRange(p: Point) {
    p.Affine? ==> IsResidue(p.x) && IsResidue(p.y)
  }

  lemma RepresentsForm(X: int, Y: int, Z: int, p: Point)
    requires p.Affine?
    ensures Represents(X, Y, Z, p) <==> Res(Z) != 0 && X == Res(p.x * (Z * Z)) && Y == Res(p.y * (Z * Z * Z))
  {
    hide Res, Mul;
    MulIsProduct(Z, Z);
    MulIsProduct(Z * Z, Z);
    MulIsProduct(p.x, Z * Z);
    MulIsProduct(p.y, Z * Z * Z);
  }

  /** Congruence of sums, differences and products. */
  lemma Both(a: int, a': int, b: int, b': int)
    requires Res(a) == Res(a') && Res(b) == Res(b')
    ensures Res(a * b) == Res(a' * b') && Res(a + b) == Res(a' + b') && Res(a - b) == Res(a' - b')
  {
    Replace(a, a', b);
    Replace(b, b', a');
  }

  lemma PowersOfInverse(Z: int)
    requires Res(Z) != 0
    ensures Res((Inv(Z) * Inv(Z)) * (Z * Z)) == 1 && Res((Inv(Z) * Inv(Z) * Inv(Z)) * (Z * Z * Z)) == 1
  {
    hide Res, Inv;
    var w := Inv(Z);
    InverseLaw(Z);
    ResOfSmall(1);
    Both(Z * w, 1, Z * w, 1);
    Both((Z * w) * (Z * w), 1, Z * w, 1);
    assert (Z * w) * (Z * w) == (w * w) * (Z * Z);
    assert ((w * w) * (Z * Z)) * (Z * w) == (w * w * w) * (Z * Z * Z);
  }

  lemma AffineRepresents(X: int, Y: int, Z: int)
    requires IsResidue(X) && IsResidue(Y) && Res(Z) != 0
    ensures Represents(X, Y, Z, ToAffine(X, Y, Z)) && InRange(ToAffine(X, Y, Z))
  {
    Products();
    hide Inv;
    PowersOfInverse(Z);
    ScaleBack(X, Inv(Z) * Inv(Z), Z * Z);
    ScaleBack(Y, Inv(Z) * Inv(Z) * Inv(Z), Z * Z * Z);
    ResIdempotent(X * (Inv(Z) * Inv(Z)));
    ResIdempotent(Y * (Inv(Z) * Inv(Z) * Inv(Z)));
  }

  lemma ScaleBack(X: int, w: int, z: int)
    requires IsResidue(X) && Res(w * z) == 1
    ensures Res(Res(X * w) * z) == X && Res(Res(X * z) * w) == X
  {
    hide Res;
    ResOfSmall(1);
    ResOfSmall(X);
    Replace(w * z, 1, X);
    ResIdempotent(X * w);
    Replace(Res(X * w), X * w, z);
    ResIdempotent(X * z);
    Replace(Res(X * z), X * z, w);
    assert X * w * z == X * (w * z) && X * z * w == X * (w * z);
  }

  lemma RepresentationIsUnique(X: int, Y: int, Z: int, p: Point)
    requires Represents(X, Y, Z, p) && InRange(p)
    ensures p == ToAffine(X, Y, Z)
  {
    Products();
    hide Inv;
    PowersOfInverse(Z);
    ScaleBack(p.x, Inv(Z) * Inv(Z), Z * Z);
    ScaleBack(p.y, Inv(Z) * Inv(Z) * Inv(Z), Z * Z * Z);
  }

  // ------------------------------------------------------------- chords

  lemma ChordSlope(l: int, dx: int, dy: int, Z: int, h: int, i: int)
    requires Res(l * dx) == Res(dy)
    requires Res(h) == Res(dx * (Z * Z)) && Res(i) == Res(dy * (Z * Z * Z))
    ensures Res(i) == Res(l * (Z * h))
  {
    hide Res;
    Replace(l * dx, dy, Z * Z * Z);
    Replace(h, dx * (Z * Z), l * Z);
    assert l * dx * (Z * Z * Z) == dx * (Z * Z) * (l * Z);
    assert h * (l * Z) == l * (Z * h);
  }

  lemma ChordSum(px: int, qx: int, Z: int, u1: int, h: int)
    requires Res(u1) == Res(px * (Z * Z)) && Res(h) == Res((qx - px) * (Z * Z))
    ensures Res(h + 2 * u1) == Res((px + qx) * (Z * Z))
  {
    hide Res;
    Replace(u1, px * (Z * Z), 2);
    Both(h, (qx - px) * (Z * Z), 2 * u1, 2 * (px * (Z * Z)));
    assert (qx - px) * (Z * Z) + 2 * (px * (Z * Z)) == (px + qx) * (Z * Z);
  }

  lemma ChordX(l: int, px: int, qx: int, Z: int, h: int, i: int, v: int)
    requires Res(i) == Res(l * (Z * h)) && Res(v) == Res((px + qx) * (Z * Z))
    ensures Res(i * i - h * h * v) == Res(Res(l * l - px - qx) * ((Z * h) * (Z * h)))
  {
    hide Res;
    var w := Z * h;
    Both(i, l * w, i, l * w);
    Replace(v, (px + qx) * (Z * Z), h * h);
    Both(i * i, (l * w) * (l * w), h * h * v, h * h * ((px + qx) * (Z * Z)));
    assert (l * w) * (l * w) == (l * l) * (w * w);
    assert h * h * ((px + qx) * (Z * Z)) == (px + qx) * (w * w) by {
      assert (Z * h) * (Z * h) == (h * h) * (Z * Z);
    }
    ResIdempotent(l * l - px - qx);
    Replace(Res(l * l - px - qx), l * l - px - qx, w * w);
    assert (l * l - px - qx) * (w * w) == (l * l) * (w * w) - (px + qx) * (w * w);
  }

  lemma ChordY(l: int, px: int, py: int, x: int, Z: int, u1: int, s1: int, h: int, i: int, X3: int)
    requires Res(i) == Res(l * (Z * h)) && Res(u1) == Res(px * (Z * Z)) && Res(s1) == Res(py * (Z * Z * Z))
    requires Res(X3) == Res(x * ((Z * h) * (Z * h)))
    ensures Res(i * (u1 * (h * h) - X3) - s1 * (h * h * h))
         == Res(Res(l * (px - x) - py) * ((Z * h) * (Z * h) * (Z * h)))
  {
    hide Res;
    var w := Z * h;
    Replace(u1, px * (Z * Z), h * h);
    SquareOfProduct(px, Z, h);
    Both(u1 * (h * h), px * (w * w), X3, x * (w * w));
    Both(i, l * w, u1 * (h * h) - X3, px * (w * w) - x * (w * w));
    Replace(s1, py * (Z * Z * Z), h * h * h);
    CubeOfProduct(py, Z, h);
    Both(i * (u1 * (h * h) - X3), (l * w) * (px * (w * w) - x * (w * w)), s1 * (h * h * h), py * (w * w * w));
    CollectCubes(l, px - x, py, w);
    assert px * (w * w) - x * (w * w) == (px - x) * (w * w);
    ResIdempotent(l * (px - x) - py);
    Replace(Res(l * (px - x) - py), l * (px - x) - py, w * w * w);
  }

  lemma CollectCubes(l: int, d: int, y: int, w: int)
    ensures (l * w) * (d * (w * w)) - y * (w * w * w) == (l * d - y) * (w * w * w)
  {
    assert (l * w) * (d * (w * w)) == (l * d) * (w * w * w);
  }

  lemma SquareOfProduct(c: int, a: int, b: int)
    ensures c * (a * a) * (b * b) == c * ((a * b) * (a * b))
  {
    assert (a * b) * (a * b) == (a * a) * (b * b);
  }

  lemma CubeOfProduct(c: int, a: int, b: int)
    ensures c * (a * a * a) * (b * b * b) == c * ((a * b) * (a * b) * (a * b))
  {
    assert (a * b) * (a * b) == (a * a) * (b * b);
    assert (a * a) * (b * b) * (a * b) == (a * a * a) * (b * b * b);
  }

  /** The addition formulas of gej_add_var and its variants: with h and i the differences of the coordinates
      brought to a common Z, and l the slope of the chord. */
  lemma ChordFormula(l: int, p: Point, q: Point, Z: int, u1: int, s1: int, h: int, i: int, X3: int, Y3: int, Z3: int)
    requires p.Affine? && q.Affine? && Res(l * (q.x - p.x)) == Res(q.y - p.y)
    requires Res(Z) != 0 && Res(h) != 0
    requires Res(u1) == Res(p.x * (Z * Z)) && Res(s1) == Res(p.y * (Z * Z * Z))
    requires Res(h) == Res((q.x - p.x) * (Z * Z)) && Res(i) == Res((q.y - p.y) * (Z * Z * Z))
    requires X3 == Res(i * i - h * h * (h + 2 * u1))
    requires Y3 == Res(i * (u1 * (h * h) - X3) - s1 * (h * h * h))
    requires Res(Z3) == Res(Z * h)
    ensures Represents(X3, Y3, Z3, ThirdPoint(l, p, q))
  {
    Products();
    hide Res;
    var x, y := ThirdPoint(l, p, q).x, ThirdPoint(l, p, q).y;
    var w := Z * h;
    ChordSlope(l, q.x - p.x, q.y - p.y, Z, h, i);
    ChordSum(p.x, q.x, Z, u1, h);
    ChordX(l, p.x, q.x, Z, h, i, h + 2 * u1);
    ResIdempotent(i * i - h * h * (h + 2 * u1));
    ChordY(l, p.x, p.y, x, Z, u1, s1, h, i, X3);
    ProductIsNonzero(Z, h);
    PowersAgree(Z3, w, x, y);
  }

  lemma PowersAgree(Z: int, w: int, x: int, y: int)
    requires Res(Z) == Res(w)
    ensures Res(x * (Z * Z)) == Res(x * (w * w)) && Res(y * (Z * Z * Z)) == Res(y * (w * w * w))
  {
    hide Res;
    Both(Z, w, Z, w);
    Both(Z * Z, w * w, Z, w);
    Replace(Z * Z, w * w, x);
    Replace(Z * Z * Z, w * w * w, y);
  }

  // ------------------------------------------------------------- tangents

  /** The parts of the doubling formulas in terms of w = 2yZ^4, which is the new Z. */
  lemma TangentParts(l: int, x: int, y: int, Z: int, X: int, Y: int)
    requires Res(l * (2 * y)) == Res(3 * x * x)
    requires Res(X) == Res(x * (Z * Z)) && Res(Y) == Res(y * (Z * Z * Z))
    ensures var w := 2 * y * ((Z * Z) * (Z * Z));
      Res(2 * (Z * Y)) == Res(w) && Res(3 * (X * X)) == Res(l * w)
  {
    hide Res;
    var z := Z * Z;
    Replace(Y, y * (Z * Z * Z), 2 * Z);
    Both(X, x * z, X, x * z);
    Replace(X * X, (x * z) * (x * z), 3);
    Replace(l * (2 * y), 3 * x * x, z * z);
    TangentIdentities(l, x, y, Z, Y);
  }

  lemma TangentIdentities(l: int, x: int, y: int, Z: int, Y: int)
    ensures var z := Z * Z;
      y * (Z * Z * Z) * (2 * Z) == 2 * y * (z * z) && Y * (2 * Z) == 2 * (Z * Y)
      && 3 * ((x * z) * (x * z)) == 3 * x * x * (z * z) && l * (2 * y) * (z * z) == l * (2 * y * (z * z))
  {
    var z := Z * Z;
    assert (Z * Z * Z) * Z == z * z;
    assert (x * z) * (x * z) == x * x * (z * z);
  }

  lemma TangentFourth(x: int, y: int, Z: int, X: int, Y: int)
    requires Res(X) == Res(x * (Z * Z)) && Res(Y) == Res(y * (Z * Z * Z))
    ensures var w := 2 * y * ((Z * Z) * (Z * Z));
      Res(4 * (2 * (X * (Y * Y)))) == Res(2 * x * (w * w)) && Res(8 * ((Y * Y) * (Y * Y))) == Res(y * (w * w * w))
  {
    hide Res;
    var z := Z * Z;
    var v := y * y * (z * z * z);
    Both(Y, y * (Z * Z * Z), Y, y * (Z * Z * Z));
    assert (y * (Z * Z * Z)) * (y * (Z * Z * Z)) == v by { assert (Z * Z * Z) * (Z * Z * Z) == z * z * z; }
    Both(X, x * z, Y * Y, v);
    Replace(X * (Y * Y), (x * z) * v, 8);
    assert 8 * (X * (Y * Y)) == 4 * (2 * (X * (Y * Y)));
    TangentProducts(x, y, z);
    Both(Y * Y, v, Y * Y, v);
    Replace((Y * Y) * (Y * Y), v * v, 8);
  }

  lemma TangentProducts(x: int, y: int, z: int)
    ensures var w, v := 2 * y * (z * z), y * y * (z * z * z);
      8 * ((x * z) * v) == 2 * x * (w * w) && 8 * (v * v) == y * (w * w * w)
  {
    var w, v := 2 * y * (z * z), y * y * (z * z * z);
    assert w * w == 4 * (z * v) by {
      assert (z * z) * (z * z) == z * (z * z * z);
    }
    assert y * w == 2 * (y * y * (z * z));
    assert y * (w * w * w) == (y * w) * (w * w);
    assert (y * y * (z * z)) * z == v;
  }

  /** The doubling formulas of gej_double_var. */
  lemma TangentFormula(l: int, p: Point, Z: int, X: int, Y: int, t1: int, t3: int, X3: int, Y3: int, Z3: int)
    requires p.Affine? && Res(l * (2 * p.y)) == Res(3 * p.x * p.x)
    requires Res(Z) != 0 && Res(Y) != 0
    requires Res(X) == Res(p.x * (Z * Z)) && Res(Y) == Res(p.y * (Z * Z * Z))
    requires Res(t1) == Res(3 * (X * X)) && Res(t3) == Res(2 * (X * (Y * Y)))
    requires X3 == Res(t1 * t1 - 4 * t3)
    requires Y3 == Res(t1 * (6 * t3 - t1 * t1) - 8 * ((Y * Y) * (Y * Y)))
    requires Res(Z3) == Res(2 * (Z * Y))
    ensures Represents(X3, Y3, Z3, ThirdPoint(l, p, p))
  {
    Products();
    hide Res;
    var x, w := ThirdPoint(l, p, p).x, 2 * p.y * ((Z * Z) * (Z * Z));
    TangentParts(l, p.x, p.y, Z, X, Y);
    TangentFourth(p.x, p.y, Z, X, Y);
    Both(t1, l * w, t1, l * w);
    assert (l * w) * (l * w) == l * l * (w * w);
    Replace(t3, 2 * (X * (Y * Y)), 4);
    Both(t1 * t1, l * l * (w * w), 4 * t3, 2 * p.x * (w * w));
    assert l * l * (w * w) - 2 * p.x * (w * w) == (l * l - p.x - p.x) * (w * w);
    ResIdempotent(l * l - p.x - p.x);
    Replace(x, l * l - p.x - p.x, w * w);
    Both(t1 * t1 - 4 * t3, x * (w * w), t1 * t1 - 4 * t3, x * (w * w));
    // 6 t3 - t1^2 = 2 t3 - X3, that is (x_p - x) w^2
    TangentY(l, p.x, p.y, x, w, t1, t3, 8 * ((Y * Y) * (Y * Y)));
    TwoIsInvertible(Z, Y);
    PowersAgree(Z3, w, x, ThirdPoint(l, p, p).y);
  }

  lemma TwoIsInvertible(Z: int, Y: int)
    requires Res(Z) != 0 && Res(Y) != 0
    ensures Res(2 * (Z * Y)) != 0
  {
    ProductIsNonzero(Z, Y);
    ResOfSmall(2);
    ProductIsNonzero(2, Z * Y);
  }

  lemma TangentY(l: int, px: int, py: int, x: int, w: int, t1: int, t3: int, y4: int)
    requires Res(t1) == Res(l * w) && Res(4 * t3) == Res(2 * px * (w * w)) && Res(y4) == Res(py * (w * w * w))
    requires Res(t1 * t1 - 4 * t3) == Res(x * (w * w))
    ensures Res(t1 * (6 * t3 - t1 * t1) - y4) == Res(Res(l * (px - x) - py) * (w * w * w))
  {
    hide Res;
    ResOfSmall(2);
    assert 2 * t3 * 2 == 4 * t3 && px * (w * w) * 2 == 2 * px * (w * w);
    Cancel(2 * t3, px * (w * w), 2);
    Both(2 * t3, px * (w * w), t1 * t1 - 4 * t3, x * (w * w));
    assert 2 * t3 - (t1 * t1 - 4 * t3) == 6 * t3 - t1 * t1;
    assert px * (w * w) - x * (w * w) == (px - x) * (w * w);
    Both(t1, l * w, 6 * t3 - t1 * t1, (px - x) * (w * w));
    Both(t1 * (6 * t3 - t1 * t1), (l * w) * ((px - x) * (w * w)), y4, py * (w * w * w));
    CollectCubes(l, px - x, py, w);
    ResIdempotent(l * (px - x) - py);
    Replace(Res(l * (px - x) - py), l * (px - x) - py, w * w * w);
  }

  // ------------------------------------------------------------- the unified formula

  /** The formula of gej_add_ge: given lambda = Ralt / Malt and n = (y1 + y2) w^3, it yields the third point. */
  lemma UnifiedFormula(l: int, p: Point, q: Point, Z: int, t: int, Ralt: int, Malt: int, n: int, X: int, X3: int, Y3: int, Z3: int)
    requires p.Affine? && q.Affine? && Res(l * (q.x - p.x)) == Res(q.y - p.y)
    requires Res(Z * Malt) != 0
    requires Res(t) == Res((p.x + q.x) * (Z * Z))
    requires Res(Ralt) == Res(l * (Z * Malt))
    requires Res(n) == Res((p.y + q.y) * ((Z * Malt) * (Z * Malt) * (Z * Malt)))
    requires Res(X) == Res(Ralt * Ralt - t * (Malt * Malt))
    requires X3 == Res(4 * X)
    requires Y3 == Res(-4 * (Ralt * (2 * X - t * (Malt * Malt)) + n))
    requires Res(Z3) == Res(2 * (Z * Malt))
    ensures Represents(X3, Y3, Z3, ThirdPoint(l, p, q))
  {
    Products();
    hide Res;
    var r := ThirdPoint(l, p, q);
    var w := Z * Malt;
    var q2 := (p.x + q.x) * (w * w);
    Replace(t, (p.x + q.x) * (Z * Z), Malt * Malt);
    SquareOfProduct(p.x + q.x, Z, Malt);
    UnifiedX(l, p.x, q.x, w, Ralt, t * (Malt * Malt), X);
    assert X3 == Res(r.x * ((2 * w) * (2 * w))) by {
      Replace(X, r.x * (w * w), 4);
      assert 4 * (r.x * (w * w)) == r.x * ((2 * w) * (2 * w));
    }
    UnifiedY(l, p, q, w, Ralt, t * (Malt * Malt), X, n);
    ResOfSmall(2);
    ProductIsNonzero(2, w);
    PowersAgree(Z3, 2 * w, r.x, r.y);
  }

  lemma UnifiedX(l: int, px: int, qx: int, w: int, Ralt: int, Q: int, X: int)
    requires Res(Ralt) == Res(l * w) && Res(Q) == Res((px + qx) * (w * w)) && Res(X) == Res(Ralt * Ralt - Q)
    ensures Res(X) == Res(Res(l * l - px - qx) * (w * w))
  {
    hide Res;
    Both(Ralt, l * w, Ralt, l * w);
    Both(Ralt * Ralt, (l * w) * (l * w), Q, (px + qx) * (w * w));
    assert (l * w) * (l * w) == l * l * (w * w);
    assert l * l * (w * w) - (px + qx) * (w * w) == (l * l - px - qx) * (w * w);
    ResIdempotent(l * l - px - qx);
    Replace(Res(l * l - px - qx), l * l - px - qx, w * w);
  }

  lemma UnifiedY(l: int, p: Point, q: Point, w: int, Ralt: int, Q: int, X: int, n: int)
    requires p.Affine? && q.Affine? && Res(l * (q.x - p.x)) == Res(q.y - p.y)
    requires Res(Ralt) == Res(l * w) && Res(Q) == Res((p.x + q.x) * (w * w))
    requires Res(n) == Res((p.y + q.y) * (w * w * w))
    requires Res(X) == Res(ThirdPoint(l, p, q).x * (w * w))
    ensures Res(-4 * (Ralt * (2 * X - Q) + n)) == Res(ThirdPoint(l, p, q).y * ((2 * w) * (2 * w) * (2 * w)))
  {
    Products();
    hide Res;
    var x, y := ThirdPoint(l, p, q).x, ThirdPoint(l, p, q).y;
    Replace(X, x * (w * w), 2);
    Both(2 * X, 2 * (x * (w * w)), Q, (p.x + q.x) * (w * w));
    var d := 2 * x - (p.x + q.x);
    assert 2 * (x * (w * w)) - (p.x + q.x) * (w * w) == d * (w * w);
    Both(Ralt, l * w, 2 * X - Q, d * (w * w));
    Both(Ralt * (2 * X - Q), (l * w) * (d * (w * w)), n, (p.y + q.y) * (w * w * w));
    CollectCubes(l, d, -(p.y + q.y), w);
    assert -(-(p.y + q.y) * (w * w * w)) == (p.y + q.y) * (w * w * w) by { NegativeTimes(p.y + q.y, w * w * w); }
    Replace(Ralt * (2 * X - Q) + n, (l * d + (p.y + q.y)) * (w * w * w), -4);
    // 2y = -(l d + y1 + y2), by the slope
    TwiceY(l, p.x, p.y, q.x, q.y, x);
    Replace(2 * y, -(l * d + (p.y + q.y)), 4 * (w * w * w));
    assert -(l * d + (p.y + q.y)) * (4 * (w * w * w)) == -4 * ((l * d + (p.y + q.y)) * (w * w * w));
    assert 2 * y * (4 * (w * w * w)) == y * ((2 * w) * (2 * w) * (2 * w));
  }

  lemma NegativeTimes(a: int, b: int)
    ensures -a * b == -(a * b)
  {
  }

  lemma TwiceY(l: int, px: int, py: int, qx: int, qy: int, x: int)
    requires Res(l * (qx - px)) == Res(qy - py)
    ensures Res(2 * Res(l * (px - x) - py)) == Res(-(l * (2 * x - (px + qx)) + (py + qy)))
  {
    hide Res;
    var y := l * (px - x) - py;
    ResIdempotent(y);
    Replace(Res(y), y, 2);
    Both(l * (qx - px), qy - py, 2 * y, 2 * y);
    Both(2 * y, 2 * y, l * (qx - px) - (qy - py), 0) by {
      Both(l * (qx - px), qy - py, qy - py, qy - py);
    }
    assert 2 * y + (l * (qx - px) - (qy - py)) == -(l * (2 * x - (px + qx)) + (py + qy)) by {
      assert 2 * (l * (px - x)) + l * (qx - px) == -(l * (2 * x - (px + qx)));
    }
  }

  /** On a curve, (x1 - x2)(x1^2 + x1 x2 + x2^2) = (y1 - y2)(y1 + y2). */
  lemma DifferenceOfCubes(p: Point, q: Point, b: int)
    requires p.Affine? && q.Affine? && OnCurve(p, b) && OnCurve(q, b)
    ensures Res((q.x - p.x) * (p.x * p.x + p.x * q.x + q.x * q.x)) == Res((q.y - p.y) * (p.y + q.y))
  {
    hide Res;
    CurveEquation(p, b);
    CurveEquation(q, b);
    Both(q.y * q.y, q.x * q.x * q.x + b, p.y * p.y, p.x * p.x * p.x + b);
    assert (q.x - p.x) * (p.x * p.x + p.x * q.x + q.x * q.x) == q.x * q.x * q.x - p.x * p.x * p.x by {
      CubesFactor(p.x, q.x);
    }
    assert (q.y - p.y) * (p.y + q.y) == q.y * q.y - p.y * p.y;
  }

  lemma CubesFactor(a: int, b: int)
    ensures (b - a) * (a * a + a * b + b * b) == b * b * b - a * a * a
  {
    assert b * (a * a + a * b + b * b) == a * a * b + a * b * b + b * b * b;
    assert a * (a * a + a * b + b * b) == a * a * a + a * a * b + a * b * b;
  }

  lemma CurveEquation(p: Point, b: int)
    requires p.Affine? && OnCurve(p, b)
    ensures Res(p.y * p.y) == Res(p.x * p.x * p.x + b)
  {
    Products();
    MulRes(p.x * p.x, p.x);
    ResOfSmall(p.x);
    AddRes(p.x * p.x * p.x, b);
    ResIdempotent(p.x * p.x * p.x);
    Replace(Res(p.x * p.x * p.x), p.x * p.x * p.x, b);
  }

  // ------------------------------------------------------------- closure

  /** The curve equation at the third root of the cubic, from the one at p and the divided difference g. */
  lemma ThirdRoot(l: int, px: int, py: int, qx: int, b: int)
    ensures
      var x := l * l - px - qx;
      var y := l * (px - x) - py;
      var g := px * px + px * qx + qx * qx - l * l * (px + qx) - 2 * l * (py - l * px);
      x * x * x + b - y * y == px * px * px + b - py * py + (x - px) * g
  {
    var d := l * l - px - qx - px;
    var x := d + px;
    var v := x * x + x * px + px * px;
    CubesFactor(px, x);
    RootOrdinate(l, d, py);
    RootIdentity(l * l, px, qx);
    RootDivided(l, px, py, qx);
    Factor(d, v, l * l * d + 2 * l * py);
  }

  lemma Factor(d: int, a: int, b: int)
    ensures d * a - d * b == d * (a - b)
  {
  }

  lemma RootOrdinate(l: int, d: int, py: int)
    ensures (l * -d - py) * (l * -d - py) - py * py == d * (l * l * d + 2 * l * py)
  {
    assert l * -d == -(l * d);
    assert (l * d + py) * (l * d + py) == (l * d) * (l * d) + 2 * (l * d * py) + py * py;
    assert d * (l * l * d) == (l * d) * (l * d) && d * (2 * l * py) == 2 * (l * d * py);
  }

  lemma RootDivided(l: int, px: int, py: int, qx: int)
    ensures 2 * l * (py - l * px) == 2 * l * py - 2 * (l * l) * px
  {
  }

  lemma RootIdentity(m: int, px: int, qx: int)
    ensures var x, d := m - px - qx, m - px - qx - px;
      x * x + x * px + px * px - m * d == px * px + px * qx + qx * qx - m * (px + qx) + 2 * m * px
  {
    var x := m - px - qx;
    assert x * x + x * px == x * (m - qx);
    assert x * (m - qx) == m * m - m * px - 2 * (m * qx) + px * qx + qx * qx;
  }

  /** The sum of two points of a curve is a point of that curve. */
  lemma SumIsOnCurve(p: Point, q: Point, b: int)
    requires OnCurve(p, b) && OnCurve(q, b)
    ensures OnCurve(AddPoints(p, q), b)
  {
    var r := AddPoints(p, q);
    if p.Affine? && q.Affine? && r.Affine? {
      var l := SlopeExists(p, q);
      DividedDifference(l, p, q, b);
      ThirdPointOnCurve(l, p, q, b);
    }
  }

  /** Whenever the sum is finite it lies on a line of some slope, the same for p + q and q + p. */
  lemma SlopeExists(p: Point, q: Point) returns (l: int)
    requires p.Affine? && q.Affine? && InRange(p) && InRange(q) && AddPoints(p, q).Affine?
    ensures Slope(l, p, q) && Res(l * (q.x - p.x)) == Res(q.y - p.y)
    ensures AddPoints(p, q) == ThirdPoint(l, p, q)
  {
    hide Inv, Mul, Slope, Res, ThirdPoint, MulP;
    DifferenceOfResidues(q.x, p.x);
    TwiceIsZero(p.y);
    if p.x != q.x {
      l := MulP(q.y - p.y, Inv(q.x - p.x));
      QuotientTimesDivisor(q.y - p.y, q.x - p.x);
    } else {
      l := MulP(3 * p.x * p.x, Inv(2 * p.y));
      QuotientTimesDivisor(3 * p.x * p.x, 2 * p.y);
    }
    SlopeForm(l, p, q);
    SlopeGivesSum(l, p, q);
    if p.x == q.x { assert l * (q.x - p.x) == 0 && q.y - p.y == 0; }
  }

  lemma DividedDifference(l: int, p: Point, q: Point, b: int)
    requires p.Affine? && q.Affine? && OnCurve(p, b) && OnCurve(q, b) && Slope(l, p, q)
    ensures Res(p.x * p.x + p.x * q.x + q.x * q.x - l * l * (p.x + q.x) - 2 * l * (p.y - l * p.x)) == 0
  {
    hide Res, Mul, Slope;
    SlopeForm(l, p, q);
    var s := p.x * p.x + p.x * q.x + q.x * q.x;
    var m := l * l * (p.x + q.x) + 2 * l * (p.y - l * p.x);
    ResOfSmall(0);
    if p.x != q.x {
      DifferenceOfResidues(q.x, p.x);
      DifferenceOfCubes(p, q, b);
      ChordDivided(l, p, q, s, m);
    } else {
      TangentMultiple(l, p.x, p.y);
      assert s == 3 * p.x * p.x && m == l * (2 * p.y);
    }
    Both(s, m, m, m);
  }

  lemma ChordDivided(l: int, p: Point, q: Point, s: int, m: int)
    requires p.Affine? && q.Affine? && Res(q.x - p.x) != 0 && Res(l * (q.x - p.x)) == Res(q.y - p.y)
    requires m == l * l * (p.x + q.x) + 2 * l * (p.y - l * p.x)
    requires Res((q.x - p.x) * s) == Res((q.y - p.y) * (p.y + q.y))
    ensures Res(s) == Res(m)
  {
    hide Res;
    var e := l * (q.x - p.x);
    Replace(e, q.y - p.y, 2 * p.y);
    Both(e, q.y - p.y, e + 2 * p.y, q.y - p.y + 2 * p.y);
    ChordMultiple(l, p.x, p.y, q.x);
    assert (q.x - p.x) * s == s * (q.x - p.x);
    assert q.y - p.y + 2 * p.y == p.y + q.y;
    Cancel(s, m, q.x - p.x);
  }

  lemma TangentMultiple(l: int, x: int, y: int)
    ensures l * l * (x + x) + 2 * l * (y - l * x) == l * (2 * y)
  {
    assert 2 * l * (y - l * x) == 2 * l * y - 2 * (l * l * x);
  }

  lemma ChordMultiple(l: int, px: int, py: int, qx: int)
    ensures (l * (qx - px)) * (l * (qx - px) + 2 * py) == (l * l * (px + qx) + 2 * l * (py - l * px)) * (qx - px)
  {
    var d := qx - px;
    assert l * l * (px + qx) + 2 * l * (py - l * px) == l * (l * d + 2 * py) by {
      assert l * (l * d) == l * l * d;
      assert 2 * l * (py - l * px) == l * (2 * py) - 2 * (l * l * px);
    }
    assert (l * d) * (l * d + 2 * py) == l * (l * d + 2 * py) * d;
  }

  lemma ThirdPointOnCurve(l: int, p: Point, q: Point, b: int)
    requires p.Affine? && q.Affine? && OnCurve(p, b)
    requires Res(p.x * p.x + p.x * q.x + q.x * q.x - l * l * (p.x + q.x) - 2 * l * (p.y - l * p.x)) == 0
    ensures OnCurve(ThirdPoint(l, p, q), b)
  {
    Products();
    hide Res;
    var r := ThirdPoint(l, p, q);
    var x := l * l - p.x - q.x;
    var y := l * (p.x - x) - p.y;
    CurveEquation(p, b);
    RootOnCurve(l, p.x, p.y, q.x, b);
    ResIdempotent(x);
    ResIdempotent(l * (p.x - r.x) - p.y);
    Both(p.x, p.x, r.x, x);
    Replace(p.x - r.x, p.x - x, l);
    Replace(l * (p.x - r.x), l * (p.x - x), p.y);
    EquationOfResidues(r, x, y, b);
  }

  lemma RootOnCurve(l: int, px: int, py: int, qx: int, b: int)
    requires Res(py * py) == Res(px * px * px + b)
    requires Res(px * px + px * qx + qx * qx - l * l * (px + qx) - 2 * l * (py - l * px)) == 0
    ensures var x := l * l - px - qx; var y := l * (px - x) - py; Res(x * x * x + b) == Res(y * y)
  {
    hide Res;
    var x := l * l - px - qx;
    var y := l * (px - x) - py;
    var g := px * px + px * qx + qx * qx - l * l * (px + qx) - 2 * l * (py - l * px);
    ResOfSmall(0);
    Both(px * px * px + b, py * py, py * py, py * py);
    Replace(g, 0, x - px);
    Both(px * px * px + b - py * py, 0, (x - px) * g, 0);
    ThirdRoot(l, px, py, qx, b);
    Both(x * x * x + b - y * y, 0, y * y, y * y);
  }

  lemma EquationOfResidues(r: Point, x: int, y: int, b: int)
    requires r.Affine? && InRange(r) && Res(r.x) == Res(x) && Res(r.y) == Res(y) && Res(x * x * x + b) == Res(y * y)
    ensures OnCurve(r, b)
  {
    Products();
    hide Res;
    Both(r.x, x, r.x, x);
    Both(r.x * r.x, x * x, r.x, x);
    Both(r.y, y, r.y, y);
    Replace(r.x * r.x * r.x, x * x * x, b);
    MulRes(r.x * r.x, r.x);
    ResOfSmall(r.x);
    ResIdempotent(r.x * r.x * r.x);
    Replace(Res(r.x * r.x * r.x), r.x * r.x * r.x, b);
  }

  // ------------------------------------------------------------- the isomorphism (x, y) -> (x u^2, y u^3)

  function Scale(u: int, p: Point): Point {
    if p.Infinity? then p else Affine(Res(Mul(p.x, Mul(u, u))), Res(Mul(p.y, Mul(Mul(u, u), u))))
  }

  lemma ScaleForm(u: int, p: Point)
    requires p.Affine?
    ensures Scale(u, p) == Affine(Res(p.x * (u * u)), Res(p.y * (u * u * u)))
  {
    hide Res, Mul;
    MulIsProduct(u, u);
    MulIsProduct(u * u, u);
    MulIsProduct(p.x, u * u);
    MulIsProduct(p.y, u * u * u);
  }

  lemma ScaledCoordinatesAgree(a: int, b: int, c: int)
    requires IsResidue(a) && IsResidue(b) && Res(c) != 0
    ensures Res(a * c) == Res(b * c) <==> a == b
  {
    if Res(a * c) == Res(b * c) {
      Cancel(a, b, c);
      ResOfSmall(a);
      ResOfSmall(b);
    }
  }

  /** Scaling commutes with the group law, whatever the curve: the law does not mention b. */
  lemma ScaleOfSum(u: int, p: Point, q: Point)
    requires Res(u) != 0 && InRange(p) && InRange(q)
    ensures Scale(u, AddPoints(p, q)) == AddPoints(Scale(u, p), Scale(u, q))
  {
    Products();
    if p.Affine? && q.Affine? {
      hide Inv;
      var p', q' := Scale(u, p), Scale(u, q);
      ProductIsNonzero(u, u);
      ProductIsNonzero(u * u, u);
      ScaledCoordinatesAgree(p.x, q.x, u * u);
      ScaledCoordinatesAgree(p.y, q.y, u * u * u);
      ScaledCoordinatesAgree(p.y, 0, u * u * u);
      assert 0 * (u * u * u) == 0;
      ResOfSmall(0);
      ResIdempotent(p.x * (u * u));
      ResIdempotent(p.y * (u * u * u));
      ResIdempotent(q.x * (u * u));
      if AddPoints(p, q).Affine? {
        var l := SlopeExists(p, q);
        ScaledSlope(u, l, p, q);
        SlopeGivesSum(l * u, p', q');
        ScaledThirdPoint(u, l, p, q);
      }
    }
  }

  lemma ScaledSlope(u: int, l: int, p: Point, q: Point)
    requires p.Affine? && q.Affine? && InRange(p) && InRange(q) && Res(u) != 0 && Slope(l, p, q)
    requires Scale(u, p).x == Scale(u, q).x <==> p.x == q.x
    requires p.y != 0 ==> Scale(u, p).y != 0
    ensures Slope(l * u, Scale(u, p), Scale(u, q))
  {
    hide Res, Mul, Slope, Scale;
    var p', q' := Scale(u, p), Scale(u, q);
    ScaleForm(u, p);
    ScaleForm(u, q);
    SlopeForm(l, p, q);
    SlopeForm(l * u, p', q');
    ResIdempotent(p.x * (u * u)); ResIdempotent(q.x * (u * u));
    ResIdempotent(p.y * (u * u * u)); ResIdempotent(q.y * (u * u * u));
    if p.x != q.x {
      Both(q'.x, q.x * (u * u), p'.x, p.x * (u * u));
      Both(q'.y, q.y * (u * u * u), p'.y, p.y * (u * u * u));
      Replace(q'.x - p'.x, q.x * (u * u) - p.x * (u * u), l * u);
      Replace(l * (q.x - p.x), q.y - p.y, u * u * u);
      ScaledChord(u, l, p.x, p.y, q.x, q.y);
    } else {
      Replace(p'.y, p.y * (u * u * u), l * u * 2);
      Both(p'.x, p.x * (u * u), p'.x, p.x * (u * u));
      Replace(p'.x * p'.x, p.x * (u * u) * (p.x * (u * u)), 3);
      Replace(l * (2 * p.y), 3 * p.x * p.x, (u * u) * (u * u));
      ScaledTangent(u, l, p.x, p.y, p'.x, p'.y);
    }
  }

  lemma ScaledChord(u: int, l: int, px: int, py: int, qx: int, qy: int)
    ensures (l * u) * (qx * (u * u) - px * (u * u)) == l * (qx - px) * (u * u * u)
    ensures (qy - py) * (u * u * u) == qy * (u * u * u) - py * (u * u * u)
  {
    assert qx * (u * u) - px * (u * u) == (qx - px) * (u * u);
  }

  lemma ScaledTangent(u: int, l: int, x: int, y: int, x': int, y': int)
    ensures (l * u * 2) * (y * (u * u * u)) == l * (2 * y) * ((u * u) * (u * u)) && (l * u * 2) * y' == l * u * (2 * y')
    ensures 3 * (x * (u * u) * (x * (u * u))) == 3 * x * x * ((u * u) * (u * u)) && 3 * (x' * x') == 3 * x' * x'
  {
    assert u * (u * u * u) == (u * u) * (u * u);
  }

  lemma ScaledThirdPoint(u: int, l: int, p: Point, q: Point)
    requires p.Affine? && q.Affine?
    ensures ThirdPoint(l * u, Scale(u, p), Scale(u, q)) == Scale(u, ThirdPoint(l, p, q))
  {
    hide Res, Mul, Scale, ThirdPoint;
    var p', q', r := Scale(u, p), Scale(u, q), ThirdPoint(l, p, q);
    ScaleForm(u, p); ScaleForm(u, q); ScaleForm(u, r);
    ThirdPointForm(l, p, q);
    ThirdPointForm(l * u, p', q');
    var uu := u * u;
    ResIdempotent(p.x * uu); ResIdempotent(q.x * uu); ResIdempotent(p.y * (u * u * u));
    Both((l * u) * (l * u), (l * u) * (l * u), p'.x, p.x * uu);
    Both((l * u) * (l * u) - p'.x, (l * u) * (l * u) - p.x * uu, q'.x, q.x * uu);
    ResIdempotent(l * l - p.x - q.x);
    Replace(r.x, l * l - p.x - q.x, uu);
    ScaledAbscissa(u, l, p.x, q.x);
    var x' := Res((l * u) * (l * u) - p'.x - q'.x);
    ResIdempotent((l * u) * (l * u) - p'.x - q'.x);
    assert x' == Res(r.x * uu);
    Both(p'.x, p.x * uu, x', r.x * uu);
    Replace(p'.x - x', p.x * uu - r.x * uu, l * u);
    Both((l * u) * (p'.x - x'), (l * u) * (p.x * uu - r.x * uu), p'.y, p.y * (u * u * u));
    ResIdempotent(l * (p.x - r.x) - p.y);
    Replace(r.y, l * (p.x - r.x) - p.y, u * u * u);
    ScaledOrdinate(u, l, p.x - r.x, p.y);
    assert p.x * uu - r.x * uu == (p.x - r.x) * uu;
  }

  lemma ScaledAbscissa(u: int, l: int, px: int, qx: int)
    ensures (l * u) * (l * u) - px * (u * u) - qx * (u * u) == (l * l - px - qx) * (u * u)
  {
    assert (l * u) * (l * u) == l * l * (u * u);
  }

  lemma ScaledOrdinate(u: int, l: int, d: int, py: int)
    ensures (l * u) * (d * (u * u)) - py * (u * u * u) == (l * d - py) * (u * u * u)
  {
    assert (l * u) * (d * (u * u)) == (l * d) * (u * u * u);
  }
}
