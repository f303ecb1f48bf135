/** The chord-and-tangent law is associative. Three points add up to nothing when a line meets the curve in just them; the
    coefficients of the cubic say so with multiplicity, so that chords and tangents need not be told apart. */
module Associativity {
  import opened NumberTheory
  import opened Params
  import opened FieldElement
  import opened Curve
  import opened Jacobian
  import opened GroupTables

  // ------------------------------------------------------------- multiples of P

  ghost predicate Zero(e: int) {
    Res(e) == 0
  }

  lemma ZeroIntro(e: int)
    requires Res(e) == 0
    ensures Zero(e)
  {
  }

  lemma ZeroIsCong(e: int)
    ensures Zero(e) <==> Cong(e, 0, P)
  {
    ResOfSmall(0);
    ResIsCong(e, 0);
  }

  lemma Combine1(g: int, c: int, e: int)
    requires Zero(e) && g == c * e
    ensures Zero(g)
  {
    hide Res, Zero;
    ZeroIsCong(e); ZeroIsCong(g);
    CongMul(c, c, e, 0, P);
  }

  lemma Combine2(g: int, c1: int, e1: int, c2: int, e2: int)
    requires Zero(e1) && Zero(e2) && g == c1 * e1 + c2 * e2
    ensures Zero(g)
  {
    hide Zero;
    Combine1(c1 * e1, c1, e1); Combine1(c2 * e2, c2, e2);
    ZeroIsCong(c1 * e1); ZeroIsCong(c2 * e2); ZeroIsCong(g);
    CongAdd(c1 * e1, 0, c2 * e2, 0, P);
  }

  lemma Combine3(g: int, c1: int, e1: int, c2: int, e2: int, c3: int, e3: int)
    requires Zero(e1) && Zero(e2) && Zero(e3) && g == c1 * e1 + c2 * e2 + c3 * e3
    ensures Zero(g)
  {
    hide Zero;
    Combine2(c1 * e1 + c2 * e2, c1, e1, c2, e2);
    Combine2(g, 1, c1 * e1 + c2 * e2, c3, e3);
  }

  /** A field has no zero divisors. */
  lemma ZeroProduct(a: int, b: int)
    requires Zero(a * b)
    ensures Zero(a) || Zero(b)
  {
    if !Zero(a) && !Zero(b) { ProductIsNonzero(a, b); }
  }

  lemma ZeroDifference(a: int, b: int)
    requires IsResidue(a) && IsResidue(b)
    ensures Zero(a - b) <==> a == b
  {
    DifferenceOfResidues(a, b);
  }

  // ------------------------------------------------------------- lines

  /** x^3 + 7 - (s x + m)^2 is (x - a)(x - b)(x - c), by its coefficients. */
  ghost predicate Cubic(s: int, m: int, a: int, b: int, c: int) {
    Zero(Mul(s, s) - a - b - c) && Zero(2 * Mul(s, m) + Mul(a, b) + Mul(b, c) + Mul(c, a))
    && Zero(Mul(m, m) - 7 - Mul(Mul(a, b), c))
  }

  lemma CubicForm(s: int, m: int, a: int, b: int, c: int)
    ensures Cubic(s, m, a, b, c) <==>
      Zero(s * s - a - b - c) && Zero(2 * s * m + a * b + b * c + c * a) && Zero(m * m - 7 - a * b * c)
  {
    hide Zero, Mul;
    MulIsProduct(s, s); MulIsProduct(s, m); MulIsProduct(a, b); MulIsProduct(b, c); MulIsProduct(c, a);
    MulIsProduct(m, m); MulIsProduct(a * b, c);
    assert 2 * (s * m) == 2 * s * m;
  }

  ghost predicate Through(s: int, m: int, p: Point) {
    p.Affine? && Zero(Mul(s, p.x) + m - p.y)
  }

  lemma ThroughForm(s: int, m: int, p: Point)
    requires p.Affine?
    ensures Through(s, m, p) <==> Zero(s * p.x + m - p.y)
  {
    hide Zero, Mul;
    MulIsProduct(s, p.x);
  }

  /** The line y = s x + m meets the curve in the three points. */
  ghost predicate Line(s: int, m: int, p: Point, q: Point, r: Point) {
    Through(s, m, p) && Through(s, m, q) && Through(s, m, r) && Cubic(s, m, p.x, q.x, r.x)
  }

  lemma Permuted(s: int, m: int, p: Point, q: Point, r: Point)
    requires Line(s, m, p, q, r)
    ensures Line(s, m, q, p, r) && Line(s, m, q, r, p) && Line(s, m, r, p, q)
  {
    hide Zero, Cubic;
    CubicPermuted(s, m, p.x, q.x, r.x);
  }

  lemma CubicPermuted(s: int, m: int, a: int, b: int, c: int)
    requires Cubic(s, m, a, b, c)
    ensures Cubic(s, m, b, a, c) && Cubic(s, m, b, c, a) && Cubic(s, m, c, a, b)
  {
    hide Cubic, Zero, Mul;
    CubicForm(s, m, a, b, c); CubicForm(s, m, b, a, c); CubicForm(s, m, b, c, a); CubicForm(s, m, c, a, b);
    SymmetricProducts(a, b, c);
    assert s * s - a - b - c == s * s - b - a - c == s * s - b - c - a == s * s - c - a - b;
  }

  lemma SymmetricProducts(a: int, b: int, c: int)
    ensures a * b * c == b * a * c == b * c * a == c * a * b
    ensures a * b + b * c + c * a == b * a + a * c + c * b == b * c + c * a + a * b == c * a + a * b + b * c
  {
  }

  /** The mirror image. */
  lemma Mirrored(s: int, m: int, p: Point, q: Point, r: Point)
    requires Line(s, m, p, q, r)
    ensures Line(-s, -m, Negate(p), Negate(q), Negate(r))
  {
    hide Zero, Cubic;
    ThroughMirrored(s, m, p); ThroughMirrored(s, m, q); ThroughMirrored(s, m, r);
    CubicMirrored(s, m, p.x, q.x, r.x);
  }

  lemma CubicMirrored(s: int, m: int, a: int, b: int, c: int)
    requires Cubic(s, m, a, b, c)
    ensures Cubic(-s, -m, a, b, c)
  {
    hide Cubic, Zero, Mul;
    CubicForm(s, m, a, b, c); CubicForm(-s, -m, a, b, c);
    assert (-s) * (-s) == s * s && 2 * (-s) * (-m) == 2 * s * m && (-m) * (-m) == m * m;
  }

  lemma ThroughMirrored(s: int, m: int, p: Point)
    requires Through(s, m, p)
    ensures Through(-s, -m, Negate(p))
  {
    hide Zero, Mul;
    ThroughForm(s, m, p); ThroughForm(-s, -m, Negate(p));
    NegateIsZeroSum(p.y);
    Combine2(-s * p.x - m - SubP(0, p.y), -1, s * p.x + m - p.y, -1, SubP(0, p.y) + p.y);
  }

  lemma NegateIsZeroSum(y: int)
    ensures Zero(SubP(0, y) + y)
  {
    hide Res;
    ResIdempotent(0 - y);
    Replace(SubP(0, y), 0 - y, y);
    ResOfSmall(0);
  }

  // ------------------------------------------------------------- lines and sums

  /** If p + q is finite, a line meets the curve in p, q and -(p + q). */
  lemma SumGivesLine(p: Point, q: Point) returns (s: int, m: int)
    requires OnCurve(p, 7) && OnCurve(q, 7) && p.Affine? && q.Affine? && AddPoints(p, q).Affine?
    ensures Line(s, m, p, q, Negate(AddPoints(p, q)))
  {
    hide AddPoints, Zero, Slope, Res, ThirdPoint, Cubic, OnCurve, Mul;
    CurvePointInRange(p, 7); CurvePointInRange(q, 7);
    s := SlopeExists(p, q);
    m := p.y - s * p.x;
    var r := AddPoints(p, q);
    DividedDifference(s, p, q, 7);
    ThirdPointForm(s, p, q);
    SlopeThrough(s, m, p, q);
    ThirdThrough(s, m, p, q);
    CurveEquation(p, 7);
    CubicOfSlope(s, m, p.x, p.y, q.x, r.x);
  }

  lemma SlopeThrough(s: int, m: int, p: Point, q: Point)
    requires p.Affine? && q.Affine? && m == p.y - s * p.x && Res(s * (q.x - p.x)) == Res(q.y - p.y)
    ensures Through(s, m, p) && Through(s, m, q)
  {
    hide Res, Mul;
    ThroughForm(s, m, p); ThroughForm(s, m, q);
    ResOfSmall(0);
    Both(s * (q.x - p.x), q.y - p.y, q.y - p.y, q.y - p.y);
    assert s * q.x + m - q.y == s * (q.x - p.x) - (q.y - p.y);
  }

  lemma ThirdThrough(s: int, m: int, p: Point, q: Point)
    requires p.Affine? && q.Affine? && m == p.y - s * p.x
    ensures Through(s, m, Negate(ThirdPoint(s, p, q))) && Zero(s * s - p.x - q.x - ThirdPoint(s, p, q).x)
  {
    hide Res, ThirdPoint, Zero, Mul;
    ThroughForm(s, m, Negate(ThirdPoint(s, p, q)));
    ThirdPointForm(s, p, q);
    var r := ThirdPoint(s, p, q);
    ResidueIsCongruent(s * s - p.x - q.x);
    ResidueIsCongruent(s * (p.x - r.x) - p.y);
    NegateIsZeroSum(r.y);
    Combine2(s * r.x + m - SubP(0, r.y), -1, SubP(0, r.y) + r.y, -1, s * (p.x - r.x) - p.y - r.y);
  }

  lemma ResidueIsCongruent(e: int)
    ensures Zero(e - Res(e))
  {
    hide Res;
    ResIdempotent(e);
    Replace(e, Res(e), Res(e));
    ResOfSmall(0);
  }

  lemma CubicOfSlope(s: int, m: int, a: int, y: int, b: int, c: int)
    requires m == y - s * a && Zero(s * s - a - b - c) && Res(y * y) == Res(a * a * a + 7)
    requires Res(a * a + a * b + b * b - s * s * (a + b) - 2 * s * m) == 0
    ensures Cubic(s, m, a, b, c)
  {
    hide Cubic, Res, Zero, Mul;
    CubicForm(s, m, a, b, c);
    var e1, d := s * s - a - b - c, a * a + a * b + b * b - s * s * (a + b) - 2 * s * m;
    Replace(y * y, a * a * a + 7, a * a * a + 7);
    ResOfSmall(0);
    ZeroIntro(d); ZeroIntro(y * y - (a * a * a + 7));
    var e2 := 2 * s * m + a * b + b * c + c * a;
    SecondCoefficient(s, m, a, b, c);
    Combine2(e2, -1, d, -(a + b), e1);
    ThirdCoefficient(s, m, a, b, c);
    assert y == s * a + m;
    Combine3(m * m - 7 - a * b * c, 1, y * y - (a * a * a + 7), -a, e2, -a * a, e1);
  }

  lemma SecondCoefficient(s: int, m: int, a: int, b: int, c: int)
    ensures 2 * s * m + a * b + b * c + c * a
         == -1 * (a * a + a * b + b * b - s * s * (a + b) - 2 * s * m) + -(a + b) * (s * s - a - b - c)
  {
  }

  lemma ThirdCoefficient(s: int, m: int, a: int, b: int, c: int)
    ensures m * m - 7 - a * b * c
         == 1 * ((s * a + m) * (s * a + m) - (a * a * a + 7)) + -a * (2 * s * m + a * b + b * c + c * a)
          + -a * a * (s * s - a - b - c)
  {
  }

  lemma ZeroGivesRes(a: int, b: int)
    requires Zero(a - b)
    ensures Res(a) == Res(b)
  {
    hide Res;
    ResOfSmall(0);
    Replace(a - b, 0, b);
  }

  lemma NegateTwice(p: Point)
    requires InRange(p)
    ensures Negate(Negate(p)) == p && InRange(Negate(p))
  {
    if p.Affine? {
      hide Res;
      ResIdempotent(0 - p.y);
      ResIdempotent(0 - SubP(0, p.y));
      Replace(SubP(0, p.y), 0 - p.y, 0);
      assert 0 - (0 - p.y) == p.y;
    }
  }

  /** Conversely, such a line tells the sum. */
  lemma LineGivesSum(s: int, m: int, p: Point, q: Point, r: Point)
    requires OnCurve(p, 7) && OnCurve(q, 7) && OnCurve(r, 7) && Line(s, m, p, q, r)
    ensures AddPoints(p, q) == Negate(r) && AddPoints(p, q).Affine?
  {
    hide AddPoints, Zero, Slope, Res, ThirdPoint, OnCurve, Mul;
    CurvePointInRange(p, 7); CurvePointInRange(q, 7); CurvePointInRange(r, 7);
    LineIsSlope(s, m, p, q, r);
    SlopeGivesSum(s, p, q);
    ThirdOnLine(s, m, p, q, r);
  }

  lemma LineIsSlope(s: int, m: int, p: Point, q: Point, r: Point)
    requires OnCurve(p, 7) && OnCurve(q, 7) && Line(s, m, p, q, r)
    ensures Slope(s, p, q)
  {
    hide Cubic, Zero, Res, OnCurve, Slope, Mul;
    ThroughForm(s, m, p); ThroughForm(s, m, q);
    hide Through;
    CurvePointInRange(p, 7); CurvePointInRange(q, 7);
    var a, y, t, t' := p.x, p.y, s * p.x + m - p.y, s * q.x + m - q.y;
    SlopeForm(s, p, q);
    if p.x != q.x {
      Combine2(s * (q.x - a) - (q.y - y), 1, t', -1, t);
      ZeroGivesRes(s * (q.x - a), q.y - y);
    } else {
      Combine2(q.y - y, 1, t, -1, t');
      ZeroDifference(q.y, y);
      OrdinateIsNonzero(p);
      TangentOfCubic(s, m, a, r.x);
      Combine2(s * (2 * y) - 3 * a * a, 1, 2 * s * (s * a + m) - 3 * a * a, -2 * s, t);
      ZeroGivesRes(s * (2 * y), 3 * a * a);
    }
  }

  /** At a double root, the derivatives agree. */
  lemma TangentOfCubic(s: int, m: int, a: int, c: int)
    requires Cubic(s, m, a, a, c)
    ensures Zero(2 * s * (s * a + m) - 3 * a * a)
  {
    hide Cubic, Zero, Mul;
    CubicForm(s, m, a, a, c);
    TangentIdentity(s, m, a, c);
    Combine2(2 * s * (s * a + m) - 3 * a * a, 2 * a, s * s - a - a - c, 1, 2 * s * m + a * a + a * c + c * a);
  }

  lemma TangentIdentity(s: int, m: int, a: int, c: int)
    ensures 2 * s * (s * a + m) - 3 * a * a == 2 * a * (s * s - a - a - c) + 1 * (2 * s * m + a * a + a * c + c * a)
  {
  }

  lemma ThirdOnLine(s: int, m: int, p: Point, q: Point, r: Point)
    requires Line(s, m, p, q, r) && InRange(r)
    ensures ThirdPoint(s, p, q) == Negate(r)
  {
    hide Cubic, Zero, Res, ThirdPoint, Mul;
    CubicForm(s, m, p.x, q.x, r.x);
    ThroughForm(s, m, p); ThroughForm(s, m, r); ThroughForm(s, p.y - s * p.x, Negate(ThirdPoint(s, p, q)));
    hide Through;
    var m', r3 := p.y - s * p.x, ThirdPoint(s, p, q);
    ThirdThrough(s, m', p, q);
    ThirdInRange(s, p, q);
    NegateTwice(r3); NegateTwice(r);
    Combine2(r3.x - r.x, 1, s * s - p.x - q.x - r.x, -1, s * s - p.x - q.x - r3.x);
    ZeroDifference(r3.x, r.x);
    var y := Negate(r3).y;
    Combine3(y - r.y, 1, s * r.x + m - r.y, -1, s * r3.x + m' - y, -1, s * p.x + m - p.y);
    ZeroDifference(y, r.y);
    assert Negate(r3) == r;
  }

  lemma ThirdInRange(s: int, p: Point, q: Point)
    requires p.Affine? && q.Affine?
    ensures InRange(ThirdPoint(s, p, q))
  {
    ThirdPointForm(s, p, q);
    hide Res, ThirdPoint;
    ResIdempotent(s * s - p.x - q.x);
    ResIdempotent(s * (p.x - ThirdPoint(s, p, q).x) - p.y);
  }

  // ------------------------------------------------------------- exchanging two of four points

  /** A line through a, b, t and one through c, d and the opposite of t. Both together meet the curve where the function
      x^2 + alpha x + beta - g y vanishes: at a, b, c and d. */
  datatype Pair = Pair(s: int, m: int, s1: int, m1: int, a: int, b: int, c: int, d: int, t: int) {
    function G(): int { s + s1 }
    function Alpha(): int { G() * s - a - b }
    function Beta(): int { G() * m + a * b }

    ghost predicate Valid() {
      Cubic(s, m, a, b, t) && Cubic(s1, m1, c, d, t) && Zero(Mul(G(), t) + m + m1)
    }

    /** It vanishes at a point of abscissa x and ordinate y. */
    ghost predicate Vanishes(x: int, y: int) {
      Zero(x * x + Alpha() * x + Beta() - G() * y)
    }
  }

  lemma PairForm(f: Pair)
    ensures f.Valid() <==>
      Cubic(f.s, f.m, f.a, f.b, f.t) && Cubic(f.s1, f.m1, f.c, f.d, f.t) && Zero(f.G() * f.t + f.m + f.m1)
  {
    hide Zero, Mul, Cubic, Pair.G;
    MulIsProduct(f.G(), f.t);
  }

  /** On the second line, the function is (x - c)(x - d). */
  lemma OnSecondLine(f: Pair)
    requires f.Valid()
    ensures Zero(f.Alpha() - f.G() * f.s1 + f.c + f.d) && Zero(f.Beta() - f.G() * f.m1 - f.c * f.d)
  {
    hide Zero, Mul;
    PairForm(f);
    hide Pair.Valid;
    SecondLine(f.s, f.m, f.s1, f.m1, f.a, f.b, f.c, f.d, f.t);
  }

  lemma SecondLine(s: int, m: int, s1: int, m1: int, a: int, b: int, c: int, d: int, t: int)
    requires Cubic(s, m, a, b, t) && Cubic(s1, m1, c, d, t) && Zero((s + s1) * t + m + m1)
    ensures Zero((s + s1) * s - a - b - (s + s1) * s1 + c + d) && Zero((s + s1) * m + a * b - (s + s1) * m1 - c * d)
  {
    hide Cubic, Zero, Mul;
    CubicForm(s, m, a, b, t); CubicForm(s1, m1, c, d, t);
    var e1, e1' := s * s - a - b - t, s1 * s1 - c - d - t;
    assert (s + s1) * s - a - b - (s + s1) * s1 + c + d == 1 * e1 + -1 * e1';
    Combine2((s + s1) * s - a - b - (s + s1) * s1 + c + d, 1, e1, -1, e1');
    var e2, e2' := 2 * s * m + a * b + b * t + t * a, 2 * s1 * m1 + c * d + d * t + t * c;
    SecondLineAlgebra(s, m, s1, m1, a, b, c, d, t);
    Combine2(e2 - e2', 1, e2, -1, e2');
    Combine2(e1 - e1', 1, e1, -1, e1');
    Combine3((s + s1) * m + a * b - (s + s1) * m1 - c * d, 1, e2 - e2', t, e1 - e1', -(s - s1), (s + s1) * t + m + m1);
  }

  lemma SecondLineAlgebra(s: int, m: int, s1: int, m1: int, a: int, b: int, c: int, d: int, t: int)
    ensures (s + s1) * m + a * b - (s + s1) * m1 - c * d
         == 1 * ((2 * s * m + a * b + b * t + t * a) - (2 * s1 * m1 + c * d + d * t + t * c))
          + t * ((s * s - a - b - t) - (s1 * s1 - c - d - t)) + -(s - s1) * ((s + s1) * t + m + m1)
  {
    var g, h := s + s1, s - s1;
    assert (s + s1) * m + a * b - (s + s1) * m1 - c * d == s * m + s1 * m - s * m1 - s1 * m1 + a * b - c * d;
    assert -h * (g * t + m + m1) == -(h * (g * t)) - s * m + s1 * m - s * m1 + s1 * m1;
    assert h * (g * t) == t * (s * s - s1 * s1);
    assert t * ((s * s - a - b - t) - (s1 * s1 - c - d - t)) == t * (s * s - s1 * s1) - t * a - t * b + t * c + t * d;
  }

  lemma VanishesOnFirst(f: Pair, y: int, z: int)
    requires Zero(f.s * f.a + f.m - y) && Zero(f.s * f.b + f.m - z)
    ensures f.Vanishes(f.a, y) && f.Vanishes(f.b, z)
  {
    hide Zero;
    var g := f.G();
    FirstLineAlgebra(g, f.s, f.m, f.a, f.b, y);
    FirstLineAlgebra(g, f.s, f.m, f.b, f.a, z);
    assert f.a * f.b == f.b * f.a;
    Combine1(f.a * f.a + f.Alpha() * f.a + f.Beta() - g * y, g, f.s * f.a + f.m - y);
    Combine1(f.b * f.b + f.Alpha() * f.b + f.Beta() - g * z, g, f.s * f.b + f.m - z);
  }

  lemma FirstLineAlgebra(g: int, s: int, m: int, a: int, b: int, y: int)
    ensures a * a + (g * s - a - b) * a + (g * m + a * b) - g * y == g * (s * a + m - y)
  {
  }

  lemma VanishesOnSecond(f: Pair, y: int, z: int)
    requires f.Valid() && Zero(f.s1 * f.c + f.m1 - y) && Zero(f.s1 * f.d + f.m1 - z)
    ensures f.Vanishes(f.c, y) && f.Vanishes(f.d, z)
  {
    hide Zero, Pair.Alpha, Pair.Beta, Mul;
    PairForm(f);
    hide Pair.Valid;
    OnSecondLine(f);
    SecondLineVanishes(f.G(), f.Alpha(), f.Beta(), f.s1, f.m1, f.c, f.d, y);
    SecondLineVanishes(f.G(), f.Alpha(), f.Beta(), f.s1, f.m1, f.d, f.c, z);
  }

  lemma SecondLineVanishes(g: int, alpha: int, beta: int, s1: int, m1: int, c: int, d: int, y: int)
    requires Zero(s1 * c + m1 - y)
    requires Zero(alpha - g * s1 + c + d) && (Zero(beta - g * m1 - c * d) || Zero(beta - g * m1 - d * c))
    ensures Zero(c * c + alpha * c + beta - g * y)
  {
    hide Zero;
    var e, e' := alpha - g * s1 + c + d, beta - g * m1 - c * d;
    assert c * d == d * c;
    assert c * c + alpha * c + beta - g * y == c * e + 1 * e' + g * (s1 * c + m1 - y);
    Combine3(c * c + alpha * c + beta - g * y, c, e, 1, e', g, s1 * c + m1 - y);
  }

  /** Two different roots: on a third line through b and c, the function is (x - b)(x - c). */
  lemma TwoRoots(g: int, alpha: int, beta: int, u: int, n: int, b: int, c: int, y: int, z: int)
    requires Zero(u * b + n - y) && Zero(u * c + n - z) && !Zero(b - c)
    requires Zero(b * b + alpha * b + beta - g * y) && Zero(c * c + alpha * c + beta - g * z)
    ensures Zero(alpha - g * u + b + c)
  {
    hide Zero;
    var h, t, t' := alpha - g * u + b + c, u * b + n - y, u * c + n - z;
    var v, v' := b * b + alpha * b + beta - g * y, c * c + alpha * c + beta - g * z;
    assert (b - c) * h == 1 * (v - v') + -g * (t - t');
    Combine2(v - v', 1, v, -1, v');
    Combine2(t - t', 1, t, -1, t');
    Combine2((b - c) * h, 1, v - v', -g, t - t');
    ZeroProduct(b - c, h);
  }

  /** A double root b = c: the function has the slope of the tangent, because both lines pass through the point. */
  lemma DoubleRoot(f: Pair, u: int, n: int, e: int, y: int)
    requires f.Valid() && f.b == f.c && Cubic(u, n, f.b, f.b, e) && !Zero(2 * y)
    requires Zero(f.s * f.b + f.m - y) && Zero(f.s1 * f.b + f.m1 - y) && Zero(u * f.b + n - y)
    ensures Zero(f.Alpha() - f.G() * u + f.b + f.b)
  {
    hide Cubic, Zero, Mul;
    PairForm(f);
    CubicForm(f.s, f.m, f.a, f.b, f.t);
    hide Pair.Valid;
    var a, b, g, s, t1, t2 := f.a, f.b, f.G(), f.s, f.s * f.b + f.m - y, u * f.b + n - y;
    var f1 := 2 * y - g * (b - f.t);
    Combine3(f1, -1, t1, -1, f.s1 * b + f.m1 - y, 1, g * f.t + f.m + f.m1);
    var f2 := (b - a) * (b - f.t) - 3 * b * b + 2 * s * (s * b + f.m);
    DoubleRootAlgebra(s, f.m, a, b, f.t);
    Combine2(f2, 2 * b, s * s - a - b - f.t, 1, 2 * s * f.m + a * b + b * f.t + f.t * a);
    var w := 2 * y * (b - a + g * s) - 3 * g * b * b;
    SlopeAlgebra(g, s, b, b - a, b - f.t, s * b + f.m, y);
    Combine3(w, b - a, f1, g, f2, -2 * g * s, t1);
    TangentOfCubic(u, n, b, e);
    var h := b - a + g * s - g * u;
    TangentAlgebra(g, u, n, b, y, b - a + g * s);
    Combine3(2 * y * h, 1, w, -g, 2 * u * (u * b + n) - 3 * b * b, 2 * g * u, t2);
    ZeroProduct(2 * y, h);
    assert f.Alpha() - g * u + b + b == h;
  }

  lemma DoubleRootAlgebra(s: int, m: int, a: int, b: int, t: int)
    ensures (b - a) * (b - t) - 3 * b * b + 2 * s * (s * b + m)
         == 2 * b * (s * s - a - b - t) + 1 * (2 * s * m + a * b + b * t + t * a)
  {
  }

  lemma SlopeAlgebra(g: int, s: int, b: int, d: int, e: int, z: int, y: int)
    ensures 2 * y * (d + g * s) - 3 * g * b * b
         == d * (2 * y - g * e) + g * (d * e - 3 * b * b + 2 * s * z) + -2 * g * s * (z - y)
  {
  }

  lemma TangentAlgebra(g: int, u: int, n: int, b: int, y: int, v: int)
    ensures 2 * y * (v - g * u) == 1 * (2 * y * v - 3 * g * b * b) + -g * (2 * u * (u * b + n) - 3 * b * b) + 2 * g * u * (u * b + n - y)
  {
  }

  /** Then the last coefficient agrees as well. */
  lemma RootsProduct(g: int, alpha: int, beta: int, u: int, n: int, b: int, c: int, y: int)
    requires Zero(u * b + n - y) && Zero(b * b + alpha * b + beta - g * y) && Zero(alpha - g * u + b + c)
    ensures Zero(beta - g * n - b * c)
  {
    hide Zero;
    var v, h, t := b * b + alpha * b + beta - g * y, alpha - g * u + b + c, u * b + n - y;
    assert beta - g * n - b * c == 1 * v + -b * h + -g * t;
    Combine3(beta - g * n - b * c, 1, v, -b, h, -g, t);
  }

  /** The line y = (g - u) x - n - g e meets the curve in a, d and e. */
  lemma OtherCubic(f: Pair, u: int, n: int, e: int)
    requires f.Valid() && Cubic(u, n, f.b, f.c, e)
    requires Zero(f.Alpha() - f.G() * u + f.b + f.c) && Zero(f.Beta() - f.G() * n - f.b * f.c)
    ensures Zero(f.Alpha() + f.G() * u - f.G() * f.G() + f.a + f.d)
    ensures Zero(f.Beta() + f.G() * n + f.G() * f.G() * e - f.a * f.d)
    ensures Cubic(f.G() - u, -n - f.G() * e, f.a, f.d, e)
  {
    hide Zero, Cubic, Mul;
    PairForm(f);
    hide Pair.Valid;
    OnSecondLine(f);
    var a, b, c, d, g, alpha, beta := f.a, f.b, f.c, f.d, f.G(), f.Alpha(), f.Beta();
    assert alpha - g * f.s + a + b == 0;
    SumOfSquares(g, f.s, f.s1, alpha, a, b, c, d);
    ProductOfRoots(f, u, e, n);
    OtherCoefficients(g, u, n, a, b, c, d, e, alpha, beta);
  }

  /** g^2 is 2 alpha + a + b + c + d. */
  lemma SumOfSquares(g: int, s: int, s1: int, alpha: int, a: int, b: int, c: int, d: int)
    requires g == s + s1 && alpha == g * s - a - b && Zero(alpha - g * s1 + c + d)
    ensures Zero(2 * alpha - g * g + a + b + c + d)
  {
    assert 2 * alpha - g * g + a + b + c + d == alpha - g * s1 + c + d;
  }

  lemma ProductOfRoots(f: Pair, u: int, e: int, n: int)
    requires f.Valid() && Cubic(u, n, f.b, f.c, e)
    requires Zero(f.Alpha() - f.G() * u + f.b + f.c) && Zero(f.Beta() - f.G() * n - f.b * f.c)
    requires Zero(f.Beta() - f.G() * f.m1 - f.c * f.d)
    requires Zero(2 * f.Alpha() - f.G() * f.G() + f.a + f.b + f.c + f.d)
    ensures Zero(f.Beta() + f.G() * n + f.G() * f.G() * e - f.a * f.d)
  {
    hide Cubic, Zero, Mul;
    PairForm(f);
    CubicForm(f.s, f.m, f.a, f.b, f.t); CubicForm(u, n, f.b, f.c, e);
    hide Pair.Valid;
    var a, b, c, d, g, alpha, beta := f.a, f.b, f.c, f.d, f.G(), f.Alpha(), f.Beta();
    var h, h2, q2 := g * f.t + f.m + f.m1, beta - g * n - b * c, beta - g * f.m1 - c * d;
    var r := g * g * (e - f.t) + (a - c) * (b - d);
    ThirdRoots(g, f.s, u, a, b, c, d, e, f.t, alpha);
    ProductAlgebra(g, f.m, f.m1, n, a, b, c, d, e, f.t);
    var p := beta + g * n + g * g * e - a * d;
    Combine2(h2 - q2, 1, h2, -1, q2);
    Combine3(p, g, h, -1, h2 - q2, 1, r);
  }

  lemma ProductAlgebra(g: int, m: int, m1: int, n: int, a: int, b: int, c: int, d: int, e: int, t: int)
    ensures var beta := g * m + a * b;
      beta + g * n + g * g * e - a * d
      == g * (g * t + m + m1) + -1 * ((beta - g * n - b * c) - (beta - g * m1 - c * d)) + 1 * (g * g * (e - t) + (a - c) * (b - d))
  {
    var z := g * g;
    assert g * (g * t) == z * t;
    assert g * (g * t + m + m1) == g * (g * t) + g * m + g * m1;
    assert z * (e - t) == z * e - z * t;
    assert (a - c) * (b - d) == a * b - a * d - b * c + c * d;
  }

  /** What the third points of the first and the third line have to do with each other. */
  lemma ThirdRoots(g: int, s: int, u: int, a: int, b: int, c: int, d: int, e: int, t: int, alpha: int)
    requires alpha == g * s - a - b && Zero(alpha - g * u + b + c) && Zero(2 * alpha - g * g + a + b + c + d)
    requires Zero(s * s - a - b - t) && Zero(u * u - b - c - e)
    ensures Zero(g * g * (e - t) + (a - c) * (b - d))
  {
    hide Zero;
    var h, q, x := alpha - g * u + b + c, 2 * alpha - g * g + a + b + c + d, (s * s - a - b - t) - (u * u - b - c - e);
    Combine2(x, 1, s * s - a - b - t, -1, u * u - b - c - e);
    ThirdRootsAlgebra(g, s, u, a, b, c, d, e, t);
    Combine3(g * g * (e - t) + (a - c) * (b - d), -(g * u + alpha + b + c), h, g * g, x, -(a - c), q);
  }

  lemma ThirdRootsAlgebra(g: int, s: int, u: int, a: int, b: int, c: int, d: int, e: int, t: int)
    ensures var alpha := g * s - a - b;
      g * g * (e - t) + (a - c) * (b - d)
      == -(g * u + alpha + b + c) * (alpha - g * u + b + c) + g * g * ((s * s - a - b - t) - (u * u - b - c - e))
       + -(a - c) * (2 * alpha - g * g + a + b + c + d)
  {
  }

  lemma OtherCoefficients(g: int, u: int, n: int, a: int, b: int, c: int, d: int, e: int, alpha: int, beta: int)
    requires Cubic(u, n, b, c, e) && Zero(alpha - g * u + b + c) && Zero(beta - g * n - b * c)
    requires Zero(2 * alpha - g * g + a + b + c + d) && Zero(beta + g * n + g * g * e - a * d)
    ensures Zero(alpha + g * u - g * g + a + d) && Cubic(g - u, -n - g * e, a, d, e)
  {
    hide Cubic, Zero, Mul;
    CubicForm(u, n, b, c, e); CubicForm(g - u, -n - g * e, a, d, e);
    var h, h2, p2 := alpha - g * u + b + c, beta - g * n - b * c, beta + g * n + g * g * e - a * d;
    var p1 := alpha + g * u - g * g + a + d;
    Combine2(p1, 1, 2 * alpha - g * g + a + b + c + d, -1, h);
    Combine2(h - p1, 1, h, -1, p1);
    Combine2(p2 - h2, 1, p2, -1, h2);
    var w, k := g - u, -n - g * e;
    var e1, e2, e3 := u * u - b - c - e, 2 * u * n + b * c + c * e + e * b, n * n - 7 - b * c * e;
    FirstOther(g, u, a, b, c, d, e, alpha);
    Combine2(w * w - a - d - e, 1, e1, 1, h - p1);
    SecondOther(g, u, n, a, b, c, d, e);
    Combine3(2 * w * k + a * d + d * e + e * a, 1, e2, -e, h - p1, -1, p2 - h2);
    ThirdOther(g, n, a, b, c, d, e);
    Combine2(k * k - 7 - a * d * e, 1, e3, e, p2 - h2);
  }

  lemma FirstOther(g: int, u: int, a: int, b: int, c: int, d: int, e: int, alpha: int)
    ensures (g - u) * (g - u) - a - d - e
         == 1 * (u * u - b - c - e) + 1 * ((alpha - g * u + b + c) - (alpha + g * u - g * g + a + d))
  {
    assert (g - u) * (g - u) == g * g - 2 * (g * u) + u * u;
  }

  lemma SecondOther(g: int, u: int, n: int, a: int, b: int, c: int, d: int, e: int)
    ensures 2 * (g - u) * (-n - g * e) + a * d + d * e + e * a
         == 1 * (2 * u * n + b * c + c * e + e * b) + -e * (g * g - 2 * (g * u) + b + c - a - d)
          + -1 * (2 * (g * n) + g * g * e - a * d + b * c)
  {
    OtherProduct(g, u, n, e);
    assert e * (g * g - 2 * (g * u) + b + c - a - d) == g * g * e - 2 * (g * u * e) + b * e + c * e - a * e - d * e;
    assert 2 * u * n == 2 * (u * n);
  }

  lemma OtherProduct(g: int, u: int, n: int, e: int)
    ensures 2 * (g - u) * (-n - g * e) == 2 * (u * n) + 2 * (g * u * e) - 2 * (g * n) - 2 * (g * g * e)
  {
    var w := n + g * e;
    assert g * w == g * n + g * g * e && u * w == u * n + g * u * e;
    assert 2 * (g - u) * (-n - g * e) == 2 * (u * w) - 2 * (g * w);
  }

  lemma ThirdOther(g: int, n: int, a: int, b: int, c: int, d: int, e: int)
    ensures (-n - g * e) * (-n - g * e) - 7 - a * d * e
         == 1 * (n * n - 7 - b * c * e) + e * (2 * (g * n) + g * g * e - a * d + b * c)
  {
  }

  /** Where the function vanishes at a or d, the point is on that line. */
  lemma OnOtherLine(g: int, alpha: int, beta: int, u: int, n: int, a: int, d: int, e: int, y: int)
    requires !Zero(g) && Zero(a * a + alpha * a + beta - g * y)
    requires Zero(alpha + g * u - g * g + a + d) && Zero(beta + g * n + g * g * e - a * d)
    ensures Zero((g - u) * a + (-n - g * e) - y)
  {
    hide Zero;
    var t, p1, p2 := (g - u) * a + (-n - g * e) - y, alpha + g * u - g * g + a + d, beta + g * n + g * g * e - a * d;
    OtherLineAlgebra(g, alpha, beta, u, n, a, d, e, y);
    Combine3(g * t, 1, a * a + alpha * a + beta - g * y, -a, p1, -1, p2);
    ZeroProduct(g, t);
  }

  lemma OtherLineAlgebra(g: int, alpha: int, beta: int, u: int, n: int, a: int, d: int, e: int, y: int)
    ensures g * ((g - u) * a + (-n - g * e) - y)
         == 1 * (a * a + alpha * a + beta - g * y) + -a * (alpha + g * u - g * g + a + d) + -1 * (beta + g * n + g * g * e - a * d)
  {
    assert g * ((g - u) * a + (-n - g * e) - y) == g * ((g - u) * a) - g * (n + g * e) - g * y;
    assert g * ((g - u) * a) == g * g * a - g * u * a;
    assert g * (n + g * e) == g * n + g * g * e;
    assert -a * (alpha + g * u - g * g + a + d) == -(alpha * a) - g * u * a + g * g * a - a * a - a * d;
  }

  // ------------------------------------------------------------- the same for points

  /** If p, q, t and r, v, -t are on lines, and so are q, r, w, then so are p, v, -w. */
  lemma Exchange(s: int, m: int, p: Point, q: Point, t: Point, s1: int, m1: int, r: Point, v: Point, u: int, n: int, w: Point)
    requires OnCurve(q, 7) && OnCurve(r, 7) && !Zero(s + s1)
    requires Line(s, m, p, q, t) && Line(s1, m1, r, v, Negate(t)) && Line(u, n, q, r, w)
    ensures Line(s + s1 - u, -n - (s + s1) * w.x, p, v, Negate(w))
  {
    hide Zero, Cubic, Line, OnCurve, Pair.Valid, Pair.Alpha, Pair.Beta, Pair.G;
    LineOf(u, n, q, r, w); LineOf(s, m, p, q, t); LineOf(s1, m1, r, v, Negate(t));
    var f := PairOf(s, m, p, q, t, s1, m1, r, v);
    PairG(f);
    ThirdLineRoots(f, s, m, p, q, t, s1, m1, r, v, u, n, w);
    VanishesOnFirst(f, p.y, q.y);
    VanishesOnSecond(f, r.y, v.y);
    OtherCubic(f, u, n, w.x);
    BothOnOtherLine(f, u, n, w.x, p.y, v.y);
    ThirdOnOtherLine(f.G(), u, n, w);
    LineIntro(f.G() - u, -n - f.G() * w.x, p, v, Negate(w));
  }

  lemma PairG(f: Pair)
    ensures f.G() == f.s + f.s1
  {
  }

  lemma BothOnOtherLine(f: Pair, u: int, n: int, e: int, y: int, z: int)
    requires !Zero(f.G()) && f.Vanishes(f.a, y) && f.Vanishes(f.d, z)
    requires Zero(f.Alpha() + f.G() * u - f.G() * f.G() + f.a + f.d)
    requires Zero(f.Beta() + f.G() * n + f.G() * f.G() * e - f.a * f.d)
    ensures Zero((f.G() - u) * f.a + (-n - f.G() * e) - y) && Zero((f.G() - u) * f.d + (-n - f.G() * e) - z)
  {
    hide Zero, Pair.Alpha, Pair.Beta, Pair.G;
    var g, alpha, beta, a, d := f.G(), f.Alpha(), f.Beta(), f.a, f.d;
    OnOtherLine(g, alpha, beta, u, n, a, d, e, y);
    assert a * d == d * a;
    assert alpha + g * u - g * g + a + d == alpha + g * u - g * g + d + a;
    OnOtherLine(g, alpha, beta, u, n, d, a, e, z);
  }

  lemma ThirdOnOtherLine(g: int, u: int, n: int, w: Point)
    requires w.Affine? && Zero(u * w.x + n - w.y)
    ensures Zero((g - u) * w.x + (-n - g * w.x) - Negate(w).y)
  {
    hide Zero;
    NegateIsZeroSum(w.y);
    var y := SubP(0, w.y);
    assert (g - u) * w.x == g * w.x - u * w.x;
    Combine2((g - u) * w.x + (-n - g * w.x) - y, -1, u * w.x + n - w.y, -1, y + w.y);
  }

  lemma LineOf(s: int, m: int, p: Point, q: Point, r: Point)
    requires Line(s, m, p, q, r)
    ensures p.Affine? && q.Affine? && r.Affine? && Cubic(s, m, p.x, q.x, r.x)
    ensures Zero(s * p.x + m - p.y) && Zero(s * q.x + m - q.y) && Zero(s * r.x + m - r.y)
  {
    hide Mul;
    ThroughForm(s, m, p); ThroughForm(s, m, q); ThroughForm(s, m, r);
  }

  lemma LineIntro(s: int, m: int, p: Point, q: Point, r: Point)
    requires p.Affine? && q.Affine? && r.Affine? && Cubic(s, m, p.x, q.x, r.x)
    requires Zero(s * p.x + m - p.y) && Zero(s * q.x + m - q.y) && Zero(s * r.x + m - r.y)
    ensures Line(s, m, p, q, r)
  {
    hide Mul;
    ThroughForm(s, m, p); ThroughForm(s, m, q); ThroughForm(s, m, r);
  }

  function PairOf(s: int, m: int, p: Point, q: Point, t: Point, s1: int, m1: int, r: Point, v: Point): Pair
    requires p.Affine? && q.Affine? && t.Affine? && r.Affine? && v.Affine?
  {
    Pair(s, m, s1, m1, p.x, q.x, r.x, v.x, t.x)
  }

  lemma PairIsValid(s: int, m: int, p: Point, q: Point, t: Point, s1: int, m1: int, r: Point, v: Point)
    requires Line(s, m, p, q, t) && Line(s1, m1, r, v, Negate(t))
    ensures t.Affine? && PairOf(s, m, p, q, t, s1, m1, r, v).Valid()
  {
    hide Mul, Zero, Cubic;
    PairForm(PairOf(s, m, p, q, t, s1, m1, r, v));
    ThroughForm(s, m, t); ThroughForm(s1, m1, Negate(t));
    hide Pair.Valid;
    NegateIsZeroSum(t.y);
    var y := SubP(0, t.y);
    assert (s + s1) * t.x == s * t.x + s1 * t.x;
    Combine3((s + s1) * t.x + m + m1, 1, s * t.x + m - t.y, 1, s1 * t.x + m1 - y, 1, y + t.y);
  }

  /** On the third line the function is (x - b)(x - c), whether b and c are different or not. */
  lemma ThirdLineRoots(f: Pair, s: int, m: int, p: Point, q: Point, t: Point, s1: int, m1: int, r: Point, v: Point,
                       u: int, n: int, w: Point)
    requires OnCurve(q, 7) && OnCurve(r, 7)
    requires Line(s, m, p, q, t) && Line(s1, m1, r, v, Negate(t)) && Line(u, n, q, r, w)
    requires f == PairOf(s, m, p, q, t, s1, m1, r, v)
    ensures f.Valid() && Zero(f.Alpha() - f.G() * u + f.b + f.c) && Zero(f.Beta() - f.G() * n - f.b * f.c)
  {
    hide Zero, Cubic, Line, OnCurve;
    PairIsValid(s, m, p, q, t, s1, m1, r, v);
    LineOf(u, n, q, r, w); LineOf(s, m, p, q, t); LineOf(s1, m1, r, v, Negate(t));
    VanishesOnFirst(f, p.y, q.y);
    VanishesOnSecond(f, r.y, v.y);
    CurvePointInRange(q, 7); CurvePointInRange(r, 7);
    ZeroDifference(q.x, r.x);
    if q.x != r.x {
      TwoRoots(f.G(), f.Alpha(), f.Beta(), u, n, q.x, r.x, q.y, r.y);
    } else {
      Combine2(r.y - q.y, 1, u * q.x + n - q.y, -1, u * r.x + n - r.y);
      ZeroDifference(r.y, q.y);
      OrdinateIsNonzero(q);
      TwiceIsZero(q.y);
      assert !Zero(2 * q.y) by { NotZero(2 * q.y); }
      DoubleRoot(f, u, n, w.x, q.y);
    }
    RootsProduct(f.G(), f.Alpha(), f.Beta(), u, n, q.x, r.x, q.y);
  }

  lemma NotZero(e: int)
    requires Res(e) != 0
    ensures !Zero(e)
  {
  }

  /** If g is 0, the second line is the mirror image of the first, and so are the points on it. */
  lemma MirrorImages(s: int, m: int, p: Point, q: Point, t: Point, s1: int, m1: int, r: Point, v: Point)
    requires OnCurve(p, 7) && OnCurve(q, 7) && OnCurve(r, 7) && OnCurve(v, 7) && Zero(s + s1)
    requires Line(s, m, p, q, t) && Line(s1, m1, r, v, Negate(t))
    ensures (r == Negate(p) && v == Negate(q)) || (r == Negate(q) && v == Negate(p))
  {
    hide Zero, Cubic, Line, OnCurve;
    PairIsValid(s, m, p, q, t, s1, m1, r, v);
    LineOf(s, m, p, q, t); LineOf(s1, m1, r, v, Negate(t));
    var f := PairOf(s, m, p, q, t, s1, m1, r, v);
    SameRoots(f);
    CurvePointInRange(p, 7); CurvePointInRange(q, 7); CurvePointInRange(r, 7); CurvePointInRange(v, 7);
    ZeroDifference(r.x, p.x); ZeroDifference(r.x, q.x);
    if r.x == p.x {
      Combine1(v.x - q.x, 1, f.c + f.d - f.a - f.b);
      ZeroDifference(v.x, q.x);
      MirrorPoint(f, r, p); MirrorPoint(f, v, q);
    } else {
      Combine1(v.x - p.x, 1, f.c + f.d - f.a - f.b);
      ZeroDifference(v.x, p.x);
      MirrorPoint(f, r, q); MirrorPoint(f, v, p);
    }
  }

  lemma SameRoots(f: Pair)
    requires f.Valid() && Zero(f.G())
    ensures Zero(f.c + f.d - f.a - f.b) && (Zero(f.c - f.a) || Zero(f.c - f.b)) && Zero(f.m + f.m1)
  {
    hide Zero, Mul;
    PairForm(f);
    hide Pair.Valid;
    OnSecondLine(f);
    var a, b, c, d, g := f.a, f.b, f.c, f.d, f.G();
    var h1, h2 := f.Alpha() - g * f.s1 + c + d, f.Beta() - g * f.m1 - c * d;
    FirstRoots(g, f.s, f.s1, f.m, f.m1, a, b, c, d);
    Combine2(c + d - a - b, 1, h1, -(f.s - f.s1), g);
    Combine3((c - a) * (c - b), 1, h2, -(f.m - f.m1), g, c, c + d - a - b);
    ZeroProduct(c - a, c - b);
    Combine2(f.m + f.m1, 1, g * f.t + f.m + f.m1, -f.t, g);
  }

  lemma FirstRoots(g: int, s: int, s1: int, m: int, m1: int, a: int, b: int, c: int, d: int)
    ensures c + d - a - b == 1 * ((g * s - a - b) - g * s1 + c + d) + -(s - s1) * g
    ensures (c - a) * (c - b) == 1 * ((g * m + a * b) - g * m1 - c * d) + -(m - m1) * g + c * (c + d - a - b)
  {
  }

  lemma MirrorPoint(f: Pair, r: Point, p: Point)
    requires r.Affine? && p.Affine? && InRange(r) && InRange(p) && r.x == p.x && Zero(f.G()) && Zero(f.m + f.m1)
    requires Zero(f.s1 * r.x + f.m1 - r.y) && Zero(f.s * p.x + f.m - p.y)
    ensures r == Negate(p)
  {
    hide Zero;
    NegateTwice(p);
    NegateIsZeroSum(p.y);
    var y, z := SubP(0, p.y), f.m + f.m1;
    assert f.G() * p.x == f.s * p.x + f.s1 * p.x;
    Combine3(r.y + p.y, p.x, f.G(), 1, z, -1, (f.s1 * r.x + f.m1 - r.y) + (f.s * p.x + f.m - p.y)) by {
      Combine2((f.s1 * r.x + f.m1 - r.y) + (f.s * p.x + f.m - p.y), 1, f.s1 * r.x + f.m1 - r.y, 1, f.s * p.x + f.m - p.y);
    }
    Combine2(r.y - y, 1, r.y + p.y, -1, y + p.y);
    ZeroDifference(r.y, y);
  }

  // ------------------------------------------------------------- the group laws

  lemma NegateIsOnCurve(p: Point)
    requires OnCurve(p, 7)
    ensures OnCurve(Negate(p), 7)
  {
    Products();
    if p.Affine? {
      hide Res;
      ResIdempotent(0 - p.y);
      Both(SubP(0, p.y), 0 - p.y, SubP(0, p.y), 0 - p.y);
      assert (0 - p.y) * (0 - p.y) == p.y * p.y;
    }
  }

  lemma SumWithOpposite(p: Point)
    requires OnCurve(p, 7)
    ensures AddPoints(p, Negate(p)) == Infinity && AddPoints(Negate(p), p) == Infinity
  {
    if p.Affine? {
      CurvePointInRange(p, 7);
      OrdinateIsNonzero(p);
      hide Res, Inv, Mul, MulP, ThirdPoint, OnCurve;
      NegateIsZeroSum(p.y);
      TwiceIsZero(p.y);
      var y := SubP(0, p.y);
      assert p.y != y;
    }
  }

  /** Only opposite points have an infinite sum. */
  lemma InfiniteSum(p: Point, q: Point)
    requires OnCurve(p, 7) && OnCurve(q, 7) && p.Affine? && q.Affine? && AddPoints(p, q) == Infinity
    ensures q == Negate(p)
  {
    hide Res, Inv, Mul, MulP, ThirdPoint, OnCurve, Zero;
    CurvePointInRange(p, 7); CurvePointInRange(q, 7);
    OrdinateIsNonzero(p);
    assert p.x == q.x && p.y != q.y;
    CurveEquation(p, 7); CurveEquation(q, 7);
    SquaresDiffer(p.y, q.y);
    ZeroDifference(p.y, q.y);
    NegateIsZeroSum(p.y);
    Combine2(q.y - SubP(0, p.y), 1, p.y + q.y, -1, SubP(0, p.y) + p.y);
    NegateTwice(p);
    ZeroDifference(q.y, SubP(0, p.y));
  }

  lemma SquaresDiffer(y: int, z: int)
    requires Res(y * y) == Res(z * z)
    ensures Zero(y - z) || Zero(y + z)
  {
    hide Res;
    ResOfSmall(0);
    Replace(y * y, z * z, z * z);
    assert (y - z) * (y + z) == y * y - z * z;
    ZeroProduct(y - z, y + z);
  }

  lemma SumCommutes(p: Point, q: Point)
    requires OnCurve(p, 7) && OnCurve(q, 7)
    ensures AddPoints(p, q) == AddPoints(q, p)
  {
    if p.Affine? && q.Affine? {
      if AddPoints(p, q).Affine? {
        hide AddPoints, OnCurve, Line;
        var r := AddPoints(p, q);
        var s, m := SumGivesLine(p, q);
        SumInRange(p, q);
        Permuted(s, m, p, q, Negate(r));
        LineGivesSum(s, m, q, p, Negate(r));
      } else {
        InfiniteSum(p, q);
        SumWithOpposite(p);
      }
    }
  }

  lemma SumInRange(p: Point, q: Point)
    requires OnCurve(p, 7) && OnCurve(q, 7)
    ensures var r := AddPoints(p, q); OnCurve(r, 7) && OnCurve(Negate(r), 7) && Negate(Negate(r)) == r
  {
    hide AddPoints, OnCurve;
    SumIsOnCurve(p, q, 7);
    CurvePointInRange(AddPoints(p, q), 7);
    NegateIsOnCurve(AddPoints(p, q));
    NegateTwice(AddPoints(p, q));
  }

  lemma SumWithInfinity(p: Point)
    ensures AddPoints(Infinity, p) == p && AddPoints(p, Infinity) == p
  {
  }

  /** -p + (p + q) is q: on the mirror image of their line. */
  lemma CancelLeft(p: Point, q: Point)
    requires OnCurve(p, 7) && OnCurve(q, 7)
    ensures AddPoints(Negate(p), AddPoints(p, q)) == q
  {
    hide AddPoints, OnCurve, Line;
    SumWithInfinity(p); SumWithInfinity(q); SumWithInfinity(Negate(p));
    SumWithOpposite(p);
    if p.Affine? && q.Affine? {
      var r := AddPoints(p, q);
      if r == Infinity {
        InfiniteSum(p, q);
      } else {
        var s, m := SumGivesLine(p, q);
        SumInRange(p, q); NegateIsOnCurve(p); NegateIsOnCurve(q);
        CurvePointInRange(q, 7); NegateTwice(q);
        Mirrored(s, m, p, q, Negate(r));
        Permuted(-s, -m, Negate(p), Negate(q), r);
        Permuted(-s, -m, r, Negate(p), Negate(q));
        LineGivesSum(-s, -m, Negate(p), r, Negate(q));
      }
    }
  }

  /** The chord-and-tangent law is associative. */
  lemma SumAssociates(p: Point, q: Point, r: Point)
    requires OnCurve(p, 7) && OnCurve(q, 7) && OnCurve(r, 7)
    ensures AddPoints(AddPoints(p, q), r) == AddPoints(p, AddPoints(q, r))
  {
    hide AddPoints, OnCurve;
    SumWithInfinity(p); SumWithInfinity(q); SumWithInfinity(r);
    SumWithInfinity(AddPoints(p, q)); SumWithInfinity(AddPoints(q, r));
    if p.Affine? && q.Affine? && r.Affine? {
      if AddPoints(p, q) == Infinity {
        InfiniteSum(p, q);
        CurvePointInRange(p, 7); NegateTwice(p);
        CancelLeft(q, r);
      } else if AddPoints(q, r) == Infinity {
        InfiniteSum(q, r);
        SumInRange(p, q);
        SumCommutes(AddPoints(p, q), r);
        SumCommutes(p, q);
        CancelLeft(q, p);
      } else {
        FiniteSums(p, q, r);
      }
    }
  }

  lemma FiniteSums(p: Point, q: Point, r: Point)
    requires OnCurve(p, 7) && OnCurve(q, 7) && OnCurve(r, 7) && p.Affine? && q.Affine? && r.Affine?
    requires AddPoints(p, q).Affine? && AddPoints(q, r).Affine?
    ensures AddPoints(AddPoints(p, q), r) == AddPoints(p, AddPoints(q, r))
  {
    hide AddPoints, OnCurve, Line, Zero;
    var a := AddPoints(p, q);
    var s, m := SumGivesLine(p, q);
    SumInRange(p, q);
    if AddPoints(a, r) == Infinity {
      InfiniteSum(a, r);
      Permuted(s, m, p, q, r);
      LineGivesSum(s, m, q, r, p);
      SumWithOpposite(p);
    } else {
      var s1, m1 := SumGivesLine(a, r);
      FourPoints(p, q, r, a, AddPoints(a, r), s, m, s1, m1);
    }
  }

  lemma FourPoints(p: Point, q: Point, r: Point, a: Point, l: Point, s: int, m: int, s1: int, m1: int)
    requires OnCurve(p, 7) && OnCurve(q, 7) && OnCurve(r, 7) && p.Affine? && q.Affine? && r.Affine? && AddPoints(q, r).Affine?
    requires OnCurve(a, 7) && a.Affine? && Negate(Negate(a)) == a && l == AddPoints(a, r)
    requires Line(s, m, p, q, Negate(a)) && Line(s1, m1, a, r, Negate(l))
    ensures l == AddPoints(p, AddPoints(q, r))
  {
    hide AddPoints, OnCurve, Line, Zero;
    var b, v := AddPoints(q, r), Negate(l);
    SumInRange(a, r); SumInRange(q, r);
    Permuted(s1, m1, a, r, v);
    if Zero(s + s1) {
      MirrorImages(s, m, p, q, Negate(a), s1, m1, r, v);
      SumWithOpposite(q);
      CurvePointInRange(p, 7); CurvePointInRange(q, 7); NegateTwice(p); NegateTwice(q);
      SumCommutes(q, r);
      CancelLeft(r, q);
    } else {
      var u, n := SumGivesLine(q, r);
      Exchange(s, m, p, q, Negate(a), s1, m1, r, v, u, n, Negate(b));
      var w, k := s + s1 - u, -n - (s + s1) * Negate(b).x;
      Permuted(w, k, p, v, b);
      Permuted(w, k, b, p, v);
      LineGivesSum(w, k, p, b, v);
    }
  }
}
