/** Short Weierstrass curves y^2 = x^3 + b over the field of order P: the affine chord-and-tangent law, and what it
    means for Jacobian coordinates to represent a point. */
module Curve {
  import opened NumberTheory
  import opened Params
  import opened FieldElement
  import opened Secp256k1Prime

  datatype Point = Infinity | Affine(x: int, y: int)

  /** The coordinates are residues and satisfy the equation with constant b. */
  ghost predicate OnCurve(p: Point, b: int) {
    p.Affine? ==>
      IsResidue(p.x) && IsResidue(p.y) && MulP(p.y, p.y) == AddP(MulP(MulP(p.x, p.x), p.x), b)
  }

  function Negate(p: Point): Point {
    if p.Infinity? then p else Affine(p.x, SubP(0, p.y))
  }

  /** The inverse modulo P (and 0 for multiples of P), by Fermat's little theorem. */
  function Inv(a: int): int {
    Res(Power(a, P - 2))
  }

  // the power, through functions that call each other for the same reason as in Res
  function Power(b: int, e: nat): int
    decreases e, 2
  {
    PowerAgain(b, e)
  }

  function PowerAgain(b: int, e: nat): int
    decreases e, 1
  {
    PowerStep(b, e)
  }

  function PowerStep(b: int, e: nat): int
    decreases e, 0
  {
    if e == 0 then 1 else b * Power(b, e - 1)
  }

  lemma {:induction false} PowerIsPow(b: int, e: nat)
    ensures Power(b, e) == Pow(b, e)
  {
    assert Power(b, e) == PowerAgain(b, e) == PowerStep(b, e);
    if e > 0 { PowerIsPow(b, e - 1); }
  }

  /** The third point on the line of slope l through p and q, reflected. */
  function ThirdPoint(l: int, p: Point, q: Point): (r: Point)
    requires p.Affine? && q.Affine?
    ensures r.Affine?
  {
    var x := Res(Mul(l, l) - p.x - q.x);
    Affine(x, Res(Mul(l, p.x - x) - p.y))
  }

  /** The group law. */
  function AddPoints(p: Point, q: Point): Point {
    if p.Infinity? then q
    else if q.Infinity? then p
    else if p.x != q.x then ThirdPoint(MulP(q.y - p.y, Inv(q.x - p.x)), p, q)
    else if p.y == q.y && p.y != 0 then ThirdPoint(MulP(3 * Mul(p.x, p.x), Inv(2 * p.y)), p, p)
    else Infinity
  }

  /** l is the slope of the line that the group law uses for p and q. */
  ghost predicate Slope(l: int, p: Point, q: Point)
    requires p.Affine? && q.Affine?
  {
    if p.x != q.x then Res(Mul(l, q.x - p.x)) == Res(q.y - p.y)
    else p.y == q.y && p.y != 0 && Res(Mul(l, 2 * p.y)) == Res(3 * Mul(p.x, p.x))
  }

  // ------------------------------------------------------------- the field

  lemma InverseLaw(a: int)
    requires Res(a) != 0
    ensures MulP(a, Inv(a)) == 1 && Res(a * Inv(a)) == 1 && Inv(a) != 0
  {
    hide Res;
    PIsPrime();
    hide Power;
    PowerIsPow(a, P - 2);
    MulIsProduct(a, Inv(a));
    ResIsMod(a); ResIsMod(Pow(a, P - 2)); ResIsMod(a * Inv(a));
    Fermat(a, P);
    assert Pow(a, P - 1) == a * Pow(a, P - 2);
    CongSelf(Pow(a, P - 2), P);
    CongMul(a, a, Inv(a), Pow(a, P - 2), P);
    if Inv(a) == 0 { ResOfSmall(0); }
  }

  lemma ProductIsNonzero(a: int, b: int)
    requires Res(a) != 0 && Res(b) != 0
    ensures Res(a * b) != 0
  {
    hide Res;
    PIsPrime();
    ResIsMod(a); ResIsMod(b); ResIsMod(a * b);
    if Res(a * b) == 0 { NoZeroDivisors(a, b, P); }
  }

  lemma Cancel(a: int, b: int, c: int)
    requires Res(c) != 0 && Res(a * c) == Res(b * c)
    ensures Res(a) == Res(b)
  {
    hide Res;
    PIsPrime();
    ResIsMod(c);
    ResIsCong(a * c, b * c);
    CancelFactor(a, b, c, P);
    ResIsCong(a, b);
  }

  /** Replacing equals by equals inside a residue. */
  lemma Replace(e: int, f: int, g: int)
    requires Res(e) == Res(f)
    ensures Res(e * g) == Res(f * g) && Res(g * e) == Res(g * f)
    ensures Res(e + g) == Res(f + g) && Res(g + e) == Res(g + f)
    ensures Res(e - g) == Res(f - g) && Res(g - e) == Res(g - f)
  {
    hide Res;
    ResIsCong(e, f);
    CongMul(e, f, g, g, P);
    assert e * g == g * e && f * g == g * f;
    CongAdd(e, f, g, g, P);
    CongAdd(g, g, e, f, P);
    ResIsCong(e * g, f * g);
    ResIsCong(e + g, f + g); ResIsCong(e - g, f - g); ResIsCong(g - e, g - f);
  }

  lemma DifferenceOfResidues(a: int, b: int)
    requires IsResidue(a) && IsResidue(b)
    ensures Res(a - b) == 0 <==> a == b
  {
    ResOfSmall(0);
    ResidueInRange(a); ResidueInRange(b);
    hide Res;
    ResIsMod(a - b);
    if Res(a - b) == 0 {
      var k := (a - b) / P;
      assert a - b == k * P;
      SmallMultipleIsZero(k, P);
    }
  }

  lemma TwiceIsZero(y: int)
    requires IsResidue(y)
    ensures Res(2 * y) == 0 <==> y == 0
  {
    ResOfSmall(0);
    ResidueInRange(y);
    hide Res;
    ResIsMod(2 * y);
    if Res(2 * y) == 0 {
      var k := (2 * y) / P;
      assert 2 * y == k * P && k < 2;
      assert k == 0;
    }
  }

  // ------------------------------------------------------------- the group law by its slope

  lemma SlopeForm(l: int, p: Point, q: Point)
    requires p.Affine? && q.Affine?
    ensures Slope(l, p, q) <==>
      if p.x != q.x then Res(l * (q.x - p.x)) == Res(q.y - p.y)
      else p.y == q.y && p.y != 0 && Res(l * (2 * p.y)) == Res(3 * p.x * p.x)
  {
    hide Res, Mul;
    MulIsProduct(l, q.x - p.x);
    MulIsProduct(l, 2 * p.y);
    MulIsProduct(p.x, p.x);
    assert 3 * (p.x * p.x) == 3 * p.x * p.x;
  }

  lemma ThirdPointForm(l: int, p: Point, q: Point)
    requires p.Affine? && q.Affine?
    ensures var x := Res(l * l - p.x - q.x); ThirdPoint(l, p, q) == Affine(x, Res(l * (p.x - x) - p.y))
  {
    hide Res, Mul;
    MulIsProduct(l, l);
    MulIsProduct(l, p.x - Res(l * l - p.x - q.x));
  }

  lemma SlopeGivesSum(l: int, p: Point, q: Point)
    requires p.Affine? && q.Affine? && IsResidue(p.x) && IsResidue(q.x) && IsResidue(p.y)
    requires Slope(l, p, q)
    ensures AddPoints(p, q) == ThirdPoint(l, p, q)
  {
    hide Res, Mul, Inv, Slope, ThirdPoint, MulP;
    SlopeForm(l, p, q);
    DifferenceOfResidues(q.x, p.x);
    TwiceIsZero(p.y);
    if p.x != q.x {
      QuotientIsUnique(l, q.y - p.y, q.x - p.x);
      ThirdPointOfResidue(MulP(q.y - p.y, Inv(q.x - p.x)), l, p, q);
    } else {
      MulIsProduct(p.x, p.x);
      assert 3 * Mul(p.x, p.x) == 3 * p.x * p.x;
      QuotientIsUnique(l, 3 * Mul(p.x, p.x), 2 * p.y);
      ThirdPointOfResidue(MulP(3 * Mul(p.x, p.x), Inv(2 * p.y)), l, p, p);
      ThirdPointSameX(l, p, q);
    }
  }

  lemma ThirdPointSameX(l: int, p: Point, q: Point)
    requires p.Affine? && q.Affine? && p.x == q.x
    ensures ThirdPoint(l, p, q) == ThirdPoint(l, p, p)
  {
  }

  lemma QuotientIsUnique(l: int, n: int, d: int)
    requires Res(d) != 0 && Res(l * d) == Res(n)
    ensures Res(MulP(n, Inv(d))) == Res(l)
  {
    QuotientTimesDivisor(n, d);
    Cancel(MulP(n, Inv(d)), l, d);
  }

  lemma QuotientTimesDivisor(n: int, d: int)
    requires Res(d) != 0
    ensures Res(MulP(n, Inv(d)) * d) == Res(n)
  {
    Products();
    hide Res, Inv;
    InverseLaw(d);
    ResIdempotent(n * Inv(d));
    Replace(MulP(n, Inv(d)), n * Inv(d), d);
    ResOfSmall(1);
    Replace(d * Inv(d), 1, n);
    assert n * Inv(d) * d == n * (d * Inv(d));
  }

  lemma ThirdPointOfResidue(l: int, l': int, p: Point, q: Point)
    requires p.Affine? && q.Affine? && Res(l) == Res(l')
    ensures ThirdPoint(l, p, q) == ThirdPoint(l', p, q)
  {
    Products();
    Replace(l, l', l);
    Replace(l, l', l');
    Replace(l * l, l' * l', p.x);
    Replace(l * l - p.x, l' * l' - p.x, q.x);
    var x := Res(l * l - p.x - q.x);
    Replace(l, l', p.x - x);
    Replace(l * (p.x - x), l' * (p.x - x), p.y);
  }
}
