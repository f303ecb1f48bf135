/** The points of secp256k1 as an abelian group: multiples and combinations of points. */
module CurveGroup {
  import opened NumberTheory
  import opened Params
  import opened AbelianGroup
  import opened FieldElement
  import opened Curve
  import opened Jacobian
  import opened GroupTables
  import opened Associativity

  type CurvePoint = p: Point | OnCurve(p, 7) witness Infinity

  function Sum(p: CurvePoint, q: CurvePoint): CurvePoint {
    SumIsOnCurve(p, q, 7);
    AddPoints(p, q)
  }

  function Minus(p: CurvePoint): CurvePoint {
    NegateIsOnCurve(p);
    Negate(p)
  }

  function Secp(): Operations<CurvePoint> {
    Operations<CurvePoint>.Operations(Infinity, Sum, Minus)
  }

  // ------------------------------------------------------------- the group

  /** The points form an abelian group. */
  lemma PointsFormAbelianGroup()
    ensures Laws(Secp())
  {
    hide AddPoints, Negate;
    var g := Secp();
    forall a: CurvePoint, b: CurvePoint ensures g.add(a, b) == g.add(b, a) { SumCommutes(a, b); }
    forall a: CurvePoint, b: CurvePoint, c: CurvePoint ensures g.add(g.add(a, b), c) == g.add(a, g.add(b, c)) {
      SumAssociates(a, b, c);
    }
    forall a: CurvePoint ensures g.add(g.zero, a) == a { SumWithInfinity(a); }
    forall a: CurvePoint ensures g.add(a, g.neg(a)) == g.zero { SumWithOpposite(a); }
  }

  /** The eigenvalue of the endomorphism. */
  const LAMBDA: int := 0x5363ad4c_c05c30e0_a5261c02_8812645a_122e22ea_20816678_df02967c_1b23bd72

  /** LAMBDA is a primitive cube root of unity modulo N, as an eigenvalue of a map of order three must be. */
  lemma LambdaIsCubeRoot()
    ensures (LAMBDA * LAMBDA + LAMBDA + 1) % N == 0
  {
  }

  /** k p. */
  function Multiple(k: int, p: CurvePoint): CurvePoint {
    Times(Secp(), k, p)
  }

  /** x p + y q. */
  function LinearCombination(x: int, p: CurvePoint, y: int, q: CurvePoint): CurvePoint {
    Combination(Secp(), x, p, y, q)
  }

  lemma SecpZero()
    ensures Secp().zero == Infinity
  {
  }

  lemma SecpAdd(p: CurvePoint, q: CurvePoint)
    ensures Secp().add(p, q) == AddPoints(p, q) && Secp().neg(p) == Negate(p)
  {
  }

  // ------------------------------------------------------------- odd multiples

  lemma {:induction false} OddMultipleIsMultiple(p: CurvePoint, i: nat)
    ensures OddMultiple(p, i) == Multiple(2 * i + 1, p)
  {
    hide Sum, Minus, Times, Secp, AddPoints, Laws, OnCurve;
    PointsFormAbelianGroup();
    SmallTimes(Secp(), p);
    if i == 0 {
      FirstOddMultiple(p);
    } else {
      OddMultipleIsMultiple(p, i - 1);
      SumIsOnCurve(p, p, 7);
      SecpAdd(p, p);
      OddMultipleOnCurve(p, i - 1);
      SecpAdd(OddMultiple(p, i - 1), AddPoints(p, p));
      TimesAdd(Secp(), 2 * i - 1, 2, p);
    }
  }

  // ------------------------------------------------------------- steps of the algorithms, on points

  lemma CombinationDoubled(x: int, p: CurvePoint, y: int, q: CurvePoint)
    ensures var s := LinearCombination(x, p, y, q); AddPoints(s, s) == LinearCombination(2 * x, p, 2 * y, q)
  {
    hide Sum, Minus, Times, Secp, AddPoints, Laws, Combination;
    PointsFormAbelianGroup();
    var s := LinearCombination(x, p, y, q);
    SecpAdd(s, s);
    CombinationDouble(Secp(), x, p, y, q);
  }

  lemma CombinationsAdd(x: int, y: int, x': int, y': int, p: CurvePoint, q: CurvePoint)
    ensures AddPoints(LinearCombination(x, p, y, q), LinearCombination(x', p, y', q)) == LinearCombination(x + x', p, y + y', q)
  {
    hide Sum, Minus, Times, Secp, AddPoints, Laws, Combination;
    PointsFormAbelianGroup();
    SecpAdd(LinearCombination(x, p, y, q), LinearCombination(x', p, y', q));
    CombinationAdd(Secp(), x, y, x', y', p, q);
  }

  lemma NegatedCombination(x: int, y: int, p: CurvePoint, q: CurvePoint)
    ensures Negate(LinearCombination(x, p, y, q)) == LinearCombination(-x, p, -y, q)
  {
    hide Sum, Minus, Times, Secp, AddPoints, Laws, Combination;
    PointsFormAbelianGroup();
    var a, b := LinearCombination(x, p, y, q), LinearCombination(-x, p, -y, q);
    SecpAdd(a, b);
    CombinationAdd(Secp(), x, y, -x, -y, p, q);
    CombinationZero(Secp(), p, q);
    NegIsUnique(Secp(), a, b);
  }

  lemma CombinationPlusFirst(x: int, p: CurvePoint, y: int, q: CurvePoint, k: int)
    ensures AddPoints(LinearCombination(x, p, y, q), Multiple(k, p)) == LinearCombination(x + k, p, y, q)
  {
    hide Sum, Minus, Times, Secp, AddPoints, Laws, Combination;
    PointsFormAbelianGroup();
    SecpAdd(LinearCombination(x, p, y, q), Multiple(k, p));
    CombinationAddFirst(Secp(), x, p, y, q, k);
  }

  lemma CombinationPlusSecond(x: int, p: CurvePoint, y: int, q: CurvePoint, k: int)
    ensures AddPoints(LinearCombination(x, p, y, q), Multiple(k, q)) == LinearCombination(x, p, y + k, q)
  {
    hide Sum, Minus, Times, Secp, AddPoints, Laws, Combination;
    PointsFormAbelianGroup();
    SecpAdd(LinearCombination(x, p, y, q), Multiple(k, q));
    CombinationAddSecond(Secp(), x, p, y, q, k);
  }

  lemma NegatedMultiple(k: int, p: CurvePoint)
    ensures Negate(Multiple(k, p)) == Multiple(-k, p)
  {
    hide Sum, Minus, Times, Secp, AddPoints, Laws;
    PointsFormAbelianGroup();
    SecpAdd(Multiple(k, p), Multiple(k, p));
    TimesNeg(Secp(), k, p);
  }

  lemma MultipleOfMultiple(j: int, k: int, p: CurvePoint)
    ensures Multiple(j, Multiple(k, p)) == Multiple(j * k, p)
  {
    hide Sum, Minus, Times, Secp, AddPoints, Laws;
    PointsFormAbelianGroup();
    TimesTimes(Secp(), j, k, p);
  }

  lemma MultiplePlus(j: int, k: int, p: CurvePoint)
    ensures AddPoints(Multiple(j, p), Multiple(k, p)) == Multiple(j + k, p)
  {
    hide Sum, Minus, Times, Secp, AddPoints, Laws;
    PointsFormAbelianGroup();
    SecpAdd(Multiple(j, p), Multiple(k, p));
    TimesAdd(Secp(), j, k, p);
  }

  lemma SmallMultiples(p: CurvePoint)
    ensures Multiple(0, p) == Infinity && Multiple(1, p) == p
  {
    hide Sum, Minus, Times, AddPoints, Laws;
    PointsFormAbelianGroup();
    SmallTimes(Secp(), p);
  }

  lemma DoubleMultiple(p: CurvePoint)
    ensures Multiple(2, p) == Sum(p, p)
  {
    hide Sum, Minus, Times, AddPoints, Laws;
    PointsFormAbelianGroup();
    SecpAdd(p, p);
    SmallTimes(Secp(), p);
  }
}
