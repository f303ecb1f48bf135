/** The points of secp256k1 are the multiples of its generator, whose order is the prime N, and the endomorphism
    multiplies every point by LAMBDA. */
module CyclicGroup {
  import opened NumberTheory
  import opened Params
  import opened AbelianGroup
  import opened FieldElement
  import opened Curve
  import opened Jacobian
  import opened GroupTables
  import opened Associativity
  import opened CurveGroup
  import opened GeneratorPoint
  import opened GeneratorChain
  import PointDecoding
  import Secp256k1Order

  // ------------------------------------------------------------- the endomorphism and multiples

  lemma EndomorphismOfNegate(p: Point)
    ensures Endomorphism(Negate(p)) == Negate(Endomorphism(p)) && Endomorphism(Infinity) == Infinity
  {
  }

  lemma {:induction false} EndomorphismOfMultiple(k: int, p: CurvePoint)
    ensures OnCurve(Endomorphism(p), 7) && Endomorphism(Multiple(k, p)) == Multiple(k, Endomorphism(p))
    decreases if k < 0 then -k else k
  {
    hide AddPoints, Multiple, Endomorphism, OnCurve, Negate;
    EndomorphismOnCurve(p);
    var q: CurvePoint := Endomorphism(p);
    SmallMultiples(p); SmallMultiples(q);
    EndomorphismOfNegate(p);
    if k > 0 {
      EndomorphismOfMultiple(k - 1, p);
      MultiplePlus(k - 1, 1, p); MultiplePlus(k - 1, 1, q);
      EndomorphismOfSum(Multiple(k - 1, p), p);
    } else if k < 0 {
      EndomorphismOfMultiple(k + 1, p);
      MultiplePlus(k + 1, -1, p); MultiplePlus(k + 1, -1, q);
      NegatedMultiple(1, p); NegatedMultiple(1, q);
      EndomorphismOfSum(Multiple(k + 1, p), Multiple(-1, p));
    }
  }

  // ------------------------------------------------------------- the order of the generator

  lemma CombinationOfMultiples(x: int, p: CurvePoint, y: int, q: CurvePoint)
    ensures LinearCombination(x, p, y, q) == AddPoints(Multiple(x, p), Multiple(y, q))
  {
    SecpAdd(Multiple(x, p), Multiple(y, q));
  }

  lemma MultipleOfCombination(k: nat, x: int, p: CurvePoint, y: int, q: CurvePoint)
    ensures Multiple(k, LinearCombination(x, p, y, q)) == LinearCombination(k * x, p, k * y, q)
  {
    hide Sum, Minus, Times, Secp, AddPoints, Laws, Combination;
    PointsFormAbelianGroup();
    TimesCombination(Secp(), k, x, y, p, q);
  }

  lemma MultipleOfInfinity(k: int)
    ensures Multiple(k, Infinity) == Infinity
  {
    hide Sum, Minus, Times, Secp, AddPoints, Laws;
    PointsFormAbelianGroup();
    SecpZero();
    TimesZero(Secp(), k);
  }

  /** The image of the image is -(G + image of G). */
  lemma SecondImage()
    ensures OnCurve(Endomorphism(ImageOfG()), 7) && Endomorphism(ImageOfG()) == LinearCombination(-1, G(), -1, ImageOfG())
  {
    hide LinearCombination, Endomorphism, G, ImageOfG, OnCurve;
    EndomorphismOnCurve(ImageOfG());
    Units();
    ImageCoordinates();
  }

  /** The image of the relation is another one. */
  lemma SecondRelation()
    ensures LinearCombination(-B1, G(), A1 - B1, ImageOfG()) == Infinity
  {
    hide LinearCombination, Multiple, AddPoints, Endomorphism, G, ImageOfG, OnCurve, Negate;
    var g, i: CurvePoint := G(), ImageOfG();
    Relation(); SecondImage();
    CombinationOfMultiples(A1, g, B1, i);
    EndomorphismOfSum(Multiple(A1, g), Multiple(B1, i));
    EndomorphismOfNegate(g);
    EndomorphismOfMultiple(A1, g); EndomorphismOfMultiple(B1, i);
    ImageIs();
    var j: CurvePoint := LinearCombination(1, g, 1, i);
    NegatedCombination(1, 1, g, i);
    NegatedMultiple(1, j); SmallMultiples(j); SmallMultiples(g);
    MultipleOfMultiple(B1, -1, j);
    MultipleOfCombination(-B1, 1, g, 1, i);
    CombinationOfMultiples(0, g, A1, i);
    SumWithInfinity(Multiple(A1, i));
    CombinationsAdd(0, A1, -B1, -B1, g, i);
  }

  lemma ImageIs()
    ensures ImageOfG() == Endomorphism(G())
  {
  }

  /** N is the norm of A1 + B1 w, where w is a cube root of unity. */
  lemma NormIsN()
    ensures (A1 - B1) * A1 + -B1 * -B1 == N && (A1 - B1) * B1 + -B1 * (A1 - B1) == 0
  {
  }

  lemma OrderOfG()
    ensures Multiple(N, G()) == Infinity
  {
    hide LinearCombination, Multiple, AddPoints, G, ImageOfG;
    var g, i: CurvePoint := G(), ImageOfG();
    Relation(); SecondRelation(); NormIsN();
    MultipleOfInfinity(A1 - B1); MultipleOfInfinity(-B1);
    MultipleOfCombination(A1 - B1, A1, g, B1, i);
    MultipleOfCombination(-B1, -B1, g, A1 - B1, i);
    CombinationsAdd((A1 - B1) * A1, (A1 - B1) * B1, -B1 * -B1, -B1 * (A1 - B1), g, i);
    SumWithInfinity(Infinity);
    CombinationOfMultiples(N, g, 0, i);
    SmallMultiples(i);
    SumWithInfinity(Multiple(N, g));
  }

  /** The inverse of B1 modulo N. */
  const C1: int := 0x31B1633F_C5AB1FCC_52B833BB_09096F75_15AE3B75_6978BF8C_77E177DF_F9273B38

  lemma InverseOfB1()
    ensures (C1 * B1) % N == 1 % N && (C1 * A1) % N == -LAMBDA % N
  {
  }

  lemma ImageIsLambdaG()
    ensures ImageOfG() == Multiple(LAMBDA, G())
  {
    hide LinearCombination, Multiple, AddPoints, G, ImageOfG, Endomorphism, Negate;
    var g, i: CurvePoint := G(), ImageOfG();
    Relation(); OrderOfG(); InverseOfB1(); ImageIs();
    EndomorphismOfMultiple(N, g);
    EndomorphismOfNegate(g);
    MultipleOfInfinity(C1);
    MultipleOfCombination(C1, A1, g, B1, i);
    CombinationOfMultiples(C1 * A1, g, C1 * B1, i);
    SameMultiple(C1 * B1, 1, i); SameMultiple(C1 * A1, -LAMBDA, g);
    SmallMultiples(i);
    NegatedMultiple(-LAMBDA, g);
    OppositeOfSum(Multiple(-LAMBDA, g), i);
  }

  lemma OppositeOfSum(p: CurvePoint, q: CurvePoint)
    requires AddPoints(p, q) == Infinity
    ensures q == Negate(p)
  {
    hide Sum, Minus, AddPoints, Laws;
    PointsFormAbelianGroup();
    SecpAdd(p, q);
    NegIsUnique(Secp(), p, q);
  }

  lemma SameMultiple(j: int, k: int, p: CurvePoint)
    requires Multiple(N, p) == Infinity && j % N == k % N
    ensures Multiple(j, p) == Multiple(k, p)
  {
    hide Sum, Minus, Times, Secp, AddPoints, Laws;
    PointsFormAbelianGroup();
    SecpZero();
    TimesModulo(Secp(), j, k, N, p);
  }

  lemma GIsFinite()
    ensures G() != Infinity
  {
  }

  lemma PrimeOrder(k: int, p: CurvePoint)
    requires Multiple(N, p) == Infinity && p != Infinity && k % N != 0
    ensures Multiple(k, p) != Infinity
  {
    hide Sum, Minus, Times, Secp, AddPoints, Laws;
    PointsFormAbelianGroup();
    SecpZero();
    Secp256k1Order.NIsPrime();
    if Multiple(k, p) == Infinity { TimesIsNonzero(Secp(), k, N, p); }
  }

  // ------------------------------------------------------------- there are no other points

  ghost predicate Generated(p: CurvePoint) {
    exists k: int :: p == Multiple(k, G())
  }

  lemma NoOrderTwo(p: CurvePoint)
    requires AddPoints(p, p) == Infinity
    ensures p == Infinity
  {
    if p.Affine? { OrdinateIsNonzero(p); }
  }

  /** Half of a multiple is a multiple, because N is odd and there is no point of order two. */
  lemma HalfIsGenerated(p: CurvePoint, t: int)
    requires AddPoints(p, p) == Multiple(t, G())
    ensures Generated(p)
  {
    hide LinearCombination, Multiple, AddPoints, G, Negate, OnCurve;
    var g := G();
    var h := HalfOf(t);
    var q := LinearCombination(1, p, -h, g);
    CombinationDoubled(1, p, -h, g);
    CombinationOfMultiples(2, p, -2 * h, g);
    DoubleMultiple(p); SecpAdd(p, p);
    MultiplePlus(t, -2 * h, g);
    MultipleOfMultiple(-t, N, g);
    OrderOfG(); MultipleOfInfinity(-t);
    NoOrderTwo(q);
    CombinationOfMultiples(1, p, -h, g);
    SmallMultiples(p);
    SumCommutes(p, Multiple(-h, g));
    OppositeOfSum(Multiple(-h, g), p);
    NegatedMultiple(-h, g);
    assert p == Multiple(h, g);
  }

  lemma HalfOf(t: int) returns (h: int)
    ensures t + -2 * h == -t * N
  {
    h := t * ((N + 1) / 2);
    assert 2 * ((N + 1) / 2) == N + 1;
  }

  /** 3N points, if p is not generated: the multiples of G, and those moved by p and by -p. */
  ghost function Coset(p: CurvePoint, i: int): CurvePoint {
    LinearCombination(Shift(i), p, i - Shifted(i), G())
  }

  function Shift(i: int): int {
    if i < N then 0 else if i < 2 * N then 1 else -1
  }

  function Shifted(i: int): int {
    if i < N then 0 else if i < 2 * N then N else 2 * N
  }

  lemma EqualCombinations(x: int, y: int, x': int, y': int, p: CurvePoint, q: CurvePoint)
    requires LinearCombination(x, p, y, q) == LinearCombination(x', p, y', q)
    ensures LinearCombination(x - x', p, y - y', q) == Infinity
  {
    hide LinearCombination, AddPoints, Negate;
    NegatedCombination(x', y', p, q);
    CombinationsAdd(x, y, -x', -y', p, q);
    SumWithOpposite(LinearCombination(x, p, y, q));
  }

  lemma SmallRelation(d: int, p: CurvePoint, j: int)
    requires LinearCombination(d, p, j, G()) == Infinity && (d == 1 || d == 2)
    ensures Generated(p)
  {
    hide LinearCombination, Multiple, AddPoints, G, Negate;
    var g := G();
    CombinationOfMultiples(d, p, j, g);
    SumCommutes(Multiple(d, p), Multiple(j, g));
    OppositeOfSum(Multiple(j, g), Multiple(d, p));
    NegatedMultiple(j, g);
    if d == 1 {
      SmallMultiples(p);
    } else {
      DoubleMultiple(p); SecpAdd(p, p);
      HalfIsGenerated(p, -j);
    }
  }

  lemma AnyRelation(d: int, p: CurvePoint, j: int)
    requires LinearCombination(d, p, j, G()) == Infinity && -2 <= d <= 2 && d != 0
    ensures Generated(p)
  {
    hide LinearCombination, G;
    if d < 0 {
      NegatedCombination(d, j, p, G());
      SmallRelation(-d, p, -j);
    } else {
      SmallRelation(d, p, j);
    }
  }

  lemma CosetsAreDistinct(p: CurvePoint, i: int, k: int)
    requires !Generated(p) && 0 <= i < 3 * N && 0 <= k < 3 * N && Coset(p, i) == Coset(p, k)
    ensures i == k
  {
    hide LinearCombination, Multiple, G, Generated, AddPoints;
    var d, j := Shift(i) - Shift(k), (i - Shifted(i)) - (k - Shifted(k));
    EqualCombinations(Shift(i), i - Shifted(i), Shift(k), k - Shifted(k), p, G());
    if d != 0 {
      AnyRelation(d, p, j);
    } else if j != 0 {
      CombinationOfMultiples(0, p, j, G());
      SmallMultiples(p);
      SumWithInfinity(Multiple(j, G()));
      RemainderIsUnique(j, if j < 0 then -1 else 0, if j < 0 then j + N else j, N);
      OrderOfG(); GIsFinite();
      PrimeOrder(j, G());
    }
  }

  /** A point as a number up to 2P: its abscissa and the parity of its ordinate. */
  ghost function Code(p: CurvePoint): int {
    if p.Infinity? then 2 * P else 2 * p.x + p.y % 2
  }

  lemma CodeInRange(p: CurvePoint)
    ensures 0 <= Code(p) <= 2 * P
  {
    CurvePointInRange(p, 7);
    if p.Affine? { ResidueInRange(p.x); }
  }

  lemma CodeDecides(p: CurvePoint, q: CurvePoint)
    requires Code(p) == Code(q)
    ensures p == q
  {
    CurvePointInRange(p, 7); CurvePointInRange(q, 7);
    if p.Affine? { ResidueInRange(p.x); }
    if q.Affine? { ResidueInRange(q.x); }
    if p.Affine? && q.Affine? {
      PointDecoding.ParityDecides(p, q);
    }
  }

  lemma {:induction false} AtMost(s: set<int>, m: nat)
    requires forall x :: x in s ==> 0 <= x < m
    ensures |s| <= m
  {
    if m > 0 {
      AtMost(s - {m - 1}, m - 1);
    } else {
      assert forall x :: x !in s;
    }
  }

  lemma {:induction false} AsManyValues(f: int -> int, k: nat) returns (s: set<int>)
    requires forall i, j :: 0 <= i < j < k ==> f(i) != f(j)
    ensures |s| == k && forall x :: x in s <==> exists i :: 0 <= i < k && f(i) == x
  {
    s := {};
    if k > 0 {
      var s' := AsManyValues(f, k - 1);
      assert f(k - 1) !in s';
      s := s' + {f(k - 1)};
      forall x ensures x in s <==> exists i :: 0 <= i < k && f(i) == x {
        if x in s' {
          var i :| 0 <= i < k - 1 && f(i) == x;
          assert 0 <= i < k;
        }
      }
    }
  }

  /** There are at most 2P + 1 points, so every point is a multiple of G. */
  lemma EveryPointIsGenerated(p: CurvePoint)
    ensures Generated(p)
  {
    hide Generated, Coset, Code;
    if !Generated(p) {
      var f := (i: int) => Code(Coset(p, i));
      forall i, j | 0 <= i < j < 3 * N ensures f(i) != f(j) {
        if f(i) == f(j) {
          CodeDecides(Coset(p, i), Coset(p, j));
          CosetsAreDistinct(p, i, j);
        }
      }
      var s := AsManyValues(f, 3 * N);
      forall x | x in s ensures 0 <= x < 2 * P + 1 {
        var i :| 0 <= i < 3 * N && f(i) == x;
        CodeInRange(Coset(p, i));
      }
      AtMost(s, 2 * P + 1);
      assert false;
    }
  }

  // ------------------------------------------------------------- what follows for every point

  /** Every point has order dividing N. */
  lemma OrderDividesN(p: CurvePoint)
    ensures Multiple(N, p) == Infinity
  {
    hide Multiple, G, AddPoints;
    EveryPointIsGenerated(p);
    var k :| p == Multiple(k, G());
    MultipleOfMultiple(N, k, G()); MultipleOfMultiple(k, N, G());
    assert N * k == k * N;
    OrderOfG();
    MultipleOfInfinity(k);
  }

  /** The endomorphism is multiplication by LAMBDA. */
  lemma EndomorphismIsLambda(p: CurvePoint)
    ensures Endomorphism(p) == Multiple(LAMBDA, p)
  {
    hide Multiple, G, ImageOfG, AddPoints, Endomorphism;
    EveryPointIsGenerated(p);
    var k :| p == Multiple(k, G());
    EndomorphismOfMultiple(k, G());
    ImageIs(); ImageIsLambdaG();
    MultipleOfMultiple(k, LAMBDA, G()); MultipleOfMultiple(LAMBDA, k, G());
    assert k * LAMBDA == LAMBDA * k;
  }

  lemma MultipleModN(j: int, k: int, p: CurvePoint)
    requires j % N == k % N
    ensures Multiple(j, p) == Multiple(k, p)
  {
    OrderDividesN(p);
    SameMultiple(j, k, p);
  }

  lemma MultipleIsNonzero(k: int, p: CurvePoint)
    requires p != Infinity && k % N != 0
    ensures Multiple(k, p) != Infinity
  {
    OrderDividesN(p);
    PrimeOrder(k, p);
  }

  /** So a table of odd multiples never contains the point at infinity. */
  lemma OddMultiplesAreFinite(p: CurvePoint, n: nat)
    requires p != Infinity && 2 * n < N
    ensures AllFinite(p, n)
  {
    hide OddMultiple, Multiple, AllFinite;
    forall i | 0 <= i < n
      ensures OddMultiple(p, i) != Infinity
    {
      OddMultipleIsMultiple(p, i);
      RemainderIsUnique(2 * i + 1, 0, 2 * i + 1, N);
      MultipleIsNonzero(2 * i + 1, p);
    }
    AllFiniteIntro(p, n);
  }

  lemma AllFiniteIntro(p: Point, n: nat)
    requires forall i :: 0 <= i < n ==> OddMultiple(p, i) != Infinity
    ensures AllFinite(p, n)
  {
  }

  lemma CombinationModN(x: int, x': int, p: CurvePoint, y: int, y': int, q: CurvePoint)
    requires x % N == x' % N && y % N == y' % N
    ensures LinearCombination(x, p, y, q) == LinearCombination(x', p, y', q)
  {
    MultipleModN(x, x', p);
    MultipleModN(y, y', q);
  }
}
