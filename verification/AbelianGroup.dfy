/** Integer multiples in an abelian group. */
module AbelianGroup {
  import opened NumberTheory

  datatype Operations<!T> = Operations(zero: T, add: (T, T) -> T, neg: T -> T)

  ghost predicate Laws<T(!new)>(g: Operations<T>) {
    && (forall a, b :: g.add(a, b) == g.add(b, a))
    && (forall a, b, c {:trigger g.add(g.add(a, b), c)} :: g.add(g.add(a, b), c) == g.add(a, g.add(b, c)))
    && (forall a {:trigger g.add(g.zero, a)} :: g.add(g.zero, a) == a)
    && (forall a {:trigger g.neg(a)} :: g.add(a, g.neg(a)) == g.zero)
  }

  /** k a, for any integer k. */
  function Times<T>(g: Operations<T>, k: int, a: T): T
    decreases if k < 0 then -k else k
  {
    if k == 0 then g.zero
    else if k > 0 then g.add(Times(g, k - 1, a), a)
    else g.add(Times(g, k + 1, a), g.neg(a))
  }

  // ------------------------------------------------------------- the laws, one instance at a time

  lemma Commutes<T(!new)>(g: Operations<T>, a: T, b: T)
    requires Laws(g)
    ensures g.add(a, b) == g.add(b, a)
  {
  }

  lemma Associates<T(!new)>(g: Operations<T>, a: T, b: T, c: T)
    requires Laws(g)
    ensures g.add(g.add(a, b), c) == g.add(a, g.add(b, c))
  {
  }

  lemma Zero<T(!new)>(g: Operations<T>, a: T)
    requires Laws(g)
    ensures g.add(g.zero, a) == a && g.add(a, g.zero) == a
  {
    Commutes(g, a, g.zero);
  }

  lemma Opposite<T(!new)>(g: Operations<T>, a: T)
    requires Laws(g)
    ensures g.add(a, g.neg(a)) == g.zero && g.add(g.neg(a), a) == g.zero
  {
    Commutes(g, a, g.neg(a));
  }

  lemma CancelRight<T(!new)>(g: Operations<T>, a: T, b: T)
    requires Laws(g)
    ensures g.add(g.add(a, b), g.neg(b)) == a && g.add(g.add(a, g.neg(b)), b) == a
  {
    hide Laws;
    Associates(g, a, b, g.neg(b));
    Associates(g, a, g.neg(b), b);
    Opposite(g, b);
    Zero(g, a);
  }

  lemma Interchange<T(!new)>(g: Operations<T>, a: T, b: T, c: T, d: T)
    requires Laws(g)
    ensures g.add(g.add(a, b), g.add(c, d)) == g.add(g.add(a, c), g.add(b, d))
  {
    hide Laws;
    Associates(g, a, b, g.add(c, d));
    Associates(g, b, c, d);
    Commutes(g, b, c);
    Associates(g, c, b, d);
    Associates(g, a, c, g.add(b, d));
  }

  lemma NegIsUnique<T(!new)>(g: Operations<T>, a: T, b: T)
    requires Laws(g) && g.add(a, b) == g.zero
    ensures b == g.neg(a) && a == g.neg(b)
  {
    hide Laws;
    CancelRight(g, a, b);
    Commutes(g, a, b);
    CancelRight(g, b, a);
    Zero(g, g.neg(a));
    Zero(g, g.neg(b));
  }

  // ------------------------------------------------------------- multiples

  lemma TimesStep<T(!new)>(g: Operations<T>, k: int, a: T)
    requires Laws(g)
    ensures Times(g, k + 1, a) == g.add(Times(g, k, a), a)
  {
    hide Laws;
    if k < 0 {
      CancelRight(g, Times(g, k + 1, a), a);
    }
  }

  lemma TimesBack<T(!new)>(g: Operations<T>, k: int, a: T)
    requires Laws(g)
    ensures Times(g, k - 1, a) == g.add(Times(g, k, a), g.neg(a))
  {
    hide Times, Laws;
    TimesStep(g, k - 1, a);
    CancelRight(g, Times(g, k - 1, a), a);
  }

  lemma SmallTimes<T(!new)>(g: Operations<T>, a: T)
    requires Laws(g)
    ensures Times(g, 0, a) == g.zero && Times(g, 1, a) == a && Times(g, -1, a) == g.neg(a)
    ensures Times(g, 2, a) == g.add(a, a)
  {
    hide Laws;
    TimesStep(g, 0, a);
    TimesStep(g, 1, a);
    TimesBack(g, 0, a);
    Zero(g, a);
    Zero(g, g.neg(a));
  }

  lemma {:induction false} TimesAdd<T(!new)>(g: Operations<T>, j: int, k: int, a: T)
    requires Laws(g)
    ensures Times(g, j + k, a) == g.add(Times(g, j, a), Times(g, k, a))
    decreases if k < 0 then -k else k
  {
    hide Laws, Times;
    SmallTimes(g, a);
    if k == 0 {
      Zero(g, Times(g, j, a));
    } else if k > 0 {
      TimesAdd(g, j, k - 1, a);
      TimesStep(g, j + k - 1, a);
      TimesStep(g, k - 1, a);
      Associates(g, Times(g, j, a), Times(g, k - 1, a), a);
    } else {
      TimesAdd(g, j, k + 1, a);
      TimesBack(g, j + k + 1, a);
      TimesBack(g, k + 1, a);
      Associates(g, Times(g, j, a), Times(g, k + 1, a), g.neg(a));
    }
  }

  lemma TimesNeg<T(!new)>(g: Operations<T>, k: int, a: T)
    requires Laws(g)
    ensures Times(g, -k, a) == g.neg(Times(g, k, a))
  {
    hide Laws, Times;
    TimesAdd(g, k, -k, a);
    SmallTimes(g, a);
    NegIsUnique(g, Times(g, k, a), Times(g, -k, a));
  }

  lemma {:induction false} TimesTimes<T(!new)>(g: Operations<T>, j: int, k: int, a: T)
    requires Laws(g)
    ensures Times(g, j, Times(g, k, a)) == Times(g, j * k, a)
    decreases if j < 0 then -j else j
  {
    hide Laws, Times;
    var b := Times(g, k, a);
    SmallTimes(g, a);
    SmallTimes(g, b);
    if j == 0 {
    } else if j > 0 {
      TimesTimes(g, j - 1, k, a);
      TimesStep(g, j - 1, b);
      TimesAdd(g, (j - 1) * k, k, a);
      assert (j - 1) * k + k == j * k;
    } else {
      TimesTimes(g, j + 1, k, a);
      TimesBack(g, j + 1, b);
      TimesNeg(g, k, a);
      TimesAdd(g, (j + 1) * k, -k, a);
      assert (j + 1) * k - k == j * k;
    }
  }

  lemma {:induction false} TimesZero<T(!new)>(g: Operations<T>, k: int)
    requires Laws(g)
    ensures Times(g, k, g.zero) == g.zero
  {
    hide Laws, Times;
    SmallTimes(g, g.zero);
    TimesTimes(g, k, 0, g.zero);
  }

  lemma {:induction false} TimesOfSum<T(!new)>(g: Operations<T>, k: nat, a: T, b: T)
    requires Laws(g)
    ensures Times(g, k, g.add(a, b)) == g.add(Times(g, k, a), Times(g, k, b))
  {
    hide Laws, Times;
    if k == 0 {
      SmallTimes(g, a); SmallTimes(g, b); SmallTimes(g, g.add(a, b));
      Zero(g, g.zero);
    } else {
      TimesOfSum(g, k - 1, a, b);
      TimesStep(g, k - 1, a); TimesStep(g, k - 1, b); TimesStep(g, k - 1, g.add(a, b));
      Interchange(g, Times(g, k - 1, a), Times(g, k - 1, b), a, b);
    }
  }

  /** If n a = 0, only the factor modulo n matters. */
  lemma TimesModulo<T(!new)>(g: Operations<T>, j: int, k: int, n: int, a: T)
    requires Laws(g) && n > 0 && Times(g, n, a) == g.zero && j % n == k % n
    ensures Times(g, j, a) == Times(g, k, a)
  {
    hide Laws, Times;
    var d := DifferenceFromCong(j, k, n);
    TimesAdd(g, k, d * n, a);
    TimesTimes(g, d, n, a);
    TimesZero(g, d);
    Zero(g, Times(g, k, a));
  }

  /** In prime order, a multiple by a number that the order does not divide vanishes only for 0. */
  lemma TimesIsNonzero<T(!new)>(g: Operations<T>, k: int, p: int, a: T)
    requires Laws(g) && Prime(p) && Times(g, p, a) == g.zero && k % p != 0 && Times(g, k, a) == g.zero
    ensures a == g.zero
  {
    hide Laws, Times;
    var x := InverseExists(k, p);
    RemainderIsUnique(1, 0, 1, p);
    assert k * x == x * k;
    TimesModulo(g, x * k, 1, p, a);
    TimesTimes(g, x, k, a);
    TimesZero(g, x);
    SmallTimes(g, a);
  }

  // ------------------------------------------------------------- combinations of two points

  /** x a + y b. */
  function Combination<T>(g: Operations<T>, x: int, a: T, y: int, b: T): T {
    g.add(Times(g, x, a), Times(g, y, b))
  }

  lemma CombinationZero<T(!new)>(g: Operations<T>, a: T, b: T)
    requires Laws(g)
    ensures Combination(g, 0, a, 0, b) == g.zero
  {
    hide Laws;
    Zero(g, g.zero);
  }

  lemma CombinationDouble<T(!new)>(g: Operations<T>, x: int, a: T, y: int, b: T)
    requires Laws(g)
    ensures var s := Combination(g, x, a, y, b); g.add(s, s) == Combination(g, 2 * x, a, 2 * y, b)
  {
    hide Laws, Times;
    Interchange(g, Times(g, x, a), Times(g, y, b), Times(g, x, a), Times(g, y, b));
    TimesAdd(g, x, x, a);
    TimesAdd(g, y, y, b);
  }

  lemma CombinationAdd<T(!new)>(g: Operations<T>, x: int, y: int, x': int, y': int, a: T, b: T)
    requires Laws(g)
    ensures g.add(Combination(g, x, a, y, b), Combination(g, x', a, y', b)) == Combination(g, x + x', a, y + y', b)
  {
    hide Laws, Times;
    Interchange(g, Times(g, x, a), Times(g, y, b), Times(g, x', a), Times(g, y', b));
    TimesAdd(g, x, x', a);
    TimesAdd(g, y, y', b);
  }

  lemma TimesCombination<T(!new)>(g: Operations<T>, k: nat, x: int, y: int, a: T, b: T)
    requires Laws(g)
    ensures Times(g, k, Combination(g, x, a, y, b)) == Combination(g, k * x, a, k * y, b)
  {
    hide Laws, Times;
    TimesOfSum(g, k, Times(g, x, a), Times(g, y, b));
    TimesTimes(g, k, x, a);
    TimesTimes(g, k, y, b);
  }

  lemma CombinationAddFirst<T(!new)>(g: Operations<T>, x: int, a: T, y: int, b: T, k: int)
    requires Laws(g)
    ensures g.add(Combination(g, x, a, y, b), Times(g, k, a)) == Combination(g, x + k, a, y, b)
  {
    hide Laws, Times;
    var u, v, w := Times(g, x, a), Times(g, y, b), Times(g, k, a);
    Associates(g, u, v, w);
    Commutes(g, v, w);
    Associates(g, u, w, v);
    TimesAdd(g, x, k, a);
  }

  lemma CombinationAddSecond<T(!new)>(g: Operations<T>, x: int, a: T, y: int, b: T, k: int)
    requires Laws(g)
    ensures g.add(Combination(g, x, a, y, b), Times(g, k, b)) == Combination(g, x, a, y + k, b)
  {
    hide Laws, Times;
    Associates(g, Times(g, x, a), Times(g, y, b), Times(g, k, b));
    TimesAdd(g, y, k, b);
  }
}
