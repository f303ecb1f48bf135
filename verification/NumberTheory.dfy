/** Integers modulo a prime: congruences, powers, inverses, Fermat's little theorem.
    Everything above this file reasons about residues through these lemmas. */
module NumberTheory {

  /** a and b leave the same remainder. */
  ghost predicate Cong(a: int, b: int, m: int)
    requires m > 0
  {
    a % m == b % m
  }

  lemma SmallMultipleIsZero(k: int, m: int)
    requires m > 0 && -m < k * m < m
    ensures k == 0
  {
  }

  lemma RemainderIsUnique(a: int, q: int, r: int, m: int)
    requires m > 0 && 0 <= r < m && a == q * m + r
    ensures a % m == r && a / m == q
  {
    var q', r' := a / m, a % m;
    assert a == q' * m + r';
    assert (q - q') * m == q * m - q' * m;
    SmallMultipleIsZero(q - q', m);
  }

  lemma CongFromDifference(a: int, b: int, k: int, m: int)
    requires m > 0 && a == b + k * m
    ensures Cong(a, b, m)
  {
    assert a == (b / m + k) * m + b % m;
    RemainderIsUnique(a, b / m + k, b % m, m);
  }

  lemma DifferenceFromCong(a: int, b: int, m: int) returns (k: int)
    requires m > 0 && Cong(a, b, m)
    ensures a == b + k * m
  {
    k := a / m - b / m;
    assert a == (a / m) * m + a % m && b == (b / m) * m + b % m;
  }

  lemma CongSymmetric(a: int, b: int, m: int)
    requires m > 0 && Cong(a, b, m)
    ensures Cong(b, a, m)
  {
  }

  lemma CongAdd(a: int, a': int, b: int, b': int, m: int)
    requires m > 0 && Cong(a, a', m) && Cong(b, b', m)
    ensures Cong(a + b, a' + b', m) && Cong(a - b, a' - b', m)
  {
    var j := DifferenceFromCong(a, a', m);
    var k := DifferenceFromCong(b, b', m);
    CongFromDifference(a + b, a' + b', j + k, m);
    CongFromDifference(a - b, a' - b', j - k, m);
  }

  lemma CongMul(a: int, a': int, b: int, b': int, m: int)
    requires m > 0 && Cong(a, a', m) && Cong(b, b', m)
    ensures Cong(a * b, a' * b', m)
  {
    var j := DifferenceFromCong(a, a', m);
    var k := DifferenceFromCong(b, b', m);
    var w := ProductOfShifted(a', j, b', k, m);
    CongFromDifference(a * b, a' * b', w, m);
  }

  lemma ProductOfShifted(a: int, j: int, b: int, k: int, m: int) returns (w: int)
    ensures (a + j * m) * (b + k * m) == a * b + w * m
  {
    var x, y := j * m, k * m;
    w := a * k + j * b + j * y;
    assert (a + x) * (b + y) == a * b + a * y + x * b + x * y;
    assert a * y == (a * k) * m && x * b == (j * b) * m && x * y == (j * y) * m;
    assert w * m == (a * k) * m + (j * b) * m + (j * y) * m;
  }

  lemma CongSelf(a: int, m: int)
    requires m > 0
    ensures Cong(a % m, a, m)
  {
    RemainderIsUnique(a % m, 0, a % m, m);
  }

  /** The remainder of the product is the remainder of the product of the remainders. */
  lemma ModMul(a: int, b: int, m: int)
    requires m > 0
    ensures (a * b) % m == ((a % m) * (b % m)) % m == ((a % m) * b) % m
  {
    CongSelf(a, m);
    CongSelf(b, m);
    CongMul(a % m, a, b % m, b, m);
    CongMul(a % m, a, b, b, m);
  }

  // ---------------------------------------------------------------- powers

  function Pow(b: int, e: nat): int {
    if e == 0 then 1 else b * Pow(b, e - 1)
  }

  lemma {:induction false} PowAdd(b: int, e: nat, f: nat)
    ensures Pow(b, e + f) == Pow(b, e) * Pow(b, f)
  {
    if e == 0 {
    } else {
      PowAdd(b, e - 1, f);
      calc {
        Pow(b, e + f);
        b * Pow(b, e - 1 + f);
        b * (Pow(b, e - 1) * Pow(b, f));
        Pow(b, e) * Pow(b, f);
      }
    }
  }

  lemma {:induction false} PowOfPow(b: int, e: nat, f: nat)
    ensures e * f >= 0 && Pow(Pow(b, e), f) == Pow(b, e * f)
  {
    if f == 0 {
    } else {
      PowOfPow(b, e, f - 1);
      assert e * f == e + e * (f - 1);
      PowAdd(b, e, e * (f - 1));
    }
  }

  lemma {:induction false} PowCong(a: int, b: int, e: nat, m: int)
    requires m > 0 && Cong(a, b, m)
    ensures Cong(Pow(a, e), Pow(b, e), m)
  {
    if e > 0 {
      PowCong(a, b, e - 1, m);
      CongMul(a, b, Pow(a, e - 1), Pow(b, e - 1), m);
    }
  }

  lemma {:induction false} PowOne(e: nat)
    ensures Pow(1, e) == 1
  {
    if e > 0 { PowOne(e - 1); }
  }

  lemma {:induction false} PowPositive(b: int, e: nat)
    requires b > 0
    ensures Pow(b, e) > 0
  {
    if e > 0 { PowPositive(b, e - 1); }
  }

  // ---------------------------------------------------------------- primes

  ghost predicate Prime(p: int) {
    p >= 2 && forall d :: 2 <= d < p ==> p % d != 0
  }

  /** Extended Euclid: a common divisor that is an integer combination. */
  lemma Bezout(a: nat, b: nat) returns (g: int, x: int, y: int)
    requires a > 0 || b > 0
    ensures g > 0 && a % g == 0 && b % g == 0 && a * x + b * y == g
    decreases b
  {
    if b == 0 {
      g, x, y := a, 1, 0;
      RemainderIsUnique(a, 1, 0, a);
    } else {
      var q, r := a / b, a % b;
      var x', y';
      g, x', y' := Bezout(b, r);
      x, y := y', x' - q * y';
      BezoutAlgebra(a, b, q, r, x', y');
      DividesCombination(q, b, r, g);
    }
  }

  lemma BezoutAlgebra(a: int, b: int, q: int, r: int, x: int, y: int)
    requires a == q * b + r
    ensures a * y + b * (x - q * y) == b * x + r * y
  {
    assert a * y == q * b * y + r * y;
    assert b * (x - q * y) == b * x - q * b * y;
  }

  lemma DividesCombination(q: int, b: int, r: int, g: int)
    requires g > 0 && b % g == 0 && r % g == 0
    ensures (q * b + r) % g == 0
  {
    var j, k := b / g, r / g;
    assert b == j * g && r == k * g;
    assert q * b == (q * j) * g;
    RemainderIsUnique(q * b + r, q * j + k, 0, g);
  }

  /** Modulo a prime, every nonzero residue has an inverse. */
  lemma InverseExists(a: int, p: int) returns (x: int)
    requires Prime(p) && a % p != 0
    ensures (a * x) % p == 1
  {
    var r := a % p;
    var g, s, t := Bezout(p, r);
    x := t;
    assert r * t == 1 + (-s) * p;
    CongFromDifference(r * t, 1, -s, p);
    ModMul(a, t, p);
    RemainderIsUnique(1, 0, 1, p);
  }

  /** Euclid's lemma: a prime field has no zero divisors. */
  lemma NoZeroDivisors(a: int, b: int, p: int)
    requires Prime(p) && (a * b) % p == 0
    ensures a % p == 0 || b % p == 0
  {
    if a % p != 0 {
      var x := InverseExists(a, p);
      CongMul(a * x, 1, b, b, p) by { RemainderIsUnique(1, 0, 1, p); }
      CongMul(a * b, 0, x, x, p) by { RemainderIsUnique(0, 0, 0, p); }
      SwapFactors(a, x, b);
      RemainderIsUnique(0, 0, 0, p);
    }
  }

  lemma SwapFactors(a: int, x: int, b: int)
    ensures (a * x) * b == (a * b) * x && 1 * b == b && 0 * x == 0
  {
  }

  lemma CancelFactor(a: int, b: int, c: int, p: int)
    requires Prime(p) && c % p != 0 && Cong(a * c, b * c, p)
    ensures Cong(a, b, p)
  {
    var k := DifferenceFromCong(a * c, b * c, p);
    assert (a - b) * c == k * p;
    RemainderIsUnique((a - b) * c, k, 0, p);
    NoZeroDivisors(a - b, c, p);
    assert a == b + ((a - b) / p) * p;
    CongFromDifference(a, b, (a - b) / p, p);
  }

  // ---------------------------------------------------------------- Fermat

  function Choose(n: nat, k: nat): nat {
    if k == 0 then 1 else if n == 0 then 0 else Choose(n - 1, k - 1) + Choose(n - 1, k)
  }

  lemma {:induction false} ChooseDiagonal(n: nat, k: nat)
    ensures k > n ==> Choose(n, k) == 0
    ensures Choose(n, n) == 1
  {
    if n > 0 {
      ChooseDiagonal(n - 1, n);
      ChooseDiagonal(n - 1, k);
      if k > 0 { ChooseDiagonal(n - 1, k - 1); }
    }
  }

  lemma {:induction false} Absorption(n: nat, k: nat)
    requires n > 0 && k > 0
    ensures k * Choose(n, k) == n * Choose(n - 1, k - 1)
  {
    if n == 1 {
      ChooseDiagonal(1, k);
      ChooseDiagonal(0, k);
      ChooseDiagonal(0, k - 1);
    } else if k == 1 {
      Absorption(n - 1, 1);
    } else {
      Absorption(n - 1, k);
      Absorption(n - 1, k - 1);
      var c, d, e := Choose(n - 1, k - 1), Choose(n - 2, k - 1), Choose(n - 2, k - 2);
      AbsorptionStep(n, k, c, d, e, Choose(n - 1, k));
    }
  }

  lemma AbsorptionStep(n: int, k: int, c: int, d: int, e: int, f: int)
    requires c == e + d && k * f == (n - 1) * d && (k - 1) * c == (n - 1) * e
    ensures k * (c + f) == n * c
  {
    assert (n - 1) * c == (n - 1) * e + (n - 1) * d;
    assert k * (c + f) == (k - 1) * c + c + k * f;
  }

  lemma PrimeDividesChoose(p: int, k: int)
    requires Prime(p) && 0 < k < p
    ensures Choose(p, k) % p == 0
  {
    Absorption(p, k);
    RemainderIsUnique(k * Choose(p, k), Choose(p - 1, k - 1), 0, p);
    NoZeroDivisors(k, Choose(p, k), p);
    RemainderIsUnique(k, 0, k, p);
  }

  /** The first j terms of the binomial expansion of (a + 1)^n. */
  function Binomial(a: int, n: nat, j: nat): int {
    if j == 0 then 0 else Binomial(a, n, j - 1) + Choose(n, j - 1) * Pow(a, j - 1)
  }

  lemma {:induction false} BinomialStep(a: int, n: nat, j: nat)
    requires n > 0
    ensures Binomial(a, n, j + 1) == Binomial(a, n - 1, j + 1) + a * Binomial(a, n - 1, j)
  {
    if j == 0 {
      assert Binomial(a, n, 1) == Binomial(a, n, 0) + Choose(n, 0) * Pow(a, 0) == 1;
      assert Binomial(a, n - 1, 1) == Binomial(a, n - 1, 0) + Choose(n - 1, 0) * Pow(a, 0) == 1;
    } else {
      BinomialStep(a, n, j - 1);
      BinomialAlgebra(a, Choose(n - 1, j - 1), Choose(n - 1, j), Pow(a, j - 1), Binomial(a, n - 1, j - 1));
    }
  }

  lemma BinomialAlgebra(a: int, c: int, d: int, w: int, s: int)
    ensures (c + d) * (a * w) + a * s == d * (a * w) + a * (s + c * w)
  {
    assert (c + d) * (a * w) == c * (a * w) + d * (a * w);
    assert a * (s + c * w) == a * s + a * (c * w);
    assert c * (a * w) == a * (c * w);
  }

  lemma MulSuccessor(a: int, b: int)
    ensures (a + 1) * b == b + a * b
  {
  }

  lemma {:induction false} BinomialTheorem(a: int, n: nat)
    ensures Pow(a + 1, n) == Binomial(a, n, n + 1)
  {
    if n == 0 {
      assert Binomial(a, 0, 1) == Binomial(a, 0, 0) + Choose(0, 0) * Pow(a, 0);
    } else {
      BinomialTheorem(a, n - 1);
      BinomialStep(a, n, n);
      ChooseDiagonal(n - 1, n);
      assert Binomial(a, n - 1, n + 1) == Binomial(a, n - 1, n);
      MulSuccessor(a, Pow(a + 1, n - 1));
    }
  }

  lemma {:induction false} BinomialModPrime(a: int, p: int, j: nat)
    requires Prime(p) && 1 <= j <= p
    ensures Cong(Binomial(a, p, j), 1, p)
  {
    if j == 1 {
      assert Binomial(a, p, 1) == Binomial(a, p, 0) + Choose(p, 0) * Pow(a, 0);
    } else {
      BinomialModPrime(a, p, j - 1);
      PrimeDividesChoose(p, j - 1);
      CongMul(Choose(p, j - 1), 0, Pow(a, j - 1), Pow(a, j - 1), p) by { RemainderIsUnique(0, 0, 0, p); }
      CongAdd(Binomial(a, p, j - 1), 1, Choose(p, j - 1) * Pow(a, j - 1), 0, p);
    }
  }

  lemma {:induction false} FermatNat(a: nat, p: int)
    requires Prime(p)
    ensures Cong(Pow(a, p), a, p)
  {
    if a > 0 {
      FermatNat(a - 1, p);
      BinomialTheorem(a - 1, p);
      BinomialModPrime(a - 1, p, p);
      ChooseDiagonal(p, p);
      assert Binomial(a - 1, p, p + 1) == Binomial(a - 1, p, p) + 1 * Pow(a - 1, p);
      CongAdd(Binomial(a - 1, p, p), 1, Pow(a - 1, p), a - 1, p);
    }
  }

  /** Fermat's little theorem. */
  lemma Fermat(a: int, p: int)
    requires Prime(p) && a % p != 0
    ensures Pow(a, p - 1) % p == 1
  {
    CongSelf(a, p);
    FermatNat(a % p, p);
    PowCong(a % p, a, p, p);
    FermatCancel(Pow(a, p - 1), a, p) by {
      assert Pow(a, p) == a * Pow(a, p - 1);
    }
  }

  lemma FermatCancel(w: int, a: int, p: int)
    requires Prime(p) && a % p != 0 && Cong(a * w, a, p)
    ensures w % p == 1
  {
    assert a * w == w * a && a == 1 * a;
    CancelFactor(w, 1, a, p);
    RemainderIsUnique(1, 0, 1, p);
  }
}
