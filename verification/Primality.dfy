/** Certificates for large primes (Pocklington): powers modulo m are followed one squaring at a time, and an element
    whose order is a large prime q forces every prime factor of m above q. */
module Primality {
  import opened NumberTheory

  // ------------------------------------------------------------- following a power

  /** Appending one bit to the exponent squares the power, and multiplies by the base if the bit is set. */
  lemma SquareStep(b: int, e: nat, x: int, d: bool, y: int, m: int)
    requires m > 0 && Pow(b, e) % m == x && (x * x * (if d then b else 1)) % m == y
    ensures Pow(b, 2 * e + (if d then 1 else 0)) % m == y
  {
    PowAdd(b, e, e);
    ModMul(Pow(b, e), Pow(b, e), m);
    if d {
      assert Pow(b, 2 * e + 1) == b * Pow(b, 2 * e);
      ModMul(Pow(b, 2 * e), b, m);
      ModMul(x * x, b, m);
    }
  }

  /** Four steps, with the residues in between as arguments. */
  lemma FourSteps(b: int, m: int, e: nat, x: int, d3: bool, x3: int, d2: bool, x2: int, d1: bool, x1: int, d0: bool, y: int,
                  e': nat)
    requires m > 0 && Pow(b, e) % m == x
    requires (x * x * (if d3 then b else 1)) % m == x3
    requires (x3 * x3 * (if d2 then b else 1)) % m == x2
    requires (x2 * x2 * (if d1 then b else 1)) % m == x1
    requires (x1 * x1 * (if d0 then b else 1)) % m == y
    requires e' == 16 * e + (if d3 then 8 else 0) + (if d2 then 4 else 0) + (if d1 then 2 else 0) + (if d0 then 1 else 0)
    ensures Pow(b, e') % m == y
  {
    hide Pow;
    var e3 := 2 * e + (if d3 then 1 else 0);
    var e2 := 2 * e3 + (if d2 then 1 else 0);
    var e1 := 2 * e2 + (if d1 then 1 else 0);
    SquareStep(b, e, x, d3, x3, m);
    SquareStep(b, e3, x3, d2, x2, m);
    SquareStep(b, e2, x2, d1, x1, m);
    SquareStep(b, e1, x1, d0, y, m);
  }

  lemma PowZero(b: int, m: int)
    requires m > 1
    ensures Pow(b, 0) % m == 1
  {
    RemainderIsUnique(1, 0, 1, m);
  }

  lemma PowFirst(b: int, m: int)
    requires m > 0
    ensures Pow(b, 1) % m == b % m
  {
    assert Pow(b, 1) == b * Pow(b, 0);
  }

  // ------------------------------------------------------------- the criterion

  lemma SmallestFactor(n: int) returns (r: int)
    requires n >= 2
    ensures Prime(r) && n % r == 0 && (r * r <= n || r == n)
  {
    r := 2;
    while n % r != 0
      invariant 2 <= r <= n && forall d :: 2 <= d < r ==> n % d != 0
      decreases n - r
    {
      RemainderIsUnique(n, 1, 0, n);
      r := r + 1;
    }
    forall d | 2 <= d < r
      ensures r % d != 0
    {
      if r % d == 0 { DividesTransitive(n, r, d); }
    }
    if r < n {
      var k := n / r;
      assert n == k * r && k >= 2;
      RemainderIsUnique(n, r, 0, k);
      assert k >= r;
      MulMonotone(r, k, r);
    }
  }

  lemma MulMonotone(a: int, b: int, c: int)
    requires a <= b && c >= 0
    ensures a * c <= b * c
  {
  }

  lemma DividesTransitive(n: int, r: int, d: int)
    requires r > 0 && d > 0 && n % r == 0 && r % d == 0
    ensures n % d == 0
  {
    var j, k := n / r, r / d;
    assert n == j * r && r == k * d;
    assert n == (j * k) * d;
    RemainderIsUnique(n, j * k, 0, d);
  }

  /** What holds modulo n holds modulo a divisor of n. */
  lemma CongModDivisor(a: int, b: int, n: int, r: int)
    requires n > 0 && r > 0 && n % r == 0 && Cong(a, b, n)
    ensures Cong(a, b, r)
  {
    var k := DifferenceFromCong(a, b, n);
    var j := n / r;
    assert n == j * r;
    assert k * n == (k * j) * r;
    CongFromDifference(a, b, k * j, r);
  }

  /** Pocklington: c has order q modulo every prime factor of n, so q divides r - 1 for every such r. */
  lemma Pocklington(n: int, q: int, c: int, w: int, r: int)
    requires n >= 2 && Prime(q) && Prime(r) && n % r == 0
    requires Pow(c, q) % n == 1 && ((c - 1) * w) % n == 1
    ensures (r - 1) % q == 0
  {
    hide Pow;
    RemainderIsUnique(1, 0, 1, n);
    RemainderIsUnique(1, 0, 1, r);
    CongModDivisor(Pow(c, q), 1, n, r);
    CongModDivisor((c - 1) * w, 1, n, r);
    if (r - 1) % q != 0 {
      var x := InverseExists(r - 1, q);
      var y := x % q;
      CongMul(r - 1, r - 1, y, x, q) by { CongSelf(x, q); }
      OrderDivides(c, q, r, y);
      CongMul(c - 1, 0, w, w, r) by { CongAdd(c, 1, 1, 1, r); }
      RemainderIsUnique(0, 0, 0, r);
    }
  }

  /** If c^q = 1 modulo r and (r - 1) y = 1 modulo q, then c = 1 modulo r. */
  lemma OrderDivides(c: int, q: int, r: int, y: nat)
    requires Prime(q) && Prime(r) && Cong(Pow(c, q), 1, r) && ((r - 1) * y) % q == 1
    ensures Cong(c, 1, r)
  {
    hide Pow;
    var k := ((r - 1) * y) / q;
    assert (r - 1) * y == k * q + 1;
    assert (r - 1) * y >= 0;
    assert k >= 0 by { if k < 0 { MulMonotone(k, -1, q); } }
    NotAMultiple(c, q, r);
    Fermat(c, r);
    RemainderIsUnique(1, 0, 1, r);
    PowOfPow(c, r - 1, y); PowCong(Pow(c, r - 1), 1, y, r); PowOne(y);
    PowOfPow(c, q, k); PowCong(Pow(c, q), 1, k, r); PowOne(k);
    assert q * k == k * q;
    PowAdd(c, k * q, 1);
    PowIsBase(c);
    CongMul(Pow(c, k * q), 1, c, c, r);
  }

  lemma PowIsBase(c: int)
    ensures Pow(c, 1) == c
  {
    assert Pow(c, 1) == c * Pow(c, 0);
  }

  lemma NotAMultiple(c: int, q: int, r: int)
    requires q > 0 && r > 1 && Cong(Pow(c, q), 1, r)
    ensures c % r != 0
  {
    if c % r == 0 {
      ModMul(c, Pow(c, q - 1), r);
      RemainderIsUnique(1, 0, 1, r);
      RemainderIsUnique(0, 0, 0, r);
    }
  }

  /** A number with no prime factor up to its square root is prime. */
  lemma PrimeByFactorBound(n: int, f: int, r: int)
    requires n >= 2 && Prime(r) && n % r == 0 && (r * r <= n || r == n)
    requires f > 0 && (r - 1) % f == 0 && (f + 1) * (f + 1) > n
    ensures Prime(n)
  {
    FactorIsLarge(r, f);
  }

  lemma FactorIsLarge(r: int, f: int)
    requires r >= 2 && f > 0 && (r - 1) % f == 0
    ensures r * r >= (f + 1) * (f + 1)
  {
    var k := (r - 1) / f;
    assert r - 1 == k * f && k >= 1;
    MulMonotone(1, k, f);
    MulMonotone(f + 1, r, r);
    MulMonotone(f + 1, r, f + 1);
  }

  lemma PrimeByOneFactor(n: int, q: int, c: int, w: int)
    requires n >= 2 && Prime(q) && (q + 1) * (q + 1) > n
    requires Pow(c, q) % n == 1 && ((c - 1) * w) % n == 1
    ensures Prime(n)
  {
    hide Pow;
    var r := SmallestFactor(n);
    Pocklington(n, q, c, w, r);
    PrimeByFactorBound(n, q, r);
  }

  lemma ProductDivides(s: int, a: int, b: int)
    requires Prime(b) && a > 0 && a % b != 0 && s % a == 0 && s % b == 0
    ensures s % (a * b) == 0
  {
    var t := s / a;
    assert s == t * a;
    NoZeroDivisors(t, a, b);
    var u := t / b;
    assert t == u * b;
    assert s == u * (a * b);
    RemainderIsUnique(s, u, 0, a * b);
  }

  /** A finite chain of smaller primes whose orders are witnessed by c, c' and c''. */
  lemma PrimeByThreeFactors(n: int, q: int, c: int, w: int, q': int, c': int, w': int, q'': int, c'': int, w'': int)
    requires n >= 2 && Prime(q) && Prime(q') && Prime(q'') && q % q' != 0 && (q * q') % q'' != 0
    requires (q * q' * q'' + 1) * (q * q' * q'' + 1) > n
    requires Pow(c, q) % n == 1 && ((c - 1) * w) % n == 1
    requires Pow(c', q') % n == 1 && ((c' - 1) * w') % n == 1
    requires Pow(c'', q'') % n == 1 && ((c'' - 1) * w'') % n == 1
    ensures Prime(n)
  {
    hide Pow;
    var r := SmallestFactor(n);
    Pocklington(n, q, c, w, r);
    Pocklington(n, q', c', w', r);
    Pocklington(n, q'', c'', w'', r);
    ProductDivides(r - 1, q, q');
    ProductDivides(r - 1, q * q', q'');
    PrimeByFactorBound(n, q * q' * q'', r);
  }

  /** Trial division. */
  lemma PrimeByTrial(n: int, f: int)
    requires n >= 2 && f >= 1 && (f + 1) * (f + 1) > n && forall d :: 2 <= d <= f ==> n % d != 0
    ensures Prime(n)
  {
    var r := SmallestFactor(n);
    if r > f { MulMonotone(f + 1, r, r); MulMonotone(f + 1, r, f + 1); }
  }
}
