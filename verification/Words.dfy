/** 64-bit words as natural numbers, with the operators that keccakf.go and sha3.go use on uint64. */
module Words {
  import opened Bits
  import opened NumberTheory
  import opened Wnaf

  type Word = x: nat | x < 0x1_0000_0000_0000_0000

  const ALL_ONES: nat := 0xFFFF_FFFF_FFFF_FFFF

  // ------------------------------------------------------------- laws of exclusive or

  lemma {:induction false} XorCommutes(x: nat, y: nat)
    ensures Xor(x, y) == Xor(y, x)
    decreases x + y
  {
    if x > 0 && y > 0 { XorCommutes(x / 2, y / 2); }
  }

  lemma XorUnfolds(x: nat, y: nat)
    ensures Xor(x, y) % 2 == (if x % 2 != y % 2 then 1 else 0) && Xor(x, y) / 2 == Xor(x / 2, y / 2)
  {
    hide Xor;
    if x == 0 {
      XorWithZero(y); XorWithZero(y / 2);
    } else if y == 0 {
      XorWithZero(x); XorWithZero(x / 2);
    } else {
      XorStep(x, y);
      OddPart(if x % 2 != y % 2 then 1 else 0, Xor(x / 2, y / 2));
    }
  }

  lemma XorWithZero(x: nat)
    ensures Xor(0, x) == x && Xor(x, 0) == x
  {
  }

  lemma XorStep(x: nat, y: nat)
    requires x > 0 && y > 0
    ensures Xor(x, y) == (if x % 2 != y % 2 then 1 else 0) + 2 * Xor(x / 2, y / 2)
  {
  }

  lemma OddPart(b: nat, h: nat)
    requires b <= 1
    ensures (b + 2 * h) % 2 == b && (b + 2 * h) / 2 == h
  {
  }

  lemma SameHalves(x: nat, y: nat)
    requires x % 2 == y % 2 && x / 2 == y / 2
    ensures x == y
  {
  }

  lemma {:induction false} XorAssociates(x: nat, y: nat, z: nat)
    ensures Xor(Xor(x, y), z) == Xor(x, Xor(y, z))
    decreases x + y + z
  {
    if x > 0 && y > 0 && z > 0 {
      XorUnfolds(x, y); XorUnfolds(y, z);
      XorUnfolds(Xor(x, y), z); XorUnfolds(x, Xor(y, z));
      XorAssociates(x / 2, y / 2, z / 2);
      SameHalves(Xor(Xor(x, y), z), Xor(x, Xor(y, z)));
    }
  }

  lemma {:induction false} XorBound(x: nat, y: nat, k: nat)
    requires x < Two(k) && y < Two(k)
    ensures Xor(x, y) < Two(k)
  {
    if k > 0 {
      TwoStep(k - 1);
      XorUnfolds(x, y);
      XorBound(x / 2, y / 2, k - 1);
    }
  }

  lemma {:induction false} AndBound(x: nat, y: nat)
    ensures And(x, y) <= x
  {
    if x > 0 && y > 0 { AndBound(x / 2, y / 2); }
  }

  lemma {:induction false} OrIsAtMostSum(x: nat, y: nat)
    ensures Or(x, y) <= x + y
    decreases x + y
  {
    if x > 0 && y > 0 { OrIsAtMostSum(x / 2, y / 2); }
  }

  /** Numbers without common bits: or and exclusive or are addition. */
  lemma {:induction false} DisjointSum(x: nat, y: nat, k: nat)
    requires y < Two(k)
    ensures Or(x * Two(k), y) == x * Two(k) + y && Xor(x * Two(k), y) == x * Two(k) + y
  {
    if k == 0 {
    } else {
      hide Two;
      TwoStep(k - 1);
      HalvesOfProduct(x, Two(k - 1));
      DisjointSum(x, y / 2, k - 1);
      DisjointStep(x * Two(k), y, x * Two(k - 1));
    }
  }

  lemma HalvesOfProduct(x: int, m: int)
    ensures x * (2 * m) == 2 * (x * m)
  {
  }

  lemma DisjointStep(a: nat, y: nat, h: nat)
    requires a == 2 * h && Or(h, y / 2) == h + y / 2 && Xor(h, y / 2) == h + y / 2
    ensures Or(a, y) == a + y && Xor(a, y) == a + y
  {
  }

  lemma TwoTo64()
    ensures Two(64) == 0x1_0000_0000_0000_0000 && Two(8) == 256
  {
    hide Two;
    TwoSmall();
    TwoAdd(8, 8); TwoAdd(16, 16); TwoAdd(32, 32);
  }

  // ------------------------------------------------------------- operators on words

  /** a ^ b. */
  function Xor64(a: Word, b: Word): Word {
    TwoTo64();
    XorBound(a, b, 64);
    Xor(a, b)
  }

  /** a &^ b. */
  function AndNot(a: Word, b: Word): Word {
    AndBound(a, ALL_ONES - b);
    And(a, ALL_ONES - b)
  }

  /** t << n. */
  function Shl(t: Word, n: nat): Word {
    (t * Two(n)) % 0x1_0000_0000_0000_0000
  }

  /** t >> n. */
  function Shr(t: Word, n: nat): Word {
    ShiftShrinks(t, Two(n));
    t / Two(n)
  }

  lemma ShiftShrinks(t: nat, m: int)
    requires m > 0
    ensures 0 <= t / m <= t
  {
    var q := t / m;
    assert t == q * m + t % m;
    if q > 0 { FactorGrows(q, m); }
  }

  lemma FactorGrows(q: int, m: int)
    requires q > 0 && m > 0
    ensures q * m >= q
  {
  }

  /** t << n | t >> (64 - n). */
  function Rotl(t: Word, n: nat): Word
    requires n <= 64
  {
    RotationBound(t, n);
    Or(Shl(t, n), Shr(t, 64 - n))
  }

  lemma RotationBound(t: Word, n: nat)
    requires n <= 64
    ensures Or(Shl(t, n), Shr(t, 64 - n)) == (t % Two(64 - n)) * Two(n) + t / Two(64 - n) < 0x1_0000_0000_0000_0000
  {
    hide Two, Or;
    TwoTo64();
    TwoAdd(64 - n, n);
    RotationParts(t, Two(64 - n), Two(n));
    DisjointSum(t % Two(64 - n), t / Two(64 - n), n);
  }

  /** The low bits move up, the high ones down, and they do not overlap. */
  lemma RotationParts(t: nat, m: int, k: int)
    requires m > 0 && k > 0 && t < m * k
    ensures (t * k) % (m * k) == (t % m) * k && 0 <= t / m < k && 0 <= (t % m) * k && (t % m) * k + t / m < m * k
  {
    var hi, lo := t / m, t % m;
    assert t == hi * m + lo;
    ShiftedOut(hi, lo, m, k);
    RemainderIsUnique(t * k, hi, lo * k, m * k);
    QuotientBelow(t, m, k);
    Bounded(lo, m, k, hi);
  }

  lemma ShiftedOut(hi: int, lo: int, m: int, k: int)
    requires 0 <= lo < m && k > 0
    ensures (hi * m + lo) * k == hi * (m * k) + lo * k && 0 <= lo * k < m * k
  {
    assert (hi * m + lo) * k == (hi * m) * k + lo * k;
    assert (hi * m) * k == hi * (m * k);
    ProductBelow(lo, m, k);
  }

  lemma ProductBelow(lo: int, m: int, k: int)
    requires 0 <= lo < m && k > 0
    ensures 0 <= lo * k < m * k
  {
    assert (lo + 1) * k <= m * k;
  }

  lemma QuotientBelow(t: int, m: int, k: int)
    requires 0 <= t < m * k && m > 0 && k > 0
    ensures 0 <= t / m < k
  {
  }

  // ------------------------------------------------------------- the operators, bit by bit

  /** Bit k. */
  function BitOf(x: nat, k: nat): (b: nat)
    ensures b <= 1
  {
    x / Two(k) % 2
  }

  lemma FirstBit(x: nat)
    ensures BitOf(x, 0) == x % 2
  {
    TwoSmall();
    assert x / 1 == x;
  }

  lemma NextBit(x: nat, k: nat)
    ensures BitOf(x, k + 1) == BitOf(x / 2, k)
  {
    hide Two;
    TwoStep(k);
    DivideTwice(x, 2, Two(k));
  }

  /** The bits of a number are its own: there is no other with the same. */
  lemma {:induction false} SameBits(x: nat, y: nat, n: nat)
    requires x < Two(n) && y < Two(n) && forall k :: 0 <= k < n ==> BitOf(x, k) == BitOf(y, k)
    ensures x == y
  {
    if n == 0 {
      TwoSmall();
    } else {
      hide Two, BitOf;
      TwoStep(n - 1);
      forall k | 0 <= k < n - 1 ensures BitOf(x / 2, k) == BitOf(y / 2, k) {
        NextBit(x, k); NextBit(y, k);
        assert BitOf(x, k + 1) == BitOf(y, k + 1);
      }
      SameBits(x / 2, y / 2, n - 1);
      FirstBit(x); FirstBit(y);
      SameHalves(x, y);
    }
  }

  lemma {:induction false} BitAbove(x: nat, n: nat, k: nat)
    requires x < Two(n) && n <= k
    ensures BitOf(x, k) == 0
  {
    TwoGrows(n, k);
    hide Two;
    RemainderIsUnique(x, 0, x, Two(k));
  }

  lemma {:induction false} XorBits(x: nat, y: nat, k: nat)
    ensures BitOf(Xor(x, y), k) == (BitOf(x, k) + BitOf(y, k)) % 2
  {
    hide Xor, BitOf;
    XorUnfolds(x, y);
    if k == 0 {
      FirstBit(x); FirstBit(y); FirstBit(Xor(x, y));
    } else {
      NextBit(x, k - 1); NextBit(y, k - 1); NextBit(Xor(x, y), k - 1);
      XorBits(x / 2, y / 2, k - 1);
    }
  }

  lemma AndUnfolds(x: nat, y: nat)
    ensures And(x, y) % 2 == (if x % 2 == 1 && y % 2 == 1 then 1 else 0) && And(x, y) / 2 == And(x / 2, y / 2)
  {
  }

  lemma {:induction false} AndBits(x: nat, y: nat, k: nat)
    ensures BitOf(And(x, y), k) == 1 <==> BitOf(x, k) == 1 && BitOf(y, k) == 1
  {
    AndUnfolds(x, y);
    hide And, BitOf;
    if k == 0 {
      FirstBit(x); FirstBit(y); FirstBit(And(x, y));
    } else {
      NextBit(x, k - 1); NextBit(y, k - 1); NextBit(And(x, y), k - 1);
      AndBits(x / 2, y / 2, k - 1);
    }
  }

  lemma {:induction false} ComplementBits(x: nat, n: nat, k: nat)
    requires x < Two(n) && k < n
    ensures BitOf(Two(n) - 1 - x, k) == 1 - BitOf(x, k)
  {
    hide Two, BitOf;
    TwoStep(n - 1);
    if k == 0 {
      FirstBit(x); FirstBit(Two(n) - 1 - x);
    } else {
      NextBit(x, k - 1); NextBit(Two(n) - 1 - x, k - 1);
      assert (Two(n) - 1 - x) / 2 == Two(n - 1) - 1 - x / 2;
      ComplementBits(x / 2, n - 1, k - 1);
    }
  }

  /** Bit k of a &^ b. */
  lemma AndNotBits(a: Word, b: Word, k: nat)
    requires k < 64
    ensures BitOf(AndNot(a, b), k) == 1 <==> BitOf(a, k) == 1 && BitOf(b, k) == 0
  {
    hide Two, BitOf, And;
    TwoTo64();
    ComplementBits(b, 64, k);
    AndBits(a, ALL_ONES - b, k);
  }

  /** The bits of a number written as a high and a low part. */
  lemma {:induction false} JoinedBits(a: nat, b: nat, n: nat, k: nat)
    requires b < Two(n)
    ensures a * Two(n) >= 0 && BitOf(a * Two(n) + b, k) == if k < n then BitOf(b, k) else BitOf(a, k - n)
  {
    if n == 0 {
      TwoSmall();
    } else {
      hide Two, BitOf;
      TwoStep(n - 1);
      HalvesOfProduct(a, Two(n - 1));
      var x := a * Two(n) + b;
      assert x % 2 == b % 2 && x / 2 == a * Two(n - 1) + b / 2;
      if k == 0 {
        FirstBit(b); FirstBit(x);
      } else {
        NextBit(b, k - 1); NextBit(x, k - 1);
        JoinedBits(a, b / 2, n - 1, k - 1);
      }
    }
  }

  /** Bit k moves up by n, around the word. */
  lemma RotlBits(t: Word, n: nat, k: nat)
    requires n <= 64 && k < 64
    ensures BitOf(Rotl(t, n), (k + n) % 64) == BitOf(t, k)
  {
    hide Two, BitOf, Or, Shl, Shr;
    RotationBound(t, n);
    TwoTo64();
    TwoAdd(64 - n, n);
    var m := Two(64 - n);
    RotationParts(t, m, Two(n));
    QuotientAndRemainder(t, m);
    JoinedBits(t / m, t % m, 64 - n, k);
    JoinedBits(t % m, t / m, n, (k + n) % 64);
  }

  lemma QuotientAndRemainder(t: nat, m: int)
    requires m > 0
    ensures t / m * m + t % m == t && 0 <= t % m < m && t / m >= 0
  {
  }

  /** The exclusive or of five words. */
  function Xor5(a: Word, b: Word, c: Word, d: Word, e: Word): Word {
    Xor64(Xor64(Xor64(Xor64(a, b), c), d), e)
  }

  lemma Xor64Laws(a: Word, b: Word, c: Word)
    ensures Xor64(a, b) == Xor64(b, a) && Xor64(Xor64(a, b), c) == Xor64(a, Xor64(b, c))
    ensures Xor64(Xor64(a, b), c) == Xor64(Xor64(a, c), b)
  {
    XorCommutes(a, b);
    XorAssociates(a, b, c);
    XorCommutes(b, c);
    XorAssociates(a, c, b);
  }

  lemma Xor5Rotate(a: Word, b: Word, c: Word, d: Word, e: Word)
    ensures Xor5(a, b, c, d, e) == Xor5(b, c, d, e, a)
  {
    hide Xor64;
    Xor64Laws(a, b, c);
    Xor64Laws(Xor64(b, a), c, d);
    Xor64Laws(b, a, c);
    Xor64Laws(Xor64(b, c), a, d);
    Xor64Laws(Xor64(Xor64(b, c), d), a, e);
  }

  lemma Xor5Alternate(a: Word, b: Word, c: Word, d: Word, e: Word)
    ensures Xor5(a, b, c, d, e) == Xor5(a, c, e, b, d)
  {
    hide Xor64;
    Xor64Laws(a, b, c);
    Xor64Laws(Xor64(Xor64(a, c), b), d, e);
    Xor64Laws(Xor64(a, c), b, e);
  }
}
