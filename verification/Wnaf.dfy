/** The two recodings of scalars: the sparse windowed form of ecmult_impl.h and the regular odd-digit form of
    ecmult_const_impl.h. A scalar is an integer in [0, N); the operations on it are those that scalar.h describes. */
module Wnaf {
  import opened NumberTheory
  import opened Params

  // ------------------------------------------------------------- powers of two

  function Two(k: nat): (p: int)
    ensures p > 0
  {
    PowPositive(2, k);
    Pow(2, k)
  }

  lemma TwoAdd(a: nat, b: nat)
    ensures Two(a + b) == Two(a) * Two(b)
  {
    PowAdd(2, a, b);
  }

  lemma TwoStep(k: nat)
    ensures Two(k + 1) == 2 * Two(k)
  {
  }

  lemma TwoGrows(a: nat, b: nat)
    requires a <= b
    ensures Two(a) <= Two(b)
  {
    hide Two;
    TwoAdd(a, b - a);
    assert Two(a) * 1 <= Two(a) * Two(b - a);
  }

  // ------------------------------------------------------------- scalars

  /** secp256k1_scalar_get_bits and secp256k1_scalar_get_bits_var. */
  function GetBits(s: nat, offset: nat, count: nat): (b: nat) {
    (s / Two(offset)) % Two(count)
  }

  /** secp256k1_scalar_negate. */
  function ScalarNegate(s: nat): (n: nat)
    requires s < N
    ensures n < N && (n + s) % N == 0
  {
    if s == 0 then 0 else N - s
  }

  // ------------------------------------------------------------- values of digit sequences

  /** The value of digits in base 2, least significant first. */
  function Horner(d: seq<int>): int {
    if d == [] then 0 else d[0] + 2 * Horner(d[1..])
  }

  lemma {:induction false} HornerAppend(d: seq<int>, x: int)
    ensures Horner(d + [x]) == Horner(d) + x * Two(|d|)
  {
    if d == [] {
      assert d + [x] == [x];
      assert Horner([x][1..]) == 0;
    } else {
      HornerAppend(d[1..], x);
      assert (d + [x])[1..] == d[1..] + [x];
      assert 2 * (x * Two(|d| - 1)) == x * Two(|d|);
    }
  }

  lemma {:induction false} HornerZeros(d: seq<int>, n: nat)
    requires n <= |d| && forall i :: n <= i < |d| ==> d[i] == 0
    ensures Horner(d) == Horner(d[..n])
    decreases |d|
  {
    if n == |d| {
      assert d[..n] == d;
    } else {
      var e := d[..|d| - 1];
      assert d == e + [d[|d| - 1]] && e[..n] == d[..n];
      HornerAppend(e, 0);
      HornerZeros(e, n);
    }
  }

  /** A digit, and zeros after it. */
  lemma HornerExtend(d: seq<int>, b: nat, n: nat)
    requires b < n <= |d| && forall i :: b < i < n ==> d[i] == 0
    ensures Horner(d[..n]) == Horner(d[..b]) + d[b] * Two(b)
  {
    assert d[..n][..b + 1] == d[..b + 1] && d[..b + 1] == d[..b] + [d[b]];
    HornerZeros(d[..n], b + 1);
    HornerAppend(d[..b], d[b]);
  }

  // ------------------------------------------------------------- bits of a scalar

  lemma LowBits(s: nat, b: nat, c: nat)
    ensures s % Two(b + c) == s % Two(b) + GetBits(s, b, c) * Two(b)
  {
    hide Two;
    TwoAdd(b, c);
    SplitModulus(s, Two(b), Two(c));
  }

  lemma SplitModulus(s: int, m: int, n: int)
    requires m > 0 && n > 0
    ensures m * n > 0 && s % (m * n) == s % m + ((s / m) % n) * m
  {
    var q, r := s / m, s % m;
    var h, l := q / n, q % n;
    assert q == h * n + l && s == q * m + r;
    SplitRemainder(h, l, n, m, r);
    Bounded(l, n, m, r);
    RemainderIsUnique(s, h, l * m + r, m * n);
  }

  lemma SplitRemainder(h: int, l: int, n: int, m: int, r: int)
    ensures (h * n + l) * m + r == h * (m * n) + (l * m + r)
  {
  }

  lemma Bounded(l: int, n: int, m: int, r: int)
    requires 0 <= l < n && 0 <= r < m
    ensures 0 <= l * m + r < m * n
  {
    assert (l + 1) * m <= n * m;
  }

  lemma OneBit(s: nat, b: nat)
    ensures GetBits(s, b, 1) == (s / Two(b)) % 2 && 0 <= GetBits(s, b, 1) <= 1
  {
    hide Two;
    TwoSmall();
  }

  lemma BitsBound(s: nat, b: nat, c: nat)
    ensures 0 <= GetBits(s, b, c) < Two(c)
  {
    hide Two;
  }

  /** The lowest of several bits. */
  lemma LowestBit(s: nat, b: nat, c: nat)
    requires c > 0
    ensures GetBits(s, b, c) % 2 == GetBits(s, b, 1)
  {
    hide Two;
    OneBit(s, b);
    TwoStep(c - 1);
    EvenModulus(s / Two(b), Two(c - 1));
  }

  lemma EvenModulus(q: int, n: int)
    requires n > 0
    ensures (q % (2 * n)) % 2 == q % 2
  {
    var k := q / (2 * n);
    assert q == 2 * (k * n) + q % (2 * n);
  }

  /** The highest of several bits. */
  lemma HighestBit(s: nat, b: nat, c: nat)
    requires c > 0
    ensures 0 <= GetBits(s, b, c) - GetBits(s, b + c - 1, 1) * Two(c - 1) < Two(c - 1)
  {
    hide Two, GetBits;
    LowBits(s, b, c);
    LowBits(s, b, c - 1);
    LowBits(s, b + c - 1, 1);
    TwoAdd(b, c - 1);
    BitsBound(s, b, c - 1);
    TopOfBits(GetBits(s, b, c), GetBits(s, b, c - 1), GetBits(s, b + c - 1, 1), Two(b), Two(c - 1), s % Two(b));
  }

  lemma TopOfBits(x: int, y: int, z: int, m: int, n: int, r: int)
    requires m > 0 && r + x * m == r + y * m + z * (m * n)
    ensures x - z * n == y
  {
    assert z * (m * n) == (z * n) * m;
    assert (x - z * n - y) * m == x * m - (z * n) * m - y * m;
    ZeroFactor(x - z * n - y, m);
  }

  lemma ZeroFactor(a: int, m: int)
    requires a * m == 0 && m > 0
    ensures a == 0
  {
  }

  lemma NoHighBits(s: nat, n: nat, b: nat)
    requires n <= b && s < Two(n)
    ensures GetBits(s, b, 1) == 0
  {
    hide Two;
    OneBit(s, b);
    TwoGrows(n, b);
    RemainderIsUnique(s, 0, s, Two(b));
  }

  // ------------------------------------------------------------- the sparse form

  /** Digits are zero or odd and below 2^(w-1) in absolute value, with at least w - 1 zeros after a nonzero one. */
  ghost predicate Sparse(d: seq<int>, w: nat) {
    && (forall i :: 0 <= i < |d| ==> SparseDigit(d[i], w))
    && (forall i, j :: 0 <= i < j < |d| && j < i + w && d[i] != 0 ==> d[j] == 0)
  }

  ghost predicate SparseDigit(x: int, w: nat) {
    x == 0 || (x % 2 == 1 && w > 0 && -Two(w - 1) < x < Two(w - 1))
  }

  /** The sign that the recoding takes out, and the number that it recodes. */
  function SignOf(a: nat): int {
    if a >= 0x8000000000000000000000000000000000000000000000000000000000000000 then -1 else 1
  }

  function Magnitude(a: nat): (s: nat)
    requires a < N
    ensures (SignOf(a) * s) % N == a
    ensures s < 0x8000000000000000000000000000000000000000000000000000000000000000
  {
    if SignOf(a) < 0 then
      RemainderIsUnique(-(N - a), -1, a, N);
      N - a
    else
      RemainderIsUnique(a, 0, a, N);
      a
  }

  lemma TopBit(a: nat)
    requires a < N
    ensures GetBits(a, 255, 1) == 1 <==> SignOf(a) == -1
    ensures GetBits(a, 255, 1) == 0 <==> SignOf(a) == 1
    ensures Two(255) == 0x8000000000000000000000000000000000000000000000000000000000000000
  {
    OneBit(a, 255);
    TwoTo255();
    if SignOf(a) == -1 {
      RemainderIsUnique(a, 1, a - Two(255), Two(255));
    } else {
      RemainderIsUnique(a, 0, a, Two(255));
    }
  }

  lemma TwoTo255()
    ensures Two(255) == 0x8000000000000000000000000000000000000000000000000000000000000000
    ensures Two(128) == 0x1_00000000_00000000_00000000_00000000
  {
    hide Two;
    TwoSmall();
    TwoAdd(8, 8); TwoAdd(16, 16); TwoAdd(32, 32); TwoAdd(64, 64); TwoAdd(128, 64); TwoAdd(192, 32);
    TwoAdd(224, 16); TwoAdd(240, 8); TwoAdd(248, 7);
  }

  lemma TwoSmall()
    ensures Two(0) == 1 && Two(1) == 2 && Two(4) == 16 && Two(7) == 128 && Two(8) == 256
  {
    assert Two(1) == 2 * Two(0); assert Two(2) == 2 * Two(1); assert Two(3) == 2 * Two(2);
    assert Two(4) == 2 * Two(3); assert Two(5) == 2 * Two(4); assert Two(6) == 2 * Two(5);
    assert Two(7) == 2 * Two(6); assert Two(8) == 2 * Two(7);
  }

  /** What holds of the digits written for the bits below bit: their value is that of the bits, up to the carry. */
  ghost predicate Recoded(d: seq<int>, s: nat, sign: int, w: nat, bit: nat, carry: int) {
    && bit <= |d| && 0 <= carry <= 1
    && Two(bit) > 0 && Horner(d[..bit]) == sign * (s % Two(bit) - carry * Two(bit))
    && (carry == 1 ==> bit > 0 && GetBits(s, bit - 1, 1) == 1)
    && Sparse(d, w)
    && (forall i :: bit <= i < |d| ==> d[i] == 0)
    && (bit < |d| ==> forall i :: 0 <= i < bit && d[i] != 0 ==> i + w <= bit)
  }

  lemma NothingRecoded(d: seq<int>, s: nat, sign: int, w: nat)
    requires forall i :: 0 <= i < |d| ==> d[i] == 0
    ensures Recoded(d, s, sign, w, 0, 0)
  {
    assert Two(0) == 1;
    assert d[..0] == [];
  }

  lemma Skip(d: seq<int>, s: nat, sign: int, w: nat, bit: nat, carry: int)
    requires Recoded(d, s, sign, w, bit, carry) && bit < |d| && GetBits(s, bit, 1) == carry
    ensures Recoded(d, s, sign, w, bit + 1, carry)
  {
    hide Two, Horner, Sparse, GetBits;
    LowBits(s, bit, 1);
    HornerExtend(d, bit, bit + 1);
    TwoAdd(bit, 1);
    TwoSmall();
    var m := Two(bit);
    assert carry * (m * 2) == carry * m + carry * m;
  }

  /** The digit of a full window, and the carry out of it. */
  lemma FullWindow(s: nat, w: nat, bit: nat, carry: int, word: int)
    requires w >= 2 && 0 <= carry <= 1 && GetBits(s, bit, 1) != carry && word == GetBits(s, bit, w) + carry
    ensures var c := GetBits(s, bit + w - 1, 1);
      0 <= c <= 1 && (word / Two(w - 1)) % 2 == c && SparseDigit(word - c * Two(w), w) && word - c * Two(w) != 0
  {
    hide GetBits, Two, SparseDigit;
    LowestBit(s, bit, w);
    HighestBit(s, bit, w);
    OneBit(s, bit + w - 1);
    OneBit(s, bit);
    TwoStep(w - 1); TwoStep(w - 2);
    var c := GetBits(s, bit + w - 1, 1);
    OddWindow(GetBits(s, bit, w), carry, word, c, Two(w - 2), Two(w - 1), Two(w));
    IsSparseDigit(word - c * Two(w), w);
  }

  lemma IsSparseDigit(x: int, w: nat)
    requires x % 2 == 1 && w > 0 && -Two(w - 1) < x < Two(w - 1)
    ensures SparseDigit(x, w) && x != 0
  {
  }

  lemma OddWindow(bits: int, carry: int, word: int, c: int, k: int, h: int, t: int)
    requires 0 <= carry <= 1 && bits % 2 != carry && 0 <= bits % 2 <= 1 && word == bits + carry && 0 <= c <= 1
    requires k > 0 && h == 2 * k && t == 2 * h && 0 <= bits - c * h < h
    ensures (word / h) % 2 == c && (word - c * t) % 2 == 1 && -h < word - c * t < h
  {
    assert word % 2 == 1;
    if c == 1 {
      assert c * h == h && c * t == 2 * h;
      EvenShift(word, -h);
      RemainderIsUnique(word, 1, word - h, h);
    } else {
      assert c * h == 0 && c * t == 0;
      RemainderIsUnique(word, 0, word, h);
    }
  }

  /** The digit of the last window when it is cut short: no carry comes out. */
  lemma ShortWindow(s: nat, w: nat, now: nat, bit: nat, carry: int, word: int)
    requires 0 < now < w && 0 <= carry <= 1 && GetBits(s, bit, 1) != carry && word == GetBits(s, bit, now) + carry
    ensures (word / Two(w - 1)) % 2 == 0 && SparseDigit(word, w) && word != 0
  {
    hide GetBits, Two;
    LowestBit(s, bit, now);
    BitsBound(s, bit, now);
    OneBit(s, bit);
    TwoGrows(now, w - 1);
    TwoStep(now - 1);
    assert word % 2 == 1;
    NotEven(word, Two(now - 1));
    RemainderIsUnique(word, 0, word, Two(w - 1));
  }

  lemma NotEven(x: int, k: int)
    requires x % 2 == 1
    ensures x != 2 * k
  {
  }

  /** Writing a digit at bit and moving on by now bits. */
  lemma WriteDigit(d: seq<int>, s: nat, sign: int, w: nat, bit: nat, carry: int, now: nat, bits: int, c: int)
    requires Recoded(d, s, sign, w, bit, carry) && bit < |d| && (sign == 1 || sign == -1) && w >= 2
    requires now == (if w > |d| - bit then |d| - bit else w) && bits == GetBits(s, bit, now)
    requires SparseDigit(bits + carry - c * Two(w), w) && 0 <= c <= 1
    requires c == 1 ==> now == w && GetBits(s, bit + w - 1, 1) == 1
    ensures Recoded(d[bit := sign * (bits + carry - c * Two(w))], s, sign, w, bit + now, c)
  {
    hide Horner, GetBits, Two, Sparse, SparseDigit;
    var x := sign * (bits + carry - c * Two(w));
    var e := d[bit := x];
    DigitWithSign(bits + carry - c * Two(w), sign, w);
    assert e[..bit] == d[..bit];
    HornerExtend(e, bit, bit + now);
    LowBits(s, bit, now);
    if c == 1 { TwoAdd(bit, w); }
    CarryOut(c, Two(bit + now), Two(w), Two(bit));
    DigitValue(sign, s % Two(bit), bits, carry, c * Two(w), Two(bit));
    SparseUpdate(d, w, bit, x);
  }

  lemma CarryOut(c: int, top: int, w: int, b: int)
    requires 0 <= c <= 1 && (c == 1 ==> top == b * w)
    ensures c * top == c * w * b
  {
  }

  lemma DigitWithSign(x: int, sign: int, w: nat)
    requires SparseDigit(x, w) && (sign == 1 || sign == -1)
    ensures SparseDigit(sign * x, w)
  {
    hide Two;
    assert sign * x == x || sign * x == -x;
  }

  lemma SparseUpdate(d: seq<int>, w: nat, bit: nat, x: int)
    requires Sparse(d, w) && bit < |d| && SparseDigit(x, w)
    requires forall i :: bit <= i < |d| ==> d[i] == 0
    requires forall i :: 0 <= i < bit && d[i] != 0 ==> i + w <= bit
    ensures Sparse(d[bit := x], w)
  {
    hide SparseDigit;
  }

  lemma DigitValue(sign: int, low: int, bits: int, carry: int, c: int, m: int)
    ensures sign * (low - carry * m) + sign * (bits + carry - c) * m == sign * (low + bits * m - c * m)
  {
    assert (bits + carry - c) * m == bits * m + carry * m - c * m;
    assert sign * (bits + carry - c) * m == sign * ((bits + carry - c) * m);
    assert sign * (low - carry * m) + sign * (bits * m + carry * m - c * m) == sign * (low + bits * m - c * m);
  }

  /** When the number fits in len - 1 bits, there is no final carry and the digits have its value. */
  lemma RecodingIsComplete(d: seq<int>, s: nat, sign: int, w: nat, carry: int)
    requires Recoded(d, s, sign, w, |d|, carry) && |d| > 0 && s < Two(|d| - 1)
    ensures carry == 0 && Horner(d) == sign * s
  {
    hide Horner, GetBits;
    NoHighBits(s, |d| - 1, |d| - 1);
    assert Two(|d|) == 2 * Two(|d| - 1);
    RemainderIsUnique(s, 0, s, Two(|d|));
    assert d[..|d|] == d;
  }

  lemma NoDigitAbove(s: nat, m: nat, bit: nat, carry: int)
    requires s < Two(m) && bit > m && (carry == 1 ==> GetBits(s, bit - 1, 1) == 1) && 0 <= carry <= 1
    ensures GetBits(s, bit, 1) == carry
  {
    NoHighBits(s, m, bit);
    NoHighBits(s, m, bit - 1);
  }

  /** secp256k1_ecmult_wnaf. The ghost m bounds the bits of the recoded number. */
  method EcmultWnaf(wnaf: array<int>, len: nat, a: nat, w: nat, ghost m: nat) returns (bits: nat, carry: int)
    requires len <= wnaf.Length && len <= 256 && a < N && 2 <= w <= 31 && Magnitude(a) < Two(m)
    modifies wnaf
    ensures Sparse(wnaf[..len], w)
    ensures 0 < len && Magnitude(a) < Two(len - 1) ==> carry == 0 && Horner(wnaf[..len]) == SignOf(a) * Magnitude(a)
    ensures bits <= len && bits <= m + 1 && (bits > 0 ==> wnaf[bits - 1] != 0)
    ensures forall i :: bits <= i < len ==> wnaf[i] == 0
    ensures wnaf[len..] == old(wnaf[len..])
  {
    hide Horner, GetBits, Two, Sparse, Recoded, Magnitude, SignOf;
    var s := a;
    var lastSetBit := -1;
    var bit := 0;
    var sign := 1;
    carry := 0;
    forall i | 0 <= i < len { wnaf[i] := 0; }
    TopBit(a);
    SignAndMagnitude(a);
    if GetBits(s, 255, 1) != 0 {
      s := ScalarNegate(s);
      sign := -1;
    }
    NothingRecoded(wnaf[..len], s, sign, w);
    while bit < len
      invariant 0 <= bit <= len && Recoded(wnaf[..len], s, sign, w, bit, carry)
      invariant -1 <= lastSetBit < bit && lastSetBit <= m && (lastSetBit >= 0 ==> wnaf[lastSetBit] != 0)
      invariant forall i :: lastSetBit < i < len ==> wnaf[i] == 0
      invariant wnaf[len..] == old(wnaf[len..])
      decreases len - bit
    {
      CarryBit(wnaf[..len], s, sign, w, bit, carry);
      if GetBits(s, bit, 1) == carry {
        Skip(wnaf[..len], s, sign, w, bit, carry);
        bit := bit + 1;
        continue;
      }
      if bit > m { NoDigitAbove(s, m, bit, carry); }
      var now := w;
      if now > len - bit {
        now := len - bit;
      }
      ghost var before := carry;
      var word;
      word, carry := ReadWindow(s, w, now, bit, carry);
      ghost var d := wnaf[..len];
      WriteDigit(d, s, sign, w, bit, before, now, GetBits(s, bit, now), carry);
      DigitNonzero(sign, word);
      wnaf[bit] := sign * word;
      assert wnaf[..len] == d[bit := sign * word];
      lastSetBit := bit;
      bit := bit + now;
    }
    if 0 < len && s < Two(len - 1) { RecodingIsComplete(wnaf[..len], s, sign, w, carry); }
    SparseAtEnd(wnaf[..len], s, sign, w, bit, carry);
    bits := lastSetBit + 1;
  }

  /** The bits of one window, with the carry in, as a digit and the carry out. */
  method ReadWindow(s: nat, w: nat, now: nat, bit: nat, carryIn: int) returns (word: int, carry: int)
    requires w >= 2 && 0 < now <= w && 0 <= carryIn <= 1 && GetBits(s, bit, 1) != carryIn
    ensures word == GetBits(s, bit, now) + carryIn - carry * Two(w) && SparseDigit(word, w) && word != 0
    ensures 0 <= carry <= 1 && (carry == 1 ==> now == w && GetBits(s, bit + w - 1, 1) == 1)
  {
    hide GetBits, Two, SparseDigit;
    word := GetBits(s, bit, now) + carryIn;
    if now == w { FullWindow(s, w, bit, carryIn, word); } else { ShortWindow(s, w, now, bit, carryIn, word); }
    carry := (word / Two(w - 1)) % 2;
    word := word - carry * Two(w);
  }

  lemma DigitNonzero(sign: int, word: int)
    requires word != 0 && (sign == 1 || sign == -1)
    ensures sign * word != 0
  {
  }

  lemma SparseAtEnd(d: seq<int>, s: nat, sign: int, w: nat, bit: nat, carry: int)
    requires Recoded(d, s, sign, w, bit, carry)
    ensures Sparse(d, w)
  {
  }

  lemma CarryBit(d: seq<int>, s: nat, sign: int, w: nat, bit: nat, carry: int)
    requires Recoded(d, s, sign, w, bit, carry)
    ensures 0 <= carry <= 1 && (carry == 1 ==> bit > 0 && GetBits(s, bit - 1, 1) == 1)
  {
  }

  lemma SignAndMagnitude(a: nat)
    requires a < N
    ensures if SignOf(a) == -1 then Magnitude(a) == ScalarNegate(a) else SignOf(a) == 1 && Magnitude(a) == a
  {
  }

  /** At full length the digits always have the value of the scalar modulo N. */
  lemma FullLengthIsEnough(a: nat)
    requires a < N
    ensures Magnitude(a) < Two(255) && (SignOf(a) * Magnitude(a)) % N == a
  {
    TwoTo255();
  }

  // ------------------------------------------------------------- the regular form

  /** The value of digits in base b. */
  function Radix(d: seq<int>, b: int): int {
    if d == [] then 0 else d[0] + b * Radix(d[1..], b)
  }

  lemma {:induction false} RadixAppend(d: seq<int>, x: int, b: int)
    ensures Radix(d + [x], b) == Radix(d, b) + x * Pow(b, |d|)
  {
    if d == [] {
      assert d + [x] == [x] && [x][1..] == [];
    } else {
      hide Pow;
      RadixAppend(d[1..], x, b);
      assert (d + [x])[1..] == d[1..] + [x];
      PowStep(b, |d| - 1);
      RadixRegroup(b, Radix(d[1..], b), x, Pow(b, |d| - 1));
    }
  }

  lemma PowStep(b: int, n: nat)
    ensures Pow(b, n + 1) == b * Pow(b, n) && Pow(b, n + 1) == Pow(b, n) * b
  {
  }

  lemma RadixRegroup(p: int, r: int, x: int, q: int)
    ensures p * (r + x * q) == p * r + x * (p * q)
  {
    assert p * (x * q) == x * (p * q);
  }

  /** Every digit is odd and below b in absolute value. */
  ghost predicate OddDigits(d: seq<int>, b: int) {
    forall i :: 0 <= i < |d| ==> OddDigit(d[i], b)
  }

  ghost predicate OddDigit(x: int, b: int) {
    x % 2 == 1 && -b < x < b
  }

  function WnafSize(bits: nat, w: nat): nat
    requires w > 0
  {
    (bits + w - 1) / w
  }

  /** secp256k1_scalar_is_high. */
  predicate IsHigh(s: nat) {
    s > N / 2
  }

  /** The scalar, or its negation, is at most 2^bits. */
  ghost predicate Narrow(s: nat, bits: nat) {
    s < N && (s <= Two(bits) || N - s <= Two(bits))
  }

  /** The odd number that is recoded, and the sign of its digits. */
  lemma Skewing(s: nat, flip: bool, bit: nat, t: int, sign: int, bits: nat)
    requires Narrow(s, bits) && bits >= 2 && flip == IsHigh(s) && bit == (if flip == (s % 2 == 1) then 0 else 1)
    requires t == (if s == N - 1 then 1 else if flip then N - (s + Two(bit)) else s + Two(bit))
    requires sign == if flip && s != N - 1 then -1 else 1
    ensures Two(bit) == (if bit == 1 then 2 else 1) && s != N - 1 ==> s + Two(bit) < N
    ensures 0 < t < Two(bits + 1) && t % 2 == 1
    ensures (sign * t) % N == (s + Two(bit)) % N
  {
    hide Two;
    TwoSmall();
    TwoStep(bits); TwoStep(bits - 1); TwoStep(bits - 2);
    SkewedNumber(s, flip, Two(bit), t, Two(bits));
    CongruentSkew(s, flip, Two(bit), t, sign);
  }

  lemma SkewedNumber(s: nat, flip: bool, p: int, t: int, b: int)
    requires s < N && (s <= b || N - s <= b) && b >= 4 && flip == IsHigh(s) && p == (if flip == (s % 2 == 1) then 1 else 2)
    requires t == (if s == N - 1 then 1 else if flip then N - (s + p) else s + p)
    ensures s != N - 1 ==> s + p < N
    ensures 0 < t < 2 * b && t % 2 == 1
  {
    if s == N - 1 {
    } else if flip {
      assert s % 2 == 1 ==> p == 1;
    } else {
      assert s % 2 == 1 ==> p == 2;
    }
  }

  lemma CongruentSkew(s: nat, flip: bool, p: int, t: int, sign: int)
    requires s < N && flip == IsHigh(s) && p == (if flip == (s % 2 == 1) then 1 else 2)
    requires t == (if s == N - 1 then 1 else if flip then N - (s + p) else s + p)
    requires sign == if flip && s != N - 1 then -1 else 1
    ensures (sign * t) % N == (s + p) % N
  {
    if s == N - 1 {
      CongFromDifference(sign * t, s + p, -1, N);
    } else if flip {
      CongFromDifference(sign * t, s + p, -1, N);
    } else {
      CongFromDifference(sign * t, s + p, 0, N);
    }
  }

  /** What is left to recode after the digits d: the current digit and the rest of the scalar above it. */
  ghost predicate Regular(d: seq<int>, sign: int, b: int, t: int, last: int, rest: nat) {
    OddDigits(d, b) && OddDigit(last, b)
    && Radix(d, b) + sign * Above(last, rest, b, Pow(b, |d|)) == sign * t
  }

  function Above(last: int, rest: int, b: int, q: int): int {
    last * q + rest * (q * b)
  }

  lemma FirstWindow(t: nat, b: int, sign: int)
    requires t % 2 == 1 && b > 0 && b % 2 == 0
    ensures Regular([], sign, b, t, t % b, t / b)
  {
    EvenModulus(t, b / 2);
    assert Pow(b, 0) == 1;
    assert Radix([], b) == 0;
  }

  /** Making the next window odd moves a carry of either sign into the current digit. */
  lemma NextWindow(d: seq<int>, sign: int, b: int, t: int, last: int, rest: nat, u: int, even: int, sgn: int, c: int)
    requires Regular(d, sign, b, t, last, rest) && b > 0 && b % 2 == 0 && (sign == 1 || sign == -1)
    requires u == rest % b && even == (if u % 2 == 0 then 1 else 0) && sgn == (if last > 0 then 1 else -1) && c == sgn * even
    ensures rest / b >= 0 && Regular(d + [(last - c * b) * sign], sign, b, t, u + c, rest / b)
  {
    hide Pow, Radix, Above, OddDigit;
    var q := Pow(b, |d|);
    var x := last - c * b;
    RadixAppend(d, x * sign, b);
    PowStep(b, |d|);
    RegularStepValue(Radix(d, b), Radix(d + [x * sign], b), last, rest, u, c, b, q, sign, t, x);
    OddDigitsOfStep(last, sgn, even, u, b, c);
    SignedOddDigit(x, sign, b);
    QuotientNonnegative(rest, b);
  }

  lemma QuotientNonnegative(a: nat, b: int)
    requires b > 0
    ensures a / b >= 0
  {
  }

  lemma RegularStepValue(r: int, r': int, last: int, rest: int, u: int, c: int, b: int, q: int, sign: int, t: int, x: int)
    requires b > 0 && u == rest % b && x == last - c * b
    requires r + sign * Above(last, rest, b, q) == sign * t && r' == r + x * sign * q
    ensures r' + sign * Above(u + c, rest / b, b, q * b) == sign * t
  {
    hide Above;
    RegularAlgebra(last, c, rest, u, rest / b, b, q);
    SignDistributes(sign, x, q, Above(last, rest, b, q), Above(u + c, rest / b, b, q * b));
  }

  lemma RegularAlgebra(last: int, c: int, rest: int, u: int, h: int, b: int, q: int)
    requires b > 0 && u == rest % b && h == rest / b
    ensures (last - c * b) * q + Above(u + c, h, b, q * b) == Above(last, rest, b, q)
  {
    assert rest == h * b + u;
    assert (last - c * b) * q == last * q - c * (q * b);
    assert (u + c) * (q * b) == u * (q * b) + c * (q * b);
    assert h * (q * b * b) == (h * b) * (q * b);
    assert rest * (q * b) == (h * b) * (q * b) + u * (q * b);
  }

  lemma SignDistributes(sign: int, x: int, q: int, before: int, after: int)
    requires x * q + after == before
    ensures x * sign * q + sign * after == sign * before
  {
    assert x * sign * q == sign * (x * q);
    assert sign * (x * q + after) == sign * (x * q) + sign * after;
  }

  lemma OddDigitsOfStep(last: int, sgn: int, even: int, u: int, b: int, c: int)
    requires b > 0 && b % 2 == 0 && OddDigit(last, b) && 0 <= u < b
    requires even == (if u % 2 == 0 then 1 else 0) && sgn == (if last > 0 then 1 else -1) && c == sgn * even
    ensures OddDigit(last - c * b, b) && OddDigit(u + c, b)
  {
    var h := b / 2;
    if even == 0 {
      assert c == 0 && c * b == 0;
    } else if last > 0 {
      assert c == 1 && c * b == b;
      EvenShift(last, -h);
      EvenShift(1, u / 2);
    } else {
      assert c == -1 && c * b == -b;
      EvenShift(last, h);
      EvenShift(-1, u / 2);
    }
  }

  lemma EvenShift(x: int, h: int)
    ensures (x + 2 * h) % 2 == x % 2
  {
  }

  lemma SignedOddDigit(x: int, sign: int, b: int)
    requires OddDigit(x, b) && (sign == 1 || sign == -1)
    ensures OddDigit(x * sign, b)
  {
    assert x * sign == x || x * sign == -x;
  }

  /** The last digit completes the value, if nothing is left. */
  lemma LastWindow(d: seq<int>, sign: int, b: int, t: int, last: int)
    requires Regular(d, sign, b, t, last, 0) && (sign == 1 || sign == -1)
    ensures OddDigits(d + [last * sign], b) && Radix(d + [last * sign], b) == sign * t
  {
    hide Pow, Radix, OddDigit;
    RadixAppend(d, last * sign, b);
    SignedOddDigit(last, sign, b);
    LastAlgebra(last, sign, b, Pow(b, |d|));
  }

  lemma LastAlgebra(last: int, sign: int, b: int, q: int)
    ensures last * sign * q == sign * Above(last, 0, b, q)
  {
    assert last * sign * q == sign * (last * q);
    assert 0 * (q * b) == 0;
  }

  lemma DivideTwice(t: int, m: int, n: int)
    requires m > 0 && n > 0
    ensures m * n > 0 && (t / m) / n == t / (m * n)
  {
    var q, r := t / m, t % m;
    var h, l := q / n, q % n;
    assert q == h * n + l && t == q * m + r;
    SplitRemainder(h, l, n, m, r);
    Bounded(l, n, m, r);
    RemainderIsUnique(t, h, l * m + r, m * n);
  }

  lemma ShiftAgain(t: nat, b: int, n: nat)
    requires b > 0
    ensures Pow(b, n) > 0 && Pow(b, n + 1) > 0 && (t / Pow(b, n)) / b == t / Pow(b, n + 1)
  {
    hide Pow;
    PowPositive(b, n);
    PowStep(b, n);
    DivideTwice(t, Pow(b, n), b);
  }

  lemma SizeCoversBits(bits: nat, w: nat)
    requires w > 0
    ensures bits <= w * WnafSize(bits, w) < bits + w
  {
    var n := WnafSize(bits, w);
    assert bits + w - 1 == n * w + (bits + w - 1) % w;
    assert n * w == w * n;
  }

  lemma LoopCount(word: nat, bits: nat, w: nat)
    requires w > 0
    ensures word * w < bits <==> word < WnafSize(bits, w)
  {
    hide WnafSize;
    var n := WnafSize(bits, w);
    SizeCoversBits(bits, w);
    ProductOrder(word, n, w);
  }

  lemma ProductOrder(a: nat, n: nat, w: nat)
    requires w > 0
    ensures a < n ==> a * w <= w * n - w
    ensures a >= n ==> a * w >= w * n
  {
    if a < n { assert a * w <= (n - 1) * w; }
  }

  /** Shifting enough windows out leaves nothing. */
  lemma EverythingShifted(t: nat, w: nat, bits: nat, n: nat)
    requires w > 0 && t < Two(bits + 1) && bits <= w * n
    ensures Pow(Two(w), n + 1) > 0 && t / Pow(Two(w), n + 1) == 0
  {
    hide Pow;
    PowOfPow(2, w, n + 1);
    assert w * (n + 1) == w * n + w;
    PowPositive(2, w * (n + 1));
    TwoGrows(bits + 1, w * (n + 1));
    RemainderIsUnique(t, 0, t, Two(w * (n + 1)));
  }

  /** The scalar made odd: 1 is added to an even number and 2 to an odd one, after negating if it is high; -1 is only
      negated. */
  method MakeOdd(scalar: nat, ghost bits: nat) returns (s: nat, sign: int, skew: nat)
    requires bits >= 2 && Narrow(scalar, bits)
    ensures (skew == 1 || skew == 2) && (sign == 1 || sign == -1)
    ensures 0 < s < Two(bits + 1) && s % 2 == 1 && (sign * s) % N == (scalar + skew) % N
  {
    hide Two;
    s := scalar;
    var flip := IsHigh(s);
    var bit := if flip == (s % 2 == 1) then 0 else 1;
    var neg_s := ScalarNegate(s);
    var notNegOne := neg_s != 1;
    ghost var t := if !notNegOne then 1 else if flip then N - (s + Two(bit)) else s + Two(bit);
    Skewing(s, flip, bit, t, if flip && notNegOne then -1 else 1, bits);
    if notNegOne {
      s := s + Two(bit);
    }
    sign := 1;
    if flip {
      s := ScalarNegate(s);
      sign := -1;
    }
    if !notNegOne {
      sign := -sign;
    }
    skew := Two(bit);
    TwoSmall();
    assert s == t;
  }

  /** secp256k1_wnaf_const: exactly WnafSize + 1 odd digits, whose value is that of the scalar plus the skew. */
  method WnafConst(wnaf: array<int>, scalar: nat, w: nat, bits: nat) returns (skew: nat)
    requires 0 < w < 16 && bits >= 2 && Narrow(scalar, bits) && wnaf.Length > WnafSize(bits, w)
    modifies wnaf
    ensures skew == 1 || skew == 2
    ensures OddDigits(wnaf[..WnafSize(bits, w) + 1], Two(w))
    ensures Radix(wnaf[..WnafSize(bits, w) + 1], Two(w)) % N == (scalar + skew) % N
    ensures -Two(bits + 1) < Radix(wnaf[..WnafSize(bits, w) + 1], Two(w)) < Two(bits + 1)
    ensures wnaf[WnafSize(bits, w) + 1..] == old(wnaf[WnafSize(bits, w) + 1..])
  {
    hide Two, Radix, OddDigits, OddDigit, WnafSize, Regular, Narrow, Pow;
    var s, sign;
    s, sign, skew := MakeOdd(scalar, bits);
    ghost var t := s;
    var b := Two(w);
    TwoStep(w - 1);
    FirstWindow(t, b, sign);
    PowFirst(b);
    var last := s % b;
    s := s / b;
    var word := 0;
    ghost var n := WnafSize(bits, w);
    SizeCoversBits(bits, w);
    assert wnaf[..0] == [];
    var u := last;
    while word * w < bits
      invariant word <= n && s >= 0 && Regular(wnaf[..word], sign, b, t, last, s)
      invariant Pow(b, word + 1) > 0 && s == t / Pow(b, word + 1)
      invariant wnaf[n + 1..] == old(wnaf[n + 1..])
      invariant u == last
      decreases n - word
    {
      LoopCount(word, bits, w);
      u := s % b;
      ShiftAgain(t, b, word + 1);
      var even := if u % 2 == 0 then 1 else 0;
      var sgn := if last > 0 then 1 else -1;
      NextWindow(wnaf[..word], sign, b, t, last, s, u, even, sgn, sgn * even);
      s := s / b;
      u := u + sgn * even;
      last := last - sgn * even * b;
      ghost var d := wnaf[..word];
      wnaf[word] := last * sign;
      assert wnaf[..word + 1] == d + [last * sign];
      word := word + 1;
      last := u;
    }
    LoopCount(word, bits, w);
    assert word == n;
    EverythingShifted(t, w, bits, n);
    ghost var d := wnaf[..word];
    wnaf[word] := u * sign;
    assert wnaf[..word + 1] == d + [u * sign];
    LastWindow(d, sign, b, t, u);
  }

  lemma PowFirst(b: int)
    ensures Pow(b, 1) == b
  {
    assert Pow(b, 1) == b * Pow(b, 0);
  }
}
