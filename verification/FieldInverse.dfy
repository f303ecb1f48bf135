/** Inverses and square roots (field_impl.h): the addition chains for a^(P-2) and a^((P+1)/4), and batch inversion. */
module FieldInverse {
  import opened NumberTheory
  import opened Params
  import opened FieldElement
  import opened Curve
  import opened Jacobian

  // ------------------------------------------------------------- exponents

  /** An exponent of k ones in binary. */
  function OnesExponent(k: nat): (e: nat) {
    PowPositive(2, k);
    Pow(2, k) - 1
  }

  lemma AppendOnes(m: nat, k: nat)
    ensures OnesExponent(m) * Pow(2, k) + OnesExponent(k) == OnesExponent(m + k)
  {
    PowAdd(2, m, k);
    assert (Pow(2, m) - 1) * Pow(2, k) == Pow(2, m) * Pow(2, k) - Pow(2, k);
  }

  lemma TwoTo256()
    ensures Pow(2, 256) == 0x1_00000000_00000000_00000000_00000000_00000000_00000000_00000000_00000000
    ensures Pow(2, 32) == 0x1_0000_0000
  {
    hide Pow;
    SmallPowers();
    PowAdd(2, 8, 8);
    PowAdd(2, 16, 16);
    PowAdd(2, 32, 32);
    PowAdd(2, 64, 64);
    PowAdd(2, 128, 128);
  }

  lemma SmallPowers()
    ensures Pow(2, 0) == 1 && Pow(2, 1) == 2 && Pow(2, 2) == 4 && Pow(2, 3) == 8 && Pow(2, 5) == 32 && Pow(2, 6) == 64
    ensures Pow(2, 8) == 256 && Pow(2, 10) == 1024
  {
    assert Pow(2, 1) == 2 * Pow(2, 0);
    assert Pow(2, 2) == 2 * Pow(2, 1);
    assert Pow(2, 3) == 2 * Pow(2, 2);
    assert Pow(2, 4) == 2 * Pow(2, 3);
    assert Pow(2, 5) == 2 * Pow(2, 4);
    assert Pow(2, 6) == 2 * Pow(2, 5);
    assert Pow(2, 7) == 2 * Pow(2, 6);
    assert Pow(2, 8) == 2 * Pow(2, 7);
    assert Pow(2, 9) == 2 * Pow(2, 8);
    assert Pow(2, 10) == 2 * Pow(2, 9);
  }

  /** The blocks of ones of lengths 223 and 22 with a zero between them: the exponent both chains start from. */
  const BLOCKS: int := 0x3FFFFF_FFFFFFFF_FFFFFFFF_FFFFFFFF_FFFFFFFF_FFFFFFFF_FFFFFFFF_FFBFFFFF

  lemma BlocksExponent()
    ensures OnesExponent(223) * Pow(2, 23) + OnesExponent(22) == BLOCKS
  {
    hide Pow;
    TwoTo256();
    SmallPowers();
    PowAdd(2, 223, 23);
    PowAdd(2, 246, 10);
    PowAdd(2, 22, 10);
    PowAdd(2, 22, 1);
    assert (Pow(2, 223) - 1) * Pow(2, 23) == Pow(2, 223) * Pow(2, 23) - Pow(2, 23);
  }

  // ------------------------------------------------------------- powers of a

  /** x is the power a^e. */
  ghost predicate IsPower(x: Fe, a: Fe, e: nat) {
    x.Valid() && x.magnitude <= 8 && Value(x) == Res(Pow(Value(a), e))
  }

  lemma PowerOfOne(a: Fe)
    requires a.Valid() && a.magnitude <= 8
    ensures IsPower(a, a, 1)
  {
    assert Pow(Value(a), 1) == Value(a) * Pow(Value(a), 0);
    ValueIsResidue(a);
  }

  lemma ProductOfPowers(v: int, a: int, e: nat, f: nat)
    requires v == MulP(Res(Pow(a, e)), Res(Pow(a, f)))
    ensures v == Res(Pow(a, e + f))
  {
    hide Pow;
    MulRes(Pow(a, e), Pow(a, f));
    PowAdd(a, e, f);
  }

  method Times(x: Fe, y: Fe, ghost a: Fe, ghost e: nat, ghost f: nat) returns (r: Fe)
    requires IsPower(x, a, e) && IsPower(y, a, f)
    ensures IsPower(r, a, e + f) && r.magnitude == 1
  {
    hide Pow, Res, MulP, Value;
    r := FeMul(x, y);
    ProductOfPowers(Value(r), Value(a), e, f);
  }

  /** k squarings, and a multiplication by y. */
  method SquareAndMultiply(x: Fe, k: nat, y: Fe, ghost a: Fe, ghost e: nat, ghost f: nat) returns (r: Fe)
    requires IsPower(x, a, e) && IsPower(y, a, f)
    ensures e * Pow(2, k) >= 0 && IsPower(r, a, e * Pow(2, k) + f) && r.magnitude == 1
  {
    hide Pow, Res, MulP, Value, IsPower;
    r := x;
    Shifted(e, 0);
    for j := 0 to k
      invariant e * Pow(2, j) >= 0 && IsPower(r, a, e * Pow(2, j))
    {
      r := Square(r, a, e * Pow(2, j));
      Shifted(e, j);
    }
    r := Times(r, y, a, e * Pow(2, k), f);
  }

  method Square(x: Fe, ghost a: Fe, ghost e: nat) returns (r: Fe)
    requires IsPower(x, a, e)
    ensures IsPower(r, a, 2 * e) && r.magnitude == 1
  {
    hide Pow, Res, MulP, Value;
    r := FeSqr(x);
    ProductOfPowers(Value(r), Value(a), e, e);
  }

  lemma Shifted(e: nat, j: nat)
    ensures e * Pow(2, j) >= 0 && e * Pow(2, 0) == e && e * Pow(2, j + 1) == 2 * (e * Pow(2, j))
  {
    PowPositive(2, j);
    assert e * (2 * Pow(2, j)) == 2 * (e * Pow(2, j));
  }

  /** A longer block of ones from two shorter ones. */
  method Join(x: Fe, y: Fe, ghost a: Fe, ghost m: nat, k: nat) returns (r: Fe)
    requires IsPower(x, a, OnesExponent(m)) && IsPower(y, a, OnesExponent(k))
    ensures IsPower(r, a, OnesExponent(m + k))
  {
    hide Pow, Res, MulP, Value, IsPower, OnesExponent;
    r := SquareAndMultiply(x, k, y, a, OnesExponent(m), OnesExponent(k));
    AppendOnes(m, k);
  }

  /** The opening of both chains: a^(2^2 - 1), a^(2^22 - 1) and the power of the two long blocks. */
  method Blocks(a: Fe) returns (x2: Fe, t1: Fe)
    requires a.Valid() && a.magnitude <= 8
    ensures IsPower(x2, a, 3) && IsPower(t1, a, BLOCKS)
  {
    hide Pow, Res, MulP, Value, IsPower, OnesExponent;
    PowerOfOne(a);
    SmallOnes();
    x2 := SquareAndMultiply(a, 1, a, a, 1, 1);
    var x3 := SquareAndMultiply(x2, 1, a, a, 3, 1);
    var x6 := Join(x3, x3, a, 3, 3);
    var x9 := Join(x6, x3, a, 6, 3);
    var x11 := Join(x9, x2, a, 9, 2);
    var x22 := Join(x11, x11, a, 11, 11);
    var x44 := Join(x22, x22, a, 22, 22);
    var x88 := Join(x44, x44, a, 44, 44);
    var x176 := Join(x88, x88, a, 88, 88);
    var x220 := Join(x176, x44, a, 176, 44);
    var x223 := Join(x220, x3, a, 220, 3);
    t1 := SquareAndMultiply(x223, 23, x22, a, OnesExponent(223), OnesExponent(22));
    BlocksExponent();
  }

  lemma SmallOnes()
    ensures Pow(2, 1) == 2 && OnesExponent(1) == 1 && OnesExponent(2) == 3 && OnesExponent(3) == 7
  {
    SmallPowers();
  }

  // ------------------------------------------------------------- inverse and square root

  /** secp256k1_fe_inv: exactly the power P - 2, hence the inverse, and 0 for 0. */
  method FeInv(a: Fe) returns (r: Fe)
    requires a.Valid() && a.magnitude <= 8
    ensures r.Valid() && r.magnitude == 1 && Value(r) == Inv(Value(a))
    ensures Value(a) != 0 ==> MulP(Value(a), Value(r)) == 1 && Value(r) != 0
  {
    hide Pow, Res, MulP, Value, IsPower, Inv;
    PowerOfOne(a);
    SmallPowers();
    var x2, t1 := Blocks(a);
    t1 := SquareAndMultiply(t1, 5, a, a, BLOCKS, 1);
    t1 := SquareAndMultiply(t1, 3, x2, a, BLOCKS * 32 + 1, 3);
    t1 := SquareAndMultiply(t1, 2, a, a, BLOCKS * 256 + 11, 1);
    r := t1;
    PowerIsInverse(r, a);
    ValueIsResidue(a);
    if Value(a) != 0 { InverseLaw(Value(a)); }
  }

  lemma PowerIsInverse(r: Fe, a: Fe)
    requires IsPower(r, a, BLOCKS * 1024 + 45)
    ensures r.Valid() && Value(r) == Inv(Value(a))
  {
    hide Power;
    PowerIsPow(Value(a), P - 2);
    hide Pow;
    assert BLOCKS * 1024 + 45 == P - 2;
  }

  /** secp256k1_fe_equal and secp256k1_fe_equal_var. */
  method FeEqual(a: Fe, b: Fe, variable: bool) returns (equal: bool)
    requires a.Valid() && b.Valid() && a.magnitude <= 1 && b.magnitude <= 1022
    ensures equal <==> Value(a) == Value(b)
  {
    hide Res, Value;
    var na := FeNegate(a, 1);
    ghost var v := Value(na);
    na := FeAdd(na, b);
    equal := FeNormalizesToZero(na, variable);
    ValueIsResidue(a); ValueIsResidue(b);
    NegatedSum(Value(a), Value(b), v, Value(na));
  }

  lemma NegatedSum(a: int, b: int, n: int, s: int)
    requires IsResidue(a) && IsResidue(b) && n == SubP(0, a) && s == AddP(n, b)
    ensures s == 0 <==> a == b
  {
    hide Res;
    ResIdempotent(0 - a);
    Replace(n, 0 - a, b);
    DifferenceOfResidues(b, a);
  }

  /** v is a square modulo P. */
  ghost predicate IsSquare(v: int) {
    exists y :: IsResidue(y) && MulP(y, y) == v
  }

  /** secp256k1_fe_sqrt: the power (P + 1) / 4, which is a root exactly when there is one. */
  method FeSqrt(a: Fe) returns (r: Fe, ok: bool)
    requires a.Valid() && a.magnitude <= 8
    ensures r.Valid() && r.magnitude == 1 && Value(r) == Res(Pow(Value(a), (P + 1) / 4))
    ensures ok <==> MulP(Value(r), Value(r)) == Value(a)
    ensures ok <==> IsSquare(Value(a))
    ensures IsSquare(Value(r))
  {
    hide Pow, Res, MulP, Value, IsPower, IsSquare;
    PowerOfOne(a);
    SmallPowers();
    var x2, t1 := Blocks(a);
    t1 := SquareAndMultiply(t1, 6, x2, a, BLOCKS, 3);
    t1 := Square(t1, a, BLOCKS * 64 + 3);
    r := Square(t1, a, BLOCKS * 128 + 6);
    PowerIsRoot(r, t1, a);
    ghost var s := Value(t1);
    t1 := FeSqr(r);
    ok := FeEqual(t1, a, false);
    ValueIsResidue(a); ValueIsResidue(r);
    if ok { SquareWitness(Value(r), Value(a)); }
    if IsSquare(Value(a)) { RootOfSquare(Value(a), Value(r)); }
  }

  lemma PowerIsRoot(r: Fe, t: Fe, a: Fe)
    requires IsPower(t, a, BLOCKS * 128 + 6) && IsPower(r, a, BLOCKS * 256 + 12)
    ensures r.Valid() && Value(r) == Res(Pow(Value(a), (P + 1) / 4)) && IsSquare(Value(r))
  {
    hide Pow, IsSquare;
    assert BLOCKS * 256 + 12 == (P + 1) / 4;
    ValueIsResidue(t);
    MulRes(Pow(Value(a), BLOCKS * 128 + 6), Pow(Value(a), BLOCKS * 128 + 6));
    PowAdd(Value(a), BLOCKS * 128 + 6, BLOCKS * 128 + 6);
    SquareWitness(Value(t), Value(r));
  }

  lemma SquareWitness(y: int, v: int)
    requires IsResidue(y) && MulP(y, y) == v
    ensures IsSquare(v)
  {
  }

  /** If v = y^2 then (v^((P+1)/4))^2 = y^(P+1) = y^2. */
  lemma RootOfSquare(v: int, r: int)
    requires r == Res(Pow(v, (P + 1) / 4)) && IsSquare(v)
    ensures MulP(r, r) == v
  {
    Products();
    hide Pow, Res;
    var y :| IsResidue(y) && MulP(y, y) == v;
    var k := (P + 1) / 4;
    assert 4 * k == P + 1;
    ResIdempotent(y * y);
    PowCongRes(v, y * y, k);
    MulRes(Pow(v, k), Pow(v, k));
    Both(Pow(v, k), Pow(y * y, k), Pow(v, k), Pow(y * y, k));
    PowAdd(y * y, k, k);
    PowOfSquare(y, 2 * k);
    FermatSquare(y);
  }

  lemma PowCongRes(a: int, b: int, k: nat)
    requires Res(a) == Res(b)
    ensures Res(Pow(a, k)) == Res(Pow(b, k))
  {
    hide Res, Pow;
    ResIsCong(a, b);
    PowCong(a, b, k, P);
    ResIsCong(Pow(a, k), Pow(b, k));
  }

  lemma PowOfSquare(y: int, k: nat)
    ensures Pow(y * y, k) == Pow(y, 2 * k)
  {
    hide Pow;
    PowTwo(y);
    PowOfPow(y, 2, k);
  }

  lemma PowTwo(y: int)
    ensures Pow(y, 2) == y * y
  {
    assert Pow(y, 2) == y * Pow(y, 1) && Pow(y, 1) == y * Pow(y, 0);
  }

  lemma FermatSquare(y: int)
    ensures Res(Pow(y, P + 1)) == Res(y * y)
  {
    hide Pow, Res;
    PowAdd(y, 2, P - 1);
    PowTwo(y);
    ResOfSmall(0); ResOfSmall(1);
    if Res(y) == 0 {
      Both(y, 0, y, 0);
      Both(y * y, 0, Pow(y, P - 1), Pow(y, P - 1));
    } else {
      FermatRes(y);
      Both(y * y, y * y, Pow(y, P - 1), 1);
    }
  }

  lemma FermatRes(y: int)
    requires Res(y) != 0
    ensures Res(Pow(y, P - 1)) == 1
  {
    hide Pow, Res;
    Secp256k1Prime.PIsPrime();
    ResIsMod(y); ResIsMod(Pow(y, P - 1));
    Fermat(y, P);
  }

  // ------------------------------------------------------------- batch inversion

  /** The elements are nonzero and can be multiplied. */
  ghost predicate Usable(s: seq<Fe>) {
    forall i :: 0 <= i < |s| ==> s[i].Valid() && s[i].magnitude <= 8 && Value(s[i]) != 0
  }

  /** r[k] is the product of a[0] to a[k]. */
  ghost predicate RunningProducts(r: seq<Fe>, a: seq<Fe>) {
    |r| == |a| && (|r| > 0 ==> Value(r[0]) == Value(a[0]))
    && forall k {:trigger r[k]} :: 0 < k < |r| ==> Value(r[k]) == MulP(Value(r[k - 1]), Value(a[k]))
  }

  /** r[k] inverts a[k] for the indices from i on. */
  ghost predicate InvertsFrom(r: seq<Fe>, a: seq<Fe>, i: nat) {
    |r| == |a| && forall k :: i <= k < |r| ==> r[k].Valid() && r[k].magnitude == 1 && MulP(Value(r[k]), Value(a[k])) == 1
  }

  /** secp256k1_fe_inv_all_var: all inverses with one inversion. */
  method FeInvAllVar(r: array<Fe>, a: array<Fe>)
    requires r != a && r.Length == a.Length && Usable(a[..])
    modifies r
    ensures InvertsFrom(r[..], a[..], 0)
  {
    hide Res, MulP, Value, Fe.Valid, Inv, Usable, RunningProducts, InvertsFrom;
    var len := a.Length;
    if len < 1 {
      NothingToInvert(r[..], a[..]);
      return;
    }
    r[0] := a[0];
    FirstProduct(r[..1], a[..]);
    var i := 1;
    while i < len
      invariant 1 <= i <= len
      invariant Usable(r[..i]) && RunningProducts(r[..i], a[..i])
    {
      var x, y := r[i - 1], a[i];
      NextOperands(r[..i], a[..], i);
      r[i] := FeMul(x, y);
      assert r[..i + 1] == r[..i] + [r[i]];
      NextProduct(r[..i], a[..], r[i]);
      i := i + 1;
    }
    i := i - 1;
    ghost var products := r[..];
    assert products == r[..len] && a[..] == a[..len];
    LastProduct(products);
    var u := FeInv(r[i]);
    NothingInvertedYet(r[..], a[..]);
    while i > 0
      invariant 0 <= i < len && u.Valid() && u.magnitude == 1 && Value(u) != 0
      invariant MulP(Value(products[i]), Value(u)) == 1
      invariant r[..i + 1] == products[..i + 1]
      invariant InvertsFrom(r[..], a[..], i + 1)
    {
      var j := i;
      i := i - 1;
      assert r[..j + 1][i] == products[..j + 1][i];
      BackwardStep(products, a[..], i, u);
      ghost var before := r[..];
      r[j] := FeMul(r[i], u);
      assert r[..] == before[j := r[j]];
      InvertsMore(before, a[..], j, r[j]);
      u := FeMul(u, a[j]);
    }
    ghost var before := r[..];
    r[0] := u;
    assert r[..] == before[0 := u];
    FirstFactor(products, a[..], u);
    InvertsMore(before, a[..], 0, u);
  }

  lemma NothingToInvert(r: seq<Fe>, a: seq<Fe>)
    requires |r| == |a| == 0
    ensures InvertsFrom(r, a, 0)
  {
  }

  lemma NothingInvertedYet(r: seq<Fe>, a: seq<Fe>)
    requires |r| == |a|
    ensures InvertsFrom(r, a, |r|)
  {
  }

  lemma FirstProduct(r: seq<Fe>, a: seq<Fe>)
    requires |r| == 1 <= |a| && r[0] == a[0] && Usable(a)
    ensures Usable(r) && RunningProducts(r, a[..1])
  {
  }

  lemma NextOperands(r: seq<Fe>, a: seq<Fe>, i: nat)
    requires 0 < i == |r| < |a| && Usable(r) && Usable(a)
    ensures r[i - 1].Valid() && a[i].Valid() && r[i - 1].magnitude <= 8 && a[i].magnitude <= 8
    ensures MulP(Value(r[i - 1]), Value(a[i])) != 0
  {
    NonzeroProduct(r[i - 1], a[i]);
  }

  lemma NextProduct(r: seq<Fe>, a: seq<Fe>, x: Fe)
    requires 0 < |r| < |a| && Usable(r) && RunningProducts(r, a[..|r|]) && x.Valid() && x.magnitude == 1
    requires Value(x) == MulP(Value(r[|r| - 1]), Value(a[|r|])) != 0
    ensures Usable(r + [x]) && RunningProducts(r + [x], a[..|r| + 1])
  {
    hide Fe.Valid, Value, MulP;
  }

  lemma LastProduct(r: seq<Fe>)
    requires |r| > 0 && Usable(r)
    ensures r[|r| - 1].Valid() && r[|r| - 1].magnitude <= 8 && Value(r[|r| - 1]) != 0
  {
  }

  lemma BackwardStep(products: seq<Fe>, a: seq<Fe>, i: nat, u: Fe)
    requires i + 1 < |products| && RunningProducts(products, a) && Usable(products) && Usable(a)
    requires Value(u) != 0 && MulP(Value(products[i + 1]), Value(u)) == 1
    ensures products[i].Valid() && products[i].magnitude <= 8 && a[i + 1].Valid() && a[i + 1].magnitude <= 8
    ensures MulP(MulP(Value(products[i]), Value(u)), Value(a[i + 1])) == 1
    ensures MulP(Value(products[i]), MulP(Value(u), Value(a[i + 1]))) == 1 && MulP(Value(u), Value(a[i + 1])) != 0
  {
    hide Fe.Valid, Value, MulP;
    InverseOfFactor(Value(products[i]), Value(a[i + 1]), Value(products[i + 1]), Value(u));
    NonzeroProduct(u, a[i + 1]);
  }

  lemma InvertsMore(r: seq<Fe>, a: seq<Fe>, j: nat, x: Fe)
    requires j < |r| && InvertsFrom(r, a, j + 1) && x.Valid() && x.magnitude == 1 && MulP(Value(x), Value(a[j])) == 1
    ensures InvertsFrom(r[j := x], a, j)
  {
    hide Fe.Valid, Value, MulP;
  }

  lemma FirstFactor(products: seq<Fe>, a: seq<Fe>, u: Fe)
    requires |products| > 0 && RunningProducts(products, a) && MulP(Value(products[0]), Value(u)) == 1
    ensures MulP(Value(u), Value(a[0])) == 1
  {
    hide Value;
    Commute(Value(products[0]), Value(u));
  }

  lemma Commute(a: int, b: int)
    ensures MulP(a, b) == MulP(b, a)
  {
    Products();
    assert a * b == b * a;
  }

  lemma NonzeroProduct(a: Fe, b: Fe)
    requires Value(a) != 0 && Value(b) != 0
    ensures MulP(Value(a), Value(b)) != 0
  {
    Products();
    hide Res, Value;
    ValueIsResidue(a); ValueIsResidue(b);
    ProductIsNonzero(Value(a), Value(b));
  }

  /** If u inverts q = p a, then p u inverts a and u a inverts p. */
  lemma InverseOfFactor(p: int, a: int, q: int, u: int)
    requires q == MulP(p, a) && MulP(q, u) == 1
    ensures MulP(MulP(p, u), a) == 1 && MulP(p, MulP(u, a)) == 1
  {
    hide Res, Mul;
    MulIsProduct(p, a); MulIsProduct(q, u); MulIsProduct(p, u); MulIsProduct(u, a);
    MulIsProduct(MulP(p, u), a); MulIsProduct(p, MulP(u, a));
    ResIdempotent(p * a); ResIdempotent(p * u); ResIdempotent(u * a);
    Replace(q, p * a, u);
    Replace(MulP(p, u), p * u, a);
    Replace(MulP(u, a), u * a, p);
    OrderOfFactors(p, u, a);
  }

  lemma OrderOfFactors(p: int, u: int, a: int)
    ensures p * u * a == p * a * u == p * (u * a)
  {
  }
}
