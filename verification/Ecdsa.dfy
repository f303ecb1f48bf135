/** ECDSA (ecdsa_impl.h; sections 4.1.3 and 4.1.4 of SEC 1): signing with low s, and verification that compares
    abscissas without inverting Z. */
module Ecdsa {
  import opened Machine
  import opened NumberTheory
  import opened Params
  import opened Field5x52
  import opened FieldNormalize
  import opened FieldElement
  import opened Curve
  import opened Jacobian
  import opened Group
  import opened GroupTables
  import opened PointDecoding
  import opened CurveGroup
  import opened CyclicGroup
  import opened Wnaf
  import Ecmult
  import EcmultGen
  import Secp256k1Order

  // ------------------------------------------------------------- scalars modulo N

  /** secp256k1_scalar_inverse: the power N - 2, which is 0 for 0. */
  function ScalarInverse(a: nat): (r: nat)
    ensures r < N
  {
    Pow(a, N - 2) % N
  }

  lemma ScalarInverseLaw(a: nat)
    requires 0 < a < N
    ensures (a * ScalarInverse(a)) % N == 1
  {
    hide Pow;
    Secp256k1Order.NIsPrime();
    RemainderIsUnique(a, 0, a, N);
    Fermat(a, N);
    PowStep(a, N - 2);
    CongSelf(Pow(a, N - 2), N);
    CongMul(a, a, ScalarInverse(a), Pow(a, N - 2), N);
  }

  lemma {:induction false} PowOfZero(k: nat)
    requires k > 0
    ensures Pow(0, k) == 0
  {
  }

  lemma InverseOfZero()
    ensures ScalarInverse(0) == 0
  {
    PowOfZero(N - 2);
  }

  // ------------------------------------------------------------- comparing abscissas

  /** secp256k1_fe_cmp_var: the limbs from the top. */
  method FeCmpVar(a: Fe, b: Fe) returns (c: int)
    requires a.Valid() && b.Valid() && a.normalized && b.normalized
    ensures c == if Eval(a.n) > Eval(b.n) then 1 else if Eval(a.n) < Eval(b.n) then -1 else 0
  {
    hide Eval;
    NormalForm(a); NormalForm(b);
    var i := 4;
    while i >= 0
      invariant -1 <= i <= 4 && forall k :: i < k <= 4 ==> a.n[k] == b.n[k]
    {
      TopLimbDecides(a.n, b.n, i);
      TopLimbDecides(b.n, a.n, i);
      if a.n[i] > b.n[i] {
        return 1;
      }
      if a.n[i] < b.n[i] {
        return -1;
      }
      i := i - 1;
    }
    assert a.n == b.n;
    return 0;
  }

  lemma TopLimbDecides(a: seq<uint64>, b: seq<uint64>, i: nat)
    requires Normal(a) && Normal(b) && i <= 4 && forall k :: i < k <= 4 ==> a[k] == b[k]
    ensures a[i] > b[i] ==> Eval(a) > Eval(b)
  {
  }

  // ------------------------------------------------------------- the abscissa test

  const P_MINUS_ORDER: int := 0x1_45512319_50B75FC4_402DA172_2FC9BAEE

  /** Because 2 N > P, the abscissa is r or r + N. */
  lemma AbscissaModN(x: int, r: nat)
    requires 0 <= x < P && r < N
    ensures x % N == r <==> x == r || (r < P_MINUS_ORDER && x == r + N)
  {
    if x < N { RemainderIsUnique(x, 0, x, N); } else { RemainderIsUnique(x, 1, x - N, N); }
  }

  lemma OrderConstants()
    ensures P_MINUS_ORDER == P - N && 0 < N < P < 2 * N
  {
  }

  /** The comparison at the end of secp256k1_ecdsa_sig_verify. */
  method AbscissaMatches(sigr: nat, pr: Gej) returns (equal: bool)
    requires sigr < N && pr.Valid() && !pr.infinity
    ensures equal <==> pr.ToPoint().x % N == sigr
  {
    hide Value, Fe.Valid, Res, Inv, ToAffine, MulP, AddP, FeSetB32, Eval;
    OrderConstants();
    var xr := FeSetB32(sigr);
    ghost var x := pr.ToPoint().x;
    AbscissaInRange(pr);
    AbscissaModN(x, sigr);
    equal := GejEqXVar(xr, pr);
    if equal {
      return true;
    }
    var c := FeCmpVar(xr, FeSetB32(P_MINUS_ORDER));
    if c >= 0 {
      // with no room for n below p there is no second candidate
      return false;
    }
    xr := FeAdd(xr, FeSetB32(N));
    SmallSum(sigr, N);
    equal := GejEqXVar(xr, pr);
  }

  lemma AbscissaInRange(pr: Gej)
    requires pr.Valid() && !pr.infinity
    ensures 0 <= pr.ToPoint().x < P
  {
    Products();
    hide Value, Fe.Valid, Inv;
    ResIdempotent(Value(pr.x) * (Inv(Value(pr.z)) * Inv(Value(pr.z))));
  }

  lemma SmallSum(a: nat, b: nat)
    requires a + b < P
    ensures AddP(a, b) == a + b
  {
    ResOfSmall(a + b);
  }

  // ------------------------------------------------------------- signatures

  /** The verification equation of section 4.1.4 of SEC 1. */
  ghost predicate Verifies(r: nat, s: nat, Q: CurvePoint, m: nat, G: CurvePoint) {
    0 < r < N && 0 < s < N
    && var w := ScalarInverse(s);
       var R := LinearCombination((w * r) % N, Q, (w * m) % N, G);
       R.Affine? && R.x % N == r
  }

  /** What a signature by the key d is: r is the abscissa of a multiple k G, and s k = r d + m. */
  ghost predicate Signed(r: nat, s: nat, d: int, m: nat, G: CurvePoint) {
    0 < r < N && 0 < s < N && exists k: int :: SignedWith(r, s, d, m, k, G)
  }

  ghost predicate SignedWith(r: nat, s: nat, d: int, m: nat, k: int, G: CurvePoint) {
    Multiple(k, G).Affine? && Multiple(k, G).x % N == r && (s * k) % N == (r * d + m) % N
  }

  /** secp256k1_ecdsa_sig_verify: accepts exactly the signatures that satisfy the equation, which are those by the key. */
  method SigVerify(preG: seq<Ge>, preG128: seq<Ge>, sigr: nat, sigs: nat, pubkey: Ge, message: nat, ghost G: CurvePoint)
    returns (valid: bool)
    requires sigr < N && sigs < N && message < N
    requires pubkey.Valid() && !pubkey.infinity && OnCurve(pubkey.ToPoint(), 7)
    requires Ecmult.Context(preG, preG128, G)
    ensures valid <==> Verifies(sigr, sigs, pubkey.ToPoint(), message, G)
    ensures forall d: int :: pubkey.ToPoint() == Multiple(d, G) ==> (valid <==> Signed(sigr, sigs, d, message, G))
  {
    hide Value, Fe.Valid, Res, Inv, ToAffine, OnCurve, Ecmult.Context, LinearCombination, ScalarInverse, Signed, Multiple;
    forall d: int ensures Verifies(sigr, sigs, Multiple(d, G), message, G) <==> Signed(sigr, sigs, d, message, G) {
      VerifiesExactly(sigr, sigs, d, message, G);
    }
    if sigr == 0 || sigs == 0 {
      return false;
    }
    var sn := ScalarInverse(sigs);
    var u1 := (sn * message) % N;
    var u2 := (sn * sigr) % N;
    var pubkeyj := new Gej();
    GejSetGe(pubkeyj, pubkey);
    var pr := new Gej();
    Ecmult.Ecmult(preG, preG128, pr, pubkeyj, u2, u1, G);
    if pr.infinity {
      return false;
    }
    valid := AbscissaMatches(sigr, pr);
  }

  /** If s k = r d + m up to sign, the verification equation leads back to the abscissa of k G. */
  lemma SignatureVerifies(d: int, k: int, m: nat, r: nat, s: nat, s0: int, G: CurvePoint)
    requires 0 < r < N && 0 < s < N
    requires Multiple(k, G).Affine? && Multiple(k, G).x % N == r
    requires (s0 * k) % N == (r * d + m) % N && (s == s0 || s == N - s0)
    ensures Verifies(r, s, Multiple(d, G), m, G)
  {
    hide Multiple, LinearCombination, ScalarInverse;
    var w := ScalarInverse(s);
    ScalarInverseLaw(s);
    var sign := if s == s0 then 1 else -1;
    CongOfSignedNonce(w, s, s0, sign, k, r, d, m, N);
    SameAbscissaOfNonce(w * r, w * m, d, sign, k, G);
  }

  /** Conversely, whatever satisfies the equation is a signature, with the nonce (r d + m) / s. */
  lemma VerifiesExactly(r: nat, s: nat, d: int, m: nat, G: CurvePoint)
    ensures Verifies(r, s, Multiple(d, G), m, G) <==> Signed(r, s, d, m, G)
  {
    hide Multiple, LinearCombination, ScalarInverse, SignedWith;
    if Verifies(r, s, Multiple(d, G), m, G) { NonceOfSignature(r, s, d, m, G); }
    if Signed(r, s, d, m, G) {
      var k: int :| SignedWith(r, s, d, m, k, G);
      NonceVerifies(r, s, d, m, k, G);
    }
  }

  lemma NonceVerifies(r: nat, s: nat, d: int, m: nat, k: int, G: CurvePoint)
    requires 0 < r < N && 0 < s < N && SignedWith(r, s, d, m, k, G)
    ensures Verifies(r, s, Multiple(d, G), m, G)
  {
    hide Multiple, Verifies;
    SignatureVerifies(d, k, m, r, s, s, G);
  }

  lemma NonceOfSignature(r: nat, s: nat, d: int, m: nat, G: CurvePoint)
    requires Verifies(r, s, Multiple(d, G), m, G)
    ensures Signed(r, s, d, m, G)
  {
    hide Multiple, LinearCombination, ScalarInverse;
    var w := ScalarInverse(s);
    var k := w * r * d + w * m;
    ScalarInverseLaw(s);
    CombinationOfRemainders(w * r, Multiple(d, G), w * m, G);
    NestedCombination(w * r, d, w * m, G);
    InverseCancels(w, s, r, d, m, N);
    assert SignedWith(r, s, d, m, k, G);
  }

  lemma InverseCancels(w: int, s: int, r: int, d: int, m: int, n: int)
    requires n > 1 && (s * w) % n == 1
    ensures (s * (w * r * d + w * m)) % n == (r * d + m) % n
  {
    RemainderIsUnique(1, 0, 1, n);
    CongMul(s * w, 1, r * d + m, r * d + m, n);
    assert s * (w * r * d + w * m) == s * w * (r * d + m) by {
      DistributeW(w, r, d, m);
      assert s * ((r * d + m) * w) == s * w * (r * d + m);
    }
  }

  lemma SameAbscissaOfNonce(x: int, y: int, d: int, sign: int, k: int, G: CurvePoint)
    requires (x * d + y) % N == (sign * k) % N && (sign == 1 || sign == -1) && Multiple(k, G).Affine?
    ensures var R := LinearCombination(x % N, Multiple(d, G), y % N, G); R.Affine? && R.x == Multiple(k, G).x
  {
    hide Multiple, LinearCombination;
    CombinationOfRemainders(x, Multiple(d, G), y, G);
    NestedCombination(x, d, y, G);
    SignedAbscissa(x * d + y, sign * k, k, G);
  }

  lemma CombinationOfRemainders(x: int, Q: CurvePoint, y: int, G: CurvePoint)
    ensures LinearCombination(x % N, Q, y % N, G) == LinearCombination(x, Q, y, G)
  {
    hide LinearCombination;
    CombinationModN(x % N, x, Q, y % N, y, G) by { CongSelf(x, N); CongSelf(y, N); }
  }

  lemma SignedAbscissa(t: int, u: int, k: int, G: CurvePoint)
    requires t % N == u % N && (u == k || u == -k) && Multiple(k, G).Affine?
    ensures Multiple(t, G).Affine? && Multiple(t, G).x == Multiple(k, G).x
  {
    hide Multiple, Negate;
    MultipleModN(t, u, G);
    if u == -k {
      NegatedMultiple(k, G);
      NegateKeepsAbscissa(Multiple(k, G));
    }
  }

  lemma NegateKeepsAbscissa(p: CurvePoint)
    ensures p.Affine? ==> Negate(p).Affine? && Negate(p).x == p.x
  {
  }

  lemma NestedCombination(x: int, d: int, y: int, G: CurvePoint)
    ensures LinearCombination(x, Multiple(d, G), y, G) == Multiple(x * d + y, G)
  {
    hide Sum, Minus, AbelianGroup.Times, AbelianGroup.Laws, Secp;
    PointsFormAbelianGroup();
    AbelianGroup.TimesTimes(Secp(), x, d, G);
    AbelianGroup.TimesAdd(Secp(), x * d, y, G);
  }

  lemma CongOfSignedNonce(w: int, s: int, s0: int, sign: int, k: int, r: int, d: int, m: int, n: int)
    requires n > 1 && (s * w) % n == 1 && (s0 * k) % n == (r * d + m) % n
    requires if sign == 1 then s == s0 else sign == -1 && s == n - s0
    ensures (w * r * d + w * m) % n == (sign * k) % n
  {
    CongMul(s0 * k, r * d + m, w, w, n);
    assert (r * d + m) * w == w * r * d + w * m by { DistributeW(w, r, d, m); }
    var q := if sign == 1 then 0 else 1;
    assert s0 == sign * s + q * n;
    RegroupNonce(s0, sign, s, q, k, w, n);
    CongFromDifference(s0 * k * w, (s * w) * (sign * k), q * (k * w), n);
    RemainderIsUnique(1, 0, 1, n);
    CongMul(s * w, 1, sign * k, sign * k, n);
  }

  lemma DistributeW(w: int, r: int, d: int, m: int)
    ensures (r * d + m) * w == w * r * d + w * m
  {
    assert r * d * w == w * r * d;
  }

  lemma RegroupNonce(s0: int, sign: int, s: int, q: int, k: int, w: int, n: int)
    requires s0 == sign * s + q * n
    ensures s0 * k * w == (s * w) * (sign * k) + q * (k * w) * n
  {
    assert s0 * k * w == (sign * s) * (k * w) + (q * n) * (k * w) by { Distribute3(sign * s, q * n, k, w); }
    assert (sign * s) * (k * w) == (s * w) * (sign * k) by { Regroup4(sign, s, k, w); }
    assert (q * n) * (k * w) == q * (k * w) * n;
  }

  lemma Distribute3(a: int, b: int, k: int, w: int)
    ensures (a + b) * k * w == a * (k * w) + b * (k * w)
  {
    assert (a + b) * k * w == (a + b) * (k * w);
  }

  lemma Regroup4(sign: int, s: int, k: int, w: int)
    ensures (sign * s) * (k * w) == (s * w) * (sign * k)
  {
    assert (sign * s) * (k * w) == s * w * (sign * k);
  }

  /** The s of the signature, before it is made low. */
  function HighOrLow(nonce: nat, r: nat, d: nat, m: nat): (s: nat)
    ensures s < N
  {
    (ScalarInverse(nonce) * (((r * d) % N + m) % N)) % N
  }

  lemma HighOrLowEquation(nonce: nat, r: nat, d: nat, m: nat)
    requires 0 < nonce < N
    ensures (HighOrLow(nonce, r, d, m) * nonce) % N == (r * d + m) % N
  {
    hide ScalarInverse;
    ScalarInverseLaw(nonce);
    RemainderIsUnique(1, 0, 1, N);
    var i, n := ScalarInverse(nonce), ((r * d) % N + m) % N;
    CongSelf(r * d, N);
    CongAdd((r * d) % N, r * d, m, m, N);
    CongSelf((r * d) % N + m, N);
    CongSelf(i * n, N);
    CongMul(HighOrLow(nonce, r, d, m), i * n, nonce, nonce, N);
    CongMul(nonce * i, 1, n, n, N);
    assert i * n * nonce == nonce * i * n by { Regroup3(i, n, nonce); }
  }

  lemma Regroup3(a: int, b: int, c: int)
    ensures a * b * c == c * a * b
  {
    assert a * b * c == c * (a * b);
  }

  /** secp256k1_ecdsa_sig_sign: a signature it returns verifies under the public key d G, and has a low s. The recovery
      id holds the parity of the ordinate of the nonce point, flipped when s was negated, and whether its abscissa
      overflowed N. */
  method SigSign(ctx: EcmultGen.Context, seckey: nat, message: nat, nonce: nat, ghost G: CurvePoint, ghost U: CurvePoint)
    returns (ok: bool, sigr: nat, sigs: nat, recid: nat)
    requires ctx.Valid(G, U) && G != Infinity && seckey < N && message < N && nonce < N
    ensures sigr < N && sigs < N
    ensures ok <==> HighOrLow(nonce, sigr, seckey, message) != 0
    ensures ok ==> nonce != 0 && 0 < sigs <= N / 2
    ensures nonce != 0 ==> Multiple(nonce, G).Affine? && sigr == Multiple(nonce, G).x % N
    ensures ok && sigr != 0 ==> Verifies(sigr, sigs, Multiple(seckey, G), message, G)
    ensures ok ==> var R := Multiple(nonce, G); var s0 := HighOrLow(nonce, sigr, seckey, message);
      recid == (if R.x >= N then 2 else 0) + (R.y % 2 + (if s0 > N / 2 then 1 else 0)) % 2
  {
    hide Multiple, Verifies, ScalarInverse, HighOrLow, EcmultGen.Context.Valid;
    sigr, recid := NoncePoint(ctx, nonce, G, U);
    sigs := SignedScalar(nonce, sigr, seckey, message);
    ghost var s0 := sigs;
    if sigs == 0 {
      return false, sigr, sigs, recid;
    }
    RecoveryId(if Multiple(nonce, G).x >= N then 2 else 0, Multiple(nonce, G).y % 2, if sigs > N / 2 then 1 else 0);
    sigs, recid := MakeLow(sigs, recid);
    ok := true;
    SignedVerifies(seckey, nonce, message, sigr, sigs, G);
  }

  lemma RecoveryId(o: int, y: int, c: int)
    requires (o == 0 || o == 2) && 0 <= y <= 1
    ensures (o + y) / 2 * 2 + ((o + y) % 2 + c) % 2 == o + (y + c) % 2
  {
  }

  /** s, before it is made low. */
  method SignedScalar(nonce: nat, sigr: nat, seckey: nat, message: nat) returns (sigs: nat)
    requires nonce < N
    ensures sigs == HighOrLow(nonce, sigr, seckey, message) < N && (sigs != 0 ==> nonce != 0)
  {
    hide ScalarInverse;
    SFormula(nonce, sigr, seckey, message);
    var n := (((sigr * seckey) % N) + message) % N;
    sigs := ScalarInverse(nonce);
    sigs := (sigs * n) % N;
  }

  /** The part of secp256k1_ecdsa_sig_sign that depends on the nonce alone. */
  method NoncePoint(ctx: EcmultGen.Context, nonce: nat, ghost G: CurvePoint, ghost U: CurvePoint) returns (sigr: nat, recid: nat)
    requires ctx.Valid(G, U) && G != Infinity && nonce < N
    ensures sigr < N
    ensures nonce != 0 ==> var R := Multiple(nonce, G);
      R.Affine? && sigr == R.x % N && recid == (if R.x >= N then 2 else 0) + R.y % 2
  {
    hide Value, Fe.Valid, Res, Inv, ToAffine, Multiple;
    var rp := new Gej();
    EcmultGen.EcmultGen(ctx, rp, nonce, G, U);
    var r := GeSetGej(rp);
    ValueIsResidue(r.x); ValueIsResidue(r.y);
    NonzeroNonce(nonce, G);
    var b := Value(r.x);
    sigr := b % N;
    var overflow := b >= N;
    recid := (if overflow then 2 else 0) + Value(r.y) % 2;
  }

  lemma NonzeroNonce(nonce: nat, G: CurvePoint)
    requires G != Infinity && nonce < N
    ensures nonce != 0 ==> Multiple(nonce, G) != Infinity
  {
    hide Multiple;
    RemainderIsUnique(nonce, 0, nonce, N);
    if nonce != 0 { MultipleIsNonzero(nonce, G); }
  }

  lemma SFormula(nonce: nat, r: nat, d: nat, m: nat)
    requires nonce < N
    ensures HighOrLow(nonce, r, d, m) == (ScalarInverse(nonce) * (((r * d) % N + m) % N)) % N
    ensures HighOrLow(nonce, r, d, m) != 0 ==> nonce != 0
  {
    hide ScalarInverse;
    InverseOfZero();
    RemainderIsUnique(0, 0, 0, N);
  }

  lemma SignedVerifies(d: nat, nonce: nat, m: nat, r: nat, s: nat, G: CurvePoint)
    requires G != Infinity && 0 < nonce < N && r < N && 0 < s < N
    requires Multiple(nonce, G).Affine? && Multiple(nonce, G).x % N == r
    requires s == HighOrLow(nonce, r, d, m) || s == N - HighOrLow(nonce, r, d, m)
    ensures r != 0 ==> Verifies(r, s, Multiple(d, G), m, G)
  {
    hide Multiple, Verifies, HighOrLow;
    if r != 0 {
      HighOrLowEquation(nonce, r, d, m);
      SignatureVerifies(d, nonce, m, r, s, HighOrLow(nonce, r, d, m), G);
    }
  }

  /** The low one of s and -s; the recovery id follows. */
  method MakeLow(s: nat, recid: nat) returns (s': nat, recid': nat)
    requires 0 < s < N
    ensures 0 < s' <= N / 2 && (s' == if s > N / 2 then N - s else s)
    ensures recid' == (recid / 2) * 2 + (recid % 2 + (if s > N / 2 then 1 else 0)) % 2
  {
    s', recid' := s, recid;
    if IsHigh(s') {
      s' := ScalarNegate(s');
      // recid ^= 1
      recid' := if recid' % 2 == 0 then recid' + 1 else recid' - 1;
    }
  }
}
