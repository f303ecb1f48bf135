/** Splitting a scalar along the endomorphism (scalar_impl.h): k = r1 + r2 lambda modulo N with both halves short. */
module ScalarSplit {
  import opened NumberTheory
  import opened Params
  import opened CurveGroup
  import opened Wnaf

  /** secp256k1_scalar_mul_shift_var: the product over a power of two, rounded half up. */
  function MulShift(a: nat, b: nat, shift: nat): nat
    requires shift > 0
  {
    (a * b + Two(shift - 1)) / Two(shift)
  }

  // the reduced basis (a1, b1), (a2, b2) of the lattice of all (x, y) with x + y lambda = 0 modulo N; b1 is negative
  const A1: int := 0x3086D221_A7D46BCD_E86C90E4_9284EB15
  const A2: int := 0x1_14CA50F7_A8E2F3F6_57C1108D_9D44CFD8
  const MINUS_B1: int := 0xE4437ED6_010E8828_6F547FA9_0ABFE4C3
  const B2: int := 0x3086D221_A7D46BCD_E86C90E4_9284EB15
  const MINUS_B2: int := 0xFFFFFFFF_FFFFFFFF_FFFFFFFF_FFFFFFFE_8A280AC5_0774346D_D765CDA8_3DB1562C
  const MINUS_LAMBDA: int := 0xAC9C52B3_3FA3CF1F_5AD9E3FD_77ED9BA4_A880B9FC_8EC739C2_E0CFC810_B51283CF

  // 2^272 times b2 / N and -b1 / N, rounded
  const G1: int := 0x3086_D221A7D4_6BCDE86C_90E49284_EB153DAB
  const G2: int := 0xE443_7ED6010E_88286F54_7FA90ABF_E4C42212

  const TWO_271: int := 0x8000_00000000_00000000_00000000_00000000_00000000_00000000_00000000_00000000
  const TWO_272: int := 0x10000_00000000_00000000_00000000_00000000_00000000_00000000_00000000_00000000

  lemma TwoTo272()
    ensures Two(271) == TWO_271 && Two(272) == TWO_272
  {
    hide Two;
    TwoTo255();
    TwoSmall();
    TwoAdd(128, 128); TwoAdd(256, 8); TwoAdd(264, 7); TwoStep(271);
  }

  lemma LatticeConstants()
    ensures A1 * B2 + MINUS_B1 * A2 == N
    ensures MINUS_B2 == N - B2 && MINUS_LAMBDA == N - LAMBDA
    ensures (A1 - MINUS_B1 * LAMBDA) % N == 0 && (A2 + B2 * LAMBDA) % N == 0
  {
  }

  /** Rounding to the nearest integer. */
  lemma MulShiftIsNearest(a: nat, b: nat, shift: nat)
    requires shift > 0
    ensures var m := MulShift(a, b, shift);
      Two(shift) * m <= a * b + Two(shift - 1) < Two(shift) * m + Two(shift)
  {
    hide Two;
    var x, m := a * b + Two(shift - 1), Two(shift);
    assert x == x / m * m + x % m;
  }

  /** The short vector, over the integers: rounding leaves little more than half of each basis vector. */
  lemma ShortVector(k: nat, c1: int, c2: int)
    requires k < N
    requires TWO_272 * c1 <= k * G1 + TWO_271 < TWO_272 * c1 + TWO_272
    requires TWO_272 * c2 <= k * G2 + TWO_271 < TWO_272 * c2 + TWO_272
    ensures -0x1_00000000_00000000_00000000_00000000 < k - c1 * A1 - c2 * A2 < 0x1_00000000_00000000_00000000_00000000
    ensures -0x1_00000000_00000000_00000000_00000000 < c1 * MINUS_B1 - c2 * B2 < 0x1_00000000_00000000_00000000_00000000
  {
  }

  /** secp256k1_scalar_split_lambda: both halves, up to sign, have at most 128 bits. */
  method SplitLambda(k: nat) returns (r1: nat, r2: nat)
    requires k < N
    ensures Narrow(r1, 128) && Narrow(r2, 128) && (r1 + r2 * LAMBDA) % N == k % N
  {
    hide MulShift, Narrow;
    var c1 := MulShift(k, G1, 272);
    var c2 := MulShift(k, G2, 272);
    r2 := (c1 * MINUS_B1 + c2 * MINUS_B2) % N;
    r1 := (r2 * MINUS_LAMBDA + k) % N;
    RoundedQuotients(k, c1, c2);
    SecondHalf(c1, c2, r2);
    FirstHalf(k, c1, c2, r1, r2);
    ShortResidue(k - c1 * A1 - c2 * A2, r1);
    ShortResidue(c1 * MINUS_B1 - c2 * B2, r2);
    HalvesSum(k, r1, r2);
  }

  lemma RoundedQuotients(k: nat, c1: int, c2: int)
    requires k < N && c1 == MulShift(k, G1, 272) && c2 == MulShift(k, G2, 272)
    ensures -0x1_00000000_00000000_00000000_00000000 < k - c1 * A1 - c2 * A2 < 0x1_00000000_00000000_00000000_00000000
    ensures -0x1_00000000_00000000_00000000_00000000 < c1 * MINUS_B1 - c2 * B2 < 0x1_00000000_00000000_00000000_00000000
  {
    hide Two, MulShift;
    TwoTo272();
    MulShiftIsNearest(k, G1, 272);
    MulShiftIsNearest(k, G2, 272);
    ShortVector(k, c1, c2);
  }

  lemma SecondHalf(c1: int, c2: int, r2: int)
    requires r2 == (c1 * MINUS_B1 + c2 * MINUS_B2) % N
    ensures r2 % N == (c1 * MINUS_B1 - c2 * B2) % N
  {
    LatticeConstants();
    CongFromDifference(c1 * MINUS_B1 + c2 * MINUS_B2, c1 * MINUS_B1 - c2 * B2, c2, N);
    CongSelf(c1 * MINUS_B1 + c2 * MINUS_B2, N);
  }

  /** r1 = k - r2 lambda, and the basis vectors turn that into the short combination. */
  lemma FirstHalf(k: nat, c1: int, c2: int, r1: int, r2: int)
    requires r2 % N == (c1 * MINUS_B1 - c2 * B2) % N && r1 == (r2 * MINUS_LAMBDA + k) % N
    ensures r1 % N == (k - c1 * A1 - c2 * A2) % N
  {
    LatticeConstants();
    CongSelf(r2 * MINUS_LAMBDA + k, N);
    CongFromDifference(r2 * MINUS_LAMBDA + k, k - r2 * LAMBDA, r2, N);
    CongMul(r2, c1 * MINUS_B1 - c2 * B2, LAMBDA, LAMBDA, N);
    CongAdd(k, k, r2 * LAMBDA, (c1 * MINUS_B1 - c2 * B2) * LAMBDA, N);
    var j1, j2 := (A1 - MINUS_B1 * LAMBDA) / N, (A2 + B2 * LAMBDA) / N;
    assert A1 - MINUS_B1 * LAMBDA == j1 * N && A2 + B2 * LAMBDA == j2 * N;
    LatticeAlgebra(k, c1, c2, j1, j2, LAMBDA, MINUS_B1, B2, A1, A2);
    CongFromDifference(k - (c1 * MINUS_B1 - c2 * B2) * LAMBDA, k - c1 * A1 - c2 * A2, c1 * j1 + c2 * j2, N);
  }

  lemma LatticeAlgebra(k: int, c1: int, c2: int, j1: int, j2: int, l: int, mb1: int, b2: int, a1: int, a2: int)
    requires a1 - mb1 * l == j1 * N && a2 + b2 * l == j2 * N
    ensures k - (c1 * mb1 - c2 * b2) * l == k - c1 * a1 - c2 * a2 + (c1 * j1 + c2 * j2) * N
  {
    assert (c1 * j1 + c2 * j2) * N == c1 * (j1 * N) + c2 * (j2 * N);
    assert c1 * (a1 - mb1 * l) == c1 * a1 - c1 * mb1 * l;
    assert c2 * (a2 + b2 * l) == c2 * a2 + c2 * b2 * l;
    assert (c1 * mb1 - c2 * b2) * l == c1 * mb1 * l - c2 * b2 * l;
  }

  lemma ShortResidue(x: int, r: nat)
    requires -0x1_00000000_00000000_00000000_00000000 < x < 0x1_00000000_00000000_00000000_00000000 && r < N && r % N == x % N
    ensures Narrow(r, 128)
  {
    TwoTo255();
    RemainderIsUnique(r, 0, r, N);
    if x >= 0 { RemainderIsUnique(x, 0, x, N); } else { RemainderIsUnique(x, -1, x + N, N); }
  }

  lemma HalvesSum(k: nat, r1: int, r2: int)
    requires r1 == (r2 * MINUS_LAMBDA + k) % N
    ensures (r1 + r2 * LAMBDA) % N == k % N
  {
    LatticeConstants();
    CongSelf(r2 * MINUS_LAMBDA + k, N);
    CongAdd(r1, r2 * MINUS_LAMBDA + k, r2 * LAMBDA, r2 * LAMBDA, N);
    CongFromDifference(r2 * MINUS_LAMBDA + k + r2 * LAMBDA, k, r2, N);
  }
}
