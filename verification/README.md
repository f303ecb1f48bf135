# A model of the arithmetic, encoding, hashing and consensus core of pbft_blockChain

This project models four parts of the repository in Dafny and proves what they are for. `dafny verify dfyconfig.toml`
checks all of it.

**The libsecp256k1 tower.** Each layer is proved against the contract of the one below.
- Limbs (`Field10x26`, `Field5x52`, `FieldNormalize`): multiplication, squaring and reduction on arrays of machine words.
  The word types are bounded integers, so that a method that verifies is one in which no accumulator wraps.
- Field elements (`FieldElement`, `FieldInverse`): the magnitudes are the preconditions of the C code, and the value of an
  element is a residue modulo p. `Res`, the residue, and `Mul`, the product in the definitions, are defined by repeated
  subtraction and addition, so that unfolding a definition brings no arithmetic on 256-bit numbers with it; `ResIsMod` and
  `MulIsProduct` say what they are. That p and n are prime is proved by Pocklington certificates, whose arithmetic is in
  `Secp256k1Prime` and `Secp256k1Order`.
- Points (`Curve`, `Jacobian`, `Group`, `GroupTables`, `PointDecoding`): `AddPoints` is the affine chord-and-tangent law. The Jacobian
  formulas are methods over a class `Gej` whose output may be an operand, and each yields the affine sum in every case.
- The group (`AbelianGroup`, `Associativity`, `CurveGroup`, `GeneratorPoint`, `GeneratorChain`, `CyclicGroup`, `NumsChain`): the
  points are the multiples of the generator, and everything that the multiplication layers rely on follows.
- Scalars and multiplication (`Wnaf`, `ScalarSplit`, `Ecmult`, `EcmultConst`, `EcmultGen`, `Ecdsa`): recodings, tables,
  the four-string double-and-add, the constant-time ladder, the blinded comb, and signing and verifying. The build is that
  of `secp256.go`: endomorphism on, no GMP.
- `GoCurve` is the second implementation of the curve, on unbounded integers.

**Keccak** (`Words`, `KeccakF`, `Sponge`). The specification is written from sections 3.2, 3.3 and 5.1 of FIPS 202, with
the rotation amounts and round constants derived from their definitions, and the mappings, the placing of bytes and the
padding are also stated bit by bit. The four unrolled rounds leave the lanes in
different places, which a permutation indexed by the round keeps track of.

**RLP** (`RlpFormat`, `RlpEncode`, `RlpDecode`). The format is a recursive definition on trees of byte strings. The encoder
keeps flat data and a side list of deferred headers; the decoder keeps a stack of list positions, a cached kind and a
limit. A cursor describes where the decoder is; encoding and decoding are inverse to each other.

**PBFT** (`PbftConsensus`, `PbftNode`). One node: its consensus state, its pools of votes, and the steps over them. Blocks
are references, so the votes of a block in the logs can change when another message is handled; the class invariant
covers that. Signatures and hashes are arbitrary functions.

No fact of group theory is assumed. `Associativity` proves that the chord-and-tangent law is associative: lines are described
by the coefficients of the cubic they cut out, so that chords and tangents are one case, and two points of four can be
exchanged. `GeneratorChain` follows a combination of the generator and its image down to zero, with a point and a slope for
each step. `CyclicGroup` concludes that the generator has order n, that every point is a multiple of it (there are at most
2p + 1 points, fewer than 3n, and none of order two), and hence that every point has order dividing n and that the map
(x, y) -> (beta x, y) is multiplication by lambda. `NumsChain` follows the second generator in the same way.

What the model shows to be different from what one might expect:
- Normalization is right if and only if its first addition stays within 64 bits. That is so up to magnitude 2047, and not
  for all elements of magnitude 2048, which the representation check admits (`FieldNormalize.FitsUpToMagnitude2047`,
  `FieldNormalize.WrappingElement`).
- `verifyMsg` takes the last sequence ID -1 for "none", so after a block with the ID -1 the same ID is accepted again
  (`PbftConsensus.AcceptedAgainAfterMinusOne`), and a round with the same messages executes again, any number of times
  (`PbftNode.Node.Round`, `PbftNode.MinusOneRuns`). Up to there the executed IDs increase and none is accepted twice.
- The loop of `StartConsensus` ends if and only if the last sequence ID is not 2^63 - 1: adding one wraps, and no ID passes
  the guard (`PbftConsensus.StartEnds`).
- Whether the prepare log is a certificate can depend on the order in which the map is visited: the block that comes first
  decides which block ID is counted (`PbftConsensus.AlwaysWhen`, `PbftConsensus.SometimesWhen`).
- The deleting loops of `routeMsgWhenAlarmed` stop halfway, so half of a batch is delivered again
  (`PbftNode.Pool.Deliver`).
- A certificate has distinct signatures, not distinct signers, and the block that is executed need not be one of those that
  the prepare messages are on: in the runs of `PbftNode.MinusOneRuns` one node vouches for everything, and the executed
  block never has the block ID of the prepare messages.

## Model

| member | source | states |
|---|---|---|
| Field10x26.MulInner | pbft_blockChain/crypto/secp256k1/libsecp256k1/src/field_10x26_impl.h:440-767 | for ten 26-bit limbs within 30 bits (the top one 26), the limbs written are within the output bounds and worth a b modulo p; r may be a; no 64-bit accumulator wraps |
| Field10x26.SqrInner | pbft_blockChain/crypto/secp256k1/libsecp256k1/src/field_10x26_impl.h:769-1041 | the same for a a, with doubled limbs |
| Field5x52.MulInner | pbft_blockChain/crypto/secp256k1/libsecp256k1/src/field_5x52_int128_impl.h:18-153 | for five 52-bit limbs within 56 bits (the top one 52), the limbs written are within the output bounds and worth a b modulo p; r may be a; no 64-bit or 128-bit accumulator wraps |
| Field5x52.SqrInner | pbft_blockChain/crypto/secp256k1/libsecp256k1/src/field_5x52_int128_impl.h:155-275 | the same for a a, with doubled limbs |
| FieldNormalize.Normalize | pbft_blockChain/crypto/secp256k1/libsecp256k1/src/field_5x52_impl.h:54-95 | for every element that the representation admits, the unique reduced limbs of the value less what the first addition loses; they are those of the value if and only if that addition stays within 64 bits |
| FieldNormalize.NormalizeVar | pbft_blockChain/crypto/secp256k1/libsecp256k1/src/field_5x52_impl.h:121-163 | the same result, although the second pass is skipped when there is nothing to subtract |
| FieldNormalize.NormalizeWeak | pbft_blockChain/crypto/secp256k1/libsecp256k1/src/field_5x52_impl.h:97-119 | magnitude 1, and the same residue if and only if the first addition stays within 64 bits |
| FieldNormalize.NormalizesToZero | pbft_blockChain/crypto/secp256k1/libsecp256k1/src/field_5x52_impl.h:165-186 | 1 exactly when the value is 0 modulo p, unless the first addition wraps and the value is 2^64 modulo p; then, and only then, the answer is wrong |
| FieldNormalize.NormalizesToZeroVar | pbft_blockChain/crypto/secp256k1/libsecp256k1/src/field_5x52_impl.h:188-227 | the same, with the early exit on the low limb |
| FieldNormalize.FitsUpToMagnitude2047 | pbft_blockChain/crypto/secp256k1/libsecp256k1/src/field_5x52_impl.h:54-64 | the first addition stays within 64 bits for all elements of magnitude m if and only if m <= 2047 |
| FieldNormalize.WrappingElement | pbft_blockChain/crypto/secp256k1/libsecp256k1/src/field_5x52_impl.h:33-51 | an element that the representation check admits (magnitude 2048) whose first addition wraps and whose residue is 2^64, so that all five routines are wrong on it |
| FieldElement.FeMul | pbft_blockChain/crypto/secp256k1/libsecp256k1/src/field_5x52_impl.h:373-387 | the product in the field, magnitude 1, for operands of magnitude up to 8 |
| FieldElement.FeSqr | pbft_blockChain/crypto/secp256k1/libsecp256k1/src/field_5x52_impl.h:389-400 | the square in the field |
| FieldElement.FeAdd | pbft_blockChain/crypto/secp256k1/libsecp256k1/src/field_5x52_impl.h:357-371 | the sum; magnitudes add up |
| FieldElement.FeNegate | pbft_blockChain/crypto/secp256k1/libsecp256k1/src/field_5x52_impl.h:327-342 | the negative; no limb of 2(m+1)p - a is negative |
| FieldElement.FeMulInt | pbft_blockChain/crypto/secp256k1/libsecp256k1/src/field_5x52_impl.h:344-355 | the multiple; the magnitude is multiplied |
| FieldElement.FeCmov | pbft_blockChain/crypto/secp256k1/libsecp256k1/src/field_5x52_impl.h:402-417 | the masks select exactly the one or the other element |
| PointDecoding.FeSetB32 | pbft_blockChain/crypto/secp256k1/libsecp256k1/src/field_5x52_impl.h:286-306 | the limbs of a number below p, normalized |
| PointDecoding.FeNormalizeVar | pbft_blockChain/crypto/secp256k1/libsecp256k1/src/field_5x52_impl.h:121-163 | the normalized element of the same value |
| PointDecoding.FeIsOdd | pbft_blockChain/crypto/secp256k1/libsecp256k1/src/field_5x52_impl.h:248-254 | the parity of the value, from the low limb |
| Ecdsa.FeCmpVar | pbft_blockChain/crypto/secp256k1/libsecp256k1/src/field_5x52_impl.h:267-284 | comparing normalized limbs from the top compares the values |
| FieldInverse.FeInv | pbft_blockChain/crypto/secp256k1/libsecp256k1/src/field_impl.h:136-224 | the addition chain computes the power p - 2 exactly, which is the inverse (0 for 0) |
| FieldInverse.FeSqrt | pbft_blockChain/crypto/secp256k1/libsecp256k1/src/field_impl.h:38-134 | the addition chain computes the power (p+1)/4 exactly, and the test succeeds if and only if the operand is a square |
| FieldInverse.FeEqual | pbft_blockChain/crypto/secp256k1/libsecp256k1/src/field_impl.h:24-36 | 1 exactly for equal residues |
| FieldInverse.FeInvAllVar | pbft_blockChain/crypto/secp256k1/libsecp256k1/src/field_impl.h:263-288 | r[i] a[i] = 1 for every i, for arrays of any length of nonzero elements, with one inversion |
| Secp256k1Prime.PIsPrime | pbft_blockChain/crypto/secp256k1/curve.go:287 | the modulus p of section 2.7.1 of SEC 2 is prime, by a Pocklington certificate |
| Secp256k1Order.NIsPrime | pbft_blockChain/crypto/secp256k1/curve.go:288 | the order n is prime, by a Pocklington certificate |
| Secp256k1Prime.MinusSevenIsNotACube | pbft_blockChain/crypto/secp256k1/curve.go:289 | x^3 = -7 has no solution modulo p |
| Group.GejDoubleVar | pbft_blockChain/crypto/secp256k1/libsecp256k1/src/group_impl.h:301-354 | the affine double, and rzr is the ratio of the new Z to the old one; r may be a |
| Group.GejDoubleNonzero | pbft_blockChain/crypto/secp256k1/libsecp256k1/src/group_impl.h:356-359 | the double of a finite point, which is finite |
| Group.GejAddVar | pbft_blockChain/crypto/secp256k1/libsecp256k1/src/group_impl.h:361-412 | the affine sum in every case (either operand infinite, equal, opposite, generic), and rzr |
| Group.GejAddGeVar | pbft_blockChain/crypto/secp256k1/libsecp256k1/src/group_impl.h:414-461 | the affine sum with an affine operand in every case, and rzr |
| Group.GejAddZinvVar | pbft_blockChain/crypto/secp256k1/libsecp256k1/src/group_impl.h:463-517 | the affine sum with an operand given on an isomorphic curve by the inverse of its Z, in every case |
| Group.GejAddGe | pbft_blockChain/crypto/secp256k1/libsecp256k1/src/group_impl.h:520-640 | the branch-free addition yields the affine sum on any curve y^2 = x^3 + k, in every case: generic, equal, opposite, first operand infinite, and y1 = -y2 with x1 != x2; every multiplication inside sees magnitudes up to 8 |
| Group.MixedToCommonZ | pbft_blockChain/crypto/secp256k1/libsecp256k1/src/group_impl.h:431-436 | u1, u2, s1, s2 are the coordinates of both points over the Z of the first |
| GroupTables.OrdinateIsNonzero | pbft_blockChain/crypto/secp256k1/libsecp256k1/src/group_impl.h:301-330 | no point of the curve has y = 0, so that the doubling never meets a point of order two |
| PointDecoding.GeSetXquad | pbft_blockChain/crypto/secp256k1/libsecp256k1/src/group_impl.h:216-225 | succeeds if and only if x^3 + 7 is a square; then the point is on the curve and its ordinate is a square |
| PointDecoding.GeSetXoVar | pbft_blockChain/crypto/secp256k1/libsecp256k1/src/group_impl.h:227-237 | the same, and the ordinate has the given parity |
| PointDecoding.ParityDecides | pbft_blockChain/crypto/secp256k1/libsecp256k1/src/group_impl.h:227-237 | abscissa and parity determine a point of the curve |
| GroupTables.GeSetGejZinv | pbft_blockChain/crypto/secp256k1/libsecp256k1/src/group_impl.h:74-82 | the point scaled by the given inverse |
| GroupTables.GeSetGej | pbft_blockChain/crypto/secp256k1/libsecp256k1/src/group_impl.h:100-111 | the same point in affine form |
| GroupTables.GejRescale | pbft_blockChain/crypto/secp256k1/libsecp256k1/src/group_impl.h:642-651 | another representation of the same point, with Z multiplied |
| GroupTables.GeNeg | pbft_blockChain/crypto/secp256k1/libsecp256k1/src/group_impl.h:94-98 | the opposite point |
| GroupTables.GejNeg | pbft_blockChain/crypto/secp256k1/libsecp256k1/src/group_impl.h:254-261 | the opposite point |
| GroupTables.GejEqXVar | pbft_blockChain/crypto/secp256k1/libsecp256k1/src/group_impl.h:246-252 | 1 exactly if the affine abscissa is x, although nothing is divided |
| GroupTables.GeGlobalzSetTableGej | pbft_blockChain/crypto/secp256k1/libsecp256k1/src/group_impl.h:173-194 | every point of a chain linked by Z ratios is brought to the Z of the last one |
| GroupTables.GeSetTableGejVar | pbft_blockChain/crypto/secp256k1/libsecp256k1/src/group_impl.h:155-171 | every point of such a chain becomes affine, with one inversion |
| GroupTables.GeMulLambda | pbft_blockChain/crypto/secp256k1/libsecp256k1/src/group_impl.h:676-683 | the image under (x, y) -> (beta x, y) |
| GroupTables.EndomorphismOnCurve | pbft_blockChain/crypto/secp256k1/libsecp256k1/src/group_impl.h:676-683 | that map keeps the curve and has order three |
| GroupTables.EndomorphismOfSum | pbft_blockChain/crypto/secp256k1/libsecp256k1/src/group_impl.h:676-683 | and it is additive for the group law |
| EcmultGen.GeSetAllGejVar | pbft_blockChain/crypto/secp256k1/libsecp256k1/src/group_impl.h:129-153 | every finite point becomes affine, infinite ones stay infinite, with one inversion for all |
| Associativity.SumCommutes | pbft_blockChain/crypto/secp256k1/curve.go:127-142 | the chord-and-tangent addition of curve points is commutative |
| Associativity.SumAssociates | pbft_blockChain/crypto/secp256k1/curve.go:127-142 | and it is associative, in all cases: equal, opposite and infinite points and sums included |
| Associativity.Exchange | pbft_blockChain/crypto/secp256k1/curve.go:127-142 | of four points on two lines whose third points are opposite, two can be exchanged, tangents included |
| CurveGroup.PointsFormAbelianGroup | pbft_blockChain/crypto/secp256k1/curve.go:127-142 | the curve points form an abelian group |
| GeneratorChain.Relation | pbft_blockChain/crypto/secp256k1/libsecp256k1/src/scalar_impl.h:306-307 | a1 G + b1 lambda(G) = 0 for the constants a1 and b1 and the map (x, y) -> (beta x, y), followed bit by bit |
| CyclicGroup.OrderOfG | pbft_blockChain/crypto/secp256k1/curve.go:288 | so the generator has order dividing n |
| CyclicGroup.EveryPointIsGenerated | pbft_blockChain/crypto/secp256k1/curve.go:284-292 | every point of the curve is a multiple of the generator: otherwise there would be 3n points, but there are at most 2p + 1 |
| CyclicGroup.OrderDividesN | pbft_blockChain/crypto/secp256k1/curve.go:288 | every point of the curve has order dividing n |
| CyclicGroup.EndomorphismIsLambda | pbft_blockChain/crypto/secp256k1/libsecp256k1/src/scalar_impl.h:297-299 | (x, y) -> (beta x, y) is multiplication by lambda, for every point |
| CyclicGroup.OddMultiplesAreFinite | pbft_blockChain/crypto/secp256k1/libsecp256k1/src/ecmult_impl.h:52-85 | no odd multiple in a table is infinite, which the table building relies on |
| CyclicGroup.MultipleModN | pbft_blockChain/crypto/secp256k1/libsecp256k1/src/scalar.h:26-104 | multiples of a point depend on the scalar modulo n only |
| GroupTables.OddMultiplesTable | pbft_blockChain/crypto/secp256k1/libsecp256k1/src/ecmult_impl.h:52-85 | prej[i] is (2i+1) a, with the Z ratios; the additions are formed on an isomorphic curve where the double is affine |
| GroupTables.OddMultiplesGlobalz | pbft_blockChain/crypto/secp256k1/libsecp256k1/src/ecmult_impl.h:102-110 | pre[i] is (2i+1) a over one common Z |
| Ecmult.OddMultiplesAffine | pbft_blockChain/crypto/secp256k1/libsecp256k1/src/ecmult_impl.h:112-130 | the same table in affine coordinates |
| Ecmult.TableGet | pbft_blockChain/crypto/secp256k1/libsecp256k1/src/ecmult_impl.h:134-155 | the digit n selects the point n p, for n negative as well |
| Ecmult.MulLambdaTable | pbft_blockChain/crypto/secp256k1/libsecp256k1/src/ecmult_impl.h:344-346 | the image of the table of a is the table of lambda a |
| Ecmult.TablesOfMultiples | pbft_blockChain/crypto/secp256k1/libsecp256k1/src/ecmult_impl.h:164-194 | for any finite g, the tables of the odd multiples of g and of 2^128 g |
| Ecmult.ContextBuild | pbft_blockChain/crypto/secp256k1/libsecp256k1/src/ecmult_impl.h:164-194 | those tables for the generator |
| Ecmult.Generator | pbft_blockChain/crypto/secp256k1/libsecp256k1/src/group_impl.h:61-70 | the constant limbs are those of the generator of section 2.7.1 of SEC 2, and it is on the curve |
| Wnaf.EcmultWnaf | pbft_blockChain/crypto/secp256k1/libsecp256k1/src/ecmult_impl.h:235-284 | for every scalar and 2 <= w <= 31: each digit is 0 or odd and below 2^(w-1) in absolute value, nonzero digits are at least w apart, the digits after the returned length are 0, and whenever the number has fewer than len bits the final carry is 0 and the digits have its value |
| Wnaf.FullLengthIsEnough | pbft_blockChain/crypto/secp256k1/libsecp256k1/src/ecmult_impl.h:235-284 | with len = 256 that is always so, and the value is the scalar modulo n |
| Ecmult.Ecmult | pbft_blockChain/crypto/secp256k1/libsecp256k1/src/ecmult_impl.h:286-404 | na A + ng G for every finite A and all scalars |
| Ecmult.RecodeSplit | pbft_blockChain/crypto/secp256k1/libsecp256k1/src/ecmult_impl.h:310-320 | two digit strings whose combination along lambda is na modulo n |
| Ecmult.RecodeHalves | pbft_blockChain/crypto/secp256k1/libsecp256k1/src/ecmult_impl.h:348-360 | two digit strings whose combination along 2^128 is ng |
| Ecmult.TablesOf | pbft_blockChain/crypto/secp256k1/libsecp256k1/src/ecmult_impl.h:341-346 | the tables of A and lambda A over one Z |
| Ecmult.EcmultLoop | pbft_blockChain/crypto/secp256k1/libsecp256k1/src/ecmult_impl.h:367-399 | the interleaved loop over four digit strings evaluates the four Horner sums at once |
| ScalarSplit.SplitLambda | pbft_blockChain/crypto/secp256k1/libsecp256k1/src/scalar_impl.h:334-366 | r1 + r2 lambda = a modulo n, and both halves, up to sign, are below 2^128, for every a |
| CurveGroup.LambdaIsCubeRoot | pbft_blockChain/crypto/secp256k1/libsecp256k1/src/scalar_impl.h:297-301 | lambda is a primitive cube root of one modulo n, as the eigenvalue of a map of order three must be |
| Ecdsa.ScalarInverseLaw | pbft_blockChain/crypto/secp256k1/libsecp256k1/src/scalar_impl.h:55-65 | a times its inverse is 1 modulo n |
| Wnaf.WnafConst | pbft_blockChain/crypto/secp256k1/libsecp256k1/src/ecmult_const_impl.h:57-119 | exactly WNAF_SIZE + 1 digits, all odd and below 2^w in absolute value, whose value is s + skew modulo n with skew 1 or 2, also for negated high scalars and s = -1; the value has at most one bit more than the scalar |
| Wnaf.MakeOdd | pbft_blockChain/crypto/secp256k1/libsecp256k1/src/ecmult_const_impl.h:78-93 | after the skew and the conditional negation the number is odd, positive and one bit longer at most |
| EcmultConst.ConstTableGet | pbft_blockChain/crypto/secp256k1/libsecp256k1/src/ecmult_const_impl.h:23-44 | the constant-time lookup returns n p for every odd digit |
| EcmultConst.CoefficientIsNonzero | pbft_blockChain/crypto/secp256k1/libsecp256k1/src/ecmult_const_impl.h:183-185 | with at least one digit shifted out of each string, n does not divide the coefficient x + y lambda: it would divide x^2 - x y + y^2, which is below n |
| EcmultConst.ConstLoop | pbft_blockChain/crypto/secp256k1/libsecp256k1/src/ecmult_const_impl.h:166-197 | the loop over two digit strings evaluates both sums, and the point is never infinity where gej_double_nonzero demands that |
| EcmultConst.Skew | pbft_blockChain/crypto/secp256k1/libsecp256k1/src/ecmult_const_impl.h:201-236 | subtracting the correction takes back what the skew has added |
| EcmultConst.EcmultConst | pbft_blockChain/crypto/secp256k1/libsecp256k1/src/ecmult_const_impl.h:122-237 | scalar a for every scalar and every finite point a |
| EcmultGen.BuildTable | pbft_blockChain/crypto/secp256k1/libsecp256k1/src/ecmult_gen_impl.h:50-91 | for any generator and any second point, the affine table rows are i 16^j g + U_j, infinite entries included, where the U_j sum to zero |
| EcmultGen.StoredTable | pbft_blockChain/crypto/secp256k1/libsecp256k1/src/group_impl.h:653-655 | the table can be stored, as ge_to_storage demands, if and only if none of its points is infinity |
| EcmultGen.ContextBuild | pbft_blockChain/crypto/secp256k1/libsecp256k1/src/ecmult_gen_impl.h:21-92 | the stored table of the generator and of the point of the seed string, which is computed, and the first blinding, without any condition |
| EcmultGen.CombOfGeneratorIsFinite | pbft_blockChain/crypto/secp256k1/libsecp256k1/src/group_impl.h:653-655 | none of their 1024 table entries is infinite |
| PointDecoding.NumsPoint | pbft_blockChain/crypto/secp256k1/libsecp256k1/src/ecmult_gen_impl.h:36-50 | the seed string is the abscissa of a point of the curve, and this is the one with an even ordinate |
| EcmultGen.Blind | pbft_blockChain/crypto/secp256k1/libsecp256k1/src/ecmult_gen_impl.h:159-208 | every blinding, of any kind and any number of times, keeps initial + blind g = 0 and the table |
| EcmultGen.EcmultGen | pbft_blockChain/crypto/secp256k1/libsecp256k1/src/ecmult_gen_impl.h:124-156 | gn g for every scalar gn, whatever the blinding |
| EcmultGen.CombGet | pbft_blockChain/crypto/secp256k1/libsecp256k1/src/ecmult_gen_impl.h:138-150 | the conditional moves select the table entry of the digit |
| Ecdsa.SigVerify | pbft_blockChain/crypto/secp256k1/libsecp256k1/src/ecdsa_impl.h:203-271 | accepts exactly the signatures that satisfy the equation of section 4.1.4 of SEC 1, and for a key d G, exactly those for which some multiple k G has the abscissa r modulo n and s k = r d + m |
| Ecdsa.VerifiesExactly | pbft_blockChain/crypto/secp256k1/libsecp256k1/src/ecdsa_impl.h:203-271 | the equation holds under d G if and only if 0 < r, 0 < s and there is such a k |
| Ecdsa.AbscissaMatches | pbft_blockChain/crypto/secp256k1/libsecp256k1/src/ecdsa_impl.h:237-269 | the test without a division is X modulo n = r |
| Ecdsa.AbscissaModN | pbft_blockChain/crypto/secp256k1/libsecp256k1/src/ecdsa_impl.h:237-269 | because 2 n > p, X modulo n = r only for X = r and, if r < p - n, for X = r + n |
| Ecdsa.SigSign | pbft_blockChain/crypto/secp256k1/libsecp256k1/src/ecdsa_impl.h:273-313 | succeeds exactly if s != 0; for every nonzero nonce k, r is the abscissa of k G modulo n; on success s is low, the recovery id is right, and if r != 0 the verification equation holds under d G |
| Ecdsa.MakeLow | pbft_blockChain/crypto/secp256k1/libsecp256k1/src/ecdsa_impl.h:306-311 | the lower of s and n - s, with the parity bit flipped if s was negated |
| Ecdsa.SignatureVerifies | pbft_blockChain/crypto/secp256k1/libsecp256k1/src/ecdsa_impl.h:203-313 | if s k = r d + m up to sign, the verification equation holds under d G |
| GoCurve.IsOnCurve | pbft_blockChain/crypto/secp256k1/curve.go:94-106 | y^2 = x^3 + 7 modulo p |
| GoCurve.AffineFromJacobian | pbft_blockChain/crypto/secp256k1/curve.go:111-125 | the affine point, and (0, 0) for Z = 0 |
| GoCurve.Add | pbft_blockChain/crypto/secp256k1/curve.go:128-142 | the affine sum of any two curve points, with (0, 0) as infinity and for opposite points; the result is a curve point or (0, 0) |
| GoCurve.AddJacobian | pbft_blockChain/crypto/secp256k1/curve.go:146-207 | the affine sum for different abscissas; Z = 0 for equal ones |
| GoCurve.Double | pbft_blockChain/crypto/secp256k1/curve.go:210-213 | the affine double of any curve point, which is a curve point or (0, 0) |
| GoCurve.DoubleJacobian | pbft_blockChain/crypto/secp256k1/curve.go:217-247 | the affine double, and Z = 0 for y = 0 |
| Words.AndNotBits | pbft_blockChain/crypto/sha3/keccakf.go:91-95 | bit k of a &^ b is 1 if and only if bit k of a is 1 and bit k of b is 0 |
| Words.RotlBits | pbft_blockChain/crypto/sha3/keccakf.go:85-90 | bit k goes to bit k + n modulo 64 |
| KeccakF.ThetaBits | pbft_blockChain/crypto/sha3/keccakf.go:70-83 | theta on bits: A[x, y, z] + C[x - 1, z] + C[x + 1, z - 1] (section 3.2.1 of FIPS 202) |
| KeccakF.RhoBits | pbft_blockChain/crypto/sha3/keccakf.go:84-90 | rho on bits: bit z of a lane goes to bit z plus the offset of the lane (section 3.2.2) |
| KeccakF.PiBits | pbft_blockChain/crypto/sha3/keccakf.go:83-95 | pi on bits: A[x + 3 y, x, z] (section 3.2.3) |
| KeccakF.ChiBits | pbft_blockChain/crypto/sha3/keccakf.go:91-95 | chi on bits: A[x, y, z] + (A[x + 1, y, z] + 1) A[x + 2, y, z] (section 3.2.4) |
| KeccakF.IotaBits | pbft_blockChain/crypto/sha3/keccakf.go:91 | iota on bits: the round constant is added to lane (0, 0) alone (section 3.2.5) |
| KeccakF.KeccakF1600 | pbft_blockChain/crypto/sha3/keccakf.go:61-434 | on every state, the 24 rounds of theta, rho, pi, chi and iota of sections 3.2 and 3.3 of FIPS 202; the five mappings are pinned bit by bit by the rows above |
| KeccakF.Round1 | pbft_blockChain/crypto/sha3/keccakf.go:70-160 | the first unrolled round, in place: the lanes it leaves are the round of the state, read through the arrangement that it leaves |
| KeccakF.Round2 | pbft_blockChain/crypto/sha3/keccakf.go:161-251 | the second one, from that arrangement to the next |
| KeccakF.Round3 | pbft_blockChain/crypto/sha3/keccakf.go:252-342 | the third one |
| KeccakF.Round4 | pbft_blockChain/crypto/sha3/keccakf.go:343-433 | the fourth one |
| KeccakF.FourRoundsReturn | pbft_blockChain/crypto/sha3/keccakf.go:62-434 | after four rounds the lanes are back in their places |
| KeccakF.RhoOffsetsAreTriangular | pbft_blockChain/crypto/sha3/keccakf.go:66-434 | the rotation amounts are the triangular numbers (t+1)(t+2)/2 along the walk (x, y) -> (y, 2x + 3y) of section 3.2.2 of FIPS 202 |
| KeccakF.RoundConstantsAreDefined | pbft_blockChain/crypto/sha3/keccakf.go:32-57 | the round constants are the output of the shift register of section 3.2.5 of FIPS 202 |
| Sponge.Digest.UnalignedAbsorb | pbft_blockChain/crypto/sha3/sha3.go:109-119 | shifting bytes into the lane at hand absorbs them one after the other |
| Sponge.Digest.Write | pbft_blockChain/crypto/sha3/sha3.go:126-172 | however a message is split over writes, the state is that of absorbing its bytes one by one, with a permutation at each multiple of the rate |
| Sponge.AbsorbRunBits | pbft_blockChain/crypto/sha3/sha3.go:109-119 | bit j of byte n of a block is added to bit 8 n + j of the state, and to no other (section 3.1.2 of FIPS 202) |
| Sponge.AbsorbedIsRead | pbft_blockChain/crypto/sha3/sha3.go:109-220 | reading undoes absorbing: the bytes absorbed into the zero state are read back in their order |
| Sponge.PutIsLittleEndian | pbft_blockChain/crypto/sha3/sha3.go:212 | the eight bytes of a lane are its little-endian form |
| Sponge.PaddingBits | pbft_blockChain/crypto/sha3/sha3.go:174-186 | of the bits of the padding, exactly the first and the last are 1, and it is not longer than a block |
| Sponge.AbsorbAllSplits | pbft_blockChain/crypto/sha3/sha3.go:126-172 | absorbing two parts is absorbing their concatenation |
| Sponge.Digest.Pad | pbft_blockChain/crypto/sha3/sha3.go:178-186 | xors the bits of pad10*1 (section 5.1 of FIPS 202), also when both fall into one byte |
| Sponge.FinalState | pbft_blockChain/crypto/sha3/sha3.go:189-192 | the padded state after the last permutation is that of absorbing the padded message from the start, whole blocks only |
| Sponge.Digest.SqueezeOut | pbft_blockChain/crypto/sha3/sha3.go:199-220 | the first bytes of the squeezed states |
| Sponge.Digest.Sum | pbft_blockChain/crypto/sha3/sha3.go:223-228 | the sponge output of the message so far; the digest is left as it was |
| Sponge.Digest.Reset | pbft_blockChain/crypto/sha3/sha3.go:87-92 | the digest of the empty message |
| RlpEncode.PutInt | pbft_blockChain/rlp/encode.go:571-626 | writes the shortest big-endian form and nothing else |
| RlpEncode.IntSize | pbft_blockChain/rlp/encode.go:629-636 | the length of that form |
| RlpEncode.HeadSize | pbft_blockChain/rlp/encode.go:147-152 | the length of a header |
| RlpEncode.ListSize | pbft_blockChain/rlp/encode.go:50-52 | the length of the encoding of a list, exactly as long as the sum stays within 64 bits, and that sum modulo 2^64 otherwise |
| RlpEncode.PutHead | pbft_blockChain/rlp/encode.go:156-165 | writes a header and nothing else |
| RlpEncode.Encbuf.EncodeString | pbft_blockChain/rlp/encode.go:208-216 | appends the encoding of a byte string |
| RlpEncode.Encbuf.WriteUint | pbft_blockChain/rlp/encode.go:385-399 | appends the encoding of the big-endian digits, the empty string for 0 |
| RlpEncode.Encbuf.OpenList | pbft_blockChain/rlp/encode.go:218-222 | defers a header |
| RlpEncode.Encbuf.ListEnd | pbft_blockChain/rlp/encode.go:224-231 | fills in the deferred header with the size of what was added, nested headers included |
| RlpEncode.Encbuf.WriteItem | pbft_blockChain/rlp/encode.go:493-510 | writing a tree appends its flat data and its deferred headers and adds their size |
| RlpEncode.Encbuf.Encode | pbft_blockChain/rlp/encode.go:188-195 | any sequence of trees can be written to one buffer |
| RlpEncode.Encbuf.Size | pbft_blockChain/rlp/encode.go:233-235 | the length of the recursive encoding of what was written |
| RlpEncode.EncodedLength | pbft_blockChain/rlp/encode.go:233-235 | flat data and deferred headers add up to the length of the recursive encoding |
| RlpEncode.SpliceItem | pbft_blockChain/rlp/encode.go:237-253 | splicing the deferred headers of a tree into its flat data, anywhere in a buffer, gives its recursive encoding |
| RlpEncode.Encbuf.ToBytes | pbft_blockChain/rlp/encode.go:237-253 | the recursive encoding of what was written (appendix B of the Yellow Paper) |
| RlpEncode.Encbuf.ToWriter | pbft_blockChain/rlp/encode.go:255-277 | the same bytes, or a prefix of them if the writer fails |
| RlpEncode.EncReader.Next | pbft_blockChain/rlp/encode.go:309-341 | the next piece; the pieces left make up the bytes left |
| RlpEncode.EncReader.Read | pbft_blockChain/rlp/encode.go:288-305 | fills the buffer as far as there are bytes left, which it takes off; the end is reported exactly when nothing is left |
| RlpEncode.ReadAll | pbft_blockChain/rlp/encode.go:288-341 | reading with buffers of any sizes gives the recursive encoding, cut only where the buffers end |
| RlpFormat.PublishedStrings | pbft_blockChain/rlp/encode_test.go:120-146 | published encodings: the empty string, single bytes, a short string, and every string of 55, 56 and 1024 bytes |
| RlpFormat.PublishedLists | pbft_blockChain/rlp/encode_test.go:148-200 | published encodings: every list with a payload of 55, 60 and 512 bytes |
| RlpFormat.PublishedNesting | pbft_blockChain/rlp/encode_test.go:151-155 | the published encoding of nested empty lists |
| RlpDecode.PublishedIntegers | pbft_blockChain/rlp/encode_test.go:89-94 | published encodings of integers |
| RlpFormat.BigEndianOfFrom | pbft_blockChain/rlp/decode.go:910-934 | a number without leading zero bytes is the shortest form of its value |
| RlpDecode.ParsedHeadIsCanonical | pbft_blockChain/rlp/decode.go:848-908 | a header that is accepted is the one that the encoder writes |
| RlpDecode.WrittenHeadIsParsed | pbft_blockChain/rlp/decode.go:848-908 | a header that the encoder writes is accepted, with its kind and size |
| RlpDecode.Stream.WillRead | pbft_blockChain/rlp/decode.go:962-980 | books n bytes in the innermost list and in the limit, or fails without wrapping either, with the error of the one that is too short; a limited stream never passes its limit |
| RlpDecode.Stream.ReadFull | pbft_blockChain/rlp/decode.go:936-949 | succeeds exactly if n bytes can be read here, and returns them; otherwise the error names what is too short: list, limit or input |
| RlpDecode.Stream.ReadByte | pbft_blockChain/rlp/decode.go:951-960 | the same for one byte |
| RlpDecode.Stream.ReadUint | pbft_blockChain/rlp/decode.go:910-934 | a size of up to eight bytes, refused as not canonical if it has a leading zero |
| RlpDecode.Stream.ReadKind | pbft_blockChain/rlp/decode.go:848-908 | succeeds exactly if a canonical header comes next, and consumes it; otherwise the error is exactly the first thing wrong |
| RlpDecode.Stream.KindAhead | pbft_blockChain/rlp/decode.go:815-846 | the cached kind, or EOL exactly at the end of the innermost list, or the next header, accepted exactly if its value fits into that list or the limit; the error is exact |
| RlpDecode.Stream.Bytes | pbft_blockChain/rlp/decode.go:612-633 | succeeds if and only if the encoding of a string comes next, which is read and returned; the error is exact, also when Kind has read the header |
| RlpDecode.Stream.Uint | pbft_blockChain/rlp/decode.go:667-698 | succeeds if and only if the encoding of an integer that fits its type comes next, which is read and returned; the error is exact, also when Kind has read the header |
| RlpDecode.Stream.List | pbft_blockChain/rlp/decode.go:703-715 | succeeds if and only if the header of a list that fits comes next, which is read; the list is then open |
| RlpDecode.Stream.ListEnd | pbft_blockChain/rlp/decode.go:719-734 | succeeds exactly at the end of the innermost list, and its size is booked in the enclosing one, which it cannot overflow |
| RlpDecode.OpenIsProper | pbft_blockChain/rlp/decode.go:703-715 | opening a list that fits keeps every list inside the unread part of its parent |
| RlpDecode.CloseIsProper | pbft_blockChain/rlp/decode.go:719-734 | so does closing one; the position of the parent cannot wrap |
| RlpDecode.DecodeInterface | pbft_blockChain/rlp/decode.go:452-474 | on success exactly the encoding of the returned tree has been read; where the encoding of a tree comes next, that tree is returned; EOL exactly at the end of a list; the limit is never passed or moved |
| RlpDecode.DecodeListSlice | pbft_blockChain/rlp/decode.go:269-305 | the same for the elements of a list |
| RlpDecode.DecodeBytes | pbft_blockChain/rlp/decode.go:114-124 | accepts exactly the encodings, and returns the tree that was encoded; reports more than one value exactly if a proper prefix is an encoding, and the end of the input for the empty one |
| PbftConsensus.KeepValidVotes | pbft_blockChain/pbft/consensus/pbft_impl.go:120-141 | keeps exactly the votes that verify under some registered node, in order |
| PbftConsensus.RemoveDuplicates | pbft_blockChain/pbft/consensus/pbft_impl.go:388-401 | the same signatures, each once |
| PbftConsensus.State.constructor | pbft_blockChain/pbft/consensus/pbft_impl.go:56-80 | a new state has executed nothing, and starts from the given sequence ID |
| PbftConsensus.State.StartConsensus | pbft_blockChain/pbft/consensus/pbft_impl.go:83-105 | the sequence ID is the time or one more than the last one, and passes verifyMsg; the message is of the given sender, in the view, on a new block; the loop ends within exactly the number of turns that the distance to the last ID makes |
| PbftConsensus.SomeCandidatePasses | pbft_blockChain/pbft/consensus/pbft_impl.go:88-92 | the loop has ended after some turns if and only if one of the wrapping candidates passes the guard |
| PbftConsensus.StartEnds | pbft_blockChain/pbft/consensus/pbft_impl.go:88-92 | so it ends at all if and only if the last ID is not 2^63 - 1 |
| PbftConsensus.State.PrePrepare | pbft_blockChain/pbft/consensus/pbft_impl.go:108-153 | refused exactly by verifyMsg, that is, in another view or not after the last ID; otherwise the valid votes are kept |
| PbftConsensus.State.Prepare | pbft_blockChain/pbft/consensus/pbft_impl.go:159-222 | refused exactly by verifyMsg; otherwise logged; a commit message carries all distinct signatures of the log, more than 2f, each vouched for; it is there if the log suffices with 2f equal blocks in every order, and only if it does in some order |
| PbftConsensus.State.IsPrepared | pbft_blockChain/pbft/consensus/pbft_impl.go:347-438 | in whatever order the log is visited: at least 2f messages, at least 2f equal blocks, more than 2f distinct signatures |
| PbftConsensus.TallyCountsOneID | pbft_blockChain/pbft/consensus/pbft_impl.go:360-381 | the blocks counted as equal are those of distinct senders with one block ID, unless a hash is 0 |
| PbftConsensus.UniformTally | pbft_blockChain/pbft/consensus/pbft_impl.go:360-381 | if all logged blocks are the same, all are counted in every order |
| PbftConsensus.AlwaysWhen | pbft_blockChain/pbft/consensus/pbft_impl.go:360-381 | if no hash is 0, there are 2f equal blocks in every order exactly if the hash of every logged block is the block ID held by 2f senders |
| PbftConsensus.SometimesWhen | pbft_blockChain/pbft/consensus/pbft_impl.go:360-381 | and in some order exactly if the hash of some logged block is; so the answer can depend on the order of the map |
| PbftConsensus.State.Commit | pbft_blockChain/pbft/consensus/pbft_impl.go:228-312 | refused exactly by verifyMsg or too few valid votes; a block is executed if both logs are certificates in every order of the prepare log, and only if they are in some order; the state is then that of one execution more, and the reply has the identity of this node and all receipts |
| PbftConsensus.State.CertificateHolds | pbft_blockChain/pbft/consensus/pbft_impl.go:347-453 | what committed has checked is a certificate: 2f senders in both logs, 2f + 1 distinct signatures, each on the ID of a block accepted in this round, where it verified under a registered node or is the own one |
| PbftConsensus.State.VotesRewritten | pbft_blockChain/pbft/consensus/pbft_impl.go:138-142 | rewriting the votes of a block that may be in the logs keeps every logged vote vouched for |
| PbftConsensus.ExecutionsIncrease | pbft_blockChain/pbft/consensus/pbft_impl.go:327-342 | over a whole run, each execution raises the last sequence ID if and only if no negative ID follows on -1 |
| PbftConsensus.RunsExecuteOnce | pbft_blockChain/pbft/consensus/pbft_impl.go:327-342 | over every run in which nothing follows an execution of -1, the IDs increase and none is executed twice |
| PbftConsensus.AcceptedAgainAfterMinusOne | pbft_blockChain/pbft/consensus/pbft_impl.go:333-337 | up to there, an ID that was executed is accepted again if and only if the last one is -1 |
| PbftNode.Node.CreateState | pbft_blockChain/pbft/network/node.go:410-429 | a new state has executed nothing and starts from -1, since no committed message is recorded |
| PbftNode.SplitIsExact | pbft_blockChain/pbft/network/node.go:263 | splitting at the separator: the parts are those between the separators, taken from the left, and joined again they are the operation |
| PbftNode.Node.GetReq | pbft_blockChain/pbft/network/node.go:250-277 | the request becomes a waiting transaction and leaves its pool; a waiting transaction implies that there is a state |
| PbftNode.Node.GetPrePrepare | pbft_blockChain/pbft/network/node.go:282-318 | refused exactly by verifyMsg, on a new state if there is none; otherwise the prepare message, in the name and view of this node, carries the valid votes and the own signature, and the message leaves its pool; the logs stay |
| PbftNode.Node.GetPrepare | pbft_blockChain/pbft/network/node.go:321-350 | refused exactly by verifyMsg; otherwise logged; a commit message is sent only on a certificate, and carries at least 2f + 1 distinct vouched signatures and the own one, in the name and view of this node; it must be sent when the log suffices in every order; nothing is executed |
| PbftNode.Node.GetCommit | pbft_blockChain/pbft/network/node.go:353-395 | refused exactly by verifyMsg or too few valid votes; otherwise logged, and nothing is executed unless the logs are certificates in some order, nor missed when they are in every order; the reply is in the name of this node, and an execution empties the logs |
| PbftNode.Node.ResolvePrepareMsg | pbft_blockChain/pbft/network/node.go:690-708 | the messages are logged up to the one that completes the certificate, after which the log suffices in some order; it suffices in every order after none before it; blocks may be shared at will, and their votes are foretold from those before the batch; the errors are counted |
| PbftNode.Node.ResolveCommitMsg | pbft_blockChain/pbft/network/node.go:711-729 | messages are handled up to the first that is executed, on complete logs, which are then emptied; without one, all are handled, and the logs are short in some order if the last one counts |
| PbftNode.Node.RouteMsg | pbft_blockChain/pbft/network/node.go:452-495 | a message of any of the four kinds replaces the earlier one with its key in the pool of its type, and only there |
| PbftNode.Node.RouteMsgWhenAlarmed | pbft_blockChain/pbft/network/node.go:498-572 | for each of the five pools: a batch is delivered if and only if the stage waits for it and there are enough messages; half of them stay in the pool |
| PbftNode.Pool.Deliver | pbft_blockChain/pbft/network/node.go:530-536 | all messages of a pool are handed over, each once, and the deleting loop stops halfway, because its bound shrinks with the pool |
| PbftNode.Node.TransactionConsensus | pbft_blockChain/pbft/network/node.go:201-247 | a round starts exactly when idle with enough transactions, or with some when the time is up, provided that the search for an ID ends; the message is of this node, on a block of all waiting transactions with its signature; the state is never missing |
| PbftNode.Node.Round | pbft_blockChain/pbft/network/node.go:690-729 | from empty logs, prepare messages that suffice and then commit messages that suffice, under an ID that verifyMsg accepts, always execute the block of a commit message and leave empty logs, whatever was executed before |
| PbftNode.MinusOneRuns | pbft_blockChain/pbft/consensus/pbft_impl.go:327-342 | for every n, a new node can come to execute the same transaction n times under the ID -1, with all signatures from one node and with prepare messages on another block |

## Left out

- Wnaf.EcmultWnaf: digits are unbounded integers, so the C shift of a signed 1 by 31 at window size 31 and above is not modelled.
- Scalars are integers modulo n: the limb code of `scalar_4x64_impl.h` and `scalar_8x32_impl.h` is not modelled, only its contracts.
- Field elements above the limb level are values (the C structs are copied freely); Jacobian points are a class, and the tables that the C code fills through pointers are arrays or sequences of values.
- The normalization and the point layers use the 5x52 limbs; of the 10x26 limbs only multiplication and squaring are modelled.
- The packed storage form of table entries (`ge_to_storage`, `ge_from_storage`) is modelled as the affine point itself.
- The variable that a constant-time lookup fills by conditional moves is modelled as cleared at first; the C code leaves it uninitialised in a non-verifying build.
- The build without the endomorphism, the assembly files, the GMP backend and the exhaustive-test build.
- EcmultGen.Blind: says which point the context keeps, not its coordinates; that the rescaling changes them is stated for that step alone.
- Constant-time behaviour and clearing of secrets.
- ECDSA nonces: the nonce is a parameter; generation, retries, DER encoding and public key recovery are not modelled.
- `ScalarMult` and `Marshal` of `curve.go`, and `readBits`.
- Keccak: the slices that `Sum` and `squeeze` share with their caller are values, and `absorbed` does not overflow.
- RLP by reflection: the type cache, struct tags, pointers, arrays, custom encoders and decoders; trees of byte strings are encoded and decoded directly. A string kind and a byte-array kind are one.
- `RlpEncode.Encbuf`: the pointer that the source keeps to a deferred header is its index; pooled buffers and reads after the end are not modelled.
- `Stream.Raw`, big integers, `Decode` into fixed-size arrays, and the capacity growth of decoded slices.
- PBFT: networking, JSON, channels, timers, logging, locks, registration messages and the handling of replies; each handled message is one atomic step, and a message always has a block.
- PBFT transactions have a client, a contract, a function and arguments; their other fields and signatures, and the signature of a reply, are not modelled.
- The world state of PBFT is the list of transactions that have run; contracts are not modelled.
- Agreement between PBFT nodes and view changes: the code has no view change, and it does not tie a prepare message to the pre-prepared block.
- The raft and tangle chains, the databases, the key stores and ECIES.
