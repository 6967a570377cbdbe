# Verified models of secp256k1 arithmetic, signatures and the block database

This project models two parts of the system and proves what they compute.

**The secp256k1 library.** The model follows its layers. `Field5x52`, `FieldNormalize` and `FieldElement` hold the field elements of five
52-bit limbs; `Scalar4x64`, `ScalarOps`, `MulShift` and `LambdaSplit` the scalars of four 64-bit limbs. Every 64- or 128-bit result goes
through a function that demands it to fit, so that a proof is also a proof that nothing wraps; where the code relies on wrapping it is
written out. `AdditionChains` has the chains for inverses and square roots. `Jacobian` and `UnifiedAddition` run the point formulas on
limbs: each field element stands for a number, magnitudes are the ones the debugging build checks, and the results are the points that
chord and tangent give in affine coordinates. `ZTables` has the batch inversion and the tables with common z coordinates, `OddTable` the
table of odd multiples in coordinates.

`Wnaf`, `Ecmult`, `EcmultConst` and `EcmultGen` are the three multiplications, over any abelian group in which n times the point is the
identity, and `Ecdsa` signs and verifies over such a group with an x coordinate. `CurvePoints` brings group and coordinates together: it
says when limbs stand for a group element and proves that the formulas compute the operation of the group, also on the isomorphic curves
on which the library works. From it, `GlobalTable`, `Strauss` and `Comb` prove that the multiplication of two points and the one of the
generator, run on limbs from end to end, give na * A + ng * G and gn * G.

`Endomorphism`, `LambdaPoints` and `LambdaChain` prove that multiplying x by beta is an endomorphism and that it multiplies by lambda: from
the coordinates of the generator they compute a1 * G + b1 * endo(G), step by step, and find the identity.

`Der` says what a DER signature is and `DerCode` holds both parsers and the printer; `DerIntegers` says what the strict parser accepts in
terms of integers, negative ones included, and `DerLax` what the lax one does. `Sha256`, `Sha256Transform`, `Sha256Words` and
`Sha256Standard` are the hash and its compression, tied to the standard by an example and by the origin of its constants in
`Sha256Vectors`; `Hmac` and `Rfc6979` are the keyed hash and the nonce generator.

**The block database.** `FileMaps` are the files mapped into memory, `BlockIndex` the index with its table of hash buckets, and
`BlockStore` journals, index and archive together. The invariant of `Index` says what a bucket value promises: 0 nothing, the null mark
that no live record falls in the bucket, any other value that all of them lie at or below it. The invariant of `Store` says that live and
archived records lie inside their journals, match their checksums and share no byte. Both hold in every state that the operations reach
from an empty database.

Predicates about products and congruences (`Congruent`, `Is`, `At`, `ChordLaw` and the like) carry their meaning behind a quantifier whose
trigger is `Open`, from `Notions`: a proof that needs the meaning mentions it, and all others stay linear.

Some results say where the code does not do what one might expect, and exactly when it does: `SetLandsIff` and `ClearLandsIff` (index
writes past the end of the index can leave the mapped file, as at `LastPlaceOfNewMap`), `ResetFindsIff` (replacing a record by one with
another hash can make a later search miss it, as in `ResetCanMiss`), `PurgeGuard` (a purge at position 0 would not end), `LaxAgreesIff`
(the two parsers differ on negative integers and on those that are not below n, as in `LaxIgnoresSign` and `LaxDropsBoth`), `CompletesIff`
(outputs of 2^31 bytes and more) and `NonceLoopEnds` (the largest counter). `WrapsAt2048` shows where a bound on magnitudes stops.

Hypotheses: Fermat's theorem for p and n (`Fermat`), where inverses are needed; the laws of an abelian group and that the point has order
n, in the multiplications; in those with the endomorphism over any group (`Ecmult`, `EcmultConst`), that it is one (`IsEndomorphism`) and
that it multiplies the point by lambda, which for the map of the library is what `LambdaOfMultiple` proves; in `Strauss` only that there
is a map with the coordinates (beta * x, y), that G has the coordinates of the standard and order n, and that A is a multiple of it; in
`CurvePoints`, that sums of group elements follow chord and tangent, that negation changes the sign of y, and that no element has y = 0
(`IsCurve`), and for the addition without branches that the coordinates satisfy y^2 = x^3 + 7 (`OnSecp`); x(-P) = x(P) and the parity of
y changing under negation, in `Ecdsa`. Constants are those of section 2.7.1 of SEC 2.

`dafny verify dfyconfig.toml` checks the whole project.

## Model

| member | source | states |
|---|---|---|
| `Field5x52.FeMulInner` | src/secp256k1/field_5x52_int128_impl.h:18-153 | limbs of both factors below 2^56 (top 2^52) give limbs within magnitude 1 whose value is the product mod p; every 64- and 128-bit intermediate fits, also when the result overwrites the first factor |
| `Field5x52.FeSqrInner` | src/secp256k1/field_5x52_int128_impl.h:155-275 | the square mod p within magnitude 1, every intermediate in its width; the limbs come from the columns of a * a by the same folds as those of a product |
| `Field5x52.ProductColumns` | src/secp256k1/field_5x52_int128_impl.h:18-153 | the nine columns of limb products add up to the product of the two values |
| `Field5x52.FoldIdentity` | src/secp256k1/field_5x52_int128_impl.h:45-152 | the interleaved folds by 2^256 = 0x1000003D1 and 2^260 = 0x1000003D10 keep the residue |
| `Field5x52.FoldUnique` | src/secp256k1/field_5x52_int128_impl.h:45-275 | the columns determine the limbs, so square and product of an element with itself agree in every limb |
| `FieldNormalize.FeNormalize` | src/secp256k1/field_5x52_impl.h:58-99 | for every magnitude up to 2047 the result has limbs in range, a value below p, and the same residue |
| `FieldNormalize.FeNormalizeVar` | src/secp256k1/field_5x52_impl.h:125-167 | the same as the constant-time form |
| `FieldNormalize.FeNormalizeWeak` | src/secp256k1/field_5x52_impl.h:101-123 | magnitude 1 and the same residue |
| `FieldNormalize.NormalizedUnique` | src/secp256k1/field_5x52_impl.h:33-51 | two normalized elements with the same residue have the same limbs |
| `FieldNormalize.ReachesP` | src/secp256k1/field_5x52_impl.h:75-77 | after the first pass the limb test is true exactly for values of at least p, and such values are below 2p |
| `FieldNormalize.FeNormalizesToZero` | src/secp256k1/field_5x52_impl.h:169-190 | true exactly when the value is 0 mod p |
| `FieldNormalize.FeNormalizesToZeroVar` | src/secp256k1/field_5x52_impl.h:192-231 | true exactly when the value is 0 mod p, the early exit included |
| `FieldNormalize.WrapsAt2048` | src/secp256k1/field_5x52_impl.h:43-66 | the bound 2047 is sharp: an element of magnitude 2048, which the check in the code allows, makes the first sum of the normalization exceed 64 bits |
| `FieldElement.FeMul` | src/secp256k1/field_5x52_impl.h:377-391 | operands of magnitude at most 8 give magnitude 1 and the product |
| `FieldElement.FeSqr` | src/secp256k1/field_5x52_impl.h:393-404 | an operand of magnitude at most 8 gives magnitude 1 and the square |
| `FieldElement.FeNegate` | src/secp256k1/field_5x52_impl.h:331-346 | an element of magnitude at most m becomes its negative, of magnitude m + 1, and no limb borrows |
| `FieldElement.FeMulInt` | src/secp256k1/field_5x52_impl.h:348-359 | value and magnitude are multiplied, no limb wraps |
| `FieldElement.FeAdd` | src/secp256k1/field_5x52_impl.h:361-375 | values and magnitudes add, no limb wraps |
| `FieldElement.FeCmov` | src/secp256k1/field_5x52_impl.h:406-421 | the chosen element, with the larger magnitude |
| `AdditionChains.FeInv` | src/secp256k1/field_impl.h:136-224 | the chain computes a^(p-2) mod p |
| `AdditionChains.FeSqrt` | src/secp256k1/field_impl.h:38-134 | the chain computes a^((p+1)/4) mod p and tells whether its square is a |
| `AdditionChains.SqrtFindsRoots` | src/secp256k1/field_impl.h:38-55 | given Fermat for p, the computed power squares to a exactly when a is a square |
| `AdditionChains.ScalarInverse` | src/secp256k1/scalar_impl.h:66-254 | the chain computes x^(n-2) mod n |
| `AdditionChains.InverseIsInverse` | src/secp256k1/scalar_impl.h:55-254 | given Fermat for the modulus, that power times x is 1 for every x that is not 0 |
| `Scalar4x64.MulAdd` | src/secp256k1/scalar_4x64_impl.h:187-199 | the three-word accumulator grows by exactly a * b, its top word by at most 1 |
| `Scalar4x64.MulAddFast` | src/secp256k1/scalar_4x64_impl.h:202-213 | the two-word accumulator grows by exactly a * b |
| `Scalar4x64.MulAdd2` | src/secp256k1/scalar_4x64_impl.h:216-235 | the accumulator grows by exactly 2 * a * b; no carry is lost |
| `Scalar4x64.SumAdd` | src/secp256k1/scalar_4x64_impl.h:238-244 | the three-word accumulator grows by exactly a |
| `Scalar4x64.SumAddFast` | src/secp256k1/scalar_4x64_impl.h:247-252 | the two-word accumulator grows by exactly a |
| `Scalar4x64.Mul512` | src/secp256k1/scalar_4x64_impl.h:712-744 | the eight limbs are the full product |
| `Scalar4x64.Sqr512` | src/secp256k1/scalar_4x64_impl.h:854-881 | the eight limbs are the full square |
| `Scalar4x64.FirstFold` | src/secp256k1/scalar_4x64_impl.h:515-540 | the high half is replaced by its multiple of 2^256 - n; the seventh word is at most 1 |
| `Scalar4x64.SecondFold` | src/secp256k1/scalar_4x64_impl.h:542-564 | the same again; the fifth word is at most 2 |
| `Scalar4x64.ThirdFold` | src/secp256k1/scalar_4x64_impl.h:566-573 | the same again, with a carry of at most 1 |
| `Scalar4x64.FoldAll` | src/secp256k1/scalar_4x64_impl.h:507-573 | the three folds leave the residue and a value below 2n |
| `Scalar4x64.Reduce512` | src/secp256k1/scalar_4x64_impl.h:507-577 | any 512-bit number is reduced to its remainder mod n; one final subtraction is enough |
| `Scalar4x64.CheckOverflow` | src/secp256k1/scalar_4x64_impl.h:57-67 | 1 exactly for values of at least n |
| `Scalar4x64.Reduce` | src/secp256k1/scalar_4x64_impl.h:69-81 | adds the multiple of 2^256 - n, dropping the carry out of 256 bits |
| `Scalar4x64.ScalarAdd` | src/secp256k1/scalar_4x64_impl.h:83-97 | the sum mod n, and whether it was reduced |
| `Scalar4x64.ScalarMul` | src/secp256k1/scalar_4x64_impl.h:891-895 | exactly a * b mod n, below n |
| `Scalar4x64.ScalarSqr` | src/secp256k1/scalar_4x64_impl.h:909-913 | exactly a * a mod n, below n |
| `ScalarOps.ScalarNegate` | src/secp256k1/scalar_4x64_impl.h:140-150 | n - a, and 0 for 0 |
| `ScalarOps.CondNegate` | src/secp256k1/scalar_4x64_impl.h:168-182 | the negative with the flag, else the scalar itself, and the sign |
| `ScalarOps.IsHigh` | src/secp256k1/scalar_4x64_impl.h:156-166 | true exactly when twice the value exceeds n |
| `ScalarOps.HalfIs` | src/secp256k1/scalar_4x64_impl.h:21-25 | the constant is (n - 1) / 2 |
| `ScalarOps.IsZero` | src/secp256k1/scalar_4x64_impl.h:136-138 | true exactly for 0 |
| `ScalarOps.CaddBit` | src/secp256k1/scalar_4x64_impl.h:99-115 | adds 2^bit with the flag, nothing without it |
| `ScalarOps.ShrInt` | src/secp256k1/scalar_4x64_impl.h:897-907 | quotient and remainder by 2^n |
| `MulShift.MulShiftVar` | src/secp256k1/scalar_4x64_impl.h:932-947 | for every shift from 256 to 512, a * b / 2^shift rounded to the nearest integer, halves up |
| `LambdaSplit.Lattice` | src/secp256k1/scalar_impl.h:296-333 | a_i + b_i * lambda = 0 mod n for both basis vectors, and their determinant is n |
| `LambdaSplit.ShortVector` | src/secp256k1/scalar_impl.h:296-333 | the bound on the rounding errors of the two 2^272 estimates makes both components shorter than 2^128 |
| `LambdaSplit.SplitLambda` | src/secp256k1/scalar_impl.h:334-366 | r1 + lambda * r2 = a mod n, and both halves have a signed representative below 2^128 in absolute value |
| `Wnaf.EcmultWnaf` | src/secp256k1/ecmult_impl.h:228-284 | digits are 0 or odd and below 2^(w-1) in absolute value, any two nonzero ones at least w apart, none at or above the returned length, which is at most one more than the bits of the absolute value; their sum is the signed scalar up to a carry that is 0 whenever the scalar fits len - 1 bits; no int overflows |
| `Wnaf.ReadWindow` | src/secp256k1/ecmult_impl.h:257-274 | one window gives an odd digit and a carry that together stand for the bits read |
| `Wnaf.WindowStep` | src/secp256k1/ecmult_impl.h:250-275 | storing the window keeps what the loop has: value, digit range, spacing |
| `Wnaf.SkipStep` | src/secp256k1/ecmult_impl.h:250-256 | so does skipping a bit that equals the carry |
| `Ecmult.OddMultiplesTable` | src/secp256k1/ecmult_impl.h:52-85 | entry i is (2i + 1) times the point, for every length |
| `Ecmult.TableGet` | src/secp256k1/ecmult_impl.h:134-143 | the entry for a digit is the digit times the point, negative digits included |
| `Ecmult.JointMultiply` | src/secp256k1/ecmult_impl.h:366-398 | the shared double-and-add loop sums every stream of digits times its point |
| `Ecmult.EcmultPlain` | src/secp256k1/ecmult_impl.h:286-404 | na * A + ng * G for all scalars, without the endomorphism |
| `Ecmult.EcmultEndo` | src/secp256k1/ecmult_impl.h:286-404 | na * A + ng * G for all scalars, by the lambda split of na and the 128-bit halves of ng |
| `Ecmult.EcmultContext.Build` | src/secp256k1/ecmult_impl.h:164-194 | afterwards the tables hold the odd multiples of G and 2^128 * G; a built context is left alone |
| `Ecmult.EcmultContext.Clear` | src/secp256k1/ecmult_impl.h:220-226 | the context is no longer built |
| `Ecmult.EcmultContext.Multiply` | src/secp256k1/ecmult_impl.h:286-404 | a built context multiplies right in every state |
| `EcmultConst.MakeOdd` | src/secp256k1/ecmult_const_impl.h:66-101 | the scalar is replaced by an odd one that is it plus 1 or 2, up to sign |
| `EcmultConst.WnafConst` | src/secp256k1/ecmult_const_impl.h:57-119 | only odd digits below 2^w in absolute value; their weighted sum is q + skew mod n, for every q |
| `EcmultConst.ConstMultiply` | src/secp256k1/ecmult_const_impl.h:180-217 | the windowed loop sums all streams, and never doubles the identity |
| `EcmultConst.NoShortVector` | src/secp256k1/ecmult_const_impl.h:122-237 | no short nonzero pair satisfies x + lambda * y = 0 mod n |
| `EcmultConst.PlainNeverIdentity` | src/secp256k1/ecmult_const_impl.h:199-203 | no prefix of the digits of a full scalar is a multiple of n |
| `EcmultConst.EndoNeverIdentity` | src/secp256k1/ecmult_const_impl.h:199-203 | no pair of prefixes of the two halves sums to the identity |
| `EcmultConst.EcmultConstPlain` | src/secp256k1/ecmult_const_impl.h:122-237 | q * A for every scalar q, without the endomorphism |
| `EcmultConst.EcmultConstEndo` | src/secp256k1/ecmult_const_impl.h:122-237 | q * A for every scalar q, with the endomorphism |
| `EcmultGen.BuildTable` | src/secp256k1/ecmult_gen_impl.h:55-91 | entry (j, i) is U_j + i * 16^j * G with the offsets U_j of the code |
| `EcmultGen.OffsetSumStep` | src/secp256k1/ecmult_gen_impl.h:60-79 | the offsets of all rows sum to the identity: their factors 2^j and 1 - 2^63 add up to 0 |
| `EcmultGen.GenContext.constructor` | src/secp256k1/ecmult_gen_impl.h:21-92 | a new context holds the table and a blinding with initial = -blind * G |
| `EcmultGen.GenContext.Gen` | src/secp256k1/ecmult_gen_impl.h:124-156 | gn * G, whatever the blinding state |
| `EcmultGen.GenContext.Blind` | src/secp256k1/ecmult_gen_impl.h:159-208 | after every reseed initial = -blind * G again, with the table unchanged |
| `EcmultGen.Unblind` | src/secp256k1/ecmult_gen_impl.h:124-156 | offsets and blinding cancel: what the loop has summed is gn * G |
| `Ecdsa.TwoCases` | src/secp256k1/ecdsa_impl.h:240-262 | since n < p < 2n, x = r mod n means x = r, or x = r + n with r below p - n |
| `Ecdsa.SigVerify` | src/secp256k1/ecdsa_impl.h:203-273 | true exactly when r and s are not 0 and the point u1 * G + u2 * Q is finite with x coordinate r mod n, for every inverse of s |
| `Ecdsa.SigSign` | src/secp256k1/ecdsa_impl.h:275-319 | fails exactly for nonce 0 or when r or s would be 0; else s is at most n / 2, the signature is good under the key, and recid tells x coordinate and y parity of the point that is recovered from it |
| `Ecdsa.AcceptsIff` | src/secp256k1/ecdsa_impl.h:203-319 | a signature is good for the key d * G exactly if some nonce k has k * s = r * d + m mod n and r = x(k * G) mod n |
| `Der.ParseSound` | src/secp256k1/ecdsa_impl.h:49-177 | whatever the strict parser accepts is the DER encoding of two integers, and the scalars are theirs (0 when negative or not below n); the cut of lengths to an int loses nothing |
| `Der.ParseComplete` | src/secp256k1/ecdsa_impl.h:49-177 | every DER encoding of two integers whose body is shorter than 2^31 bytes is accepted |
| `Der.ContentIs` | src/secp256k1/ecdsa_impl.h:115-122 | a nonnegative integer has one content string only |
| `Der.RoundTrip` | src/secp256k1/ecdsa_impl.h:147-201 | parsing a printed signature gives the same two scalars |
| `Der.Canonical` | src/secp256k1/ecdsa_impl.h:147-201 | an accepted input with two nonzero scalars is byte for byte what printing them gives |
| `Der.NoTwoEncodings` | src/secp256k1/ecdsa_impl.h:147-201 | no two different accepted inputs give the same two nonzero scalars |
| `DerIntegers.ShortestIff` | src/secp256k1/ecdsa_impl.h:116-123 | the tests on the first two bytes accept content octets exactly if no shorter nonempty string stands for the same integer in two's complement (section 8.3.2 of X.690) |
| `DerIntegers.OneString` | src/secp256k1/ecdsa_impl.h:116-123 | every integer, negative ones included, has at most one such string |
| `DerIntegers.ContentOfIs` | src/secp256k1/ecdsa_impl.h:116-123 | and it has one |
| `DerIntegers.AcceptsIff` | src/secp256k1/ecdsa_impl.h:147-177 | an input is accepted exactly if it is the encoding of some two integers with a body below 2^31 bytes, and then the scalars are these, or 0 for a negative one and one that is not below n |
| `DerIntegers.EncodingInjective` | src/secp256k1/ecdsa_impl.h:147-177 | different pairs of integers have different encodings |
| `DerIntegers.NoTwoForIntegers` | src/secp256k1/ecdsa_impl.h:147-177 | no two different accepted inputs hold the same two integers, negative ones and 0 included |
| `DerIntegers.LengthShortest` | src/secp256k1/ecdsa_impl.h:49-99 | of all length octets that stand for a length the encoding has the shortest, and no other are as short (section 10.1 of X.690) |
| `DerCode.DerReadLen` | src/secp256k1/ecdsa_impl.h:49-99 | the loop with its early exit and its wrapping sums computes the length that the simple definition reads, or a negative number |
| `DerCode.DerParseInteger` | src/secp256k1/ecdsa_impl.h:101-145 | the cursor code computes what the simple definition reads |
| `DerCode.SigParse` | src/secp256k1/ecdsa_impl.h:147-177 | the same for the whole signature |
| `DerCode.SigSerialize` | src/secp256k1/ecdsa_impl.h:179-201 | writes the DER encoding if the buffer is large enough, always tells its size, and touches nothing else |
| `DerCode.SignatureParseDerLax` | src/secp256k1/secp256k1_aux.c:140-280 | the lax parser computes `LaxParse`, of which `DerLax` says what it accepts; on failure the signature is (0, 0) |
| `DerLax.LaxAcceptsIff` | src/secp256k1/secp256k1_aux.c:140-244 | an input is accepted exactly if it is a tag, a length that is skipped, two integers whose length octets may have leading zeros or be absent and stand for less than 2^56, and anything at all |
| `DerLax.LaxComplete` | src/secp256k1/secp256k1_aux.c:140-280 | the scalars are then the two numbers without their signs, or both 0 if one is not below n |
| `DerLax.LaxSound` | src/secp256k1/secp256k1_aux.c:140-244 | the content octets of an accepted input |
| `DerLax.TailIgnored` | src/secp256k1/secp256k1_aux.c:205-244 | no bytes that follow change the result |
| `DerCode.LaxAgreesIff` | src/secp256k1/secp256k1_aux.c:140-280 | on the encoding of any two integers both parsers accept, and they give the same pair exactly when both are below n and not negative, or one is not below n and each is negative, not below n, or 0 |
| `DerCode.LaxAgrees` | src/secp256k1/secp256k1_aux.c:140-280 | every input of the strict parser is one of those; it gives the same pair whenever both scalars are not 0 |
| `DerCode.LaxIgnoresSign` | src/secp256k1/secp256k1_aux.c:245-280 | an input on which they differ: a negative integer is 0 to the strict parser and is read without its sign by the lax one |
| `DerCode.LaxDropsBoth` | src/secp256k1/secp256k1_aux.c:251-280 | another: an integer that is not below n makes both scalars 0 in the lax parser, only its own in the strict one |
| `Sha256Transform.Transform` | src/secp256k1/hash_impl.h:49-129 | the 64 unrolled rounds, with renamed variables and sixteen words of schedule reused in place, compute the compression of section 6.2.2 of FIPS 180-4 |
| `Sha256Transform.EightRounds` | src/secp256k1/hash_impl.h:53-60 | eight uses of the macro with rotated names are eight rounds |
| `Sha256Transform.NextWord` | src/secp256k1/hash_impl.h:71-118 | a word updated in place is the next word of the schedule |
| `Sha256Words.ChIs` | src/secp256k1/hash_impl.h:16-16 | the Ch macro is the function of the standard |
| `Sha256Words.MajIs` | src/secp256k1/hash_impl.h:17-17 | the Maj macro is the function of the standard |
| `Sha256Words.SigmasAre` | src/secp256k1/hash_impl.h:18-21 | the four sigma macros are the functions of the standard |
| `Sha256Words.BE32Is` | src/secp256k1/hash_impl.h:31-35 | the BE32 macro turns a word read lowest byte first into the one its bytes spell |
| `Sha256Standard.TransformBlock` | src/secp256k1/hash_impl.h:16-129 | the transformation with the macros and the constants of the library is the compression of FIPS 180-4 on 64 bytes |
| `Sha256Transform.CompressAgrees` | src/secp256k1/hash_impl.h:16-129 | the compression depends only on what its word functions compute |
| `Sha256Standard.Sha256Pieces` | src/secp256k1/hash_impl.h:131-162 | every way of cutting a message into writes gives its SHA-256 digest |
| `Sha256.PadFills` | src/secp256k1/hash_impl.h:148-156 | the padding ends on a block boundary with the fewest zeros that do |
| `Sha256.PadLayout` | src/secp256k1/hash_impl.h:148-156 | the padded message is the message, the byte 0x80, zeros, and the length in bits mod 2^64 as the last eight bytes |
| `Sha256.OutAt` | src/secp256k1/hash_impl.h:157-161 | the i-th word of the state is written, highest byte first, at bytes 4 i to 4 i + 3 |
| `Sha256.WriteWords` | src/secp256k1/hash_impl.h:157-160 | the output loop writes the words in their order |
| `Sha256Standard.WordsOfOut` | src/secp256k1/hash_impl.h:31-35 | reading the words of a block that was written gives them back |
| `Sha256Standard.WordAt` | src/secp256k1/hash_impl.h:31-35 | the i-th word of a block is the number that its four bytes spell |
| `Sha256Vectors.DigestOfAbc` | src/secp256k1/hash_impl.h:16-162 | the digest of the three bytes of abc is ba7816bf...f20015ad, as published with FIPS 180-4; all constants, word functions and the byte order go into it |
| `Sha256Vectors.InitialRoots` | src/secp256k1/hash_impl.h:37-44 | the initial words are the first 32 fractional bits of the square roots of the first eight primes |
| `Sha256Vectors.ConstantRoots0` | src/secp256k1/hash_impl.h:53-118 | round constants 0 to 7 are the first 32 fractional bits of the cube roots of 2 to 19 |
| `Sha256Vectors.ConstantRoots8` | src/secp256k1/hash_impl.h:53-118 | round constants 8 to 15 are the first 32 fractional bits of the cube roots of 23 to 53 |
| `Sha256Vectors.ConstantRoots16` | src/secp256k1/hash_impl.h:53-118 | round constants 16 to 23 are the first 32 fractional bits of the cube roots of 59 to 89 |
| `Sha256Vectors.ConstantRoots24` | src/secp256k1/hash_impl.h:53-118 | round constants 24 to 31 are the first 32 fractional bits of the cube roots of 97 to 131 |
| `Sha256Vectors.ConstantRoots32` | src/secp256k1/hash_impl.h:53-118 | round constants 32 to 39 are the first 32 fractional bits of the cube roots of 137 to 173 |
| `Sha256Vectors.ConstantRoots40` | src/secp256k1/hash_impl.h:53-118 | round constants 40 to 47 are the first 32 fractional bits of the cube roots of 179 to 223 |
| `Sha256Vectors.ConstantRoots48` | src/secp256k1/hash_impl.h:53-118 | round constants 48 to 55 are the first 32 fractional bits of the cube roots of 227 to 263 |
| `Sha256Vectors.ConstantRoots56` | src/secp256k1/hash_impl.h:53-118 | round constants 56 to 63 are the first 32 fractional bits of the cube roots of 269 to 311 |
| `Sha256.FoldFull` | src/secp256k1/hash_impl.h:134-141 | filling the open block compresses exactly it |
| `Sha256.Sha256Hash.Write` | src/secp256k1/hash_impl.h:131-146 | the object then holds the old message followed by the data, for every length of both |
| `Sha256.Sha256Hash.Finalize` | src/secp256k1/hash_impl.h:148-162 | the digest is the compression folded over the padded whole message; the byte count ends on a block and the state is wiped |
| `Sha256.HashPieces` | src/secp256k1/hash_impl.h:131-162 | every way of cutting a message into writes gives the digest of the whole message |
| `Hmac.XorTwice` | src/secp256k1/hash_impl.h:179-187 | the second mask undoes the first |
| `Hmac.HmacSteps` | src/secp256k1/hash_impl.h:164-202 | the keyed hash written out: key or its digest followed by zeros, every byte under 0x36 for the inner and 0x5c for the outer hash |
| `Hmac.HmacSha256.constructor` | src/secp256k1/hash_impl.h:164-190 | both hashes start with the key, or its digest if longer than a block, under their masks |
| `Hmac.HmacSha256.Finalize` | src/secp256k1/hash_impl.h:196-202 | the definition of section 2 of RFC 2104, for keys of any length |
| `Hmac.HmacPieces` | src/secp256k1/hash_impl.h:164-202 | the same for text written in any pieces |
| `Rfc6979.Generator.constructor` | src/secp256k1/hash_impl.h:205-233 | steps b to g of section 3.2 of RFC 6979 |
| `Rfc6979.SeedingSteps` | src/secp256k1/hash_impl.h:205-233 | steps b to g written out, with 32 bytes 0x00 for K, 32 bytes 0x01 for V and the marks 0x00 and 0x01 |
| `Rfc6979.CandidateSteps` | src/secp256k1/hash_impl.h:235-264 | step h written out: the candidate is the next V, and rejecting it changes K and V by the mark 0x00 |
| `Rfc6979.StreamAt` | src/secp256k1/hash_impl.h:249-261 | bytes 32 i to 32 i + 31 of the output are V after i + 1 steps |
| `Rfc6979.Generator.Generate` | src/secp256k1/hash_impl.h:235-264 | the first outlen bytes of the values of V, after the update of step h on every call but the first |
| `Rfc6979.CompletesIff` | src/secp256k1/hash_impl.h:249-261 | the output loop copies a positive number of bytes in every round and ends exactly for lengths below 2^31 |
| `Rfc6979.NonceFunction` | src/secp256k1/secp256k1.c:310-340 | the candidate that the standard draws after counter rejected ones |
| `Rfc6979.SeedLayout` | src/secp256k1/secp256k1.c:323-334 | the input of the generator is the key, the message, the extra data if given, and the algorithm name if given, in this order |
| `Rfc6979.NonceLoopEnds` | src/secp256k1/secp256k1.c:335-337 | the loop over an unsigned index ends exactly for counters below the largest one |
| `Rfc6979.SeedsDiffer` | src/secp256k1/secp256k1.c:315-322 | different mixtures of arguments never give the same input of the generator |
| `Jacobian.GejDouble` | src/secp256k1/group_impl.h:307-360 | the affine point that the tangent of the curve gives, for any z, with a z that is not 0 unless y is; magnitudes stay within (6, 4, 2); r.z = a.z * rzr |
| `Jacobian.GejAddVar` | src/secp256k1/group_impl.h:367-418 | the affine point that chord or tangent gives, infinity for opposite points; every operand of a product has magnitude at most 8, every negation is given a bound that holds, and the result is within (6, 4, 2); r.z = a.z * rzr |
| `Jacobian.GejAddGeVar` | src/secp256k1/group_impl.h:420-467 | the same for an affine second point |
| `Jacobian.GejAddZinvVar` | src/secp256k1/group_impl.h:469-523 | the same for a second point given with the inverse of its z coordinate |
| `Jacobian.GejNeg` | src/secp256k1/group_impl.h:260-267 | the point with the negated y coordinate, within the magnitudes |
| `Jacobian.GeNeg` | src/secp256k1/group_impl.h:94-98 | the affine point with the negated y coordinate, within the magnitudes |
| `Jacobian.GejEqX` | src/secp256k1/group_impl.h:252-258 | true exactly when the affine x coordinate is the given number, for any z that is not 0 |
| `Jacobian.GejRescale` | src/secp256k1/group_impl.h:648-657 | other coordinates of the same point |
| `Jacobian.NoZeroDivisors` | src/secp256k1/group_impl.h:367-418 | given Fermat for p, a product vanishes only with one of its factors |
| `UnifiedAddition.GejAddGe` | src/secp256k1/group_impl.h:526-646 | for points of the curve with y other than 0, the affine point that chord or tangent gives, at infinity exactly for opposite points, as the additions with branches do; magnitudes stay within (6, 4, 2) |
| `UnifiedAddition.SumOnLine` | src/secp256k1/group_impl.h:536-581 | the one formula, with its alternative slope, covers chord, tangent and opposite points |
| `UnifiedAddition.ChordSlope` | src/secp256k1/group_impl.h:536-581 | for points of the curve with different x the slope of the chord is the unified quotient |
| `UnifiedAddition.TangentSlope` | src/secp256k1/group_impl.h:536-581 | for equal points so is the slope of the tangent |
| `UnifiedAddition.DenominatorZero` | src/secp256k1/group_impl.h:592-618 | the denominator of the chosen quotient vanishes exactly for opposite points |
| `ZTables.FeInvAll` | src/secp256k1/field_impl.h:263-288 | r[i] * a[i] = 1 for all i from one inversion, for any length; with a zero among the inputs every result is 0 |
| `ZTables.GeSetAll` | src/secp256k1/group_impl.h:129-153 | every finite point gets its own inverse and so its affine coordinates, for every pattern of infinities |
| `ZTables.GeSetTable` | src/secp256k1/group_impl.h:155-171 | for a table with the given z ratios every entry gets its affine coordinates |
| `ZTables.GlobalZSetTable` | src/secp256k1/group_impl.h:173-194 | every entry gets the coordinates of its point over the z of the last one; only that z is read |
| `ZTables.OverIsSame` | src/secp256k1/group_impl.h:173-194 | such coordinates are those of the same affine point |
| `ZTables.RatioIsProduct` | src/secp256k1/group_impl.h:334-341 | the ratio that doubling and addition put out is what the tables ask for |
| `OddTable.ChordMapped` | src/secp256k1/ecmult_impl.h:61-66 | the isomorphism that makes twice the point affine takes chords to chords |
| `OddTable.OddMultiplesTable` | src/secp256k1/ecmult_impl.h:52-85 | for any length, every entry has the coordinates of its multiple over a z that is not 0, the ratios put out link these, and the last entry stores its own |
| `OddTable.OddMultiplesGlobalZ` | src/secp256k1/ecmult_impl.h:102-110 | every multiple ends up with its coordinates over the one z coordinate put out |
| `CurvePoints.Doubled` | src/secp256k1/group_impl.h:307-360 | limbs that stand for p become limbs that stand for p + p |
| `CurvePoints.AddedGe` | src/secp256k1/group_impl.h:420-467 | the mixed addition is the addition of the group, the identity and opposite elements included |
| `CurvePoints.AddedZinv` | src/secp256k1/group_impl.h:469-523 | so is the addition that is given the inverse of a z coordinate |
| `CurvePoints.AddedUnified` | src/secp256k1/group_impl.h:526-646 | so is the addition without branches |
| `CurvePoints.IsoIsCurve` | src/secp256k1/ecmult_impl.h:330-341 | coordinates x w^2 and y w^3 obey the law of the group for every w other than 0: the operations may pretend that a common z coordinate is 1 |
| `CurvePoints.Unmapped` | src/secp256k1/ecmult_impl.h:401-403 | multiplying z by w leads back |
| `GlobalTable.LinkMultiples` | src/secp256k1/ecmult_impl.h:52-85 | chords link the odd multiples of a point of order n, because none of them has the x of twice the point |
| `GlobalTable.GlobalZ` | src/secp256k1/group_impl.h:173-194 | on limbs, every entry of the table ends up over the last z coordinate |
| `GlobalTable.OddTableOf` | src/secp256k1/ecmult_impl.h:52-110 | for every point of order n and any length: the affine coordinates of its odd multiples on the curve of the z coordinate put out |
| `Strauss.TableGetGe` | src/secp256k1/ecmult_impl.h:134-143 | the entry for a digit stands for the digit times the point |
| `Strauss.JointMultiply` | src/secp256k1/ecmult_impl.h:364-403 | the loop on limbs sums every stream of digits times its point, table entries over the common z and affine ones mixed |
| `Strauss.Ecmult` | src/secp256k1/ecmult_impl.h:286-404 | the limbs put out stand for na * A + ng * G, for all scalars, without the endomorphism |
| `Endomorphism.CubeRoot` | src/secp256k1/group_impl.h:683-686 | the constant of the endomorphism is a cube root of 1 other than 1, and 1, beta and beta^2 add up to 0 mod p |
| `Endomorphism.OnCurveBeta` | src/secp256k1/group_impl.h:682-689 | a point of y^2 = x^3 + 7 stays on the curve when x is multiplied by beta |
| `Endomorphism.ThirdTimes` | src/secp256k1/group_impl.h:682-689 | for every cube root b of 1 mod p: where a line of slope l leads, one of slope l * b^2 leads when all x coordinates are multiplied by b |
| `Endomorphism.EndoOfChord` | src/secp256k1/group_impl.h:682-689 | the chord of slope l * beta^2 through the images leads to the image of the sum |
| `Endomorphism.EndoOfTangent` | src/secp256k1/group_impl.h:682-689 | so does the tangent |
| `Endomorphism.EndoIsHomomorphism` | src/secp256k1/group_impl.h:682-689 | so every map of the group that multiplies x by beta and leaves y is an endomorphism |
| `Endomorphism.AddedIs` | src/secp256k1/group_impl.h:682-689 | any slope that fits the chord gives the coordinates of the sum of two group elements |
| `Endomorphism.DoubledIs` | src/secp256k1/group_impl.h:682-689 | any slope that fits the tangent gives the coordinates of the double |
| `Endomorphism.SameElement` | src/secp256k1/group_impl.h:682-689 | coordinates mod p determine the group element |
| `LambdaPoints.GeneratorOnCurve` | src/secp256k1/group_impl.h:61-71 | the generator of SEC 2 lies on y^2 = x^3 + 7 |
| `LambdaPoints.AllReached` | src/secp256k1/scalar_impl.h:297-316 | 222 doublings and additions on coordinates, each checked mod p, lead from -endo(G) to the opposite of G - endo(G) with the coefficients a1 - 1 and -b1 - 1 of the short vector |
| `LambdaChain.LinksAdd` | src/secp256k1/scalar_impl.h:297-316 | such steps on coordinates are the operations of the group |
| `LambdaChain.ChainEnds` | src/secp256k1/scalar_impl.h:297-316 | a1 * G + b1 * endo(G) is the identity |
| `LambdaChain.LambdaOfGenerator` | src/secp256k1/scalar_impl.h:297-300 | lambda * G = (beta * x, y), so beta is the cube root that goes with lambda and not the other one |
| `LambdaChain.LambdaOfMultiple` | src/secp256k1/scalar_impl.h:297-300 | lambda * (x, y) = (beta * x, y) on every multiple of the generator |
| `Strauss.MulLambda` | src/secp256k1/group_impl.h:682-689 | multiplying x by beta is the endomorphism, on every isomorphic curve |
| `Strauss.EcmultEndo` | src/secp256k1/ecmult_impl.h:286-404 | the limbs put out stand for na * A + ng * G, for all scalars and every multiple A of the generator, with the endomorphism; that it multiplies by lambda is proved, not assumed |
| `Comb.AddRow` | src/secp256k1/ecmult_gen_impl.h:135-152 | one row adds U_j and its four bits of the scalar, on limbs |
| `Comb.Context.constructor` | src/secp256k1/ecmult_gen_impl.h:21-92 | a context with its table starts with a blinding for which initial stands for -blind * G |
| `Comb.Context.Gen` | src/secp256k1/ecmult_gen_impl.h:124-156 | the limbs put out stand for gn * G, whatever the blinding state |
| `Comb.Context.Blind` | src/secp256k1/ecmult_gen_impl.h:159-208 | after every reseed, with the initial point rescaled on the way, initial stands for -blind * G again |
| `FileMaps.MapAlloc` | src/share-coin/blockchain/bc_fmap.c:133-206 | afterwards the asked bytes fit behind the data; the data is kept and the map never shrinks |
| `FileMaps.WriteLands` | src/share-coin/blockchain/bc_fmap.c:299-313 | a write that starts no later than the data ends lands inside the map, across regrowth |
| `FileMaps.MapAppend` | src/share-coin/blockchain/bc_fmap.c:331-341 | the data followed by the items |
| `BlockIndex.TableHash` | src/share-coin/blockchain/bc_table.c:38-50 | the wrapping 32-bit sum gives the bucket that the sum without wrapping has |
| `BlockIndex.SumOfEight` | src/share-coin/blockchain/bc_table.c:44-47 | the eight words of the hash are added |
| `BlockIndex.Index.TableGet` | src/share-coin/blockchain/bc_table.c:65-91 | search mark, null mark or bound |
| `BlockIndex.Index.TableSet` | src/share-coin/blockchain/bc_table.c:104-127 | a bound is only raised, a mark is replaced |
| `BlockIndex.Index.TableUnset` | src/share-coin/blockchain/bc_table.c:140-160 | the bucket says that no record exists |
| `BlockIndex.Index.TableReset` | src/share-coin/blockchain/bc_table.c:173-194 | the bucket asks for a search, which is always right |
| `BlockIndex.Index.TableClear` | src/share-coin/blockchain/bc_table.c:268-280 | all buckets ask for a search |
| `BlockIndex.Index.Find` | src/share-coin/blockchain/bc_index.c:97-167 | where the bucket leads, whatever it says; in every state that the operations keep: the highest live position with the hash, as a plain backward scan finds it, or no entry; the table stays right |
| `BlockIndex.SearchFrom` | src/share-coin/blockchain/bc_index.c:110-141 | a scan may start at any bound of the bucket |
| `BlockIndex.TableLearns` | src/share-coin/blockchain/bc_index.c:143-151 | what a search notes in the table is right |
| `BlockIndex.Index.Get` | src/share-coin/blockchain/bc_index.c:180-207 | the record at a position, if it is live |
| `BlockIndex.Index.Set` | src/share-coin/blockchain/bc_index.c:221-273 | a record goes to an empty place only, and its bucket asks for a search |
| `BlockIndex.Index.Reset` | src/share-coin/blockchain/bc_index.c:286-330 | a live record is replaced; the table stays right exactly when the bucket of the new hash allows for the position |
| `BlockIndex.ResetSafeIff` | src/share-coin/blockchain/bc_index.c:286-330 | the replacement keeps the table right exactly when the bucket of the new hash already allows for the position |
| `BlockIndex.ResetFindsIff` | src/share-coin/blockchain/bc_index.c:97-330 | and exactly then every later search finds what a plain scan finds; otherwise the search for the new hash ends below the position |
| `BlockIndex.ResetCanMiss` | src/share-coin/blockchain/bc_index.c:97-330 | a state and a replacement after which a live record is not found |
| `BlockIndex.Index.Clear` | src/share-coin/blockchain/bc_index.c:346-377 | a place is emptied; past the end, where the map reaches, the index grows by empty places |
| `BlockIndex.SetLandsIff` | src/share-coin/blockchain/bc_index.c:249-266 | the exact positions at which storing a record stays inside the map: all up to the end of the index, past it only some |
| `BlockIndex.ClearLandsIff` | src/share-coin/blockchain/bc_index.c:361-373 | the exact positions at which emptying a record stays inside the map |
| `BlockIndex.LastPlaceOfNewMap` | src/share-coin/blockchain/bc_index.c:249-373 | position 255 of a new map is one at which neither stays inside |
| `BlockStore.Store.Rewrite` | src/share-coin/blockchain/bc_block.c:187-238 | the bytes at the position are replaced if the size is the same; its hash and everything else stay |
| `BlockStore.Store.Write` | src/share-coin/blockchain/bc_block.c:253-306 | the map from positions to hash and bytes gets the block, unless one of another size is there; an existing block keeps its hash; all other blocks and the archive are unchanged |
| `BlockStore.Store.Append` | src/share-coin/blockchain/bc_block.c:324-355 | the block is stored at the next position; all others keep hash and bytes |
| `BlockStore.Store.Read` | src/share-coin/blockchain/bc_block.c:372-407 | the first bytes of the block, filled up with zeros; an error exactly if there is no block or its checksum does not match |
| `BlockStore.Store.Get` | src/share-coin/blockchain/bc_block.c:427-468 | the bytes last stored at the position, with a matching checksum, in every state that the operations keep |
| `BlockStore.Store.Find` | src/share-coin/blockchain/bc_block.c:556-566 | the highest position of the map whose block has the hash, or none; no block changes |
| `BlockStore.Store.Clear` | src/share-coin/blockchain/bc_block.c:699-717 | the block, with its hash, leaves the map of positions and becomes the last one of the archive; no other changes |
| `BlockStore.Store.Purge` | src/share-coin/blockchain/bc_block.c:572-620 | no record or block below pos changes, nothing at or above stays, and the archive grows by the removed blocks, highest first, with their hashes and bytes |
| `BlockStore.PurgeConserves` | src/share-coin/blockchain/bc_block.c:603-611 | what a purge leaves and what it adds to the archive are together the blocks there were, with hash and bytes, none lost or doubled |
| `BlockStore.DisplacedAt` | src/share-coin/blockchain/bc_block.c:603-611 | a block goes to the archive after exactly those that lie above it |
| `BlockStore.JournalHolds` | src/share-coin/blockchain/bc_block.c:694-697 | journal j holds the positions from 65536 (j - 1) up to 65536 j |
| `BlockStore.StoredIsLatest` | src/share-coin/blockchain/bc_block.c:324-355 | after a block is stored behind all others a search for its hash finds it, and every other search has the answer it had |
| `BlockStore.PurgeGuard` | src/share-coin/blockchain/bc_block.c:604-604 | the comparison of an int with an unsigned position ends the loop exactly for positions of at least 1 |
| `BlockStore.Store.ArchiveWrite` | src/share-coin/blockchain/bc_block.c:720-760 | the archive grows by the hash and the data; no block changes |
| `BlockStore.Store.ArchiveRead` | src/share-coin/blockchain/bc_block.c:481-537 | the bytes of the archived block, an error exactly if there is none or its checksum does not match |
| `BlockStore.Store.ArchiveGet` | src/share-coin/blockchain/bc_arch.c:126-153 | the archived record at a position |
| `BlockStore.Store.ArchiveFind` | src/share-coin/blockchain/bc_arch.c:72-124 | the latest block of the archive that is not empty and has the hash, or none |
| `BlockStore.Store.ArchiveAdd` | src/share-coin/blockchain/bc_arch.c:176-215 | the record is appended to the archive |
| `BlockStore.RewriteKeeps` | src/share-coin/blockchain/bc_block.c:212-231 | writing a block anew in place keeps every other live or archived record, because no two share a byte |
| `BlockStore.WriteKeeps` | src/share-coin/blockchain/bc_block.c:276-303 | a record made for bytes behind the journal keeps all records apart |
| `BlockStore.MoveKeeps` | src/share-coin/blockchain/bc_block.c:699-717 | moving a record to the archive keeps all records apart and all bytes |

## Left out

- The x86-64 assembly paths, the 10x26 field, the 8x32 scalars and the GMP inverses: the C forms for 64-bit machines are modelled.
- That the curve is a group: the multiplications and signatures take the group laws as hypotheses, and the point formulas are proved against chord and tangent, not against associativity.
- Ecmult.OddMultiplesTable: works on group elements; `GlobalTable.OddTableOf` is the same table on limbs.
- EcmultConst.EcmultConstEndo: works on group elements only; `Strauss` and `Comb` have no counterpart for it.
- Ecdsa.SigVerify: works on group elements; the comparison of x without inversion is `Jacobian.GejEqX`.
- Conversions of field elements, scalars and points to and from bytes and storage, except as numbers: `scalar_set_b32`, `fe_get_b32` and the like appear as big-endian values.
- MulShift.MulShiftVar: shifts above 512, for which the code reads past the product.
- Wnaf.EcmultWnaf: the window width 31, for which the shift of the carry is no int; the code uses at most 16.
- `scalar_get_bits` and its variable-time form appear on numbers, not on limbs.
- EcmultGen.GenContext.Blind: takes the nonzero scalar that the generator yields as a parameter, because nothing bounds the number of rejected draws; the rescaling is in `Comb.Context.Blind`, which takes its factor in the same way.
- Ecdsa.SigSign: the loop of the public function that draws new nonces until signing succeeds is not modelled.
- ZTables.FeInvAll: works on residues mod p, not on limbs; so do the tables of that module, of which `GlobalTable.GlobalZ` has the one with a common z coordinate on limbs.
- Sha256Transform.Transform: words, their operations and the round constants are parameters; `Sha256Standard.TransformBlock` has those of the library.
- Sha256.Sha256Hash.Write: more than 2^64 - 64 bytes in one call, for which the sum of buffer and length wraps.
- Rfc6979.Generator.Generate: excludes lengths that do not fit an int, by `CompletesIff` those for which the loop does not do its work.
- Rfc6979.NonceFunction: excludes the largest counter, by `NonceLoopEnds` the one for which the loop does not end.
- Constant-time claims, wiping of secrets other than the hash state, and contexts' cloning.
- BlockStore.Store.Purge: requires that position 0 holds no block when it is the one asked for, because by `PurgeGuard` the loop would not end.
- BlockStore.Store.Write: requires room below 4 GiB in index and journal, because map sizes are 32-bit numbers, and a position at which the index write stays in its map.
- BlockStore.Store.Read: the journal of an existing record is taken as open.
- Opening, mapping, locking and closing of files, time stamps, and the failure of any of these: a map is its data and its size.
- The checksum is any function of the bytes.
- Block, wallet, network, console and image code around these parts.
