/** Splitting a scalar k into two halves of 128 bits with k = r1 + lambda * r2 mod n. */
module LambdaSplit {
  import opened Bits
  import opened Scalar4x64
  import opened ScalarOps
  import opened MulShift

  const LAMBDA: int := 0x5363AD4CC05C30E0A5261C028812645A122E22EA20816678DF02967C1B23BD72
  // The lattice of pairs (x, y) with x + y * lambda = 0 mod n has the basis (a1, b1), (a2, b2).
  const A1: int := 0x3086D221A7D46BCDE86C90E49284EB15
  const B1: int := -0xE4437ED6010E88286F547FA90ABFE4C3
  const A2: int := 0x0114CA50F7A8E2F3F657C1108D9D44CFD8
  const B2: int := 0x3086D221A7D46BCDE86C90E49284EB15
  const G1: int := 0x3086D221A7D46BCDE86C90E49284EB153DAB
  const G2: int := 0xE4437ED6010E88286F547FA90ABFE4C42212

  function Signed(v: int): int {
    if v > HALF then v - N else v
  }

  lemma Lattice()
    ensures A1 + B1 * LAMBDA == -0x4A5AC2BF7B5F37F9F1DB10D7A2A9C981 * N
    ensures A2 + B2 * LAMBDA == 0xFCE9B1DD4EB7DD2718A2906787061B2 * N
    ensures A1 * B2 - B1 * A2 == N
  {
  }

  /** The rounding errors of c1 and c2 keep both coordinates of the short vector below 2^128. */
  lemma ShortVector(a: int, c1: int, c2: int)
    requires 0 <= a < N && Rounds(c1, a * G1) && Rounds(c2, a * G2)
    ensures Short(a - c1 * A1 - c2 * A2)
    ensures Short(-c1 * B1 - c2 * B2)
  {
  }

  /** r := a times a constant of the source, mod n. */
  method MulByConstant(r: array<int>, a: array<int>, k: seq<int>)
    requires r.Length == a.Length == 4 && IsScalar(a[..]) && IsScalar(k)
    modifies r
    ensures IsScalar(r[..]) && Value(r[..]) < N
    ensures Value(r[..]) == (old(Value(a[..])) * Value(k)) % N
  {
    var b := new int[4] [k[0], k[1], k[2], k[3]];
    assert b[..] == k;
    ScalarMul(r, a, b);
  }

  /** round(a * g / 2^272) for a constant g of the source; the shift is kept variable so that its power is not unrolled. */
  method Estimate(a: array<int>, g: seq<int>) returns (c: array<int>)
    requires a.Length == 4 && IsScalar(a[..]) && IsScalar(g)
    ensures fresh(c) && c.Length == 4 && IsScalar(c[..])
    ensures Rounds(Value(c[..]), Value(a[..]) * Value(g))
  {
    var b := new int[4] [g[0], g[1], g[2], g[3]];
    assert b[..] == g;
    c := new int[4];
    var shift :| 271 < shift < 273;
    MulShiftVar(c, a, b, shift);
    EstimateWidth(shift);
  }

  lemma EstimateWidth(k: nat)
    requires 271 < k < 273
    ensures Pow2(k) == 0x10000_0000000000000000_0000000000000000_0000000000000000_0000000000000000
  {
    var n :| 3 < n < 5;
    FourWords(n);
    Pow2Add(64 * n, k - 64 * n);
    Pow2Plus8(8);
    assert Pow2(8) == 256;
  }

  /** c is x / 2^272 rounded to a nearest integer. */
  predicate Rounds(c: int, x: int) {
    -0x8000_0000000000000000_0000000000000000_0000000000000000_0000000000000000
      < 0x10000_0000000000000000_0000000000000000_0000000000000000_0000000000000000 * c - x
      <= 0x8000_0000000000000000_0000000000000000_0000000000000000_0000000000000000
  }

  /** The constants of the source, limb by limb. */
  lemma Constants()
    ensures var k := [0xE0CFC810B51283CF, 0xA880B9FC8EC739C2, 0x5AD9E3FD77ED9BA4, 0xAC9C52B33FA3CF1F];
      IsScalar(k) && Value(k) == N - LAMBDA
    ensures var k := [0x6F547FA90ABFE4C3, 0xE4437ED6010E8828, 0, 0]; IsScalar(k) && Value(k) == -B1
    ensures var k := [0xD765CDA83DB1562C, 0x8A280AC50774346D, 0xFFFFFFFFFFFFFFFE, 0xFFFFFFFFFFFFFFFF];
      IsScalar(k) && Value(k) == N - B2
    ensures var k := [0x90E49284EB153DAB, 0xD221A7D46BCDE86C, 0x3086, 0]; IsScalar(k) && Value(k) == G1
    ensures var k := [0x7FA90ABFE4C42212, 0x7ED6010E88286F54, 0xE443, 0]; IsScalar(k) && Value(k) == G2
  {
    ValueOf([0xE0CFC810B51283CF, 0xA880B9FC8EC739C2, 0x5AD9E3FD77ED9BA4, 0xAC9C52B33FA3CF1F]);
    ValueOf([0x6F547FA90ABFE4C3, 0xE4437ED6010E8828, 0, 0]);
    ValueOf([0xD765CDA83DB1562C, 0x8A280AC50774346D, 0xFFFFFFFFFFFFFFFE, 0xFFFFFFFFFFFFFFFF]);
    ValueOf([0x90E49284EB153DAB, 0xD221A7D46BCDE86C, 0x3086, 0]);
    ValueOf([0x7FA90ABFE4C42212, 0x7ED6010E88286F54, 0xE443, 0]);
  }

  /** r2 := -(c1 * b1 + c2 * b2) mod n for the rounded estimates c1 and c2. */
  method SplitSecond(r2: array<int>, a: array<int>) returns (ghost e1: int, ghost e2: int)
    requires r2.Length == a.Length == 4 && r2 != a
    requires IsScalar(a[..]) && Value(a[..]) < N
    modifies r2
    ensures IsScalar(r2[..]) && Value(r2[..]) < N
    ensures Rounds(e1, Value(a[..]) * G1) && Rounds(e2, Value(a[..]) * G2)
    ensures Value(r2[..]) == ((e1 * -B1) % N + (e2 * (N - B2)) % N) % N
  {
    Constants();
    var c1 := Estimate(a, [0x90E49284EB153DAB, 0xD221A7D46BCDE86C, 0x3086, 0]);
    var c2 := Estimate(a, [0x7FA90ABFE4C42212, 0x7ED6010E88286F54, 0xE443, 0]);
    e1, e2 := Value(c1[..]), Value(c2[..]);
    MulByConstant(c1, c1, [0x6F547FA90ABFE4C3, 0xE4437ED6010E8828, 0, 0]);
    MulByConstant(c2, c2, [0xD765CDA83DB1562C, 0x8A280AC50774346D, 0xFFFFFFFFFFFFFFFE, 0xFFFFFFFFFFFFFFFF]);
    var over := ScalarAdd(r2, c1, c2);
  }

  method MulByMinusLambda(r: array<int>, a: array<int>)
    requires r.Length == a.Length == 4 && IsScalar(a[..])
    modifies r
    ensures IsScalar(r[..]) && Value(r[..]) < N
    ensures Value(r[..]) == (old(Value(a[..])) * (N - LAMBDA)) % N
  {
    Constants();
    MulByConstant(r, a, [0xE0CFC810B51283CF, 0xA880B9FC8EC739C2, 0x5AD9E3FD77ED9BA4, 0xAC9C52B33FA3CF1F]);
  }

  /** Everything the split promises, on values. */
  lemma SplitIsShort(k: int, e1: int, e2: int, r1: int, r2: int)
    requires 0 <= k < N && Rounds(e1, k * G1) && Rounds(e2, k * G2)
    requires r2 == ((e1 * -B1) % N + (e2 * (N - B2)) % N) % N
    requires r1 == ((r2 * (N - LAMBDA)) % N + k) % N
    ensures (r1 + LAMBDA * r2) % N == k
    ensures Short(Signed(r1)) && Short(Signed(r2))
  {
    ShortVector(k, e1, e2);
    Recombine(k, e1, e2, r1, r2);
  }

  /** v1 + lam * v2 = k mod n */
  ghost predicate Splits(v1: int, v2: int, lam: int, k: int, n: int)
    requires n > 0
  {
    (v1 + lam * v2) % n == k
  }

  method SplitLambda(r1: array<int>, r2: array<int>, a: array<int>)
    requires r1.Length == r2.Length == a.Length == 4
    requires r1 != a && r2 != a && r1 != r2
    requires IsScalar(a[..]) && Value(a[..]) < N
    modifies r1, r2
    ensures IsScalar(r1[..]) && IsScalar(r2[..]) && Value(r1[..]) < N && Value(r2[..]) < N
    ensures Splits(Value(r1[..]), Value(r2[..]), LAMBDA, Value(a[..]), N)
    ensures Short(Signed(Value(r1[..]))) && Short(Signed(Value(r2[..])))
  {
    ghost var k := Value(a[..]);
    ValueBound(a[..]);
    var e1, e2 := SplitSecond(r2, a);
    MulByMinusLambda(r1, r2);
    var over := ScalarAdd(r1, r1, a);
    SplitIsShort(k, e1, e2, Value(r1[..]), Value(r2[..]));
  }

  predicate Short(v: int) {
    -TWO128 < v < TWO128
  }

  lemma DivMod(x: int) returns (q: int)
    ensures x == q * N + x % N && 0 <= x % N < N
  {
    q := x / N;
  }

  lemma SecondHalf(e1: int, e2: int, r2: int) returns (j: int)
    requires r2 == ((e1 * -B1) % N + (e2 * (N - B2)) % N) % N
    ensures r2 == -e1 * B1 - e2 * B2 + j * N && 0 <= r2 < N
  {
    var q1 := DivMod(e1 * -B1);
    var q2 := DivMod(e2 * (N - B2));
    var q3 := DivMod((e1 * -B1) % N + (e2 * (N - B2)) % N);
    j := e2 - q1 - q2 - q3;
  }

  lemma FirstHalf(k: int, r1: int, r2: int) returns (q: int)
    requires 0 <= k < N && r1 == ((r2 * (N - LAMBDA)) % N + k) % N
    ensures r1 == k - LAMBDA * r2 + q * N && 0 <= r1 < N
  {
    var q4 := DivMod(r2 * (N - LAMBDA));
    var q5 := DivMod((r2 * (N - LAMBDA)) % N + k);
    q := r2 - q4 - q5;
  }

  /** A representative below 2^128 in absolute value is the signed one. */
  lemma SignedIs(r: int, v: int, j: int)
    requires 0 <= r < N && r == v + j * N && Short(v)
    ensures Signed(r) == v
  {
  }

  lemma Recombine(k: int, e1: int, e2: int, r1: int, r2: int)
    requires 0 <= k < N
    requires r2 == ((e1 * -B1) % N + (e2 * (N - B2)) % N) % N
    requires r1 == ((r2 * (N - LAMBDA)) % N + k) % N
    requires Short(k - e1 * A1 - e2 * A2) && Short(-e1 * B1 - e2 * B2)
    ensures (r1 + LAMBDA * r2) % N == k
    ensures Signed(r1) == k - e1 * A1 - e2 * A2
    ensures Signed(r2) == -e1 * B1 - e2 * B2
  {
    var j := SecondHalf(e1, e2, r2);
    var q := FirstHalf(k, r1, r2);
    ModOf(r1 + LAMBDA * r2, q, k);
    SignedIs(r2, -e1 * B1 - e2 * B2, j);
    Congruence(e1, e2, r2, j, k, r1, q);
    SignedIs(r1, k - e1 * A1 - e2 * A2, q - LAMBDA * j - 0x4A5AC2BF7B5F37F9F1DB10D7A2A9C981 * e1 + 0xFCE9B1DD4EB7DD2718A2906787061B2 * e2);
  }

  lemma Congruence(e1: int, e2: int, r2: int, j: int, k: int, r1: int, q: int)
    requires r2 == -e1 * B1 - e2 * B2 + j * N
    requires r1 == k - LAMBDA * r2 + q * N
    ensures r1 == k - e1 * A1 - e2 * A2
      + (q - LAMBDA * j - 0x4A5AC2BF7B5F37F9F1DB10D7A2A9C981 * e1 + 0xFCE9B1DD4EB7DD2718A2906787061B2 * e2) * N
  {
  }
}
