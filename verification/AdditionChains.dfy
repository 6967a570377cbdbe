/** The addition chains that compute inverses and square roots. */
module AdditionChains {
  import opened Bits
  import opened Scalar4x64
  import opened ScalarOps
  import opened ModPow
  import opened Field5x52

  /** The long runs of ones; k is kept variable so that the recursion is not unrolled. */
  lemma OnesValues(k: nat)
    ensures 126 < k < 128 ==> Ones(k) == 0x7FFFFFFFFFFFFFFFFFFFFFFFFFFFFFFF
    ensures 222 < k < 224 ==> Ones(k) == 0x7FFFFFFFFFFFFFFFFFFFFFFFFFFFFFFFFFFFFFFFFFFFFFFFFFFFFFFF
  {
    if 126 < k < 128 {
      var m :| 63 < m < 65;
      Pow2Width(m);
      assert Pow2(m) == 2 * Pow2(m - 1);
      Pow2PlusWord(m - 1);
    } else if 222 < k < 224 {
      var j := k - 192;
      Pow2Plus8(j - 8);
      Pow2Plus8(j - 16);
      Pow2Plus8(j - 24);
      assert Pow2(7) == 128;
      Pow2PlusWord(j);
      Pow2PlusWord(j + 64);
      Pow2PlusWord(j + 128);
    }
  }

  lemma SmallOnes()
    ensures Ones(1) == 1 && Ones(2) == 3 && Ones(3) == 7 && Ones(4) == 15 && Ones(6) == 63 && Ones(8) == 255
  {
  }

  /** x^(2^k - 1) for the block lengths k that the scalar chain uses. */
  method ScalarBlocks(x: int) returns (x1: int, x2: int, x3: int, x4: int, x6: int, x8: int, x127: int)
    ensures x1 == PowMod(N, x, 1) && x2 == PowMod(N, x, 3) && x3 == PowMod(N, x, 7) && x4 == PowMod(N, x, 15)
    ensures x6 == PowMod(N, x, 63) && x8 == PowMod(N, x, 255) && x127 == PowMod(N, x, 0x7FFFFFFFFFFFFFFFFFFFFFFFFFFFFFFF)
  {
    x1 := x % N;
    PowModOne(N, x);
    SmallOnes();
    x2 := JoinOnes(N, x1, x1, 1, 1, x);
    x3 := JoinOnes(N, x2, x1, 2, 1, x);
    x4 := JoinOnes(N, x3, x1, 3, 1, x);
    x6 := JoinOnes(N, x4, x2, 4, 2, x);
    var x7 := JoinOnes(N, x6, x1, 6, 1, x);
    x8 := JoinOnes(N, x7, x1, 7, 1, x);
    var x15 := JoinOnes(N, x8, x7, 8, 7, x);
    var x30 := JoinOnes(N, x15, x15, 15, 15, x);
    var x60 := JoinOnes(N, x30, x30, 30, 30, x);
    var x120 := JoinOnes(N, x60, x60, 60, 60, x);
    x127 := JoinOnes(N, x120, x7, 120, 7, x);
    OnesValues(127);
  }

  /** x^(n-2) mod n. */
  method ScalarInverse(x: int) returns (r: int)
    ensures r == PowMod(N, x, N - 2)
  {
    var x1, x2, x3, x4, x6, x8, t := ScalarBlocks(x);
    ghost var e := 0x7FFFFFFFFFFFFFFFFFFFFFFFFFFFFFFF;
    t, e := SquareMul(N, t, 2, x1, x, e, 1);
    assert e == 0x1FFFFFFFFFFFFFFFFFFFFFFFFFFFFFFFD;
    t, e := SquareMul(N, t, 4, x3, x, e, 7);
    assert e == 0x1FFFFFFFFFFFFFFFFFFFFFFFFFFFFFFFD7;
    t, e := SquareMul(N, t, 2, x1, x, e, 1);
    assert e == 0x7FFFFFFFFFFFFFFFFFFFFFFFFFFFFFFF5D;
    t, e := SquareMul(N, t, 2, x1, x, e, 1);
    assert e == 0x1FFFFFFFFFFFFFFFFFFFFFFFFFFFFFFFD75;
    t, e := SquareMul(N, t, 2, x1, x, e, 1);
    assert e == 0x7FFFFFFFFFFFFFFFFFFFFFFFFFFFFFFF5D5;
    t, e := SquareMul(N, t, 4, x3, x, e, 7);
    assert e == 0x7FFFFFFFFFFFFFFFFFFFFFFFFFFFFFFF5D57;
    t, e := SquareMul(N, t, 3, x2, x, e, 3);
    assert e == 0x3FFFFFFFFFFFFFFFFFFFFFFFFFFFFFFFAEABB;
    t, e := SquareMul(N, t, 4, x3, x, e, 7);
    assert e == 0x3FFFFFFFFFFFFFFFFFFFFFFFFFFFFFFFAEABB7;
    t, e := SquareMul(N, t, 5, x3, x, e, 7);
    assert e == 0x7FFFFFFFFFFFFFFFFFFFFFFFFFFFFFFF5D576E7;
    t, e := SquareMul(N, t, 4, x2, x, e, 3);
    assert e == 0x7FFFFFFFFFFFFFFFFFFFFFFFFFFFFFFF5D576E73;
    t, e := SquareMul(N, t, 2, x1, x, e, 1);
    assert e == 0x1FFFFFFFFFFFFFFFFFFFFFFFFFFFFFFFD755DB9CD;
    t, e := SquareMul(N, t, 2, x1, x, e, 1);
    assert e == 0x7FFFFFFFFFFFFFFFFFFFFFFFFFFFFFFF5D576E735;
    t, e := SquareMul(N, t, 5, x4, x, e, 15);
    assert e == 0xFFFFFFFFFFFFFFFFFFFFFFFFFFFFFFFEBAAEDCE6AF;
    t, e := SquareMul(N, t, 2, x1, x, e, 1);
    assert e == 0x3FFFFFFFFFFFFFFFFFFFFFFFFFFFFFFFAEABB739ABD;
    t, e := SquareMul(N, t, 3, x1, x, e, 1);
    assert e == 0x1FFFFFFFFFFFFFFFFFFFFFFFFFFFFFFFD755DB9CD5E9;
    t, e := SquareMul(N, t, 4, x1, x, e, 1);
    assert e == 0x1FFFFFFFFFFFFFFFFFFFFFFFFFFFFFFFD755DB9CD5E91;
    t, e := SquareMul(N, t, 2, x1, x, e, 1);
    assert e == 0x7FFFFFFFFFFFFFFFFFFFFFFFFFFFFFFF5D576E7357A45;
    t, e := SquareMul(N, t, 10, x3, x, e, 7);
    assert e == 0x1FFFFFFFFFFFFFFFFFFFFFFFFFFFFFFFD755DB9CD5E91407;
    t, e := SquareMul(N, t, 4, x3, x, e, 7);
    assert e == 0x1FFFFFFFFFFFFFFFFFFFFFFFFFFFFFFFD755DB9CD5E914077;
    t, e := SquareMul(N, t, 9, x8, x, e, 255);
    assert e == 0x3FFFFFFFFFFFFFFFFFFFFFFFFFFFFFFFAEABB739ABD2280EEFF;
    t, e := SquareMul(N, t, 2, x1, x, e, 1);
    assert e == 0xFFFFFFFFFFFFFFFFFFFFFFFFFFFFFFFEBAAEDCE6AF48A03BBFD;
    t, e := SquareMul(N, t, 3, x1, x, e, 1);
    assert e == 0x7FFFFFFFFFFFFFFFFFFFFFFFFFFFFFFF5D576E7357A4501DDFE9;
    t, e := SquareMul(N, t, 3, x1, x, e, 1);
    assert e == 0x3FFFFFFFFFFFFFFFFFFFFFFFFFFFFFFFAEABB739ABD2280EEFF49;
    t, e := SquareMul(N, t, 5, x4, x, e, 15);
    assert e == 0x7FFFFFFFFFFFFFFFFFFFFFFFFFFFFFFF5D576E7357A4501DDFE92F;
    t, e := SquareMul(N, t, 2, x1, x, e, 1);
    assert e == 0x1FFFFFFFFFFFFFFFFFFFFFFFFFFFFFFFD755DB9CD5E9140777FA4BD;
    t, e := SquareMul(N, t, 5, x2, x, e, 3);
    assert e == 0x3FFFFFFFFFFFFFFFFFFFFFFFFFFFFFFFAEABB739ABD2280EEFF497A3;
    t, e := SquareMul(N, t, 4, x2, x, e, 3);
    assert e == 0x3FFFFFFFFFFFFFFFFFFFFFFFFFFFFFFFAEABB739ABD2280EEFF497A33;
    t, e := SquareMul(N, t, 2, x1, x, e, 1);
    assert e == 0xFFFFFFFFFFFFFFFFFFFFFFFFFFFFFFFEBAAEDCE6AF48A03BBFD25E8CD;
    t, e := SquareMul(N, t, 8, x2, x, e, 3);
    assert e == 0xFFFFFFFFFFFFFFFFFFFFFFFFFFFFFFFEBAAEDCE6AF48A03BBFD25E8CD03;
    t, e := SquareMul(N, t, 3, x2, x, e, 3);
    assert e == 0x7FFFFFFFFFFFFFFFFFFFFFFFFFFFFFFF5D576E7357A4501DDFE92F46681B;
    t, e := SquareMul(N, t, 3, x1, x, e, 1);
    assert e == 0x3FFFFFFFFFFFFFFFFFFFFFFFFFFFFFFFAEABB739ABD2280EEFF497A3340D9;
    t, e := SquareMul(N, t, 6, x1, x, e, 1);
    assert e == 0xFFFFFFFFFFFFFFFFFFFFFFFFFFFFFFFEBAAEDCE6AF48A03BBFD25E8CD03641;
    t, e := SquareMul(N, t, 8, x6, x, e, 63);
    assert e == 0xFFFFFFFFFFFFFFFFFFFFFFFFFFFFFFFEBAAEDCE6AF48A03BBFD25E8CD036413F;
    r := t;
  }

  /** x^(2^k - 1) for the block lengths k of the field chains. */
  method FieldBlocks(a: int) returns (x1: int, x2: int, x22: int, x223: int)
    ensures x1 == PowMod(P, a, 1) && x2 == PowMod(P, a, 3) && x22 == PowMod(P, a, Ones(22)) && x223 == PowMod(P, a, Ones(223))
  {
    x1 := a % P;
    PowModOne(P, a);
    SmallOnes();
    x2 := JoinOnes(P, x1, x1, 1, 1, a);
    var x3 := JoinOnes(P, x2, x1, 2, 1, a);
    var x6 := JoinOnes(P, x3, x3, 3, 3, a);
    var x9 := JoinOnes(P, x6, x3, 6, 3, a);
    var x11 := JoinOnes(P, x9, x2, 9, 2, a);
    x22 := JoinOnes(P, x11, x11, 11, 11, a);
    var x44 := JoinOnes(P, x22, x22, 22, 22, a);
    var x88 := JoinOnes(P, x44, x44, 44, 44, a);
    var x176 := JoinOnes(P, x88, x88, 88, 88, a);
    var x220 := JoinOnes(P, x176, x44, 176, 44, a);
    x223 := JoinOnes(P, x220, x3, 220, 3, a);
  }

  /** The part both field chains share: 223 ones, a zero, 22 ones. */
  method FieldTop(a: int) returns (x1: int, x2: int, t: int)
    ensures x1 == PowMod(P, a, 1) && x2 == PowMod(P, a, 3) && t == PowMod(P, a, 0x3FFFFFFFFFFFFFFFFFFFFFFFFFFFFFFFFFFFFFFFFFFFFFFFFFFFFFFFBFFFFF)
  {
    var x22, x223;
    x1, x2, x22, x223 := FieldBlocks(a);
    ghost var e;
    t, e := SquareMul(P, x223, 23, x22, a, Ones(223), Ones(22));
    OnesValues(223);
    Pow2Of22(22);
  }

  lemma Pow2Of22(k: nat)
    requires 21 < k < 23
    ensures Pow2(k) == 0x400000 && Pow2(k + 1) == 0x800000
  {
    Pow2Plus8(k - 8);
    Pow2Plus8(k - 16);
    assert Pow2(6) == 64;
  }

  /** a^(p-2) mod p. */
  method FeInv(a: int) returns (r: int)
    ensures r == PowMod(P, a, P - 2)
  {
    var x1, x2, t := FieldTop(a);
    ghost var e := 0x3FFFFFFFFFFFFFFFFFFFFFFFFFFFFFFFFFFFFFFFFFFFFFFFFFFFFFFFBFFFFF;
    t, e := SquareMul(P, t, 5, x1, a, e, 1);
    assert e == 0x7FFFFFFFFFFFFFFFFFFFFFFFFFFFFFFFFFFFFFFFFFFFFFFFFFFFFFFF7FFFFE1;
    t, e := SquareMul(P, t, 3, x2, a, e, 3);
    assert e == 0x3FFFFFFFFFFFFFFFFFFFFFFFFFFFFFFFFFFFFFFFFFFFFFFFFFFFFFFFBFFFFF0B;
    t, e := SquareMul(P, t, 2, x1, a, e, 1);
    assert e == 0xFFFFFFFFFFFFFFFFFFFFFFFFFFFFFFFFFFFFFFFFFFFFFFFFFFFFFFFEFFFFFC2D;
    r := t;
  }

  /** a^((p+1)/4) mod p, and whether its square is a. */
  method FeSqrt(a: int) returns (r: int, ok: bool)
    ensures r == PowMod(P, a, (P + 1) / 4)
    ensures ok <==> (r * r) % P == a % P
  {
    var x1, x2, t := FieldTop(a);
    ghost var e := 0x3FFFFFFFFFFFFFFFFFFFFFFFFFFFFFFFFFFFFFFFFFFFFFFFFFFFFFFFBFFFFF;
    t, e := SquareMul(P, t, 6, x2, a, e, 3);
    assert e == 0xFFFFFFFFFFFFFFFFFFFFFFFFFFFFFFFFFFFFFFFFFFFFFFFFFFFFFFFEFFFFFC3;
    PowModAdd(P, a, e, e);
    t := (t * t) % P;
    PowModAdd(P, a, e + e, e + e);
    r := (t * t) % P;
    assert 4 * e == (P + 1) / 4;
    ok := (r * r) % P == a % P;
  }

  /** Fermat's little theorem for the modulus m, which holds because m is prime. */
  ghost predicate Fermat(m: int) {
    m > 1 && forall x: int {:trigger PowMod(m, x, m - 1)} :: x % m != 0 ==> PowMod(m, x, m - 1) == 1
  }

  lemma InverseIsInverse(m: int, x: int)
    requires Fermat(m) && x % m != 0 && m >= 2
    ensures (PowMod(m, x, m - 2) * x) % m == 1
  {
    assert PowMod(m, x, m - 1) == 1;
  }

  /** The computed root squares to a exactly when a has a root. */
  lemma SqrtFindsRoots(a: int)
    requires Fermat(P)
    ensures var r := PowMod(P, a, (P + 1) / 4);
      (r * r) % P == a % P <==> exists b: int :: (b * b) % P == a % P
  {
    var r := PowMod(P, a, (P + 1) / 4);
    forall b: int | (b * b) % P == a % P
      ensures (r * r) % P == a % P
    {
      RootOfSquare(a, b);
    }
  }

  lemma RootOfSquare(a: int, b: int)
    requires Fermat(P) && (b * b) % P == a % P
    ensures var r := PowMod(P, a, (P + 1) / 4); (r * r) % P == a % P
  {
    var h := (P + 1) / 4;
    PowModAdd(P, a, h, h);
    // r * r = a^((p+1)/2) = b^(p+1) = b^(p-1) * b^2
    PowModBase(P, a, 2 * h, b);
    PowModMul(P, b, 2, 2 * h);
    SquareOf(P, b);
    PowModAdd(P, b, P - 1, 2);
    if b % P == 0 {
      SquareOfZero(b);
      MulModRight(PowMod(P, b, P - 1), 0, P);
    } else {
      assert PowMod(P, b, P - 1) == 1;
      ModIs(a % P, P, 0, a % P);
    }
  }

  lemma SquareOf(m: int, b: int)
    requires m > 0
    ensures PowMod(m, b, 2) == (b * b) % m
  {
    PowModOne(m, b);
    MulModLeft(b, b, m);
    assert PowMod(m, b, 2) == (PowMod(m, b, 1) * b) % m;
  }

  lemma SquareOfZero(b: int)
    requires b % P == 0
    ensures (b * b) % P == 0
  {
    MulModLeft(b, b, P);
  }

  /** a^e depends on a mod m only; here a is b^2 mod m. */
  lemma {:induction false} PowModBase(m: int, a: int, e: nat, b: int)
    requires m > 0 && (b * b) % m == a % m
    ensures PowMod(m, a, e) == PowMod(m, PowMod(m, b, 2), e)
    decreases e
  {
    SquareOf(m, b);
    if e > 0 {
      PowModBase(m, a, e - 1, b);
      MulModRight(PowMod(m, a, e - 1), a, m);
    }
  }
}
