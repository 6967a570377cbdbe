/** Arithmetic and powers modulo a positive number. */
module ModPow {
  import opened Bits
  import opened Group

  lemma ModIs(x: int, m: int, q: int, r: int)
    requires m > 0 && x == q * m + r && 0 <= r < m
    ensures x % m == r
  {
    QuotientIs(x, m, q, r);
  }

  /** Equal up to a multiple of m. */
  lemma ModShift(x: int, y: int, m: int, q: int)
    requires m > 0 && x == y + q * m
    ensures x % m == y % m
  {
    var k := y / m;
    assert y == k * m + y % m;
    assert (k + q) * m == k * m + q * m;
    ModIs(x, m, k + q, y % m);
  }

  lemma MulModLeft(a: int, b: int, m: int)
    requires m > 0
    ensures ((a % m) * b) % m == (a * b) % m
  {
    var q := a / m;
    assert a == q * m + a % m;
    assert a * b == (a % m) * b + (q * b) * m;
    ModShift(a * b, (a % m) * b, m, q * b);
  }

  lemma MulModRight(a: int, b: int, m: int)
    requires m > 0
    ensures (a * (b % m)) % m == (a * b) % m
  {
    MulModLeft(b, a, m);
    assert (b % m) * a == a * (b % m) && b * a == a * b;
  }

  lemma MulModAssoc(a: int, b: int, c: int, m: int)
    requires m > 0
    ensures (((a * b) % m) * c) % m == (a * ((b * c) % m)) % m
  {
    MulModLeft(a * b, c, m);
    MulModRight(a, b * c, m);
    assert (a * b) * c == a * (b * c);
  }

  /** x^e mod m */
  ghost function PowMod(m: int, x: int, e: nat): int
    requires m > 0
    decreases e
  {
    if e == 0 then 1 % m else (PowMod(m, x, e - One(x)) * x) % m
  }

  lemma {:induction false} PowModAdd(m: int, x: int, a: nat, b: nat)
    requires m > 0
    ensures PowMod(m, x, a + b) == (PowMod(m, x, a) * PowMod(m, x, b)) % m
    decreases b
  {
    var p := PowMod(m, x, a);
    if b == 0 {
      PowModRange(m, x, a);
      MulModRight(p, 1, m);
      ModIs(p, m, 0, p);
    } else {
      PowModAdd(m, x, a, b - 1);
      MulModAssoc(p, PowMod(m, x, b - 1), x, m);
    }
  }

  lemma PowModRange(m: int, x: int, e: nat)
    requires m > 0
    ensures 0 <= PowMod(m, x, e) < m
  {
  }

  lemma {:induction false} PowModMul(m: int, x: int, a: nat, b: nat)
    requires m > 0
    ensures PowMod(m, PowMod(m, x, a), b) == PowMod(m, x, a * b)
    decreases b
  {
    if b == 0 {
      assert a * b == 0;
    } else {
      PowModMul(m, x, a, b - 1);
      PowModAdd(m, x, a * (b - 1), a);
      assert a * (b - 1) + a == a * b;
    }
  }

  lemma PowModOne(m: int, x: int)
    requires m > 0
    ensures PowMod(m, x, 1) == x % m
  {
    assert PowMod(m, x, 0) == 1 % m;
    MulModLeft(1, x, m);
  }

  lemma PowModOfZero(m: int, e: nat)
    requires m > 0 && e > 0
    ensures PowMod(m, 0, e) == 0
  {
    var y := PowMod(m, 0, e - 1);
    assert y * 0 == 0;
    ModIs(0, m, 0, 0);
  }

  /** t squared n times, then times y: the step every chain is made of. */
  method SquareMul(m: int, t: int, n: nat, y: int, ghost x: int, ghost e: nat, ghost c: nat) returns (r: int, ghost f: nat)
    requires m > 0 && t == PowMod(m, x, e) && y == PowMod(m, x, c)
    ensures f == e * Pow2(n) + c
    ensures r == PowMod(m, x, e * Pow2(n) + c)
  {
    r := t;
    f := e;
    for i := 0 to n
      invariant f == e * Pow2(i) && r == PowMod(m, x, f)
    {
      PowModAdd(m, x, f, f);
      r := (r * r) % m;
      f := f + f;
      assert 2 * (e * Pow2(i)) == e * Pow2(i + 1);
    }
    PowModAdd(m, x, f, c);
    r := (r * y) % m;
    f := f + c;
  }

  /** 2^k - 1: k one bits. */
  ghost function Ones(k: nat): nat {
    Pow2(k) - 1
  }

  /** x^(2^(a+b) - 1) from x^(2^a - 1) and x^(2^b - 1). */
  method JoinOnes(m: int, xa: int, xb: int, a: nat, b: nat, ghost x: int) returns (r: int)
    requires m > 0 && xa == PowMod(m, x, Ones(a)) && xb == PowMod(m, x, Ones(b))
    ensures r == PowMod(m, x, Ones(a + b))
  {
    ghost var f;
    r, f := SquareMul(m, xa, b, xb, x, Ones(a), Ones(b));
    Pow2Add(a, b);
    OnesJoin(Pow2(a), Pow2(b));
  }

  lemma OnesJoin(p: nat, q: nat)
    ensures (p - 1) * q + (q - 1) == p * q - 1
  {
  }
}
