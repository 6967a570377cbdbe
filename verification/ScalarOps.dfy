/** Scalars of four 64-bit limbs: negation, single bits, shifts and the rounded product. */
module ScalarOps {
  import opened Bits
  import opened Scalar4x64

  const HALF: int := 0x7FFFFFFFFFFFFFFFFFFFFFFFFFFFFFFF5D576E7357A4501DDFE92F46681B20A0

  lemma HalfIs()
    ensures 2 * HALF + 1 == N
  {
  }

  method IsHigh(a: seq<int>) returns (yes: bool)
    requires IsScalar(a)
    ensures yes <==> 2 * Value(a) > N
    ensures yes <==> Value(a) > HALF
  {
    HalfIs();
    ValueOf(a);
    var no := false;
    yes := false;
    no := no || a[3] < 0x7FFFFFFFFFFFFFFF;
    yes := yes || (a[3] > 0x7FFFFFFFFFFFFFFF && !no);
    no := no || (a[2] < 0xFFFFFFFFFFFFFFFF && !yes);
    no := no || (a[1] < 0x5D576E7357A4501D && !yes);
    yes := yes || (a[1] > 0x5D576E7357A4501D && !no);
    yes := yes || (a[0] > 0xDFE92F46681B20A0 && !no);
  }

  method IsZero(a: seq<int>) returns (zero: bool)
    requires IsScalar(a)
    ensures zero <==> Value(a) == 0
  {
    ValueOf(a);
    zero := Or(Or(Or(a[0], a[1]), a[2]), a[3]) == 0;
    OrIsZero(a[0], a[1]);
    OrIsZero(Or(a[0], a[1]), a[2]);
    OrIsZero(Or(Or(a[0], a[1]), a[2]), a[3]);
  }

  /** r := x + y limb by limb with the carry passed up, as every scalar routine does it. */
  method CarryChain(r: array<int>, x: seq<int>, y: seq<int>) returns (carry: int)
    requires r.Length == 4 && |x| == |y| == 4
    requires forall i :: 0 <= i < 4 ==> IsU64(x[i]) && 0 <= y[i] <= TWO64
    modifies r
    ensures IsScalar(r[..]) && 0 <= carry
    ensures Value(r[..]) + carry * TWO256 == Value4(x[0], x[1], x[2], x[3]) + Value4(y[0], y[1], y[2], y[3])
  {
    var w: int;
    var t := x[0] + y[0];
    w, t := Word(t); r[0] := w;
    t := t + x[1] + y[1];
    w, t := Word(t); r[1] := w;
    t := t + x[2] + y[2];
    w, t := Word(t); r[2] := w;
    t := t + x[3] + y[3];
    w, t := Word(t); r[3] := w;
    carry := t;
    ValueOf(r[..]);
  }

  /** ~x on 64 bits. */
  function Not(x: int): int {
    0xFFFFFFFFFFFFFFFF - x
  }

  /** The limbs of n - a with the borrow folded into ~a + n + 1; zero stays zero. */
  method NegateLimbs(r: array<int>, a: seq<int>)
    requires r.Length == 4 && IsScalar(a) && Value(a) < N
    modifies r
    ensures IsScalar(r[..])
    ensures Value(r[..]) == if Value(a) == 0 then 0 else N - Value(a)
  {
    var zero := IsZero(a);
    ComplementLimbs(r, a);
    if zero {
      r[0], r[1], r[2], r[3] := 0, 0, 0, 0;
      ValueOf(r[..]);
    }
  }

  /** ~a + n + 1 on 256 bits. */
  method ComplementLimbs(r: array<int>, a: seq<int>)
    requires r.Length == 4 && IsScalar(a) && Value(a) < N
    modifies r
    ensures IsScalar(r[..]) && (Value(a) != 0 ==> Value(r[..]) == N - Value(a))
  {
    var carry := CarryChain(r, [Not(a[0]), Not(a[1]), Not(a[2]), Not(a[3])],
      [0xBFD25E8CD0364142, 0xBAAEDCE6AF48A03B, 0xFFFFFFFFFFFFFFFE, 0xFFFFFFFFFFFFFFFF]);
    ValueBound(r[..]);
    ValueBound(a);
    NegatedSum(a);
    NegatedCarry(Value(r[..]), carry, Value(a));
  }

  lemma NegatedSum(a: seq<int>)
    requires |a| == 4
    ensures Value4(Not(a[0]), Not(a[1]), Not(a[2]), Not(a[3]))
        + Value4(0xBFD25E8CD0364142, 0xBAAEDCE6AF48A03B, 0xFFFFFFFFFFFFFFFE, 0xFFFFFFFFFFFFFFFF)
      == TWO256 + N - Value(a)
  {
    ValueOf(a);
  }

  lemma NegatedCarry(v: int, carry: int, a: int)
    requires v + carry * TWO256
      == TWO256 + N - a
    requires 0 <= v < TWO256 && 0 <= a < N
    ensures a > 0 ==> v == N - a
  {
  }

  method ScalarNegate(r: array<int>, a: array<int>)
    requires r.Length == a.Length == 4
    requires IsScalar(a[..]) && Value(a[..]) < N
    modifies r
    ensures IsScalar(r[..])
    ensures Value(r[..]) == if old(Value(a[..])) == 0 then 0 else N - old(Value(a[..]))
  {
    NegateLimbs(r, a[..]);
  }

  /** Negates when the flag is set; the masked sums otherwise add nothing and return r itself. */
  method CondNegate(r: array<int>, flag: bool) returns (sign: int)
    requires r.Length == 4 && IsScalar(r[..]) && Value(r[..]) < N
    modifies r
    ensures IsScalar(r[..])
    ensures sign == if flag then -1 else 1
    ensures Value(r[..]) == if flag && old(Value(r[..])) != 0 then N - old(Value(r[..])) else old(Value(r[..]))
  {
    if flag {
      NegateLimbs(r, r[..]);
    }
    sign := if flag then -1 else 1;
  }

  /** 2^bit, put together from the limb it falls in and its place there. */
  function BitWeight(bit: nat): int
    requires bit < 256
  {
    var one, q := Pow2(bit % 64), bit / 64;
    if q == 0 then one else if q == 1 then one * TWO64 else if q == 2 then one * TWO128 else one * TWO192
  }

  lemma WeightOfWord(k: nat, q: nat)
    requires k < 64 && q < 4
    ensures Pow2(q * 64 + k) == if q == 0 then Pow2(k) else if q == 1 then Pow2(k) * TWO64
      else if q == 2 then Pow2(k) * TWO128
      else Pow2(k) * TWO192
  {
    if q > 0 {
      WeightOfWord(k, q - 1);
      Pow2PlusWord((q - 1) * 64 + k);
    }
  }

  lemma BitWeightIsPow2(bit: nat)
    requires bit < 256
    ensures BitWeight(bit) == Pow2(bit)
  {
    WeightOfWord(bit % 64, bit / 64);
  }

  lemma Pow2PlusWord(k: nat)
    ensures Pow2(k + 64) == Pow2(k) * TWO64
  {
    var m :| 63 < m < 65;
    Pow2Width(m);
    Pow2Add(k, m);
  }

  /** The four words that cadd_bit adds; without the flag the bit is moved past the last limb. */
  method BitLimbs(bit: nat, flag: bool) returns (y: seq<int>)
    requires bit < 256
    ensures |y| == 4 && forall i :: 0 <= i < 4 ==> 0 <= y[i] < TWO64
    ensures Value4(y[0], y[1], y[2], y[3]) == if flag then Pow2(bit) else 0
  {
    BitWeightIsPow2(bit);
    var b := if flag then bit else bit + 0x100;
    var q, one := b / 64, Pow2(b % 64);
    BitInWord(b % 64);
    y := [if q == 0 then one else 0, if q == 1 then one else 0, if q == 2 then one else 0, if q == 3 then one else 0];
  }

  method CaddBit(r: array<int>, bit: nat, flag: bool)
    requires r.Length == 4 && IsScalar(r[..]) && bit < 256
    requires flag ==> Value(r[..]) + Pow2(bit) < TWO256
    modifies r
    ensures IsScalar(r[..])
    ensures Value(r[..]) == old(Value(r[..])) + if flag then Pow2(bit) else 0
  {
    var y := BitLimbs(bit, flag);
    ghost var v, w := Value(r[..]), Value4(y[0], y[1], y[2], y[3]);
    ValueOf(r[..]);
    var carry := CarryChain(r, r[..], y);
    ValueBound(r[..]);
    NoCarry(v, w, Value(r[..]), carry);
  }

  lemma NoCarry(v: int, w: int, r: int, carry: int)
    requires r + carry * TWO256 == v + w && 0 <= r < TWO256 && 0 <= v + w < TWO256
    ensures r == v + w
  {
  }

  lemma BitInWord(k: nat)
    requires k < 64
    ensures Pow2(k) < TWO64
  {
    var m :| 63 < m < 65;
    Pow2Width(m);
    Pow2Monotone(k, m);
  }

  lemma QuotientBound(x: int, k: int, c: int)
    requires 0 <= x < TWO64 && 0 < k && k * c == TWO64
    ensures x / k < c
  {
    var d := x / k;
    assert x == k * d + x % k;
    assert k * d < k * c;
  }

  /** One limb of a right shift by n bits: (x >> n) + (y << (64 - n)) on 64 bits, with k = 2^n and c = 2^(64-n). */
  lemma ShiftedLimb(x: int, y: int, k: int, c: int)
    requires IsU64(x) && IsU64(y) && 0 < k && 0 < c && k * c == TWO64
    ensures 0 <= x / k && 0 <= (y * c) % TWO64
    ensures x / k + (y * c) % TWO64 < TWO64
    ensures k * (x / k + (y * c) % TWO64) + x % k == x + (y % k) * TWO64
  {
    var d, m, h := x / k, y % k, (y % k) * c;
    LowBits(y, k, c, h);
    QuotientBound(x, k, c);
    JoinLimb(d, m, k, c, h);
  }

  /** y << (64 - n) on 64 bits keeps the n lowest bits of y. */
  lemma LowBits(y: int, k: int, c: int, h: int)
    requires 0 <= y && 0 < k && 0 < c && k * c == TWO64 && h == (y % k) * c
    ensures (y * c) % TWO64 == h && 0 <= h <= TWO64 - c
  {
    var q, m := y / k, y % k;
    SplitMultiple(y, q, m, k, c);
    TopMultiple(m, k, c);
    RemainderIs(y * c, q, h);
  }

  lemma SplitMultiple(y: int, q: int, m: int, k: int, c: int)
    requires y == q * k + m && k * c == TWO64
    ensures y * c == q * TWO64 + m * c
  {
    assert (q * k + m) * c == (q * k) * c + m * c;
    assert (q * k) * c == q * (k * c);
  }

  lemma TopMultiple(m: int, k: int, c: int)
    requires 0 <= m < k && 0 < c
    ensures 0 <= m * c <= k * c - c
  {
    assert m * c <= (k - 1) * c;
  }

  lemma JoinLimb(d: int, m: int, k: int, c: int, h: int)
    requires h == m * c && k * c == TWO64
    ensures k * (d + h) == k * d + m * TWO64
  {
    assert k * (m * c) == m * (k * c);
  }

  lemma RemainderIs(x: int, q: int, r: int)
    requires x == q * TWO64 + r && 0 <= r < TWO64
    ensures x % TWO64 == r
  {
  }

  /** Shifts r right by n bits and returns the bits shifted out. */
  method ShrInt(r: array<int>, n: nat) returns (ret: int)
    requires r.Length == 4 && IsScalar(r[..]) && 0 < n < 16
    modifies r
    ensures IsScalar(r[..])
    ensures 0 <= ret < Pow2(n)
    ensures old(Value(r[..])) == ret + Pow2(n) * Value(r[..])
  {
    ValueOf(r[..]);
    var k, c := Pow2(n), Pow2(64 - n);
    ShiftFactors(n, k, c);
    ret := r[0] % k;
    var d := ShiftedLimbs(r[0], r[1], r[2], r[3], k, c);
    r[0], r[1], r[2], r[3] := d[0], d[1], d[2], d[3];
    assert r[..] == d;
    ValueOf(r[..]);
  }

  lemma ShiftFactors(n: nat, k: int, c: int)
    requires n <= 64 && k == Pow2(n) && c == Pow2(64 - n)
    ensures k * c == TWO64
  {
    var m :| 63 < m < 65;
    Pow2Width(m);
    Pow2Add(n, m - n);
  }

  /** The limbs shifted right, with k = 2^n and c = 2^(64-n). */
  method ShiftedLimbs(d0: int, d1: int, d2: int, d3: int, k: int, c: int) returns (d: seq<int>)
    requires IsU64(d0) && IsU64(d1) && IsU64(d2) && IsU64(d3) && 0 < k && 0 < c && k * c == TWO64
    ensures IsScalar(d) && Value4(d0, d1, d2, d3) == d0 % k + k * Value4(d[0], d[1], d[2], d[3])
  {
    ShiftedLimb(d0, d1, k, c);
    ShiftedLimb(d1, d2, k, c);
    ShiftedLimb(d2, d3, k, c);
    ShiftedLimb(d3, 0, k, c);
    var r0 := d0 / k + (d1 * c) % TWO64;
    var r1 := d1 / k + (d2 * c) % TWO64;
    var r2 := d2 / k + (d3 * c) % TWO64;
    var r3 := d3 / k;
    d := [r0, r1, r2, r3];
    ShiftedValue(k, r0, r1, r2, r3, d0, d1, d2, d3);
  }

  lemma ShiftedValue(k: int, r0: int, r1: int, r2: int, r3: int, d0: int, d1: int, d2: int, d3: int)
    requires 0 < k
    requires k * r0 + d0 % k == d0 + (d1 % k) * TWO64
    requires k * r1 + d1 % k == d1 + (d2 % k) * TWO64
    requires k * r2 + d2 % k == d2 + (d3 % k) * TWO64
    requires k * r3 + d3 % k == d3
    ensures Value4(d0, d1, d2, d3) == d0 % k + k * Value4(r0, r1, r2, r3)
  {
    Distribute(k, r0, r1, r2, r3);
  }
}
