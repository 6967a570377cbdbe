/** ECDSA: what a good signature is, and that signing and verifying agree on it. */
module Ecdsa {
  import opened Notions
  import opened Bits
  import opened Group
  import opened Scalar4x64
  import opened ScalarOps
  import opened ModPow
  import opened Field5x52
  import opened AdditionChains
  import opened Ecmult
  import opened EcmultGen

  /** The curve as a group, with the x coordinate and the parity of the y coordinate of its points. */
  datatype Curve<!T> = Curve(g: Ops<T>, gen: T, x: T -> int, oddY: T -> bool)

  ghost predicate ValidCurve<T(!new)>(c: Curve<T>) {
    && IsAbelian(c.g) && c.gen != c.g.zero
    && (forall a {:trigger At(a, a, a)} :: Times(c.g, N, a) == c.g.zero)
    && (forall a {:trigger c.x(a)} :: 0 <= c.x(a) < P && c.x(c.g.neg(a)) == c.x(a))
    && (forall a {:trigger c.oddY(a)} :: a != c.g.zero ==> c.oddY(c.g.neg(a)) == !c.oddY(a))
  }

  lemma OrderOf<T(!new)>(c: Curve<T>, a: T)
    requires ValidCurve(c)
    ensures Times(c.g, N, a) == c.g.zero
  {
    assert At(a, a, a);
  }

  /** u1 * gen + u2 * q for u1 = w * m and u2 = w * r. */
  ghost function Recovered<T(!new)>(c: Curve<T>, r: int, w: int, q: T, m: int): T {
    c.g.add(Times(c.g, w * m, c.gen), Times(c.g, w * r, q))
  }

  /** x y = z mod n; used like Congruent. */
  ghost predicate ModProd(x: int, y: int, z: int) {
    forall u: int {:trigger Open(OfModProd, u)} :: Open(OfModProd, u) ==> (x * y) % N == z
  }

  lemma ModProdIs(x: int, y: int, z: int)
    ensures ModProd(x, y, z) <==> (x * y) % N == z
  {
    assert Opened();
  }

  /** Recovered as a relation; used like Congruent. */
  ghost predicate IsRecovered<T(!new)>(c: Curve<T>, r: int, w: int, q: T, m: int, a: T) {
    forall u: int {:trigger Open(OfModProd, u)} :: Open(OfModProd, u) ==> a == Recovered(c, r, w, q, m)
  }

  /** n is the numerator r d + m mod n of the signature; used like Congruent. */
  ghost predicate IsNumerator(r: int, d: int, m: int, n: int) {
    forall u: int {:trigger Open(OfModProd, u)} :: Open(OfModProd, u) ==> n == (r * d + m) % N
  }

  /** The point is finite and its x coordinate is r mod n. */
  ghost predicate Matches<T(!new)>(c: Curve<T>, r: int, a: T) {
    a != c.g.zero && c.x(a) % N == r
  }

  /** The signature (r, s) on the message m is good for the key q. */
  ghost predicate Accepts<T(!new)>(c: Curve<T>, r: int, s: int, q: T, m: int) {
    && 0 < r < N && 0 < s < N
    && (exists w: int :: ModProd(w, s, 1) && Matches(c, r, Recovered(c, r, w, q, m)))
  }

  /** Inverses agree mod n. */
  lemma SameInverse(s: int, v: int, w: int)
    requires ModProd(v, s, 1) && ModProd(w, s, 1)
    ensures v % N == w % N
  {
    ModProdIs(v, s, 1);
    ModProdIs(w, s, 1);
    MulModLeft(v * s, w, N);
    MulModLeft(w * s, v, N);
    assert (v * s) * w == (w * s) * v;
  }

  lemma RecoveredSame<T(!new)>(c: Curve<T>, r: int, v: int, w: int, q: T, m: int)
    requires ValidCurve(c) && v % N == w % N
    ensures Recovered(c, r, v, q, m) == Recovered(c, r, w, q, m)
  {
    FactorSame(c, v, w, m, c.gen);
    FactorSame(c, v, w, r, q);
  }

  lemma FactorSame<T(!new)>(c: Curve<T>, v: int, w: int, k: int, a: T)
    requires ValidCurve(c) && v % N == w % N
    ensures Times(c.g, v * k, a) == Times(c.g, w * k, a)
  {
    MulModLeft(v, k, N);
    MulModLeft(w, k, N);
    OrderOf(c, a);
    TimesModIs(c.g, v * k, N, (v * k) % N, a);
    TimesModIs(c.g, w * k, N, (v * k) % N, a);
  }

  /** Comparing x coordinates mod n needs two cases only, since n < p < 2n. */
  lemma TwoCases(x: int, r: int)
    requires 0 <= x < P && 0 < r < N
    ensures x % N == r <==> x == r || (r < P - N && x == r + N)
  {
  }

  method SigVerify<T(!new,0,==)>(c: Curve<T>, preG: seq<T>, sigr: int, sigs: int, pubkey: T, message: int) returns (ok: bool)
    requires ValidCurve(c) && Fermat(N)
    requires 0 <= sigr < N && 0 <= sigs < N && 0 <= message < N
    requires |preG| == Pow2(16 - 2) && OddMultiples(c.g, preG, c.gen)
    ensures ok <==> Accepts(c, sigr, sigs, pubkey, message)
  {
    if sigr == 0 || sigs == 0 {
      return false;
    }
    var sn := ScalarInverse(sigs);
    var u1, u2 := (sn * message) % N, (sn * sigr) % N;
    OrderOf(c, pubkey);
    OrderOf(c, c.gen);
    var pr := EcmultPlain(c.g, pubkey, u2, u1, preG, c.gen);
    RecoveredIs(c, sigr, sigs, sn, pubkey, message, u1, u2, pr);
    if pr == c.g.zero {
      return false;
    }
    var xr := sigr;
    TwoCases(c.x(pr), sigr);
    if xr == c.x(pr) {
      return true;
    }
    if xr >= P - N {
      return false;
    }
    xr := xr + N;
    ok := xr == c.x(pr);
  }

  /** The computed point is the one every inverse of s gives. */
  lemma RecoveredIs<T(!new)>(c: Curve<T>, r: int, s: int, sn: int, q: T, m: int, u1: int, u2: int, pr: T)
    requires ValidCurve(c) && Fermat(N) && 0 < r < N && 0 < s < N && sn == PowMod(N, s, N - 2)
    requires u1 == (sn * m) % N && u2 == (sn * r) % N
    requires pr == c.g.add(Times(c.g, u2, q), Times(c.g, u1, c.gen))
    ensures Accepts(c, r, s, q, m) <==> pr != c.g.zero && c.x(pr) % N == r
  {
    InverseIsInverse(N, s);
    ModProdIs(sn, s, 1);
    OrderOf(c, q);
    OrderOf(c, c.gen);
    TimesModIs(c.g, sn * m, N, u1, c.gen);
    TimesModIs(c.g, sn * r, N, u2, q);
    Comm(c.g, Times(c.g, u2, q), Times(c.g, u1, c.gen));
    assert pr == Recovered(c, r, sn, q, m);
    forall w: int | ModProd(w, s, 1)
      ensures Recovered(c, r, w, q, m) == pr
    {
      SameInverse(s, sn, w);
      RecoveredSame(c, r, sn, w, q, m);
    }
  }

  /** Whatever inverse of s is used, the point recovered has the x coordinate and the y parity that recid tells. */
  ghost predicate RecoveryId<T(!new)>(c: Curve<T>, r: int, s: int, q: T, m: int, recid: nat) {
    && recid < 4
    && (forall w: int :: ModProd(w, s, 1) ==> ToldBy(c, r, Recovered(c, r, w, q, m), recid))
  }

  ghost predicate ToldBy<T(!new)>(c: Curve<T>, r: int, a: T, recid: nat) {
    && c.x(a) == r + (recid / 2) * N
    && c.oddY(a) == (recid % 2 == 1)
  }

  /** Neither half of the signature made from the x coordinate of the nonce point vanishes. */
  predicate Signable(x: int, d: int, m: int) {
    x % N != 0 && (x * d + m) % N != 0
  }

  method SigSign<T(!new)>(c: Curve<T>, ctx: GenContext<T>, seckey: int, message: int, nonce: int)
    returns (ok: bool, sigr: int, sigs: int, recid: nat)
    requires ValidCurve(c) && Fermat(N)
    requires ctx.Valid() && ctx.g == c.g && ctx.gen == c.gen
    requires 0 <= seckey < N && 0 <= message < N && 0 <= nonce < N
    ensures ok <==> nonce != 0 && Signable(c.x(Times(c.g, nonce, c.gen)), seckey, message)
    ensures ok ==> sigr == c.x(Times(c.g, nonce, c.gen)) % N && 0 < sigs <= N / 2
    ensures ok ==> Accepts(c, sigr, sigs, Times(c.g, seckey, c.gen), message)
    ensures ok ==> RecoveryId(c, sigr, sigs, Times(c.g, seckey, c.gen), message, recid)
  {
    sigs, recid := 0, 0;
    var rp := ctx.Gen(nonce);
    var overflow := c.x(rp) >= N;
    sigr := if overflow then c.x(rp) - N else c.x(rp);
    ReducedOnce(c.x(rp), sigr);
    assert sigr == 0 ==> !Signable(c.x(rp), seckey, message);
    if sigr == 0 {
      return false, sigr, sigs, recid;
    }
    recid := IdOf(overflow, c.oddY(rp));
    var n := ((sigr * seckey) % N + message) % N;
    NumeratorIs(c.x(rp), sigr, seckey, message, n);
    var kinv := ScalarInverse(nonce);
    sigs := (kinv * n) % N;
    ModProdIs(kinv, n, sigs);
    SecondZero(nonce, n, kinv, sigs);
    if sigs == 0 {
      return false, sigr, sigs, recid;
    }
    ok, sigs, recid := LowS(c, sigr, sigs, recid, seckey, message, nonce, kinv, n);
  }

  /** Takes the smaller of s and -s. */
  method LowS<T(!new)>(c: Curve<T>, sigr: int, s0: int, id: nat, ghost d: int, ghost m: int, ghost k: int, ghost kinv: int,
      ghost n: int)
    returns (ok: bool, sigs: int, recid: nat)
    requires ValidCurve(c) && Fermat(N) && 0 < sigr < N && 0 < s0 < N && id < 4
    requires ModProd(kinv, k, 1) && ModProd(k, s0, n) && n == (sigr * d + m) % N
    requires c.x(Times(c.g, k, c.gen)) % N == sigr && ToldBy(c, sigr, Times(c.g, k, c.gen), id)
    ensures ok && 0 < sigs <= N / 2
    ensures Accepts(c, sigr, sigs, Times(c.g, d, c.gen), m)
    ensures RecoveryId(c, sigr, sigs, Times(c.g, d, c.gen), m, recid)
  {
    sigs, recid := s0, id;
    if sigs > N / 2 {
      sigs := N - sigs;
      recid := FlipParity(recid);
    }
    ok := true;
    Signed(c, sigr, d, m, k, kinv, n, s0, sigs, s0 > N / 2, recid);
  }

  function IdOf(overflow: bool, odd: bool): (id: nat)
    ensures id < 4 && id / 2 == (if overflow then 1 else 0) && (id % 2 == 1) == odd
  {
    (if overflow then 2 else 0) + (if odd then 1 else 0)
  }

  /** id ^ 1 */
  function FlipParity(id: nat): (r: nat)
    ensures r / 2 == id / 2 && r % 2 == 1 - id % 2
    ensures id < 4 ==> r < 4
  {
    if id % 2 == 0 then id + 1 else id - 1
  }

  lemma ReducedOnce(x: int, r: int)
    requires 0 <= x < P && r == if x >= N then x - N else x
    ensures r == x % N
  {
  }

  lemma NumeratorIs(x: int, r: int, d: int, m: int, n: int)
    requires r == x % N && n == ((r * d) % N + m) % N
    ensures n == (r * d + m) % N
    ensures Signable(x, d, m) <==> r != 0 && n != 0
  {
    MulModLeft(x, d, N);
    AddModLeft(x * d, m);
    AddModLeft(r * d, m);
  }

  lemma AddModLeft(a: int, b: int)
    ensures (a % N + b) % N == (a + b) % N
  {
    ModShift(a + b, a % N + b, N, a / N);
  }

  /** s0 = n / k vanishes exactly when n or k does. */
  lemma SecondZero(k: int, n: int, kinv: int, s0: int)
    requires Fermat(N) && 0 <= k < N && 0 <= n < N && kinv == PowMod(N, k, N - 2) && ModProd(kinv, n, s0)
    ensures s0 == 0 <==> k == 0 || n == 0
    ensures k != 0 ==> ModProd(kinv, k, 1) && ModProd(k, s0, n)
  {
    ModProdIs(kinv, n, s0);
    if k == 0 {
      PowModOfZero(N, N - 2);
    } else {
      InverseIsInverse(N, k);
      ModProdIs(kinv, k, 1);
      ModProdIs(k, s0, n);
      QuotientTimes(k, n, kinv, s0);
    }
  }

  lemma QuotientTimes(k: int, n: int, kinv: int, s0: int)
    requires (kinv * k) % N == 1 && 0 <= n < N && s0 == (kinv * n) % N
    ensures (k * s0) % N == n && (s0 == 0 <==> n == 0)
  {
    MulModRight(k, kinv * n, N);
    MulModLeft(kinv * k, n, N);
    assert k * (kinv * n) == (kinv * k) * n;
    ModIs(n, N, 0, n);
    if n == 0 {
      assert kinv * n == 0;
    }
    if s0 == 0 {
      assert k * s0 == 0;
    }
  }

  /** With s = n / k or its negative, w * n is k or its negative for every inverse w of s. */
  lemma NonceBack(k: int, n: int, s0: int, s: int, high: bool, w: int)
    requires ModProd(k, s0, n % N) && s == (if high then N - s0 else s0) && ModProd(w, s, 1)
    ensures (w * n) % N == (if high then -k else k) % N
  {
    ModProdIs(k, s0, n % N);
    ModProdIs(w, s, 1);
    var j := if high then -k else k;
    assert j * s == k * s0 - (if high then k else 0) * N by {
      if high {
        assert -k * (N - s0) == k * s0 - k * N;
      }
    }
    ModShift(j * s, k * s0, N, if high then -k else 0);
    MulModRight(w, n, N);
    MulModRight(w, j * s, N);
    assert w * (j * s) == (w * s) * j;
    MulModLeft(w * s, j, N);
  }

  /** The point a verifier recovers is the nonce point or its negative. */
  lemma NoncePoint<T(!new)>(c: Curve<T>, r: int, d: int, m: int, k: int, n: int, s0: int, s: int, high: bool, w: int, a: T)
    requires ValidCurve(c) && ModProd(k, s0, n) && IsNumerator(r, d, m, n)
    requires s == (if high then N - s0 else s0) && ModProd(w, s, 1) && IsRecovered(c, r, w, Times(c.g, d, c.gen), m, a)
    ensures a == if high then c.g.neg(Times(c.g, k, c.gen)) else Times(c.g, k, c.gen)
  {
    NumeratorOpened(r, d, m, n);
    NonceBack(k, r * d + m, s0, s, high, w);
    SameTimes(c, w * (r * d + m), if high then -k else k, c.gen);
    TimesNeg(c.g, k, c.gen);
    RecoveredOpened(c, r, w, d, m, a);
  }

  lemma NumeratorOpened(r: int, d: int, m: int, n: int)
    requires IsNumerator(r, d, m, n)
    ensures n == (r * d + m) % N
  {
    assert Open(OfModProd, 0);
  }

  lemma RecoveredOpened<T(!new)>(c: Curve<T>, r: int, w: int, d: int, m: int, a: T)
    requires IsAbelian(c.g) && IsRecovered(c, r, w, Times(c.g, d, c.gen), m, a)
    ensures a == Times(c.g, w * (r * d + m), c.gen)
  {
    assert Open(OfModProd, 0);
    LinearPoint(c, r, w, d, m);
  }

  lemma LinearPoint<T(!new)>(c: Curve<T>, r: int, w: int, d: int, m: int)
    requires IsAbelian(c.g)
    ensures Recovered(c, r, w, Times(c.g, d, c.gen), m) == Times(c.g, w * (r * d + m), c.gen)
  {
    Regroup(w, r, d, m);
    TimesLinear(c.g, w * m, w * r, d, (w * r) * d, c.gen);
  }

  lemma Regroup(w: int, r: int, d: int, m: int)
    ensures w * m + (w * r) * d == w * (r * d + m)
  {
  }

  lemma TimesLinear<T(!new)>(g: Ops<T>, j: int, k: int, d: int, e: int, x: T)
    requires IsAbelian(g) && e == k * d
    ensures g.add(Times(g, j, x), Times(g, k, Times(g, d, x))) == Times(g, j + e, x)
  {
    TimesTimes(g, k, d, x);
    TimesAdd(g, j, e, x);
  }

  lemma SameTimes<T(!new)>(c: Curve<T>, j: int, k: int, a: T)
    requires ValidCurve(c) && j % N == k % N
    ensures Times(c.g, j, a) == Times(c.g, k, a)
  {
    OrderOf(c, a);
    TimesModIs(c.g, j, N, k % N, a);
    TimesModIs(c.g, k, N, k % N, a);
  }

  lemma NonceFinite<T(!new)>(c: Curve<T>, k: int, kinv: int)
    requires ValidCurve(c) && ModProd(kinv, k, 1)
    ensures Times(c.g, k, c.gen) != c.g.zero
  {
    ModProdIs(kinv, k, 1);
    OrderOf(c, c.gen);
    TimesTimes(c.g, kinv, k, c.gen);
    TimesModIs(c.g, kinv * k, N, 1, c.gen);
    TimesOne(c.g, c.gen);
    TimesZero(c.g, kinv);
  }

  /** A point the verifier recovers has the nonce point's x coordinate, and its parity unless s was negated. */
  lemma RecoveredMatches<T(!new)>(c: Curve<T>, r: int, a: T, b: T, high: bool, recid: nat)
    requires ValidCurve(c) && a != c.g.zero && b == (if high then c.g.neg(a) else a)
    requires c.x(a) % N == r && c.x(a) == r + (recid / 2) * N
    requires c.oddY(a) == ((recid % 2 == 1) != high)
    ensures Matches(c, r, b) && ToldBy(c, r, b, recid)
  {
    NegFinite(c, a);
  }

  lemma Signed<T(!new)>(c: Curve<T>, r: int, d: int, m: int, k: int, kinv: int, n: int, s0: int, s: int, high: bool, recid: nat)
    requires ValidCurve(c) && Fermat(N) && 0 < r < N && 0 < s < N && recid < 4
    requires ModProd(kinv, k, 1) && ModProd(k, s0, n) && n == (r * d + m) % N
    requires s == if high then N - s0 else s0
    requires c.x(Times(c.g, k, c.gen)) % N == r && c.x(Times(c.g, k, c.gen)) == r + (recid / 2) * N
    requires c.oddY(Times(c.g, k, c.gen)) == ((recid % 2 == 1) != high)
    ensures Accepts(c, r, s, Times(c.g, d, c.gen), m)
    ensures RecoveryId(c, r, s, Times(c.g, d, c.gen), m, recid)
  {
    var q, a := Times(c.g, d, c.gen), Times(c.g, k, c.gen);
    NonceFinite(c, k, kinv);
    forall w: int | ModProd(w, s, 1)
      ensures Matches(c, r, Recovered(c, r, w, q, m)) && ToldBy(c, r, Recovered(c, r, w, q, m), recid)
    {
      NoncePoint(c, r, d, m, k, n, s0, s, high, w, Recovered(c, r, w, q, m));
      RecoveredMatches(c, r, a, Recovered(c, r, w, q, m), high, recid);
    }
    var w := SomeInverse(s);
    assert Matches(c, r, Recovered(c, r, w, q, m));
  }

  /** k is a nonce with which the secret key d signs m as (r, s): k s = r d + m mod n, and r is the x coordinate of k * gen mod n. */
  ghost predicate NonceFor<T(!new)>(c: Curve<T>, r: int, s: int, d: int, m: int, k: int) {
    ModProd(k, s, (r * d + m) % N) && Times(c.g, k, c.gen) != c.g.zero && c.x(Times(c.g, k, c.gen)) % N == r
  }

  /** A signature is good for the key d * gen exactly if there is such a nonce. */
  lemma AcceptsIff<T(!new)>(c: Curve<T>, r: int, s: int, d: int, m: int)
    requires ValidCurve(c) && Fermat(N) && 0 < r < N && 0 < s < N
    ensures Accepts(c, r, s, Times(c.g, d, c.gen), m) <==> exists k :: NonceFor(c, r, s, d, m, k)
  {
    if Accepts(c, r, s, Times(c.g, d, c.gen), m) {
      var k := NonceBehind(c, r, s, d, m);
    }
    if k :| NonceFor(c, r, s, d, m, k) {
      NonceAccepted(c, r, s, d, m, k);
    }
  }

  lemma NonceBehind<T(!new)>(c: Curve<T>, r: int, s: int, d: int, m: int) returns (k: int)
    requires ValidCurve(c) && Accepts(c, r, s, Times(c.g, d, c.gen), m)
    ensures NonceFor(c, r, s, d, m, k)
  {
    var w, a := InverseBehind(c, r, s, Times(c.g, d, c.gen), m);
    k := NonceWithPoint(c, r, s, d, m, w, r * d + m, a);
    NonceIs(c, r, s, d, m, k, a);
  }

  lemma InverseBehind<T(!new)>(c: Curve<T>, r: int, s: int, q: T, m: int) returns (w: int, a: T)
    requires Accepts(c, r, s, q, m)
    ensures ModProd(w, s, 1) && IsRecovered(c, r, w, q, m, a) && Matches(c, r, a)
  {
    w :| ModProd(w, s, 1) && Matches(c, r, Recovered(c, r, w, q, m));
    a := Recovered(c, r, w, q, m);
  }

  lemma NonceIs<T(!new)>(c: Curve<T>, r: int, s: int, d: int, m: int, k: int, a: T)
    requires ModProd(k, s, (r * d + m) % N) && a == Times(c.g, k, c.gen) && Matches(c, r, a)
    ensures NonceFor(c, r, s, d, m, k)
  {
  }

  lemma NonceWithPoint<T(!new)>(c: Curve<T>, r: int, s: int, d: int, m: int, w: int, n: int, a: T) returns (k: int)
    requires IsAbelian(c.g) && n == r * d + m && ModProd(w, s, 1) && IsRecovered(c, r, w, Times(c.g, d, c.gen), m, a)
    ensures ModProd(k, s, n % N) && a == Times(c.g, k, c.gen)
  {
    k := NonceOf(w, s, n);
    NoncePointIs(c, r, w, d, m, n, k);
    assert Open(OfModProd, 0);
  }

  lemma NoncePointIs<T(!new)>(c: Curve<T>, r: int, w: int, d: int, m: int, n: int, k: int)
    requires IsAbelian(c.g) && n == r * d + m && k == w * n
    ensures Recovered(c, r, w, Times(c.g, d, c.gen), m) == Times(c.g, k, c.gen)
  {
    LinearPoint(c, r, w, d, m);
  }

  lemma NonceAccepted<T(!new)>(c: Curve<T>, r: int, s: int, d: int, m: int, k: int)
    requires ValidCurve(c) && Fermat(N) && 0 < r < N && 0 < s < N && NonceFor(c, r, s, d, m, k)
    ensures Accepts(c, r, s, Times(c.g, d, c.gen), m)
  {
    var w := SomeInverse(s);
    NoncePoint(c, r, d, m, k, (r * d + m) % N, s, s, false, w, Recovered(c, r, w, Times(c.g, d, c.gen), m));
    assert Matches(c, r, Recovered(c, r, w, Times(c.g, d, c.gen), m));
  }

  lemma NonceOf(w: int, s: int, n: int) returns (k: int)
    requires ModProd(w, s, 1)
    ensures k == w * n && ModProd(k, s, n % N)
  {
    k := w * n;
    ModProdIs(w, s, 1);
    ModProdIs(k, s, n % N);
    MulModLeft(w * s, n, N);
    assert (w * n) * s == (w * s) * n;
  }

  lemma SomeInverse(s: int) returns (w: int)
    requires Fermat(N) && 0 < s < N
    ensures ModProd(w, s, 1)
  {
    InverseIsInverse(N, s);
    w := PowMod(N, s, N - 2);
    ModProdIs(w, s, 1);
  }

  lemma NegFinite<T(!new)>(c: Curve<T>, a: T)
    requires ValidCurve(c) && a != c.g.zero
    ensures c.g.neg(a) != c.g.zero && c.x(c.g.neg(a)) == c.x(a) && c.oddY(c.g.neg(a)) == !c.oddY(a)
  {
    Unit(c.g, a);
  }
}
