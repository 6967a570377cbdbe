/** An abelian group given by its operations, and integer multiples of its elements. */
module Group {

  datatype Ops<!T> = Ops(add: (T, T) -> T, neg: T -> T, zero: T)

  /** Names the elements at which a group law is to be used; always true. */
  predicate At<T>(x: T, y: T, z: T) {
    true
  }

  ghost predicate IsAbelian<T(!new)>(g: Ops<T>) {
    && (forall x, y, z {:trigger At(x, y, z)} :: g.add(g.add(x, y), z) == g.add(x, g.add(y, z)))
    && (forall x, y {:trigger At(x, y, y)} :: g.add(x, y) == g.add(y, x))
    && (forall x {:trigger At(x, x, x)} :: g.add(x, g.zero) == x && g.add(x, g.neg(x)) == g.zero)
  }

  lemma Assoc<T(!new)>(g: Ops<T>, x: T, y: T, z: T)
    requires IsAbelian(g)
    ensures g.add(g.add(x, y), z) == g.add(x, g.add(y, z))
  {
    assert At(x, y, z);
  }

  lemma Comm<T(!new)>(g: Ops<T>, x: T, y: T)
    requires IsAbelian(g)
    ensures g.add(x, y) == g.add(y, x)
  {
    assert At(x, y, y);
  }

  lemma Unit<T(!new)>(g: Ops<T>, x: T)
    requires IsAbelian(g)
    ensures g.add(x, g.zero) == x && g.add(g.zero, x) == x
    ensures g.add(x, g.neg(x)) == g.zero && g.add(g.neg(x), x) == g.zero
  {
    assert At(x, x, x);
    Comm(g, x, g.zero);
    Comm(g, x, g.neg(x));
  }

  /** (w + x) + (y + z) == (w + y) + (x + z) */
  lemma Exchange<T(!new)>(g: Ops<T>, w: T, x: T, y: T, z: T)
    requires IsAbelian(g)
    ensures g.add(g.add(w, x), g.add(y, z)) == g.add(g.add(w, y), g.add(x, z))
  {
    Assoc(g, w, x, g.add(y, z));
    Assoc(g, x, y, z);
    Comm(g, x, y);
    Assoc(g, y, x, z);
    Assoc(g, w, y, g.add(x, z));
  }

  lemma Cancel<T(!new)>(g: Ops<T>, x: T, y: T)
    requires IsAbelian(g)
    ensures g.add(g.add(x, y), g.neg(y)) == x
    ensures g.add(g.add(x, g.neg(y)), y) == x
  {
    Assoc(g, x, y, g.neg(y));
    Assoc(g, x, g.neg(y), y);
    Unit(g, y);
    Unit(g, x);
  }

  lemma InverseIsUnique<T(!new)>(g: Ops<T>, x: T, y: T)
    requires IsAbelian(g) && g.add(x, y) == g.zero
    ensures y == g.neg(x)
  {
    Assoc(g, g.neg(x), x, y);
    Unit(g, x);
    Unit(g, y);
    Unit(g, g.neg(x));
  }

  /** One; given as a function of x so that a multiple by a literal factor is not unrolled. */
  function One<T>(x: T): int {
    1
  }

  /** k * x for any integer k. */
  ghost function Times<T(!new)>(g: Ops<T>, k: int, x: T): T
    decreases if k < 0 then -k else k
  {
    if k == 0 then g.zero
    else if k > 0 then g.add(Times(g, k - One(x), x), x)
    else g.add(Times(g, k + One(x), x), g.neg(x))
  }

  lemma TimesStep<T(!new)>(g: Ops<T>, k: int, x: T)
    requires IsAbelian(g)
    ensures Times(g, k + 1, x) == g.add(Times(g, k, x), x)
    ensures Times(g, k - 1, x) == g.add(Times(g, k, x), g.neg(x))
  {
    if k <= 0 {
      Cancel(g, Times(g, k + 1, x), x);
    }
    if k < 0 {
      Cancel(g, Times(g, k + 1, x), x);
    }
    if k > 0 {
      Cancel(g, Times(g, k - 1, x), x);
    }
  }

  lemma {:induction false} TimesAdd<T(!new)>(g: Ops<T>, j: int, k: int, x: T)
    requires IsAbelian(g)
    ensures Times(g, j + k, x) == g.add(Times(g, j, x), Times(g, k, x))
    decreases if k < 0 then -k else k
  {
    var y := Times(g, j, x);
    if k == 0 {
      Unit(g, y);
    } else if k > 0 {
      TimesAdd(g, j, k - 1, x);
      TimesStep(g, j + k - 1, x);
      Assoc(g, y, Times(g, k - 1, x), x);
    } else {
      TimesAdd(g, j, k + 1, x);
      TimesStep(g, j + k + 1, x);
      Assoc(g, y, Times(g, k + 1, x), g.neg(x));
    }
  }

  lemma TimesOne<T(!new)>(g: Ops<T>, x: T)
    requires IsAbelian(g)
    ensures Times(g, 1, x) == x
    ensures Times(g, -1, x) == g.neg(x)
    ensures Times(g, 2, x) == g.add(x, x)
  {
    assert Times(g, 0, x) == g.zero;
    TimesStep(g, 0, x);
    TimesStep(g, 1, x);
    Unit(g, x);
    Unit(g, g.neg(x));
  }

  lemma TimesNeg<T(!new)>(g: Ops<T>, k: int, x: T)
    requires IsAbelian(g)
    ensures Times(g, -k, x) == g.neg(Times(g, k, x))
  {
    TimesAdd(g, k, -k, x);
    InverseIsUnique(g, Times(g, k, x), Times(g, -k, x));
  }

  lemma {:induction false} TimesSum<T(!new)>(g: Ops<T>, k: int, x: T, y: T)
    requires IsAbelian(g)
    ensures Times(g, k, g.add(x, y)) == g.add(Times(g, k, x), Times(g, k, y))
    decreases if k < 0 then -k else k
  {
    if k == 0 {
      Unit(g, g.zero);
    } else if k > 0 {
      TimesSum(g, k - 1, x, y);
      Exchange(g, Times(g, k - 1, x), Times(g, k - 1, y), x, y);
    } else {
      TimesSum(g, k + 1, x, y);
      Exchange(g, x, y, g.neg(x), g.neg(y));
      Unit(g, x);
      Unit(g, y);
      Unit(g, g.zero);
      InverseIsUnique(g, g.add(x, y), g.add(g.neg(x), g.neg(y)));
      Exchange(g, Times(g, k + 1, x), Times(g, k + 1, y), g.neg(x), g.neg(y));
    }
  }

  lemma {:induction false} TimesProduct<T(!new)>(g: Ops<T>, j: int, k: int, p: int, x: T)
    requires IsAbelian(g) && p == j * k
    ensures Times(g, j, Times(g, k, x)) == Times(g, p, x)
    decreases if j < 0 then -j else j
  {
    NeighbourProducts(j, k);
    if j > 0 {
      TimesProduct(g, j - 1, k, p - k, x);
      TimesAdd(g, p - k, k, x);
    } else if j < 0 {
      TimesProduct(g, j + 1, k, p + k, x);
      TimesNeg(g, k, x);
      TimesAdd(g, p + k, -k, x);
    }
  }

  lemma NeighbourProducts(j: int, k: int)
    ensures (j - 1) * k == j * k - k && (j + 1) * k == j * k + k
  {
  }

  lemma TimesTimes<T(!new)>(g: Ops<T>, j: int, k: int, x: T)
    requires IsAbelian(g)
    ensures Times(g, j, Times(g, k, x)) == Times(g, j * k, x)
  {
    TimesProduct(g, j, k, j * k, x);
  }

  lemma TimesCommute<T(!new)>(g: Ops<T>, j: int, k: int, x: T)
    requires IsAbelian(g)
    ensures Times(g, j, Times(g, k, x)) == Times(g, k, Times(g, j, x))
  {
    TimesProduct(g, j, k, j * k, x);
    TimesProduct(g, k, j, j * k, x);
  }

  lemma {:induction false} TimesZero<T(!new)>(g: Ops<T>, k: int)
    requires IsAbelian(g)
    ensures Times(g, k, g.zero) == g.zero
    decreases if k < 0 then -k else k
  {
    Unit(g, g.zero);
    InverseIsUnique(g, g.zero, g.zero);
    if k > 0 {
      TimesZero(g, k - 1);
    } else if k < 0 {
      TimesZero(g, k + 1);
    }
  }

  /** In a group of exponent n, multiples depend on the factor mod n only. */
  lemma TimesMod<T(!new)>(g: Ops<T>, k: int, n: int, x: T)
    requires IsAbelian(g) && n > 0 && Times(g, n, x) == g.zero
    ensures Times(g, k % n, x) == Times(g, k, x)
  {
    var q, r := k / n, k % n;
    TimesProduct(g, q, n, k - r, x);
    TimesZero(g, q);
    TimesAdd(g, k - r, r, x);
    Unit(g, Times(g, r, x));
  }

  lemma TimesModIs<T(!new)>(g: Ops<T>, s: int, n: int, k: int, x: T)
    requires IsAbelian(g) && n > 0 && Times(g, n, x) == g.zero && s % n == k
    ensures Times(g, s, x) == Times(g, k, x)
  {
    TimesMod(g, s, n, x);
  }

  ghost predicate IsEndomorphism<T(!new)>(g: Ops<T>, f: T -> T) {
    forall x, y {:trigger At(x, y, y)} :: f(g.add(x, y)) == g.add(f(x), f(y))
  }

  lemma EndomorphismBasics<T(!new)>(g: Ops<T>, f: T -> T, x: T)
    requires IsAbelian(g) && IsEndomorphism(g, f)
    ensures f(g.zero) == g.zero && f(g.neg(x)) == g.neg(f(x))
  {
    assert At(g.zero, g.zero, g.zero) && At(x, g.neg(x), g.neg(x));
    Unit(g, g.zero);
    Cancel(g, f(g.zero), f(g.zero));
    Unit(g, f(g.zero));
    Unit(g, x);
    InverseIsUnique(g, f(x), f(g.neg(x)));
  }

  lemma {:induction false} EndomorphismTimes<T(!new)>(g: Ops<T>, f: T -> T, k: int, x: T)
    requires IsAbelian(g) && IsEndomorphism(g, f)
    ensures f(Times(g, k, x)) == Times(g, k, f(x))
    decreases if k < 0 then -k else k
  {
    EndomorphismBasics(g, f, x);
    if k > 0 {
      EndomorphismTimes(g, f, k - 1, x);
      assert At(Times(g, k - 1, x), x, x);
    } else if k < 0 {
      EndomorphismTimes(g, f, k + 1, x);
      assert At(Times(g, k + 1, x), g.neg(x), g.neg(x));
    }
  }
}
