/** Multiplication of reals behind a name, with the few laws the interest arithmetic needs.
    Proofs go through these laws, so that the solver never has to search among polynomials. */
module Reals {

  function Times(x: real, y: real): real {
    x * y
  }

  lemma TimesPlus(a: real, b: real, c: real)
    ensures Times(a, b + c) == Times(a, b) + Times(a, c)
  {
  }

  lemma PlusTimes(a: real, b: real, c: real)
    ensures Times(a + b, c) == Times(a, c) + Times(b, c)
  {
  }

  lemma TimesSwap(a: real, b: real, c: real)
    ensures Times(a, Times(b, c)) == Times(b, Times(a, c))
    ensures Times(a, Times(b, c)) == Times(c, Times(b, a))
  {
  }

  lemma TimesCommute(a: real, b: real)
    ensures Times(a, b) == Times(b, a)
  {
  }

  lemma TimesOne(a: real)
    ensures Times(a, 1.0) == a && Times(1.0, a) == a
  {
  }

  lemma TimesOrder(m: real, a: real, b: real)
    requires m >= 0.0 && a <= b
    ensures Times(m, a) <= Times(m, b)
  {
    TimesSign(m, b - a);
    TimesPlus(m, a, b - a);
  }

  lemma TimesOrderStrict(m: real, a: real, b: real)
    requires m > 0.0 && a < b
    ensures Times(m, a) < Times(m, b)
  {
    assert m * (b - a) > 0.0;
  }

  lemma TimesSign(x: real, y: real)
    requires x >= 0.0 && y >= 0.0
    ensures Times(x, y) >= 0.0
  {
  }

  lemma TimesCancel(m: real, x: real, y: real)
    requires m != 0.0 && Times(m, x) == Times(m, y)
    ensures x == y
  {
    assert m * (x - y) == 0.0;
  }

  lemma DivideTimes(x: real, d: real)
    requires d != 0.0
    ensures Times(d, x / d) == x
  {
  }

  lemma TimesDivide(d: real, x: real, y: real)
    requires d != 0.0 && Times(d, x) == y
    ensures y / d == x
  {
  }

  /** If a and b are within c of each other, so are their multiples, within m times c. */
  lemma TimesSpread(m: real, a: real, b: real, c: real)
    requires m >= 0.0 && -c <= a - b <= c
    ensures -Times(m, c) <= Times(m, a) - Times(m, b) <= Times(m, c)
  {
    TimesOrder(m, a, b + c);
    TimesOrder(m, b, a + c);
    TimesPlus(m, b, c);
    TimesPlus(m, a, c);
  }

  lemma IntTimes(a: int, b: int)
    ensures (a * b) as real == Times(a as real, b as real)
  {
  }

  function Pow(q: real, k: nat): real {
    if k == 0 then 1.0 else Times(q, Pow(q, k - 1))
  }

  lemma {:induction false} PowGrows(q: real, k: nat)
    requires q > 1.0
    ensures Pow(q, k) >= 1.0 && (k >= 1 ==> Pow(q, k) > 1.0)
  {
    if k == 0 {
    } else {
      PowGrows(q, k - 1);
      TimesOrder(q, 1.0, Pow(q, k - 1));
      TimesOne(q);
    }
  }

  /** 1 + q + ... + q^(k-1). */
  function Geometric(q: real, k: nat): real {
    if k == 0 then 0.0 else Times(q, Geometric(q, k - 1)) + 1.0
  }

  lemma {:induction false} GeometricClosedForm(rate: real, q: real, k: nat)
    requires q == 1.0 + rate
    ensures Times(rate, Geometric(q, k)) == Pow(q, k) - 1.0
  {
    if k == 0 {
      assert Times(rate, 0.0) == 0.0;
    } else {
      var g, w := Geometric(q, k - 1), Pow(q, k - 1);
      GeometricClosedForm(rate, q, k - 1);
      TimesPlus(rate, Times(q, g), 1.0);
      TimesOne(rate);
      TimesSwap(rate, q, g);
      TimesPlus(q, w, -1.0);
      assert Times(q, -1.0) == -q;
    }
  }

  lemma {:induction false} UnitPowers(k: nat)
    ensures Pow(1.0, k) == 1.0 && Geometric(1.0, k) == k as real
  {
    if k == 0 {
    } else {
      UnitPowers(k - 1);
      TimesOne(Pow(1.0, k - 1));
      TimesOne(Geometric(1.0, k - 1));
    }
  }
}
