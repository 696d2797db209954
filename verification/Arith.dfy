// Small facts about products and quotients of unbounded naturals. They are kept free of
// machine-width constants so that each one is a quick proof.

module Arith {
  lemma MulMono(a: nat, b: nat, c: nat)
    requires a <= b
    ensures a * c <= b * c
  {
    assert (b - a) * c >= 0;
  }

  lemma MulAtLeast(a: nat, c: nat)
    requires c >= 1
    ensures a <= a * c
  {
    MulMono(1, c, a);
  }

  lemma MulCancel(a: nat, b: nat, c: nat)
    requires a * c < b * c
    ensures a < b
  {
    if b <= a {
      MulMono(b, a, c);
    }
  }

  lemma DivRemainder(t: nat, c: nat)
    requires c > 0
    ensures (t / c) * c <= t < (t / c) * c + c
    ensures t / c <= t
  {
    MulAtLeast(t / c, c);
  }

  // A quotient lies between the bounds of its dividend.
  lemma DivBetween(lo: nat, hi: nat, t: nat, c: nat)
    requires c > 0 && lo * c <= t <= hi * c
    ensures lo <= t / c <= hi
  {
    DivRemainder(t, c);
    var q := t / c;
    assert (q + 1) * c == q * c + c;
    MulCancel(lo, q + 1, c);
    assert (hi + 1) * c == hi * c + c;
    MulCancel(q, hi + 1, c);
  }

  // Comparing against a quotient is comparing against a product, without overflow.
  lemma DivTest(a: nat, b: nat, limit: nat)
    requires b > 0
    ensures a > limit / b <==> a * b > limit
  {
    DivRemainder(limit, b);
    var q := limit / b;
    if a > q {
      MulMono(q + 1, a, b);
      assert (q + 1) * b == q * b + b;
    } else {
      MulMono(a, q, b);
    }
  }

  lemma ModUnique(a: nat, m: nat, q: nat, r: nat)
    requires r < m && a == q * m + r
    ensures a % m == r
  {
    DivRemainder(a, m);
    var p := a / m;
    assert (p + 1) * m == p * m + m && (q + 1) * m == q * m + m;
    MulCancel(q, p + 1, m);
    MulCancel(p, q + 1, m);
  }

  lemma ModStep(a: nat, m: nat)
    requires m > 0
    ensures (a + 1) % m == if a % m == m - 1 then 0 else a % m + 1
    ensures 0 % m == 0
  {
    var q, r := a / m, a % m;
    assert a == q * m + r;
    if r == m - 1 {
      assert (q + 1) * m == q * m + m;
      ModUnique(a + 1, m, q + 1, 0);
    } else {
      ModUnique(a + 1, m, q, r + 1);
    }
  }

  lemma ModWrap(a: nat, m: nat)
    requires a < m + m
    ensures a % m == if a < m then a else a - m
  {
    if a < m {
      ModUnique(a, m, 0, a);
    } else {
      ModUnique(a, m, 1, a - m);
    }
  }

  lemma DivMod(a: nat, m: nat)
    requires m > 0
    ensures a == (a / m) * m + a % m
    ensures a % m < m
  {
  }

  lemma Distribute(q: nat, s: nat, m: nat)
    ensures (q + s) * m == q * m + s * m
  {
  }

  lemma ModAdd(a: nat, b: nat, m: nat)
    requires m > 0
    ensures (a % m + b) % m == (a + b) % m
  {
    DivMod(a, m);
    var q, r := a / m, a % m;
    ModAddQuotient(a, b, m, q, r);
  }

  lemma ModAddQuotient(a: nat, b: nat, m: nat, q: nat, r: nat)
    requires m > 0 && a == q * m + r
    ensures (r + b) % m == (a + b) % m
  {
    DivMod(r + b, m);
    var s, t := (r + b) / m, (r + b) % m;
    Distribute(q, s, m);
    ModUnique(a + b, m, q + s, t);
  }
}
