/**
 Quotient and remainder of naturals, and nonlinear facts proved once in a context of
 their own. `Quot` and `Rem` are `/` and `%` (lemma `QuotIsDiv`), defined by repeated
 subtraction so that division by a variable never reaches a larger proof.
 */
module Arith {

  function Quot(n: nat, d: nat): (q: nat)
    requires d >= 1
  {
    if n < d then 0 else 1 + Quot(n - d, d)
  }

  function Rem(n: nat, d: nat): (r: nat)
    requires d >= 1
    ensures r < d
  {
    if n < d then n else Rem(n - d, d)
  }

  lemma {:induction false} DivMod(n: nat, d: nat)
    requires d >= 1
    ensures n == Quot(n, d) * d + Rem(n, d)
  {
    if n >= d {
      DivMod(n - d, d);
      assert (1 + Quot(n - d, d)) * d == d + Quot(n - d, d) * d;
    }
  }

  /** q and u are the quotient and remainder of q * p + u. */
  lemma {:induction false} QuotientOfSum(q: nat, u: nat, p: nat)
    requires p >= 1 && u < p
    ensures Quot(Times(q, p) + u, p) == q && Rem(Times(q, p) + u, p) == u
  {
    if q > 0 {
      assert Times(q, p) - p == (q - 1) * p;
      QuotientOfSum(q - 1, u, p);
    }
  }

  lemma QuotIsDiv(n: nat, d: nat)
    requires d >= 1
    ensures Quot(n, d) == n / d && Rem(n, d) == n % d
  {
    DivMod(n, d);
    assert n == (n / d) * d + n % d;
    Unique(n / d, n % d, Quot(n, d), Rem(n, d), d);
  }

  lemma Unique(a: int, r: nat, b: int, s: nat, p: nat)
    requires r < p && s < p && a * p + r == b * p + s
    ensures a == b && r == s
  {
    if a < b {
      MulMono(a + 1, b, p);
    }
    if b < a {
      MulMono(b + 1, a, p);
    }
  }

  lemma MulTen(a: int, b: int)
    ensures a * (10 * b) == 10 * (a * b) == (10 * a) * b
  {}

  lemma MulMono(a: int, b: int, c: nat)
    requires a <= b
    ensures a * c <= b * c
  {}

  /** Product of naturals, as a natural. */
  function Times(a: nat, b: nat): (r: nat)
    ensures r == a * b
  {
    MulMono(0, a, b);
    a * b
  }

  lemma Distribute(a: int, b: int, c: int, d: int)
    ensures (a + b + c) * d == a * d + b * d + c * d
  {}

  lemma Swap(a: int, b: int, c: int)
    ensures a * b * c == a * c * b
  {}

  lemma FractionBelowOne(m: nat, den: nat, p: nat)
    requires m < den && p >= 1
    ensures Quot(Times(m, p), den) < p
  {
    var k := Quot(Times(m, p), den);
    MulMono(m + 1, den, p);
    DivMod(Times(m, p), den);
    if p <= k {
      MulMono(p, k, den);
    }
  }
}
