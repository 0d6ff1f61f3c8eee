/** Facts about products, quotients and remainders that several components need. */
module Arithmetic {

  lemma Scaled(a: nat, b: nat, n: nat)
    requires a <= b
    ensures a * n <= b * n
  {
  }

  lemma Less(p: nat, q: nat, n: nat, m: nat, r: nat)
    requires m < n
    ensures p < q ==> p * n + m < q * n + r
  {
    if p < q { Scaled(p + 1, q, n); }
  }

  // Quotient and remainder are determined by the product form.
  lemma Unique(a: nat, n: nat, q: nat, r: nat)
    requires n > 0 && r < n && a == q * n + r
    ensures a / n == q && a % n == r
  {
    var p, m := a / n, a % n;
    assert p * n + m == q * n + r;
    Less(p, q, n, m, r);
    Less(q, p, n, r, m);
  }

  lemma SubtractOnce(a: nat, n: nat)
    requires 0 < n <= a
    ensures (a - n) % n == a % n
  {
    var q, r := a / n, a % n;
    assert a == q * n + r && q > 0;
    assert a - n == (q - 1) * n + r;
    Unique(a - n, n, q - 1, r);
  }

  lemma DividesThrough(a: nat, m: nat, n: nat)
    requires m > 0 && n > 0 && a % m == 0 && m % n == 0
    ensures a % n == 0
  {
    var q, r := a / m, m / n;
    assert a == q * m && m == r * n;
    assert a == (q * r) * n;
    Unique(a, n, q * r, 0);
  }

  lemma TimesTwo(a: nat, h: nat)
    ensures a * (2 * h) == 2 * (a * h)
  {
  }
}
