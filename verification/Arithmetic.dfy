/**
 Products, quotients and remainders of natural numbers.
 */
module Arithmetic {

  lemma Multiple(d: int, n: nat)
    ensures d >= 1 ==> d * n >= n
    ensures d <= -1 ==> d * n + n <= 0
  {
  }

  lemma Larger(a: nat, b: nat, c: nat)
    requires b <= c
    ensures a * b <= a * c
  {
    assert a * c - a * b == a * (c - b);
  }

  lemma Quotient(a: nat, q: int, rest: nat, r: nat)
    requires rest < r && a == q * r + rest
    ensures a / r == q && a % r == rest
  {
    var d := q - a / r;
    assert d * r == q * r - a / r * r;
    assert d * r == a % r - rest;
    Multiple(d, r);
  }

  lemma QuotientBelow(a: nat, r: nat, c: nat)
    requires a < c * r
    ensures r > 0 && a / r < c
  {
    var d := a / r - c;
    assert a == a / r * r + a % r;
    assert d * r == a / r * r - c * r;
    Multiple(d, r);
  }

  lemma QuotientAtLeast(a: nat, r: nat, k: nat)
    requires r > 0 && k * r <= a
    ensures a / r >= k
  {
    var d := k - a / r;
    assert a == a / r * r + a % r;
    assert d * r == k * r - a / r * r;
    Multiple(d, r);
  }

  /** Numbers below the modulus that differ by a multiple of it are the same. */
  lemma Congruent(a: nat, b: nat, k: int, n: nat)
    requires a < n && b < n && a == b + k * n
    ensures a == b
  {
    Multiple(k, n);
  }
}
