/**
 * The few pieces of Python numeric behaviour the label generator relies on:
 * `int(r)` on a real, which truncates toward zero, and `min`/`max` on integers.
 * Reals are exact here; IEEE double rounding is not modelled.
 */
module Numeric {

  /** Python's `int(r)`: the integer part of `r`, rounding toward zero. */
  function Trunc(r: real): (t: int)
    ensures r >= 0.0 ==> 0 <= t && t as real <= r < t as real + 1.0
    ensures r < 0.0 ==> t <= 0 && t as real - 1.0 < r <= t as real
  {
    if r >= 0.0 then r.Floor else -((-r).Floor)
  }

  function Min(a: int, b: int): (m: int)
    ensures m <= a && m <= b && (m == a || m == b)
  {
    if a <= b then a else b
  }

  function Max(a: int, b: int): (m: int)
    ensures m >= a && m >= b && (m == a || m == b)
  {
    if a >= b then a else b
  }

  /** Truncation never reverses the order of two reals. */
  lemma TruncMonotone(r1: real, r2: real)
    requires r1 <= r2
    ensures Trunc(r1) <= Trunc(r2)
  {
  }

  /** On a non-negative quotient, truncation is Dafny's integer division. */
  lemma TruncOfQuotient(n: int, d: int)
    requires d > 0
    ensures n >= 0 ==> Trunc(n as real / d as real) == n / d
  {
    var q, m := n / d, n % d;
    assert n == q * d + m && 0 <= m < d;
    assert n as real / d as real == q as real + m as real / d as real;
    assert 0.0 <= m as real / d as real < 1.0;
  }
}
