/** The few facts about whole-number division that the timing bounds rest on, and powers of two. */
module Quotients {

  lemma MultiplesOrdered(d: int, p: int, q: int)
    requires d > 0 && d * p < d * q + d
    ensures p <= q
  {
    assert d * (p - q) == d * p - d * q;
    if p > q {
      AtLeastDivisor(d, p - q);
    }
  }

  lemma AtLeastDivisor(d: int, a: int)
    requires d > 0 && a >= 1
    ensures d * a >= d
  {
  }

  lemma Unique(x: int, d: int, q: int, r: int)
    requires d > 0 && 0 <= r < d && x == d * q + r
    ensures x / d == q
  {
    assert x == d * (x / d) + x % d;
    MultiplesOrdered(d, x / d, q);
    MultiplesOrdered(d, q, x / d);
  }

  lemma LessDivisor(x: int, d: int)
    requires d > 0
    ensures (x - d) / d == x / d - 1
  {
    assert x == d * (x / d) + x % d;
    assert d * (x / d - 1) == d * (x / d) - d;
    Unique(x - d, d, x / d - 1, x % d);
  }

  lemma Monotone(x: int, y: int, d: int)
    requires d > 0 && x <= y
    ensures x / d <= y / d
  {
    assert x == d * (x / d) + x % d && y == d * (y / d) + y % d;
    MultiplesOrdered(d, x / d, y / d);
  }

  function Pow2(n: nat): nat {
    if n == 0 then 1 else 2 * Pow2(n - 1)
  }
}
