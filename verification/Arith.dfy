/** Integer division facts used by the resampler and its closed form. */
module Arith {
  lemma MulMono(a: int, b: int, d: int)
    requires d >= 0 && a <= b
    ensures a * d <= b * d
  {
    assert (b - a) * d >= 0;
    assert b * d - a * d == (b - a) * d;
  }

  lemma DivMod(n: int, d: int)
    requires d > 0
    ensures n == n / d * d + n % d
    ensures 0 <= n % d < d
  {}

  /** `n / d` is the only quotient that leaves a remainder in range. */
  lemma DivIs(n: int, d: int, q: int)
    requires d > 0 && q * d <= n < (q + 1) * d
    ensures n / d == q
  {
    DivMod(n, d);
    if n / d < q { MulMono(n / d + 1, q, d); }
    if n / d > q { MulMono(q + 1, n / d, d); }
  }

  lemma DivMono(a: int, b: int, d: int)
    requires d > 0 && a <= b
    ensures a / d <= b / d
  {
    DivMod(a, d);
    DivMod(b, d);
    if b / d < a / d { MulMono(b / d + 1, a / d, d); }
  }

  /** Division as a bound, the form in which it is used most: `n / d < m` exactly when `n < m * d`. */
  lemma DivLess(n: int, d: int, m: int)
    requires d > 0
    ensures n / d < m <==> n < m * d
  {
    DivMod(n, d);
    if n / d < m { MulMono(n / d + 1, m, d); }
    if n / d >= m { MulMono(m, n / d, d); }
  }

  lemma DivShift(n: int, d: int, k: int)
    requires d > 0
    ensures (n + k * d) / d == n / d + k
    ensures (n + k * d) % d == n % d
  {
    DivMod(n, d);
    assert (n / d + k) * d == n / d * d + k * d;
    assert (n / d + k + 1) * d == n / d * d + k * d + d;
    DivIs(n + k * d, d, n / d + k);
    DivMod(n + k * d, d);
  }

  function CeilDiv(a: nat, b: int): nat
    requires b > 0
  {
    DivMono(0, a + b - 1, b);
    (a + b - 1) / b
  }

  /** `CeilDiv(a, b)` counts the multiples of `b` that lie in `[0, a)`. */
  lemma CeilDivCounts(a: nat, b: int, k: int)
    requires b > 0
    ensures k < CeilDiv(a, b) <==> k * b < a
  {
    DivLess(a + b - 1, b, k + 1);
    assert (k + 1) * b == k * b + b;
  }
}
