/** Facts about multiplication and division that the length bounds rest on. */
module Arithmetic {

  lemma DivBounds(a: nat, b: nat)
    requires b > 0
    ensures (a / b) * b <= a < (a / b) * b + b
  {}

  lemma MulUp(a: nat, b: nat, c: nat)
    requires a <= b
    ensures a * c <= b * c && c * a <= c * b
  {
    assert b * c == a * c + (b - a) * c;
  }

  lemma AtMostQuotient(n: nat, total: nat, d: nat)
    requires d > 0 && n * d <= total + d
    ensures n <= total / d + 1
  {
    var q := total / d;
    DivBounds(total, d);
    assert (q + 2) * d == q * d + 2 * d;
    if n >= q + 2 { MulUp(q + 2, n, d); }
  }

  lemma QuotientAtMost(a: nat, b: nat, k: nat)
    requires b > 0 && a < k * b + b
    ensures a / b <= k
  {
    DivBounds(a, b);
    if a / b >= k + 1 {
      MulUp(k + 1, a / b, b);
    }
  }

  lemma QuotientAtLeast(a: nat, b: nat, k: nat)
    requires b > 0 && k * b <= a
    ensures k <= a / b
  {
    DivBounds(a, b);
    if a / b + 1 <= k {
      MulUp(a / b + 1, k, b);
    }
  }
}
