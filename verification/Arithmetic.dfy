/** The few facts about products, quotients and remainders the index computations rest on. */
module Arithmetic {
  lemma {:induction false} MulMonotone(a: nat, b: nat, d: nat)
    requires a <= b
    ensures a * d <= b * d
    decreases b - a
  {
    if a < b {
      MulMonotone(a, b - 1, d);
      assert b * d == (b - 1) * d + d;
    }
  }

  lemma MulOrder(a: nat, b: nat, d: nat)
    requires d > 0
    ensures a <= b <==> a * d <= b * d
    ensures a < b <==> a * d + d <= b * d
  {
    if a < b {
      MulMonotone(a + 1, b, d);
      assert (a + 1) * d == a * d + d;
    } else {
      MulMonotone(b, a, d);
    }
  }

  /** Quotient and remainder are determined by `n == q * d + r` with `r < d`. */
  lemma DivModUnique(n: nat, d: nat, q: nat, r: nat)
    requires n == q * d + r && r < d
    ensures n / d == q && n % d == r
  {
    assert n == (n / d) * d + n % d;
    MulOrder(n / d, q, d);
    MulOrder(q, n / d, d);
  }

  lemma DivMonotone(a: nat, b: nat, d: nat)
    requires d > 0 && a <= b
    ensures a / d <= b / d
    ensures a / d == b / d ==> a % d <= b % d
  {
    assert a == (a / d) * d + a % d;
    assert b == (b / d) * d + b % d;
    MulOrder(b / d, a / d, d);
  }

  lemma MulSucc(a: nat, d: nat)
    ensures (a + 1) * d == a * d + d
  {
  }

  /** The block a token falls in starts at or before it and ends after it. */
  lemma BlockBounds(n: nat, d: nat, k: nat)
    requires d > 0
    ensures k == n / d ==> k * d <= n < k * d + d
    ensures k < n / d ==> k * d + d <= n
    ensures k > n / d ==> n < k * d
  {
    assert n == (n / d) * d + n % d;
    if k < n / d {
      MulOrder(k, n / d, d);
    } else if k > n / d {
      MulOrder(n / d, k, d);
    }
  }
}
