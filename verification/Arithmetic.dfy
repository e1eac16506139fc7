/** Division by facts about products. */
module Arithmetic {
  lemma {:induction false} Quotient(m: nat, n: nat, k: nat)
    requires 0 < n
    ensures n * k <= m ==> k <= m / n
    ensures n * k <= m < n * k + n ==> k == m / n
  {
    var q := m / n;
    assert n * q <= m < n * q + n;
    Multiples(n, q, k);
    Multiples(n, k, q);
  }

  lemma {:induction false} Multiples(n: nat, a: nat, b: nat)
    ensures a < b ==> n * a + n <= n * b
    decreases b
  {
    if a < b {
      assert n * b == n * (b - 1) + n;
      Multiples(n, a, b - 1);
    }
  }

  lemma {:induction false} FewerTimes(a: nat, b: nat, c: nat)
    requires a <= b
    ensures a * c <= b * c && (a < b ==> a * c + c <= b * c)
  {
    Multiples(c, a, b);
  }
}
