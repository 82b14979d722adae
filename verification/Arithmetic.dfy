/** Facts about quotients, remainders and powers of two. */
module Arithmetic {

  lemma MulMono(x: int, y: int, n: nat)
    requires x <= y
    ensures x * n <= y * n
  {
  }

  /** Quotient and remainder are unique. */
  lemma Quotient(t: nat, n: nat, x: nat, m: nat)
    requires m < n && t == x * n + m
    ensures t / n == x && t % n == m
  {
    var q, r := t / n, t % n;
    assert q * n + r == x * n + m && r < n;
    if q < x { MulMono(q + 1, x, n); }
    if x < q { MulMono(x + 1, q, n); }
  }

  function Pow2(n: nat): (r: nat)
    ensures r > 0
  {
    if n == 0 then 1 else 2 * Pow2(n - 1)
  }

  lemma {:induction false} Pow2Mono(a: nat, b: nat)
    requires a <= b
    ensures Pow2(a) <= Pow2(b)
    decreases b
  {
    if a < b { Pow2Mono(a, b - 1); }
  }
}
