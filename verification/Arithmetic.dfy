/** Small facts about products, quotients and remainders that the solver does not find on its own. */
module Arithmetic {
  function Min(a: int, b: int): int {
    if a < b then a else b
  }

  function Max(a: int, b: int): int {
    if a > b then a else b
  }

  lemma MulLe(a: int, b: int, d: int)
    requires a <= b && 0 <= d
    ensures a * d <= b * d
  {
  }

  lemma MulSplit(a: int, b: int, d: int)
    ensures (a + b) * d == a * d + b * d
  {
  }

  lemma DivMod(n: int, d: int)
    requires 0 < d
    ensures n == (n / d) * d + n % d && 0 <= n % d < d
  {
  }

  /** A quotient of a natural number is a natural number, and no larger. */
  lemma QuotientNat(n: int, d: int)
    requires 0 <= n && 0 < d
    ensures 0 <= n / d <= n
  {
    DivMod(n, d);
    var q := n / d;
    if q < 0 { MulLe(q, -1, d); }
    if q > n { MulLe(1, d, q); }
  }

  /** ceil(n / d), as (n + d - 1) / d. */
  lemma CeilingQuotient(n: int, d: int)
    requires 0 <= n && 0 < d
    ensures var q := (n + d - 1) / d; 0 <= q <= n && n <= q * d && (q - 1) * d < n
  {
    var q := (n + d - 1) / d;
    DivMod(n + d - 1, d);
    QuotientNat(n + d - 1, d);
    MulSplit(q, -1, d);
    if q > n {
      MulLe(n, q - 1, d);
      if n > 0 { MulLe(1, d, n); }
    }
  }

  lemma RemainderUnique(x: int, d: int, q: int, r: int)
    requires d > 0 && x == q * d + r && 0 <= r < d
    ensures x / d == q && x % d == r
  {
    DivMod(x, d);
    MulSplit(q, -(x / d), d);
    if q > x / d { MulLe(1, q - x / d, d); }
    if q < x / d { MulLe(q - x / d, -1, d); }
  }

  lemma RemainderOfRemainder(x: nat, m: nat, d: nat)
    requires m > 0 && d > 0 && m * d > 0
    ensures (x % (m * d)) % d == x % d
  {
    var q, r := x / (m * d), x % (m * d);
    DivMod(x, m * d);
    DivMod(r, d);
    assert q * (m * d) == (q * m) * d;
    MulSplit(q * m, r / d, d);
    RemainderUnique(x, d, q * m + r / d, r % d);
  }

  lemma RemainderAdd(x: nat, k: nat, d: nat)
    requires k < d
    ensures (x + k) % d == if x % d + k < d then x % d + k else x % d + k - d
  {
    var q, r := x / d, x % d;
    DivMod(x, d);
    MulSplit(q, 1, d);
    if r + k < d { RemainderUnique(x + k, d, q, r + k); } else { RemainderUnique(x + k, d, q + 1, r + k - d); }
  }

  lemma RemainderSum(x: nat, n: nat, d: nat)
    requires d > 0
    ensures (x % d + n) % d == (x + n) % d
  {
    var q, r := (x % d + n) / d, (x % d + n) % d;
    DivMod(x, d);
    DivMod(x % d + n, d);
    MulSplit(x / d, q, d);
    RemainderUnique(x + n, d, x / d + q, r);
  }
}
