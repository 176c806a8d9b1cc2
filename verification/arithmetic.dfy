/** Order and sign facts about products. */
module Arithmetic {

  lemma StrictlyLess(m: int, n: int, b: int)
    requires b > 0 && m * b < n * b
    ensures m < n
  {
    if n <= m {
      Scaled(n, m, b);
    }
  }

  lemma Scaled(m: int, n: int, b: int)
    requires m <= n && b >= 0
    ensures m * b <= n * b
  {
    assert (n - m) * b >= 0;
  }

  lemma NonNegativeProduct(x: real, y: real)
    requires x >= 0.0 && y >= 0.0
    ensures x * y >= 0.0
  {
  }
}
