/** The few facts of multiplication and floor division the other modules need. */
module Arith {

  lemma MulStep(k: int, n: int)
    ensures (k + 1) * n == k * n + n
  {
  }

  // When a total grows by n for each of k new shares, what it lacks of n per share stays the same.
  lemma AddShares(total: int, total': int, i: int, j: int, k: int, n: int)
    requires total' == total + k * n && i == j + k
    ensures total' - i * n == total - j * n
  {
    assert (j + k) * n == j * n + k * n;
  }

  lemma MulMonotone(j: int, k: int, n: int)
    requires j <= k && 0 <= n
    ensures j * n <= k * n
  {
    assert (k - j) * n >= 0;
    assert k * n == j * n + (k - j) * n;
  }

  // Quotient and remainder are unique.
  lemma DivUnique(x: int, n: int, q: int, r: int)
    requires n > 0 && 0 <= r < n && x == q * n + r
    ensures x / n == q
  {
    var d := x / n - q;
    assert d * n == (x / n) * n - q * n;
    if d >= 1 {
      MulMonotone(1, d, n);
    } else if d <= -1 {
      MulMonotone(d, -1, n);
    }
  }

  lemma ExactDivision(x: int, n: int)
    requires n >= 1 && x >= 0 && x % n == 0
    ensures x == (x / n) * n && x / n >= 0
  {
  }
}
