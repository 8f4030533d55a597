/** Small facts about integer multiplication and remainder used by the percentage and
    carousel proofs. */
module Arith {
  /** A positive factor can be cancelled from a non-strict inequality. */
  lemma MulCancelLe(n: int, a: int, b: int)
    requires n > 0 && n * a <= n * b
    ensures a <= b
  {
  }

  /** A positive factor can be cancelled from a strict inequality. */
  lemma MulCancelLt(n: int, a: int, b: int)
    requires n > 0 && n * a < n * b
    ensures a < b
  {
  }

  /** The remainder is determined by any quotient/remainder decomposition. */
  lemma ModUnique(a: int, n: int, q: int, r: int)
    requires n > 0 && 0 <= r < n && a == q * n + r
    ensures a % n == r
  {
    var q', r' := a / n, a % n;
    assert n * (q - q') == r' - r;
    MulCancelLt(n, q - q', 1);
    MulCancelLt(n, -1, q - q');
  }

  /** Taking the remainder before adding one does not change the result. */
  lemma ModSucc(x: nat, n: nat)
    requires n > 0
    ensures (x % n + 1) % n == (x + 1) % n
  {
    var q, r := x / n, x % n;
    if r + 1 < n {
      ModUnique(x + 1, n, q, r + 1);
      ModUnique(r + 1, n, 0, r + 1);
    } else {
      assert x + 1 == (q + 1) * n + 0;
      ModUnique(x + 1, n, q + 1, 0);
      ModUnique(r + 1, n, 1, 0);
    }
  }
}
