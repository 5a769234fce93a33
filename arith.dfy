/** Integer facts used by the block-index layouts: division and remainder by a
    block size, and the absolute value used for bin separations. */
module Arith {

  function Abs(x: int): (r: nat)
    ensures r == x || r == -x
  {
    if x < 0 then -x else x
  }

  lemma MulAtLeast(x: int, n: int)
    requires x >= 1 && n > 0
    ensures x * n >= n
  {
  }

  /** A non-empty range of k blocks of size n has n > 0. */
  lemma PositiveFactor(a: int, k: nat, n: nat)
    requires 0 <= a < k * n
    ensures n > 0
  {
  }

  /** One more block of size m. */
  lemma MulSucc(k: int, m: int)
    ensures (k - 1) * m + m == k * m
  {
  }

  /** The quotient and remainder of q * n + a by n, for 0 <= a < n. */
  lemma DivModUnique(r: int, n: int, q: int, a: int)
    requires n > 0 && 0 <= a < n && r == q * n + a
    ensures r / n == q && r % n == a
  {
    var d, m := r / n, r % n;
    assert r == d * n + m;
    assert (q - d) * n == m - a;
    if q > d {
      MulAtLeast(q - d, n);
    } else if q < d {
      MulAtLeast(d - q, n);
    }
  }

  /** An index below k * n lies in one of the k blocks of size n. */
  lemma DivBound(r: int, k: int, n: int)
    requires n > 0 && 0 <= r < k * n
    ensures 0 <= r / n < k
  {
  }

  /** The quotient by n is the number of whole blocks of size n below r. */
  lemma DivFloor(r: int, n: int)
    requires n > 0
    ensures (r / n) * n <= r < (r / n) * n + n
  {
  }

  /** Reducing modulo a multiple of n first does not change the remainder by n. */
  lemma ModMod(r: int, k: int, n: int)
    requires n > 0 && k > 0 && r >= 0
    ensures (r % (k * n)) % n == r % n
  {
    var b := k * n;
    var q, m := r / b, r % b;
    assert r == q * b + m;
    assert r == (q * k) * n + m;
    var q2, a := m / n, m % n;
    assert m == q2 * n + a;
    assert r == (q * k + q2) * n + a;
    DivModUnique(r, n, q * k + q2, a);
  }

  /** Row (block, offset) of a block-structured index. */
  lemma BlockIndex(p: int, a: int, n: int)
    requires n > 0 && p >= 0 && 0 <= a < n
    ensures (p * n + a) / n == p && (p * n + a) % n == a
  {
    DivModUnique(p * n + a, n, p, a);
  }

  /** Block p, offset a of blocks of size n lies below k * n when p < k. */
  lemma BlockInRange(p: int, a: int, n: int, k: int)
    requires 0 <= p < k && 0 <= a < n
    ensures 0 <= p * n + a < k * n
  {
    MulAtLeast(k - p, n);
    assert k * n - p * n == (k - p) * n;
  }
}
