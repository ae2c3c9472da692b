/** Remainders and quotients by a number that is not a constant. */
module Modular {

  lemma {:induction false} ShiftUp(x: int, k: nat, n: nat)
    requires n > 0
    ensures (x + k * n) % n == x % n
  {
    if k > 0 {
      ShiftUp(x, k - 1, n);
      assert x + k * n == (x + (k - 1) * n) + n;
      AddModulus(x + (k - 1) * n, n);
    }
  }

  lemma AddModulus(x: int, n: nat)
    requires n > 0
    ensures (x + n) % n == x % n
  {
    var q, r := x / n, x % n;
    assert x + n == (q + 1) * n + r by {
      assert (q + 1) * n == q * n + n;
    }
    QuotientOnce(x + n, n, q + 1, r);
  }

  lemma QuotientOnce(x: int, n: nat, q: int, r: int)
    requires n > 0 && 0 <= r < n && x == q * n + r
    ensures x % n == r
  {
    var d := x / n - q;
    assert x == (x / n) * n + x % n;
    assert d * n == (x / n) * n - q * n;
    assert d * n == r - x % n;
    if d != 0 {
      MultipleIsFar(d, n);
    }
  }

  lemma MultipleIsFar(d: int, n: nat)
    requires n > 0 && d != 0
    ensures d * n >= n || d * n + n <= 0
  {
  }

  lemma Shift(x: int, k: int, n: nat)
    requires n > 0
    ensures (x + k * n) % n == x % n
  {
    if k >= 0 {
      ShiftUp(x, k, n);
    } else {
      ShiftUp(x + k * n, -k, n);
      assert (x + k * n) + (-k) * n == x;
    }
  }

  lemma QuotientBounds(x: nat, n: nat)
    requires n > 0
    ensures x / n * n <= x < x / n * n + n
  {
  }
}
