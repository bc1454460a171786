/** Division with remainder by a variable divisor. */
module Arith {
  lemma MulLe(a: int, b: int, c: nat)
    requires a <= b
    ensures a * c <= b * c
  {
  }

  lemma SmallMultiple(d: int, n: nat, e: int)
    requires d * n == e && e < n && -e < n
    ensures d == 0
  {
    if d >= 1 {
      MulLe(1, d, n);
    } else if d <= -1 {
      MulLe(d, -1, n);
    }
  }

  lemma DivModUnique(t: int, n: nat, q: int, r: int)
    requires 0 <= r < n && t == q * n + r
    ensures t / n == q && t % n == r
  {
    var d := t / n - q;
    assert t == (t / n) * n + t % n;
    assert d * n == (t / n) * n - q * n;
    SmallMultiple(d, n, r - t % n);
  }

  /** Adding a multiple of `n` does not change the remainder. */
  lemma ModPlus(a: int, k: int, n: nat)
    requires n > 0
    ensures (a + k * n) % n == a % n
  {
    var q, r := a / n, a % n;
    assert a == q * n + r;
    assert a + k * n == (q + k) * n + r;
    DivModUnique(a + k * n, n, q + k, r);
  }

  lemma ModAdd(a: int, b: int, n: nat)
    requires n > 0
    ensures (a % n + b) % n == (a + b) % n
  {
    assert a == (a / n) * n + a % n;
    assert a % n + b == (a + b) + (-(a / n)) * n;
    ModPlus(a + b, -(a / n), n);
  }

  lemma ModSmall(a: nat, n: nat)
    requires a < n
    ensures a % n == a && a / n == 0
  {
    DivModUnique(a, n, 0, a);
  }

  /** Equal remainders mean a difference that is a multiple. */
  lemma SameMod(a: int, b: int, n: nat) returns (k: int)
    requires n > 0 && a % n == b % n
    ensures a - b == k * n
  {
    k := a / n - b / n;
    assert a == (a / n) * n + a % n && b == (b / n) * n + b % n;
  }
}
