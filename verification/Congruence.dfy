/** Congruence modulo 65535 with explicit quotients, so that every step is linear. */
module Congruence {
  function Multiple(k: int): int {
    k * 0xFFFF
  }

  ghost predicate Cong(a: int, b: int) {
    exists k: int :: a - b == Multiple(k)
  }

  lemma CongBy(a: int, b: int, k: int)
    requires a == b + k * 0xFFFF
    ensures Cong(a, b)
  {
    assert a - b == Multiple(k);
  }

  lemma Quotient(a: int, b: int) returns (k: int)
    requires Cong(a, b)
    ensures a == b + k * 0xFFFF
  {
    k :| a - b == Multiple(k);
  }

  lemma CongSym(a: int, b: int)
    requires Cong(a, b)
    ensures Cong(b, a)
  {
    var k := Quotient(a, b);
    CongBy(b, a, -k);
  }

  lemma CongTrans(a: int, b: int, c: int)
    requires Cong(a, b) && Cong(b, c)
    ensures Cong(a, c)
  {
    var j := Quotient(a, b);
    var k := Quotient(b, c);
    CongBy(a, c, j + k);
  }

  lemma CongAdd(a: int, b: int, c: int, d: int)
    requires Cong(a, b) && Cong(c, d)
    ensures Cong(a + c, b + d)
  {
    var j := Quotient(a, b);
    var k := Quotient(c, d);
    CongBy(a + c, b + d, j + k);
  }

  lemma CongTimes256(a: int, b: int)
    requires Cong(a, b)
    ensures Cong(0x100 * a, 0x100 * b)
  {
    var k := Quotient(a, b);
    CongBy(0x100 * a, 0x100 * b, 0x100 * k);
  }

  /** 256 * 256 is 1 modulo 65535. */
  lemma Twice256(a: int)
    ensures Cong(0x100 * (0x100 * a), a)
  {
    CongBy(0x100 * (0x100 * a), a, a);
  }

  lemma SmallCong(a: int, b: int)
    requires Cong(a, b) && -0xFFFF < a - b < 0xFFFF
    ensures a == b
  {
    var k := Quotient(a, b);
  }
}
