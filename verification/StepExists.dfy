/** dev/redundancy.patch: for which grids `findStep` finds a step. */
module StepExists {
  import opened Arith
  import opened Step

  /** Grids with a good step. */
  predicate HasStep(n: nat, m: nat) {
    n >= 2 && m >= 3 && !(n == 2 && m == 3)
  }

  lemma OneIsCoprime(s: nat, total: nat, x: int, y: int)
    requires x * s + y * total == 1
    ensures Gcd(s, total) == 1
  {
    hide Gcd;
    var p, q := GcdDivides(s, total);
    var g := Gcd(s, total);
    Factor(x, p, g);
    Factor(y, q, g);
    Distribute(x * p, 1, y * q, g);
    OneHasNoDivisor(x * p + y * q, g);
  }

  lemma Factor(x: int, p: int, g: int)
    ensures x * (p * g) == (x * p) * g
  {
  }

  lemma OneHasNoDivisor(k: int, g: nat)
    requires k * g == 1
    ensures g == 1
  {
    if g >= 2 {
      if k >= 1 {
        MulLe(1, k, g);
      } else {
        MulLe(k, 0, g);
      }
    }
  }

  /** Half of the slots, less a little, is coprime to their number. */
  function NearHalf(total: nat): int {
    if total % 2 == 1 then (total - 1) / 2
    else if total % 4 == 0 then total / 2 - 1
    else total / 2 - 2
  }

  lemma NearHalfIsCoprime(total: nat)
    requires total >= 6
    ensures 1 <= NearHalf(total) && Gcd(NearHalf(total), total) == 1
  {
    hide Gcd;
    var s := NearHalf(total);
    if total % 2 == 1 {
      OfOdd(s, total);
    } else if total % 4 == 0 {
      OfFour(total / 4, s, total);
    } else {
      OfFourAndTwo(total / 4, s, total);
    }
  }

  lemma OfOdd(s: nat, total: nat)
    requires total == 2 * s + 1
    ensures Gcd(s, total) == 1
  {
    hide Gcd;
    OneIsCoprime(s, total, -2, 1);
  }

  lemma OfFour(k: nat, s: nat, total: nat)
    requires k >= 1 && total == 4 * k && s == 2 * k - 1
    ensures Gcd(s, total) == 1
  {
    hide Gcd;
    Square(k);
    OneIsCoprime(s, total, 2 * k - 1, -(k - 1));
  }

  lemma Square(k: int)
    ensures (2 * k - 1) * (2 * k - 1) + -(k - 1) * (4 * k) == 1
  {
  }

  lemma OfFourAndTwo(k: nat, s: nat, total: nat)
    requires total == 4 * k + 2 && s == 2 * k - 1
    ensures Gcd(s, total) == 1
  {
    hide Gcd;
    var j := s / 4;
    if s % 4 == 1 {
      LessByFour(j);
      assert s == 4 * j + 1 && total == 8 * j + 6;
      OneIsCoprime(s, total, 1 + 2 * j, -j);
    } else {
      MoreByFour(j);
      assert s == 4 * j + 3 && total == 8 * j + 10;
      OneIsCoprime(s, total, -(2 * j + 3), j + 1);
    }
  }

  lemma LessByFour(j: int)
    ensures (1 + 2 * j) * (4 * j + 1) + -j * (8 * j + 6) == 1
  {
  }

  lemma MoreByFour(j: int)
    ensures -(2 * j + 3) * (4 * j + 3) + (j + 1) * (8 * j + 10) == 1
  {
  }

  lemma CoprimeIsNoMultiple(s: nat, n: nat, m: nat)
    requires n >= 2 && Gcd(s, n * m) == 1
    ensures s % n != 0
  {
    hide Gcd;
    if s % n == 0 {
      var x, y := Bezout(s, n * m);
      var c := s / n;
      assert s == c * n;
      Factor(x, c, n);
      Factor(y, m, n);
      assert n * m == m * n;
      Distribute(x * c, 1, y * m, n);
      OneHasNoDivisor(x * c + y * m, n);
    }
  }

  lemma AtMostHalfPasses(s: nat, n: nat, m: nat)
    requires n >= 2 && m >= 3 && n <= s && 2 * s <= n * m && Gcd(s, n * m) == 1
    ensures Passes(s, n, m)
  {
    hide Gcd, Passes;
    CoprimeIsNoMultiple(s, n, m);
    var q := s / n;
    QuotientOfHalf(s, q, n, m);
    ModSmall(q, m);
    ModSmall(q + 1, m);
    TestsFail(s, n, m);
  }

  lemma QuotientOfHalf(s: nat, q: nat, n: nat, m: nat)
    requires n >= 2 && m >= 3 && n <= s && 2 * s <= n * m && q == s / n
    ensures 1 <= q && q + 1 < m
  {
    assert s == q * n + s % n;
    if q == 0 {
      ModSmall(s, n);
    }
    assert n * m == m * n && (m + 1) * n == m * n + n && (2 * q) * n == 2 * (q * n);
    if q + 1 >= m {
      MulLe(2 * (m - 1), 2 * q, n);
      MulLe(m + 1, 2 * (m - 1), n);
    }
  }

  lemma NearHalfIsInside(n: nat, m: nat)
    requires HasStep(n, m)
    ensures n * m >= 6 && n <= NearHalf(n * m) && 2 * NearHalf(n * m) <= n * m
  {
    var total := n * m;
    assert n * m == m * n;
    MulLe(3, m, n);
    if n == 2 {
      MulLe(4, m, n);
    } else if n == 3 && m == 3 {
      assert total == 9;
    } else if n == 3 {
      MulLe(4, m, n);
    }
  }

  lemma GridIsLarger(s: nat, total: nat)
    requires 1 <= s && 2 * s <= total
    ensures 1 <= s < total
  {
  }

  lemma SmallGrid()
    ensures forall s: nat :: !GoodStep(s, 2, 3)
  {
    assert Gcd(3, 6) == Gcd(6, 3) == Gcd(3, 0) == 3;
    assert Gcd(4, 6) == Gcd(6, 4) == Gcd(4, 2) == Gcd(2, 0) == 2;
    hide Gcd, GoodStep;
    forall s: nat ensures !GoodStep(s, 2, 3) {
      if GoodStep(s, 2, 3) {
        InGrid(s, 2, 3);
        GoodStepNeeds(s, 2, 3);
        assert s == 3 || s == 4 || s == 5;
        PassesIffGood(s, 2, 3);
      }
    }
  }

  /** There is a good step exactly for two or more sources and three or more destinations, but
      not for two and three. */
  lemma GoodStepExistsIff(n: nat, m: nat)
    ensures (exists s: nat :: GoodStep(s, n, m)) <==> HasStep(n, m)
  {
    hide GoodStep, Passes, Gcd;
    if s: nat :| GoodStep(s, n, m) {
      GoodStepNeeds(s, n, m);
      if n == 2 && m == 3 {
        SmallGrid();
      }
    }
    if HasStep(n, m) {
      var s := NearHalf(n * m);
      NearHalfIsInside(n, m);
      NearHalfIsCoprime(n * m);
      GridIsLarger(s, n * m);
      AtMostHalfPasses(s, n, m);
      PassesIffGood(s, n, m);
      assert GoodStep(s, n, m);
    }
  }
}
