/** dev/redundancy.patch: the search for a step through an N*M slot grid that visits every slot
    and changes both endpoints each time. */
module Step {
  import opened Arith

  // ---------------------------------------------------------------- greatest common divisor

  function Gcd(a: nat, b: nat): nat
    decreases b
  {
    if b == 0 then a else Gcd(b, a % b)
  }

  /** `gcdN`. */
  method GcdN(x: nat, y: nat) returns (g: nat)
    ensures g == Gcd(x, y)
  {
    var a, b := x, y;
    while b != 0
      invariant Gcd(a, b) == Gcd(x, y)
      decreases b
    {
      var t := b;
      b := a % b;
      a := t;
    }
    g := a;
  }

  lemma Distribute(u: int, c: int, v: int, g: int)
    ensures (u * c + v) * g == (u * g) * c + v * g
  {
  }

  lemma BezoutStep(a: int, b: int, c: int, r: int, u: int, v: int, g: int)
    requires a == b * c + r && b * u + r * v == g
    ensures a * v + b * (u - c * v) == g
  {
    calc {
      a * v + b * (u - c * v);
      { Distribute(b, c, r, v); }
      (b * v) * c + r * v + b * u - b * (c * v);
      { assert (b * v) * c == b * (c * v); }
      g;
    }
  }

  lemma {:induction false} GcdDivides(a: nat, b: nat) returns (p: int, q: int)
    ensures a == p * Gcd(a, b) && b == q * Gcd(a, b)
    decreases b
  {
    if b == 0 {
      p, q := 1, 0;
    } else {
      var u, v := GcdDivides(b, a % b);
      p, q := u * (a / b) + v, u;
      Distribute(u, a / b, v, Gcd(a, b));
    }
  }

  lemma {:induction false} Bezout(a: nat, b: nat) returns (x: int, y: int)
    ensures a * x + b * y == Gcd(a, b)
    decreases b
  {
    if b == 0 {
      x, y := 1, 0;
    } else {
      var u, v := Bezout(b, a % b);
      x, y := v, u - (a / b) * v;
      BezoutStep(a, b, a / b, a % b, u, v, Gcd(a, b));
    }
  }

  // ---------------------------------------------------------------- stepping round the slots

  /** Where `k` steps of `s` lead from slot `x`. */
  function At(x: nat, k: nat, s: nat, total: nat): (y: nat)
    requires total > 0
    ensures y < total
  {
    (x + k * s) % total
  }

  lemma AtAdd(x: nat, j: nat, k: nat, s: nat, total: nat)
    requires total > 0
    ensures At(At(x, j, s, total), k, s, total) == At(x, j + k, s, total)
  {
    ModAdd(x + j * s, k * s, total);
    assert x + j * s + k * s == x + (j + k) * s;
  }

  /** From every slot every slot is reached in fewer than `total` steps. */
  ghost predicate VisitsAll(s: nat, total: nat)
    requires total > 0
  {
    forall x: nat, t: nat :: x < total && t < total ==> Reaches(x, t, s, total)
  }

  ghost predicate Reaches(x: nat, t: nat, s: nat, total: nat)
    requires total > 0
  {
    exists k: nat :: k < total && At(x, k, s, total) == t
  }

  lemma CoprimeReaches(x: nat, t: nat, s: nat, total: nat)
    requires x < total && t < total && Gcd(s, total) == 1
    ensures Reaches(x, t, s, total)
  {
    var u, v := Bezout(s, total);
    var k0 := (t - x) * u;
    var q, k := k0 / total, k0 % total;
    StepsBack(x, t, s, total, u, v, q, k);
    var m := s * -q - (t - x) * v;
    assert x + k * s == t + m * total;
    ModPlus(t, m, total);
    ModSmall(t, total);
    assert At(x, k, s, total) == t;
  }

  lemma StepsBack(x: int, t: int, s: int, total: int, u: int, v: int, q: int, k: int)
    requires s * u + total * v == 1 && (t - x) * u == total * q + k
    ensures x + k * s == t + (s * -q - (t - x) * v) * total
  {
    calc {
      k * s;
      ((t - x) * u - total * q) * s;
      (t - x) * (s * u) - total * q * s;
      (t - x) * (1 - total * v) - total * q * s;
      (t - x) - (t - x) * (total * v) - total * q * s;
      (t - x) + (s * -q - (t - x) * v) * total;
    }
  }

  lemma VisitsAllIffCoprime(s: nat, total: nat)
    requires total > 0
    ensures VisitsAll(s, total) <==> Gcd(s, total) == 1
  {
    if Gcd(s, total) == 1 {
      forall x: nat, t: nat | x < total && t < total ensures Reaches(x, t, s, total) {
        CoprimeReaches(x, t, s, total);
      }
    }
    if VisitsAll(s, total) {
      VisitingIsCoprime(s, total);
    }
  }

  lemma VisitingIsCoprime(s: nat, total: nat)
    requires total > 0 && VisitsAll(s, total)
    ensures Gcd(s, total) == 1
  {
    if total == 1 {
      assert Gcd(s, 1) == Gcd(1, 0) == 1;
    } else {
      hide Gcd, At;
      assert Reaches(0, 1, s, total);
      var k: nat :| k < total && At(0, k, s, total) == 1;
      var m := ReachesOne(k, s, total);
      var p, q := GcdDivides(s, total);
      DividesOne(Gcd(s, total), p, q, k, m, s, total);
    }
  }

  lemma ReachesOne(k: nat, s: nat, total: nat) returns (m: nat)
    requires total > 1 && At(0, k, s, total) == 1
    ensures k * s == total * m + 1
  {
    var a := k * s;
    m := a / total;
    assert a == total * (a / total) + a % total;
  }

  lemma DividesOne(g: nat, p: int, q: int, k: int, m: int, s: int, total: int)
    requires s == p * g && total == q * g && k * s == total * m + 1
    ensures g == 1
  {
    var d := k * p - q * m;
    assert d * g == k * (p * g) - (q * g) * m == 1;
    if g > 1 {
      if d >= 1 {
        MulLe(1, d, g);
      } else {
        MulLe(d, 0, g);
      }
    }
  }

  // ---------------------------------------------------------------- both endpoints change

  /** Slot `x` of an n*m grid sends from source `x % n` to destination `x / n`. */
  function Source(x: nat, n: nat): nat
    requires n > 0
  {
    x % n
  }

  function Destination(x: nat, n: nat): nat
    requires n > 0
  {
    x / n
  }

  ghost predicate ChangesSource(s: nat, n: nat, m: nat)
    requires n > 0 && m > 0
  {
    forall x: nat :: x < n * m ==> Source(At(x, 1, s, n * m), n) != Source(x, n)
  }

  ghost predicate ChangesDestination(s: nat, n: nat, m: nat)
    requires n > 0 && m > 0
  {
    forall x: nat :: x < n * m ==> Destination(At(x, 1, s, n * m), n) != Destination(x, n)
  }

  /** What the redundancy feature needs of a step. */
  ghost predicate GoodStep(s: nat, n: nat, m: nat) {
    n > 0 && m > 0 && 1 <= s < n * m && VisitsAll(s, n * m) && ChangesSource(s, n, m) && ChangesDestination(s, n, m)
  }

  /** The four tests of `findStep`. */
  predicate Passes(s: nat, n: nat, m: nat)
    requires n > 0 && m > 0
  {
    Gcd(s, n * m) == 1 && s % n != 0 && s / n % m != 0 && (s / n + 1) % m != 0
  }

  /** One step from slot (i, j) by s = q*n + r: the source moves by r, and the destination by q,
      plus one when the source wraps. */
  lemma OneStep(i: nat, j: nat, q: nat, r: nat, n: nat, m: nat)
    requires i < n && j < m && r < n && q < m
    ensures n * m > 0 && j * n + i < n * m
    ensures var c, y := if i + r < n then 0 else 1, At(j * n + i, 1, q * n + r, n * m);
            && y % n == i + r - c * n
            && y / n == (if j + q + c < m then j + q + c else j + q + c - m)
  {
    var c := if i + r < n then 0 else 1;
    var d := if j + q + c < m then 0 else 1;
    var jj, ii := j + q + c - d * m, i + r - c * n;
    GridBelow(i, j, n, m);
    GridBelow(ii, jj, n, m);
    StepSum(i, j, q, r, n, m, c, d);
    var y := jj * n + ii;
    ModPlus(y, d, n * m);
    ModSmall(y, n * m);
    DivModUnique(y, n, jj, ii);
  }

  lemma GridBelow(i: nat, j: nat, n: nat, m: nat)
    requires i < n && j < m
    ensures 0 <= j * n + i < n * m
  {
    MulLe(j + 1, m, n);
    MulLe(0, j, n);
  }

  lemma StepSum(i: int, j: int, q: int, r: int, n: int, m: int, c: int, d: int)
    ensures j * n + i + 1 * (q * n + r) == (j + q + c - d * m) * n + (i + r - c * n) + d * (n * m)
  {
  }

  lemma Split(x: nat, n: nat, m: nat)
    requires n > 0 && x < n * m
    ensures x % n < n && x / n < m && x == (x / n) * n + x % n
  {
    if x / n >= m {
      MulLe(m, x / n, n);
    }
  }

  lemma SourceChangesIff(s: nat, n: nat, m: nat)
    requires n > 0 && m > 0 && s < n * m
    ensures ChangesSource(s, n, m) <==> s % n != 0
  {
    hide Source, At;
    if s % n == 0 {
      SameSourceAtFirst(s, n, m);
    } else {
      forall x: nat | x < n * m
        ensures Source(At(x, 1, s, n * m), n) != Source(x, n)
      {
        SourceMoves(x, s, n, m);
      }
    }
  }

  lemma SameSourceAtFirst(s: nat, n: nat, m: nat)
    requires n > 0 && m > 0 && s < n * m && s % n == 0
    ensures 0 < n * m && Source(At(0, 1, s, n * m), n) == Source(0, n)
  {
    hide At;
    Split(s, n, m);
    OneStep(0, 0, s / n, 0, n, m);
    ModSmall(0, n);
  }

  lemma SourceMoves(x: nat, s: nat, n: nat, m: nat)
    requires n > 0 && m > 0 && s < n * m && x < n * m && s % n != 0
    ensures Source(At(x, 1, s, n * m), n) != Source(x, n)
  {
    hide At;
    Split(s, n, m);
    Split(x, n, m);
    OneStep(x % n, x / n, s / n, s % n, n, m);
  }

  lemma DestinationChangesIff(s: nat, n: nat, m: nat)
    requires n > 0 && m > 0 && s < n * m && s % n != 0
    ensures ChangesDestination(s, n, m) <==> s / n % m != 0 && (s / n + 1) % m != 0
  {
    hide Destination, At;
    Split(s, n, m);
    var q := s / n;
    ModSmall(q, m);
    NextMod(q, m);
    if q == 0 {
      SameDestinationAtFirst(s, n, m);
    } else if q + 1 == m {
      SameDestinationAtLast(s, n, m);
    } else {
      forall x: nat | x < n * m
        ensures Destination(At(x, 1, s, n * m), n) != Destination(x, n)
      {
        DestinationMoves(x, s, n, m);
      }
    }
  }

  lemma SameDestinationAtFirst(s: nat, n: nat, m: nat)
    requires n > 0 && m > 0 && s < n * m && s % n != 0 && s / n == 0
    ensures 0 < n * m && Destination(At(0, 1, s, n * m), n) == Destination(0, n)
  {
    hide At;
    Split(s, n, m);
    OneStep(0, 0, 0, s % n, n, m);
    ModSmall(0, n);
  }

  lemma SameDestinationAtLast(s: nat, n: nat, m: nat)
    requires n > 0 && m > 0 && s < n * m && s % n != 0 && s / n + 1 == m
    ensures n - 1 < n * m && Destination(At(n - 1, 1, s, n * m), n) == Destination(n - 1, n)
  {
    hide At;
    Split(s, n, m);
    OneStep(n - 1, 0, s / n, s % n, n, m);
    ModSmall(n - 1, n);
  }

  lemma DestinationMoves(x: nat, s: nat, n: nat, m: nat)
    requires n > 0 && m > 0 && s < n * m && x < n * m && 0 < s / n < m - 1
    ensures Destination(At(x, 1, s, n * m), n) != Destination(x, n)
  {
    hide At;
    Split(s, n, m);
    Split(x, n, m);
    OneStep(x % n, x / n, s / n, s % n, n, m);
  }

  lemma NextMod(q: nat, m: nat)
    requires q < m
    ensures (q + 1) % m == 0 <==> q + 1 == m
  {
    if q + 1 < m {
      ModSmall(q + 1, m);
    } else {
      DivModUnique(q + 1, m, 1, 0);
    }
  }

  /** The tests accept exactly the good steps. */
  lemma PassesIffGood(s: nat, n: nat, m: nat)
    requires n > 0 && m > 0 && 1 <= s < n * m
    ensures Passes(s, n, m) <==> GoodStep(s, n, m)
  {
    VisitsAllIffCoprime(s, n * m);
    SourceChangesIff(s, n, m);
    if s % n != 0 {
      DestinationChangesIff(s, n, m);
    }
  }

  /** Starting the search at n + 1 loses nothing; one source or two destinations never work. */
  lemma GoodStepNeeds(s: nat, n: nat, m: nat)
    requires GoodStep(s, n, m)
    ensures s >= n + 1 && n >= 2 && m >= 3
  {
    hide VisitsAll, ChangesSource, ChangesDestination, Gcd;
    PassesIffGood(s, n, m);
    TestsFail(s, n, m);
    TestsNeed(s, s / n, n, m);
  }

  lemma TestsNeed(s: nat, q: nat, n: nat, m: nat)
    requires n > 0 && m > 0 && q == s / n && s % n != 0 && q % m != 0 && (q + 1) % m != 0
    ensures s >= n + 1 && n >= 2 && m >= 3
  {
    ModOne(s);
    ModOne(q);
    ModTwo(q);
    if s < n {
      ModSmall(s, n);
      DivSmall(s, n);
      ModSmall(0, m);
    } else if s == n {
      DivModUnique(n, n, 1, 0);
    }
  }

  lemma DivSmall(s: nat, n: nat)
    requires s < n
    ensures s / n == 0
  {
  }

  lemma ModTwo(q: nat)
    ensures q % 2 == 0 || (q + 1) % 2 == 0
  {
  }

  lemma ModOne(x: nat)
    ensures x % 1 == 0
  {
  }

  /** `findStep`: the least good step, or 0 exactly when there is none. */
  method FindStep(n: nat, m: nat) returns (r: nat)
    ensures r != 0 ==> GoodStep(r, n, m) && forall s: nat :: s < r ==> !GoodStep(s, n, m)
    ensures r == 0 ==> forall s: nat :: !GoodStep(s, n, m)
  {
    hide GoodStep, Passes, Gcd;
    var total := n * m;
    var s := n + 1;
    forall x: nat | x < s ensures !GoodStep(x, n, m) {
      if GoodStep(x, n, m) {
        GoodStepNeeds(x, n, m);
      }
    }
    while s < total
      invariant s >= n + 1
      invariant forall x: nat :: x < s ==> !GoodStep(x, n, m)
    {
      GridNonEmpty(n, m, s);
      PassesIffGood(s, n, m);
      TestsFail(s, n, m);
      var g := GcdN(s, total);
      if g == 1 && s % n != 0 {
        var q := s / n;
        if q % m != 0 && (q + 1) % m != 0 {
          return s;
        }
      }
      s := s + 1;
    }
    forall x: nat ensures !GoodStep(x, n, m) {
      if GoodStep(x, n, m) {
        InGrid(x, n, m);
      }
    }
    r := 0;
  }

  lemma GridNonEmpty(n: nat, m: nat, s: nat)
    requires s < n * m
    ensures n > 0 && m > 0
  {
  }

  lemma TestsFail(s: nat, n: nat, m: nat)
    requires n > 0 && m > 0
    ensures Passes(s, n, m) <==> Gcd(s, n * m) == 1 && s % n != 0 && s / n % m != 0 && (s / n + 1) % m != 0
  {
  }

  lemma InGrid(s: nat, n: nat, m: nat)
    requires GoodStep(s, n, m)
    ensures s < n * m
  {
  }
}
