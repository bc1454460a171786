/** dev/redundancy.patch: sending every packet K times through K different slots. */
module Redundancy {
  import opened Arith
  import opened Bytes
  import opened Conn
  import ConnTable
  import opened Step
  import opened StepExists

  // ---------------------------------------------------------------- configuration

  datatype Config =
    | Step(step: nat)
    | TooManyCopies
    | NoStep
    | SourceUnchanged(slot: int)
    | DestinationUnchanged(slot: int)

  /** The checks of the table constructor for one peer with `n` local and `m` remote endpoints:
      the copies must fit in the grid, more than one copy needs a good step, and the strict
      re-check of that step never fires. */
  method Configure(n: nat, m: nat, redundancy: nat) returns (c: Config)
    requires n > 0 && m > 0 && redundancy >= 1
    ensures c == TooManyCopies <==> redundancy > n * m
    ensures c == NoStep <==> 1 < redundancy <= n * m && !HasStep(n, m)
    ensures !c.SourceUnchanged? && !c.DestinationUnchanged?
    ensures c.Step? && redundancy == 1 ==> c.step == 0
    ensures c.Step? && redundancy > 1 ==> GoodStep(c.step, n, m) && forall s: nat :: s < c.step ==> !GoodStep(s, n, m)
  {
    hide VisitsAll, At;
    var total := n * m;
    if redundancy > total {
      return TooManyCopies;
    }
    var step := 0;
    if redundancy > 1 {
      step := FindStep(n, m);
      GoodStepExistsIff(n, m);
      if step == 0 {
        return NoStep;
      }
      for i := 0 to total {
        var b := At(i, 1, step, total);
        if Source(i, n) == Source(b, n) {
          return SourceUnchanged(i);
        }
        if Destination(i, n) == Destination(b, n) {
          return DestinationUnchanged(i);
        }
      }
    }
    c := Step(step);
  }

  // ---------------------------------------------------------------- the next copy

  /** `r` is what the scan in steps of `s` from the slot after `cur` settles on. */
  predicate StepsTo(live: seq<bool>, s: nat, cur: nat, r: nat)
    requires cur < |live|
  {
    (exists k :: 1 <= k <= |live| && FirstLive(live, s, cur, k) && r == At(cur, k, s, |live|))
    || (DeadWithin(live, s, cur, |live| + 1) && r == At(cur, 1, s, |live|))
  }

  predicate FirstLive(live: seq<bool>, s: nat, cur: nat, k: nat)
    requires cur < |live|
  {
    live[At(cur, k, s, |live|)] && DeadWithin(live, s, cur, k)
  }

  predicate DeadWithin(live: seq<bool>, s: nat, cur: nat, k: nat)
    requires cur < |live|
  {
    forall j :: 1 <= j < k ==> !live[At(cur, j, s, |live|)]
  }

  class RedundantConn {
    const conn: Conn
    const step: nat

    constructor (conn: Conn, step: nat)
      ensures this.conn == conn && this.step == step
    {
      this.conn, this.step := conn, step;
    }

    /** `ConnImpl::next(cur, now)`, slots named by their `connIdx`. */
    method NextAfter(cur: nat, now: u64) returns (idx: nat)
      requires cur < |conn.slots|
      ensures idx < |conn.slots|
      ensures StepsTo(LiveSlots(conn.slots, now, conn.timeoutMs), step, cur, idx)
    {
      hide At, Live, LiveSlots;
      var total := |conn.slots|;
      ghost var live := LiveSlots(conn.slots, now, conn.timeoutMs);
      AtOne(cur, step, total);
      var base := (cur + step) % total;
      var k := 0;
      while k < total
        invariant k <= total && DeadWithin(live, step, cur, k + 1)
      {
        AtFromBase(cur, k, step, total);
        idx := (base + k * step) % total;
        if Live(now, conn.slots[idx].lastSeen, conn.timeoutMs) {
          assert FirstLive(live, step, cur, k + 1);
          return;
        }
        k := k + 1;
      }
      idx := base;
    }

    /** `sendOne`: the same packet through the round-robin slot and its `copies - 1` successors. */
    method SendOne(copies: nat, now: u64) returns (sent: seq<nat>)
      requires conn.slots != [] && copies >= 1
      modifies conn`rr
      ensures |sent| == copies
      ensures IsChain(LiveSlots(conn.slots, now, conn.timeoutMs), step, sent)
      ensures Settles(LiveSlots(conn.slots, now, conn.timeoutMs), old(conn.rr) % |conn.slots|, sent[0])
      ensures var live := LiveSlots(conn.slots, now, conn.timeoutMs);
              Gcd(step, |live|) == 1 && AllLive(live) != {} ==>
                Slots(sent) <= AllLive(live) && |Slots(sent)| == Min(copies, |AllLive(live)|)
    {
      hide LiveSlots, StepsTo, Settles, Gcd, Slots;
      var slot, idx := conn.Next(now);
      sent := [idx];
      for c := 1 to copies
        invariant |sent| == c && idx == sent[c - 1] < |conn.slots|
        invariant IsChain(LiveSlots(conn.slots, now, conn.timeoutMs), step, sent)
        invariant Settles(LiveSlots(conn.slots, now, conn.timeoutMs), old(conn.rr) % |conn.slots|, sent[0])
      {
        idx := NextAfter(idx, now);
        sent := sent + [idx];
      }
      ghost var live := LiveSlots(conn.slots, now, conn.timeoutMs);
      if Gcd(step, |live|) == 1 && AllLive(live) != {} {
        SettlesLive(live, old(conn.rr) % |conn.slots|, sent[0]);
        ghost var a := CopiesUseLiveSlots(live, step, sent);
      }
    }
  }

  lemma SettlesLive(live: seq<bool>, base: nat, idx: nat)
    requires base < |live| && Settles(live, base, idx) && AllLive(live) != {}
    ensures idx < |live| && live[idx]
  {
    var i :| i in AllLive(live);
    DeadOnlyIfAllDead(live, base, idx);
  }

  lemma AtOne(cur: nat, s: nat, total: nat)
    requires total > 0
    ensures (cur + s) % total == At(cur, 1, s, total)
  {
  }

  lemma AtFromBase(cur: nat, k: nat, s: nat, total: nat)
    requires total > 0
    ensures ((cur + s) % total + k * s) % total == At(cur, k + 1, s, total)
  {
    AtOne(cur, s, total);
    AtAdd(cur, 1, k, s, total);
  }

  /** Slot `i` of a connection goes from the `Source(i)`-th local endpoint to the
      `Destination(i)`-th one of the peer, as the table lays them out. */
  lemma SlotsAreLaid(conn: Conn, peers: seq<Peer>, self: nat, k: nat, timeoutMs: u64, i: nat)
    requires self < |peers| && k < |peers| && k != self && peers[self].dsts != []
    requires ConnTable.ConnFor(conn, peers, self, k, timeoutMs) && i < |conn.slots|
    ensures var n := |peers[self].dsts|;
            && Source(i, n) < n && Destination(i, n) < |peers[k].dsts|
            && conn.slots[i].srcAddr == peers[self].dsts[Source(i, n)]
            && conn.slots[i].dstAddr == peers[k].dsts[Destination(i, n)]
  {
    var n, m := |peers[self].dsts|, |peers[k].dsts|;
    var keys := ConnTable.PeerLayout(k, n, m);
    assert keys[..|conn.slots|][i] == keys[i];
    ConnTable.QuotientBelow(i, n, m);
  }

  // ---------------------------------------------------------------- K copies

  /** Each slot of the chain follows from the one before it. */
  predicate IsChain(live: seq<bool>, s: nat, chain: seq<nat>) {
    && (forall x :: 0 <= x < |chain| ==> chain[x] < |live|)
    && (forall x :: 0 < x < |chain| ==> StepsTo(live, s, chain[x - 1], chain[x]))
  }

  function AllLive(live: seq<bool>): set<nat> {
    set i: nat | i < |live| && live[i]
  }

  /** The live slots among the first `a` steps from `c`. */
  function LiveUpTo(live: seq<bool>, s: nat, c: nat, a: nat): set<nat>
    requires c < |live|
  {
    set i: nat | i < |live| && live[i] && WithinSteps(c, a, s, |live|, i)
  }

  predicate WithinSteps(c: nat, a: nat, s: nat, total: nat, i: nat)
    requires total > 0
  {
    exists k: nat :: k <= a && At(c, k, s, total) == i
  }

  /** Fewer than `total` steps never lead to the same slot twice. */
  lemma AtInjective(c: nat, j: nat, k: nat, s: nat, total: nat)
    requires total > 0 && j < total && k < total && Gcd(s, total) == 1
    requires At(c, j, s, total) == At(c, k, s, total)
    ensures j == k
  {
    var q := SameMod(c + k * s, c + j * s, total);
    assert (k - j) * s == q * total by { assert (k - j) * s == k * s - j * s; }
    var u, v := Bezout(s, total);
    Cancel(k - j, s, u, v, q, total);
    SmallMultiple((q * u + (k - j) * v), total, k - j);
    assert (q * u + (k - j) * v) * total == k - j;
  }

  lemma Cancel(d: int, s: int, u: int, v: int, q: int, total: int)
    requires d * s == q * total && s * u + total * v == 1
    ensures (q * u + d * v) * total == d
  {
    calc {
      (q * u + d * v) * total;
      (q * total) * u + d * (total * v);
      (d * s) * u + d * (total * v);
      d * (s * u + total * v);
      d;
    }
  }

  lemma AtNone(c: nat, s: nat, total: nat)
    requires c < total
    ensures At(c, 0, s, total) == c && At(c, total, s, total) == c
  {
    ModSmall(c, total);
    ModPlus(c, s, total);
  }

  /** From a live slot the scan always finds a live slot, at the latest the same one again. */
  lemma LiveFollowsLive(live: seq<bool>, s: nat, cur: nat, r: nat) returns (k: nat)
    requires cur < |live| && live[cur] && StepsTo(live, s, cur, r)
    ensures 1 <= k <= |live| && FirstLive(live, s, cur, k) && r == At(cur, k, s, |live|) && live[r]
  {
    hide At;
    AtNone(cur, s, |live|);
    assert live[At(cur, |live|, s, |live|)];
    k :| 1 <= k <= |live| && FirstLive(live, s, cur, k) && r == At(cur, k, s, |live|);
  }

  /** While some live slot is still unused, the next copy goes to a new one. */
  lemma NextIsNew(live: seq<bool>, s: nat, c: nat, a: nat, cur: nat, r: nat) returns (b: nat)
    requires c < |live| && Gcd(s, |live|) == 1
    requires a < |live| && cur == At(c, a, s, |live|) && live[cur] && StepsTo(live, s, cur, r)
    requires LiveUpTo(live, s, c, a) != AllLive(live)
    ensures a < b < |live| && r == At(c, b, s, |live|) && live[r]
    ensures LiveUpTo(live, s, c, b) == LiveUpTo(live, s, c, a) + {r} && r !in LiveUpTo(live, s, c, a)
  {
    hide At, Gcd;
    var total := |live|;
    var k := LiveFollowsLive(live, s, cur, r);
    var t: nat :| t < total && live[t] && !WithinSteps(c, a, s, total, t);
    CoprimeReaches(c, t, s, total);
    var k0: nat :| k0 < total && At(c, k0, s, total) == t;
    AtAdd(c, a, k0 - a, s, total);
    AtAdd(c, a, k, s, total);
    b := a + k;
    assert k <= k0 - a;
    forall i: nat | i < total && live[i] && WithinSteps(c, b, s, total, i)
      ensures WithinSteps(c, a, s, total, i) || i == r
    {
      var j: nat :| j <= b && At(c, j, s, total) == i;
      if a < j < b {
        AtAdd(c, a, j - a, s, total);
      }
    }
    forall i: nat | WithinSteps(c, a, s, total, i) ensures WithinSteps(c, b, s, total, i) {
      var j: nat :| j <= a && At(c, j, s, total) == i;
    }
    if WithinSteps(c, a, s, total, r) {
      var j: nat :| j <= a && At(c, j, s, total) == r;
      AtInjective(c, j, b, s, total);
    }
    assert WithinSteps(c, b, s, total, r);
  }

  function Slots(chain: seq<nat>): set<nat> {
    set x | x in chain
  }

  function Min(a: nat, b: nat): nat {
    if a < b then a else b
  }

  /** With at least one live slot, K copies use min(K, L) different slots, all of them live. */
  lemma {:induction false} CopiesUseLiveSlots(live: seq<bool>, s: nat, chain: seq<nat>) returns (a: nat)
    requires chain != [] && IsChain(live, s, chain) && live[chain[0]] && Gcd(s, |live|) == 1
    ensures Slots(chain) <= AllLive(live)
    ensures |Slots(chain)| == Min(|chain|, |AllLive(live)|)
    ensures Slots(chain) == AllLive(live)
            || (a < |live| && chain[|chain| - 1] == At(chain[0], a, s, |live|)
                && Slots(chain) == LiveUpTo(live, s, chain[0], a))
  {
    hide At, Gcd, StepsTo, LiveUpTo, Slots, AllLive;
    var n, c := |chain| - 1, chain[0];
    if n == 0 {
      a := 0;
      FirstCopy(live, s, chain);
    } else {
      var p, r := chain[..n], chain[n];
      a := CopiesUseLiveSlots(live, s, p);
      SlotsPush(live, p, r, chain[n - 1]);
      assert chain == p + [r];
      var k := LiveFollowsLive(live, s, chain[n - 1], r);
      if Slots(p) != AllLive(live) {
        a := NextIsNew(live, s, c, a, chain[n - 1], r);
        NewCopyCounts(live, Slots(p), r);
      } else {
        OldCopyCounts(live, r);
      }
    }
  }

  lemma SlotsPush(live: seq<bool>, p: seq<nat>, r: nat, last: nat)
    requires p != [] && p[|p| - 1] == last
    ensures Slots(p + [r]) == Slots(p) + {r} && last in Slots(p)
    ensures Slots(p) <= AllLive(live) ==> last < |live| && live[last]
  {
  }

  /** A new live slot is one more of them. */
  lemma NewCopyCounts(live: seq<bool>, used: set<nat>, r: nat)
    requires used <= AllLive(live) && used != AllLive(live) && r < |live| && live[r]
    ensures used + {r} <= AllLive(live) && |used| < |AllLive(live)|
    ensures r !in used ==> |used + {r}| == |used| + 1 <= |AllLive(live)|
  {
    SmallerSet(used, AllLive(live));
    SmallerOrEqual(used + {r}, AllLive(live));
  }

  lemma OldCopyCounts(live: seq<bool>, r: nat)
    requires r < |live| && live[r]
    ensures AllLive(live) + {r} == AllLive(live)
  {
  }

  lemma FirstCopy(live: seq<bool>, s: nat, chain: seq<nat>)
    requires |chain| == 1 && chain[0] < |live| && live[chain[0]]
    ensures Slots(chain) == {chain[0]} == LiveUpTo(live, s, chain[0], 0) && chain[0] == At(chain[0], 0, s, |live|)
    ensures Slots(chain) <= AllLive(live) && |Slots(chain)| == 1 && |AllLive(live)| >= 1
  {
    hide At;
    var c := chain[0];
    AtNone(c, s, |live|);
    assert WithinSteps(c, 0, s, |live|, c);
    SmallerOrEqual({c}, AllLive(live));
  }

  lemma SmallerOrEqual(a: set<nat>, b: set<nat>)
    requires a <= b
    ensures |a| <= |b|
  {
    assert b == a + (b - a);
  }

  lemma SmallerSet(a: set<nat>, b: set<nat>)
    requires a <= b && a != b
    ensures |a| < |b|
  {
    var x :| x in b && x !in a;
    SmallerOrEqual(a + {x}, b);
  }

  /** With no live slot, or with all of them live, the copies simply step round the grid. */
  lemma {:induction false} CopiesStepRound(live: seq<bool>, s: nat, chain: seq<nat>, x: nat)
    requires IsChain(live, s, chain) && x < |chain|
    requires (forall i :: 0 <= i < |live| ==> live[i]) || (forall i :: 0 <= i < |live| ==> !live[i])
    ensures chain[x] == At(chain[0], x, s, |live|)
  {
    hide At;
    AtNone(chain[0], s, |live|);
    if x > 0 {
      CopiesStepRound(live, s, chain, x - 1);
      assert StepsTo(live, s, chain[x - 1], chain[x]);
      AtAdd(chain[0], x - 1, 1, s, |live|);
      if live[chain[0]] {
        assert live[At(chain[x - 1], 1, s, |live|)];
      }
    }
  }

  /** Then up to as many copies as there are slots go to pairwise different slots, and with a
      good step every copy leaves from another source and to another destination than the
      copy before it. */
  lemma CopiesAreDiverse(live: seq<bool>, s: nat, chain: seq<nat>, n: nat, m: nat)
    requires GoodStep(s, n, m) && |live| == n * m
    requires IsChain(live, s, chain) && 0 < |chain| <= |live|
    requires (forall i :: 0 <= i < |live| ==> live[i]) || (forall i :: 0 <= i < |live| ==> !live[i])
    ensures forall x, y :: 0 <= x < y < |chain| ==> chain[x] != chain[y]
    ensures forall x :: 0 < x < |chain| ==>
              Source(chain[x], n) != Source(chain[x - 1], n) && Destination(chain[x], n) != Destination(chain[x - 1], n)
  {
    hide At, Gcd, VisitsAll, IsChain;
    VisitsAllIffCoprime(s, n * m);
    forall x, y | 0 <= x < y < |chain| ensures chain[x] != chain[y] {
      CopiesStepRound(live, s, chain, x);
      CopiesStepRound(live, s, chain, y);
      if chain[x] == chain[y] {
        AtInjective(chain[0], x, y, s, |live|);
      }
    }
    forall x | 0 < x < |chain|
      ensures Source(chain[x], n) != Source(chain[x - 1], n) && Destination(chain[x], n) != Destination(chain[x - 1], n)
    {
      CopiesStepRound(live, s, chain, x - 1);
      CopiesStepRound(live, s, chain, x);
      AtAdd(chain[0], x - 1, 1, s, |live|);
    }
  }
}
