/** conn.cpp:76-92 under concurrency: threads take tickets from one atomic counter and scan the
    slots while the receiving threads keep storing new `lastSeen` values. */
module Tickets {
  import opened Arith
  import opened Bytes
  import opened Conn

  /** One read of a scan: the slot looked at and the `lastSeen` value found there. */
  datatype Look = Look(slot: nat, lastSeen: u64)

  /** A running call of `next`: its ticket, its clock reading, and what it has read so far. */
  datatype Scan = Scan(ticket: nat, now: u64, looks: seq<Look>)

  /** A finished call. */
  datatype Pick = Pick(now: u64, looks: seq<Look>, slot: nat)

  /** `issued` counts the tickets ever taken; the counter itself holds it modulo 2^64. */
  datatype State = State(timeoutMs: u64, lastSeen: seq<u64>, issued: nat, running: map<nat, Scan>,
                         picked: map<nat, Pick>)

  datatype Step =
    | Take(thread: nat, now: u64)
    | Read(thread: nat)
    | Store(slot: nat, now: u64)

  function Base(ticket: nat, n: nat): nat
    requires n > 0
  {
    ticket % 0x1_0000_0000_0000_0000 % n
  }

  /** One atomic step; a step that is not enabled changes nothing. */
  function Do(s: State, step: Step): State
    requires s.lastSeen != []
  {
    var n := |s.lastSeen|;
    match step
    case Take(t, now) =>
      if t in s.running then s
      else s.(issued := s.issued + 1, running := s.running[t := Scan(s.issued, now, [])])
    case Store(i, now) =>
      if i < n then s.(lastSeen := s.lastSeen[i := now]) else s
    case Read(t) =>
      if t !in s.running then s
      else
        var scan := s.running[t];
        var i := Around(Base(scan.ticket, n), |scan.looks|, n);
        var looks := scan.looks + [Look(i, s.lastSeen[i])];
        if Live(scan.now, s.lastSeen[i], s.timeoutMs) then Finish(s, t, looks, i)
        else if |looks| == n then Finish(s, t, looks, Base(scan.ticket, n))
        else s.(running := s.running[t := scan.(looks := looks)])
  }

  function Finish(s: State, t: nat, looks: seq<Look>, slot: nat): State
    requires t in s.running
  {
    s.(running := s.running - {t}, picked := s.picked[s.running[t].ticket := Pick(s.running[t].now, looks, slot)])
  }

  function Run(s: State, steps: seq<Step>): (r: State)
    requires s.lastSeen != []
    ensures |r.lastSeen| == |s.lastSeen| && r.timeoutMs == s.timeoutMs
  {
    if steps == [] then s else Do(Run(s, steps[..|steps| - 1]), steps[|steps| - 1])
  }

  predicate Initial(s: State) {
    s.lastSeen != [] && s.issued == 0 && s.running == map[] && s.picked == map[]
  }

  // ---------------------------------------------------------------- what every scan has seen

  /** The looks went round from the ticket's base. */
  predicate InScanOrder(looks: seq<Look>, ticket: nat, n: nat)
    requires n > 0
  {
    |looks| <= n && forall k :: 0 <= k < |looks| ==> looks[k].slot == Around(Base(ticket, n), k, n)
  }

  predicate AllLookedDead(looks: seq<Look>, m: nat, now: u64, timeoutMs: u64)
    requires m <= |looks|
  {
    forall k :: 0 <= k < m ==> !Live(now, looks[k].lastSeen, timeoutMs)
  }

  /** The slot picked was live when it was read and every slot before it in the scan dead; or
      each of the `n` slots was read, all were dead, and the pick is the ticket's base. */
  predicate Justified(p: Pick, ticket: nat, timeoutMs: u64, n: nat)
    requires n > 0
  {
    && p.looks != [] && InScanOrder(p.looks, ticket, n)
    && var last := p.looks[|p.looks| - 1];
    && AllLookedDead(p.looks, |p.looks| - 1, p.now, timeoutMs)
    && if Live(p.now, last.lastSeen, timeoutMs) then p.slot == last.slot
       else |p.looks| == n && p.slot == Base(ticket, n)
  }

  ghost predicate Inv(s: State)
    requires s.lastSeen != []
  {
    var n := |s.lastSeen|;
    && (forall t :: t in s.running ==>
          && s.running[t].ticket < s.issued && s.running[t].ticket !in s.picked
          && InScanOrder(s.running[t].looks, s.running[t].ticket, n) && |s.running[t].looks| < n
          && AllLookedDead(s.running[t].looks, |s.running[t].looks|, s.running[t].now, s.timeoutMs))
    && (forall t, u :: t in s.running && u in s.running && t != u ==> s.running[t].ticket != s.running[u].ticket)
    && (forall c :: c in s.picked ==> c < s.issued && Justified(s.picked[c], c, s.timeoutMs, n))
  }

  lemma ReadKeepsInv(s: State, t: nat)
    requires s.lastSeen != [] && Inv(s) && t in s.running
    ensures Inv(Do(s, Read(t)))
  {
    hide Live, Around, Base;
    var n, scan := |s.lastSeen|, s.running[t];
    var i := Around(Base(scan.ticket, n), |scan.looks|, n);
    var looks := scan.looks + [Look(i, s.lastSeen[i])];
    assert InScanOrder(looks, scan.ticket, n);
    assert AllLookedDead(looks, |looks| - 1, scan.now, s.timeoutMs);
    var r := Do(s, Read(t));
    if t !in r.running {
      assert Justified(r.picked[scan.ticket], scan.ticket, s.timeoutMs, n);
    } else {
      assert AllLookedDead(looks, |looks|, scan.now, s.timeoutMs);
    }
  }

  lemma DoKeepsInv(s: State, step: Step)
    requires s.lastSeen != [] && Inv(s)
    ensures Inv(Do(s, step))
  {
    match step
    case Take(t, now) =>
      hide Live, Around, Base, Justified;
    case Store(i, now) =>
      hide Live, Around, Base, Justified;
    case Read(t) =>
      if t in s.running {
        ReadKeepsInv(s, t);
      }
  }

  /** Every call that has returned, in every interleaving of threads and updates, returned a
      slot that it had read as live, or its base after reading every slot as dead. */
  lemma {:induction false} EveryPickIsJustified(s: State, steps: seq<Step>)
    requires Initial(s)
    ensures Inv(Run(s, steps))
    ensures forall c :: c in Run(s, steps).picked ==> Justified(Run(s, steps).picked[c], c, s.timeoutMs, |s.lastSeen|)
  {
    if steps != [] {
      EveryPickIsJustified(s, steps[..|steps| - 1]);
      DoKeepsInv(Run(s, steps[..|steps| - 1]), steps[|steps| - 1]);
    }
  }

  // ---------------------------------------------------------------- what was there to be seen

  /** Step `taken` took this ticket at this time, and step `at[k]` found what look `k` says in the
      slots as they were then, one look after the other. */
  ghost predicate Held(s: State, steps: seq<Step>, ticket: nat, now: u64, looks: seq<Look>, taken: nat, at: seq<nat>)
    requires s.lastSeen != []
  {
    && taken < |steps| && steps[taken].Take? && steps[taken].now == now && Run(s, steps[..taken]).issued == ticket
    && |at| == |looks|
    && forall k :: 0 <= k < |at| ==> taken < at[k] < |steps| && (k > 0 ==> at[k - 1] < at[k])
                                     && Showed(s, steps, looks[k], at[k])
  }

  ghost predicate Showed(s: State, steps: seq<Step>, look: Look, m: nat)
    requires s.lastSeen != []
  {
    m < |steps| && look.slot < |s.lastSeen| && Run(s, steps[..m]).lastSeen[look.slot] == look.lastSeen
  }

  lemma HeldLater(s: State, steps: seq<Step>, step: Step, ticket: nat, now: u64, looks: seq<Look>, taken: nat,
                  at: seq<nat>)
    requires s.lastSeen != [] && Held(s, steps, ticket, now, looks, taken, at)
    ensures Held(s, steps + [step], ticket, now, looks, taken, at)
  {
    hide Run;
    var more := steps + [step];
    assert forall m :: 0 <= m <= |steps| ==> more[..m] == steps[..m];
  }

  lemma OneMoreLook(s: State, steps: seq<Step>, step: Step, ticket: nat, now: u64, looks: seq<Look>, taken: nat,
                    at: seq<nat>, look: Look)
    requires s.lastSeen != [] && Held(s, steps, ticket, now, looks, taken, at)
    requires look.slot < |s.lastSeen| && Run(s, steps).lastSeen[look.slot] == look.lastSeen
    ensures Held(s, steps + [step], ticket, now, looks + [look], taken, at + [|steps|])
  {
    hide Run, Showed;
    HeldLater(s, steps, step, ticket, now, looks, taken, at);
    ShowedNow(s, steps, step, look);
  }

  lemma ShowedNow(s: State, steps: seq<Step>, step: Step, look: Look)
    requires s.lastSeen != [] && look.slot < |s.lastSeen| && Run(s, steps).lastSeen[look.slot] == look.lastSeen
    ensures Showed(s, steps + [step], look, |steps|)
  {
    assert (steps + [step])[..|steps|] == steps;
  }

  /** Every look of a running call was what some state since its ticket held. */
  lemma {:induction false} ScanSaw(s: State, steps: seq<Step>, t: nat) returns (taken: nat, at: seq<nat>)
    requires Initial(s) && t in Run(s, steps).running
    ensures var scan := Run(s, steps).running[t]; Held(s, steps, scan.ticket, scan.now, scan.looks, taken, at)
    decreases |steps|
  {
    hide Live, Around, Base, Held;
    var n := |steps| - 1;
    var before, step := steps[..n], steps[n];
    var was := Run(s, before);
    assert steps == before + [step];
    if t in was.running {
      taken, at := ScanSaw(s, before, t);
      var scan := was.running[t];
      if step == Read(t) {
        var look := Run(s, steps).running[t].looks[|scan.looks|];
        OneMoreLook(s, before, step, scan.ticket, scan.now, scan.looks, taken, at, look);
        at := at + [n];
      } else {
        HeldLater(s, before, step, scan.ticket, scan.now, scan.looks, taken, at);
      }
    } else {
      taken, at := n, [];
      JustTaken(s, before, step);
    }
  }

  lemma JustTaken(s: State, before: seq<Step>, step: Step)
    requires s.lastSeen != [] && step.Take?
    ensures Held(s, before + [step], Run(s, before).issued, step.now, [], |before|, [])
  {
    hide Run;
    assert (before + [step])[..|before|] == before;
  }

  /** Every look of a call that has returned was what some state between its ticket and its return
      held for that slot, and its time is the one it read at its ticket. */
  lemma {:induction false} PickSaw(s: State, steps: seq<Step>, c: nat) returns (taken: nat, at: seq<nat>)
    requires Initial(s) && c in Run(s, steps).picked
    ensures var p := Run(s, steps).picked[c]; Held(s, steps, c, p.now, p.looks, taken, at)
    decreases |steps|
  {
    hide Live, Around, Base, Held;
    var n := |steps| - 1;
    var before, step := steps[..n], steps[n];
    var was, p := Run(s, before), Run(s, steps).picked[c];
    assert steps == before + [step];
    if c in was.picked && was.picked[c] == p {
      taken, at := PickSaw(s, before, c);
      HeldLater(s, before, step, c, p.now, p.looks, taken, at);
    } else {
      var scan := was.running[step.thread];
      taken, at := ScanSaw(s, before, step.thread);
      OneMoreLook(s, before, step, scan.ticket, scan.now, scan.looks, taken, at, p.looks[|scan.looks|]);
      at := at + [n];
    }
  }

  // ---------------------------------------------------------------- rotation

  /** The call found the slot of its own ticket live. */
  predicate FoundBaseLive(p: Pick, timeoutMs: u64) {
    p.looks != [] && Live(p.now, p.looks[0].lastSeen, timeoutMs)
  }

  /** `calls` are the calls with consecutive tickets from `first`, whichever threads made them,
      and each found its base live. */
  ghost predicate Window(s: State, first: nat, calls: seq<Pick>) {
    forall d :: 0 <= d < |calls| ==>
      first + d in s.picked && s.picked[first + d] == calls[d] && FoundBaseLive(calls[d], s.timeoutMs)
  }

  ghost predicate Uses(calls: seq<Pick>, i: nat) {
    exists d :: 0 <= d < |calls| && calls[d].slot == i
  }

  /** Any `n` consecutive tickets over `n` live slots use each slot exactly once, if the 64-bit
      counter does not wrap among them. */
  lemma RoundRobin(s: State, steps: seq<Step>, first: nat, calls: seq<Pick>)
    requires Initial(s)
    requires Window(Run(s, steps), first, calls) && |calls| == |s.lastSeen|
    requires first % 0x1_0000_0000_0000_0000 + |calls| <= 0x1_0000_0000_0000_0000
    ensures forall d, e :: 0 <= d < e < |calls| ==> calls[d].slot != calls[e].slot
    ensures forall i :: 0 <= i < |s.lastSeen| ==> Uses(calls, i)
  {
    hide Run, Base, Around, Justified, FoundBaseLive, Inv;
    var n, b := |calls|, Base(first, |calls|);
    EveryPickIsJustified(s, steps);
    ModBelow(first, n);
    forall d | 0 <= d < n
      ensures calls[d].slot == Around(b, d, n)
    {
      LivePicksBase(calls[d], first + d, s.timeoutMs, n);
      BaseAdvances(first, d, n);
    }
    forall d, e | 0 <= d < e < n
      ensures calls[d].slot != calls[e].slot
    {
      AroundInjective(b, d, e, n);
    }
    forall i | 0 <= i < n
      ensures Uses(calls, i)
    {
      RoundPasses(n, b, i);
      var d := if i >= b then i - b else i + n - b;
      assert calls[d].slot == i;
    }
  }

  lemma ModBelow(first: nat, n: nat)
    requires n > 0
    ensures Base(first, n) < n
  {
  }

  lemma LivePicksBase(p: Pick, ticket: nat, timeoutMs: u64, n: nat)
    requires n > 0 && Justified(p, ticket, timeoutMs, n) && FoundBaseLive(p, timeoutMs)
    ensures p.slot == Base(ticket, n)
  {
    hide Live;
    assert |p.looks| == 1;
    ModSmall(Base(ticket, n), n);
  }

  lemma BaseAdvances(first: nat, d: nat, n: nat)
    requires d < n && first % 0x1_0000_0000_0000_0000 + n <= 0x1_0000_0000_0000_0000
    ensures Base(first + d, n) == Around(Base(first, n), d, n)
  {
    var c := first % 0x1_0000_0000_0000_0000;
    assert (first + d) % 0x1_0000_0000_0000_0000 == c + d;
    ModAdd(c, d, n);
  }

  lemma AroundInjective(base: nat, d: nat, e: nat, n: nat)
    requires d < e < n
    ensures Around(base, d, n) != Around(base, e, n)
  {
    if Around(base, d, n) == Around(base, e, n) {
      var k := SameMod(base + e, base + d, n);
      SmallMultiple(k, n, e - d);
    }
  }

  /** Across a wrap of the counter the rotation goes on exactly when `n` divides 2^64. */
  lemma RotationAcrossWrap(k: nat, n: nat)
    requires n > 0
    ensures var last := k * 0x1_0000_0000_0000_0000 + 0xFFFF_FFFF_FFFF_FFFF;
            Base(last + 1, n) == Around(Base(last, n), 1, n) <==> 0x1_0000_0000_0000_0000 % n == 0
  {
    var last := k * 0x1_0000_0000_0000_0000 + 0xFFFF_FFFF_FFFF_FFFF;
    assert last % 0x1_0000_0000_0000_0000 == 0xFFFF_FFFF_FFFF_FFFF;
    assert (last + 1) % 0x1_0000_0000_0000_0000 == 0;
    ModSmall(0, n);
    ModAdd(0xFFFF_FFFF_FFFF_FFFF, 1, n);
  }
}
