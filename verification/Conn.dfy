/** conn.cpp: the slot table of a node and the shared round-robin choice of a slot. */
module Conn {
  import opened Bytes

  datatype Addr = Addr(ip: u32, port: u16)
  datatype Peer = Peer(vip: u32, dsts: seq<Addr>)

  // ---------------------------------------------------------------- liveness of a slot

  /** `now - ls <= timeoutMs_` on unsigned 64-bit numbers. */
  predicate Live(now: u64, lastSeen: u64, timeoutMs: u64) {
    (now - lastSeen) % 0x1_0000_0000_0000_0000 <= timeoutMs
  }

  /** A slot is live when it was heard of at most `timeoutMs` ago; one heard of "after" `now` is
      dead, unless it is so far ahead that the subtraction wraps to within the timeout. */
  lemma LiveMeans(now: u64, lastSeen: u64, timeoutMs: u64)
    ensures Live(now, lastSeen, timeoutMs) <==>
              if lastSeen <= now then now <= lastSeen + timeoutMs
              else 0x1_0000_0000_0000_0000 <= (lastSeen - now) + timeoutMs
  {
  }

  // ---------------------------------------------------------------- slots and connections

  class ConnSlot {
    const srcAddr: Addr
    const srcIdx: u32
    const dstAddr: Addr
    var lastSeen: u64

    constructor (srcAddr: Addr, srcIdx: u32, dstAddr: Addr, startMs: u64)
      ensures this.srcAddr == srcAddr && this.srcIdx == srcIdx && this.dstAddr == dstAddr && lastSeen == startMs
    {
      this.srcAddr, this.srcIdx, this.dstAddr, this.lastSeen := srcAddr, srcIdx, dstAddr, startMs;
    }
  }

  /** The `k`-th slot of a scan from `base`. */
  function Around(base: nat, k: nat, n: nat): (i: nat)
    requires n > 0
    ensures i < n
  {
    (base + k) % n
  }

  /** `idx` is what the scan from `base` settles on: the first live slot at or after `base`,
      going round, or `base` itself when no slot is live. */
  predicate Settles(live: seq<bool>, base: nat, idx: nat)
    requires base < |live|
  {
    if exists i :: 0 <= i < |live| && live[i]
    then exists k :: 0 <= k < |live| && idx == Around(base, k, |live|) && live[idx] && DeadBefore(live, base, k)
    else idx == base
  }

  predicate DeadBefore(live: seq<bool>, base: nat, k: nat)
    requires base < |live|
  {
    forall j :: 0 <= j < k ==> !live[Around(base, j, |live|)]
  }

  /** Going once round from any base passes every slot. */
  lemma RoundPasses(n: nat, base: nat, i: nat)
    requires base < n && i < n
    ensures var k := if i >= base then i - base else i + n - base;
            k < n && Around(base, k, n) == i
  {
    if i < base {
      WrapOnce(i, n);
    } else {
      Below(i, n);
    }
  }

  lemma WrapOnce(i: nat, n: nat)
    requires i < n
    ensures (i + n) % n == i
  {
  }

  lemma Below(i: nat, n: nat)
    requires i < n
    ensures i % n == i
  {
  }

  lemma AllDead(live: seq<bool>, base: nat)
    requires base < |live| && DeadBefore(live, base, |live|)
    ensures forall i :: 0 <= i < |live| ==> !live[i]
  {
    forall i | 0 <= i < |live| ensures !live[i] {
      RoundPasses(|live|, base, i);
      var k := if i >= base then i - base else i + |live| - base;
      assert !live[Around(base, k, |live|)];
    }
  }

  /** Which slots are live at `now`. */
  function LiveSlots(slots: seq<ConnSlot>, now: u64, timeoutMs: u64): (live: seq<bool>)
    reads slots
    ensures |live| == |slots|
    ensures forall i :: 0 <= i < |slots| ==> live[i] == Live(now, slots[i].lastSeen, timeoutMs)
  {
    if slots == [] then [] else
      var n := |slots| - 1;
      LiveSlots(slots[..n], now, timeoutMs) + [Live(now, slots[n].lastSeen, timeoutMs)]
  }

  class Conn {
    const vip: u32
    const timeoutMs: u64
    var slots: seq<ConnSlot>
    var rr: u64

    constructor (vip: u32, timeoutMs: u64)
      ensures this.vip == vip && this.timeoutMs == timeoutMs && slots == [] && rr == 0
    {
      this.vip, this.timeoutMs, this.slots, this.rr := vip, timeoutMs, [], 0;
    }

    /** `ConnImpl::next`. The slot list of a connection is never empty (peer.cpp:113-115 and
        the local endpoint list). */
    method Next(now: u64) returns (slot: ConnSlot, idx: nat)
      requires slots != []
      modifies this`rr
      ensures rr == (old(rr) + 1) % 0x1_0000_0000_0000_0000
      ensures idx < |slots| && slot == slots[idx]
      ensures Settles(LiveSlots(slots, now, timeoutMs), old(rr) % |slots|, idx)
    {
      hide Around, Live, LiveSlots;
      var n := |slots|;
      var c := rr;
      rr := (rr + 1) % 0x1_0000_0000_0000_0000;
      var base := c % n;
      ghost var live := LiveSlots(slots, now, timeoutMs);
      var k := 0;
      while k < n
        invariant k <= n && DeadBefore(live, base, k)
      {
        var i := Around(base, k, n);
        if Live(now, slots[i].lastSeen, timeoutMs) {
          assert live[i];
          return slots[i], i;
        }
        k := k + 1;
      }
      AllDead(live, base);
      slot, idx := slots[base], base;
    }
  }

  /** How far slot `i` is from `base`, going round. */
  function Ahead(base: nat, i: nat, n: nat): nat
    requires base < n && i < n
  {
    if i >= base then i - base else i + n - base
  }

  /** In terms of places: the base when all slots are dead, otherwise a live slot with none nearer
      ahead of the base. */
  lemma SettlesMeans(live: seq<bool>, base: nat, idx: nat)
    requires base < |live| && Settles(live, base, idx)
    ensures idx < |live| && ((forall i :: 0 <= i < |live| ==> !live[i]) ==> idx == base)
    ensures forall i: nat :: i < |live| && live[i] ==>
              live[idx] && Ahead(base, idx, |live|) <= Ahead(base, i, |live|)
  {
    forall i: nat | i < |live| && live[i]
      ensures live[idx] && idx < |live| && Ahead(base, idx, |live|) <= Ahead(base, i, |live|)
    {
      NearestLive(live, base, idx, i);
    }
  }

  lemma NearestLive(live: seq<bool>, base: nat, idx: nat, i: nat)
    requires base < |live| && Settles(live, base, idx) && i < |live| && live[i]
    ensures idx < |live| && live[idx] && Ahead(base, idx, |live|) <= Ahead(base, i, |live|)
  {
    hide Around;
    var k :| 0 <= k < |live| && idx == Around(base, k, |live|) && live[idx] && DeadBefore(live, base, k);
    RoundPasses(|live|, base, i);
    AheadOf(base, k, |live|);
  }

  lemma AheadOf(base: nat, k: nat, n: nat)
    requires base < n && k < n
    ensures Ahead(base, Around(base, k, n), n) == k
  {
    if base + k < n {
      Below(base + k, n);
    } else {
      WrapOnce(base + k - n, n);
    }
  }

  /** A dead slot is chosen only when every slot is dead. */
  lemma DeadOnlyIfAllDead(live: seq<bool>, base: nat, idx: nat)
    requires base < |live| && Settles(live, base, idx)
    ensures idx < |live|
    ensures live[idx] <==> exists i :: 0 <= i < |live| && live[i]
  {
  }
}
