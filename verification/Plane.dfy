/** plane.cpp: segments leave in at most eight messages that the kernel cuts up again, and
    coalesced buffers are cut back into the datagrams they were made of. */
module Plane {
  import opened Arith
  import opened Bytes
  import opened Conn
  import opened ConnTable
  import opened Seqs

  const HDR_LEN: nat := 10
  const MIN_PACKET: nat := 20

  // ---------------------------------------------------------------- cutting by one size

  /** What `UDP_SEGMENT` makes of a message, and what splitting a coalesced buffer gives:
      pieces of `size` bytes, the last one possibly shorter. */
  function Chop(bytes: seq<byte>, size: nat): seq<seq<byte>>
    requires size > 0
  {
    if |bytes| == 0 then []
    else if |bytes| <= size then [bytes]
    else [bytes[..size]] + Chop(bytes[size..], size)
  }

  /** All of one size, except that the last may be shorter (but not empty). */
  predicate Uniform(pieces: seq<seq<byte>>, size: nat) {
    size > 0 && forall k :: 0 <= k < |pieces| ==>
      0 < |pieces[k]| <= size && (k < |pieces| - 1 ==> |pieces[k]| == size)
  }

  /** Cutting the joined pieces gives the pieces back. */
  lemma {:induction false} ChopFlatten(pieces: seq<seq<byte>>, size: nat)
    requires Uniform(pieces, size)
    ensures Chop(Flatten(pieces), size) == pieces
  {
    if |pieces| == 1 {
      FlattenOne(pieces[0]);
      assert pieces == [pieces[0]];
    } else if |pieces| > 1 {
      var rest := pieces[1..];
      assert Uniform(rest, size);
      ChopFlatten(rest, size);
      var all := Flatten(pieces);
      assert all[..size] == pieces[0] && all[size..] == Flatten(rest);
      assert |Flatten(rest)| > 0 by { assert Flatten(rest) == rest[0] + Flatten(rest[1..]); }
    }
  }

  lemma UniformSlice(pieces: seq<seq<byte>>, size: nat, i: nat, j: nat)
    requires Uniform(pieces, size) && i <= j <= |pieces|
    ensures Uniform(pieces[i..j], size)
  {
  }

  // ---------------------------------------------------------------- sendUso

  /** One `sendmsg`: the slot it went through, the segment size given to the kernel, and the
      gathered bytes. */
  datatype Message = Message(slot: nat, gsoSize: u16, bytes: seq<byte>)

  /** An I/O vector entry: a segment buffer and a length. */
  datatype Iov = Iov(base: nat, len: nat)

  function Cut(m: Message): seq<seq<byte>> {
    if m.gsoSize == 0 then [] else Chop(m.bytes, m.gsoSize)
  }

  /** The datagrams the kernel makes of a list of messages. */
  function CutAll(sent: seq<Message>): seq<seq<byte>> {
    if sent == [] then [] else CutAll(sent[..|sent| - 1]) + Cut(sent[|sent| - 1])
  }

  /** After `n` messages of `size` segments, `i` of the `segs` segments have been sent. */
  predicate InParts(n: nat, size: nat, i: nat, segs: nat) {
    if i < segs then i == n * size else (n == 0 && segs == 0) || (n > 0 && (n - 1) * size < segs <= n * size)
  }

  /** The 64-bit counter `n` tickets later. */
  function After(rr: u64, n: nat): u64 {
    (rr + n) % 0x1_0000_0000_0000_0000
  }

  lemma AfterOne(rr: u64, n: nat)
    ensures After(rr, n + 1) == (After(rr, n) + 1) % 0x1_0000_0000_0000_0000
  {
  }

  lemma NothingSent(sent: seq<Message>, size: nat, segs: nat, rr: u64)
    requires sent == []
    ensures CutAll(sent) == [] && InParts(0, size, 0, segs) && After(rr, 0) == rr
  {
  }

  lemma PartsAdvance(n: nat, size: nat, i: nat, segs: nat)
    requires i < segs && InParts(n, size, i, segs) && size == (segs + 7) / 8
    ensures size > 0 && InParts(n + 1, size, if i + size > segs then segs else i + size, segs)
  {
    assert (n + 1) * size == n * size + size;
  }

  lemma NextPart(all: seq<seq<byte>>, segs: nat, n: nat, size: nat, i: nat, end: nat, bytes: seq<byte>)
    requires i < segs <= |all| && InParts(n, size, i, segs) && end == (if i + size > segs then segs else i + size)
    requires bytes == Flatten(all[i..end])
    ensures IsPart(all[..segs], size, n, bytes)
  {
    TakeOfTake(all, segs, i, end);
  }

  lemma EightParts(n: nat, size: nat, segs: nat)
    requires InParts(n, size, segs, segs) && size == (segs + 7) / 8
    ensures n <= 8 && (segs > 0 ==> (n - 1) * size < segs <= n * size)
  {
    if n > 8 {
      MulLe(8, n - 1, size);
    }
  }

  lemma PartIsCut(sent: seq<Message>, m: Message, segs: seq<seq<byte>>, i: nat, end: nat)
    requires i <= end <= |segs| && Uniform(segs, m.gsoSize)
    requires CutAll(sent) == segs[..i] && m.bytes == Flatten(segs[i..end])
    ensures CutAll(sent + [m]) == segs[..end]
  {
    UniformSlice(segs, m.gsoSize, i, end);
    ChopFlatten(segs[i..end], m.gsoSize);
    assert (sent + [m])[..|sent|] == sent;
    assert segs[..end] == segs[..i] + segs[i..end];
  }

  /** The `k`-th of the parts of `size` segments, of which only the last may be smaller. */
  predicate IsPart(segs: seq<seq<byte>>, size: nat, k: nat, bytes: seq<byte>) {
    var at := k * size;
    at < |segs| && bytes == Flatten(segs[at..if at + size < |segs| then at + size else |segs|])
  }

  /** Parts of segments that fit a buffer are not longer than so many buffers. */
  lemma PartFits(segs: seq<seq<byte>>, size: nat, k: nat, bytes: seq<byte>, most: nat)
    requires IsPart(segs, size, k, bytes) && forall i :: 0 <= i < |segs| ==> |segs[i]| <= most
    ensures |bytes| <= size * most
  {
    var at := k * size;
    var end := if at + size < |segs| then at + size else |segs|;
    FlattenFits(segs[at..end], most);
    MulLe(end - at, size, most);
  }

  lemma {:induction false} FlattenFits(parts: seq<seq<byte>>, most: nat)
    requires forall i :: 0 <= i < |parts| ==> |parts[i]| <= most
    ensures |Flatten(parts)| <= |parts| * most
  {
    if parts != [] {
      FlattenFits(parts[1..], most);
      assert |parts| * most == most + |parts[1..]| * most;
    }
  }

  /** The message goes through the slot that the scan from its ticket settles on. */
  predicate TakesSlot(live: seq<bool>, ticket: u64, m: Message)
    requires live != []
  {
    Settles(live, ticket % |live|, m.slot)
  }

  /** Every message carries its part, with the size of a segment, through the slot of its ticket. */
  ghost predicate SentWell(sent: seq<Message>, live: seq<bool>, rr: u64, gsoSize: u16, segs: seq<seq<byte>>, size: nat)
    requires live != []
  {
    forall k :: 0 <= k < |sent| ==>
      TakesSlot(live, After(rr, k), sent[k]) && sent[k].gsoSize == gsoSize && IsPart(segs, size, k, sent[k].bytes)
  }

  lemma SentNone(live: seq<bool>, rr: u64, gsoSize: u16, segs: seq<seq<byte>>, size: nat)
    requires live != []
    ensures SentWell([], live, rr, gsoSize, segs, size)
  {
  }

  lemma SentOne(sent: seq<Message>, live: seq<bool>, rr: u64, gsoSize: u16, segs: seq<seq<byte>>, size: nat, m: Message)
    requires live != [] && SentWell(sent, live, rr, gsoSize, segs, size)
    requires TakesSlot(live, After(rr, |sent|), m) && m.gsoSize == gsoSize && IsPart(segs, size, |sent|, m.bytes)
    ensures SentWell(sent + [m], live, rr, gsoSize, segs, size)
  {
    hide TakesSlot, IsPart, After;
  }

  lemma SentMeans(sent: seq<Message>, live: seq<bool>, rr: u64, gsoSize: u16, segs: seq<seq<byte>>, size: nat)
    requires live != [] && SentWell(sent, live, rr, gsoSize, segs, size)
    ensures forall k :: 0 <= k < |sent| ==> TakesSlot(live, After(rr, k), sent[k])
    ensures forall k :: 0 <= k < |sent| ==> sent[k].gsoSize == gsoSize && IsPart(segs, size, k, sent[k].bytes)
  {
    hide TakesSlot, IsPart, After;
  }

  class TunReaderScratch {
    const segBufs: seq<array<byte>>
    const segSizes: array<nat>
    const iovs: array<Iov>

    ghost predicate Valid()
      reads segSizes
    {
      && segSizes.Length == |segBufs| == iovs.Length > 0
      && forall k :: 0 <= k < |segBufs| ==> segSizes[k] <= segBufs[k].Length
    }

    constructor (segBufs: seq<array<byte>>, segSizes: array<nat>, iovs: array<Iov>)
      ensures this.segBufs == segBufs && this.segSizes == segSizes && this.iovs == iovs
    {
      this.segBufs, this.segSizes, this.iovs := segBufs, segSizes, iovs;
    }

    /** The first `n` segments. */
    ghost function Segs(n: nat): (segs: seq<seq<byte>>)
      requires Valid() && n <= |segBufs|
      reads segSizes, segBufs
      ensures |segs| == n && forall k :: 0 <= k < n ==> segs[k] == segBufs[k][..segSizes[k]]
    {
      if n == 0 then [] else Segs(n - 1) + [segBufs[n - 1][..segSizes[n - 1]]]
    }

    /** What the kernel gathers from `iovs[i..end]`. */
    method Gather(i: nat, end: nat) returns (bytes: seq<byte>)
      requires Valid() && i <= end <= |segBufs|
      requires forall k :: i <= k < end ==> iovs[k] == Iov(k, segSizes[k])
      ensures bytes == Flatten(Segs(|segBufs|)[i..end])
    {
      bytes := [];
      ghost var segs := Segs(|segBufs|);
      for k := i to end
        invariant bytes == Flatten(segs[i..k])
      {
        FlattenPush(segs[i..k], segs[k]);
        assert segs[i..k + 1] == segs[i..k] + [segs[k]];
        bytes := bytes + segBufs[iovs[k].base][..iovs[k].len];
      }
    }

    /** One message with segments `i..end`, through the next slot. */
    method SendPart(conn: Conn, i: nat, end: nat, gsoSize: u16, now: u64) returns (m: Message)
      requires Valid() && i < end <= |segBufs| && conn.slots != []
      modifies iovs, conn`rr
      ensures conn.rr == (old(conn.rr) + 1) % 0x1_0000_0000_0000_0000
      ensures m.gsoSize == gsoSize && m.bytes == Flatten(Segs(|segBufs|)[i..end])
      ensures TakesSlot(LiveSlots(conn.slots, now, conn.timeoutMs), old(conn.rr), m)
    {
      hide Settles, LiveSlots, Segs;
      for k := i to end
        invariant conn.rr == old(conn.rr)
        invariant forall l :: i <= l < k ==> iovs[l] == Iov(l, segSizes[l])
      {
        iovs[k] := Iov(k, segSizes[k]);
      }
      var slot, idx := conn.Next(now);
      var bytes := Gather(i, end);
      m := Message(idx, gsoSize, bytes);
    }

    /** `sendUso`. The messages, cut up by the kernel, are the segments; there are at most eight,
        each with an eighth of the segments, rounded up, and each takes one ticket of the round
        robin. */
    method SendUso(conn: Conn, segs: nat, now: u64) returns (sent: seq<Message>)
      requires Valid() && segs <= |segBufs| && conn.slots != []
      modifies iovs, conn`rr
      ensures |sent| <= 8 && (segs > 0 ==> (|sent| - 1) * ((segs + 7) / 8) < segs <= |sent| * ((segs + 7) / 8))
      ensures forall k :: 0 <= k < |sent| ==>
                sent[k].gsoSize == segSizes[0] % 0x1_0000 && IsPart(Segs(segs), (segs + 7) / 8, k, sent[k].bytes)
      ensures conn.rr == After(old(conn.rr), |sent|)
      ensures var live := LiveSlots(conn.slots, now, conn.timeoutMs);
              forall k :: 0 <= k < |sent| ==> TakesSlot(live, After(old(conn.rr), k), sent[k])
      ensures segSizes[0] < 0x1_0000 && Uniform(Segs(segs), segSizes[0]) ==> CutAll(sent) == Segs(segs)
    {
      hide Uniform, CutAll, Cut, After, Segs, InParts, TakesSlot, LiveSlots, IsPart, SentWell, Flatten;
      var partSize := (segs + 7) / 8; // USO_PARTS = 8
      var gsoSize: u16 := segSizes[0] % 0x1_0000;
      ghost var all := Segs(|segBufs|);
      ghost var live := LiveSlots(conn.slots, now, conn.timeoutMs);
      ghost var uniform := segSizes[0] < 0x1_0000 && Uniform(Segs(segs), segSizes[0]);
      SegsPrefix(segs, |segBufs|);
      var i := 0;
      sent := [];
      NothingSent(sent, partSize, segs, conn.rr);
      SentNone(live, conn.rr, gsoSize, all[..segs], partSize);
      while i < segs
        invariant i <= segs && InParts(|sent|, partSize, i, segs)
        invariant conn.rr == After(old(conn.rr), |sent|)
        invariant uniform ==> CutAll(sent) == all[..i]
        invariant SentWell(sent, live, old(conn.rr), gsoSize, all[..segs], partSize)
        decreases segs - i
      {
        var end := i + partSize;
        if end > segs {
          end := segs;
        }
        PartsAdvance(|sent|, partSize, i, segs);
        var m := SendPart(conn, i, end, gsoSize, now);
        NextPart(all, segs, |sent|, partSize, i, end, m.bytes);
        if uniform {
          TakeOfTake(all, segs, i, end);
          PartIsCut(sent, m, all[..segs], i, end);
        }
        AfterOne(old(conn.rr), |sent|);
        SentOne(sent, live, old(conn.rr), gsoSize, all[..segs], partSize, m);
        sent := sent + [m];
        i := end;
      }
      EightParts(|sent|, partSize, segs);
      SentMeans(sent, live, old(conn.rr), gsoSize, all[..segs], partSize);
    }

    lemma SegsPrefix(n: nat, m: nat)
      requires Valid() && n <= m <= |segBufs|
      ensures |Segs(m)| == m && Segs(m)[..n] == Segs(n)
    {
    }
  }

  // ---------------------------------------------------------------- udpReader

  /** The TUN device: the frames written to it, each with its virtio header in front. */
  class Tun {
    var frames: seq<seq<byte>>

    constructor ()
      ensures frames == []
    {
      frames := [];
    }

    method Write(frame: seq<byte>)
      modifies this
      ensures frames == old(frames) + [frame]
    {
      frames := frames + [frame];
    }
  }

  /** A received message: where it came from, its length, and the size the kernel reports for
      a coalesced buffer (0 when it reports none). */
  datatype Received = Received(from: Addr, len: nat, gro: int)

  const ZERO_HDR: seq<byte> := [0, 0, 0, 0, 0, 0, 0, 0, 0, 0]

  /** The packets that come out of one received payload. */
  function Packets(payload: seq<byte>, gro: int): seq<seq<byte>> {
    if |payload| < MIN_PACKET then []
    else if 0 < gro < |payload| then Chop(payload, gro)
    else [payload]
  }

  function Framed(packets: seq<seq<byte>>): seq<seq<byte>> {
    if packets == [] then [] else [ZERO_HDR + packets[0]] + Framed(packets[1..])
  }

  lemma {:induction false} FramedAppend(a: seq<seq<byte>>, b: seq<seq<byte>>)
    ensures Framed(a + b) == Framed(a) + Framed(b)
  {
    if a == [] {
      assert a + b == b;
    } else {
      assert (a + b)[1..] == a[1..] + b;
      FramedAppend(a[1..], b);
    }
  }

  lemma ChopStep(bytes: seq<byte>, size: nat)
    requires size > 0 && bytes != []
    ensures var n := if size > |bytes| then |bytes| else size;
            Framed(Chop(bytes, size)) == [ZERO_HDR + bytes[..n]] + Framed(Chop(bytes[n..], size))
  {
    var n := if size > |bytes| then |bytes| else size;
    assert |bytes| <= size ==> bytes[..n] == bytes && bytes[n..] == [];
    assert Chop(bytes, size) == [bytes[..n]] + Chop(bytes[n..], size);
    FramedAppend([bytes[..n]], Chop(bytes[n..], size));
    assert Framed([bytes[..n]]) == [ZERO_HDR + bytes[..n]] + Framed([]);
  }

  /** Ten zero bytes in front of the `k`-th piece of `size` bytes. */
  predicate IsSlice(frame: seq<byte>, payload: seq<byte>, k: nat, size: nat) {
    var at := k * size;
    && at < |payload|
    && frame == [0, 0, 0, 0, 0, 0, 0, 0, 0, 0] + payload[at..if at + size < |payload| then at + size else |payload|]
  }

  /** All of them. */
  ghost predicate AreSlices(frames: seq<seq<byte>>, payload: seq<byte>, size: nat) {
    && |payload| <= |frames| * size
    && forall k :: 0 <= k < |frames| ==> IsSlice(frames[k], payload, k, size)
  }

  lemma {:induction false} FramesAre(payload: seq<byte>, size: nat)
    requires size > 0
    ensures AreSlices(Framed(Chop(payload, size)), payload, size)
    decreases |payload|
  {
    var frames := Framed(Chop(payload, size));
    if payload != [] {
      var n := if size > |payload| then |payload| else size;
      ChopStep(payload, size);
      FramesAre(payload[n..], size);
      var rest := Framed(Chop(payload[n..], size));
      assert |frames| * size == size + |rest| * size;
      forall k | 0 <= k < |frames| ensures IsSlice(frames[k], payload, k, size) {
        if k > 0 {
          SliceBehind(rest[k - 1], payload, n, k, size);
        }
      }
    }
  }

  /** What is written of a received payload: nothing of a probe, a payload as it is behind ten zero
      bytes when the kernel has coalesced nothing, and otherwise piece by piece. */
  lemma FramedPackets(payload: seq<byte>, gro: int)
    ensures var frames := Framed(Packets(payload, gro));
            if |payload| < 20 then frames == []
            else if 0 < gro < |payload| then AreSlices(frames, payload, gro)
            else frames == [[0, 0, 0, 0, 0, 0, 0, 0, 0, 0] + payload]
  {
    hide Chop;
    NoFrames();
    OneFrame(payload);
    if 0 < gro < |payload| {
      FramesAre(payload, gro);
    }
  }

  lemma SliceBehind(frame: seq<byte>, payload: seq<byte>, n: nat, k: nat, size: nat)
    requires k > 0 && n <= |payload| && n == (if size > |payload| then |payload| else size)
    requires IsSlice(frame, payload[n..], k - 1, size)
    ensures IsSlice(frame, payload, k, size)
  {
    assert k * size == (k - 1) * size + size;
    RestOfRest(payload, n, size, (k - 1) * size, k * size);
  }

  lemma RestOfRest(payload: seq<byte>, n: nat, size: nat, at: nat, next: nat)
    requires n <= |payload| && n == (if size > |payload| then |payload| else size)
    requires at < |payload[n..]| && next == at + size
    ensures next < |payload|
    ensures payload[n..][at..if at + size < |payload[n..]| then at + size else |payload[n..]|]
         == payload[next..if next + size < |payload| then next + size else |payload|]
  {
  }

  class UdpReaderScratch {
    /** Every buffer starts with a zeroed virtio header; payloads are received behind it. */
    const bufs: seq<array<byte>>

    ghost predicate Valid()
      reads bufs
    {
      forall i :: 0 <= i < |bufs| ==> bufs[i].Length >= HDR_LEN && bufs[i][..HDR_LEN] == ZERO_HDR
    }

    constructor (bufs: seq<array<byte>>)
      ensures this.bufs == bufs
    {
      this.bufs := bufs;
    }

    /** The tail of the receive loop for message `i`: write out what it holds. */
    method WriteOut(tun: Tun, i: nat, payloadLen: nat, gsoSize: int)
      requires Valid() && i < |bufs| && HDR_LEN + payloadLen <= bufs[i].Length
      modifies tun
      ensures tun.frames == old(tun.frames) + Framed(Packets(bufs[i][10..10 + payloadLen], gsoSize))
    {
      hide Framed, Chop;
      ghost var payload := bufs[i][HDR_LEN..HDR_LEN + payloadLen];
      NoFrames();
      if payloadLen < MIN_PACKET {
        return;
      }
      if gsoSize > 0 && gsoSize < payloadLen {
        var off := 0;
        ghost var was := tun.frames;
        assert payload[0..] == payload;
        while off < payloadLen
          invariant off <= payloadLen
          invariant was + Framed(Chop(payload, gsoSize)) == tun.frames + Framed(Chop(payload[off..], gsoSize))
        {
          var chunk := gsoSize;
          if chunk > payloadLen - off {
            chunk := payloadLen - off;
          }
          ChopStep(payload[off..], gsoSize);
          assert payload[off..][..chunk] == bufs[i][HDR_LEN + off..HDR_LEN + off + chunk];
          assert payload[off..][chunk..] == payload[off + chunk..];
          tun.Write(ZERO_HDR + bufs[i][HDR_LEN + off..HDR_LEN + off + chunk]);
          off := off + chunk;
        }
        NothingLeft(payload[off..], gsoSize);
      } else {
        OneFrame(payload);
        assert bufs[i][..HDR_LEN + payloadLen] == ZERO_HDR + payload;
        tun.Write(bufs[i][..HDR_LEN + payloadLen]);
      }
    }

    /** What the first `n` messages of a batch put on the TUN device. */
    ghost function Output(batch: seq<Received>, n: nat): seq<seq<byte>>
      requires n <= |batch| <= |bufs| && Fits(batch)
      reads bufs
    {
      if n == 0 then []
      else Output(batch, n - 1) + Packets(bufs[n - 1][HDR_LEN..HDR_LEN + batch[n - 1].len], batch[n - 1].gro)
    }

    predicate Fits(batch: seq<Received>) {
      |batch| <= |bufs| && forall i :: 0 <= i < |batch| ==> HDR_LEN + batch[i].len <= bufs[i].Length
    }

    /** Any incoming message is evidence for the slot it is looked up as, and for no other. */
    method StoreLastSeen(table: ConnTable, srcIdx: u32, from: Addr, now: u64)
      requires Agrees(table.allSlots, table.byEntry)
      modifies table.allSlots
      ensures forall slot :: slot in table.allSlots ==>
                slot.lastSeen == if table.LookupSlot(srcIdx, from) == slot then now else old(slot.lastSeen)
    {
      hide Agrees;
      var slot := table.LookupSlot(srcIdx, from);
      if slot != null {
        IndexedSlotsOnly(table, srcIdx, from);
        slot.lastSeen := now;
      }
    }

    /** One round of `udpReader` on socket `srcIdx`: the batch lies in the buffers. Every message
        is a sign of life for its slot, and every packet it holds goes out in order. */
    method ReadBatch(batch: seq<Received>, srcIdx: u32, table: ConnTable, tun: Tun, now: u64)
      requires Valid() && Fits(batch) && Agrees(table.allSlots, table.byEntry)
      modifies tun, table.allSlots
      ensures tun.frames == old(tun.frames) + Framed(Output(batch, |batch|))
      ensures forall slot :: slot in table.allSlots ==>
                slot.lastSeen == if Heard(table, batch, |batch|, srcIdx, slot) then now else old(slot.lastSeen)
    {
      hide Framed, Packets, Agrees;
      NoFrames();
      for i := 0 to |batch|
        invariant tun.frames == old(tun.frames) + Framed(Output(batch, i))
        invariant forall slot :: slot in table.allSlots ==>
                    slot.lastSeen == if Heard(table, batch, i, srcIdx, slot) then now else old(slot.lastSeen)
      {
        StoreLastSeen(table, srcIdx, batch[i].from, now);
        FramedAppend(Output(batch, i), Packets(bufs[i][HDR_LEN..HDR_LEN + batch[i].len], batch[i].gro));
        WriteOut(tun, i, batch[i].len, batch[i].gro);
      }
    }
  }

  lemma NoFrames()
    ensures Framed([]) == []
  {
  }

  lemma OneFrame(p: seq<byte>)
    ensures Framed([p]) == [ZERO_HDR + p]
  {
    assert Framed([p]) == [ZERO_HDR + p] + Framed([]);
  }

  lemma NothingLeft(bytes: seq<byte>, size: nat)
    requires size > 0
    ensures bytes == [] ==> Framed(Chop(bytes, size)) == []
  {
  }

  /** One of the first `n` messages came through the mirror of `slot`. */
  ghost predicate Heard(table: ConnTable, batch: seq<Received>, n: nat, srcIdx: u32, slot: ConnSlot)
    requires n <= |batch|
    reads table`byEntry
  {
    exists i :: 0 <= i < n && table.LookupSlot(srcIdx, batch[i].from) == slot
  }

  lemma IndexedSlotsOnly(table: ConnTable, srcIdx: u32, from: Addr)
    requires Agrees(table.allSlots, table.byEntry) && table.LookupSlot(srcIdx, from) != null
    ensures table.LookupSlot(srcIdx, from) in table.allSlots
  {
    var key := EntryKey(srcIdx, from.ip);
    assert LastWith(table.allSlots, key, table.byEntry[key]);
  }
}
