/** From one TUN device to the other: what comes out is what `gsoSplit` put in. */
module PlaneProof {
  import opened Bytes
  import opened Conn
  import opened ConnTable
  import opened Fields
  import opened Gso
  import opened GsoProof
  import opened Plane
  import opened Seqs

  // ---------------------------------------------------------------- segments suit sendUso

  /** The segments of a packet all have the size of the first, except perhaps the last. */
  lemma SegmentsAreUniform(segs: seq<seq<byte>>, pkt: seq<byte>, len: nat, hdr: VirtioNetHdr)
    requires TcpV4Layout(hdr) && hdr.hdrLen <= |pkt| && len <= |pkt| && hdr.gsoSize > 0
    requires segs != [] && AreSegments(segs, pkt, len, hdr)
    requires DataAt(hdr, |segs| - 1) < len
    ensures Uniform(segs, |segs[0]|)
    ensures forall i :: 0 <= i < |segs| ==> |segs[i]| >= MIN_PACKET
  {
    hide Segment, DataAt;
    var n := |segs|;
    forall i | 0 <= i < n
      ensures hdr.hdrLen <= |segs[i]| <= hdr.hdrLen + hdr.gsoSize
      ensures i < n - 1 ==> |segs[i]| == hdr.hdrLen + hdr.gsoSize
      ensures i == n - 1 ==> |segs[i]| > hdr.hdrLen
    {
      SegmentSize(pkt, len, hdr, i);
      DataAtStep(hdr, i, n - 1);
      if i < n - 1 {
        DataAtStep(hdr, i + 1, n - 1);
      }
    }
  }

  lemma SegmentSize(pkt: seq<byte>, len: nat, hdr: VirtioNetHdr, i: nat)
    requires TcpV4Layout(hdr) && hdr.hdrLen <= |pkt| && DataAt(hdr, i) <= len <= |pkt|
    ensures |Segment(pkt, len, hdr, i)| == hdr.hdrLen + (DataEnd(hdr, len, i) - DataAt(hdr, i))
  {
    hide Segment, DataAt, DataEnd, GetBE16, GetBE32, WithoutFinPsh;
    SegmentFields(pkt, len, hdr, i);
  }

  // ---------------------------------------------------------------- coalescing and back

  /** What the receiving kernel may coalesce: consecutive datagrams of one path and one size,
      of which only the last may be shorter. A single datagram is always left alone. */
  predicate LegalGroup(ds: seq<seq<byte>>) {
    ds != [] && (|ds| == 1 || Uniform(ds, |ds[0]|))
  }

  /** The size it then reports. */
  function GroSize(ds: seq<seq<byte>>): int {
    if |ds| <= 1 then 0 else |ds[0]|
  }

  /** `udpReader` takes a coalesced buffer apart into exactly the datagrams that went in, in
      order; only a buffer shorter than an IPv4 header is dropped. */
  lemma GroupComesBack(ds: seq<seq<byte>>)
    requires LegalGroup(ds)
    ensures Packets(Flatten(ds), GroSize(ds)) == if |Flatten(ds)| < MIN_PACKET then [] else ds
  {
    if |ds| == 1 {
      FlattenOne(ds[0]);
      assert ds == [ds[0]];
    } else {
      ChopFlatten(ds, |ds[0]|);
      assert Flatten(ds) == ds[0] + Flatten(ds[1..]);
      assert Flatten(ds[1..]) == ds[1] + Flatten(ds[1..][1..]);
    }
  }

  // ---------------------------------------------------------------- the whole way

  /** A datagram on the path that belongs to a slot. */
  datatype Wire = Wire(path: nat, bytes: seq<byte>)

  function Wires(path: nat, ds: seq<seq<byte>>): seq<Wire> {
    if ds == [] then [] else [Wire(path, ds[0])] + Wires(path, ds[1..])
  }

  /** What the sending kernel puts on the paths. */
  function OnWire(sent: seq<Message>): seq<Wire> {
    if sent == [] then [] else OnWire(sent[..|sent| - 1]) + Wires(sent[|sent| - 1].slot, Cut(sent[|sent| - 1]))
  }

  /** A buffer as it arrives: the datagrams it was coalesced from, and their path. */
  datatype Group = Group(path: nat, ds: seq<seq<byte>>)

  function Arrived(groups: seq<Group>): seq<Wire> {
    if groups == [] then []
    else
      var last := groups[|groups| - 1];
      Arrived(groups[..|groups| - 1]) + Wires(last.path, last.ds)
  }

  /** What `udpReader` writes for these buffers. */
  function Written(groups: seq<Group>): seq<seq<byte>> {
    if groups == [] then []
    else
      var last := groups[|groups| - 1];
      Written(groups[..|groups| - 1]) + Packets(Flatten(last.ds), GroSize(last.ds))
  }

  /** Packets are coalesced with packets only; a probe arrives on its own. */
  predicate PacketsOrProbe(g: Group) {
    LegalGroup(g.ds) && (|g.ds| == 1 || forall k :: 0 <= k < |g.ds| ==> |g.ds[k]| >= MIN_PACKET)
  }

  /** The packets among the datagrams: everything but probes. */
  function Data(ws: seq<Wire>): seq<Wire> {
    if ws == [] then []
    else Data(ws[..|ws| - 1]) + if |ws[|ws| - 1].bytes| >= MIN_PACKET then [ws[|ws| - 1]] else []
  }

  function OnPath(ws: seq<Wire>, path: nat): seq<seq<byte>> {
    if ws == [] then []
    else (if ws[0].path == path then [ws[0].bytes] else []) + OnPath(ws[1..], path)
  }

  function Contents(ws: seq<Wire>): seq<seq<byte>> {
    seq(|ws|, i requires 0 <= i < |ws| => ws[i].bytes)
  }

  lemma {:induction false} WiresBytes(path: nat, ds: seq<seq<byte>>)
    ensures Contents(Wires(path, ds)) == ds
  {
    if ds != [] {
      WiresBytes(path, ds[1..]);
      assert Contents(Wires(path, ds)) == [ds[0]] + Contents(Wires(path, ds[1..]));
    }
  }

  lemma BytesAppend(a: seq<Wire>, b: seq<Wire>)
    ensures Contents(a + b) == Contents(a) + Contents(b)
  {
  }

  lemma {:induction false} OnWireBytes(sent: seq<Message>)
    ensures Contents(OnWire(sent)) == CutAll(sent)
  {
    if sent != [] {
      var p, m := sent[..|sent| - 1], sent[|sent| - 1];
      OnWireBytes(p);
      WiresBytes(m.slot, Cut(m));
      BytesAppend(OnWire(p), Wires(m.slot, Cut(m)));
    }
  }

  lemma {:induction false} DataAppend(a: seq<Wire>, b: seq<Wire>)
    ensures Data(a + b) == Data(a) + Data(b)
  {
    if b == [] {
      assert a + b == a;
    } else {
      assert (a + b)[..|a + b| - 1] == a + b[..|b| - 1];
      DataAppend(a, b[..|b| - 1]);
    }
  }

  lemma {:induction false} DataOfWires(path: nat, ds: seq<seq<byte>>)
    requires forall k :: 0 <= k < |ds| ==> |ds[k]| >= MIN_PACKET
    ensures Data(Wires(path, ds)) == Wires(path, ds)
  {
    if ds != [] {
      DataOfWires(path, ds[1..]);
      var w := [Wire(path, ds[0])];
      DataAppend(w, Wires(path, ds[1..]));
      assert Data(w) == Data([]) + w;
    }
  }

  lemma DataOfProbe(path: nat, d: seq<byte>)
    requires |d| < MIN_PACKET
    ensures Data(Wires(path, [d])) == []
  {
    assert Wires(path, [d]) == [Wire(path, d)] + Wires(path, [d][1..]);
    assert Data([Wire(path, d)]) == Data([]) + [];
  }

  /** What is written is what arrived, probes left out. */
  lemma {:induction false} WrittenIsData(groups: seq<Group>)
    requires forall g :: 0 <= g < |groups| ==> PacketsOrProbe(groups[g])
    ensures Written(groups) == Contents(Data(Arrived(groups)))
  {
    if groups != [] {
      hide Packets;
      var p, g := groups[..|groups| - 1], groups[|groups| - 1];
      WrittenIsData(p);
      DataAppend(Arrived(p), Wires(g.path, g.ds));
      BytesAppend(Data(Arrived(p)), Data(Wires(g.path, g.ds)));
      GroupComesBack(g.ds);
      if |g.ds| == 1 && |g.ds[0]| < MIN_PACKET {
        assert g.ds == [g.ds[0]];
        FlattenOne(g.ds[0]);
        DataOfProbe(g.path, g.ds[0]);
      } else {
        assert Flatten(g.ds) == g.ds[0] + Flatten(g.ds[1..]);
        DataOfWires(g.path, g.ds);
        WiresBytes(g.path, g.ds);
      }
    }
  }

  lemma {:induction false} OnPathAppend(a: seq<Wire>, b: seq<Wire>, path: nat)
    ensures OnPath(a + b, path) == OnPath(a, path) + OnPath(b, path)
  {
    if a == [] {
      assert a + b == b;
    } else {
      assert (a + b)[1..] == a[1..] + b;
      OnPathAppend(a[1..], b, path);
    }
  }

  lemma {:induction false} FirstOnPath(ws: seq<Wire>, path: nat) returns (x: nat)
    requires OnPath(ws, path) != []
    ensures x < |ws| && ws[x] == Wire(path, OnPath(ws, path)[0]) && OnPath(ws[..x], path) == []
  {
    if ws[0].path == path {
      x := 0;
    } else {
      x := FirstOnPath(ws[1..], path);
      x := x + 1;
      assert ws[..x] == [ws[0]] + ws[1..][..x - 1];
      OnPathAppend([ws[0]], ws[1..][..x - 1], path);
    }
  }

  /** Two lists that agree path by path carry the same datagrams. */
  lemma {:induction false} SamePathsSameMultiset(a: seq<Wire>, b: seq<Wire>)
    requires forall path :: OnPath(a, path) == OnPath(b, path)
    ensures multiset(Contents(a)) == multiset(Contents(b))
    decreases |a|
  {
    if a == [] {
      if b != [] {
        assert OnPath(b, b[0].path) == [b[0].bytes] + OnPath(b[1..], b[0].path);
        assert OnPath(a, b[0].path) == [];
      }
    } else {
      assert OnPath(a, a[0].path) == [a[0].bytes] + OnPath(a[1..], a[0].path);
      var x := FirstOnPath(b, a[0].path);
      forall path ensures OnPath(a[1..], path) == OnPath(b[..x] + b[x + 1..], path) {
        TailsAgree(a, b, x, path);
      }
      SamePathsSameMultiset(a[1..], b[..x] + b[x + 1..]);
      Reinsert(a, b, x);
    }
  }

  lemma TailsAgree(a: seq<Wire>, b: seq<Wire>, x: nat, path: nat)
    requires a != [] && x < |b| && b[x] == a[0] && OnPath(b[..x], b[x].path) == []
    requires OnPath(a, path) == OnPath(b, path)
    ensures OnPath(a[1..], path) == OnPath(b[..x] + b[x + 1..], path)
  {
    Without(b, x, path);
    SameTail(if a[0].path == path then [a[0].bytes] else [], OnPath(a[1..], path), OnPath(b[..x] + b[x + 1..], path));
  }

  lemma Reinsert(a: seq<Wire>, b: seq<Wire>, x: nat)
    requires a != [] && x < |b| && b[x] == a[0]
    requires multiset(Contents(a[1..])) == multiset(Contents(b[..x] + b[x + 1..]))
    ensures multiset(Contents(a)) == multiset(Contents(b))
  {
    assert Contents(a) == [a[0].bytes] + Contents(a[1..]);
    assert Contents(b) == Contents(b[..x]) + [a[0].bytes] + Contents(b[x + 1..]);
    BytesAppend(b[..x], b[x + 1..]);
  }

  lemma SameTail(h: seq<seq<byte>>, s: seq<seq<byte>>, t: seq<seq<byte>>)
    requires h + s == h + t
    ensures s == t
  {
    assert (h + s)[|h|..] == s && (h + t)[|h|..] == t;
  }

  /** Taking out the first datagram of its path shortens that path by one and no other. */
  lemma Without(b: seq<Wire>, x: nat, path: nat)
    requires x < |b| && OnPath(b[..x], b[x].path) == []
    ensures var rest := b[..x] + b[x + 1..];
            OnPath(b, path) == (if path == b[x].path then [b[x].bytes] else []) + OnPath(rest, path)
  {
    assert b == b[..x] + ([b[x]] + b[x + 1..]);
    OnPathAppend(b[..x], [b[x]] + b[x + 1..], path);
    OnPathAppend([b[x]], b[x + 1..], path);
    OnPathAppend(b[..x], b[x + 1..], path);
    assert [b[x]][1..] == [];
  }

  /** If every path delivers its datagrams in order, coalesced in any legal way and mixed with
      probes and with the other paths in any way, then the packets written at the far end are
      exactly the segments, each as often as it was sent. */
  lemma DeliveredAreTheSegments(segs: seq<seq<byte>>, sent: seq<Message>, groups: seq<Group>)
    requires CutAll(sent) == segs
    requires forall g :: 0 <= g < |groups| ==> PacketsOrProbe(groups[g])
    requires forall path :: OnPath(Data(Arrived(groups)), path) == OnPath(OnWire(sent), path)
    ensures multiset(Written(groups)) == multiset(segs)
  {
    WrittenIsData(groups);
    OnWireBytes(sent);
    SamePathsSameMultiset(Data(Arrived(groups)), OnWire(sent));
  }

  // ---------------------------------------------------------------- what the reader finds and writes

  /** The buffers of a batch hold the groups as the kernel delivers them. */
  ghost predicate Delivered(rx: UdpReaderScratch, batch: seq<Received>, groups: seq<Group>)
    reads rx.bufs
  {
    && |groups| == |batch| && rx.Fits(batch)
    && forall i :: 0 <= i < |batch| ==>
         batch[i].gro == GroSize(groups[i].ds)
         && rx.bufs[i][HDR_LEN..HDR_LEN + batch[i].len] == Flatten(groups[i].ds)
  }

  /** What a batch puts on the TUN device is what its groups come to. */
  lemma {:induction false} OutputIsWritten(rx: UdpReaderScratch, batch: seq<Received>, groups: seq<Group>, n: nat)
    requires Delivered(rx, batch, groups) && n <= |batch|
    ensures rx.Output(batch, n) == Written(groups[..n])
    decreases n
  {
    hide Packets;
    if n > 0 {
      OutputIsWritten(rx, batch, groups, n - 1);
      assert groups[..n][..n - 1] == groups[..n - 1];
    }
  }

  /** One round of `udpReader` over delivered groups. */
  method ReadGroups(rx: UdpReaderScratch, batch: seq<Received>, ghost groups: seq<Group>, srcIdx: u32,
                    table: ConnTable, tun: Tun, now: u64)
    requires rx.Valid() && Delivered(rx, batch, groups) && Agrees(table.allSlots, table.byEntry)
    modifies tun, table.allSlots
    ensures tun.frames == old(tun.frames) + Framed(Written(groups))
  {
    hide Framed, Written, Agrees;
    OutputIsWritten(rx, batch, groups, |batch|);
    assert groups[..|batch|] == groups;
    rx.ReadBatch(batch, srcIdx, table, tun, now);
  }

  /** Rounds add up. */
  lemma {:induction false} WrittenAppend(a: seq<Group>, b: seq<Group>)
    ensures Written(a + b) == Written(a) + Written(b)
    decreases |b|
  {
    hide Packets;
    if b == [] {
      assert a + b == a;
    } else {
      assert (a + b)[..|a + b| - 1] == a + b[..|b| - 1];
      WrittenAppend(a, b[..|b| - 1]);
    }
  }

  // ---------------------------------------------------------------- any number of rounds

  /** A buffer the kernel hands over, and one round's worth of them. */
  datatype Came = Came(from: Addr, group: Group)
  datatype Round = Round(came: seq<Came>, now: u64)

  function Groups(came: seq<Came>): seq<Group> {
    seq(|came|, i requires 0 <= i < |came| => came[i].group)
  }

  /** The groups of all rounds, in order. */
  function AllGroups(rounds: seq<Round>): seq<Group> {
    if rounds == [] then []
    else AllGroups(rounds[..|rounds| - 1]) + Groups(rounds[|rounds| - 1].came)
  }

  /** The buffers are different and each holds what comes in it. */
  ghost predicate Room(rx: UdpReaderScratch, came: seq<Came>) {
    && (forall i, j :: 0 <= i < j < |rx.bufs| ==> rx.bufs[i] != rx.bufs[j])
    && |came| <= |rx.bufs|
    && forall i :: 0 <= i < |came| ==> HDR_LEN + |Flatten(came[i].group.ds)| <= rx.bufs[i].Length
  }

  method FillBuffer(buf: array<byte>, payload: seq<byte>)
    requires HDR_LEN + |payload| <= buf.Length
    modifies buf
    ensures buf[..HDR_LEN] == old(buf[..HDR_LEN]) && buf[HDR_LEN..HDR_LEN + |payload|] == payload
  {
    forall j | 0 <= j < |payload| {
      buf[HDR_LEN + j] := payload[j];
    }
  }

  /** The kernel fills the buffers: payloads behind the zeroed headers. */
  method Receive(rx: UdpReaderScratch, came: seq<Came>) returns (batch: seq<Received>)
    requires rx.Valid() && Room(rx, came)
    modifies rx.bufs
    ensures rx.Valid() && Delivered(rx, batch, Groups(came))
  {
    hide Flatten;
    batch := [];
    for i := 0 to |came|
      invariant rx.Valid() && |batch| == i
      invariant forall k :: 0 <= k < i ==>
                  && batch[k].len == |Flatten(came[k].group.ds)| && batch[k].gro == GroSize(came[k].group.ds)
                  && HDR_LEN + batch[k].len <= rx.bufs[k].Length
                  && rx.bufs[k][HDR_LEN..HDR_LEN + batch[k].len] == Flatten(came[k].group.ds)
    {
      var ds := came[i].group.ds;
      FillBuffer(rx.bufs[i], Flatten(ds));
      batch := batch + [Received(came[i].from, |Flatten(ds)|, GroSize(ds))];
    }
  }

  /** The loop of `udpReader`: however the groups are spread over rounds, and although every round
      reuses the buffers, the TUN device gets what the groups come to, one after the other. */
  method ReadRounds(rx: UdpReaderScratch, rounds: seq<Round>, srcIdx: u32, table: ConnTable, tun: Tun)
    requires rx.Valid() && Agrees(table.allSlots, table.byEntry)
    requires forall k :: 0 <= k < |rounds| ==> Room(rx, rounds[k].came)
    modifies rx.bufs, tun, table.allSlots
    ensures tun.frames == old(tun.frames) + Framed(Written(AllGroups(rounds)))
  {
    hide Framed, Written, Agrees, Delivered;
    NothingRead();
    assert rounds[..0] == [];
    for k := 0 to |rounds|
      invariant rx.Valid() && tun.frames == old(tun.frames) + Framed(Written(AllGroups(rounds[..k])))
    {
      var batch := Receive(rx, rounds[k].came);
      ReadGroups(rx, batch, Groups(rounds[k].came), srcIdx, table, tun, rounds[k].now);
      assert rounds[..k + 1][..k] == rounds[..k];
      WrittenAppend(AllGroups(rounds[..k]), Groups(rounds[k].came));
      FramedAppend(Written(AllGroups(rounds[..k])), Written(Groups(rounds[k].came)));
    }
    assert rounds[..|rounds|] == rounds;
  }

  lemma NothingRead()
    ensures Framed(Written(AllGroups([]))) == []
  {
  }
}
