/** conn.cpp: the table of all slots of a node, laid out peer by peer, and its two indexes. */
module ConnTable {
  import opened Arith
  import opened Bytes
  import opened Conn
  import opened Options

  // ---------------------------------------------------------------- layout, as values

  /** The slot towards endpoint `j` of peer number `peer` from local endpoint `i`. */
  datatype SlotKey = SlotKey(peer: nat, j: nat, i: nat)

  /** Position `j * n + i` of a connection: the source rotates fast, the destination slowly. */
  function PeerLayout(peer: nat, n: nat, m: nat): (keys: seq<SlotKey>)
    requires n > 0
    ensures |keys| == m * n
    ensures forall t :: 0 <= t < |keys| ==> keys[t] == SlotKey(peer, t / n, t % n)
  {
    MulLe(0, m, n);
    seq(m * n, t requires 0 <= t => SlotKey(peer, t / n, t % n))
  }

  /** The slots towards the first `k` peers, `self` left out. */
  function Layout(peers: seq<Peer>, self: nat, k: nat): seq<SlotKey>
    requires self < |peers| && k <= |peers| && peers[self].dsts != []
  {
    if k == 0 then []
    else if k - 1 == self then Layout(peers, self, k - 1)
    else Layout(peers, self, k - 1) + PeerLayout(k - 1, |peers[self].dsts|, |peers[k - 1].dsts|)
  }

  predicate ValidKey(peers: seq<Peer>, self: nat, key: SlotKey)
    requires self < |peers|
  {
    key.peer < |peers| && key.peer != self && key.j < |peers[key.peer].dsts| && key.i < |peers[self].dsts|
  }

  lemma DivModOf(j: nat, n: nat, i: nat)
    requires i < n
    ensures (j * n + i) / n == j && (j * n + i) % n == i
  {
    DivModUnique(j * n + i, n, j, i);
  }

  lemma PositionBelow(j: nat, n: nat, i: nat, m: nat)
    requires i < n && j < m
    ensures 0 <= j * n + i < m * n
  {
    MulLe(j + 1, m, n);
    MulLe(0, j, n);
  }

  lemma QuotientBelow(t: nat, n: nat, m: nat)
    requires n > 0 && t < m * n
    ensures t / n < m && t % n < n
  {
    assert t == (t / n) * n + t % n;
    if t / n >= m {
      MulLe(m, t / n, n);
    }
  }

  /** The layout holds exactly the pairs of one local endpoint with one endpoint of another peer. */
  lemma {:induction false} LayoutSound(peers: seq<Peer>, self: nat, k: nat, x: nat)
    requires self < |peers| && k <= |peers| && peers[self].dsts != []
    requires x < |Layout(peers, self, k)|
    ensures ValidKey(peers, self, Layout(peers, self, k)[x]) && Layout(peers, self, k)[x].peer < k
  {
    if k - 1 == self || x < |Layout(peers, self, k - 1)| {
      LayoutSound(peers, self, k - 1, x);
    } else {
      QuotientBelow(x - |Layout(peers, self, k - 1)|, |peers[self].dsts|, |peers[k - 1].dsts|);
    }
  }

  lemma {:induction false} LayoutComplete(peers: seq<Peer>, self: nat, k: nat, key: SlotKey) returns (x: nat)
    requires self < |peers| && k <= |peers| && peers[self].dsts != []
    requires ValidKey(peers, self, key) && key.peer < k
    ensures x < |Layout(peers, self, k)| && Layout(peers, self, k)[x] == key
  {
    if key.peer < k - 1 {
      x := LayoutComplete(peers, self, k - 1, key);
    } else {
      var n := |peers[self].dsts|;
      DivModOf(key.j, n, key.i);
      PositionBelow(key.j, n, key.i, |peers[key.peer].dsts|);
      x := |Layout(peers, self, k - 1)| + (key.j * n + key.i);
    }
  }

  // ---------------------------------------------------------------- the index by (source, peer address)

  /** `entryKey`: the port plays no part. */
  function EntryKey(srcIdx: u32, ip: u32): u64 {
    srcIdx * 0x1_0000_0000 + ip
  }

  lemma EntryKeyInjective(i: u32, ip: u32, j: u32, jp: u32)
    ensures EntryKey(i, ip) == EntryKey(j, jp) <==> i == j && ip == jp
  {
  }

  /** `index` maps every key to the last slot of `slots` that has it, as a scan from the end
      of the list would find it. */
  ghost predicate Agrees(slots: seq<ConnSlot>, index: map<u64, ConnSlot>) {
    && (forall x :: 0 <= x < |slots| ==> KeyOf(slots[x]) in index)
    && (forall key :: key in index ==> LastWith(slots, key, index[key]))
  }

  ghost predicate LastWith(slots: seq<ConnSlot>, key: u64, slot: ConnSlot) {
    exists x :: 0 <= x < |slots| && slots[x] == slot && KeyOf(slot) == key
                && forall y :: x < y < |slots| ==> KeyOf(slots[y]) != key
  }

  function KeyOf(slot: ConnSlot): u64 {
    EntryKey(slot.srcIdx, slot.dstAddr.ip)
  }

  lemma AgreesInsert(slots: seq<ConnSlot>, index: map<u64, ConnSlot>, slot: ConnSlot)
    requires Agrees(slots, index)
    ensures Agrees(slots + [slot], index[KeyOf(slot) := slot])
  {
    hide KeyOf;
    var all, more := slots + [slot], index[KeyOf(slot) := slot];
    forall key | key in more
      ensures LastWith(all, key, more[key])
    {
      if key == KeyOf(slot) {
        assert all[|slots|] == slot;
      } else {
        var x :| 0 <= x < |slots| && slots[x] == index[key] && KeyOf(index[key]) == key
                 && forall y :: x < y < |slots| ==> KeyOf(slots[y]) != key;
        assert all[x] == more[key];
      }
    }
  }

  // ---------------------------------------------------------------- the table

  /** `slot` is the slot the layout calls `key`. */
  predicate SlotIs(slot: ConnSlot, peers: seq<Peer>, self: nat, key: SlotKey)
    requires self < |peers| && ValidKey(peers, self, key)
  {
    && slot.srcIdx == key.i
    && slot.srcAddr == peers[self].dsts[key.i]
    && slot.dstAddr == peers[key.peer].dsts[key.j]
  }

  /** The slots of the list are those of the layout, position by position. */
  ghost predicate LaidOut(slots: seq<ConnSlot>, peers: seq<Peer>, self: nat, keys: seq<SlotKey>)
    requires self < |peers|
  {
    |slots| == |keys| && forall x :: 0 <= x < |keys| ==>
      ValidKey(peers, self, keys[x]) && SlotIs(slots[x], peers, self, keys[x])
  }

  ghost predicate AllStartedAt(slots: seq<ConnSlot>, startMs: u64)
    reads slots
  {
    forall x :: 0 <= x < |slots| ==> slots[x].lastSeen == startMs
  }

  /** The first slots towards peer `k`. */
  ghost predicate LaidOutRows(slots: seq<ConnSlot>, peers: seq<Peer>, self: nat, k: nat)
    requires self < |peers| && k < |peers| && peers[self].dsts != []
  {
    var keys := PeerLayout(k, |peers[self].dsts|, |peers[k].dsts|);
    |slots| <= |keys| && LaidOut(slots, peers, self, keys[..|slots|])
  }

  lemma NoRows(slots: seq<ConnSlot>, peers: seq<Peer>, self: nat, k: nat)
    requires self < |peers| && k < |peers| && peers[self].dsts != [] && slots == []
    ensures LaidOutRows(slots, peers, self, k)
  {
  }

  lemma RowStep(slots: seq<ConnSlot>, s: ConnSlot, peers: seq<Peer>, self: nat, k: nat, j: nat, i: nat)
    requires self < |peers| && k < |peers| && k != self
    requires i < |peers[self].dsts| && j < |peers[k].dsts|
    requires LaidOutRows(slots, peers, self, k) && |slots| == j * |peers[self].dsts| + i
    requires s.srcIdx == i && s.srcAddr == peers[self].dsts[i] && s.dstAddr == peers[k].dsts[j]
    ensures LaidOutRows(slots + [s], peers, self, k)
  {
    var n, m := |peers[self].dsts|, |peers[k].dsts|;
    var keys := PeerLayout(k, n, m);
    DivModOf(j, n, i);
    PositionBelow(j, n, i, m);
    assert keys[|slots|] == SlotKey(k, j, i);
    LaidOutStep(slots, s, peers, self, keys);
  }

  lemma RowsJoin(a: seq<ConnSlot>, b: seq<ConnSlot>, peers: seq<Peer>, self: nat, k: nat)
    requires self < |peers| && k < |peers| && k != self && peers[self].dsts != []
    requires LaidOut(a, peers, self, Layout(peers, self, k)) && LaidOutRows(b, peers, self, k)
    requires |b| == |peers[k].dsts| * |peers[self].dsts|
    ensures LaidOut(a + b, peers, self, Layout(peers, self, k + 1))
  {
    var keys := PeerLayout(k, |peers[self].dsts|, |peers[k].dsts|);
    assert keys[..|b|] == keys;
    LaidOutJoin(a, b, peers, self, Layout(peers, self, k), keys);
  }

  lemma LaidOutStep(slots: seq<ConnSlot>, s: ConnSlot, peers: seq<Peer>, self: nat, keys: seq<SlotKey>)
    requires self < |peers| && |slots| < |keys|
    requires LaidOut(slots, peers, self, keys[..|slots|])
    requires ValidKey(peers, self, keys[|slots|]) && SlotIs(s, peers, self, keys[|slots|])
    ensures LaidOut(slots + [s], peers, self, keys[..|slots| + 1])
  {
  }

  lemma LaidOutJoin(a: seq<ConnSlot>, b: seq<ConnSlot>, peers: seq<Peer>, self: nat, ka: seq<SlotKey>, kb: seq<SlotKey>)
    requires self < |peers|
    requires LaidOut(a, peers, self, ka) && LaidOut(b, peers, self, kb)
    ensures LaidOut(a + b, peers, self, ka + kb)
  {
  }

  lemma EmptyTable(slots: seq<ConnSlot>, index: map<u64, ConnSlot>, peers: seq<Peer>, self: nat, startMs: u64)
    requires self < |peers| && peers[self].dsts != [] && slots == [] && index == map[]
    ensures LaidOut(slots, peers, self, Layout(peers, self, 0))
    ensures AllStartedAt(slots, startMs) && Agrees(slots, index)
  {
  }

  lemma LayoutSkips(peers: seq<Peer>, self: nat, k: nat)
    requires self < |peers| && k < |peers| && peers[self].dsts != []
    ensures k == self ==> Layout(peers, self, k + 1) == Layout(peers, self, k)
  {
  }

  /** `conn` is the connection to peer `k`: its address, and all its slots in layout order. */
  ghost predicate ConnFor(conn: Conn, peers: seq<Peer>, self: nat, k: nat, timeoutMs: u64)
    requires self < |peers| && peers[self].dsts != []
    reads conn`slots
  {
    && k < |peers| && conn.vip == peers[k].vip && conn.timeoutMs == timeoutMs
    && |conn.slots| == |peers[k].dsts| * |peers[self].dsts|
    && LaidOutRows(conn.slots, peers, self, k)
  }

  lemma Completed(conn: Conn, peers: seq<Peer>, self: nat, k: nat, timeoutMs: u64)
    requires self < |peers| && k < |peers| && peers[self].dsts != []
    requires conn.vip == peers[k].vip && conn.timeoutMs == timeoutMs
    requires LaidOutRows(conn.slots, peers, self, k) && |conn.slots| == |peers[k].dsts| * |peers[self].dsts|
    ensures ConnFor(conn, peers, self, k, timeoutMs)
  {
  }

  /** The peer number of connection `c`: `self` is skipped. */
  function PeerNumber(self: nat, c: nat): nat {
    if c < self then c else c + 1
  }

  ghost predicate ConnsFor(conns: seq<Conn>, peers: seq<Peer>, self: nat, timeoutMs: u64)
    requires self < |peers| && peers[self].dsts != []
    reads conns
  {
    forall c :: 0 <= c < |conns| ==> ConnFor(conns[c], peers, self, PeerNumber(self, c), timeoutMs)
  }

  /** `byVip` finds a connection for exactly the overlay addresses that have one. */
  ghost predicate VipIndex(conns: seq<Conn>, byVip: map<u32, Conn>) {
    && (forall c :: 0 <= c < |conns| ==> conns[c].vip in byVip)
    && (forall vip :: vip in byVip ==> byVip[vip] in conns && byVip[vip].vip == vip)
  }

  /** The slots of the connections, one after the other. */
  ghost function AllOf(conns: seq<Conn>): seq<ConnSlot>
    reads conns
  {
    if conns == [] then [] else AllOf(conns[..|conns| - 1]) + conns[|conns| - 1].slots
  }

  lemma NoConns()
    ensures AllOf([]) == []
  {
  }

  lemma OneMoreConn(conns: seq<Conn>, conn: Conn)
    ensures AllOf(conns + [conn]) == AllOf(conns) + conn.slots
  {
    assert (conns + [conn])[..|conns|] == conns;
  }

  class ConnTable {
    const timeoutMs: u64
    var conns: seq<Conn>
    var allSlots: seq<ConnSlot>
    var byVip: map<u32, Conn>
    var byEntry: map<u64, ConnSlot>

    /** The slots of `peers[self]` towards every other peer. Endpoint counts fit in 32 bits. */
    constructor (peers: seq<Peer>, self: nat, startMs: u64, timeoutMs: u64)
      requires self < |peers|
      requires forall k :: 0 <= k < |peers| ==> 0 < |peers[k].dsts| < 0x1_0000_0000
      ensures this.timeoutMs == timeoutMs
      ensures LaidOut(allSlots, peers, self, Layout(peers, self, |peers|))
      ensures AllStartedAt(allSlots, startMs)
      ensures Agrees(allSlots, byEntry) && fresh(allSlots)
      ensures allSlots == AllOf(conns)
      ensures |conns| == |peers| - 1 && ConnsFor(conns, peers, self, timeoutMs) && VipIndex(conns, byVip)
    {
      hide Layout, LaidOut, AllStartedAt, Agrees, ConnFor, AllOf;
      this.timeoutMs := timeoutMs;
      conns, allSlots, byVip, byEntry := [], [], map[], map[];
      new;
      EmptyTable(allSlots, byEntry, peers, self, startMs);
      NoConns();
      for k := 0 to |peers|
        invariant LaidOut(allSlots, peers, self, Layout(peers, self, k))
        invariant AllStartedAt(allSlots, startMs)
        invariant Agrees(allSlots, byEntry)
        invariant allSlots == AllOf(conns)
        invariant |conns| == (if k <= self then k else k - 1) && fresh(conns) && fresh(allSlots)
        invariant ConnsFor(conns, peers, self, timeoutMs) && VipIndex(conns, byVip)
      {
        LayoutSkips(peers, self, k);
        if k != self {
          ghost var were := conns;
          var conn := AddPeer(peers, self, k, startMs);
          OneMoreConn(were, conn);
        }
      }
    }

    method AddSlot(conn: Conn, src: Addr, i: u32, dst: Addr, startMs: u64) returns (s: ConnSlot)
      requires AllStartedAt(allSlots, startMs) && Agrees(allSlots, byEntry)
      modifies this`allSlots, this`byEntry, conn`slots
      ensures fresh(s) && s.srcAddr == src && s.srcIdx == i && s.dstAddr == dst
      ensures conn.slots == old(conn.slots) + [s] && allSlots == old(allSlots) + [s]
      ensures AllStartedAt(allSlots, startMs) && Agrees(allSlots, byEntry)
    {
      hide Agrees;
      s := new ConnSlot(src, i, dst, startMs);
      AgreesInsert(allSlots, byEntry, s);
      conn.slots := conn.slots + [s];
      allSlots := allSlots + [s];
      byEntry := byEntry[EntryKey(i, dst.ip) := s];
    }

    /** The slots towards endpoint `j` of peer `k`, one per local endpoint. */
    method AddRow(conn: Conn, peers: seq<Peer>, self: nat, k: nat, j: nat, startMs: u64)
      requires self < |peers| && k < |peers| && k != self && j < |peers[k].dsts|
      requires 0 < |peers[self].dsts| < 0x1_0000_0000
      requires |conn.slots| == j * |peers[self].dsts|
      requires LaidOutRows(conn.slots, peers, self, k)
      requires AllStartedAt(allSlots, startMs) && Agrees(allSlots, byEntry)
      modifies this`allSlots, this`byEntry, conn`slots
      ensures |conn.slots| == (j + 1) * |peers[self].dsts|
      ensures LaidOutRows(conn.slots, peers, self, k)
      ensures exists row :: conn.slots == old(conn.slots) + row && allSlots == old(allSlots) + row && fresh(row)
      ensures AllStartedAt(allSlots, startMs) && Agrees(allSlots, byEntry)
    {
      hide Agrees, LaidOutRows, AllStartedAt;
      var n := |peers[self].dsts|;
      ghost var base, row: seq<ConnSlot> := |conn.slots|, [];
      for i := 0 to n
        invariant |conn.slots| == base + i
        invariant conn.slots == old(conn.slots) + row && allSlots == old(allSlots) + row && fresh(row)
        invariant LaidOutRows(conn.slots, peers, self, k)
        invariant AllStartedAt(allSlots, startMs) && Agrees(allSlots, byEntry)
      {
        ghost var was := conn.slots;
        var s := AddSlot(conn, peers[self].dsts[i], i, peers[k].dsts[j], startMs);
        row := row + [s];
        RowStep(was, s, peers, self, k, j, i);
      }
      assert (j + 1) * n == j * n + n;
    }

    method AddPeer(peers: seq<Peer>, self: nat, k: nat, startMs: u64) returns (conn: Conn)
      requires self < |peers| && k < |peers| && k != self
      requires 0 < |peers[self].dsts| < 0x1_0000_0000
      requires LaidOut(allSlots, peers, self, Layout(peers, self, k))
      requires AllStartedAt(allSlots, startMs)
      requires Agrees(allSlots, byEntry)
      modifies this
      ensures LaidOut(allSlots, peers, self, Layout(peers, self, k + 1))
      ensures AllStartedAt(allSlots, startMs)
      ensures Agrees(allSlots, byEntry)
      ensures fresh(conn) && ConnFor(conn, peers, self, k, timeoutMs)
      ensures allSlots == old(allSlots) + conn.slots && fresh(conn.slots)
      ensures conns == old(conns) + [conn] && byVip == old(byVip)[conn.vip := conn]
    {
      hide Agrees, LaidOut, AllStartedAt, LaidOutRows, ConnFor, Layout;
      var p := peers[k];
      conn := new Conn(p.vip, timeoutMs);
      NoRows(conn.slots, peers, self, k);
      for j := 0 to |p.dsts|
        invariant fresh(conn) && fresh(conn.slots) && conn.vip == p.vip && |conn.slots| == j * |peers[self].dsts|
        invariant allSlots == old(allSlots) + conn.slots && conns == old(conns) && byVip == old(byVip)
        invariant LaidOutRows(conn.slots, peers, self, k)
        invariant AllStartedAt(allSlots, startMs) && Agrees(allSlots, byEntry)
      {
        AddRow(conn, peers, self, k, j, startMs);
      }
      RowsJoin(old(allSlots), conn.slots, peers, self, k);
      Completed(conn, peers, self, k, timeoutMs);
      conns := conns + [conn];
      byVip := byVip[p.vip := conn];
    }

    function LookupSlot(srcIdx: u32, peerSrc: Addr): ConnSlot?
      reads this`byEntry
    {
      var key := EntryKey(srcIdx, peerSrc.ip);
      if key in byEntry then byEntry[key] else null
    }
  }

  // ---------------------------------------------------------------- the index against a scan

  predicate AllResolve(keys: seq<SlotKey>, peers: seq<Peer>) {
    forall x :: 0 <= x < |keys| ==> keys[x].peer < |peers| && keys[x].j < |peers[keys[x].peer].dsts|
  }

  /** The last slot of the list with this source index and destination address. */
  function ScanLast(keys: seq<SlotKey>, peers: seq<Peer>, srcIdx: u32, ip: u32): Option<SlotKey>
    requires AllResolve(keys, peers)
  {
    if keys == [] then None
    else
      var last := keys[|keys| - 1];
      if last.i == srcIdx && peers[last.peer].dsts[last.j].ip == ip then Some(last)
      else ScanLast(keys[..|keys| - 1], peers, srcIdx, ip)
  }

  lemma {:induction false} ScanLastIs(keys: seq<SlotKey>, peers: seq<Peer>, srcIdx: u32, ip: u32)
    requires AllResolve(keys, peers)
    ensures var r := ScanLast(keys, peers, srcIdx, ip);
            match r
            case None => forall x :: 0 <= x < |keys| ==> !HasKey(keys[x], peers, srcIdx, ip)
            case Some(key) => exists x :: 0 <= x < |keys| && keys[x] == key && HasKey(key, peers, srcIdx, ip)
                                && forall y :: x < y < |keys| ==> !HasKey(keys[y], peers, srcIdx, ip)
  {
    if keys != [] {
      var n := |keys| - 1;
      ScanLastIs(keys[..n], peers, srcIdx, ip);
      if !HasKey(keys[n], peers, srcIdx, ip) {
        match ScanLast(keys[..n], peers, srcIdx, ip)
        case None =>
          forall x | 0 <= x < |keys| ensures !HasKey(keys[x], peers, srcIdx, ip) {
            if x < n { assert keys[..n][x] == keys[x]; }
          }
        case Some(key) =>
          var x :| 0 <= x < n && keys[..n][x] == key && HasKey(key, peers, srcIdx, ip)
                   && forall y :: x < y < n ==> !HasKey(keys[..n][y], peers, srcIdx, ip);
          assert keys[x] == key;
          forall y | x < y < |keys| ensures !HasKey(keys[y], peers, srcIdx, ip) {
            if y < n { assert keys[..n][y] == keys[y]; }
          }
      } else {
        assert keys[n] == ScanLast(keys, peers, srcIdx, ip).value;
      }
    }
  }

  predicate HasKey(key: SlotKey, peers: seq<Peer>, srcIdx: u32, ip: u32)
    requires key.peer < |peers| && key.j < |peers[key.peer].dsts|
  {
    key.i == srcIdx && peers[key.peer].dsts[key.j].ip == ip
  }

  /** The keyed index answers every query as a scan of all slots does. */
  lemma IndexAgreesWithScan(slots: seq<ConnSlot>, index: map<u64, ConnSlot>, peers: seq<Peer>, self: nat,
                            keys: seq<SlotKey>, srcIdx: u32, ip: u32)
    requires self < |peers| && LaidOut(slots, peers, self, keys) && Agrees(slots, index)
    ensures |slots| == |keys| && AllResolve(keys, peers)
    ensures EntryKey(srcIdx, ip) in index <==> ScanLast(keys, peers, srcIdx, ip).Some?
    ensures EntryKey(srcIdx, ip) in index ==>
              exists x :: 0 <= x < |slots| && index[EntryKey(srcIdx, ip)] == slots[x]
                          && Some(keys[x]) == ScanLast(keys, peers, srcIdx, ip)
  {
    hide EntryKey, ScanLast, KeyOf, HasKey, LaidOut, SlotIs;
    var key := EntryKey(srcIdx, ip);
    KeysMatch(slots, peers, self, keys, srcIdx, ip);
    ScanLastIs(keys, peers, srcIdx, ip);
    match ScanLast(keys, peers, srcIdx, ip)
    case None =>
      assert forall x :: 0 <= x < |slots| ==> KeyOf(slots[x]) != key;
    case Some(k) =>
      var z :| 0 <= z < |keys| && keys[z] == k && HasKey(k, peers, srcIdx, ip)
               && forall y :: z < y < |keys| ==> !HasKey(keys[y], peers, srcIdx, ip);
      assert KeyOf(slots[z]) == key && key in index;
      var x :| 0 <= x < |slots| && slots[x] == index[key] && KeyOf(index[key]) == key
               && forall y :: x < y < |slots| ==> KeyOf(slots[y]) != key;
      assert HasKey(keys[x], peers, srcIdx, ip);
      assert x == z;
  }

  lemma KeysMatch(slots: seq<ConnSlot>, peers: seq<Peer>, self: nat, keys: seq<SlotKey>, srcIdx: u32, ip: u32)
    requires self < |peers| && LaidOut(slots, peers, self, keys)
    ensures |slots| == |keys| && AllResolve(keys, peers)
    ensures forall x :: 0 <= x < |keys| ==>
              (KeyOf(slots[x]) == EntryKey(srcIdx, ip) <==> HasKey(keys[x], peers, srcIdx, ip))
  {
    forall x | 0 <= x < |keys|
      ensures KeyOf(slots[x]) == EntryKey(srcIdx, ip) <==> HasKey(keys[x], peers, srcIdx, ip)
    {
      assert SlotIs(slots[x], peers, self, keys[x]);
      EntryKeyInjective(slots[x].srcIdx, slots[x].dstAddr.ip, srcIdx, ip);
    }
  }
}
