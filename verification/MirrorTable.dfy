/** The tables of all nodes, as `udpReader` updates them, are what `Mirror` says of them on values
    (conn.cpp:94-149, plane.cpp:236-246). */
module MirrorTable {
  import opened Bytes
  import opened Conn
  import opened ConnTable
  import opened Mirror
  import opened Options
  import opened Plane

  // ---------------------------------------------------------------- no slot twice

  lemma PeerLayoutDistinct(peer: nat, n: nat, m: nat, x: nat, y: nat)
    requires n > 0 && x < y < |PeerLayout(peer, n, m)|
    ensures PeerLayout(peer, n, m)[x] != PeerLayout(peer, n, m)[y]
  {
    assert x == (x / n) * n + x % n && y == (y / n) * n + y % n;
  }

  lemma {:induction false} LayoutDistinct(peers: seq<Peer>, at: nat, k: nat, x: nat, y: nat)
    requires at < |peers| && k <= |peers| && peers[at].dsts != []
    requires x < y < |Layout(peers, at, k)|
    ensures Layout(peers, at, k)[x] != Layout(peers, at, k)[y]
    decreases k
  {
    hide PeerLayout;
    if k - 1 == at {
      LayoutDistinct(peers, at, k - 1, x, y);
    } else {
      var before := Layout(peers, at, k - 1);
      var row := PeerLayout(k - 1, |peers[at].dsts|, |peers[k - 1].dsts|);
      if y < |before| {
        LayoutDistinct(peers, at, k - 1, x, y);
      } else if x >= |before| {
        PeerLayoutDistinct(k - 1, |peers[at].dsts|, |peers[k - 1].dsts|, x - |before|, y - |before|);
      } else {
        LayoutSound(peers, at, k - 1, x);
        RowIsPeer(k - 1, |peers[at].dsts|, |peers[k - 1].dsts|, y - |before|);
      }
    }
  }

  lemma RowIsPeer(peer: nat, n: nat, m: nat, x: nat)
    requires n > 0 && x < |PeerLayout(peer, n, m)|
    ensures PeerLayout(peer, n, m)[x].peer == peer
  {
  }

  // ---------------------------------------------------------------- one table

  /** The table of node `at` has the slots of its layout, indexed, with these times. */
  ghost predicate Shows(table: ConnTable, peers: seq<Peer>, at: nat, seen: map<Slot, u64>)
    requires at < |peers| && peers[at].dsts != []
    reads table, table.allSlots
  {
    var keys := Layout(peers, at, |peers|);
    && LaidOut(table.allSlots, peers, at, keys) && Agrees(table.allSlots, table.byEntry)
    && TimesAre(table.allSlots, at, keys, seen)
  }

  ghost predicate TimesAre(slots: seq<ConnSlot>, at: nat, keys: seq<SlotKey>, seen: map<Slot, u64>)
    requires |slots| == |keys|
    reads slots
  {
    forall x :: 0 <= x < |keys| ==> Slot(at, keys[x]) in seen && slots[x].lastSeen == seen[Slot(at, keys[x])]
  }

  /** The slot that is looked up is at the position the scan finds, and nowhere else. */
  lemma LookupAt(table: ConnTable, peers: seq<Peer>, at: nat, srcIdx: u32, from: Addr) returns (x: nat)
    requires DistinctIps(peers) && at < |peers| && peers[at].dsts != []
    requires LaidOut(table.allSlots, peers, at, Layout(peers, at, |peers|)) && Agrees(table.allSlots, table.byEntry)
    ensures var found := Lookup(peers, at, srcIdx, from.ip);
            var slot := table.LookupSlot(srcIdx, from);
            var keys := Layout(peers, at, |peers|);
            if found.None? then slot == null
            else && x < |keys| && keys[x] == found.value && slot == table.allSlots[x]
                 && forall y :: 0 <= y < |keys| && y != x ==> keys[y] != keys[x] && table.allSlots[y] != slot
  {
    hide ScanLast, Layout, LaidOut, Agrees, EntryKey, DistinctIps;
    var keys := Layout(peers, at, |peers|);
    IndexAgreesWithScan(table.allSlots, table.byEntry, peers, at, keys, srcIdx, from.ip);
    x := 0;
    if EntryKey(srcIdx, from.ip) in table.byEntry {
      x :| 0 <= x < |table.allSlots| && table.byEntry[EntryKey(srcIdx, from.ip)] == table.allSlots[x]
           && Some(keys[x]) == ScanLast(keys, peers, srcIdx, from.ip);
      forall y | 0 <= y < |keys| && y != x ensures keys[y] != keys[x] && table.allSlots[y] != table.allSlots[x] {
        LayoutDistinct(peers, at, |peers|, if x < y then x else y, if x < y then y else x);
        SlotsDiffer(table.allSlots, peers, at, keys, x, y);
      }
    }
  }

  lemma SlotsDiffer(slots: seq<ConnSlot>, peers: seq<Peer>, at: nat, keys: seq<SlotKey>, x: nat, y: nat)
    requires DistinctIps(peers) && at < |peers| && LaidOut(slots, peers, at, keys)
    requires x < |keys| && y < |keys| && keys[x] != keys[y]
    ensures slots[x] != slots[y]
  {
    assert SlotIs(slots[x], peers, at, keys[x]) && SlotIs(slots[y], peers, at, keys[y]);
  }

  /** A new table shows the start time everywhere. */
  method NewTable(peers: seq<Peer>, at: nat, startMs: u64, timeoutMs: u64, ghost seen: map<Slot, u64>)
    returns (table: ConnTable)
    requires DistinctIps(peers) && at < |peers|
    requires forall s: Slot :: ValidSlot(peers, s) ==> s in seen && seen[s] == startMs
    ensures fresh(table) && fresh(table.allSlots) && Shows(table, peers, at, seen)
  {
    hide Layout, LaidOut, Agrees;
    table := new ConnTable(peers, at, startMs, timeoutMs);
    StartTimes(table.allSlots, peers, at, startMs, seen);
  }

  lemma StartTimes(slots: seq<ConnSlot>, peers: seq<Peer>, at: nat, startMs: u64, seen: map<Slot, u64>)
    requires at < |peers| && peers[at].dsts != []
    requires LaidOut(slots, peers, at, Layout(peers, at, |peers|)) && AllStartedAt(slots, startMs)
    requires forall s: Slot :: ValidSlot(peers, s) ==> s in seen && seen[s] == startMs
    ensures |slots| == |Layout(peers, at, |peers|)| && TimesAre(slots, at, Layout(peers, at, |peers|), seen)
  {
    hide Layout;
    var keys := Layout(peers, at, |peers|);
    forall x | 0 <= x < |keys| ensures ValidSlot(peers, Slot(at, keys[x])) {
    }
  }

  /** `udpReader` stamps its table as `Receive` says. */
  method Store(rx: UdpReaderScratch, table: ConnTable, peers: seq<Peer>, at: nat, srcIdx: u32, from: Addr, now: u64,
               ghost seen: map<Slot, u64>)
    requires DistinctIps(peers) && at < |peers| && peers[at].dsts != [] && Shows(table, peers, at, seen)
    modifies table.allSlots
    ensures Shows(table, peers, at, Receive(peers, seen, at, srcIdx, from.ip, now))
  {
    hide Layout, Agrees, DistinctIps, Lookup, SlotIs;
    ghost var x := LookupAt(table, peers, at, srcIdx, from);
    ghost var keys, seen2 := Layout(peers, at, |peers|), Receive(peers, seen, at, srcIdx, from.ip, now);
    rx.StoreLastSeen(table, srcIdx, from, now);
    forall y | 0 <= y < |keys|
      ensures Slot(at, keys[y]) in seen2 && table.allSlots[y].lastSeen == seen2[Slot(at, keys[y])]
    {
      assert table.allSlots[y] in table.allSlots;
    }
  }

  // ---------------------------------------------------------------- all nodes

  ghost function SlotsOf(tables: seq<ConnTable>): (slots: set<ConnSlot>)
    reads tables
    ensures forall k, slot :: 0 <= k < |tables| && slot in tables[k].allSlots ==> slot in slots
  {
    set k, slot | 0 <= k < |tables| && slot in tables[k].allSlots :: slot
  }

  ghost predicate Cluster(tables: seq<ConnTable>, peers: seq<Peer>, seen: map<Slot, u64>)
    reads tables, SlotsOf(tables)
  {
    && DistinctIps(peers) && |tables| == |peers|
    && (forall k :: 0 <= k < |tables| ==> peers[k].dsts != [] && Shows(tables[k], peers, k, seen))
    && (forall k, l :: 0 <= k < l < |tables| ==> SlotsApart(tables[k], tables[l]))
  }

  ghost predicate SlotsApart(a: ConnTable, b: ConnTable)
    reads a, b
  {
    forall slot :: slot in a.allSlots ==> slot !in b.allSlots
  }

  /** The nodes start. */
  method NewCluster(peers: seq<Peer>, startMs: u64, timeoutMs: u64, ghost seen: map<Slot, u64>)
    returns (tables: seq<ConnTable>)
    requires DistinctIps(peers)
    requires forall s: Slot :: ValidSlot(peers, s) ==> s in seen && seen[s] == startMs
    ensures Cluster(tables, peers, seen)
  {
    hide Shows;
    tables := [];
    for at := 0 to |peers|
      invariant |tables| == at
      invariant forall k :: 0 <= k < at ==> peers[k].dsts != [] && Shows(tables[k], peers, k, seen)
      invariant forall k, l :: 0 <= k < l < at ==> SlotsApart(tables[k], tables[l])
    {
      var table := NewTable(peers, at, startMs, timeoutMs, seen);
      tables := tables + [table];
    }
  }

  /** A datagram arrives at one node. */
  method Handle(rx: UdpReaderScratch, tables: seq<ConnTable>, peers: seq<Peer>, e: Event, ghost seen: map<Slot, u64>)
    requires Cluster(tables, peers, seen) && ValidEvent(peers, e)
    modifies SlotsOf(tables)
    ensures Cluster(tables, peers, Apply(peers, seen, e))
  {
    hide Receive, Layout, SlotIs, Agrees;
    var (at, srcIdx, from, now) := Arrival(peers, e);
    ghost var seen2 := Receive(peers, seen, at, srcIdx, from.ip, now);
    assert Shows(tables[at], peers, at, seen);
    Store(rx, tables[at], peers, at, srcIdx, from, now, seen);
    forall k | 0 <= k < |tables| ensures Shows(tables[k], peers, k, seen2) {
      if k != at {
        assert SlotsApart(tables[if k < at then k else at], tables[if k < at then at else k]);
        OthersKeepTimes(peers, seen, at, srcIdx, from.ip, now, k);
        assert old(Shows(tables[k], peers, k, seen));
        forall y | 0 <= y < |tables[k].allSlots|
          ensures tables[k].allSlots[y].lastSeen == old(tables[k].allSlots[y].lastSeen)
        {
          assert tables[k].allSlots[y] in tables[k].allSlots;
          assert tables[k].allSlots[y] !in tables[at].allSlots;
        }
        assert TimesAre(tables[k].allSlots, k, Layout(peers, k, |peers|), seen2);
      }
    }
  }

  /** Where a datagram comes to, from which address and when. */
  function Arrival(peers: seq<Peer>, e: Event): (r: (nat, u32, Addr, u64))
    requires DistinctIps(peers) && ValidEvent(peers, e)
    ensures r.0 < |peers| && peers[r.0].dsts != []
  {
    match e
    case Deliver(from, now) =>
      HasEndpoints(peers, from.key.peer);
      (from.key.peer, from.key.j, peers[from.owner].dsts[from.key.i], now)
    case Other(at, srcIdx, from, now) =>
      HasEndpoints(peers, at);
      (at, srcIdx, from, now)
  }

  lemma OthersKeepTimes(peers: seq<Peer>, seen: map<Slot, u64>, at: nat, srcIdx: u32, ip: u32, now: u64, k: nat)
    requires at < |peers| && peers[at].dsts != [] && k != at
    ensures var seen2 := Receive(peers, seen, at, srcIdx, ip, now);
            forall key :: Slot(k, key) in seen ==> Slot(k, key) in seen2 && seen2[Slot(k, key)] == seen[Slot(k, key)]
  {
    hide Lookup;
  }

  lemma ClusterIps(tables: seq<ConnTable>, peers: seq<Peer>, seen: map<Slot, u64>)
    requires Cluster(tables, peers, seen)
    ensures DistinctIps(peers)
  {
  }

  /** Whatever arrives wherever, the tables of all nodes stay what the run on values makes of them; so
      what `LastSeenIsMirrorTraffic` and `WorkingPathStaysLive` say of it is true of their slots. */
  method HandleAll(rx: UdpReaderScratch, tables: seq<ConnTable>, peers: seq<Peer>, events: seq<Event>,
                   ghost seen: map<Slot, u64>)
    requires Cluster(tables, peers, seen) && forall x :: 0 <= x < |events| ==> ValidEvent(peers, events[x])
    modifies SlotsOf(tables)
    ensures Cluster(tables, peers, Mirror.Run(peers, seen, events))
  {
    hide Cluster, Apply, ValidEvent;
    assert events[..0] == [];
    assert DistinctIps(peers) by {
      ClusterIps(tables, peers, seen);
    }
    for n := 0 to |events|
      invariant Cluster(tables, peers, Mirror.Run(peers, seen, events[..n]))
    {
      assert events[..n + 1][..n] == events[..n];
      Handle(rx, tables, peers, events[n], Mirror.Run(peers, seen, events[..n]));
    }
    assert events[..|events|] == events;
  }
}
