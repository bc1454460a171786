/** Receiving keeps, for every slot of every node, the time of the last datagram that came
    through the mirror slot of the peer (conn.cpp:94-149, plane.cpp:236-246), and so working
    paths are never judged dead. */
module Mirror {
  import opened Bytes
  import opened Conn
  import opened ConnTable
  import opened Options

  /** Slot `key` of the node with number `owner`. */
  datatype Slot = Slot(owner: nat, key: SlotKey)

  predicate ValidSlot(peers: seq<Peer>, s: Slot) {
    s.owner < |peers| && ValidKey(peers, s.owner, s.key)
  }

  /** The peer's slot back along the same pair of addresses: (i, j) becomes (j, i). */
  function MirrorOf(s: Slot): Slot {
    Slot(s.key.peer, SlotKey(s.owner, s.key.i, s.key.j))
  }

  /** Every node has endpoints, and no two endpoints of the cluster share an IP address. */
  ghost predicate DistinctIps(peers: seq<Peer>) {
    && (forall k :: 0 <= k < |peers| ==> 0 < |peers[k].dsts| < 0x1_0000_0000)
    && (forall k, i, l, j ::
          (0 <= k < |peers| && 0 <= i < |peers[k].dsts| && 0 <= l < |peers| && 0 <= j < |peers[l].dsts|
           && peers[k].dsts[i].ip == peers[l].dsts[j].ip) ==> k == l && i == j)
  }

  /** The lookup of plane.cpp:244 at node `at`, answered by scanning the node's slots; the
      keyed index of the table gives the same answers (`IndexAgreesWithScan`). */
  function Lookup(peers: seq<Peer>, at: nat, srcIdx: u32, ip: u32): Option<SlotKey>
    requires at < |peers| && peers[at].dsts != []
  {
    AllValid(peers, at);
    ScanLast(Layout(peers, at, |peers|), peers, srcIdx, ip)
  }

  lemma AllValid(peers: seq<Peer>, at: nat)
    requires at < |peers| && peers[at].dsts != []
    ensures var keys := Layout(peers, at, |peers|);
            AllResolve(keys, peers) && forall x :: 0 <= x < |keys| ==> ValidKey(peers, at, keys[x])
  {
    var keys := Layout(peers, at, |peers|);
    forall x | 0 <= x < |keys| ensures ValidKey(peers, at, keys[x]) {
      LayoutSound(peers, at, |peers|, x);
    }
  }

  /** A datagram sent through slot `s` is looked up by the receiver as exactly the mirror of
      `s`, and mirroring twice gives `s` back. */
  lemma MirrorIsFound(peers: seq<Peer>, s: Slot)
    requires DistinctIps(peers) && ValidSlot(peers, s)
    ensures ValidSlot(peers, MirrorOf(s)) && MirrorOf(MirrorOf(s)) == s
    ensures Lookup(peers, s.key.peer, s.key.j, peers[s.owner].dsts[s.key.i].ip) == Some(MirrorOf(s).key)
  {
    hide ScanLast, Layout;
    var at, ip := s.key.peer, peers[s.owner].dsts[s.key.i].ip;
    var keys := Layout(peers, at, |peers|);
    AllValid(peers, at);
    ScanLastIs(keys, peers, s.key.j, ip);
    var x := LayoutComplete(peers, at, |peers|, MirrorOf(s).key);
    assert HasKey(keys[x], peers, s.key.j, ip);
  }

  /** An address outside the table finds nothing. */
  lemma StrangerIsNotFound(peers: seq<Peer>, at: nat, srcIdx: u32, ip: u32)
    requires at < |peers| && peers[at].dsts != []
    requires forall k, j :: 0 <= k < |peers| && k != at && 0 <= j < |peers[k].dsts| ==> peers[k].dsts[j].ip != ip
    ensures Lookup(peers, at, srcIdx, ip) == None
  {
    hide ScanLast, Layout;
    AllValid(peers, at);
    ScanLastIs(Layout(peers, at, |peers|), peers, srcIdx, ip);
  }

  /** A slot is found exactly for its own socket and the address it sends to, whatever the port. */
  lemma LookupIs(peers: seq<Peer>, s: Slot, srcIdx: u32, ip: u32)
    requires DistinctIps(peers) && ValidSlot(peers, s)
    ensures Lookup(peers, s.owner, srcIdx, ip) == Some(s.key)
       <==> srcIdx == s.key.i && ip == peers[s.key.peer].dsts[s.key.j].ip
  {
    hide ScanLast, Layout;
    var keys := Layout(peers, s.owner, |peers|);
    AllValid(peers, s.owner);
    ScanLastIs(keys, peers, srcIdx, ip);
    var x := LayoutComplete(peers, s.owner, |peers|, s.key);
    if HasKey(s.key, peers, srcIdx, ip) {
      assert HasKey(keys[x], peers, srcIdx, ip);
      var found := ScanLast(keys, peers, srcIdx, ip).value;
      assert HasKey(found, peers, srcIdx, ip);
    }
  }

  // ---------------------------------------------------------------- all runs of all nodes

  /** A datagram that a peer sent through one of its slots arrives; or one from any other address
      and port does. Loss, duplication and reordering are choices of events. */
  datatype Event =
    | Deliver(from: Slot, now: u64)
    | Other(at: nat, srcIdx: u32, addr: Addr, now: u64)

  ghost predicate ValidEvent(peers: seq<Peer>, e: Event) {
    match e
    case Deliver(from, _) => ValidSlot(peers, from)
    case Other(at, _, _, _) => at < |peers|
  }

  /** `lastSeen` of every slot, written the way `udpReader` does. */
  function Receive(peers: seq<Peer>, seen: map<Slot, u64>, at: nat, srcIdx: u32, ip: u32, now: u64): map<Slot, u64>
    requires at < |peers| && peers[at].dsts != []
  {
    match Lookup(peers, at, srcIdx, ip)
    case Some(key) => seen[Slot(at, key) := now]
    case None => seen
  }

  ghost function Apply(peers: seq<Peer>, seen: map<Slot, u64>, e: Event): map<Slot, u64>
    requires DistinctIps(peers) && ValidEvent(peers, e)
  {
    match e
    case Deliver(from, now) =>
      Receive(peers, seen, from.key.peer, from.key.j, peers[from.owner].dsts[from.key.i].ip, now)
    case Other(at, srcIdx, from, now) => Receive(peers, seen, at, srcIdx, from.ip, now)
  }

  ghost function Run(peers: seq<Peer>, seen: map<Slot, u64>, events: seq<Event>): map<Slot, u64>
    requires DistinctIps(peers) && forall x :: 0 <= x < |events| ==> ValidEvent(peers, events[x])
  {
    if events == [] then seen
    else Apply(peers, Run(peers, seen, events[..|events| - 1]), events[|events| - 1])
  }

  /** The datagram came through the mirror of slot `s`; or from the address `s` sends to, under
      another port or another hand, to the socket `s` sends from. */
  predicate Touches(peers: seq<Peer>, e: Event, s: Slot)
    requires ValidSlot(peers, s)
  {
    match e
    case Deliver(from, _) => from == MirrorOf(s)
    case Other(at, srcIdx, from, _) =>
      at == s.owner && srcIdx == s.key.i && from.ip == peers[s.key.peer].dsts[s.key.j].ip
  }

  /** When the last such datagram came. */
  function LastTouch(peers: seq<Peer>, events: seq<Event>, s: Slot, start: u64): u64
    requires ValidSlot(peers, s)
  {
    if events == [] then start
    else
      var e := events[|events| - 1];
      if Touches(peers, e, s) then e.now else LastTouch(peers, events[..|events| - 1], s, start)
  }

  lemma DeliverTouches(peers: seq<Peer>, from: Slot, s: Slot)
    requires DistinctIps(peers) && ValidSlot(peers, from) && ValidSlot(peers, s) && from.key.peer == s.owner
    ensures from == MirrorOf(s)
       <==> from.key.j == s.key.i && peers[from.owner].dsts[from.key.i].ip == peers[s.key.peer].dsts[s.key.j].ip
  {
  }

  /** In every run, `lastSeen` of a slot is its start value or the receive time of the last
      datagram that came to its socket from the address it sends to: through its mirror slot, if
      nobody else sends from there. */
  lemma {:induction false} LastSeenIsMirrorTraffic(peers: seq<Peer>, seen: map<Slot, u64>, events: seq<Event>, s: Slot)
    requires DistinctIps(peers) && forall x :: 0 <= x < |events| ==> ValidEvent(peers, events[x])
    requires ValidSlot(peers, s) && s in seen
    ensures s in Run(peers, seen, events)
    ensures Run(peers, seen, events)[s] == LastTouch(peers, events, s, seen[s])
  {
    hide Lookup, DistinctIps;
    if events != [] {
      var n := |events| - 1;
      LastSeenIsMirrorTraffic(peers, seen, events[..n], s);
      match events[n]
      case Deliver(from, now) =>
        HasEndpoints(peers, from.key.peer);
        LookupIs(peers, s, from.key.j, peers[from.owner].dsts[from.key.i].ip);
        if from.key.peer == s.owner {
          DeliverTouches(peers, from, s);
        }
      case Other(at, srcIdx, from, now) =>
        LookupIs(peers, s, srcIdx, from.ip);
        HasEndpoints(peers, at);
    }
  }

  lemma HasEndpoints(peers: seq<Peer>, k: nat)
    requires DistinctIps(peers) && k < |peers|
    ensures 0 < |peers[k].dsts| < 0x1_0000_0000
  {
  }

  // ---------------------------------------------------------------- timed liveness

  /** Clock readings of one receiving thread never go back. */
  ghost predicate InOrder(peers: seq<Peer>, events: seq<Event>, s: Slot)
    requires ValidSlot(peers, s)
  {
    forall x, y ::
      (0 <= x < y < |events| && Touches(peers, events[x], s) && Touches(peers, events[y], s))
      ==> events[x].now <= events[y].now
  }

  /** Up to time `now`, slot `from` is probed in every interval of `period` that starts after
      `start`, and every probe that has had `delay` to arrive has been delivered within it. */
  ghost predicate WorkingPath(events: seq<Event>, from: Slot, probes: set<nat>, start: nat, now: nat, period: nat,
                              delay: nat) {
    && (forall t: nat :: start <= t && t + period <= now ==> ProbedWithin(probes, t, period))
    && (forall p :: p in probes && p + delay <= now ==> DeliveredWithin(events, from, p, delay))
  }

  ghost predicate ProbedWithin(probes: set<nat>, t: nat, period: nat) {
    exists p :: p in probes && t <= p <= t + period
  }

  ghost predicate DeliveredWithin(events: seq<Event>, from: Slot, p: nat, delay: nat) {
    exists x :: 0 <= x < |events| && IsDelivery(events[x], from) && p <= events[x].now <= p + delay
  }

  predicate IsDelivery(e: Event, from: Slot) {
    e.Deliver? && e.from == from
  }

  lemma {:induction false} LastTouchIsLatest(peers: seq<Peer>, events: seq<Event>, s: Slot, start: u64, x: nat)
    requires ValidSlot(peers, s) && InOrder(peers, events, s)
    requires x < |events| && Touches(peers, events[x], s)
    ensures events[x].now <= LastTouch(peers, events, s, start)
  {
    var n := |events| - 1;
    if !Touches(peers, events[n], s) {
      LastTouchIsLatest(peers, events[..n], s, start, x);
    }
  }

  lemma {:induction false} LastTouchBetween(peers: seq<Peer>, events: seq<Event>, s: Slot, start: u64, now: u64)
    requires ValidSlot(peers, s) && start <= now
    requires forall x :: 0 <= x < |events| && Touches(peers, events[x], s) ==> start <= events[x].now <= now
    ensures start <= LastTouch(peers, events, s, start) <= now
  {
    if events != [] {
      LastTouchBetween(peers, events[..|events| - 1], s, start, now);
    }
  }

  /** Probes every `period` ms that arrive within `delay` ms, with `period + delay` inside the
      timeout, keep a slot live at every decision not before its `lastSeen`. */
  lemma WorkingPathStaysLive(peers: seq<Peer>, seen: map<Slot, u64>, events: seq<Event>, s: Slot,
                             probes: set<nat>, now: u64, period: nat, delay: nat, timeoutMs: u64)
    requires DistinctIps(peers) && forall x :: 0 <= x < |events| ==> ValidEvent(peers, events[x])
    requires ValidSlot(peers, s) && s in seen && seen[s] <= now && InOrder(peers, events, s)
    requires forall x :: 0 <= x < |events| && Touches(peers, events[x], s) ==> seen[s] <= events[x].now <= now
    requires WorkingPath(events, MirrorOf(s), probes, seen[s], now, period, delay)
    requires period + delay <= timeoutMs
    ensures s in Run(peers, seen, events) && Live(now, Run(peers, seen, events)[s], timeoutMs)
  {
    hide Run, DistinctIps, ValidSlot, ValidEvent, InOrder, LastTouch;
    var m, start := MirrorOf(s), seen[s];
    LastSeenIsMirrorTraffic(peers, seen, events, s);
    LastTouchBetween(peers, events, s, start, now);
    var t: int := now - period - delay;
    if t >= start {
      assert ProbedWithin(probes, t, period);
      var p :| p in probes && t <= p <= t + period;
      assert DeliveredWithin(events, m, p, delay);
      var x :| 0 <= x < |events| && IsDelivery(events[x], m) && p <= events[x].now <= p + delay;
      LastTouchIsLatest(peers, events, s, start, x);
    }
    LiveMeans(now, LastTouch(peers, events, s, start), timeoutMs);
  }
}
