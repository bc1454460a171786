/** What a receiver sees of the segments `gsoSplit` produces: every one passes both checksum
    tests, and together they are the original packet. */
module GsoProof {
  import opened Bytes
  import opened Csum
  import opened Fields
  import opened Gso

  // ---------------------------------------------------------------- every segment validates

  /** The checks of a receiving host, made from the bytes it received: header length and total
      length fit, the IPv4 header sums to 0xFFFF (section 3.1 of RFC 791), and so does the TCP
      part with its pseudo-header (section 3.1 of RFC 9293). */
  ghost predicate ReceiverAccepts(seg: seq<byte>) {
    20 <= |seg| < 0x1_0000
    && var ihl: nat := 4 * (seg[0] as int % 16);
    && 20 <= ihl <= |seg|
    && GetBE16(seg, 2) == |seg|
    && OnesSum(seg[..ihl], 0) == 0xFFFF
    && var tcpLen := |seg| - ihl;
       OnesSum(seg[12..20] + [0, seg[9], tcpLen / 0x100, tcpLen % 0x100] + seg[ihl..], 0) == 0xFFFF
  }

  /** Storing the complement of a sum in a zeroed, even-aligned field makes the sum 0xFFFF. */
  lemma FieldCompletes(p: seq<byte>, t: seq<byte>, at: nat)
    requires |p| % 2 == 0 && at % 2 == 0 && at + 2 <= |t| && t[at] == t[at + 1] == 0
    ensures OnesSum(p + SetBE16(t, at, 0xFFFF - OnesSum(p + t, 0)), 0) == 0xFFFF
  {
    hide OnesSum, WordSum, SetBE16, Canon;
    assert Canon(0) == 0 by { CanonCong(0); }
    OnesSumIsCanon(p + t, 0);
    WordSumAppend(p, t);
    var v := 0xFFFF - OnesSum(p + t, 0);
    WordSumSetField(t, at, v);
    WordSumAppend(p, SetBE16(t, at, v));
    OnesSumIsCanon(p + SetBE16(t, at, v), 0);
    ComplementSums(WordSum(p) + WordSum(t));
  }

  lemma IpHeaderKeeps(ip: seq<byte>, totalLen: nat, i: nat)
    requires |ip| >= 20
    ensures forall k :: 0 <= k < |ip| && !(2 <= k < 6) && k != 10 && k != 11 ==> IpHeader(ip, totalLen, i)[k] == ip[k]
    ensures GetBE16(IpHeader(ip, totalLen, i), 2) == totalLen % 0x1_0000
    ensures GetBE16(IpHeader(ip, totalLen, i), 4) == (GetBE16(ip, 4) + i) % 0x1_0000
  {
    hide OnesSum, SetBE16;
  }

  lemma IpHeaderValid(ip: seq<byte>, totalLen: nat, i: nat)
    requires |ip| >= 20 && ip[10] == ip[11] == 0
    ensures OnesSum(IpHeader(ip, totalLen, i), 0) == 0xFFFF
  {
    hide OnesSum, SetBE16;
    var h := StampedIp(ip, totalLen, i);
    FieldCompletes([], h, 10);
    assert [] + h == h;
    assert [] + IpHeader(ip, totalLen, i) == IpHeader(ip, totalLen, i);
  }

  lemma TcpHeaderKeeps(tcp: seq<byte>, gsoSize: nat, i: nat, last: bool)
    requires |tcp| >= 20
    ensures forall k :: 0 <= k < |tcp| && !(4 <= k < 8) && k != 13 ==> TcpHeader(tcp, gsoSize, i, last)[k] == tcp[k]
    ensures GetBE32(TcpHeader(tcp, gsoSize, i, last), 4)
         == (GetBE32(tcp, 4) + gsoSize * i) % 0x1_0000_0000
    ensures TcpHeader(tcp, gsoSize, i, last)[13]
         == if last then tcp[13] else WithoutFinPsh(tcp[13])
  {
    hide SetBE32, WithoutFinPsh;
  }

  /** The bytes of the two checksum fields. */
  predicate InClearedField(hdr: VirtioNetHdr, k: nat) {
    k == 10 || k == 11 || k == hdr.csumStart + 16 || k == hdr.csumStart + 17
  }

  lemma ClearedFields(pkt: seq<byte>, hdr: VirtioNetHdr)
    requires TcpV4Layout(hdr) && hdr.hdrLen <= |pkt|
    ensures var c := Cleared(pkt, hdr); var at := hdr.csumStart + 16;
            && c[10] == c[11] == c[at] == c[at + 1] == 0
            && forall k :: 0 <= k < |pkt| && !InClearedField(hdr, k) ==> c[k] == pkt[k]
  {
    hide SetBE16, GetBE16;
    var once := SetBE16(pkt, 10, 0);
    ZeroField(pkt, 10);
    ZeroField(once, hdr.csumStart + 16);
  }

  /** A receiver accepts every segment, whatever the packet, the options and the payload size,
      exactly as long as the segment is short enough for the IPv4 length field. */
  lemma SegmentAccepted(pkt: seq<byte>, len: nat, hdr: VirtioNetHdr, i: nat)
    requires TcpV4Layout(hdr) && hdr.hdrLen <= |pkt| && DataAt(hdr, i) <= len <= |pkt|
    requires 4 * (pkt[0] as int % 16) == hdr.csumStart && pkt[9] == 6
    ensures ReceiverAccepts(Segment(pkt, len, hdr, i)) <==> hdr.hdrLen + |Payload(pkt, len, hdr, i)| < 0x1_0000
  {
    hide OnesSum, SetBE16, IpHeader, TcpHeader, Cleared, Payload, DataEnd, DataAt;
    var clean, payload := Cleared(pkt, hdr), Payload(pkt, len, hdr, i);
    ClearedFields(pkt, hdr);
    if hdr.hdrLen + |payload| < 0x1_0000 {
      AssembledAccepted(clean, hdr, payload, i, DataEnd(hdr, len, i) == len);
    }
  }

  lemma AssembledAccepted(clean: seq<byte>, hdr: VirtioNetHdr, payload: seq<byte>, i: nat, last: bool)
    requires TcpV4Layout(hdr) && hdr.hdrLen <= |clean| && hdr.hdrLen + |payload| < 0x1_0000
    requires 4 * (clean[0] as int % 16) == hdr.csumStart && clean[9] == 6
    requires clean[10] == clean[11] == clean[hdr.csumStart + 16] == clean[hdr.csumStart + 17] == 0
    ensures ReceiverAccepts(Assemble(clean, hdr, payload, i, last))
  {
    hide OnesSum, SetBE16, GetBE16, IpHeader, TcpHeader, TcpPart, PseudoHeader, ReceiverAccepts;
    var ip, tcp := clean[..hdr.csumStart], clean[hdr.csumStart..hdr.hdrLen];
    var head := IpHeader(ip, hdr.hdrLen + |payload|, i);
    var header := TcpHeader(tcp, hdr.gsoSize, i, last);
    IpHeaderKeeps(ip, hdr.hdrLen + |payload|, i);
    IpHeaderValid(ip, hdr.hdrLen + |payload|, i);
    TcpHeaderKeeps(tcp, hdr.gsoSize, i, last);
    assert head[12..16] == clean[12..16] && head[16..20] == clean[16..20];
    TcpPartValid(header, payload, clean[12..16], clean[16..20]);
    AcceptedParts(head, TcpPart(header, payload, clean[12..16], clean[16..20]));
  }

  lemma TcpPartValid(header: seq<byte>, payload: seq<byte>, src: seq<byte>, dst: seq<byte>)
    requires |header| >= 20 && header[16] == header[17] == 0 && |header| + |payload| < 0x1_0000
    requires |src| == |dst| == 4
    ensures var pseudo := PseudoHeader(src, dst, 6, |header| + |payload|);
            OnesSum(pseudo + TcpPart(header, payload, src, dst), 0) == 0xFFFF
  {
    hide OnesSum, SetBE16, GetBE16;
    var t := header + payload;
    assert t[16] == header[16] && t[17] == header[17];
    assert |PseudoHeader(src, dst, 6, |t|)| == 12;
    hide PseudoHeader;
    FieldCompletes(PseudoHeader(src, dst, 6, |t|), t, 16);
  }

  lemma AcceptedParts(head: seq<byte>, tail: seq<byte>)
    requires 20 <= |head| && |head| + |tail| < 0x1_0000 && 4 * (head[0] as int % 16) == |head|
    requires GetBE16(head, 2) == |head| + |tail|
    requires OnesSum(head, 0) == 0xFFFF
    requires OnesSum(PseudoHeader(head[12..16], head[16..20], head[9], |tail|) + tail, 0) == 0xFFFF
    ensures ReceiverAccepts(head + tail)
  {
    hide OnesSum, GetBE16;
    var seg := head + tail;
    assert seg[..|head|] == head && seg[|head|..] == tail;
    assert seg[12..20] == head[12..16] + head[16..20];
    SameField(seg, head, 2);
  }

  lemma SameField(a: seq<byte>, b: seq<byte>, at: nat)
    requires at + 2 <= |a| && at + 2 <= |b| && a[at] == b[at] && a[at + 1] == b[at + 1]
    ensures GetBE16(a, at) == GetBE16(b, at)
  {
  }

  // ---------------------------------------------------------------- header fields of a segment

  /** Clearing FIN and PSH leaves the other six flags alone. */
  lemma WithoutFinPshIs(f: byte)
    ensures var r := WithoutFinPsh(f) as int;
            r % 2 == 0 && r / 8 % 2 == 0 && r / 2 % 4 == f as int / 2 % 4 && r / 16 == f as int / 16
  {
    var x: int := f;
    BitSplit(x);
    Bits(x / 2 % 4, x / 16);
  }

  lemma BitSplit(x: nat)
    ensures x == x % 2 + 2 * (x / 2 % 4) + 8 * (x / 8 % 2) + 16 * (x / 16)
  {
    assert x / 2 / 4 == x / 8;
    assert x / 8 / 2 == x / 16;
  }

  lemma Bits(b12: nat, hi: nat)
    requires b12 < 4
    ensures var r := 2 * b12 + 16 * hi; r % 2 == 0 && r / 8 % 2 == 0 && r / 2 % 4 == b12 && r / 16 == hi
  {
    var r := 2 * b12 + 16 * hi;
    Below8(2 * hi, 2 * b12);
    Below2(b12 + 8 * hi);
    Below4(2 * hi, b12);
    Below16(hi, 2 * b12);
    Below2(hi);
  }

  lemma Below2(q: nat)
    ensures 2 * q / 2 == q && 2 * q % 2 == 0
  {
  }

  lemma Below4(q: nat, rest: nat)
    requires rest < 4
    ensures (4 * q + rest) % 4 == rest
  {
  }

  lemma Below8(q: nat, rest: nat)
    requires rest < 8
    ensures (8 * q + rest) / 8 == q
  {
  }

  lemma Below16(q: nat, rest: nat)
    requires rest < 16
    ensures (16 * q + rest) / 16 == q
  {
  }

  /** Where segment `i` of the payload begins and ends, and that it is the last one exactly when
      nothing is left behind it. */
  lemma PayloadIs(pkt: seq<byte>, len: nat, hdr: VirtioNetHdr, i: nat)
    requires hdr.hdrLen + i * hdr.gsoSize <= len <= |pkt|
    ensures var at, end := hdr.hdrLen + i * hdr.gsoSize, hdr.hdrLen + i * hdr.gsoSize + hdr.gsoSize;
            && DataAt(hdr, i) == at && Payload(pkt, len, hdr, i) == pkt[at..if end < len then end else len]
            && (DataEnd(hdr, len, i) == len <==> end >= len)
  {
  }

  /** Segment `i` carries IP id `id + i`, TCP sequence number `seq + i * gsoSize`, FIN and PSH
      only if it is the last; every other header byte outside the length and checksum fields is
      the packet's. */
  lemma SegmentFields(pkt: seq<byte>, len: nat, hdr: VirtioNetHdr, i: nat)
    requires TcpV4Layout(hdr) && hdr.hdrLen <= |pkt| && DataAt(hdr, i) <= len <= |pkt|
    ensures var seg := Segment(pkt, len, hdr, i); var tcp: nat := hdr.csumStart;
            && |seg| == hdr.hdrLen + |Payload(pkt, len, hdr, i)|
            && seg[hdr.hdrLen..] == Payload(pkt, len, hdr, i)
            && GetBE16(seg, 2) == |seg| % 0x1_0000
            && GetBE16(seg, 4) == (GetBE16(pkt, 4) + i) % 0x1_0000
            && GetBE32(seg, tcp + 4) == (GetBE32(pkt, tcp + 4) + hdr.gsoSize * i) % 0x1_0000_0000
            && seg[tcp + 13] == (if DataEnd(hdr, len, i) == len then pkt[tcp + 13] else WithoutFinPsh(pkt[tcp + 13]))
            && forall k :: 0 <= k < hdr.hdrLen && !InRewrittenField(hdr, k) ==> seg[k] == pkt[k]
  {
    hide OnesSum, SetBE16, SetBE32, GetBE16, GetBE32, WithoutFinPsh, Cleared, DataAt, DataEnd, Payload, Assemble;
    ClearedFields(pkt, hdr);
    AssembledIp(pkt, Cleared(pkt, hdr), hdr, Payload(pkt, len, hdr, i), i, DataEnd(hdr, len, i) == len);
    AssembledTcp(pkt, Cleared(pkt, hdr), hdr, Payload(pkt, len, hdr, i), i, DataEnd(hdr, len, i) == len);
  }

  lemma AssembledIp(pkt: seq<byte>, clean: seq<byte>, hdr: VirtioNetHdr, payload: seq<byte>, i: nat, last: bool)
    requires TcpV4Layout(hdr) && hdr.hdrLen <= |pkt| && |clean| == |pkt|
    requires forall k :: 0 <= k < hdr.hdrLen && !InClearedField(hdr, k) ==> clean[k] == pkt[k]
    ensures var seg := Assemble(clean, hdr, payload, i, last);
            && GetBE16(seg, 2) == |seg| % 0x1_0000
            && GetBE16(seg, 4) == (GetBE16(pkt, 4) + i) % 0x1_0000
            && forall k :: 0 <= k < hdr.csumStart && !InRewrittenField(hdr, k) ==> seg[k] == pkt[k]
  {
    hide GetBE16, IpHeader, TcpHeader, TcpPart;
    var ip := clean[..hdr.csumStart];
    IpHeaderKeeps(ip, hdr.hdrLen + |payload|, i);
    var seg := Assemble(clean, hdr, payload, i, last);
    var head := seg[..hdr.csumStart];
    assert head == IpHeader(ip, hdr.hdrLen + |payload|, i);
    SameField(seg, head, 2);
    SameField(seg, head, 4);
    SameField(ip, pkt, 4);
  }

  lemma AssembledTcp(pkt: seq<byte>, clean: seq<byte>, hdr: VirtioNetHdr, payload: seq<byte>, i: nat, last: bool)
    requires TcpV4Layout(hdr) && hdr.hdrLen <= |pkt| && |clean| == |pkt|
    requires forall k :: 0 <= k < hdr.hdrLen && !InClearedField(hdr, k) ==> clean[k] == pkt[k]
    ensures var seg := Assemble(clean, hdr, payload, i, last); var tcp: nat := hdr.csumStart;
            && seg[hdr.hdrLen..] == payload
            && GetBE32(seg, tcp + 4) == (GetBE32(pkt, tcp + 4) + hdr.gsoSize * i) % 0x1_0000_0000
            && seg[tcp + 13] == (if last then pkt[tcp + 13] else WithoutFinPsh(pkt[tcp + 13]))
            && forall k :: hdr.csumStart <= k < hdr.hdrLen && !InRewrittenField(hdr, k) ==> seg[k] == pkt[k]
  {
    hide GetBE32, WithoutFinPsh, IpHeader, TcpHeader, TcpPart, Assemble;
    var at: nat := hdr.csumStart;
    var tcp, seg := clean[at..hdr.hdrLen], Assemble(clean, hdr, payload, i, last);
    var header := TcpHeader(tcp, hdr.gsoSize, i, last);
    TcpHeaderKeeps(tcp, hdr.gsoSize, i, last);
    AssembledBytes(clean, hdr, payload, i, last);
    assert seg[at + 4..at + 4 + 4] == header[4..4 + 4];
    SameField32(seg, header, at, 4);
    assert pkt[at + 4..at + 4 + 4] == tcp[4..4 + 4];
    SameField32(pkt, tcp, at, 4);
    forall k | at <= k < hdr.hdrLen && !InRewrittenField(hdr, k) ensures seg[k] == pkt[k] {
      assert seg[at + (k - at)] == header[k - at] == tcp[k - at];
    }
  }

  /** Behind the IPv4 header come the TCP header, but for its checksum, and the payload. */
  lemma AssembledBytes(clean: seq<byte>, hdr: VirtioNetHdr, payload: seq<byte>, i: nat, last: bool)
    requires TcpV4Layout(hdr) && hdr.hdrLen <= |clean|
    ensures var seg, at := Assemble(clean, hdr, payload, i, last), hdr.csumStart as nat;
            var header := TcpHeader(clean[at..hdr.hdrLen], hdr.gsoSize, i, last);
            && |header| == hdr.hdrLen - at && seg[hdr.hdrLen..] == payload
            && forall k :: 0 <= k < |header| && k != 16 && k != 17 ==> seg[at + k] == header[k]
  {
    hide GetBE32, WithoutFinPsh, IpHeader, TcpHeader, TcpPart;
    var at: nat := hdr.csumStart;
    var header := TcpHeader(clean[at..hdr.hdrLen], hdr.gsoSize, i, last);
    TcpPartKeeps(header, payload, clean[12..16], clean[16..20]);
    var part := Assemble(clean, hdr, payload, i, last)[at..];
    assert part == TcpPart(header, payload, clean[12..16], clean[16..20]);
    assert part[|header|..] == payload;
  }

  /** Identification, lengths, checksums, sequence number and flags. */
  predicate InRewrittenField(hdr: VirtioNetHdr, k: nat) {
    var tcp: nat := hdr.csumStart;
    2 <= k < 6 || k == 10 || k == 11 || tcp + 4 <= k < tcp + 8 || k == tcp + 13 || k == tcp + 16 || k == tcp + 17
  }

  lemma TcpPartKeeps(header: seq<byte>, payload: seq<byte>, src: seq<byte>, dst: seq<byte>)
    requires |header| >= 20
    ensures forall k :: 0 <= k < |header| && k != 16 && k != 17 ==> TcpPart(header, payload, src, dst)[k] == header[k]
    ensures TcpPart(header, payload, src, dst)[|header|..] == payload
  {
    hide OnesSum, SetBE16, PseudoHeader, GetBE16;
  }

  lemma SameField32(a: seq<byte>, b: seq<byte>, n: nat, at: nat)
    requires n + at + 4 <= |a| && at + 4 <= |b|
    requires a[n + at..n + at + 4] == b[at..at + 4]
    ensures GetBE32(a, n + at) == GetBE32(b, at)
  {
    var x, y := a[n + at..n + at + 4], b[at..at + 4];
    assert x[0] == a[n + at] && x[1] == a[n + at + 1] && x[2] == a[n + at + 2] && x[3] == a[n + at + 3];
    assert y[0] == b[at] && y[1] == b[at + 1] && y[2] == b[at + 2] && y[3] == b[at + 3];
  }

  // ---------------------------------------------------------------- reassembly

  lemma DataAtGrows(hdr: VirtioNetHdr, n: nat)
    ensures n >= 1 ==> DataAt(hdr, n - 1) <= DataAt(hdr, n)
    ensures n >= 2 ==> DataAt(hdr, n - 2) <= DataAt(hdr, n - 1)
    ensures hdr.hdrLen == DataAt(hdr, 0) <= DataAt(hdr, n)
  {
    DataAtStep(hdr, 0, n);
    if n >= 1 {
      DataAtStep(hdr, n - 1, n);
    }
    if n >= 2 {
      DataAtStep(hdr, n - 2, n - 1);
    }
  }

  /** `segs` are the first segments of the packet, in order. */
  ghost predicate AreSegments(segs: seq<seq<byte>>, pkt: seq<byte>, len: nat, hdr: VirtioNetHdr)
    requires TcpV4Layout(hdr) && hdr.hdrLen <= |pkt| && len <= |pkt|
  {
    forall i :: 0 <= i < |segs| ==> DataAt(hdr, i) <= len && segs[i] == Segment(pkt, len, hdr, i)
  }

  function Beyond(seg: seq<byte>, hdrLen: nat): seq<byte> {
    if hdrLen <= |seg| then seg[hdrLen..] else []
  }

  function Payloads(segs: seq<seq<byte>>, hdrLen: nat): seq<byte> {
    if segs == [] then [] else Payloads(segs[..|segs| - 1], hdrLen) + Beyond(segs[|segs| - 1], hdrLen)
  }

  /** The first header, with the flags of the last segment, in front of all payloads. */
  function Reassemble(segs: seq<seq<byte>>, hdr: VirtioNetHdr): seq<byte>
    requires TcpV4Layout(hdr) && segs != []
    requires hdr.hdrLen <= |segs[0]| && hdr.hdrLen <= |segs[|segs| - 1]|
  {
    var flagsAt := hdr.csumStart + 13;
    segs[0][..hdr.hdrLen][flagsAt := segs[|segs| - 1][flagsAt]] + Payloads(segs, hdr.hdrLen)
  }

  /** A packet up to its length field and its two checksum fields. */
  function Masked(s: seq<byte>, hdr: VirtioNetHdr): seq<byte> {
    seq(|s|, k requires 0 <= k < |s| =>
      if InMaskedField(hdr, k) then 0 else s[k])
  }

  lemma SegmentPayload(pkt: seq<byte>, len: nat, hdr: VirtioNetHdr, i: nat)
    requires TcpV4Layout(hdr) && hdr.hdrLen <= |pkt| && DataAt(hdr, i) <= len <= |pkt|
    ensures hdr.hdrLen <= |Segment(pkt, len, hdr, i)|
    ensures Beyond(Segment(pkt, len, hdr, i), hdr.hdrLen) == pkt[DataAt(hdr, i)..DataEnd(hdr, len, i)]
  {
    hide Segment, GetBE16, GetBE32, WithoutFinPsh, DataAt, DataEnd;
    SegmentFields(pkt, len, hdr, i);
  }

  /** The end of the payload covered by the first `n` segments. */
  function Covered(hdr: VirtioNetHdr, len: nat, n: nat): (end: nat)
    requires hdr.hdrLen <= len
    ensures hdr.hdrLen <= end <= len
  {
    DataAtGrows(hdr, n);
    if DataAt(hdr, n) > len then len else DataAt(hdr, n)
  }

  lemma CoveredStep(hdr: VirtioNetHdr, len: nat, n: nat)
    requires hdr.hdrLen <= len && DataAt(hdr, n) <= len
    ensures Covered(hdr, len, n) == DataAt(hdr, n) && Covered(hdr, len, n + 1) == DataEnd(hdr, len, n)
    ensures Covered(hdr, len, 0) == hdr.hdrLen
  {
    DataAtStep(hdr, n, n);
    DataAtZero(hdr);
  }

  /** The payloads join up without gap or overlap. */
  lemma {:induction false} PayloadsJoin(segs: seq<seq<byte>>, pkt: seq<byte>, len: nat, hdr: VirtioNetHdr)
    requires TcpV4Layout(hdr) && hdr.hdrLen <= len <= |pkt|
    requires AreSegments(segs, pkt, len, hdr)
    ensures Payloads(segs, hdr.hdrLen) == pkt[hdr.hdrLen..Covered(hdr, len, |segs|)]
  {
    hide Segment, DataAt, DataEnd, Covered, Beyond;
    if segs == [] {
      DataAtZero(hdr);
      CoveredStep(hdr, len, 0);
    } else {
      var n := |segs| - 1;
      PayloadsJoin(segs[..n], pkt, len, hdr);
      SegmentPayload(pkt, len, hdr, n);
      CoveredStep(hdr, len, n);
    }
  }

  /** Splitting and then reassembling is the identity, up to the length and checksum fields. */
  lemma ReassemblyIsIdentity(segs: seq<seq<byte>>, pkt: seq<byte>, len: nat, hdr: VirtioNetHdr)
    requires TcpV4Layout(hdr) && hdr.hdrLen <= |pkt| && len <= |pkt|
    requires segs != [] && AreSegments(segs, pkt, len, hdr)
    requires DataAt(hdr, |segs| - 1) < len <= DataAt(hdr, |segs|)
    ensures hdr.hdrLen <= |segs[0]| && hdr.hdrLen <= |segs[|segs| - 1]|
    ensures Masked(Reassemble(segs, hdr), hdr) == Masked(pkt[..len], hdr)
  {
    hide Segment, DataAt, DataEnd, Payloads, Masked, InMaskedField, Covered;
    var n := |segs|;
    DataAtGrows(hdr, n - 1);
    PayloadsJoin(segs, pkt, len, hdr);
    AllCovered(hdr, len, n);
    FirstHeader(pkt, len, hdr);
    LastFlags(pkt, len, hdr, n - 1);
    var r := Reassemble(segs, hdr);
    assert r[hdr.hdrLen..] == pkt[hdr.hdrLen..len];
    forall k | 0 <= k < len && !InMaskedField(hdr, k)
      ensures r[k] == pkt[..len][k]
    {
      if k >= hdr.hdrLen {
        assert r[hdr.hdrLen..][k - hdr.hdrLen] == pkt[hdr.hdrLen..len][k - hdr.hdrLen];
      }
    }
    MaskedEqual(r, pkt[..len], hdr);
  }

  lemma AllCovered(hdr: VirtioNetHdr, len: nat, n: nat)
    requires hdr.hdrLen <= len <= DataAt(hdr, n)
    ensures Covered(hdr, len, n) == len
  {
  }

  predicate InMaskedField(hdr: VirtioNetHdr, k: nat) {
    k == 2 || k == 3 || k == 10 || k == 11 || k == hdr.csumStart + 16 || k == hdr.csumStart + 17
  }

  lemma MaskedEqual(r: seq<byte>, s: seq<byte>, hdr: VirtioNetHdr)
    requires |r| == |s|
    requires forall k :: 0 <= k < |s| && !InMaskedField(hdr, k) ==> r[k] == s[k]
    ensures Masked(r, hdr) == Masked(s, hdr)
  {
  }

  lemma LastFlags(pkt: seq<byte>, len: nat, hdr: VirtioNetHdr, i: nat)
    requires TcpV4Layout(hdr) && hdr.hdrLen <= |pkt| && DataAt(hdr, i) < len <= |pkt|
    requires len <= DataAt(hdr, i + 1)
    ensures var seg := Segment(pkt, len, hdr, i);
            hdr.hdrLen <= |seg| && seg[hdr.csumStart + 13] == pkt[hdr.csumStart + 13]
  {
    hide Segment, WithoutFinPsh, DataAt, GetBE16, GetBE32;
    SegmentFields(pkt, len, hdr, i);
    DataAtStep(hdr, i, i);
  }

  /** Segment 0 keeps the packet's identification and sequence number. */
  lemma FirstHeader(pkt: seq<byte>, len: nat, hdr: VirtioNetHdr)
    requires TcpV4Layout(hdr) && hdr.hdrLen <= |pkt| && DataAt(hdr, 0) <= len <= |pkt|
    ensures var seg := Segment(pkt, len, hdr, 0); var tcp: nat := hdr.csumStart;
            hdr.hdrLen <= |seg| &&
            forall k :: 0 <= k < hdr.hdrLen && k != tcp + 13 && !InMaskedField(hdr, k) ==> seg[k] == pkt[k]
  {
    hide Segment, WithoutFinPsh, DataAt, DataEnd, Payload, GetBE16, GetBE32;
    SegmentFields(pkt, len, hdr, 0);
    var seg := Segment(pkt, len, hdr, 0);
    NothingAdded(GetBE16(pkt, 4), GetBE32(pkt, hdr.csumStart + 4), hdr.gsoSize);
    FieldBytes(seg, pkt, 4);
    FieldBytes32(seg, pkt, hdr.csumStart + 4);
  }

  lemma NothingAdded(id: u16, sequence: u32, size: nat)
    ensures (id + 0) % 0x1_0000 == id && (sequence + size * 0) % 0x1_0000_0000 == sequence
  {
  }

  lemma FieldBytes(a: seq<byte>, b: seq<byte>, at: nat)
    requires at + 2 <= |a| && at + 2 <= |b| && GetBE16(a, at) == GetBE16(b, at)
    ensures a[at] == b[at] && a[at + 1] == b[at + 1]
  {
  }

  lemma FieldBytes32(a: seq<byte>, b: seq<byte>, at: nat)
    requires at + 4 <= |a| && at + 4 <= |b| && GetBE32(a, at) == GetBE32(b, at)
    ensures forall k :: at <= k < at + 4 ==> a[k] == b[k]
  {
    assert GetBE16(a, at) == GetBE16(b, at) && GetBE16(a, at + 2) == GetBE16(b, at + 2);
    FieldBytes(a, b, at);
    FieldBytes(a, b, at + 2);
  }
}
