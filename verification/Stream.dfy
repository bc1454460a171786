/** gso.cpp, `gsoSplit`: the byte stream a TCP receiver puts together from the segments. */
module Stream {
  import opened Bytes
  import opened Fields
  import opened Gso
  import opened GsoProof

  /** What a TCP receiver takes from a segment whose TCP header starts at `tcp`: the sequence number,
      and the bytes behind the header as its data offset says (section 3.1 of RFC 9293). */
  datatype Part = Part(sequence: u32, data: seq<byte>)

  function DataOffset(seg: seq<byte>, tcp: nat): nat
    requires tcp + 20 <= |seg|
  {
    4 * (seg[tcp + 12] as int / 16)
  }

  function PartOf(seg: seq<byte>, tcp: nat): Part
    requires tcp + 20 <= |seg|
  {
    var at := tcp + DataOffset(seg, tcp);
    Part(GetBE32(seg, tcp + 4), if at <= |seg| then seg[at..] else [])
  }

  function PartsOf(segs: seq<seq<byte>>, tcp: nat): (parts: seq<Part>)
    requires forall i :: 0 <= i < |segs| ==> tcp + 20 <= |segs[i]|
    ensures |parts| == |segs|
    ensures forall i :: 0 <= i < |segs| ==> parts[i] == PartOf(segs[i], tcp)
  {
    if segs == [] then [] else PartsOf(segs[..|segs| - 1], tcp) + [PartOf(segs[|segs| - 1], tcp)]
  }

  /** Each part starts where the one before it ends. */
  predicate InSequence(parts: seq<Part>) {
    forall i :: 0 < i < |parts| ==> Follows(parts[i - 1], parts[i])
  }

  predicate Follows(a: Part, b: Part) {
    b.sequence == (a.sequence + |a.data|) % 0x1_0000_0000
  }

  function Joined(parts: seq<Part>): seq<byte> {
    if parts == [] then [] else Joined(parts[..|parts| - 1]) + parts[|parts| - 1].data
  }

  /** The parts make up the stream part that the packet would have been. */
  predicate SameStream(parts: seq<Part>, whole: Part) {
    parts != [] && parts[0].sequence == whole.sequence && InSequence(parts) && Joined(parts) == whole.data
  }

  ghost predicate SplitOf(segs: seq<seq<byte>>, pkt: seq<byte>, len: nat, hdr: VirtioNetHdr) {
    && TcpV4Layout(hdr) && hdr.hdrLen <= len <= |pkt| && segs != [] && AreSegments(segs, pkt, len, hdr)
    && DataAt(hdr, |segs| - 1) < len <= DataAt(hdr, |segs|)
    && forall i :: 0 <= i < |segs| ==> hdr.hdrLen <= |segs[i]|
  }

  /** The sequence number and the data offset of a segment. */
  lemma SegmentPart(pkt: seq<byte>, len: nat, hdr: VirtioNetHdr, i: nat)
    requires TcpV4Layout(hdr) && hdr.hdrLen <= |pkt| && DataAt(hdr, i) <= len <= |pkt|
    ensures var seg, tcp := Segment(pkt, len, hdr, i), hdr.csumStart as nat;
            && |seg| == hdr.hdrLen + (DataEnd(hdr, len, i) - DataAt(hdr, i))
            && DataOffset(seg, tcp) == DataOffset(pkt, tcp)
            && GetBE32(seg, tcp + 4) == (GetBE32(pkt, tcp + 4) + hdr.gsoSize * i) % 0x1_0000_0000
            && seg[hdr.hdrLen..] == pkt[DataAt(hdr, i)..DataEnd(hdr, len, i)]
            && forall k :: tcp + 20 <= k < hdr.hdrLen ==> seg[k] == pkt[k]
  {
    hide Segment, GetBE16, GetBE32, WithoutFinPsh, DataAt, DataEnd;
    SegmentFields(pkt, len, hdr, i);
  }

  /** What the receiver takes from segment `i`. */
  lemma SegmentTaken(pkt: seq<byte>, len: nat, hdr: VirtioNetHdr, i: nat, start: nat)
    requires TcpV4Layout(hdr) && hdr.hdrLen <= |pkt| && DataAt(hdr, i) <= len <= |pkt|
    requires start == hdr.csumStart + DataOffset(pkt, hdr.csumStart)
    ensures hdr.csumStart + 20 <= |Segment(pkt, len, hdr, i)|
    ensures var part, size := PartOf(Segment(pkt, len, hdr, i), hdr.csumStart), DataEnd(hdr, len, i) - DataAt(hdr, i);
            && part.sequence == (GetBE32(pkt, hdr.csumStart + 4) + hdr.gsoSize * i) % 0x1_0000_0000
            && |part.data| == (if start <= hdr.hdrLen + size then hdr.hdrLen + size - start else 0)
            && (start == hdr.hdrLen ==> part.data == pkt[DataAt(hdr, i)..DataEnd(hdr, len, i)])
  {
    hide Segment, DataAt, DataEnd, GetBE32, DataOffset;
    SegmentPart(pkt, len, hdr, i);
  }

  /** With the header ending where the data offset says, the parts are the payloads. */
  lemma {:induction false} PartsArePayloads(segs: seq<seq<byte>>, pkt: seq<byte>, len: nat, hdr: VirtioNetHdr)
    requires TcpV4Layout(hdr) && hdr.hdrLen <= len <= |pkt| && AreSegments(segs, pkt, len, hdr)
    requires forall i :: 0 <= i < |segs| ==> hdr.hdrLen <= |segs[i]|
    requires hdr.hdrLen == hdr.csumStart + DataOffset(pkt, hdr.csumStart)
    ensures Joined(PartsOf(segs, hdr.csumStart)) == Payloads(segs, hdr.hdrLen)
  {
    hide Segment, DataAt, DataEnd, GetBE32, PartOf, DataOffset;
    if segs != [] {
      var n := |segs| - 1;
      PartsArePayloads(segs[..n], pkt, len, hdr);
      SegmentTaken(pkt, len, hdr, n, hdr.hdrLen);
      SegmentPayload(pkt, len, hdr, n);
      assert PartsOf(segs, hdr.csumStart)[..n] == PartsOf(segs[..n], hdr.csumStart);
    }
  }

  lemma NextSequence(s: u32, size: nat, i: nat)
    ensures ((s + size * i) % 0x1_0000_0000 + size) % 0x1_0000_0000 == (s + size * (i + 1)) % 0x1_0000_0000
  {
    var t := s + size * i;
    assert s + size * (i + 1) == t + size;
    assert (t % 0x1_0000_0000 + size) % 0x1_0000_0000 == (t + size) % 0x1_0000_0000;
  }

  /** All segments but the last carry `gsoSize` bytes. */
  lemma FullSegment(hdr: VirtioNetHdr, len: nat, i: nat, n: nat)
    requires i + 1 < n && DataAt(hdr, n - 1) < len
    ensures DataEnd(hdr, len, i) - DataAt(hdr, i) == hdr.gsoSize && DataAt(hdr, i) <= len
  {
    DataAtStep(hdr, i + 1, n - 1);
    DataAtStep(hdr, i, n - 1);
  }

  lemma RightOffsetIsInSequence(segs: seq<seq<byte>>, pkt: seq<byte>, len: nat, hdr: VirtioNetHdr)
    requires SplitOf(segs, pkt, len, hdr) && hdr.hdrLen == hdr.csumStart + DataOffset(pkt, hdr.csumStart)
    ensures InSequence(PartsOf(segs, hdr.csumStart))
  {
    hide Segment, DataAt, DataEnd, GetBE32, PartOf, PartsOf, DataOffset;
    var parts := PartsOf(segs, hdr.csumStart);
    forall i | 0 < i < |parts| ensures Follows(parts[i - 1], parts[i]) {
      FullSegment(hdr, len, i - 1, |segs|);
      SegmentTaken(pkt, len, hdr, i - 1, hdr.hdrLen);
      SegmentTaken(pkt, len, hdr, i, hdr.hdrLen);
      NextSequence(GetBE32(pkt, hdr.csumStart + 4), hdr.gsoSize, i - 1);
    }
  }

  /** Header bytes counted as data, or data as header, put the second segment out of sequence. */
  lemma WrongOffsetIsOutOfSequence(segs: seq<seq<byte>>, pkt: seq<byte>, len: nat, hdr: VirtioNetHdr)
    requires SplitOf(segs, pkt, len, hdr) && |segs| > 1
    requires hdr.hdrLen != hdr.csumStart + DataOffset(pkt, hdr.csumStart)
    ensures !InSequence(PartsOf(segs, hdr.csumStart))
  {
    hide Segment, DataAt, DataEnd, GetBE32, PartOf, PartsOf, DataOffset, InSequence, Follows;
    var parts, start := PartsOf(segs, hdr.csumStart), hdr.csumStart + DataOffset(pkt, hdr.csumStart);
    FullSegment(hdr, len, 0, |segs|);
    SegmentTaken(pkt, len, hdr, 0, start);
    SegmentTaken(pkt, len, hdr, 1, start);
    SomePayload(hdr, len, |segs|);
    OutOfSequence(parts, GetBE32(pkt, hdr.csumStart + 4), hdr.gsoSize);
  }

  lemma OutOfSequence(parts: seq<Part>, s: u32, size: nat)
    requires |parts| > 1 && size < 0x4_0000 && |parts[0].data| < 0x4_0000 && size != |parts[0].data|
    requires parts[0].sequence == (s + size * 0) % 0x1_0000_0000
    requires parts[1].sequence == (s + size * 1) % 0x1_0000_0000
    ensures !InSequence(parts)
  {
    TwoSequences(s, size, |parts[0].data|);
    assert !Follows(parts[0], parts[1]);
  }

  lemma SomePayload(hdr: VirtioNetHdr, len: nat, n: nat)
    requires n > 0 && DataAt(hdr, n - 1) < len <= DataAt(hdr, n)
    ensures hdr.gsoSize > 0
  {
    DataAtStep(hdr, n - 1, n - 1);
  }

  lemma TwoSequences(s: u32, size: nat, other: nat)
    requires size < 0x4_0000 && other < 0x4_0000 && size != other
    ensures (s + size * 1) % 0x1_0000_0000 != ((s + size * 0) % 0x1_0000_0000 + other) % 0x1_0000_0000
  {
    assert (s + size * 0) % 0x1_0000_0000 == s;
  }

  /** A packet that fits in one segment comes through whatever the header length says. */
  lemma OneSegmentIsWhole(segs: seq<seq<byte>>, pkt: seq<byte>, len: nat, hdr: VirtioNetHdr)
    requires SplitOf(segs, pkt, len, hdr) && |segs| == 1 && DataOffset(pkt, hdr.csumStart) >= 20
    ensures Joined(PartsOf(segs, hdr.csumStart)) == PartOf(pkt[..len], hdr.csumStart).data
  {
    hide Segment, DataAt, DataEnd, GetBE32;
    var tcp, seg, whole := hdr.csumStart as nat, segs[0], pkt[..len];
    SegmentPart(pkt, len, hdr, 0);
    OnlyPayload(hdr, len);
    var parts := PartsOf(segs, tcp);
    assert parts[..0] == [] && Joined([]) == [];
    var at := tcp + DataOffset(pkt, tcp);
    assert |seg| == len;
    if at <= len {
      forall k | at <= k < len ensures seg[k] == whole[k] {
        if k >= hdr.hdrLen {
          assert seg[hdr.hdrLen..][k - hdr.hdrLen] == pkt[hdr.hdrLen..len][k - hdr.hdrLen];
        }
      }
      assert seg[at..] == whole[at..];
    }
  }

  lemma OnlyPayload(hdr: VirtioNetHdr, len: nat)
    requires DataAt(hdr, 0) < len <= DataAt(hdr, 1)
    ensures DataAt(hdr, 0) == hdr.hdrLen && DataEnd(hdr, len, 0) == len
  {
  }

  /** A TCP receiver puts together from the segments, by sequence number and data offset, what it
      would have taken from the packet, if and only if the header length agrees with the data
      offset or there is only one segment. */
  lemma StreamComesBackIff(segs: seq<seq<byte>>, pkt: seq<byte>, len: nat, hdr: VirtioNetHdr)
    requires SplitOf(segs, pkt, len, hdr) && DataOffset(pkt, hdr.csumStart) >= 20
    ensures SameStream(PartsOf(segs, hdr.csumStart), PartOf(pkt[..len], hdr.csumStart))
       <==> |segs| == 1 || hdr.hdrLen == hdr.csumStart + DataOffset(pkt, hdr.csumStart)
  {
    hide AreSegments, DataAt, DataOffset, PartOf, PartsOf, Joined, InSequence;
    FirstTaken(segs, pkt, len, hdr);
    WholeTaken(segs, pkt, len, hdr);
    if |segs| == 1 {
      OneSegmentIsWhole(segs, pkt, len, hdr);
      OneIsInSequence(PartsOf(segs, hdr.csumStart));
    } else if hdr.hdrLen == hdr.csumStart + DataOffset(pkt, hdr.csumStart) {
      RightOffsetIsInSequence(segs, pkt, len, hdr);
      RightOffsetJoins(segs, pkt, len, hdr);
    } else {
      WrongOffsetIsOutOfSequence(segs, pkt, len, hdr);
    }
  }

  lemma OneIsInSequence(parts: seq<Part>)
    requires |parts| == 1
    ensures InSequence(parts)
  {
  }

  lemma RightOffsetJoins(segs: seq<seq<byte>>, pkt: seq<byte>, len: nat, hdr: VirtioNetHdr)
    requires SplitOf(segs, pkt, len, hdr) && hdr.hdrLen == hdr.csumStart + DataOffset(pkt, hdr.csumStart)
    ensures Joined(PartsOf(segs, hdr.csumStart)) == pkt[hdr.hdrLen..len]
  {
    hide Segment, DataAt, DataEnd, Covered, Payloads, PartsOf, DataOffset, Joined, AreSegments;
    PartsArePayloads(segs, pkt, len, hdr);
    PayloadsJoin(segs, pkt, len, hdr);
    AllCovered(hdr, len, |segs|);
  }

  lemma WholeTaken(segs: seq<seq<byte>>, pkt: seq<byte>, len: nat, hdr: VirtioNetHdr)
    requires SplitOf(segs, pkt, len, hdr)
    ensures var whole := PartOf(pkt[..len], hdr.csumStart);
            && whole.sequence == (GetBE32(pkt, hdr.csumStart + 4) + hdr.gsoSize * 0) % 0x1_0000_0000
            && (hdr.hdrLen == hdr.csumStart + DataOffset(pkt, hdr.csumStart) ==> whole.data == pkt[hdr.hdrLen..len])
  {
    hide AreSegments, GetBE32, DataOffset, DataAt;
    FirstSequence(pkt, len, hdr.csumStart, hdr.gsoSize);
    assert pkt[..len][hdr.hdrLen..] == pkt[hdr.hdrLen..len];
  }

  lemma FirstTaken(segs: seq<seq<byte>>, pkt: seq<byte>, len: nat, hdr: VirtioNetHdr)
    requires SplitOf(segs, pkt, len, hdr)
    ensures PartsOf(segs, hdr.csumStart)[0].sequence
         == (GetBE32(pkt, hdr.csumStart + 4) + hdr.gsoSize * 0) % 0x1_0000_0000
  {
    hide Segment, DataAt, DataEnd, GetBE32, PartOf, PartsOf, DataOffset;
    SegmentTaken(pkt, len, hdr, 0, hdr.csumStart + DataOffset(pkt, hdr.csumStart));
  }

  lemma FirstSequence(pkt: seq<byte>, len: nat, tcp: nat, size: nat)
    requires tcp + 20 <= len <= |pkt|
    ensures (GetBE32(pkt, tcp + 4) + size * 0) % 0x1_0000_0000 == GetBE32(pkt[..len], tcp + 4)
    ensures DataOffset(pkt[..len], tcp) == DataOffset(pkt, tcp)
  {
  }
}
