/** plane.cpp, `tunReader`: a TCP super-packet on its way from the TUN to the paths. */
module TunReader {
  import opened Arith
  import opened Bytes
  import opened Conn
  import opened Gso
  import opened GsoProof
  import opened Plane
  import opened PlaneProof

  ghost function SegmentsOf(pkt: seq<byte>, len: nat, hdr: VirtioNetHdr, n: nat): (segs: seq<seq<byte>>)
    requires TcpV4Layout(hdr) && hdr.hdrLen <= |pkt| && len <= |pkt|
    requires forall i :: 0 <= i < n ==> DataAt(hdr, i) <= len
  {
    seq(n, i requires 0 <= i < n => Segment(pkt, len, hdr, i))
  }

  /** Nothing bounds the MTU of the TUN device (config.cpp:66-67), and with one of 9000 the kernel
      hands over packets for which the buffers are too small. */
  lemma JumboSegmentsDoNotFit()
    ensures var hdr := VirtioNetHdr(0, 1, 40, 8960, 20, 16);
            TcpV4Layout(hdr) && Largest(hdr, 40 + 2 * 8960) == 9000 > 2048
  {
  }

  /** The branch for TCPv4: the packet is split into the scratch buffers and these are sent. What
      the kernel cuts from the messages are the segments of the packet as it was read. */
  method ForwardTcp(sc: TunReaderScratch, conn: Conn, input: array<byte>, inLen: nat, hdr: VirtioNetHdr, now: u64)
    returns (segs: int, sent: seq<Message>)
    requires sc.Valid() && conn.slots != [] && inLen <= input.Length < 0x1_0000_0000_0000
    requires hdr.gsoType == 1 && TcpV4Layout(hdr) && hdr.hdrLen <= input.Length
    requires Largest(hdr, inLen) <= 2048
    requires forall i :: 0 <= i < |sc.segBufs| ==> sc.segBufs[i] != input && sc.segBufs[i].Length == 2048
    requires forall i, j :: 0 <= i < j < |sc.segBufs| ==> sc.segBufs[i] != sc.segBufs[j]
    modifies input, sc.segSizes, sc.segBufs, sc.iovs, conn`rr
    ensures segs == -1 <==> DataAt(hdr, |sc.segBufs|) < inLen
    ensures segs == -1 ==> sent == [] && conn.rr == old(conn.rr)
    ensures segs != -1 ==> |sent| <= 8 && forall i :: 0 <= i < segs ==> DataAt(hdr, i) <= inLen
    ensures segs > 0 ==> CutAll(sent) == SegmentsOf(old(input[..]), inLen, hdr, segs)
    ensures segs > 0 ==> forall k :: 0 <= k < |sent| ==>
              IsPart(SegmentsOf(old(input[..]), inLen, hdr, segs), (segs + 7) / 8, k, sent[k].bytes)
    ensures |sc.segBufs| <= 64 ==> forall m :: m in sent ==> |m.bytes| <= 16384 < 65515
  {
    hide Segment, DataAt, Uniform, CutAll, After, SegmentsOf, IsPart, TakesSlot;
    segs := Split(sc, input, inLen, hdr);
    sent := [];
    if segs < 0 {
      return;
    }
    if segs > 0 {
      SegmentsFit(sc.Segs(segs), old(input[..]), inLen, hdr, segs);
    }
    sent := sc.SendUso(conn, segs, now);
    if |sc.segBufs| <= 64 {
      forall k | 0 <= k < |sent| ensures |sent[k].bytes| <= 16384 {
        PartFits(sc.Segs(segs), (segs + 7) / 8, k, sent[k].bytes, 2048);
        MulLe((segs + 7) / 8, 8, 2048);
      }
    }
  }

  /** `gsoSplit` into the scratch buffers. */
  method Split(sc: TunReaderScratch, input: array<byte>, inLen: nat, hdr: VirtioNetHdr) returns (segs: int)
    requires sc.Valid() && inLen <= input.Length < 0x1_0000_0000_0000
    requires hdr.gsoType == 1 && TcpV4Layout(hdr) && hdr.hdrLen <= input.Length
    requires forall i :: 0 <= i < |sc.segBufs| ==> sc.segBufs[i] != input && sc.segBufs[i].Length >= Largest(hdr, inLen)
    requires forall i, j :: 0 <= i < j < |sc.segBufs| ==> sc.segBufs[i] != sc.segBufs[j]
    modifies input, sc.segSizes, sc.segBufs
    ensures sc.Valid() && -1 <= segs <= |sc.segBufs|
    ensures segs == -1 <==> DataAt(hdr, |sc.segBufs|) < inLen
    ensures segs != -1 ==> forall i :: 0 <= i < segs ==> DataAt(hdr, i) < inLen
    ensures segs != -1 ==> sc.Segs(segs) == SegmentsOf(old(input[..]), inLen, hdr, segs)
    ensures segs > 0 ==> hdr.gsoSize > 0
  {
    hide Segment, DataAt, Cleared;
    segs := GsoSplit(input, inLen, hdr, sc.segBufs, sc.segSizes, |sc.segBufs|);
    DataAtZero(hdr);
    if segs >= 0 {
      forall i | 0 <= i < segs ensures DataAt(hdr, i) < inLen {
        assert Holds(sc.segBufs[i], sc.segSizes[i], old(input[..]), inLen, hdr, i);
      }
    }
  }

  /** The segments can be told apart again by the size of the first. */
  lemma SegmentsFit(segs: seq<seq<byte>>, pkt: seq<byte>, len: nat, hdr: VirtioNetHdr, n: nat)
    requires TcpV4Layout(hdr) && hdr.hdrLen <= |pkt| && len <= |pkt| && Largest(hdr, len) < 0x1_0000
    requires hdr.gsoSize > 0
    requires n > 0 && (forall i :: 0 <= i < n ==> DataAt(hdr, i) < len) && segs == SegmentsOf(pkt, len, hdr, n)
    ensures |segs| == n && |segs[0]| < 0x1_0000 && Uniform(segs, |segs[0]|)
  {
    hide Segment, DataAt, Uniform;
    FirstSize(pkt, len, hdr);
    SegmentsAreUniform(segs, pkt, len, hdr);
  }

  lemma FirstSize(pkt: seq<byte>, len: nat, hdr: VirtioNetHdr)
    requires TcpV4Layout(hdr) && hdr.hdrLen <= |pkt| && DataAt(hdr, 0) < len <= |pkt|
    ensures |Segment(pkt, len, hdr, 0)| == Largest(hdr, len)
  {
    hide Assemble, Cleared;
  }
}
