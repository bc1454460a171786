/** gso.cpp: one TCP super-packet is cut into segments, each with its own IPv4 header and TCP
    header, and both checksums are computed anew. */
module Gso {
  import opened Arith
  import opened Bytes
  import opened Csum
  import opened Fields

  const GSO_TCPV4: byte := 0x01
  const IPPROTO_TCP: byte := 6
  const IP_LEN_AT: nat := 2
  const IP_ID_AT: nat := 4
  const IP_CSUM_AT: nat := 10
  const IP_SRC_AT: nat := 12
  const IP_DST_AT: nat := 16
  const TCP_SEQ_AT: nat := 4
  const TCP_FLAGS_AT: nat := 13

  datatype VirtioNetHdr = VirtioNetHdr(flags: byte, gsoType: byte, hdrLen: u16, gsoSize: u16,
                                       csumStart: u16, csumOffset: u16)

  /** Where the kernel puts the headers of a TCPv4 packet: an IPv4 header of 20 to 60 bytes,
      then a TCP header of at least 20 bytes with its checksum at offset 16. */
  predicate TcpV4Layout(hdr: VirtioNetHdr) {
    20 <= hdr.csumStart <= 60 && hdr.csumOffset == 16 && hdr.csumStart + 20 <= hdr.hdrLen
  }

  // ---------------------------------------------------------------- the segments, as values

  /** The packet with both checksum fields zeroed. */
  function Cleared(pkt: seq<byte>, hdr: VirtioNetHdr): (r: seq<byte>)
    requires TcpV4Layout(hdr) && hdr.hdrLen <= |pkt|
    ensures |r| == |pkt|
  {
    SetBE16(SetBE16(pkt, IP_CSUM_AT, 0), hdr.csumStart + hdr.csumOffset, 0)
  }

  function DataAt(hdr: VirtioNetHdr, i: nat): nat {
    hdr.hdrLen + i * hdr.gsoSize
  }

  function DataEnd(hdr: VirtioNetHdr, len: nat, i: nat): (end: nat)
    ensures DataAt(hdr, i) <= len ==> DataAt(hdr, i) <= end <= len
  {
    var end := DataAt(hdr, i) + hdr.gsoSize;
    if end > len then len else end
  }

  /** Every flag but FIN (bit 0) and PSH (bit 3). */
  function WithoutFinPsh(flags: byte): byte {
    flags - flags % 2 - 8 * (flags / 8 % 2)
  }

  function StampedIp(ip: seq<byte>, totalLen: nat, i: nat): (r: seq<byte>)
    requires |ip| >= 20
    ensures |r| == |ip|
  {
    SetBE16(SetBE16(ip, IP_ID_AT, (GetBE16(ip, IP_ID_AT) + i) % 0x1_0000), IP_LEN_AT, totalLen % 0x1_0000)
  }

  function IpHeader(ip: seq<byte>, totalLen: nat, i: nat): (r: seq<byte>)
    requires |ip| >= 20
    ensures |r| == |ip|
  {
    var h := StampedIp(ip, totalLen, i);
    SetBE16(h, IP_CSUM_AT, 0xFFFF - OnesSum(h, 0))
  }

  function TcpHeader(tcp: seq<byte>, gsoSize: nat, i: nat, last: bool): (r: seq<byte>)
    requires |tcp| >= 20
    ensures |r| == |tcp|
  {
    var h := SetBE32(tcp, TCP_SEQ_AT, (GetBE32(tcp, TCP_SEQ_AT) + gsoSize * i) % 0x1_0000_0000);
    if last then h else h[TCP_FLAGS_AT := WithoutFinPsh(h[TCP_FLAGS_AT])]
  }

  function TcpPart(header: seq<byte>, payload: seq<byte>, src: seq<byte>, dst: seq<byte>): (r: seq<byte>)
    requires |header| >= 20
    ensures |r| == |header| + |payload|
  {
    var t := header + payload;
    SetBE16(t, 16, 0xFFFF - OnesSum(PseudoHeader(src, dst, IPPROTO_TCP, |t| % 0x1_0000) + t, 0))
  }

  /** Headers of the cleared packet rewritten for the segment with this payload. */
  function Assemble(clean: seq<byte>, hdr: VirtioNetHdr, payload: seq<byte>, i: nat, last: bool): (seg: seq<byte>)
    requires TcpV4Layout(hdr) && hdr.hdrLen <= |clean|
    ensures |seg| == hdr.hdrLen + |payload|
  {
    IpHeader(clean[..hdr.csumStart], hdr.hdrLen + |payload|, i)
      + TcpPart(TcpHeader(clean[hdr.csumStart..hdr.hdrLen], hdr.gsoSize, i, last), payload,
                clean[IP_SRC_AT..IP_SRC_AT + 4], clean[IP_DST_AT..IP_DST_AT + 4])
  }

  function Payload(pkt: seq<byte>, len: nat, hdr: VirtioNetHdr, i: nat): seq<byte>
    requires DataAt(hdr, i) <= len <= |pkt|
  {
    pkt[DataAt(hdr, i)..DataEnd(hdr, len, i)]
  }

  /** Segment `i` of the first `len` bytes of `pkt`. */
  function Segment(pkt: seq<byte>, len: nat, hdr: VirtioNetHdr, i: nat): (seg: seq<byte>)
    requires TcpV4Layout(hdr) && hdr.hdrLen <= |pkt|
    requires DataAt(hdr, i) <= len <= |pkt|
  {
    Assemble(Cleared(pkt, hdr), hdr, Payload(pkt, len, hdr, i), i, DataEnd(hdr, len, i) == len)
  }

  // ---------------------------------------------------------------- writing into buffers

  method MemCpy(dst: array<byte>, dstAt: nat, src: array<byte>, srcAt: nat, n: nat)
    requires dst != src && dstAt + n <= dst.Length && srcAt + n <= src.Length
    modifies dst
    ensures dst[dstAt..dstAt + n] == src[srcAt..srcAt + n]
    ensures dst[..dstAt] == old(dst[..dstAt])
    ensures dst[dstAt + n..] == old(dst[dstAt + n..])
  {
    forall k | 0 <= k < n {
      dst[dstAt + k] := src[srcAt + k];
    }
  }

  /** `putBE16` at `p + lo + at`, seen inside the window `lo..hi` of the buffer. */
  method PutBE16(p: array<byte>, ghost lo: nat, ghost hi: nat, at: nat, v: u16)
    requires lo <= at && at + 2 <= hi <= p.Length
    modifies p
    ensures p[lo..hi] == SetBE16(old(p[lo..hi]), at - lo, v)
    ensures p[..lo] == old(p[..lo])
    ensures p[hi..] == old(p[hi..])
  {
    p[at] := v / 0x100;
    p[at + 1] := v % 0x100;
  }

  lemma Quarters(v: u32)
    ensures v / 0x1_0000 / 0x100 == v / 0x100_0000
    ensures v % 0x1_0000 / 0x100 == v / 0x100 % 0x100 && v % 0x1_0000 % 0x100 == v % 0x100
  {
  }

  method PutBE32(p: array<byte>, ghost lo: nat, ghost hi: nat, at: nat, v: u32)
    requires lo <= at && at + 4 <= hi <= p.Length
    modifies p
    ensures p[lo..hi] == SetBE32(old(p[lo..hi]), at - lo, v)
    ensures p[..lo] == old(p[..lo])
    ensures p[hi..] == old(p[hi..])
  {
    Quarters(v);
    p[at] := v / 0x100_0000;
    p[at + 1] := v / 0x1_0000 % 0x100;
    p[at + 2] := v / 0x100 % 0x100;
    p[at + 3] := v % 0x100;
  }

  // ---------------------------------------------------------------- one segment

  lemma PlainSum(s: seq<byte>)
    ensures Rfc1071(s, 0) == OnesSum(s, 0)
  {
    Rfc1071IsCanon(s, 0);
    OnesSumIsCanon(s, 0);
  }

  lemma PseudoSum(p: seq<byte>, t: seq<byte>, pseudo: u64)
    requires |p| % 2 == 0 && Canon(pseudo) == Canon(WordSum(p))
    ensures Rfc1071(t, pseudo) == OnesSum(p + t, 0)
  {
    hide Canon, WordSum, Rfc1071, OnesSum;
    assert Canon(0) == 0 by { CanonCong(0); }
    Rfc1071IsCanon(t, pseudo);
    OnesSumIsCanon(p + t, 0);
    WordSumAppend(p, t);
    CanonAdd(pseudo, WordSum(p), WordSum(t));
  }

  lemma SetSame(s: seq<byte>, at: nat)
    requires at + 2 <= |s|
    ensures SetBE16(s, at, GetBE16(s, at)) == s
  {
    SameExceptField(s, SetBE16(s, at, GetBE16(s, at)), at);
  }

  lemma AddInU16(a: nat, b: nat)
    ensures (a + b % 0x1_0000) % 0x1_0000 == (a + b) % 0x1_0000
  {
  }

  lemma GetIsWord(s: seq<byte>, at: nat)
    requires at + 2 <= |s|
    ensures GetBE16(s, at) == Word(s[at], s[at + 1])
  {
  }

  lemma SmallU16(v: u16)
    ensures (v + 0) % 0x1_0000 == v
  {
  }

  method StampIp(out: array<byte>, input: array<byte>, iphLen: nat, totalLen: nat, i: nat)
    requires out != input && 20 <= iphLen <= out.Length && iphLen <= input.Length
    modifies out
    ensures out[0..iphLen] == StampedIp(input[0..iphLen], totalLen, i)
  {
    hide SetBE16, GetBE16;
    ghost var ip := input[0..iphLen];
    MemCpy(out, 0, input, 0, iphLen);
    ghost var was := GetBE16(ip, IP_ID_AT);
    GetIsWord(ip, IP_ID_AT);
    AddInU16(was, i);
    SmallU16(was);
    SetSame(ip, IP_ID_AT);
    if i > 0 {
      var id := Word(out[4], out[5]);
      assert out[4] == ip[4] && out[5] == ip[5];
      PutBE16(out, 0, iphLen, IP_ID_AT, (id + i % 0x1_0000) % 0x1_0000);
    }
    assert out[0..iphLen] == SetBE16(ip, IP_ID_AT, (was + i) % 0x1_0000);
    PutBE16(out, 0, iphLen, IP_LEN_AT, totalLen % 0x1_0000);
  }

  /** The IPv4 header of segment `i`. */
  method PutIpHeader(out: array<byte>, input: array<byte>, iphLen: nat, totalLen: nat, i: nat)
    requires out != input && 20 <= iphLen <= 60 && iphLen <= out.Length && iphLen <= input.Length
    modifies out
    ensures out[0..iphLen] == IpHeader(input[0..iphLen], totalLen, i)
  {
    hide OnesSum, Rfc1071, SetBE16, StampedIp;
    StampIp(out, input, iphLen, totalLen, i);
    var sum := Checksum(out, 0, iphLen, 0);
    PlainSum(out[0..iphLen]);
    PutBE16(out, 0, iphLen, IP_CSUM_AT, 0xFFFF - sum);
  }

  /** The TCP header of segment `i`, behind the finished IPv4 header. */
  method PutTcpHeader(out: array<byte>, input: array<byte>, iphLen: nat, hdrTotal: nat,
                      firstTcpSeq: u32, gsoSize: u16, i: nat, last: bool)
    requires out != input && 20 <= iphLen && iphLen + 20 <= hdrTotal <= out.Length && hdrTotal <= input.Length
    requires firstTcpSeq == GetBE32(input[iphLen..hdrTotal], TCP_SEQ_AT)
    modifies out
    ensures out[0..iphLen] == old(out[0..iphLen])
    ensures out[iphLen..hdrTotal] == TcpHeader(input[iphLen..hdrTotal], gsoSize, i, last)
  {
    hide SetBE32, GetBE32, WithoutFinPsh;
    ghost var tcp := input[iphLen..hdrTotal];
    MemCpy(out, iphLen, input, iphLen, hdrTotal - iphLen);
    assert out[iphLen..hdrTotal] == tcp && out[..iphLen] == out[0..iphLen];
    var tcpSeq: u32 := (firstTcpSeq + gsoSize * (i % 0x1_0000_0000) % 0x1_0000_0000) % 0x1_0000_0000;
    WrapSeq(firstTcpSeq, gsoSize, i);
    PutBE32(out, iphLen, hdrTotal, iphLen + TCP_SEQ_AT, tcpSeq);
    ghost var h := out[iphLen..hdrTotal];
    if !last {
      // Only the last segment ends the stream or asks for delivery.
      out[iphLen + TCP_FLAGS_AT] := WithoutFinPsh(out[iphLen + TCP_FLAGS_AT]);
      assert out[iphLen..hdrTotal] == h[TCP_FLAGS_AT := WithoutFinPsh(h[TCP_FLAGS_AT])];
    }
    assert out[..iphLen] == out[0..iphLen];
  }

  lemma WrapSeq(seq0: nat, gsoSize: nat, i: nat)
    ensures (seq0 + gsoSize * (i % 0x1_0000_0000) % 0x1_0000_0000) % 0x1_0000_0000
         == (seq0 + gsoSize * i) % 0x1_0000_0000
  {
    var q, r := i / 0x1_0000_0000, i % 0x1_0000_0000;
    assert gsoSize * i == gsoSize * r + 0x1_0000_0000 * (gsoSize * q);
    Wrap32(seq0 + gsoSize * r, gsoSize * q);
    Wrap32(seq0 + gsoSize * r % 0x1_0000_0000, gsoSize * r / 0x1_0000_0000);
  }

  lemma Wrap32(a: nat, k: nat)
    ensures (a + 0x1_0000_0000 * k) % 0x1_0000_0000 == a % 0x1_0000_0000
  {
  }

  /** Payload and TCP checksum. */
  method PutPayload(out: array<byte>, input: array<byte>, iphLen: nat, hdrTotal: nat, from: nat, n: nat)
    requires out != input && 20 <= iphLen && iphLen + 20 <= hdrTotal && hdrTotal + n <= out.Length
    requires from + n <= input.Length && 20 <= input.Length && hdrTotal + n < 0x1_0000_0000_0000_0000
    modifies out
    ensures out[0..iphLen] == old(out[0..iphLen])
    ensures out[iphLen..hdrTotal + n] == TcpPart(old(out[iphLen..hdrTotal]), input[from..from + n],
                                                 input[IP_SRC_AT..IP_SRC_AT + 4], input[IP_DST_AT..IP_DST_AT + 4])
  {
    hide SetBE16, OnesSum, Rfc1071, Canon, WordSum;
    ghost var header, payload := out[iphLen..hdrTotal], input[from..from + n];
    ghost var before := out[0..iphLen];
    MemCpy(out, hdrTotal, input, from, n);
    assert out[0..iphLen] == before by {
      assert out[0..iphLen] == out[..hdrTotal][0..iphLen];
    }
    assert out[iphLen..hdrTotal + n] == header + payload by {
      assert out[..hdrTotal][iphLen..] == header;
    }
    var total := hdrTotal - iphLen + n;
    var pseudo := PseudoHeaderChecksumNoFold(IPPROTO_TCP, input, IP_SRC_AT, IP_DST_AT, 4, total % 0x1_0000);
    var sum := Checksum(out, iphLen, total, pseudo);
    assert iphLen + total == hdrTotal + n;
    PseudoSum(PseudoHeader(input[IP_SRC_AT..IP_SRC_AT + 4], input[IP_DST_AT..IP_DST_AT + 4], IPPROTO_TCP,
                           total % 0x1_0000), header + payload, pseudo);
    PutBE16(out, iphLen, hdrTotal + n, iphLen + 16, 0xFFFF - sum);
    assert out[..iphLen] == out[0..iphLen];
  }

  method PutSegment(out: array<byte>, input: array<byte>, hdr: VirtioNetHdr, firstTcpSeq: u32,
                    at: nat, end: nat, i: nat, last: bool)
    requires out != input && TcpV4Layout(hdr) && hdr.hdrLen <= input.Length
    requires at <= end <= input.Length && end - at <= hdr.gsoSize
    requires hdr.hdrLen + (end - at) <= out.Length
    requires firstTcpSeq == GetBE32(input[hdr.csumStart..hdr.hdrLen], TCP_SEQ_AT)
    modifies out
    ensures out[..hdr.hdrLen + (end - at)] == Assemble(input[..], hdr, input[at..end], i, last)
  {
    hide IpHeader, TcpHeader, TcpPart, GetBE32;
    ghost var clean := input[..];
    var totalLen := hdr.hdrLen + (end - at);
    PutIpHeader(out, input, hdr.csumStart, totalLen, i);
    PutTcpHeader(out, input, hdr.csumStart, hdr.hdrLen, firstTcpSeq, hdr.gsoSize, i, last);
    PutPayload(out, input, hdr.csumStart, hdr.hdrLen, at, end - at);
    assert at + (end - at) == end;
    assert input[0..hdr.csumStart] == clean[..hdr.csumStart];
    assert out[..totalLen] == out[0..hdr.csumStart] + out[hdr.csumStart..totalLen];
  }

  // ---------------------------------------------------------------- gsoSplit

  /** The least number of pieces of `size` that covers `n`. */
  function CeilDiv(n: nat, size: nat): nat
    requires size > 0
  {
    (n + size - 1) / size
  }

  lemma CeilDivIs(n: nat, size: nat, k: nat)
    requires size > 0 && n <= k * size
    requires k == 0 || (k - 1) * size < n
    ensures CeilDiv(n, size) == k
  {
    var c := CeilDiv(n, size);
    assert c * size <= n + size - 1 < (c + 1) * size;
    if c < k {
      MulLe(c, k - 1, size);
    } else if c > k {
      MulLe(k + 1, c, size);
    }
  }

  lemma DataAtStep(hdr: VirtioNetHdr, i: nat, j: nat)
    ensures DataAt(hdr, i + 1) == DataAt(hdr, i) + hdr.gsoSize
    ensures i <= j ==> DataAt(hdr, i) <= DataAt(hdr, j)
  {
    if i <= j {
      MulLe(i, j, hdr.gsoSize);
    }
  }

  /** The length of the longest segment, which is the first. */
  function Largest(hdr: VirtioNetHdr, len: nat): nat {
    if len <= hdr.hdrLen then 0
    else hdr.hdrLen + if hdr.gsoSize < len - hdr.hdrLen then hdr.gsoSize else len - hdr.hdrLen
  }

  function SegmentLength(hdr: VirtioNetHdr, len: nat, i: nat): int {
    hdr.hdrLen + DataEnd(hdr, len, i) - DataAt(hdr, i)
  }

  /** Buffers of `size` bytes hold every segment exactly when they hold the longest. */
  lemma BuffersHoldIff(hdr: VirtioNetHdr, len: nat, size: nat)
    requires len > hdr.hdrLen
    ensures (forall i: nat :: DataAt(hdr, i) < len ==> SegmentLength(hdr, len, i) <= size)
       <==> Largest(hdr, len) <= size
  {
    hide DataAt;
    DataAtZero(hdr);
    assert SegmentLength(hdr, len, 0) == Largest(hdr, len);
    forall i: nat | DataAt(hdr, i) < len ensures SegmentLength(hdr, len, i) <= Largest(hdr, len) {
      DataAtStep(hdr, 0, i);
    }
  }

  /** Segment `i` stands at the front of `buf`, and `size` is its length. */
  ghost predicate Holds(buf: array<byte>, size: nat, pkt: seq<byte>, len: nat, hdr: VirtioNetHdr, i: nat)
    requires TcpV4Layout(hdr) && hdr.hdrLen <= |pkt| && len <= |pkt|
    reads buf
  {
    DataAt(hdr, i) < len && size <= buf.Length && buf[..size] == Segment(pkt, len, hdr, i)
  }

  /** `gsoSplit`. The result is the number of segments, or -1 when the packet is not TCPv4 or
      needs more than `maxSegs` of them (a zero `gsoSize` never gets through a payload). */
  method GsoSplit(input: array<byte>, inLen: nat, hdr: VirtioNetHdr,
                  outBufs: seq<array<byte>>, outSizes: array<nat>, maxSegs: nat) returns (n: int)
    requires inLen <= input.Length < 0x1_0000_0000_0000
    requires hdr.gsoType == 1 ==> TcpV4Layout(hdr) && hdr.hdrLen <= input.Length
    requires maxSegs <= |outBufs| && maxSegs <= outSizes.Length
    requires forall i :: 0 <= i < |outBufs| ==> outBufs[i] != input && outBufs[i].Length >= Largest(hdr, inLen)
    requires forall i, j :: 0 <= i < j < |outBufs| ==> outBufs[i] != outBufs[j]
    modifies input, outSizes, outBufs
    ensures hdr.gsoType != 1 ==> n == -1 && unchanged(input) && unchanged(outSizes) && unchanged(outBufs)
    ensures hdr.gsoType == 1 ==> input[..] == Cleared(old(input[..]), hdr)
    ensures hdr.gsoType == 1 ==> (n == -1 <==> DataAt(hdr, maxSegs) < inLen)
    ensures n != -1 ==> 0 <= n <= maxSegs && inLen <= DataAt(hdr, n)
    ensures n != -1 && inLen <= hdr.hdrLen ==> n == 0
    ensures n != -1 && inLen > hdr.hdrLen ==> hdr.gsoSize > 0 && n == CeilDiv(inLen - hdr.hdrLen, hdr.gsoSize)
    ensures n != -1 ==> forall i :: 0 <= i < n ==> Holds(outBufs[i], outSizes[i], old(input[..]), inLen, hdr, i)
    ensures forall i :: 0 <= i < outSizes.Length ==>
              outSizes[i] == old(outSizes[i]) || (i < maxSegs && outSizes[i] <= outBufs[i].Length)
  {
    hide Assemble, GetBE32, DataAt, Cleared, CeilDiv, Holds;
    if hdr.gsoType != GSO_TCPV4 {
      return -1;
    }
    ghost var pkt := input[..];
    ClearChecksums(input, hdr);
    var firstTcpSeq := GetBE32(input[hdr.csumStart..hdr.hdrLen], TCP_SEQ_AT);
    var nextDataAt: nat := hdr.hdrLen;
    var i := 0;
    assert nextDataAt == DataAt(hdr, 0) by { DataAtZero(hdr); }
    while nextDataAt < inLen
      invariant i <= maxSegs && nextDataAt == DataAt(hdr, i)
      invariant i > 0 ==> DataAt(hdr, i - 1) < inLen
      invariant input[..] == Cleared(pkt, hdr)
      invariant forall j :: 0 <= j < i ==> Holds(outBufs[j], outSizes[j], pkt, inLen, hdr, j)
      invariant forall j :: 0 <= j < i ==> outSizes[j] <= outBufs[j].Length
      invariant forall j :: i <= j < outSizes.Length ==> outSizes[j] == old(outSizes[j])
      decreases maxSegs - i
    {
      if i == maxSegs {
        return -1;
      }
      var nextEnd := nextDataAt + hdr.gsoSize;
      if nextEnd > inLen {
        nextEnd := inLen;
      }
      DataAtZero(hdr);
      DataAtStep(hdr, 0, i);
      outSizes[i] := hdr.hdrLen + (nextEnd - nextDataAt);
      PutSegment(outBufs[i], input, hdr, firstTcpSeq, nextDataAt, nextEnd, i, nextEnd == inLen);
      SegmentHolds(outBufs[i], input, outSizes[i], pkt, inLen, hdr, i, nextDataAt, nextEnd);
      DataAtStep(hdr, i, i);
      nextDataAt := nextDataAt + hdr.gsoSize;
      i := i + 1;
    }
    n := i;
    SegmentCount(hdr, inLen, n, maxSegs);
  }

  lemma SegmentHolds(out: array<byte>, input: array<byte>, size: nat, pkt: seq<byte>, len: nat,
                     hdr: VirtioNetHdr, i: nat, at: nat, end: nat)
    requires TcpV4Layout(hdr) && hdr.hdrLen <= |pkt| && len <= |pkt|
    requires input[..] == Cleared(pkt, hdr)
    requires at == DataAt(hdr, i) < len && end == DataEnd(hdr, len, i)
    requires size == hdr.hdrLen + (end - at) <= out.Length
    requires out[..size] == Assemble(input[..], hdr, input[at..end], i, end == len)
    ensures Holds(out, size, pkt, len, hdr, i)
  {
    hide Assemble, Cleared;
    ClearedPayload(pkt, hdr, at, end);
    assert input[at..end] == input[..][at..end];
  }

  method ClearChecksums(input: array<byte>, hdr: VirtioNetHdr)
    requires TcpV4Layout(hdr) && hdr.hdrLen <= input.Length
    modifies input
    ensures input[..] == Cleared(old(input[..]), hdr)
  {
    hide SetBE16, GetBE16;
    assert input[0..input.Length] == input[..];
    PutBE16(input, 0, input.Length, IP_CSUM_AT, 0);
    PutBE16(input, 0, input.Length, hdr.csumStart + hdr.csumOffset, 0);
    assert input[..] == input[0..input.Length];
  }

  lemma SegmentCount(hdr: VirtioNetHdr, len: nat, n: nat, maxSegs: nat)
    requires n <= maxSegs && len <= DataAt(hdr, n) && (n > 0 ==> DataAt(hdr, n - 1) < len)
    ensures len <= DataAt(hdr, maxSegs)
    ensures len <= hdr.hdrLen ==> n == 0
    ensures len > hdr.hdrLen ==> hdr.gsoSize > 0 && n == CeilDiv(len - hdr.hdrLen, hdr.gsoSize)
  {
    MulLe(n, maxSegs, hdr.gsoSize);
    if len <= hdr.hdrLen {
      if n > 0 {
        MulLe(0, n - 1, hdr.gsoSize);
      }
    } else {
      CeilDivIs(len - hdr.hdrLen, hdr.gsoSize, n);
    }
  }

  lemma DataAtZero(hdr: VirtioNetHdr)
    ensures DataAt(hdr, 0) == hdr.hdrLen
  {
  }

  lemma ClearedPayload(pkt: seq<byte>, hdr: VirtioNetHdr, at: nat, end: nat)
    requires TcpV4Layout(hdr) && hdr.hdrLen <= at <= end <= |pkt|
    ensures Cleared(pkt, hdr)[at..end] == pkt[at..end]
  {
    hide SetBE16, GetBE16;
    var once := SetBE16(pkt, IP_CSUM_AT, 0);
    assert once[at..end] == pkt[at..end];
    assert SetBE16(once, hdr.csumStart + hdr.csumOffset, 0)[at..end] == once[at..end];
  }

  // ---------------------------------------------------------------- gsoNoneChecksum

  /** `gsoNoneChecksum`: the kernel has parked the pseudo-header sum in the checksum field. The
      region from `csumStart` then sums to 0xFFFF together with that parked sum, always for an
      even `csumOffset` and for an odd one exactly when 257 divides the sum found. */
  method GsoNoneChecksum(pkt: array<byte>, pktLen: nat, csumStart: u16, csumOffset: u16)
    requires csumStart + csumOffset + 2 <= pktLen <= pkt.Length && pktLen < 0x1_0000_0000_0000_0000
    modifies pkt
    ensures var at := csumStart + csumOffset;
            var parked := GetBE16(old(pkt[..]), at);
            var zeroed := SetBE16(old(pkt[csumStart..pktLen]), csumOffset, 0);
            && pkt[..at] == old(pkt[..at]) && pkt[at + 2..] == old(pkt[at + 2..])
            && (Rfc1071(pkt[csumStart..pktLen], parked) == 0xFFFF
                <==> (csumOffset % 2 == 0 || Rfc1071(zeroed, parked) % 257 == 0))
  {
    hide Rfc1071, SetBE16, GetBE16;
    ghost var region := pkt[csumStart..pktLen];
    var at := csumStart + csumOffset;
    var initial: u64 := GetBE16(pkt[..], at);
    PutBE16(pkt, csumStart, pktLen, at, 0);
    ghost var zeroed := SetBE16(region, csumOffset, 0);
    assert pkt[csumStart..pktLen] == zeroed;
    var len := pktLen - csumStart;
    assert csumStart + len == pktLen;
    var csum := Checksum(pkt, csumStart, len, initial);
    ZeroField(region, csumOffset);
    StoredComplementValidates(zeroed, csumOffset, initial);
    PutBE16(pkt, csumStart, pktLen, at, 0xFFFF - csum);
    Untouched(old(pkt[..]), pkt[..], csumStart, pktLen, csumOffset, zeroed, 0xFFFF - csum);
  }

  lemma ZeroField(s: seq<byte>, at: nat)
    requires at + 2 <= |s|
    ensures SetBE16(s, at, 0)[at] == SetBE16(s, at, 0)[at + 1] == 0
  {
  }

  /** Writing the field twice inside a window leaves everything else as it was. */
  lemma Untouched(was: seq<byte>, now: seq<byte>, lo: nat, hi: nat, at: nat, zeroed: seq<byte>, v: u16)
    requires |was| == |now| && lo + at + 2 <= hi <= |was|
    requires zeroed == SetBE16(was[lo..hi], at, 0) && now[lo..hi] == SetBE16(zeroed, at, v)
    requires now[..lo] == was[..lo] && now[hi..] == was[hi..]
    ensures now[..lo + at] == was[..lo + at] && now[lo + at + 2..] == was[lo + at + 2..]
  {
    hide SetBE16, GetBE16;
    forall k | 0 <= k < |was| && k != lo + at && k != lo + at + 1
      ensures now[k] == was[k]
    {
      if k < lo {
        assert now[..lo][k] == was[..lo][k];
      } else if k >= hi {
        assert now[hi..][k - hi] == was[hi..][k - hi];
      } else {
        assert now[lo..hi][k - lo] == zeroed[k - lo] == was[lo..hi][k - lo];
      }
    }
  }
}
