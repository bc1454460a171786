/** Big-endian header fields inside byte strings and byte arrays (gso.cpp:17-35), and what
    writing one does to the checksum of the bytes around it. */
module Fields {
  import opened Bytes
  import opened Congruence
  import opened Csum

  function GetBE16(s: seq<byte>, at: nat): u16
    requires at + 2 <= |s|
  {
    Word(s[at], s[at + 1])
  }

  function SetBE16(s: seq<byte>, at: nat, v: u16): (r: seq<byte>)
    requires at + 2 <= |s|
    ensures |r| == |s| && GetBE16(r, at) == v
    ensures forall k :: 0 <= k < |s| && k != at && k != at + 1 ==> r[k] == s[k]
  {
    s[at := v / 0x100][at + 1 := v % 0x100]
  }

  function GetBE32(s: seq<byte>, at: nat): u32
    requires at + 4 <= |s|
  {
    0x1_0000 * GetBE16(s, at) as int + GetBE16(s, at + 2) as int
  }

  function SetBE32(s: seq<byte>, at: nat, v: u32): (r: seq<byte>)
    requires at + 4 <= |s|
    ensures |r| == |s| && GetBE32(r, at) == v
    ensures forall k :: 0 <= k < |s| && !(at <= k < at + 4) ==> r[k] == s[k]
  {
    SetBE16(SetBE16(s, at, v / 0x1_0000), at + 2, v % 0x1_0000)
  }

  /** Two strings that differ only inside a field, with the same field value, are equal. */
  lemma SameExceptField(a: seq<byte>, b: seq<byte>, at: nat)
    requires |a| == |b| && at + 2 <= |a|
    requires forall k :: 0 <= k < |a| && k != at && k != at + 1 ==> a[k] == b[k]
    requires GetBE16(a, at) == GetBE16(b, at)
    ensures a == b
  {
    assert a[at] == b[at] && a[at + 1] == b[at + 1];
  }

  // ---------------------------------------------------------------- fields and checksums

  /** Changing one byte moves the word sum by the byte's column weight. */
  lemma {:induction false} WordSumUpdate(s: seq<byte>, k: nat, b: byte)
    requires k < |s|
    ensures WordSum(s[k := b]) - WordSum(s) == (if k % 2 == 0 then 0x100 else 1) * (b as int - s[k] as int)
    decreases |s|
  {
    var t := s[k := b];
    if |s| > 1 {
      if k >= 2 {
        assert t[2..] == s[2..][k - 2 := b];
        WordSumUpdate(s[2..], k - 2, b);
      } else {
        assert t[2..] == s[2..];
      }
    }
  }

  /** The field value read with its bytes exchanged. */
  function Swap16(v: u16): u16 {
    Word(v % 0x100, v / 0x100)
  }

  lemma WordSumSetField(s: seq<byte>, at: nat, v: u16)
    requires at + 2 <= |s| && s[at] == s[at + 1] == 0
    ensures WordSum(SetBE16(s, at, v)) == WordSum(s) + (if at % 2 == 0 then v else Swap16(v))
  {
    hide WordSum;
    var t := s[at := v / 0x100];
    WordSumUpdate(s, at, v / 0x100);
    WordSumUpdate(t, at + 1, v % 0x100);
    assert at % 2 == 0 <==> (at + 1) % 2 == 1;
    assert v as int == 0x100 * (v / 0x100) as int + (v % 0x100) as int;
  }

  lemma SwapIs256(v: u16)
    ensures Swap16(v) as int == 0x100 * (v as int) - 0xFFFF * (v as int / 0x100)
    ensures Swap16(v) == 0 <==> v == 0
  {
  }

  /** Storing the complement of the checksum makes the whole sum 0xFFFF, whatever was summed
      before, if the field sits at an even offset ... */
  lemma ComplementSums(n: nat)
    ensures Canon(n + (0xFFFF - Canon(n))) == 0xFFFF
  {
    CanonCong(n);
    var k := Quotient(n, Canon(n));
    CongBy(n + (0xFFFF - Canon(n)), 0xFFFF, k);
    CanonUnique(n + (0xFFFF - Canon(n)), 0xFFFF);
  }

  /** ... and at an odd offset exactly when 257 divides the checksum. */
  lemma ComplementSumsSwapped(n: nat)
    ensures Canon(n + Swap16(0xFFFF - Canon(n))) == 0xFFFF <==> Canon(n) % 257 == 0
  {
    var c: int, v: int := Canon(n), 0xFFFF - Canon(n);
    CanonCong(n);
    SwapIs256(v);
    var t := n + Swap16(v);
    var k := Quotient(n, c);
    OddField(c, t, k + 0x100 - v / 0x100);
  }

  lemma OddField(c: nat, t: nat, k: int)
    requires t == 0xFFFF * k - 0xFF * c && t > 0
    ensures Canon(t) == 0xFFFF <==> c % 257 == 0
  {
    if Canon(t) == 0xFFFF {
      CanonCong(t);
      var j := Quotient(t, 0xFFFF);
      assert c == 257 * (k - j - 1);
    }
    if c % 257 == 0 {
      CongBy(t, 0xFFFF, k - c / 257 - 1);
      CanonUnique(t, 0xFFFF);
    }
  }

  /** The complement of the checksum of `t` (on top of the partial sum `x`), stored in a zeroed
      field of `t`, makes `t` validate at every even offset; at an odd offset it does so exactly
      when 257 divides the checksum. */
  lemma StoredComplementValidates(t: seq<byte>, at: nat, x: u64)
    requires at + 2 <= |t| && t[at] == t[at + 1] == 0
    ensures Rfc1071(SetBE16(t, at, 0xFFFF - Rfc1071(t, x)), x) == 0xFFFF <==> (at % 2 == 0 || Rfc1071(t, x) % 257 == 0)
  {
    hide Rfc1071, WordSum, SetBE16, Canon, Swap16;
    var v := 0xFFFF - Rfc1071(t, x);
    Rfc1071IsCanon(t, x);
    Rfc1071IsCanon(SetBE16(t, at, v), x);
    WordSumSetField(t, at, v);
    ComplementSums(x + WordSum(t));
    ComplementSumsSwapped(x + WordSum(t));
  }
}
