/** csum.cpp: the Internet checksum, computed natively 8 bytes at a time into a 128-bit
    accumulator, and proved equal to the 16-bit end-around-carry sum of RFC 1071. */
module Csum {
  import opened Bytes
  import opened Congruence

  // ---------------------------------------------------------------- reference definition

  /** One's-complement addition of two 16-bit words: the carry comes back in at the bottom. */
  function OnesAdd(a: u16, b: u16): u16 {
    if a + b < 0x1_0000 then a + b else a + b - 0x1_0000 + 1
  }

  /** Section 1 of RFC 1071: adjacent bytes pair up into 16-bit big-endian words, an odd
      last byte is padded with a zero byte, and the words are added with end-around carry. */
  function OnesSum(s: seq<byte>, acc: u16): u16
    decreases |s|
  {
    if |s| == 0 then acc
    else if |s| == 1 then OnesAdd(acc, Word(s[0], 0))
    else OnesSum(s[2..], OnesAdd(acc, Word(s[0], s[1])))
  }

  /** The checksum of `s` with the 64-bit partial sum `initial` put in front of it as its
      eight big-endian bytes. */
  function Rfc1071(s: seq<byte>, initial: u64): u16 {
    OnesSum(ToBigEndian(initial, 8) + s, 0)
  }

  /** The numerical example of section 3 of RFC 1071, and an odd last byte. */
  lemma SumOfExample()
    ensures OnesSum([0x00, 0x01, 0xF2, 0x03, 0xF4, 0xF5, 0xF6, 0xF7], 0) == 0xDDF2
    ensures OnesSum([0x00, 0x01, 0xAB], 0) == 0xAB01 && OnesSum([], 0) == 0
  {
    var s := [0x00, 0x01, 0xF2, 0x03, 0xF4, 0xF5, 0xF6, 0xF7];
    assert s[2..] == [0xF2, 0x03, 0xF4, 0xF5, 0xF6, 0xF7];
    assert s[2..][2..] == [0xF4, 0xF5, 0xF6, 0xF7] && s[2..][2..][2..] == [0xF6, 0xF7];
    assert s[2..][2..][2..][2..] == [] && [0x00, 0x01, 0xAB][2..] == [0xAB];
  }

  // ---------------------------------------------------------------- closed form

  /** The plain integer sum of the big-endian words of `s`. */
  function WordSum(s: seq<byte>): nat
    decreases |s|
  {
    if |s| == 0 then 0
    else if |s| == 1 then Word(s[0], 0)
    else Word(s[0], s[1]) + WordSum(s[2..])
  }

  /** What end-around carry makes of an integer sum: 0 only for 0, otherwise the
      representative in 1..65535 of its class modulo 65535. */
  function Canon(n: nat): u16 {
    if n == 0 then 0 else 1 + (n - 1) % 0xFFFF
  }

  lemma CanonCong(n: nat)
    ensures Cong(n, Canon(n))
    ensures Canon(n) == 0 <==> n == 0
  {
    if n == 0 {
      CongBy(0, 0, 0);
    } else {
      CongBy(n, Canon(n), (n - 1) / 0xFFFF);
    }
  }

  /** `Canon` is determined by the class and by being zero or not. */
  lemma CanonUnique(n: nat, c: u16)
    requires Cong(n, c) && (c == 0 <==> n == 0)
    ensures Canon(n) == c
  {
    CanonCong(n);
    CongSym(n, c);
    CongTrans(c, n, Canon(n));
    SmallCong(c, Canon(n));
  }

  lemma CanonEqual(a: nat, b: nat)
    requires Cong(a, b) && (a == 0 <==> b == 0)
    ensures Canon(a) == Canon(b)
  {
    CanonCong(b);
    CongTrans(a, b, Canon(b));
    CanonUnique(a, Canon(b));
  }

  lemma CanonEqualMeans(a: nat, b: nat)
    requires Canon(a) == Canon(b)
    ensures Cong(a, b) && (a == 0 <==> b == 0)
  {
    CanonCong(a);
    CanonCong(b);
    CongSym(b, Canon(b));
    CongTrans(a, Canon(a), b);
  }

  lemma CanonAdd(a: nat, b: nat, c: nat)
    requires Canon(a) == Canon(b)
    ensures Canon(a + c) == Canon(b + c)
  {
    CanonEqualMeans(a, b);
    CongBy(c, c, 0);
    CongAdd(a, b, c, c);
    CanonEqual(a + c, b + c);
  }

  lemma OnesAddCanon(a: nat, b: u16)
    ensures OnesAdd(Canon(a), b) == Canon(a + b)
  {
    var r := OnesAdd(Canon(a), b);
    CanonCong(a);
    CongBy(b, b, 0);
    CongAdd(a, Canon(a), b, b);
    CongBy(Canon(a) + b, r, if Canon(a) + b < 0x1_0000 then 0 else 1);
    CongTrans(a + b, Canon(a) + b, r);
    CanonUnique(a + b, r);
  }

  /** The end-around-carry sum is the canonical form of the integer sum. */
  lemma {:induction false} OnesSumIsCanon(s: seq<byte>, n: nat)
    ensures OnesSum(s, Canon(n)) == Canon(n + WordSum(s))
    decreases |s|
  {
    if |s| == 1 {
      OnesAddCanon(n, Word(s[0], 0));
    } else if |s| > 1 {
      OnesAddCanon(n, Word(s[0], s[1]));
      OnesSumIsCanon(s[2..], n + Word(s[0], s[1]));
    }
  }

  lemma PrefixSum(p: seq<byte>, s: seq<byte>, v: nat)
    requires |p| % 2 == 0 && BigEndian(p) == v
    ensures OnesSum(p + s, 0) == Canon(v + WordSum(s))
  {
    hide OnesSum, WordSum, BigEndian, Cong, AllZero;
    OnesSumIsCanon(p + s, 0);
    WordSumAppend(p, s);
    BigEndianIsWordSum(p);
    BigEndianZero(p);
    WordSumZero(p);
    CanonEqual(v, WordSum(p));
    CanonAdd(WordSum(p), v, WordSum(s));
  }

  /** The RFC's sum in closed form. */
  lemma Rfc1071IsCanon(s: seq<byte>, initial: u64)
    ensures Rfc1071(s, initial) == Canon(initial + WordSum(s))
  {
    Pow256Values();
    BigEndianRoundTrip(initial, 8);
    PrefixSum(ToBigEndian(initial, 8), s, initial);
  }

  // ---------------------------------------------------------------- splitting word sums

  lemma {:induction false} WordSumAppend(a: seq<byte>, b: seq<byte>)
    requires |a| % 2 == 0
    ensures WordSum(a + b) == WordSum(a) + WordSum(b)
    decreases |a|
  {
    if a == [] {
      assert a + b == b;
    } else {
      assert (a + b)[2..] == a[2..] + b;
      WordSumAppend(a[2..], b);
    }
  }

  lemma {:induction false} WordSumShift(x: byte, b: seq<byte>)
    ensures Cong(WordSum([x] + b), Word(x, 0) + 0x100 * WordSum(b))
    decreases |b|
  {
    var t := [x] + b;
    if |b| == 0 {
      CongBy(WordSum(t), Word(x, 0), 0);
    } else if |b| == 1 {
      assert t[2..] == [];
      assert WordSum(t) == Word(x, b[0]) && WordSum(b) == Word(b[0], 0);
      CongBy(WordSum(t), Word(x, 0) + 0x100 * WordSum(b), -(b[0] as int));
    } else {
      var rest := WordSum(b[2..]);
      assert t[2..] == [b[1]] + b[2..];
      WordSumShift(b[1], b[2..]);
      var k := Quotient(WordSum(t[2..]), Word(b[1], 0) + 0x100 * rest);
      CongBy(WordSum(t), Word(x, 0) + 0x100 * WordSum(b), k - b[0] as int);
    }
  }

  /** Behind an odd number of bytes every later byte changes column, which multiplies the
      rest of the sum by 256. */
  lemma WordSumOddAppend(a: seq<byte>, b: seq<byte>)
    requires |a| % 2 == 1
    ensures Cong(WordSum(a + b), WordSum(a) + 0x100 * WordSum(b))
  {
    hide WordSum, Word, Cong;
    var p, x := a[..|a| - 1], a[|a| - 1];
    assert p + [x] == a && p + ([x] + b) == a + b;
    OddTail(p, x, b);
    WordSumShift(x, b);
    OddSplit(WordSum(a), WordSum(a + b), WordSum(p), WordSum([x] + b), Word(x, 0), WordSum(b));
  }

  lemma OddTail(p: seq<byte>, x: byte, b: seq<byte>)
    requires |p| % 2 == 0
    ensures WordSum(p + [x]) == WordSum(p) + Word(x, 0)
    ensures WordSum(p + ([x] + b)) == WordSum(p) + WordSum([x] + b)
  {
    WordSumAppend(p, [x]);
    WordSumAppend(p, [x] + b);
  }

  lemma OddSplit(a: nat, ab: nat, p: nat, t: nat, x: nat, w: nat)
    requires a == p + x && ab == p + t && Cong(t, x + 0x100 * w)
    ensures Cong(ab, a + 0x100 * w)
  {
    var k := Quotient(t, x + 0x100 * w);
    CongBy(ab, a + 0x100 * w, k);
  }

  lemma {:induction false} WordSumZero(s: seq<byte>)
    ensures WordSum(s) == 0 <==> AllZero(s)
    decreases |s|
  {
    if |s| > 1 {
      WordSumZero(s[2..]);
      assert forall k :: 2 <= k < |s| ==> s[k] == s[2..][k - 2];
      if AllZero(s) {
        assert AllZero(s[2..]);
      }
    }
  }

  // ---------------------------------------------------------------- the native computation

  function NextLoad(len: nat): (n: nat)
    ensures n <= len && (n == 0 <==> len == 0) && n <= 8
    ensures n % 2 == 1 ==> n == len == 1
  {
    if len >= 8 then 8 else if len >= 4 then 4 else if len >= 2 then 2 else len
  }

  /** The accumulator's integer value: eight-byte loads, then one load of 4, 2 and 1. */
  function NativeSum(s: seq<byte>): nat
    decreases |s|
  {
    var n := NextLoad(|s|);
    if n == 0 then 0 else LittleEndian(s[..n]) + NativeSum(s[n..])
  }

  /** Native loads see every word with its bytes swapped, which is 256 times its value. */
  lemma {:induction false} LittleEndianIsSwapped(s: seq<byte>)
    ensures Cong(LittleEndian(s), 0x100 * WordSum(s))
    decreases |s|
  {
    if |s| == 0 {
      CongBy(0, 0, 0);
    } else if |s| == 1 {
      assert LittleEndian(s[1..]) == 0;
      CongBy(LittleEndian(s), 0x100 * WordSum(s), -(s[0] as int));
    } else {
      var rest := s[2..];
      assert s[1..][1..] == rest;
      LittleEndianIsSwapped(rest);
      var k := Quotient(LittleEndian(rest), 0x100 * WordSum(rest));
      CongBy(LittleEndian(s), 0x100 * WordSum(s), k + LittleEndian(rest) - s[0] as int);
    }
  }

  lemma LoadBelow(s: seq<byte>)
    requires |s| <= 8
    ensures LittleEndian(s) < 0x1_0000_0000_0000_0000
  {
    LittleEndianBelow(s);
    Pow256Values();
    Pow256Grows(|s|, 8);
  }

  lemma NativeSumStep(s: seq<byte>)
    requires s != []
    ensures var n := NextLoad(|s|);
            WordSum(s) == WordSum(s[..n]) + WordSum(s[n..])
  {
    var n := NextLoad(|s|);
    var a, b := s[..n], s[n..];
    assert a + b == s;
    if n % 2 == 1 {
      assert a == s && b == [];
    } else {
      WordSumAppend(a, b);
    }
  }

  lemma {:induction false} NativeSumIsSwapped(s: seq<byte>)
    ensures Cong(NativeSum(s), 0x100 * WordSum(s))
    decreases |s|
  {
    if s == [] {
      CongBy(0, 0, 0);
    } else {
      var n := NextLoad(|s|);
      var a, b := s[..n], s[n..];
      NativeSumStep(s);
      NativeSumIsSwapped(b);
      LittleEndianIsSwapped(a);
      CongAdd(LittleEndian(a), 0x100 * WordSum(a), NativeSum(b), 0x100 * WordSum(b));
    }
  }

  lemma {:induction false} NativeSumZero(s: seq<byte>)
    ensures NativeSum(s) == 0 <==> WordSum(s) == 0
    decreases |s|
  {
    if s != [] {
      var n := NextLoad(|s|);
      NativeSumStep(s);
      NativeSumZero(s[n..]);
      LittleEndianZero(s[..n]);
      WordSumZero(s[..n]);
    }
  }

  lemma {:induction false} NativeSumBound(s: seq<byte>)
    ensures NativeSum(s) <= |s| * (0x1_0000_0000_0000_0000 - 1)
    decreases |s|
  {
    if s != [] {
      var n := NextLoad(|s|);
      NativeSumBound(s[n..]);
      LoadBelow(s[..n]);
    }
  }

  lemma {:induction false} BigEndianIsWordSum(s: seq<byte>)
    requires |s| % 2 == 0
    ensures Cong(BigEndian(s), WordSum(s))
    decreases |s|
  {
    if s == [] {
      CongBy(0, 0, 0);
    } else {
      var p, t := s[..|s| - 2], s[|s| - 2..];
      assert s == p + t && s[..|s| - 1][..|s| - 2] == p;
      WordSumAppend(p, t);
      BigEndianIsWordSum(p);
      assert t[2..] == [];
      assert BigEndian(s[..|s| - 1]) == 0x100 * BigEndian(p) + t[0] as int;
      assert WordSum(t) == Word(t[0], t[1]);
      var k := Quotient(BigEndian(p), WordSum(p));
      CongBy(BigEndian(s), WordSum(s), k + BigEndian(p));
    }
  }

  /** Swapping the bytes of a word is multiplication by 256 modulo 65535. */
  lemma Bswap64Is256(v: u64)
    ensures Cong(Bswap64(v), 0x100 * v)
    ensures Bswap64(v) == 0 <==> v == 0
  {
    var s := ToLittleEndian(v, 8);
    Pow256Values();
    LittleEndianRoundTrip(v, 8);
    LittleEndianIsSwapped(s);
    BigEndianIsWordSum(s);
    LittleEndianZero(s);
    BigEndianZero(s);
    CongTimes256(v, 0x100 * WordSum(s));
    Twice256(WordSum(s));
    CongTrans(0x100 * v, 0x100 * (0x100 * WordSum(s)), WordSum(s));
    CongSym(0x100 * v, WordSum(s));
    CongTrans(Bswap64(v), WordSum(s), 0x100 * v);
  }

  /** The high half of the accumulator goes round into the low half, with its carry. */
  function Fold128(ac: nat): u64
    requires ac < 0x1_0000_0000_0000_0000_0000_0000_0000_0000
  {
    var lo, hi := ac % 0x1_0000_0000_0000_0000, ac / 0x1_0000_0000_0000_0000;
    var sum := (lo + hi) % 0x1_0000_0000_0000_0000;
    if sum < lo then (sum + 1) % 0x1_0000_0000_0000_0000 else sum
  }

  /** No carry is lost: the folded value is congruent, and zero only for zero. */
  lemma Fold128KeepsSum(ac: nat)
    requires ac < 0x1_0000_0000_0000_0000_0000_0000_0000_0000
    ensures Cong(Fold128(ac), ac)
    ensures Fold128(ac) == 0 <==> ac == 0
  {
    var lo, hi := ac % 0x1_0000_0000_0000_0000, ac / 0x1_0000_0000_0000_0000;
    var c := if lo + hi < 0x1_0000_0000_0000_0000 then 0 else 1;
    assert Fold128(ac) == lo + hi - c * (0x1_0000_0000_0000_0000 - 1);
    CongBy(Fold128(ac), ac, -0x1_0001_0001_0001 * (hi + c));
  }

  /** The accumulator before the fold; it fits in 128 bits. */
  function Accumulated(s: seq<byte>, initial: u64): (ac: nat)
    requires |s| < 0x1_0000_0000_0000_0000
    ensures ac < 0x1_0000_0000_0000_0000_0000_0000_0000_0000
  {
    NativeSumBound(s);
    Bswap64(initial) + NativeSum(s)
  }

  /** What `checksumNoFold` returns. */
  function NoFold(s: seq<byte>, initial: u64): u64
    requires |s| < 0x1_0000_0000_0000_0000
  {
    Bswap64(Fold128(Accumulated(s, initial)))
  }

  /** Whatever its 64-bit value, the partial sum stands for `initial` plus the words of `s`. */
  lemma NoFoldMeaning(s: seq<byte>, initial: u64)
    requires |s| < 0x1_0000_0000_0000_0000
    ensures Canon(NoFold(s, initial)) == Canon(initial + WordSum(s))
  {
    hide Fold128, Bswap64, NativeSum, WordSum, Cong, Canon;
    var ac := Accumulated(s, initial);
    Bswap64Is256(initial);
    NativeSumIsSwapped(s);
    NativeSumZero(s);
    Fold128KeepsSum(ac);
    Bswap64Is256(Fold128(ac));
    SwappedTwice(initial, WordSum(s), Bswap64(initial), NativeSum(s), Fold128(ac), NoFold(s, initial));
  }

  lemma NoFoldParts(s: seq<byte>, initial: u64)
    requires |s| < 0x1_0000_0000_0000_0000
    ensures Accumulated(s, initial) == Bswap64(initial) + NativeSum(s)
    ensures NoFold(s, initial) == Bswap64(Fold128(Accumulated(s, initial)))
    ensures Canon(NoFold(s, initial)) == Canon(initial + WordSum(s))
  {
    NoFoldMeaning(s, initial);
  }

  lemma SwappedTwice(x: nat, w: nat, bx: nat, bw: nat, sum: nat, r: nat)
    requires Cong(bx, 0x100 * x) && Cong(bw, 0x100 * w) && Cong(sum, bx + bw) && Cong(r, 0x100 * sum)
    requires (bx == 0 <==> x == 0) && (bw == 0 <==> w == 0)
    requires (sum == 0 <==> bx + bw == 0) && (r == 0 <==> sum == 0)
    ensures Canon(r) == Canon(x + w)
  {
    var i := Quotient(bx, 0x100 * x);
    var j := Quotient(bw, 0x100 * w);
    var k := Quotient(sum, bx + bw);
    var l := Quotient(r, 0x100 * sum);
    CongBy(r, x + w, l + 0x100 * (i + j + k) + x + w);
    CanonEqual(r, x + w);
  }

  // ---------------------------------------------------------------- the final folds

  /** One `(ac >> 16) + (ac & 0xffff)`. */
  function Fold(ac: nat): nat {
    ac / 0x1_0000 + ac % 0x1_0000
  }

  lemma FoldKeepsSum(ac: nat)
    ensures Canon(Fold(ac)) == Canon(ac)
  {
    CongBy(Fold(ac), ac, -(ac / 0x1_0000));
    CanonEqual(Fold(ac), ac);
  }

  lemma FoldBounds(ac: nat)
    ensures ac < 0x1_0000_0000_0000_0000 ==> Fold(ac) <= 0x1_0000_0000_FFFE
    ensures ac <= 0x1_0000_0000_FFFE ==> Fold(ac) <= 0x1_0000_FFFE
    ensures ac <= 0x1_0000_FFFE ==> Fold(ac) <= 0x1_FFFE
    ensures ac <= 0x1_FFFE ==> Fold(ac) <= 0xFFFF
  {
  }

  /** Four folds bring every 64-bit sum down to its 16-bit end-around-carry value. */
  lemma FourFoldsSuffice(ac: u64)
    ensures Fold(Fold(Fold(Fold(ac)))) == Canon(ac)
  {
    var a, b, c := Fold(ac), Fold(Fold(ac)), Fold(Fold(Fold(ac)));
    FoldKeepsSum(ac);
    FoldKeepsSum(a);
    FoldKeepsSum(b);
    FoldKeepsSum(c);
    FoldBounds(ac);
    FoldBounds(a);
    FoldBounds(b);
    FoldBounds(c);
    var d := Fold(c);
    assert d <= 0xFFFF;
    CongBy(d, d, 0);
    CanonUnique(d, d);
  }

  lemma {:induction false} AllOnes(n: nat)
    ensures var s: seq<byte> := seq(n, _ => 0xFF);
            LittleEndian(s) == BigEndian(s) == Pow256(n) - 1 && ToLittleEndian(Pow256(n) - 1, n) == s
  {
    if n > 0 {
      AllOnes(n - 1);
      var s: seq<byte>, t: seq<byte> := seq(n, _ => 0xFF), seq(n - 1, _ => 0xFF);
      assert s[1..] == t && s[..n - 1] == t && [0xFF] + t == s;
      var v := Pow256(n) - 1;
      assert v % 0x100 == 0xFF && v / 0x100 == Pow256(n - 1) - 1;
    }
  }

  /** Eight 0xFF bytes leave a sum that three folds do not bring below 2^16. */
  lemma ThreeFoldsAreNotEnough()
    ensures var s: seq<byte> := seq(8, _ => 0xFF);
            NoFold(s, 0) == 0xFFFF_FFFF_FFFF_FFFF && Fold(Fold(Fold(NoFold(s, 0)))) > 0xFFFF
  {
    var s: seq<byte> := seq(8, _ => 0xFF);
    AllOnes(8);
    Pow256Values();
    Bswap64Is256(0);
    assert s[8..] == [] && s[..8] == s;
    assert NativeSum(s) == LittleEndian(s) + NativeSum(s[8..]);
    assert Accumulated(s, 0) == 0xFFFF_FFFF_FFFF_FFFF;
    assert Fold128(0xFFFF_FFFF_FFFF_FFFF) == 0xFFFF_FFFF_FFFF_FFFF;
  }

  // ---------------------------------------------------------------- summing in pieces

  /** A buffer may be summed in two calls when the first piece has even length; `y` is any
      partial sum that stands for the first piece. */
  lemma ChecksumChains(a: seq<byte>, b: seq<byte>, x: u64, y: u64)
    requires |a| % 2 == 0
    requires Canon(y) == Canon(x + WordSum(a))
    ensures Rfc1071(b, y) == Rfc1071(a + b, x)
  {
    hide Rfc1071, WordSum, Canon;
    Rfc1071IsCanon(b, y);
    Rfc1071IsCanon(a + b, x);
    WordSumAppend(a, b);
    CanonAdd(y, x + WordSum(a), WordSum(b));
  }

  /** After an odd piece it is right exactly when the second piece's sum is divisible by 257. */
  lemma ChecksumChainsOdd(a: seq<byte>, b: seq<byte>, x: u64, y: u64)
    requires |a| % 2 == 1
    requires Canon(y) == Canon(x + WordSum(a))
    ensures Rfc1071(b, y) == Rfc1071(a + b, x) <==> WordSum(b) % 257 == 0
  {
    hide WordSum, AllZero, Rfc1071, Cong, Canon;
    Rfc1071IsCanon(b, y);
    Rfc1071IsCanon(a + b, x);
    WordSumOddAppend(a, b);
    CanonAdd(y, x + WordSum(a), WordSum(b));
    WordSumZero(a);
    WordSumZero(b);
    WordSumZero(a + b);
    ZeroAppend(a, b);
    OddChain(x, WordSum(a), WordSum(b), WordSum(a + b));
  }

  lemma OddChain(x: nat, a: nat, w: nat, ab: nat)
    requires Cong(ab, a + 0x100 * w)
    requires ab == 0 <==> a + w == 0
    ensures Canon(x + a + w) == Canon(x + ab) <==> w % 257 == 0
  {
    var k := Quotient(ab, a + 0x100 * w);
    var n, t := x + a, x + ab;
    if Canon(n + w) == Canon(t) {
      CanonEqualMeans(n + w, t);
      var l := Quotient(n + w, t);
      assert w == 257 * (-k - l);
    }
    if w % 257 == 0 {
      var q := w / 257;
      CongBy(n + w, t, -k - q);
      CanonEqual(n + w, t);
    }
  }

  lemma ZeroAppend(a: seq<byte>, b: seq<byte>)
    ensures AllZero(a + b) <==> AllZero(a) && AllZero(b)
  {
    assert forall k :: 0 <= k < |b| ==> b[k] == (a + b)[|a| + k];
    assert forall k :: 0 <= k < |a| ==> a[k] == (a + b)[k];
  }

  // ---------------------------------------------------------------- the functions of csum.cpp

  /** Adding to the 128-bit accumulator. */
  function Add128(a: nat, b: nat): nat {
    (a + b) % 0x1_0000_0000_0000_0000_0000_0000_0000_0000
  }

  /** One load moves its bytes from the unread part into the accumulator, which does not wrap. */
  lemma NativeLoad(data: array<byte>, p: nat, left: nat, ac: nat, total: nat)
    requires 0 < left && p + left <= data.Length
    requires ac + NativeSum(data[p..p + left]) == total < 0x1_0000_0000_0000_0000_0000_0000_0000_0000
    ensures var n := NextLoad(left);
            && Add128(ac, LittleEndian(data[p..p + n])) == ac + LittleEndian(data[p..p + n])
            && ac + LittleEndian(data[p..p + n]) + NativeSum(data[p + n..p + left]) == total
  {
    var n := NextLoad(left);
    var s := data[p..p + left];
    assert s[..n] == data[p..p + n] && s[n..] == data[p + n..p + left];
  }

  lemma EmptyAndByte(s: seq<byte>)
    ensures s == [] ==> NativeSum(s) == 0
    ensures |s| == 1 ==> LittleEndian(s) == s[0]
  {
    if |s| == 1 {
      assert s[1..] == [];
    }
  }

  /** The last loads: four, two and one byte. */
  method LoadTail(data: array<byte>, at: nat, len: nat, start: nat, ghost total: nat) returns (ac: nat)
    requires at + len <= data.Length && len < 8
    requires start + NativeSum(data[at..at + len]) == total < 0x1_0000_0000_0000_0000_0000_0000_0000_0000
    ensures ac == total
  {
    hide LittleEndian, NativeSum, Add128;
    var p, left := at, len;
    ac := start;
    if left >= 4 {
      NativeLoad(data, p, left, ac, total);
      ac := Add128(ac, LittleEndian(data[p..p + 4]));
      p, left := p + 4, left - 4;
    }
    if left >= 2 {
      NativeLoad(data, p, left, ac, total);
      ac := Add128(ac, LittleEndian(data[p..p + 2]));
      p, left := p + 2, left - 2;
    }
    if left == 1 {
      NativeLoad(data, p, left, ac, total);
      EmptyAndByte(data[p..p + 1]);
      ac := Add128(ac, data[p]);
      p, left := p + 1, left - 1;
    }
    EmptyAndByte(data[p..p + left]);
  }

  /** `checksumNoFold` over the `len` bytes of `data` at `at`. */
  method ChecksumNoFold(data: array<byte>, at: nat, len: nat, initial: u64) returns (r: u64)
    requires at + len <= data.Length && len < 0x1_0000_0000_0000_0000
    ensures r == NoFold(data[at..at + len], initial)
    ensures Canon(r) == Canon(initial + WordSum(data[at..at + len]))
  {
    hide NoFold, Accumulated, Bswap64, Canon, WordSum, LittleEndian, NativeSum, Fold128, Add128;
    NoFoldParts(data[at..at + len], initial);
    ghost var total := Accumulated(data[at..at + len], initial);
    var ac: nat := Bswap64(initial);
    var p, left := at, len;
    while left >= 8
      invariant at <= p && p + left == at + len
      invariant ac + NativeSum(data[p..p + left]) == total
    {
      NativeLoad(data, p, left, ac, total);
      ac := Add128(ac, LittleEndian(data[p..p + 8]));
      p, left := p + 8, left - 8;
    }
    ac := LoadTail(data, p, left, ac, total);
    var sum := FoldHigh(ac);
    r := Bswap64(sum);
  }

  method FoldHigh(ac: nat) returns (sum: u64)
    requires ac < 0x1_0000_0000_0000_0000_0000_0000_0000_0000
    ensures sum == Fold128(ac)
  {
    var lo, hi := ac % 0x1_0000_0000_0000_0000, ac / 0x1_0000_0000_0000_0000;
    sum := (lo + hi) % 0x1_0000_0000_0000_0000;
    if sum < lo {
      sum := (sum + 1) % 0x1_0000_0000_0000_0000;
    }
  }

  /** `checksum`: the fast form is exactly the RFC's sum, for every buffer and length. */
  method Checksum(data: array<byte>, at: nat, len: nat, initial: u64) returns (r: u16)
    requires at + len <= data.Length && len < 0x1_0000_0000_0000_0000
    ensures r == Rfc1071(data[at..at + len], initial)
  {
    hide Rfc1071, NoFold, Canon, WordSum, Fold;
    var ac: nat := ChecksumNoFold(data, at, len, initial);
    FourFoldsSuffice(ac);
    Rfc1071IsCanon(data[at..at + len], initial);
    ac := Fold(ac);
    ac := Fold(ac);
    ac := Fold(ac);
    ac := Fold(ac);
    r := ac;
  }

  /** The pseudo-header of section 3.1 of RFC 9293, as bytes. */
  function PseudoHeader(src: seq<byte>, dst: seq<byte>, protocol: byte, totalLen: u16): seq<byte> {
    src + dst + [0, protocol, totalLen / 0x100, totalLen % 0x100]
  }

  /** Filled up to whole words, as each partial sum takes its part. */
  function Padded(s: seq<byte>): seq<byte> {
    if |s| % 2 == 0 then s else s + [0]
  }

  lemma {:induction false} PaddedSum(s: seq<byte>)
    ensures WordSum(Padded(s)) == WordSum(s)
  {
    if |s| % 2 == 1 {
      if |s| == 1 {
        assert (s + [0])[2..] == [];
      } else {
        assert (s + [0])[2..] == s[2..] + [0];
        PaddedSum(s[2..]);
      }
    }
  }

  /** `pseudoHeaderChecksumNoFold`: three chained partial sums stand for the whole pseudo-header,
      with an address of odd length filled up. */
  method PseudoHeaderChecksumNoFold(protocol: byte, addrs: array<byte>, srcAt: nat, dstAt: nat,
                                    addrLen: nat, totalLen: u16) returns (sum: u64)
    requires srcAt + addrLen <= addrs.Length && dstAt + addrLen <= addrs.Length
    requires addrLen < 0x1_0000_0000_0000_0000
    ensures Canon(sum) == Canon(WordSum(PseudoHeader(Padded(addrs[srcAt..srcAt + addrLen]),
                                                     Padded(addrs[dstAt..dstAt + addrLen]), protocol, totalLen)))
  {
    hide Canon, WordSum, NoFold;
    ghost var a, b := addrs[srcAt..srcAt + addrLen], addrs[dstAt..dstAt + addrLen];
    sum := ChecksumNoFold(addrs, srcAt, addrLen, 0);
    ghost var first := sum;
    sum := ChecksumNoFold(addrs, dstAt, addrLen, sum);
    ghost var second := sum;
    var tail := new byte[4];
    tail[0], tail[1], tail[2], tail[3] := 0, protocol, totalLen / 0x100, totalLen % 0x100;
    sum := ChecksumNoFold(tail, 0, 4, sum);
    ghost var t: seq<byte> := [0, protocol, totalLen / 0x100, totalLen % 0x100];
    assert tail[0..0 + 4] == t;
    PaddedSum(a);
    PaddedSum(b);
    ThreePieces(Padded(a), Padded(b), t, first, second, sum);
  }

  lemma ThreePieces(a: seq<byte>, b: seq<byte>, t: seq<byte>, ya: nat, yb: nat, yt: nat)
    requires |a| % 2 == 0 && |b| % 2 == 0
    requires Canon(ya) == Canon(WordSum(a))
    requires Canon(yb) == Canon(ya + WordSum(b))
    requires Canon(yt) == Canon(yb + WordSum(t))
    ensures Canon(yt) == Canon(WordSum(a + b + t))
  {
    WordSumAppend(a, b);
    WordSumAppend(a + b, t);
    hide Canon, WordSum;
    CanonAdd(ya, WordSum(a), WordSum(b));
    CanonAdd(yb, WordSum(a + b), WordSum(t));
  }
}
