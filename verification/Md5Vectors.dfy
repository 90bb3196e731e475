/** Messages of appendix A.5 of RFC 1321 and their digests: all 64 steps on literal words. */
module Md5Vectors {
  import opened Md5
  import opened Md5Block

  function R(a: bv32, b: bv32, c: bv32, d: bv32): Regs {
    Regs(Word(a), Word(b), Word(c), Word(d))
  }

  lemma MixIs(i: nat, x: Word, y: Word, z: Word)
    ensures Mix(i, x, y, z) == if i < 16 then F(x, y, z) else if i < 32 then G(x, y, z) else if i < 48 then H(x, y, z)
      else I(x, y, z)
  {
    hide F, G, H, I;
  }

  /** A step of round 1, with its function written out. */
  lemma FStep(i: nat, a: bv32, b: bv32, c: bv32, d: bv32, k: nat, w: bv32, t: bv32, s: nat, n: bv32,
               x: seq<Word>)
    requires i < 16 && |x| == 16 && k < 16 && s in AMOUNTS && Numbers(i, k, s, t) && x[k] == Word(w)
    requires Sum(Turn(Sum(Sum(Sum(a, (b & c) | (!b & d)), w), t), s), b) == n
    ensures Steps(i, R(a, b, c, d), x) == Steps(i + 1, R(d, n, b, c), x)
  {
    hide Steps, Op, Numbers, Sum, Turn, Mix;
    var f := F(Word(b), Word(c), Word(d));
    assert f == Word((b & c) | (!b & d));
    MixIs(i, Word(b), Word(c), Word(d));
    Step(i, k, s, t, f, Word(a), Word(b), Word(c), Word(d), x);
  }

  /** A step of round 2, with its function written out. */
  lemma GStep(i: nat, a: bv32, b: bv32, c: bv32, d: bv32, k: nat, w: bv32, t: bv32, s: nat, n: bv32,
               x: seq<Word>)
    requires 16 <= i < 32 && |x| == 16 && k < 16 && s in AMOUNTS && Numbers(i, k, s, t) && x[k] == Word(w)
    requires Sum(Turn(Sum(Sum(Sum(a, (b & d) | (c & !d)), w), t), s), b) == n
    ensures Steps(i, R(a, b, c, d), x) == Steps(i + 1, R(d, n, b, c), x)
  {
    hide Steps, Op, Numbers, Sum, Turn, Mix;
    var f := G(Word(b), Word(c), Word(d));
    assert f == Word((b & d) | (c & !d));
    MixIs(i, Word(b), Word(c), Word(d));
    Step(i, k, s, t, f, Word(a), Word(b), Word(c), Word(d), x);
  }

  /** A step of round 3, with its function written out. */
  lemma HStep(i: nat, a: bv32, b: bv32, c: bv32, d: bv32, k: nat, w: bv32, t: bv32, s: nat, n: bv32,
               x: seq<Word>)
    requires 32 <= i < 48 && |x| == 16 && k < 16 && s in AMOUNTS && Numbers(i, k, s, t) && x[k] == Word(w)
    requires Sum(Turn(Sum(Sum(Sum(a, b ^ c ^ d), w), t), s), b) == n
    ensures Steps(i, R(a, b, c, d), x) == Steps(i + 1, R(d, n, b, c), x)
  {
    hide Steps, Op, Numbers, Sum, Turn, Mix;
    var f := H(Word(b), Word(c), Word(d));
    assert f == Word(b ^ c ^ d);
    MixIs(i, Word(b), Word(c), Word(d));
    Step(i, k, s, t, f, Word(a), Word(b), Word(c), Word(d), x);
  }

  /** A step of round 4, with its function written out. */
  lemma IStep(i: nat, a: bv32, b: bv32, c: bv32, d: bv32, k: nat, w: bv32, t: bv32, s: nat, n: bv32,
               x: seq<Word>)
    requires 48 <= i < 64 && |x| == 16 && k < 16 && s in AMOUNTS && Numbers(i, k, s, t) && x[k] == Word(w)
    requires Sum(Turn(Sum(Sum(Sum(a, c ^ (b | !d)), w), t), s), b) == n
    ensures Steps(i, R(a, b, c, d), x) == Steps(i + 1, R(d, n, b, c), x)
  {
    hide Steps, Op, Numbers, Sum, Turn, Mix;
    var f := I(Word(b), Word(c), Word(d));
    assert f == Word(c ^ (b | !d));
    MixIs(i, Word(b), Word(c), Word(d));
    Step(i, k, s, t, f, Word(a), Word(b), Word(c), Word(d), x);
  }

  // ---- one block of a short message ----

  lemma ShortOctet(n: nat, k: nat)
    requires n < 256 && k < 4
    ensures Octet(n, k) == (if k == 0 then n else 0) as Byte
  {
    assert n / [1, 0x100, 0x1_0000, 0x100_0000][k] % 256 == if k == 0 then n else 0;
  }

  lemma ShortLength(n: nat)
    requires n < 32
    ensures forall i :: 0 <= i < 8 ==> LengthBytes(8 * n)[i] == (if i == 0 then 8 * n else 0) as Byte
  {
    hide Octet;
    assert 8 * n % WORDS == 8 * n && 8 * n / WORDS % WORDS == 0;
    forall k: nat | k < 4 ensures Octet(8 * n, k) == (if k == 0 then 8 * n else 0) as Byte && Octet(0, k) == 0 as Byte {
      ShortOctet(8 * n, k);
      ShortOctet(0, k);
    }
  }

  /** The message, a one bit, zero bits, and the number of its bits. */
  lemma ShortPadded(m: seq<Byte>)
    requires |m| < 32
    ensures |Padded(m)| == 64
    ensures forall i :: 0 <= i < 64 ==>
      Padded(m)[i] == if i < |m| then m[i] else if i == |m| then 0x80 else if i == 56 then (8 * |m|) as Byte else 0
  {
    ShortLength(|m|);
    hide LengthBytes;
  }

  lemma WordAt(s: seq<Byte>, k: nat)
    requires |s| == 64 && k < 16
    ensures Words(s)[k] == WordOf([s[4 * k], s[4 * k + 1], s[4 * k + 2], s[4 * k + 3]])
  {
    hide WordOf;
    assert s[4 * k..4 * k + 4] == [s[4 * k], s[4 * k + 1], s[4 * k + 2], s[4 * k + 3]];
  }

  lemma LiteralWords()
    ensures WordOf([0, 0, 0, 0]) == Word(0) && WordOf([0x80, 0, 0, 0]) == Word(0x80)
    ensures WordOf([0x18, 0, 0, 0]) == Word(0x18) && WordOf([0x61, 0x62, 0x63, 0x80]) == Word(0x80636261)
  {
  }

  lemma OneBlock(m: seq<Byte>, x: seq<Word>)
    requires |m| < 32 && |Padded(m)| == 64 && Words(Padded(m)) == x
    ensures Digest(m) == Output(Add(INIT, Steps(0, INIT, x)))
  {
    hide Padded, Words, Steps, Add, Output, Fold;
    FoldOne(INIT, Padded(m));
  }

  // ---- the empty message ----

  /** Its words: only the first is not zero. */
  function EmptyWords(): seq<Word> {
    seq(16, k => if k == 0 then Word(0x00000080) else Word(0))
  }

  lemma EmptyIsRead()
    ensures |Padded([])| == 64 && Words(Padded([])) == EmptyWords()
  {
    ShortPadded([]);
    LiteralWords();
    hide Padded, Words, WordOf;
    var s := Padded([]);
    forall k | 0 <= k < 16 ensures Words(s)[k] == EmptyWords()[k] {
      WordAt(s, k);
      assert 0 < k ==> s[4 * k] == 0;
      assert 0 < k ==> s[4 * k + 1] == 0 && s[4 * k + 2] == 0 && s[4 * k + 3] == 0;
    }
  }

  lemma EmptySteps0(x: seq<Word>)
    requires x == EmptyWords()
    ensures Steps(0, R(0x67452301, 0xefcdab89, 0x98badcfe, 0x10325476), x) ==
      Steps(8, R(0x32033344, 0x9bc13ce9, 0xf5b158db, 0x2f35d494), x)
  {
    hide Steps, R;
    FStep(0, 0x67452301, 0xefcdab89, 0x98badcfe, 0x10325476, 0, 0x00000080, 0xd76aa478, 7, 0xa5202774, x);
    FStep(1, 0x10325476, 0xa5202774, 0xefcdab89, 0x98badcfe, 1, 0x00000000, 0xe8c7b756, 12, 0xf59592dd, x);
    FStep(2, 0x98badcfe, 0xf59592dd, 0xa5202774, 0xefcdab89, 2, 0x00000000, 0x242070db, 17, 0xe7f06b23, x);
    FStep(3, 0xefcdab89, 0xe7f06b23, 0xf59592dd, 0xa5202774, 3, 0x00000000, 0xc1bdceee, 22, 0x1b163203, x);
    FStep(4, 0xa5202774, 0x1b163203, 0xe7f06b23, 0xf59592dd, 4, 0x00000000, 0xf57c0faf, 7, 0x32033344, x);
    FStep(5, 0xf59592dd, 0x32033344, 0x1b163203, 0xe7f06b23, 5, 0x00000000, 0x4787c62a, 12, 0x2f35d494, x);
    FStep(6, 0xe7f06b23, 0x2f35d494, 0x32033344, 0x1b163203, 6, 0x00000000, 0xa8304613, 17, 0xf5b158db, x);
    FStep(7, 0x1b163203, 0xf5b158db, 0x2f35d494, 0x32033344, 7, 0x00000000, 0xfd469501, 22, 0x9bc13ce9, x);
  }

  lemma EmptySteps8(x: seq<Word>)
    requires x == EmptyWords()
    ensures Steps(8, R(0x32033344, 0x9bc13ce9, 0xf5b158db, 0x2f35d494), x) ==
      Steps(16, R(0xf56c7cf1, 0xd6819c6a, 0x5aa53f75, 0x374943a7), x)
  {
    hide Steps, R;
    FStep(8, 0x32033344, 0x9bc13ce9, 0xf5b158db, 0x2f35d494, 8, 0x00000000, 0x698098d8, 7, 0x3893b991, x);
    FStep(9, 0x2f35d494, 0x3893b991, 0x9bc13ce9, 0xf5b158db, 9, 0x00000000, 0x8b44f7af, 12, 0xfce4a312, x);
    FStep(10, 0xf5b158db, 0xfce4a312, 0x3893b991, 0x9bc13ce9, 10, 0x00000000, 0xffff5bb1, 17, 0xe1ef0576, x);
    FStep(11, 0x9bc13ce9, 0xe1ef0576, 0xfce4a312, 0x3893b991, 11, 0x00000000, 0x895cd7be, 22, 0x70768a29, x);
    FStep(12, 0x3893b991, 0x70768a29, 0xe1ef0576, 0xfce4a312, 12, 0x00000000, 0x6b901122, 7, 0xf56c7cf1, x);
    FStep(13, 0xfce4a312, 0xf56c7cf1, 0x70768a29, 0xe1ef0576, 13, 0x00000000, 0xfd987193, 12, 0x374943a7, x);
    FStep(14, 0xe1ef0576, 0x374943a7, 0xf56c7cf1, 0x70768a29, 14, 0x00000000, 0xa679438e, 17, 0x5aa53f75, x);
    FStep(15, 0x70768a29, 0x5aa53f75, 0x374943a7, 0xf56c7cf1, 15, 0x00000000, 0x49b40821, 22, 0xd6819c6a, x);
  }

  lemma EmptySteps16(x: seq<Word>)
    requires x == EmptyWords()
    ensures Steps(16, R(0xf56c7cf1, 0xd6819c6a, 0x5aa53f75, 0x374943a7), x) ==
      Steps(20, R(0x1c7d7513, 0xbd782e17, 0xc095f13a, 0x7bd57a3a), x)
  {
    hide Steps, R;
    GStep(16, 0xf56c7cf1, 0xd6819c6a, 0x5aa53f75, 0x374943a7, 1, 0x00000000, 0xf61e2562, 5, 0x1c7d7513, x);
    GStep(17, 0x374943a7, 0x1c7d7513, 0xd6819c6a, 0x5aa53f75, 6, 0x00000000, 0xc040b340, 9, 0x7bd57a3a, x);
    GStep(18, 0x5aa53f75, 0x7bd57a3a, 0x1c7d7513, 0xd6819c6a, 11, 0x00000000, 0x265e5a51, 14, 0xc095f13a, x);
    GStep(19, 0xd6819c6a, 0xc095f13a, 0x7bd57a3a, 0x1c7d7513, 0, 0x00000080, 0xe9b6c7aa, 20, 0xbd782e17, x);
  }

  lemma EmptySteps20(x: seq<Word>)
    requires x == EmptyWords()
    ensures Steps(20, R(0x1c7d7513, 0xbd782e17, 0xc095f13a, 0x7bd57a3a), x) ==
      Steps(24, R(0x3d1e3e6c, 0xe422531a, 0xeb41643e, 0x68b7b3e3), x)
  {
    hide Steps, R;
    GStep(20, 0x1c7d7513, 0xbd782e17, 0xc095f13a, 0x7bd57a3a, 5, 0x00000000, 0xd62f105d, 5, 0x3d1e3e6c, x);
    GStep(21, 0x7bd57a3a, 0x3d1e3e6c, 0xbd782e17, 0xc095f13a, 10, 0x00000000, 0x02441453, 9, 0x68b7b3e3, x);
    GStep(22, 0xc095f13a, 0x68b7b3e3, 0x3d1e3e6c, 0xbd782e17, 15, 0x00000000, 0xd8a1e681, 14, 0xeb41643e, x);
    GStep(23, 0xbd782e17, 0xeb41643e, 0x68b7b3e3, 0x3d1e3e6c, 4, 0x00000000, 0xe7d3fbc8, 20, 0xe422531a, x);
  }

  lemma EmptySteps24(x: seq<Word>)
    requires x == EmptyWords()
    ensures Steps(24, R(0x3d1e3e6c, 0xe422531a, 0xeb41643e, 0x68b7b3e3), x) ==
      Steps(32, R(0x13707036, 0xa2205f1f, 0x1c31c384, 0xae7813db), x)
  {
    hide Steps, R;
    GStep(24, 0x3d1e3e6c, 0xe422531a, 0xeb41643e, 0x68b7b3e3, 9, 0x00000000, 0x21e1cde6, 5, 0x306ec122, x);
    GStep(25, 0x68b7b3e3, 0x306ec122, 0xe422531a, 0xeb41643e, 14, 0x00000000, 0xc33707d6, 9, 0xd28c77c2, x);
    GStep(26, 0xeb41643e, 0xd28c77c2, 0x306ec122, 0xe422531a, 3, 0x00000000, 0xf4d50d87, 14, 0xa3c663da, x);
    GStep(27, 0xe422531a, 0xa3c663da, 0xd28c77c2, 0x306ec122, 8, 0x00000000, 0x455a14ed, 20, 0xa0572807, x);
    GStep(28, 0x306ec122, 0xa0572807, 0xa3c663da, 0xd28c77c2, 13, 0x00000000, 0xa9e3e905, 5, 0x13707036, x);
    GStep(29, 0xd28c77c2, 0x13707036, 0xa0572807, 0xa3c663da, 2, 0x00000000, 0xfcefa3f8, 9, 0xae7813db, x);
    GStep(30, 0xa3c663da, 0xae7813db, 0x13707036, 0xa0572807, 7, 0x00000000, 0x676f02d9, 14, 0x1c31c384, x);
    GStep(31, 0xa0572807, 0x1c31c384, 0xae7813db, 0x13707036, 12, 0x00000000, 0x8d2a4c8a, 20, 0xa2205f1f, x);
  }

  lemma EmptySteps32(x: seq<Word>)
    requires x == EmptyWords()
    ensures Steps(32, R(0x13707036, 0xa2205f1f, 0x1c31c384, 0xae7813db), x) ==
      Steps(40, R(0x5f7a9b2e, 0xc5dc8c15, 0x91ca4cb7, 0xabc34e16), x)
  {
    hide Steps, R;
    HStep(32, 0x13707036, 0xa2205f1f, 0x1c31c384, 0xae7813db, 5, 0x00000000, 0xfffa3942, 4, 0xdf63eaa1, x);
    HStep(33, 0xae7813db, 0xdf63eaa1, 0xa2205f1f, 0x1c31c384, 8, 0x00000000, 0x8771f681, 11, 0xc3689f5b, x);
    HStep(34, 0x1c31c384, 0xc3689f5b, 0xdf63eaa1, 0xa2205f1f, 11, 0x00000000, 0x6d9d6122, 16, 0x12f3e755, x);
    HStep(35, 0xa2205f1f, 0x12f3e755, 0xc3689f5b, 0xdf63eaa1, 14, 0x00000000, 0xfde5380c, 23, 0x004b6669, x);
    HStep(36, 0xdf63eaa1, 0x004b6669, 0x12f3e755, 0xc3689f5b, 1, 0x00000000, 0xa4beea44, 4, 0x5f7a9b2e, x);
    HStep(37, 0xc3689f5b, 0x5f7a9b2e, 0x004b6669, 0x12f3e755, 4, 0x00000000, 0x4bdecfa9, 11, 0xabc34e16, x);
    HStep(38, 0x12f3e755, 0xabc34e16, 0x5f7a9b2e, 0x004b6669, 7, 0x00000000, 0xf6bb4b60, 16, 0x91ca4cb7, x);
    HStep(39, 0x004b6669, 0x91ca4cb7, 0xabc34e16, 0x5f7a9b2e, 10, 0x00000000, 0xbebfbc70, 23, 0xc5dc8c15, x);
  }

  lemma EmptySteps40(x: seq<Word>)
    requires x == EmptyWords()
    ensures Steps(40, R(0x5f7a9b2e, 0xc5dc8c15, 0x91ca4cb7, 0xabc34e16), x) ==
      Steps(48, R(0x3f55edfd, 0xca7d2dbd, 0x68d84ea2, 0x22a31f54), x)
  {
    hide Steps, R;
    HStep(40, 0x5f7a9b2e, 0xc5dc8c15, 0x91ca4cb7, 0xabc34e16, 13, 0x00000000, 0x289b7ec6, 4, 0x4497169d, x);
    HStep(41, 0xabc34e16, 0x4497169d, 0xc5dc8c15, 0x91ca4cb7, 0, 0x00000080, 0xeaa127fa, 11, 0x76fd93d4, x);
    HStep(42, 0x91ca4cb7, 0x76fd93d4, 0x4497169d, 0xc5dc8c15, 3, 0x00000000, 0xd4ef3085, 16, 0xfd95f243, x);
    HStep(43, 0xc5dc8c15, 0xfd95f243, 0x76fd93d4, 0x4497169d, 6, 0x00000000, 0x04881d05, 23, 0x0fe32453, x);
    HStep(44, 0x4497169d, 0x0fe32453, 0xfd95f243, 0x76fd93d4, 9, 0x00000000, 0xd9d4d039, 4, 0x3f55edfd, x);
    HStep(45, 0x76fd93d4, 0x3f55edfd, 0x0fe32453, 0xfd95f243, 12, 0x00000000, 0xe6db99e5, 11, 0x22a31f54, x);
    HStep(46, 0xfd95f243, 0x22a31f54, 0x3f55edfd, 0x0fe32453, 15, 0x00000000, 0x1fa27cf8, 16, 0x68d84ea2, x);
    HStep(47, 0x0fe32453, 0x68d84ea2, 0x22a31f54, 0x3f55edfd, 2, 0x00000000, 0xc4ac5665, 23, 0xca7d2dbd, x);
  }

  lemma EmptySteps48(x: seq<Word>)
    requires x == EmptyWords()
    ensures Steps(48, R(0x3f55edfd, 0xca7d2dbd, 0x68d84ea2, 0x22a31f54), x) ==
      Steps(56, R(0x5625a114, 0x1e77fa61, 0x392ad0d0, 0x3450f42b), x)
  {
    hide Steps, R;
    IStep(48, 0x3f55edfd, 0xca7d2dbd, 0x68d84ea2, 0x22a31f54, 0, 0x00000080, 0xf4292244, 6, 0x93aa2577, x);
    IStep(49, 0x22a31f54, 0x93aa2577, 0xca7d2dbd, 0x68d84ea2, 7, 0x00000000, 0x432aff97, 10, 0x1688dc85, x);
    IStep(50, 0x68d84ea2, 0x1688dc85, 0x93aa2577, 0xca7d2dbd, 14, 0x00000000, 0xab9423a7, 15, 0xcd85b8cb, x);
    IStep(51, 0xca7d2dbd, 0xcd85b8cb, 0x1688dc85, 0x93aa2577, 5, 0x00000000, 0xfc93a039, 21, 0x561e0689, x);
    IStep(52, 0x93aa2577, 0x561e0689, 0xcd85b8cb, 0x1688dc85, 12, 0x00000000, 0x655b59c3, 6, 0x5625a114, x);
    IStep(53, 0x1688dc85, 0x5625a114, 0x561e0689, 0xcd85b8cb, 3, 0x00000000, 0x8f0ccc92, 10, 0x3450f42b, x);
    IStep(54, 0xcd85b8cb, 0x3450f42b, 0x5625a114, 0x561e0689, 10, 0x00000000, 0xffeff47d, 15, 0x392ad0d0, x);
    IStep(55, 0x561e0689, 0x392ad0d0, 0x3450f42b, 0x5625a114, 1, 0x00000000, 0x85845dd1, 21, 0x1e77fa61, x);
  }

  lemma EmptySteps56(x: seq<Word>)
    requires x == EmptyWords()
    ensures Steps(56, R(0x5625a114, 0x1e77fa61, 0x392ad0d0, 0x3450f42b), x) ==
      Steps(64, R(0x7246fad3, 0x14e45506, 0xff4ea3eb, 0x6e10a476), x)
  {
    hide Steps, R;
    IStep(56, 0x5625a114, 0x1e77fa61, 0x392ad0d0, 0x3450f42b, 8, 0x00000000, 0x6fa87e4f, 6, 0x474a9c8c, x);
    IStep(57, 0x3450f42b, 0x474a9c8c, 0x1e77fa61, 0x392ad0d0, 15, 0x00000000, 0xfe2ce6e0, 10, 0xdfce00bc, x);
    IStep(58, 0x392ad0d0, 0xdfce00bc, 0x474a9c8c, 0x1e77fa61, 6, 0x00000000, 0xa3014314, 15, 0x36594b14, x);
    IStep(59, 0x1e77fa61, 0x36594b14, 0xdfce00bc, 0x474a9c8c, 13, 0x00000000, 0x4e0811a1, 21, 0x30130182, x);
    IStep(60, 0x474a9c8c, 0x30130182, 0x36594b14, 0xdfce00bc, 4, 0x00000000, 0xf7537e82, 6, 0x7246fad3, x);
    IStep(61, 0xdfce00bc, 0x7246fad3, 0x30130182, 0x36594b14, 11, 0x00000000, 0xbd3af235, 10, 0x6e10a476, x);
    IStep(62, 0x36594b14, 0x6e10a476, 0x7246fad3, 0x30130182, 2, 0x00000000, 0x2ad7d2bb, 15, 0xff4ea3eb, x);
    IStep(63, 0x30130182, 0xff4ea3eb, 0x6e10a476, 0x7246fad3, 9, 0x00000000, 0xeb86d391, 21, 0x14e45506, x);
  }

  lemma EmptySum()
    ensures Add(INIT, R(0x7246fad3, 0x14e45506, 0xff4ea3eb, 0x6e10a476)) ==
      R(0xd98c1dd4, 0x04b2008f, 0x980980e9, 0x7e42f8ec)
  {
  }

  lemma EmptyOctets(k: nat)
    requires k < 4
    ensures WordOctet(Word(0xd98c1dd4), k) == [0xd4, 0x1d, 0x8c, 0xd9][k]
    ensures WordOctet(Word(0x04b2008f), k) == [0x8f, 0x00, 0xb2, 0x04][k]
    ensures WordOctet(Word(0x980980e9), k) == [0xe9, 0x80, 0x09, 0x98][k]
    ensures WordOctet(Word(0x7e42f8ec), k) == [0xec, 0xf8, 0x42, 0x7e][k]
  {
    if
    case k == 0 =>
    case k == 1 =>
    case k == 2 =>
    case k == 3 =>
  }

  /** Its digest. */
  lemma EmptyDigest()
    ensures Digest([]) == [0xd4, 0x1d, 0x8c, 0xd9, 0x8f, 0x00, 0xb2, 0x04,
      0xe9, 0x80, 0x09, 0x98, 0xec, 0xf8, 0x42, 0x7e]
  {
    hide Steps, Words, Padded, Add, Output, Digest, WordOctet, WordOf, R, EmptyWords;
    EmptyIsRead();
    var x := EmptyWords();
    OneBlock([], x);
    EmptySteps0(x);
    EmptySteps8(x);
    EmptySteps16(x);
    EmptySteps20(x);
    EmptySteps24(x);
    EmptySteps32(x);
    EmptySteps40(x);
    EmptySteps48(x);
    EmptySteps56(x);
    EmptyEnds();
  }

  lemma EmptyEnds()
    ensures Output(Add(INIT, Steps(64, R(0x7246fad3, 0x14e45506, 0xff4ea3eb, 0x6e10a476), EmptyWords()))) ==
      [0xd4, 0x1d, 0x8c, 0xd9, 0x8f, 0x00, 0xb2, 0x04,
      0xe9, 0x80, 0x09, 0x98, 0xec, 0xf8, 0x42, 0x7e]
    ensures INIT == R(0x67452301, 0xefcdab89, 0x98badcfe, 0x10325476)
  {
    hide WordOctet, Add;
    var x := EmptyWords();
    StepsEnd(R(0x7246fad3, 0x14e45506, 0xff4ea3eb, 0x6e10a476), x);
    EmptySum();
    forall k: nat | k < 4 { EmptyOctets(k); }
  }

  // ---- the message "abc" ----

  /** Its words: the three bytes with the one bit, zeros, and the 24 bits. */
  function AbcWords(): seq<Word> {
    seq(16, k => if k == 0 then Word(0x80636261) else if k == 14 then Word(0x00000018) else Word(0))
  }

  lemma AbcIsRead()
    ensures |Padded([0x61, 0x62, 0x63])| == 64 && Words(Padded([0x61, 0x62, 0x63])) == AbcWords()
  {
    ShortPadded([0x61, 0x62, 0x63]);
    LiteralWords();
    hide Padded, Words, WordOf;
    var s := Padded([0x61, 0x62, 0x63]);
    forall k | 0 <= k < 16 ensures Words(s)[k] == AbcWords()[k] {
      WordAt(s, k);
      assert 0 < k ==> s[4 * k] == (if k == 14 then 0x18 else 0);
      assert 0 < k ==> s[4 * k + 1] == 0 && s[4 * k + 2] == 0 && s[4 * k + 3] == 0;
    }
  }

  lemma AbcSteps0(x: seq<Word>)
    requires x == AbcWords()
    ensures Steps(0, R(0x67452301, 0xefcdab89, 0x98badcfe, 0x10325476), x) ==
      Steps(8, R(0xc73741ef, 0x928d99f6, 0x207dc67b, 0x8bac3051), x)
  {
    hide Steps, R;
    FStep(0, 0x67452301, 0xefcdab89, 0x98badcfe, 0x10325476, 0, 0x80636261, 0xd76aa478, 7, 0xd6d117b4, x);
    FStep(1, 0x10325476, 0xd6d117b4, 0xefcdab89, 0x98badcfe, 1, 0x00000000, 0xe8c7b756, 12, 0x344a8432, x);
    FStep(2, 0x98badcfe, 0x344a8432, 0xd6d117b4, 0xefcdab89, 2, 0x00000000, 0x242070db, 17, 0x2f6fbd72, x);
    FStep(3, 0xefcdab89, 0x2f6fbd72, 0x344a8432, 0xd6d117b4, 3, 0x00000000, 0xc1bdceee, 22, 0x7ad956f2, x);
    FStep(4, 0xd6d117b4, 0x7ad956f2, 0x2f6fbd72, 0x344a8432, 4, 0x00000000, 0xf57c0faf, 7, 0xc73741ef, x);
    FStep(5, 0x344a8432, 0xc73741ef, 0x7ad956f2, 0x2f6fbd72, 5, 0x00000000, 0x4787c62a, 12, 0x8bac3051, x);
    FStep(6, 0x2f6fbd72, 0x8bac3051, 0xc73741ef, 0x7ad956f2, 6, 0x00000000, 0xa8304613, 17, 0x207dc67b, x);
    FStep(7, 0x7ad956f2, 0x207dc67b, 0x8bac3051, 0xc73741ef, 7, 0x00000000, 0xfd469501, 22, 0x928d99f6, x);
  }

  lemma AbcSteps8(x: seq<Word>)
    requires x == AbcWords()
    ensures Steps(8, R(0xc73741ef, 0x928d99f6, 0x207dc67b, 0x8bac3051), x) ==
      Steps(16, R(0xdda9b9a6, 0x72aff2e0, 0xe396856b, 0xa1051895), x)
  {
    hide Steps, R;
    FStep(8, 0xc73741ef, 0x928d99f6, 0x207dc67b, 0x8bac3051, 8, 0x00000000, 0x698098d8, 7, 0x854b3712, x);
    FStep(9, 0x8bac3051, 0x854b3712, 0x928d99f6, 0x207dc67b, 9, 0x00000000, 0x8b44f7af, 12, 0x74e2f284, x);
    FStep(10, 0x207dc67b, 0x74e2f284, 0x854b3712, 0x928d99f6, 10, 0x00000000, 0xffff5bb1, 17, 0x3020401c, x);
    FStep(11, 0x928d99f6, 0x3020401c, 0x74e2f284, 0x854b3712, 11, 0x00000000, 0x895cd7be, 22, 0x5ed49596, x);
    FStep(12, 0x854b3712, 0x5ed49596, 0x3020401c, 0x74e2f284, 12, 0x00000000, 0x6b901122, 7, 0xdda9b9a6, x);
    FStep(13, 0x74e2f284, 0xdda9b9a6, 0x5ed49596, 0x3020401c, 13, 0x00000000, 0xfd987193, 12, 0xa1051895, x);
    FStep(14, 0x3020401c, 0xa1051895, 0xdda9b9a6, 0x5ed49596, 14, 0x00000018, 0xa679438e, 17, 0xe396856b, x);
    FStep(15, 0x5ed49596, 0xe396856b, 0xa1051895, 0xdda9b9a6, 15, 0x00000000, 0x49b40821, 22, 0x72aff2e0, x);
  }

  lemma AbcSteps16(x: seq<Word>)
    requires x == AbcWords()
    ensures Steps(16, R(0xdda9b9a6, 0x72aff2e0, 0xe396856b, 0xa1051895), x) ==
      Steps(20, R(0x3e9e9126, 0xb5b204e4, 0xe25e1652, 0x4a1d804e), x)
  {
    hide Steps, R;
    GStep(16, 0xdda9b9a6, 0x72aff2e0, 0xe396856b, 0xa1051895, 1, 0x00000000, 0xf61e2562, 5, 0x3e9e9126, x);
    GStep(17, 0xa1051895, 0x3e9e9126, 0x72aff2e0, 0xe396856b, 6, 0x00000000, 0xc040b340, 9, 0x4a1d804e, x);
    GStep(18, 0xe396856b, 0x4a1d804e, 0x3e9e9126, 0x72aff2e0, 11, 0x00000000, 0x265e5a51, 14, 0xe25e1652, x);
    GStep(19, 0x72aff2e0, 0xe25e1652, 0x4a1d804e, 0x3e9e9126, 0, 0x80636261, 0xe9b6c7aa, 20, 0xb5b204e4, x);
  }

  lemma AbcSteps20(x: seq<Word>)
    requires x == AbcWords()
    ensures Steps(20, R(0x3e9e9126, 0xb5b204e4, 0xe25e1652, 0x4a1d804e), x) ==
      Steps(24, R(0x59a8ffda, 0x47092c07, 0xabfc7920, 0x6d002f1e), x)
  {
    hide Steps, R;
    GStep(20, 0x3e9e9126, 0xb5b204e4, 0xe25e1652, 0x4a1d804e, 5, 0x00000000, 0xd62f105d, 5, 0x59a8ffda, x);
    GStep(21, 0x4a1d804e, 0x59a8ffda, 0xb5b204e4, 0xe25e1652, 10, 0x00000000, 0x02441453, 9, 0x6d002f1e, x);
    GStep(22, 0xe25e1652, 0x6d002f1e, 0x59a8ffda, 0xb5b204e4, 15, 0x00000000, 0xd8a1e681, 14, 0xabfc7920, x);
    GStep(23, 0xb5b204e4, 0xabfc7920, 0x6d002f1e, 0x59a8ffda, 4, 0x00000000, 0xe7d3fbc8, 20, 0x47092c07, x);
  }

  lemma AbcSteps24(x: seq<Word>)
    requires x == AbcWords()
    ensures Steps(24, R(0x59a8ffda, 0x47092c07, 0xabfc7920, 0x6d002f1e), x) ==
      Steps(32, R(0x790a77fb, 0x726342d3, 0xa62884aa, 0x9f47e4f8), x)
  {
    hide Steps, R;
    GStep(24, 0x59a8ffda, 0x47092c07, 0xabfc7920, 0x6d002f1e, 9, 0x00000000, 0x21e1cde6, 5, 0xb7f268cf, x);
    GStep(25, 0x6d002f1e, 0xb7f268cf, 0x47092c07, 0xabfc7920, 14, 0x00000018, 0xc33707d6, 9, 0x09388eff, x);
    GStep(26, 0xabfc7920, 0x09388eff, 0xb7f268cf, 0x47092c07, 3, 0x00000000, 0xf4d50d87, 14, 0xfe1623b1, x);
    GStep(27, 0x47092c07, 0xfe1623b1, 0x09388eff, 0xb7f268cf, 8, 0x00000000, 0x455a14ed, 20, 0x786acb8f, x);
    GStep(28, 0xb7f268cf, 0x786acb8f, 0xfe1623b1, 0x09388eff, 13, 0x00000000, 0xa9e3e905, 5, 0x790a77fb, x);
    GStep(29, 0x09388eff, 0x790a77fb, 0x786acb8f, 0xfe1623b1, 2, 0x00000000, 0xfcefa3f8, 9, 0x9f47e4f8, x);
    GStep(30, 0xfe1623b1, 0x9f47e4f8, 0x790a77fb, 0x786acb8f, 7, 0x00000000, 0x676f02d9, 14, 0xa62884aa, x);
    GStep(31, 0x786acb8f, 0xa62884aa, 0x9f47e4f8, 0x790a77fb, 12, 0x00000000, 0x8d2a4c8a, 20, 0x726342d3, x);
  }

  lemma AbcSteps32(x: seq<Word>)
    requires x == AbcWords()
    ensures Steps(32, R(0x790a77fb, 0x726342d3, 0xa62884aa, 0x9f47e4f8), x) ==
      Steps(40, R(0x21b117b9, 0x5a2f5ea5, 0x3575227e, 0x6e7429d5), x)
  {
    hide Steps, R;
    HStep(32, 0x790a77fb, 0x726342d3, 0xa62884aa, 0x9f47e4f8, 5, 0x00000000, 0xfffa3942, 4, 0xb3707ebf, x);
    HStep(33, 0x9f47e4f8, 0xb3707ebf, 0x726342d3, 0xa62884aa, 8, 0x00000000, 0x8771f681, 11, 0x60127b2e, x);
    HStep(34, 0xa62884aa, 0x60127b2e, 0xb3707ebf, 0x726342d3, 11, 0x00000000, 0x6d9d6122, 16, 0x8d212ff5, x);
    HStep(35, 0x726342d3, 0x8d212ff5, 0x60127b2e, 0xb3707ebf, 14, 0x00000018, 0xfde5380c, 23, 0x3b0875c7, x);
    HStep(36, 0xb3707ebf, 0x3b0875c7, 0x8d212ff5, 0x60127b2e, 1, 0x00000000, 0xa4beea44, 4, 0x21b117b9, x);
    HStep(37, 0x60127b2e, 0x21b117b9, 0x3b0875c7, 0x8d212ff5, 4, 0x00000000, 0x4bdecfa9, 11, 0x6e7429d5, x);
    HStep(38, 0x8d212ff5, 0x6e7429d5, 0x21b117b9, 0x3b0875c7, 7, 0x00000000, 0xf6bb4b60, 16, 0x3575227e, x);
    HStep(39, 0x3b0875c7, 0x3575227e, 0x6e7429d5, 0x21b117b9, 10, 0x00000000, 0xbebfbc70, 23, 0x5a2f5ea5, x);
  }

  lemma AbcSteps40(x: seq<Word>)
    requires x == AbcWords()
    ensures Steps(40, R(0x21b117b9, 0x5a2f5ea5, 0x3575227e, 0x6e7429d5), x) ==
      Steps(48, R(0x7f2e507b, 0x7beb9700, 0x8fae6399, 0x99d9679d), x)
  {
    hide Steps, R;
    HStep(40, 0x21b117b9, 0x5a2f5ea5, 0x3575227e, 0x6e7429d5, 13, 0x00000000, 0x289b7ec6, 4, 0x11de1779, x);
    HStep(41, 0x6e7429d5, 0x11de1779, 0x5a2f5ea5, 0x3575227e, 0, 0x80636261, 0xeaa127fa, 11, 0xfadcaa38, x);
    HStep(42, 0x3575227e, 0xfadcaa38, 0x11de1779, 0x5a2f5ea5, 3, 0x00000000, 0xd4ef3085, 16, 0x31c465ca, x);
    HStep(43, 0x5a2f5ea5, 0x31c465ca, 0xfadcaa38, 0x11de1779, 6, 0x00000000, 0x04881d05, 23, 0x4c6124f4, x);
    HStep(44, 0x11de1779, 0x4c6124f4, 0x31c465ca, 0xfadcaa38, 9, 0x00000000, 0xd9d4d039, 4, 0x7f2e507b, x);
    HStep(45, 0xfadcaa38, 0x7f2e507b, 0x4c6124f4, 0x31c465ca, 12, 0x00000000, 0xe6db99e5, 11, 0x99d9679d, x);
    HStep(46, 0x31c465ca, 0x99d9679d, 0x7f2e507b, 0x4c6124f4, 15, 0x00000000, 0x1fa27cf8, 16, 0x8fae6399, x);
    HStep(47, 0x4c6124f4, 0x8fae6399, 0x99d9679d, 0x7f2e507b, 2, 0x00000000, 0xc4ac5665, 23, 0x7beb9700, x);
  }

  lemma AbcSteps48(x: seq<Word>)
    requires x == AbcWords()
    ensures Steps(48, R(0x7f2e507b, 0x7beb9700, 0x8fae6399, 0x99d9679d), x) ==
      Steps(56, R(0x06cc5e8a, 0x3bfa2c27, 0x7d632dd0, 0x5b0d97aa), x)
  {
    hide Steps, R;
    IStep(48, 0x7f2e507b, 0x7beb9700, 0x8fae6399, 0x99d9679d, 0, 0x80636261, 0xf4292244, 6, 0x7b201df8, x);
    IStep(49, 0x99d9679d, 0x7b201df8, 0x7beb9700, 0x8fae6399, 7, 0x00000000, 0x432aff97, 10, 0xf4e8e96e, x);
    IStep(50, 0x8fae6399, 0xf4e8e96e, 0x7b201df8, 0x7beb9700, 14, 0x00000018, 0xab9423a7, 15, 0xb298cefd, x);
    IStep(51, 0x7beb9700, 0xb298cefd, 0xf4e8e96e, 0x7b201df8, 5, 0x00000000, 0xfc93a039, 21, 0x8bf025c4, x);
    IStep(52, 0x7b201df8, 0x8bf025c4, 0xb298cefd, 0xf4e8e96e, 12, 0x00000000, 0x655b59c3, 6, 0x06cc5e8a, x);
    IStep(53, 0xf4e8e96e, 0x06cc5e8a, 0x8bf025c4, 0xb298cefd, 3, 0x00000000, 0x8f0ccc92, 10, 0x5b0d97aa, x);
    IStep(54, 0xb298cefd, 0x5b0d97aa, 0x06cc5e8a, 0x8bf025c4, 10, 0x00000000, 0xffeff47d, 15, 0x7d632dd0, x);
    IStep(55, 0x8bf025c4, 0x7d632dd0, 0x5b0d97aa, 0x06cc5e8a, 1, 0x00000000, 0x85845dd1, 21, 0x3bfa2c27, x);
  }

  lemma AbcSteps56(x: seq<Word>)
    requires x == AbcWords()
    ensures Steps(56, R(0x06cc5e8a, 0x3bfa2c27, 0x7d632dd0, 0x5b0d97aa), x) ==
      Steps(64, R(0x310ade8f, 0xc08226b3, 0xe484b9d8, 0x624d8cb2), x)
  {
    hide Steps, R;
    IStep(56, 0x06cc5e8a, 0x3bfa2c27, 0x7d632dd0, 0x5b0d97aa, 8, 0x00000000, 0x6fa87e4f, 6, 0x7f81cc35, x);
    IStep(57, 0x5b0d97aa, 0x7f81cc35, 0x3bfa2c27, 0x7d632dd0, 15, 0x00000000, 0xfe2ce6e0, 10, 0x094454ab, x);
    IStep(58, 0x7d632dd0, 0x094454ab, 0x7f81cc35, 0x3bfa2c27, 6, 0x00000000, 0xa3014314, 15, 0x4f9dbe3f, x);
    IStep(59, 0x3bfa2c27, 0x4f9dbe3f, 0x094454ab, 0x7f81cc35, 13, 0x00000000, 0x4e0811a1, 21, 0x7327d604, x);
    IStep(60, 0x7f81cc35, 0x7327d604, 0x4f9dbe3f, 0x094454ab, 4, 0x00000000, 0xf7537e82, 6, 0x310ade8f, x);
    IStep(61, 0x094454ab, 0x310ade8f, 0x7327d604, 0x4f9dbe3f, 11, 0x00000000, 0xbd3af235, 10, 0x624d8cb2, x);
    IStep(62, 0x4f9dbe3f, 0x624d8cb2, 0x310ade8f, 0x7327d604, 2, 0x00000000, 0x2ad7d2bb, 15, 0xe484b9d8, x);
    IStep(63, 0x7327d604, 0xe484b9d8, 0x624d8cb2, 0x310ade8f, 9, 0x00000000, 0xeb86d391, 21, 0xc08226b3, x);
  }

  lemma AbcSum()
    ensures Add(INIT, R(0x310ade8f, 0xc08226b3, 0xe484b9d8, 0x624d8cb2)) ==
      R(0x98500190, 0xb04fd23c, 0x7d3f96d6, 0x727fe128)
  {
  }

  lemma AbcOctets(k: nat)
    requires k < 4
    ensures WordOctet(Word(0x98500190), k) == [0x90, 0x01, 0x50, 0x98][k]
    ensures WordOctet(Word(0xb04fd23c), k) == [0x3c, 0xd2, 0x4f, 0xb0][k]
    ensures WordOctet(Word(0x7d3f96d6), k) == [0xd6, 0x96, 0x3f, 0x7d][k]
    ensures WordOctet(Word(0x727fe128), k) == [0x28, 0xe1, 0x7f, 0x72][k]
  {
    if
    case k == 0 =>
    case k == 1 =>
    case k == 2 =>
    case k == 3 =>
  }

  /** Its digest. */
  lemma AbcDigest()
    ensures Digest([0x61, 0x62, 0x63]) == [0x90, 0x01, 0x50, 0x98, 0x3c, 0xd2, 0x4f, 0xb0,
      0xd6, 0x96, 0x3f, 0x7d, 0x28, 0xe1, 0x7f, 0x72]
  {
    hide Steps, Words, Padded, Add, Output, Digest, WordOctet, WordOf, R, AbcWords;
    AbcIsRead();
    var x := AbcWords();
    OneBlock([0x61, 0x62, 0x63], x);
    AbcSteps0(x);
    AbcSteps8(x);
    AbcSteps16(x);
    AbcSteps20(x);
    AbcSteps24(x);
    AbcSteps32(x);
    AbcSteps40(x);
    AbcSteps48(x);
    AbcSteps56(x);
    AbcEnds();
  }

  lemma AbcEnds()
    ensures Output(Add(INIT, Steps(64, R(0x310ade8f, 0xc08226b3, 0xe484b9d8, 0x624d8cb2), AbcWords()))) ==
      [0x90, 0x01, 0x50, 0x98, 0x3c, 0xd2, 0x4f, 0xb0,
      0xd6, 0x96, 0x3f, 0x7d, 0x28, 0xe1, 0x7f, 0x72]
    ensures INIT == R(0x67452301, 0xefcdab89, 0x98badcfe, 0x10325476)
  {
    hide WordOctet, Add;
    var x := AbcWords();
    StepsEnd(R(0x310ade8f, 0xc08226b3, 0xe484b9d8, 0x624d8cb2), x);
    AbcSum();
    forall k: nat | k < 4 { AbcOctets(k); }
  }

  /** The digest of "abc", given to md5_append in two parts. */
  method AbcInParts() returns (digest: seq<Byte>)
    ensures digest == [0x90, 0x01, 0x50, 0x98, 0x3c, 0xd2, 0x4f, 0xb0,
      0xd6, 0x96, 0x3f, 0x7d, 0x28, 0xe1, 0x7f, 0x72]
  {
    hide Digest;
    var parts: seq<seq<Byte>> := [[0x61], [0x62, 0x63]];
    digest := Streamed(parts);
    AbcDigest();
    assert |parts[..1]| == 1 && Concat(parts[..1][..0]) == [];
    assert Concat(parts[..1]) == [0x61] && Concat(parts) == [0x61, 0x62, 0x63];
  }
}
