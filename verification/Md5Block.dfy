/** The block function of MD5: RFC 1321 section 3.4, and md5_process of cmd/smyrna/md5.c. */
module Md5Block {

  type Byte = bv8
  datatype Word = Word(bits: bv32)

  /** Addition of words, that is, modulo 2^32. */
  function Sum(x: bv32, y: bv32): bv32 { x + y }
  function Plus(x: Word, y: Word): Word { Word(Sum(x.bits, y.bits)) }

  /** The registers A, B, C, D. */
  datatype Regs = Regs(a: Word, b: Word, c: Word, d: Word)

  // ---- section 3.4: the step that depends only on its number ----

  /** x <<< n. */
  function Rotl(x: Word, n: nat): Word
    requires n <= 32
  {
    Word(x.bits.RotateLeft(n))
  }

  function F(x: Word, y: Word, z: Word): Word { Word((x.bits & y.bits) | (!x.bits & z.bits)) }
  function G(x: Word, y: Word, z: Word): Word { Word((x.bits & z.bits) | (y.bits & !z.bits)) }
  function H(x: Word, y: Word, z: Word): Word { Word(x.bits ^ y.bits ^ z.bits) }
  function I(x: Word, y: Word, z: Word): Word { Word(y.bits ^ (x.bits | !z.bits)) }

  function Mix(i: nat, x: Word, y: Word, z: Word): Word {
    if i < 16 then F(x, y, z) else if i < 32 then G(x, y, z) else if i < 48 then H(x, y, z) else I(x, y, z)
  }

  /** Which word of the block step i adds. */
  function K(i: nat): (k: nat)
    ensures k < 16
  {
    if i < 16 then i else if i < 32 then (5 * i + 1) % 16 else if i < 48 then (3 * i + 5) % 16 else 7 * i % 16
  }

  const AMOUNTS: set<nat> := {4, 5, 6, 7, 9, 10, 11, 12, 14, 15, 16, 17, 20, 21, 22, 23}

  /** By how much step i rotates. */
  function S(i: nat): (s: nat)
    ensures s in AMOUNTS
  {
    if i < 16 then [7, 12, 17, 22][i % 4]
    else if i < 32 then [5, 9, 14, 20][i % 4]
    else if i < 48 then [4, 11, 16, 23][i % 4]
    else [6, 10, 15, 21][i % 4]
  }

  /** The integer part of 4294967296 times abs(sin(i + 1)). */
  function T(i: nat): bv32
    requires i < 64
  {
    if i < 4 then [0xd76aa478, 0xe8c7b756, 0x242070db, 0xc1bdceee][i % 4]
    else if i < 8 then [0xf57c0faf, 0x4787c62a, 0xa8304613, 0xfd469501][i % 4]
    else if i < 12 then [0x698098d8, 0x8b44f7af, 0xffff5bb1, 0x895cd7be][i % 4]
    else if i < 16 then [0x6b901122, 0xfd987193, 0xa679438e, 0x49b40821][i % 4]
    else if i < 20 then [0xf61e2562, 0xc040b340, 0x265e5a51, 0xe9b6c7aa][i % 4]
    else if i < 24 then [0xd62f105d, 0x02441453, 0xd8a1e681, 0xe7d3fbc8][i % 4]
    else if i < 28 then [0x21e1cde6, 0xc33707d6, 0xf4d50d87, 0x455a14ed][i % 4]
    else if i < 32 then [0xa9e3e905, 0xfcefa3f8, 0x676f02d9, 0x8d2a4c8a][i % 4]
    else if i < 36 then [0xfffa3942, 0x8771f681, 0x6d9d6122, 0xfde5380c][i % 4]
    else if i < 40 then [0xa4beea44, 0x4bdecfa9, 0xf6bb4b60, 0xbebfbc70][i % 4]
    else if i < 44 then [0x289b7ec6, 0xeaa127fa, 0xd4ef3085, 0x04881d05][i % 4]
    else if i < 48 then [0xd9d4d039, 0xe6db99e5, 0x1fa27cf8, 0xc4ac5665][i % 4]
    else if i < 52 then [0xf4292244, 0x432aff97, 0xab9423a7, 0xfc93a039][i % 4]
    else if i < 56 then [0x655b59c3, 0x8f0ccc92, 0xffeff47d, 0x85845dd1][i % 4]
    else if i < 60 then [0x6fa87e4f, 0xfe2ce6e0, 0xa3014314, 0x4e0811a1][i % 4]
    else [0xf7537e82, 0xbd3af235, 0x2ad7d2bb, 0xeb86d391][i % 4]
  }

  /** a = b + ((a + f(b,c,d) + X[k] + T[i]) <<< s), with f, k, s and T[i] from the number of the step. */
  function Op(i: nat, a: Word, b: Word, c: Word, d: Word, x: seq<Word>): Word
    requires i < 64 && |x| == 16
  {
    Plus(b, Rotl(Plus(Plus(Plus(a, Mix(i, b, c, d)), x[K(i)]), Word(T(i))), S(i)))
  }

  /** Steps i to 63, each of which also renames the registers. */
  function Steps(i: nat, r: Regs, x: seq<Word>): Regs
    requires i <= 64 && |x| == 16
    decreases 64 - i, |x|
  {
    if i == 64 then r else Steps(i + 1, Regs(r.d, Op(i, r.a, r.b, r.c, r.d, x), r.b, r.c), x)
  }

  /** Four bytes, low byte first. */
  function WordOf(s: seq<Byte>): Word
    requires |s| == 4
  {
    Word((s[0] as bv32) + ((s[1] as bv32) << 8) + ((s[2] as bv32) << 16) + ((s[3] as bv32) << 24))
  }

  /** Byte k of it stands in the bits from 8 * k on. */
  lemma WordBytes(s: seq<Byte>)
    requires |s| == 4
    ensures WordOf(s).bits & 0xff == s[0] as bv32 && (WordOf(s).bits >> 8) & 0xff == s[1] as bv32
    ensures (WordOf(s).bits >> 16) & 0xff == s[2] as bv32 && WordOf(s).bits >> 24 == s[3] as bv32
  {
  }

  function Words(block: seq<Byte>): (x: seq<Word>)
    requires |block| == 64
    ensures |x| == 16 && forall k :: 0 <= k < 16 ==> x[k] == WordOf(block[4 * k..4 * k + 4])
  {
    seq(16, k requires 0 <= k < 16 => WordOf(block[4 * k..4 * k + 4]))
  }

  function Add(r: Regs, s: Regs): Regs {
    Regs(Plus(r.a, s.a), Plus(r.b, s.b), Plus(r.c, s.c), Plus(r.d, s.d))
  }

  function Compress(r: Regs, block: seq<Byte>): Regs
    requires |block| == 64
  {
    Add(r, Steps(0, r, Words(block)))
  }

  // ---- the macros of md5.c ----

  const T_MASK: bv32 := 0xffffffff

  function Turn(x: bv32, n: nat): bv32
    requires 0 < n < 32
  {
    (x << n) | (x >> (32 - n))
  }

  function ROTATE_LEFT(x: Word, n: nat): Word
    requires 0 < n < 32
  {
    Word(Turn(x.bits, n))
  }

  /** SET with its function already applied. */
  function SET(f: Word, a: Word, b: Word, xk: Word, s: nat, ti: bv32): Word
    requires 0 < s < 32
  {
    Plus(ROTATE_LEFT(Plus(Plus(Plus(a, f), xk), Word(ti)), s), b)
  }

  lemma Shifts(x: bv32)
    ensures (x << 4) | (x >> 28) == x.RotateLeft(4) && (x << 5) | (x >> 27) == x.RotateLeft(5)
    ensures (x << 6) | (x >> 26) == x.RotateLeft(6) && (x << 7) | (x >> 25) == x.RotateLeft(7)
    ensures (x << 9) | (x >> 23) == x.RotateLeft(9) && (x << 10) | (x >> 22) == x.RotateLeft(10)
    ensures (x << 11) | (x >> 21) == x.RotateLeft(11) && (x << 12) | (x >> 20) == x.RotateLeft(12)
    ensures (x << 14) | (x >> 18) == x.RotateLeft(14) && (x << 15) | (x >> 17) == x.RotateLeft(15)
    ensures (x << 16) | (x >> 16) == x.RotateLeft(16) && (x << 17) | (x >> 15) == x.RotateLeft(17)
    ensures (x << 20) | (x >> 12) == x.RotateLeft(20) && (x << 21) | (x >> 11) == x.RotateLeft(21)
    ensures (x << 22) | (x >> 10) == x.RotateLeft(22) && (x << 23) | (x >> 9) == x.RotateLeft(23)
  {
  }

  /** The two shifts are a rotation. */
  lemma Rotation(x: Word, n: nat)
    requires n in AMOUNTS
    ensures ROTATE_LEFT(x, n) == Rotl(x, n)
  {
    Shifts(x.bits);
    if
    case n == 4 => assert ROTATE_LEFT(x, 4) == Rotl(x, 4);
    case n == 5 => assert ROTATE_LEFT(x, 5) == Rotl(x, 5);
    case n == 6 => assert ROTATE_LEFT(x, 6) == Rotl(x, 6);
    case n == 7 => assert ROTATE_LEFT(x, 7) == Rotl(x, 7);
    case n == 9 => assert ROTATE_LEFT(x, 9) == Rotl(x, 9);
    case n == 10 => assert ROTATE_LEFT(x, 10) == Rotl(x, 10);
    case n == 11 => assert ROTATE_LEFT(x, 11) == Rotl(x, 11);
    case n == 12 => assert ROTATE_LEFT(x, 12) == Rotl(x, 12);
    case n == 14 => assert ROTATE_LEFT(x, 14) == Rotl(x, 14);
    case n == 15 => assert ROTATE_LEFT(x, 15) == Rotl(x, 15);
    case n == 16 => assert ROTATE_LEFT(x, 16) == Rotl(x, 16);
    case n == 17 => assert ROTATE_LEFT(x, 17) == Rotl(x, 17);
    case n == 20 => assert ROTATE_LEFT(x, 20) == Rotl(x, 20);
    case n == 21 => assert ROTATE_LEFT(x, 21) == Rotl(x, 21);
    case n == 22 => assert ROTATE_LEFT(x, 22) == Rotl(x, 22);
    case n == 23 => assert ROTATE_LEFT(x, 23) == Rotl(x, 23);
  }

  lemma PlusCommutes(x: Word, y: Word)
    ensures Plus(x, y) == Plus(y, x)
  {
  }

  /** The word, the amount and the constant of step i. */
  predicate Numbers(i: nat, k: nat, s: nat, t: bv32)
    requires i < 64
  {
    k == K(i) && s == S(i) && t == T(i)
  }

  /** One macro is one step; the registers are then one name further. */
  lemma Step(i: nat, k: nat, s: nat, t: bv32, f: Word, a: Word, b: Word, c: Word, d: Word, x: seq<Word>)
    requires i < 64 && |x| == 16 && k < 16 && 0 < s < 32 && Numbers(i, k, s, t) && f == Mix(i, b, c, d)
    ensures Steps(i, Regs(a, b, c, d), x) == Steps(i + 1, Regs(d, SET(f, a, b, x[k], s, t), b, c), x)
  {
    hide Plus, Mix, K, S, T, Rotl, ROTATE_LEFT;
    var u := Plus(Plus(Plus(a, f), x[k]), Word(t));
    Rotation(u, s);
    PlusCommutes(b, Rotl(u, s));
  }

  method Round1(r: Regs, x: seq<Word>) returns (out: Regs)
    requires |x| == 16
    ensures Steps(0, r, x) == Steps(16, out, x)
  {
    hide Steps, Op, SET, F, G, H, I, Compress;
    var a, b, c, d := r.a, r.b, r.c, r.d;
    Step(0, 0, 7, T_MASK ^ 0x28955b87, F(b, c, d), a, b, c, d, x);
    a := SET(F(b, c, d), a, b, x[0], 7, T_MASK ^ 0x28955b87);
    Step(1, 1, 12, T_MASK ^ 0x173848a9, F(a, b, c), d, a, b, c, x);
    d := SET(F(a, b, c), d, a, x[1], 12, T_MASK ^ 0x173848a9);
    Step(2, 2, 17, 0x242070db, F(d, a, b), c, d, a, b, x);
    c := SET(F(d, a, b), c, d, x[2], 17, 0x242070db);
    Step(3, 3, 22, T_MASK ^ 0x3e423111, F(c, d, a), b, c, d, a, x);
    b := SET(F(c, d, a), b, c, x[3], 22, T_MASK ^ 0x3e423111);
    Step(4, 4, 7, T_MASK ^ 0x0a83f050, F(b, c, d), a, b, c, d, x);
    a := SET(F(b, c, d), a, b, x[4], 7, T_MASK ^ 0x0a83f050);
    Step(5, 5, 12, 0x4787c62a, F(a, b, c), d, a, b, c, x);
    d := SET(F(a, b, c), d, a, x[5], 12, 0x4787c62a);
    Step(6, 6, 17, T_MASK ^ 0x57cfb9ec, F(d, a, b), c, d, a, b, x);
    c := SET(F(d, a, b), c, d, x[6], 17, T_MASK ^ 0x57cfb9ec);
    Step(7, 7, 22, T_MASK ^ 0x02b96afe, F(c, d, a), b, c, d, a, x);
    b := SET(F(c, d, a), b, c, x[7], 22, T_MASK ^ 0x02b96afe);
    Step(8, 8, 7, 0x698098d8, F(b, c, d), a, b, c, d, x);
    a := SET(F(b, c, d), a, b, x[8], 7, 0x698098d8);
    Step(9, 9, 12, T_MASK ^ 0x74bb0850, F(a, b, c), d, a, b, c, x);
    d := SET(F(a, b, c), d, a, x[9], 12, T_MASK ^ 0x74bb0850);
    Step(10, 10, 17, T_MASK ^ 0x0000a44e, F(d, a, b), c, d, a, b, x);
    c := SET(F(d, a, b), c, d, x[10], 17, T_MASK ^ 0x0000a44e);
    Step(11, 11, 22, T_MASK ^ 0x76a32841, F(c, d, a), b, c, d, a, x);
    b := SET(F(c, d, a), b, c, x[11], 22, T_MASK ^ 0x76a32841);
    Step(12, 12, 7, 0x6b901122, F(b, c, d), a, b, c, d, x);
    a := SET(F(b, c, d), a, b, x[12], 7, 0x6b901122);
    Step(13, 13, 12, T_MASK ^ 0x02678e6c, F(a, b, c), d, a, b, c, x);
    d := SET(F(a, b, c), d, a, x[13], 12, T_MASK ^ 0x02678e6c);
    Step(14, 14, 17, T_MASK ^ 0x5986bc71, F(d, a, b), c, d, a, b, x);
    c := SET(F(d, a, b), c, d, x[14], 17, T_MASK ^ 0x5986bc71);
    Step(15, 15, 22, 0x49b40821, F(c, d, a), b, c, d, a, x);
    b := SET(F(c, d, a), b, c, x[15], 22, 0x49b40821);
    out := Regs(a, b, c, d);
  }

  method Round2(r: Regs, x: seq<Word>) returns (out: Regs)
    requires |x| == 16
    ensures Steps(16, r, x) == Steps(32, out, x)
  {
    hide Steps, Op, SET, F, G, H, I, Compress;
    var a, b, c, d := r.a, r.b, r.c, r.d;
    Step(16, 1, 5, T_MASK ^ 0x09e1da9d, G(b, c, d), a, b, c, d, x);
    a := SET(G(b, c, d), a, b, x[1], 5, T_MASK ^ 0x09e1da9d);
    Step(17, 6, 9, T_MASK ^ 0x3fbf4cbf, G(a, b, c), d, a, b, c, x);
    d := SET(G(a, b, c), d, a, x[6], 9, T_MASK ^ 0x3fbf4cbf);
    Step(18, 11, 14, 0x265e5a51, G(d, a, b), c, d, a, b, x);
    c := SET(G(d, a, b), c, d, x[11], 14, 0x265e5a51);
    Step(19, 0, 20, T_MASK ^ 0x16493855, G(c, d, a), b, c, d, a, x);
    b := SET(G(c, d, a), b, c, x[0], 20, T_MASK ^ 0x16493855);
    Step(20, 5, 5, T_MASK ^ 0x29d0efa2, G(b, c, d), a, b, c, d, x);
    a := SET(G(b, c, d), a, b, x[5], 5, T_MASK ^ 0x29d0efa2);
    Step(21, 10, 9, 0x02441453, G(a, b, c), d, a, b, c, x);
    d := SET(G(a, b, c), d, a, x[10], 9, 0x02441453);
    Step(22, 15, 14, T_MASK ^ 0x275e197e, G(d, a, b), c, d, a, b, x);
    c := SET(G(d, a, b), c, d, x[15], 14, T_MASK ^ 0x275e197e);
    Step(23, 4, 20, T_MASK ^ 0x182c0437, G(c, d, a), b, c, d, a, x);
    b := SET(G(c, d, a), b, c, x[4], 20, T_MASK ^ 0x182c0437);
    Step(24, 9, 5, 0x21e1cde6, G(b, c, d), a, b, c, d, x);
    a := SET(G(b, c, d), a, b, x[9], 5, 0x21e1cde6);
    Step(25, 14, 9, T_MASK ^ 0x3cc8f829, G(a, b, c), d, a, b, c, x);
    d := SET(G(a, b, c), d, a, x[14], 9, T_MASK ^ 0x3cc8f829);
    Step(26, 3, 14, T_MASK ^ 0x0b2af278, G(d, a, b), c, d, a, b, x);
    c := SET(G(d, a, b), c, d, x[3], 14, T_MASK ^ 0x0b2af278);
    Step(27, 8, 20, 0x455a14ed, G(c, d, a), b, c, d, a, x);
    b := SET(G(c, d, a), b, c, x[8], 20, 0x455a14ed);
    Step(28, 13, 5, T_MASK ^ 0x561c16fa, G(b, c, d), a, b, c, d, x);
    a := SET(G(b, c, d), a, b, x[13], 5, T_MASK ^ 0x561c16fa);
    Step(29, 2, 9, T_MASK ^ 0x03105c07, G(a, b, c), d, a, b, c, x);
    d := SET(G(a, b, c), d, a, x[2], 9, T_MASK ^ 0x03105c07);
    Step(30, 7, 14, 0x676f02d9, G(d, a, b), c, d, a, b, x);
    c := SET(G(d, a, b), c, d, x[7], 14, 0x676f02d9);
    Step(31, 12, 20, T_MASK ^ 0x72d5b375, G(c, d, a), b, c, d, a, x);
    b := SET(G(c, d, a), b, c, x[12], 20, T_MASK ^ 0x72d5b375);
    out := Regs(a, b, c, d);
  }

  method Round3(r: Regs, x: seq<Word>) returns (out: Regs)
    requires |x| == 16
    ensures Steps(32, r, x) == Steps(48, out, x)
  {
    hide Steps, Op, SET, F, G, H, I, Compress;
    var a, b, c, d := r.a, r.b, r.c, r.d;
    Step(32, 5, 4, T_MASK ^ 0x0005c6bd, H(b, c, d), a, b, c, d, x);
    a := SET(H(b, c, d), a, b, x[5], 4, T_MASK ^ 0x0005c6bd);
    Step(33, 8, 11, T_MASK ^ 0x788e097e, H(a, b, c), d, a, b, c, x);
    d := SET(H(a, b, c), d, a, x[8], 11, T_MASK ^ 0x788e097e);
    Step(34, 11, 16, 0x6d9d6122, H(d, a, b), c, d, a, b, x);
    c := SET(H(d, a, b), c, d, x[11], 16, 0x6d9d6122);
    Step(35, 14, 23, T_MASK ^ 0x021ac7f3, H(c, d, a), b, c, d, a, x);
    b := SET(H(c, d, a), b, c, x[14], 23, T_MASK ^ 0x021ac7f3);
    Step(36, 1, 4, T_MASK ^ 0x5b4115bb, H(b, c, d), a, b, c, d, x);
    a := SET(H(b, c, d), a, b, x[1], 4, T_MASK ^ 0x5b4115bb);
    Step(37, 4, 11, 0x4bdecfa9, H(a, b, c), d, a, b, c, x);
    d := SET(H(a, b, c), d, a, x[4], 11, 0x4bdecfa9);
    Step(38, 7, 16, T_MASK ^ 0x0944b49f, H(d, a, b), c, d, a, b, x);
    c := SET(H(d, a, b), c, d, x[7], 16, T_MASK ^ 0x0944b49f);
    Step(39, 10, 23, T_MASK ^ 0x4140438f, H(c, d, a), b, c, d, a, x);
    b := SET(H(c, d, a), b, c, x[10], 23, T_MASK ^ 0x4140438f);
    Step(40, 13, 4, 0x289b7ec6, H(b, c, d), a, b, c, d, x);
    a := SET(H(b, c, d), a, b, x[13], 4, 0x289b7ec6);
    Step(41, 0, 11, T_MASK ^ 0x155ed805, H(a, b, c), d, a, b, c, x);
    d := SET(H(a, b, c), d, a, x[0], 11, T_MASK ^ 0x155ed805);
    Step(42, 3, 16, T_MASK ^ 0x2b10cf7a, H(d, a, b), c, d, a, b, x);
    c := SET(H(d, a, b), c, d, x[3], 16, T_MASK ^ 0x2b10cf7a);
    Step(43, 6, 23, 0x04881d05, H(c, d, a), b, c, d, a, x);
    b := SET(H(c, d, a), b, c, x[6], 23, 0x04881d05);
    Step(44, 9, 4, T_MASK ^ 0x262b2fc6, H(b, c, d), a, b, c, d, x);
    a := SET(H(b, c, d), a, b, x[9], 4, T_MASK ^ 0x262b2fc6);
    Step(45, 12, 11, T_MASK ^ 0x1924661a, H(a, b, c), d, a, b, c, x);
    d := SET(H(a, b, c), d, a, x[12], 11, T_MASK ^ 0x1924661a);
    Step(46, 15, 16, 0x1fa27cf8, H(d, a, b), c, d, a, b, x);
    c := SET(H(d, a, b), c, d, x[15], 16, 0x1fa27cf8);
    Step(47, 2, 23, T_MASK ^ 0x3b53a99a, H(c, d, a), b, c, d, a, x);
    b := SET(H(c, d, a), b, c, x[2], 23, T_MASK ^ 0x3b53a99a);
    out := Regs(a, b, c, d);
  }

  method Round4(r: Regs, x: seq<Word>) returns (out: Regs)
    requires |x| == 16
    ensures Steps(48, r, x) == Steps(64, out, x)
  {
    hide Steps, Op, SET, F, G, H, I, Compress;
    var a, b, c, d := r.a, r.b, r.c, r.d;
    Step(48, 0, 6, T_MASK ^ 0x0bd6ddbb, I(b, c, d), a, b, c, d, x);
    a := SET(I(b, c, d), a, b, x[0], 6, T_MASK ^ 0x0bd6ddbb);
    Step(49, 7, 10, 0x432aff97, I(a, b, c), d, a, b, c, x);
    d := SET(I(a, b, c), d, a, x[7], 10, 0x432aff97);
    Step(50, 14, 15, T_MASK ^ 0x546bdc58, I(d, a, b), c, d, a, b, x);
    c := SET(I(d, a, b), c, d, x[14], 15, T_MASK ^ 0x546bdc58);
    Step(51, 5, 21, T_MASK ^ 0x036c5fc6, I(c, d, a), b, c, d, a, x);
    b := SET(I(c, d, a), b, c, x[5], 21, T_MASK ^ 0x036c5fc6);
    Step(52, 12, 6, 0x655b59c3, I(b, c, d), a, b, c, d, x);
    a := SET(I(b, c, d), a, b, x[12], 6, 0x655b59c3);
    Step(53, 3, 10, T_MASK ^ 0x70f3336d, I(a, b, c), d, a, b, c, x);
    d := SET(I(a, b, c), d, a, x[3], 10, T_MASK ^ 0x70f3336d);
    Step(54, 10, 15, T_MASK ^ 0x00100b82, I(d, a, b), c, d, a, b, x);
    c := SET(I(d, a, b), c, d, x[10], 15, T_MASK ^ 0x00100b82);
    Step(55, 1, 21, T_MASK ^ 0x7a7ba22e, I(c, d, a), b, c, d, a, x);
    b := SET(I(c, d, a), b, c, x[1], 21, T_MASK ^ 0x7a7ba22e);
    Step(56, 8, 6, 0x6fa87e4f, I(b, c, d), a, b, c, d, x);
    a := SET(I(b, c, d), a, b, x[8], 6, 0x6fa87e4f);
    Step(57, 15, 10, T_MASK ^ 0x01d3191f, I(a, b, c), d, a, b, c, x);
    d := SET(I(a, b, c), d, a, x[15], 10, T_MASK ^ 0x01d3191f);
    Step(58, 6, 15, T_MASK ^ 0x5cfebceb, I(d, a, b), c, d, a, b, x);
    c := SET(I(d, a, b), c, d, x[6], 15, T_MASK ^ 0x5cfebceb);
    Step(59, 13, 21, 0x4e0811a1, I(c, d, a), b, c, d, a, x);
    b := SET(I(c, d, a), b, c, x[13], 21, 0x4e0811a1);
    Step(60, 4, 6, T_MASK ^ 0x08ac817d, I(b, c, d), a, b, c, d, x);
    a := SET(I(b, c, d), a, b, x[4], 6, T_MASK ^ 0x08ac817d);
    Step(61, 11, 10, T_MASK ^ 0x42c50dca, I(a, b, c), d, a, b, c, x);
    d := SET(I(a, b, c), d, a, x[11], 10, T_MASK ^ 0x42c50dca);
    Step(62, 2, 15, 0x2ad7d2bb, I(d, a, b), c, d, a, b, x);
    c := SET(I(d, a, b), c, d, x[2], 15, 0x2ad7d2bb);
    Step(63, 9, 21, T_MASK ^ 0x14792c6e, I(c, d, a), b, c, d, a, x);
    b := SET(I(c, d, a), b, c, x[9], 21, T_MASK ^ 0x14792c6e);
    out := Regs(a, b, c, d);
  }
}
