/** The message digest of RFC 1321 and the streaming interface of cmd/smyrna/md5.c.

    A word of the bit count is a natural number below 2^32; every wrap-around is written out. */
module Md5 {
  import opened Md5Block

  const WORDS := 0x1_0000_0000
  const INIT := Regs(Word(0x67452301), Word(0xefcdab89), Word(0x98badcfe), Word(0x10325476))

  // ---- RFC 1321 ----

  /** Section 3.4 over all blocks of s. */
  function Fold(r: Regs, s: seq<Byte>): Regs
    requires |s| % 64 == 0
    decreases |s|
  {
    if s == [] then r else Fold(Compress(r, s[..64]), s[64..])
  }

  /** Section 3.1: one bit, then zero bits, up to 56 bytes modulo 64; at least one byte. */
  function Padding(n: nat): (p: seq<Byte>)
    ensures 1 <= |p| <= 64 && (n + |p|) % 64 == 56
  {
    [0x80] + seq((55 - n) % 64, _ => 0)
  }

  /** Byte k of a word, counted from the low one. */
  function Octet(w: nat, k: nat): Byte
    requires k < 4
  {
    (w / [1, 0x100, 0x1_0000, 0x100_0000][k] % 256) as Byte
  }

  /** Section 3.2: the length in bits as two words, low word and low byte first. */
  function LengthBytes(bits: nat): (s: seq<Byte>)
    ensures |s| == 8
  {
    seq(4, k requires 0 <= k < 4 => Octet(bits % WORDS, k))
    + seq(4, k requires 0 <= k < 4 => Octet(bits / WORDS % WORDS, k))
  }

  /** Byte k of a word w, which is b in the digits of base 256. */
  lemma OctetIs(w: nat, k: nat, d: nat, q: nat, b: nat)
    requires k < 4 && d == [1, 0x100, 0x1_0000, 0x100_0000][k] && b < 256 && w / d == 256 * q + b
    ensures Octet(w, k) == b as Byte
  {
    Remains(w / d, q, b);
  }

  lemma Remains(n: nat, q: nat, b: nat)
    requires b < 256 && n == 256 * q + b
    ensures n % 256 == b
  {
  }

  /** A length of more than 64 bits, in which every byte is different: the low one comes first, and what does not fit
      into eight bytes is left out. */
  lemma LongLength()
    ensures var s := LengthBytes(0x5_0123_4567_89ab_cdef);
      && s[0] == 0xef && s[1] == 0xcd && s[2] == 0xab && s[3] == 0x89
      && s[4] == 0x67 && s[5] == 0x45 && s[6] == 0x23 && s[7] == 0x01
  {
    hide Octet;
    OctetIs(0x89ab_cdef, 0, 1, 0x89_abcd, 0xef);
    OctetIs(0x89ab_cdef, 1, 0x100, 0x89ab, 0xcd);
    OctetIs(0x89ab_cdef, 2, 0x1_0000, 0x89, 0xab);
    OctetIs(0x89ab_cdef, 3, 0x100_0000, 0, 0x89);
    OctetIs(0x0123_4567, 0, 1, 0x1_2345, 0x67);
    OctetIs(0x0123_4567, 1, 0x100, 0x123, 0x45);
    OctetIs(0x0123_4567, 2, 0x1_0000, 0x1, 0x23);
    OctetIs(0x0123_4567, 3, 0x100_0000, 0, 0x01);
    LengthAt(0x5_0123_4567_89ab_cdef, 0x89ab_cdef, 0x0123_4567);
  }

  lemma LengthAt(bits: nat, low: nat, high: nat)
    requires low == bits % WORDS && high == bits / WORDS % WORDS
    ensures var s := LengthBytes(bits);
      && s[0] == Octet(low, 0) && s[1] == Octet(low, 1) && s[2] == Octet(low, 2) && s[3] == Octet(low, 3)
      && s[4] == Octet(high, 0) && s[5] == Octet(high, 1) && s[6] == Octet(high, 2) && s[7] == Octet(high, 3)
  {
    hide Octet;
  }

  function Padded(m: seq<Byte>): (s: seq<Byte>)
    ensures |s| % 64 == 0
  {
    m + Padding(|m|) + LengthBytes(8 * |m|)
  }

  function Select(r: Regs, i: nat): Word
    requires i < 4
  {
    if i == 0 then r.a else if i == 1 then r.b else if i == 2 then r.c else r.d
  }

  function WordOctet(w: Word, k: nat): Byte
    requires k < 4
  {
    ((w.bits >> (8 * k)) & 0xff) as Byte
  }

  /** Section 3.5: the low byte of A first. */
  function Output(r: Regs): (s: seq<Byte>)
    ensures |s| == 16
  {
    seq(16, i requires 0 <= i < 16 => WordOctet(Select(r, i / 4), i % 4))
  }

  function Digest(m: seq<Byte>): (s: seq<Byte>)
    ensures |s| == 16
  {
    Output(Fold(INIT, Padded(m)))
  }

  // ---- a message in pieces ----

  lemma {:induction false} FoldAppend(r: Regs, s: seq<Byte>, t: seq<Byte>)
    requires |s| % 64 == 0 && |t| % 64 == 0
    ensures Fold(r, s + t) == Fold(Fold(r, s), t)
    decreases |s|
  {
    hide Compress;
    if s == [] {
      assert s + t == t;
    } else {
      assert (s + t)[..64] == s[..64] && (s + t)[64..] == s[64..] + t;
      FoldAppend(Compress(r, s[..64]), s[64..], t);
    }
  }

  lemma FoldOne(r: Regs, s: seq<Byte>)
    requires |s| == 64
    ensures Fold(r, s) == Compress(r, s)
  {
    hide Compress;
    assert s[..64] == s && s[64..] == [];
  }

  function Whole(m: seq<Byte>): (s: seq<Byte>)
    ensures |s| % 64 == 0 && |s| == |m| - |m| % 64
  {
    m[..|m| - |m| % 64]
  }

  function Rest(m: seq<Byte>): (s: seq<Byte>)
    ensures |s| == |m| % 64 && m == Whole(m) + s
  {
    m[|m| - |m| % 64..]
  }

  lemma ModShift(n: int, k: int)
    ensures (n - 64 * k) % 64 == n % 64
  {
    var q := n / 64;
    assert n - 64 * k == 64 * (q - k) + n % 64;
  }

  lemma Cut(s: seq<Byte>, k: nat)
    requires k <= |s| && k % 64 == 0
    ensures Whole(s) == s[..k] + Whole(s[k..]) && Rest(s) == Rest(s[k..])
  {
    var n := |s| - |s| % 64;
    ModShift(|s|, k / 64);
    assert |s[k..]| % 64 == |s| % 64;
    assert s[..n] == s[..k] + s[k..][..n - k];
    assert s[n..] == s[k..][n - k..];
  }

  /** Only the bytes not yet in a block matter for what comes next. */
  lemma Continue(m: seq<Byte>, d: seq<Byte>)
    ensures Fold(INIT, Whole(m + d)) == Fold(Fold(INIT, Whole(m)), Whole(Rest(m) + d))
    ensures Rest(m + d) == Rest(Rest(m) + d)
  {
    hide Fold, Whole, Rest;
    var k := |Whole(m)|;
    Cut(m + d, k);
    assert m + d == Whole(m) + (Rest(m) + d);
    assert (m + d)[..k] == Whole(m) && (m + d)[k..] == Rest(m) + d;
    FoldAppend(INIT, Whole(m), Whole(Rest(m) + d));
  }

  // ---- the bit count ----

  /** The cast of nbytes << 3 to a word. */
  function Bits(nbytes: nat): (w: nat)
    ensures w < WORDS
  {
    8 * nbytes % WORDS
  }

  /** The two words hold the number of bits of len bytes modulo 2^64. */
  predicate Counts(lo: nat, hi: nat, len: nat) {
    lo == 8 * len % WORDS && hi == 8 * len / WORDS % WORDS
  }

  lemma Wraps(n: nat)
    ensures (n % WORDS + 1) % WORDS == (n + 1) % WORDS
  {
  }

  lemma CountInBlock(lo: nat, hi: nat, len: nat)
    requires Counts(lo, hi, len)
    ensures lo / 8 % 64 == len % 64
  {
    var q := 8 * len / WORDS;
    assert lo == 8 * (len - 0x2000_0000 * q);
    assert lo / 8 == len - 64 * (0x80_0000 * q);
    ModShift(len, 0x80_0000 * q);
  }

  lemma CountAdds(lo: nat, hi: nat, len: nat, n: nat)
    requires Counts(lo, hi, len)
    ensures var lo1 := (lo + Bits(n)) % WORDS;
      var hi1 := (hi + n / 0x2000_0000 + if lo1 < Bits(n) then 1 else 0) % WORDS;
      Counts(lo1, hi1, len + n)
  {
    var lo1 := (lo + Bits(n)) % WORDS;
    assert 8 * n == WORDS * (n / 0x2000_0000) + Bits(n);
    assert 8 * len == WORDS * (8 * len / WORDS) + lo;
    var carry := if lo1 < Bits(n) then 1 else 0;
    assert lo + Bits(n) == WORDS * carry + lo1;
    var q := 8 * len / WORDS + n / 0x2000_0000 + carry;
    assert 8 * (len + n) == WORDS * q + lo1;
    assert 8 * (len + n) / WORDS == q;
    assert q % WORDS == (hi + n / 0x2000_0000 + carry) % WORDS;
  }

  method Memcpy(dst: array<Byte>, at: nat, src: array<Byte>, from: nat, n: nat)
    requires dst != src && at + n <= dst.Length && from + n <= src.Length
    modifies dst
    ensures dst[..at] == old(dst[..at]) && dst[at..at + n] == src[from..from + n]
    ensures dst[at + n..] == old(dst[at + n..])
  {
    forall j | 0 <= j < n { dst[at + j] := src[from + j]; }
  }

  lemma FoldNone(r: Regs)
    ensures Fold(r, []) == r
  {
  }

  /** The buffer after the first copy. */
  lemma Filled(t: seq<Byte>, d: seq<Byte>, buf: seq<Byte>, n: nat)
    requires |t| + n <= |buf| && n <= |d| && buf[..|t|] == t && buf[|t|..|t| + n] == d[0..n]
    ensures buf[..|t| + n] == (t + d)[..|t| + n]
  {
    assert buf[..|t| + n] == buf[..|t|] + buf[|t|..|t| + n];
  }

  lemma Ends(s: seq<Byte>, q: nat)
    requires q % 64 == 0 && q <= |s| < q + 64
    ensures Whole(s) == s[..q] && Rest(s) == s[q..] && |s| % 64 == |s| - q
  {
    assert |s| % 64 == |s| - q;
  }

  /** The block from the buffer and the blocks from the data are the whole of both. */
  lemma FeedEnds(r: Regs, t: seq<Byte>, d: seq<Byte>, p0: nat, p: nat)
    requires p0 <= p <= |d| < p + 64 && (|t| + p0) % 64 == 0 && (p - p0) % 64 == 0
    ensures Fold(Fold(r, (t + d)[..|t| + p0]), d[p0..p]) == Fold(r, Whole(t + d))
    ensures Rest(t + d) == d[p..] && |t + d| % 64 == |d| - p
  {
    hide Fold, Whole, Rest;
    var s := t + d;
    Ends(s, |t| + p);
    assert s[..|t| + p] == s[..|t| + p0] + d[p0..p];
    assert s[|t| + p..] == d[p..];
    FoldAppend(r, s[..|t| + p0], d[p0..p]);
  }

  /** md5_state_t. */
  class State {
    var count0: nat
    var count1: nat
    var abcd: Regs
    const buf: array<Byte>

    /** The state holds message m. */
    ghost predicate Holds(m: seq<Byte>)
      reads this, buf
    {
      && buf.Length == 64
      && Counts(count0, count1, |m|)
      && abcd == Fold(INIT, Whole(m))
      && buf[..|m| % 64] == Rest(m)
    }

    /** md5_init. */
    constructor ()
      ensures Holds([]) && fresh(buf)
    {
      count0, count1 := 0, 0;
      abcd := Regs(Word(0x67452301), Word(T_MASK ^ 0x10325476), Word(T_MASK ^ 0x67452301), Word(0x10325476));
      buf := new Byte[64];
    }

    /** md5_process. */
    method Process(data: array<Byte>, at: nat)
      requires at + 64 <= data.Length
      modifies `abcd
      ensures abcd == Compress(old(abcd), data[at..at + 64])
    {
      hide Steps, WordOf, Plus;
      var x := Words(data[at..at + 64]);
      var r := Round1(abcd, x);
      r := Round2(r, x);
      r := Round3(r, x);
      r := Round4(r, x);
      StepsEnd(r, x);
      abcd := Add(abcd, r);
    }

    /** The part of md5_append that updates the message length. */
    method Count(nbytes: nat, ghost len: nat)
      requires Counts(count0, count1, len)
      modifies `count0, `count1
      ensures Counts(count0, count1, len + nbytes)
    {
      hide Bits, Counts;
      CountAdds(count0, count1, len, nbytes);
      Wraps(count1 + nbytes / 0x2000_0000);
      var nbits := Bits(nbytes);
      count1 := (count1 + nbytes / 0x2000_0000) % WORDS;
      count0 := (count0 + nbits) % WORDS;
      if count0 < nbits {
        count1 := (count1 + 1) % WORDS;
      }
    }

    /** The rest of md5_append: a partial block, full blocks, and what is left. */
    method Feed(data: array<Byte>, nbytes: nat, offset: nat)
      requires buf.Length == 64 && data != buf && 0 < nbytes <= data.Length && offset < 64
      modifies `abcd, buf
      ensures var s := old(buf[..offset]) + data[..nbytes];
        abcd == Fold(old(abcd), Whole(s)) && buf[..|s| % 64] == Rest(s)
    {
      hide Fold, Compress, Whole, Rest;
      ghost var t, d := buf[..offset], data[..nbytes];
      ghost var r := abcd;
      FoldNone(r);
      var p := 0;
      if offset != 0 {
        var copy := if offset + nbytes > 64 then 64 - offset else nbytes;
        Memcpy(buf, offset, data, 0, copy);
        Filled(t, d, buf[..], copy);
        p := copy;
        if offset + copy < 64 {
          Ends(t + d, 0);
          return;
        }
        Process(buf, 0);
        FoldOne(r, buf[0..64]);
      }
      ghost var first := if offset == 0 then [] else buf[0..64];
      assert abcd == Fold(r, first) && first == (t + d)[..|first|] && |first| == offset + p;
      ghost var p0 := p;
      p := FullBlocks(data, p, nbytes);
      FeedEnds(r, t, d, p0, p);
      assert d[p0..p] == data[p0..p];
      var left := nbytes - p;
      assert d[p..] == data[p..p + left];
      if left > 0 {
        Memcpy(buf, 0, data, p, left);
        assert buf[..left] == buf[0..0 + left];
      }
    }

    /** The loop of md5_append. */
    method FullBlocks(data: array<Byte>, from: nat, nbytes: nat) returns (p: nat)
      requires from <= nbytes <= data.Length
      modifies `abcd
      ensures from <= p <= nbytes < p + 64 && (p - from) % 64 == 0
      ensures abcd == Fold(old(abcd), data[from..p])
    {
      hide Fold, Compress;
      p := from;
      FoldNone(abcd);
      assert data[from..p] == [];
      while nbytes - p >= 64
        invariant from <= p <= nbytes && (p - from) % 64 == 0
        invariant abcd == Fold(old(abcd), data[from..p])
        modifies `abcd
      {
        assert data[from..p + 64] == data[from..p] + data[p..p + 64];
        FoldAppend(old(abcd), data[from..p], data[p..p + 64]);
        FoldOne(abcd, data[p..p + 64]);
        Process(data, p);
        p := p + 64;
      }
    }

    /** md5_append, while the state holds m. */
    method Append(data: array<Byte>, nbytes: int, ghost m: seq<Byte>)
      requires Holds(m) && data != buf && nbytes <= data.Length && nbytes < 0x8000_0000
      modifies this, buf
      ensures Holds(m + if nbytes <= 0 then [] else data[..nbytes])
    {
      hide Counts, Fold, Whole;
      var offset := count0 / 8 % 64;
      CountInBlock(count0, count1, |m|);
      if nbytes <= 0 {
        assert m + [] == m;
        return;
      }
      Continue(m, data[..nbytes]);
      Count(nbytes, |m|);
      Feed(data, nbytes, offset);
    }

    /** The part of md5_finish that saves the length. */
    method SaveLength(ghost len: nat) returns (data: array<Byte>)
      requires Counts(count0, count1, len)
      ensures fresh(data) && data[..] == LengthBytes(8 * len)
    {
      hide Counts, Octet;
      data := new Byte[8];
      for i := 0 to 8
        invariant forall j :: 0 <= j < i ==> data[j] == Octet(if j < 4 then count0 else count1, j % 4)
        modifies data
      {
        data[i] := Octet(if i / 4 == 0 then count0 else count1, i % 4);
      }
      LengthIs(data[..], count0, count1, len);
    }

    /** The part of md5_finish that pads to 56 bytes mod 64. */
    method Pad(ghost m: seq<Byte>)
      requires Holds(m)
      modifies this, buf
      ensures Holds(m + Padding(|m|))
    {
      hide Counts, Fold, Whole, Rest, Padding, Holds;
      HoldsMeans(this, m);
      CountInBlock(count0, count1, |m|);
      var pad := new Byte[64](i => if i == 0 then 0x80 else 0);
      var n := (55 - count0 / 8) % 64 + 1;
      PadLength(count0 / 8, |m|);
      PadIs(pad[..], |m|, n);
      assert 1 <= n <= 64;
      Append(pad, n, m);
    }

    /** md5_finish. */
    method Finish(ghost m: seq<Byte>) returns (digest: array<Byte>)
      requires Holds(m)
      modifies this, buf
      ensures fresh(digest) && digest[..] == Digest(m)
    {
      hide Counts, Fold, Whole, Rest, WordOctet, Select, Padding, LengthBytes, Output, Digest, Holds;
      HoldsMeans(this, m);
      var data := SaveLength(|m|);
      Pad(m);
      assert data[..8] == data[..];
      Append(data, 8, m + Padding(|m|));
      DigestIs(this, m);
      digest := new Byte[16](i requires 0 <= i < 16 reads this => WordOctet(Select(abcd, i / 4), i % 4));
      OutputIs(abcd, digest[..]);
    }
  }

  lemma HoldsMeans(st: State, m: seq<Byte>)
    requires st.Holds(m)
    ensures Counts(st.count0, st.count1, |m|) && st.abcd == Fold(INIT, Whole(m)) && st.buf.Length == 64
  {
  }

  lemma DigestIs(st: State, m: seq<Byte>)
    requires st.Holds(m + Padding(|m|) + LengthBytes(8 * |m|))
    ensures Output(st.abcd) == Digest(m)
  {
    hide Counts, Fold, Whole, Padding, Output, LengthBytes, st.Holds;
    var s := Padded(m);
    HoldsMeans(st, s);
    Ends(s, |s|);
    assert s[..|s|] == s;
  }

  lemma LengthIs(data: seq<Byte>, lo: nat, hi: nat, len: nat)
    requires |data| == 8 && Counts(lo, hi, len)
    requires forall j :: 0 <= j < 8 ==> data[j] == Octet(if j < 4 then lo else hi, j % 4)
    ensures data == LengthBytes(8 * len)
  {
    hide Octet;
  }

  lemma OutputIs(r: Regs, out: seq<Byte>)
    requires |out| == 16 && forall i :: 0 <= i < 16 ==> out[i] == WordOctet(Select(r, i / 4), i % 4)
    ensures out == Output(r)
  {
    hide WordOctet, Select;
  }

  lemma PadLength(a: nat, b: nat)
    requires a % 64 == b % 64
    ensures (55 - a) % 64 == (55 - b) % 64
  {
    ModShift(55 - a % 64, a / 64);
    ModShift(55 - b % 64, b / 64);
  }

  lemma PadIs(pad: seq<Byte>, len: nat, n: nat)
    requires |pad| == 64 && pad[0] == 0x80 && (forall i :: 1 <= i < 64 ==> pad[i] == 0) && n == (55 - len) % 64 + 1
    ensures pad[..n] == Padding(len)
  {
  }

  lemma StepsEnd(r: Regs, x: seq<Word>)
    requires |x| == 16
    ensures Steps(64, r, x) == r
  {
  }

  function Concat(parts: seq<seq<Byte>>): seq<Byte> {
    if parts == [] then [] else Concat(parts[..|parts| - 1]) + parts[|parts| - 1]
  }

  /** However a message is cut into calls of md5_append, empty ones included, the digest is that of
      the whole message. */
  method Streamed(parts: seq<seq<Byte>>) returns (digest: seq<Byte>)
    requires forall p :: p in parts ==> |p| < 0x8000_0000
    ensures digest == Digest(Concat(parts))
  {
    hide Digest, State.Holds;
    var st := new State();
    for k := 0 to |parts|
      invariant st.Holds(Concat(parts[..k]))
      invariant fresh(st) && fresh(st.buf)
    {
      var data := new Byte[|parts[k]|](i requires 0 <= i < |parts[k]| => parts[k][i]);
      st.Append(data, data.Length, Concat(parts[..k]));
      assert data[..] == parts[k];
      assert parts[..k + 1][..k] == parts[..k];
      assert data[..data.Length] == parts[k];
      assert Concat(parts[..k + 1]) == Concat(parts[..k]) + parts[k];
      if |parts[k]| == 0 { assert Concat(parts[..k]) + parts[k] == Concat(parts[..k]); }
    }
    assert parts[..|parts|] == parts;
    var out := st.Finish(Concat(parts));
    digest := out[..];
  }
}
