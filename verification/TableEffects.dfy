/** What the operations on a table do to its entries, bucket numbers and rooms, told entry by entry. */
module TableEffects {
  import C = Collector
  import opened Table
  import opened TableOps

  // ---- bucket numbers ----

  /** A whole number in `long`, a negative one as its two's complement. */
  lemma WholeBucket(ln: nat, i: int)
    requires ln > 0 && -0x8000_0000_0000_0000 <= i < 0x8000_0000_0000_0000
    ensures Index(ln, KInt(i)) == (if i >= 0 then i else 18446744073709551616 + i) % ln
  {
  }

  /** A real number is cut towards zero. */
  lemma RealBucket(ln: nat, i: nat, r: real)
    requires ln > 0 && i < 0x8000_0000_0000_0000 && i as real <= r < i as real + 1.0
    ensures Index(ln, KReal(r)) == i % ln
    ensures Index(ln, KReal(-r)) == (if i == 0 then 0 else 18446744073709551616 - i) % ln
  {
    assert r.Floor == i;
    assert -(-r) == r;
    assert Trunc(r) == i;
    if i == 0 {
      assert Trunc(-r) == 0;
    } else {
      assert Trunc(-r) + i == 0;
      WholeBucket(ln, 0 - i);
    }
  }

  /** A string goes by its first character. */
  lemma StringBucket(ln: nat, c: char, s: string)
    requires ln > 0
    ensures Index(ln, KStr("")) == 0 && Index(ln, KStr([c] + s)) == c as int % ln
  {
    assert ([c] + s)[0] == c;
  }

  /** Treal makes an integer of a whole number. */
  lemma MadeKeys(i: int, r: real, s: string)
    requires i as real < r < i as real + 1.0
    ensures Made(KInt(i)) == KInt(i) && Made(KReal(i as real)) == KInt(i)
    ensures Made(KReal(r)) == KReal(r) && Made(KStr(s)) == KStr(s)
  {
    TruncInt(i);
    if r >= 0.0 {
      assert r.Floor == i;
    } else {
      assert (-r).Floor == 0 - i - 1;
    }
  }

  // ---- entries ----

  /** Insertion under a key that is there changes one value and nothing else. */
  lemma SetsOne(ls: seq<List>, k: Key, i: nat, vo: C.Ptr)
    requires |ls| > 0 && i < |Kv(ls[Index(|ls|, k)])|
    ensures var es, fs, q := Flat(ls), Flat(Overwritten(ls, k, i, vo)), |Flat(ls[..Index(|ls|, k)])| + i;
      && |fs| == |es| && q < |es| && es[q] == Kv(ls[Index(|ls|, k)])[i]
      && fs[q] == Entry(es[q].ko, es[q].key, vo)
      && forall j :: 0 <= j < |es| && j != q ==> fs[j] == es[j]
  {
    hide Flat, Index;
    var b := Index(|ls|, k);
    var ms := Overwritten(ls, k, i, vo);
    FlatCut(ls, b);
    FlatCut(ms, b);
    assert ms[..b] == ls[..b] && ms[b + 1..] == ls[b + 1..];
  }

  /** Deletion closes the gap that one entry leaves, and the order of the others stays. */
  lemma DropsOne(ls: seq<List>, k: Key, i: nat)
    requires |ls| > 0 && i < |Kv(ls[Index(|ls|, k)])|
    ensures var es, q := Flat(ls), |Flat(ls[..Index(|ls|, k)])| + i;
      && q < |es| && es[q] == Kv(ls[Index(|ls|, k)])[i]
      && Flat(Dropped(ls, k, i)) == es[..q] + es[q + 1..]
  {
    hide Flat, Index;
    var b := Index(|ls|, k);
    var ms := Dropped(ls, k, i);
    FlatCut(ls, b);
    FlatCut(ms, b);
    assert ms[..b] == ls[..b] && ms[b + 1..] == ls[b + 1..];
    Gap(Flat(ls[..b]), Kv(ls[b]), Flat(ls[b + 1..]), i);
  }

  lemma Gap(a: seq<Entry>, kv: seq<Entry>, c: seq<Entry>, i: nat)
    requires i < |kv|
    ensures var es, q := a + kv + c, |a| + i;
      q < |es| && es[q] == kv[i] && a + (kv[..i] + kv[i + 1..]) + c == es[..q] + es[q + 1..]
  {
    var es, q := a + kv + c, |a| + i;
    assert es[..q] == a + kv[..i];
    assert es[q + 1..] == kv[i + 1..] + c;
  }

  /** An entry goes to the end of its bucket. */
  lemma PutsOne(ls: seq<List>, e: Entry)
    requires |ls| > 0
    ensures var es, q := Flat(ls), |Flat(ls[..Index(|ls|, e.key) + 1])|;
      q <= |es| && Flat(Put(ls, e)) == es[..q] + [e] + es[q..]
  {
    hide Flat, Index;
    var b := Index(|ls|, e.key);
    var ms := Put(ls, e);
    FlatCut(ls, b);
    FlatCut(ms, b);
    FlatEnd(ls, b);
    assert ms[..b] == ls[..b] && ms[b + 1..] == ls[b + 1..];
    assert Kv(ms[b]) == Kv(ls[b]) + [e];
  }

  lemma PutsBag(ls: seq<List>, e: Entry)
    requires |ls| > 0
    ensures multiset(Flat(Put(ls, e))) == multiset(Flat(ls)) + multiset{e}
  {
    hide Flat, Put;
    PutsOne(ls, e);
    var es, q := Flat(ls), |Flat(ls[..Index(|ls|, e.key) + 1])|;
    assert es == es[..q] + es[q..];
  }

  lemma {:induction false} PutAllBag(ls: seq<List>, es: seq<Entry>)
    requires |ls| > 0
    ensures multiset(Flat(PutAll(ls, es))) == multiset(Flat(ls)) + multiset(es)
    decreases |es|
  {
    hide Flat, Put;
    if es != [] {
      var n := |es| - 1;
      PutAllBag(ls, es[..n]);
      PutsBag(PutAll(ls, es[..n]), es[n]);
      assert es == es[..n] + [es[n]];
    }
  }

  /** Insertion under a new key, with growth or without, adds one entry and loses none. */
  lemma AddsOne(ls: seq<List>, n: nat, e: Entry)
    requires |ls| > 0
    ensures multiset(Flat(Added(ls, n, e))) == multiset(Flat(ls)) + multiset{e}
  {
    hide Flat, Put, PutAll;
    var ms := if Full(|ls|, n) then Rehashed(ls, n + 1) else ls;
    if Full(|ls|, n) {
      FlatNone(NewLists(n + 1));
      PutAllBag(NewLists(n + 1), Flat(ls));
    }
    PutsBag(ms, e);
  }

  // ---- rooms ----

  /** A list has room for the least power of two that holds its entries. */
  ghost predicate Tight(l: List) {
    l.List? ==> |l.kv| <= l.n < 2 * |l.kv| && exists p: nat :: Power(p) == l.n
  }

  function Power(p: nat): nat {
    if p == 0 then 1 else 2 * Power(p - 1)
  }

  lemma AppendTight(l: List, e: Entry)
    requires Tight(l)
    ensures Tight(Appended(l, e)) && Appended(l, e).List?
  {
    if l.NoList? {
      assert Power(0) == 1;
    } else {
      var p: nat :| Power(p) == l.n;
      assert Power(p + 1) == 2 * l.n;
    }
  }

  lemma {:induction false} PutAllTight(ls: seq<List>, es: seq<Entry>)
    requires |ls| > 0 && forall b :: 0 <= b < |ls| ==> Tight(ls[b])
    ensures forall b :: 0 <= b < |ls| ==> Tight(PutAll(ls, es)[b])
    decreases |es|
  {
    hide Index, Tight;
    if es != [] {
      var n := |es| - 1;
      PutAllTight(ls, es[..n]);
      var ms := PutAll(ls, es[..n]);
      AppendTight(ms[Index(|ms|, es[n].key)], es[n]);
    }
  }

  /** After a rehash every list has the least power of two of places that its entries fit in. */
  lemma RehashTight(ls: seq<List>, ln: nat)
    requires ln > 0
    ensures forall b :: 0 <= b < ln ==> Tight(Rehashed(ls, ln)[b])
  {
    hide PutAll, Flat;
    PutAllTight(NewLists(ln), Flat(ls));
  }
}
