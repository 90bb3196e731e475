/** The hash table of cmd/lefty/tbl.c as bucket lists of entries, and the finite map it stands for. */
module Table {
  import C = Collector

  type Ptr = C.Ptr

  const SIZEMAX := 32767
  const WORD64 := 0x1_0000_0000_0000_0000

  /** The contents of a key object.  An integer key is one that a double holds exactly. */
  datatype Key = KInt(i: int) | KReal(r: real) | KStr(s: string)

  /** What a key is compared by: its number, or its characters. */
  datatype Name = Num(x: real) | Text(s: string)

  function NameOf(k: Key): Name {
    match k case KInt(i) => Num(i as real) case KReal(r) => Num(r) case KStr(s) => Text(s)
  }

  /** ISEQIK, ISEQRK and ISEQSK: the key that is looked for against a stored one. */
  predicate Same(k: Key, stored: Key) {
    match k
    case KInt(i) => !stored.KStr? && Number(stored) == i as real
    case KReal(r) => !stored.KStr? && Number(stored) == r
    case KStr(s) => stored.KStr? && stored.s == s
  }

  /** Tgetnumber. */
  function Number(k: Key): real
    requires !k.KStr?
  {
    if k.KInt? then k.i as real else k.r
  }

  lemma SameName(k: Key, stored: Key)
    ensures Same(k, stored) <==> NameOf(k) == NameOf(stored)
  {
  }

  // ---- bucket numbers ----

  /** The C cast of a double to an integer. */
  function Trunc(r: real): int {
    if r >= 0.0 then r.Floor else -((-r).Floor)
  }

  /** The cast to unsigned long. */
  function U64(i: int): nat {
    i % WORD64
  }

  /** The first character of a C string, 0 for the empty one. */
  function Lead(s: string): int {
    if s == "" then 0 else s[0] as int
  }

  /** GETIKINDEX, GETRKINDEX and GETSKINDEX. */
  function Index(ln: nat, k: Key): (b: nat)
    requires ln > 0
    ensures b < ln
  {
    match k
    case KInt(i) => U64(i) % ln
    case KReal(r) => U64(Trunc(r)) % ln
    case KStr(s) => U64(Lead(s)) % ln
  }

  /** Keys that compare equal, such as 3 and 3.0, are in one bucket at every table size. */
  lemma HashAgrees(k: Key, l: Key, ln: nat)
    requires ln > 0 && NameOf(k) == NameOf(l)
    ensures Index(ln, k) == Index(ln, l)
  {
    if k.KInt? && l.KReal? { TruncInt(k.i); }
    if k.KReal? && l.KInt? { TruncInt(l.i); }
  }

  lemma TruncInt(i: int)
    ensures Trunc(i as real) == i
  {
    if i < 0 { assert -(i as real) == (-i) as real; }
  }

  // ---- lists and the map they stand for ----

  datatype Entry = Entry(ko: Ptr, key: Key, vo: Ptr)

  /** A bucket: no list yet, or a list with room for n entries. */
  datatype List = NoList | List(n: nat, kv: seq<Entry>)

  function Kv(l: List): seq<Entry> {
    if l.NoList? then [] else l.kv
  }

  /** All entries, in the order in which Tgchelper and Tgetnext meet them. */
  function Flat(ls: seq<List>): seq<Entry> {
    if ls == [] then [] else Flat(ls[..|ls| - 1]) + Kv(ls[|ls| - 1])
  }

  function MapOf(es: seq<Entry>): map<Name, Ptr> {
    if es == [] then map[] else MapOf(es[..|es| - 1])[NameOf(es[|es| - 1].key) := es[|es| - 1].vo]
  }

  ghost predicate Distinct(es: seq<Entry>) {
    forall i, j :: 0 <= i < j < |es| ==> NameOf(es[i].key) != NameOf(es[j].key)
  }

  /** A list fits its room, its names differ, and its keys belong to bucket b of ln. */
  ghost predicate ListOk(l: List, b: nat, ln: nat)
    requires ln > 0
  {
    && (l.List? ==> |l.kv| <= l.n && l.n >= 1)
    && Distinct(Kv(l))
    && forall i :: 0 <= i < |Kv(l)| ==> Index(ln, Kv(l)[i].key) == b
  }

  ghost predicate ListsOk(ls: seq<List>, ln: nat)
    requires ln > 0
  {
    forall b :: 0 <= b < |ls| ==> ListOk(ls[b], b, ln)
  }

  /** The table; n counts the entries. */
  ghost predicate TableOk(ls: seq<List>, n: nat) {
    |ls| > 0 && ListsOk(ls, |ls|) && n == |Flat(ls)|
  }

  // ---- sequences of entries ----

  lemma {:induction false} MapHas(es: seq<Entry>, x: Name)
    ensures x in MapOf(es) <==> exists i :: 0 <= i < |es| && NameOf(es[i].key) == x
  {
    if es != [] {
      MapHas(es[..|es| - 1], x);
      if x in MapOf(es[..|es| - 1]) {
        var i :| 0 <= i < |es| - 1 && NameOf(es[..|es| - 1][i].key) == x;
        assert NameOf(es[i].key) == x;
      }
    }
  }

  lemma {:induction false} MapAt(es: seq<Entry>, i: nat)
    requires i < |es| && Distinct(es)
    ensures NameOf(es[i].key) in MapOf(es) && MapOf(es)[NameOf(es[i].key)] == es[i].vo
  {
    if i < |es| - 1 { MapAt(es[..|es| - 1], i); }
  }

  lemma {:induction false} MapAdds(es: seq<Entry>, fs: seq<Entry>)
    ensures MapOf(es + fs) == MapOf(es) + MapOf(fs)
    decreases |fs|
  {
    if fs == [] {
      assert es + fs == es;
    } else {
      var n := |fs| - 1;
      assert (es + fs)[..|es + fs| - 1] == es + fs[..n];
      MapAdds(es, fs[..n]);
    }
  }

  lemma {:induction false} MapSize(es: seq<Entry>)
    requires Distinct(es)
    ensures |MapOf(es)| == |es|
  {
    if es != [] {
      var n := |es| - 1;
      MapSize(es[..n]);
      MapHas(es[..n], NameOf(es[n].key));
    }
  }

  /** Overwriting one value. */
  lemma MapSets(es: seq<Entry>, i: nat, vo: Ptr)
    requires i < |es| && Distinct(es)
    ensures Distinct(es[i := es[i].(vo := vo)])
    ensures MapOf(es[i := es[i].(vo := vo)]) == MapOf(es)[NameOf(es[i].key) := vo]
  {
    var fs := es[i := es[i].(vo := vo)];
    assert forall j :: 0 <= j < |es| ==> fs[j].key == es[j].key;
    forall x ensures (x in MapOf(fs) <==> x in MapOf(es))
      ensures x in MapOf(fs) ==> MapOf(fs)[x] == MapOf(es)[NameOf(es[i].key) := vo][x]
    {
      MapHas(fs, x);
      MapHas(es, x);
      if x in MapOf(es) {
        var j :| 0 <= j < |es| && NameOf(es[j].key) == x;
        assert NameOf(fs[j].key) == x;
        MapAt(es, j);
        MapAt(fs, j);
      }
      if x in MapOf(fs) {
        var j :| 0 <= j < |fs| && NameOf(fs[j].key) == x;
        assert NameOf(es[j].key) == x;
      }
    }
    MapAt(es, i);
  }

  /** Closing the gap of a deleted entry. */
  lemma MapDrops(es: seq<Entry>, i: nat)
    requires i < |es| && Distinct(es)
    ensures Distinct(es[..i] + es[i + 1..])
    ensures MapOf(es[..i] + es[i + 1..]) == MapOf(es) - {NameOf(es[i].key)}
  {
    hide MapOf;
    var x := NameOf(es[i].key);
    MapAdds(es[..i], es[i + 1..]);
    MapAdds(es[..i], [es[i]]);
    MapAdds(es[..i] + [es[i]], es[i + 1..]);
    assert es == es[..i] + [es[i]] + es[i + 1..];
    MapOne(es[i]);
    MapHas(es[..i], x);
    MapHas(es[i + 1..], x);
    MergeDrops(MapOf(es[..i]), x, es[i].vo, MapOf(es[i + 1..]));
  }

  lemma MapOne(e: Entry)
    ensures MapOf([e]) == map[NameOf(e.key) := e.vo]
  {
    assert [e][..0] == [];
  }

  lemma MergeDrops(a: map<Name, Ptr>, x: Name, v: Ptr, c: map<Name, Ptr>)
    requires x !in a && x !in c
    ensures a + c == a + map[x := v] + c - {x}
  {
  }

  lemma MergeSets(a: map<Name, Ptr>, b: map<Name, Ptr>, b1: map<Name, Ptr>, c: map<Name, Ptr>, x: Name)
    requires x !in a && x !in c && b - {x} == b1 - {x}
    ensures a + b1 + c == if x in b1 then (a + b + c)[x := b1[x]] else a + b + c - {x}
  {
    forall y | y != x
      ensures y in b <==> y in b1
      ensures y in b ==> b[y] == b1[y]
    {
      assert y in b <==> y in b - {x};
      assert y in b1 <==> y in b1 - {x};
      if y in b { assert (b - {x})[y] == b[y]; }
      if y in b1 { assert (b1 - {x})[y] == b1[y]; }
    }
  }

  // ---- buckets ----

  lemma {:induction false} FlatAdds(ls: seq<List>, ms: seq<List>)
    ensures Flat(ls + ms) == Flat(ls) + Flat(ms)
    decreases |ms|
  {
    if ms == [] {
      assert ls + ms == ls;
    } else {
      assert (ls + ms)[..|ls + ms| - 1] == ls + ms[..|ms| - 1];
      FlatAdds(ls, ms[..|ms| - 1]);
    }
  }

  lemma FlatEnd(ls: seq<List>, i: nat)
    requires i < |ls|
    ensures Flat(ls[..i + 1]) == Flat(ls[..i]) + Kv(ls[i])
  {
    assert ls[..i + 1][..i] == ls[..i];
  }

  lemma FlatCut(ls: seq<List>, b: nat)
    requires b < |ls|
    ensures Flat(ls) == Flat(ls[..b]) + Kv(ls[b]) + Flat(ls[b + 1..])
  {
    hide Flat;
    FlatEnd(ls, b);
    assert ls == ls[..b + 1] + ls[b + 1..];
    FlatAdds(ls[..b + 1], ls[b + 1..]);
  }

  /** The names of a range of buckets all belong to those buckets. */
  lemma {:induction false} FlatIndex(ls: seq<List>, lo: nat, ln: nat, i: nat)
    requires ln > 0 && i < |Flat(ls)| && forall b :: 0 <= b < |ls| ==> ListOk(ls[b], lo + b, ln)
    ensures lo <= Index(ln, Flat(ls)[i].key) < lo + |ls|
  {
    var n := |ls| - 1;
    if i < |Flat(ls[..n])| {
      FlatIndex(ls[..n], lo, ln, i);
    } else {
      assert ListOk(ls[n], lo + n, ln);
    }
  }

  lemma FlatMisses(ls: seq<List>, lo: nat, ln: nat, k: Key)
    requires ln > 0 && forall b :: 0 <= b < |ls| ==> ListOk(ls[b], lo + b, ln)
    requires !(lo <= Index(ln, k) < lo + |ls|)
    ensures NameOf(k) !in MapOf(Flat(ls))
  {
    MapHas(Flat(ls), NameOf(k));
    if NameOf(k) in MapOf(Flat(ls)) {
      var i :| 0 <= i < |Flat(ls)| && NameOf(Flat(ls)[i].key) == NameOf(k);
      HashAgrees(Flat(ls)[i].key, k, ln);
      FlatIndex(ls, lo, ln, i);
    }
  }

  /** Only the bucket of a key holds its name. */
  lemma OneBucket(ls: seq<List>, ln: nat, k: Key)
    requires ln > 0 && |ls| == ln && ListsOk(ls, ln)
    ensures var b := Index(ln, k);
      && NameOf(k) !in MapOf(Flat(ls[..b])) && NameOf(k) !in MapOf(Flat(ls[b + 1..]))
      && MapOf(Flat(ls)) == MapOf(Flat(ls[..b])) + MapOf(Kv(ls[b])) + MapOf(Flat(ls[b + 1..]))
  {
    var b := Index(ln, k);
    forall c | 0 <= c < |ls[..b]| ensures ListOk(ls[..b][c], 0 + c, ln) { assert ListOk(ls[c], c, ln); }
    FlatMisses(ls[..b], 0, ln, k);
    var ms := ls[b + 1..];
    forall c | 0 <= c < |ms| ensures ListOk(ms[c], b + 1 + c, ln) { assert ListOk(ls[b + 1 + c], b + 1 + c, ln); }
    FlatMisses(ms, b + 1, ln, k);
    FlatCut(ls, b);
    MapAdds(Flat(ls[..b]), Kv(ls[b]));
    MapAdds(Flat(ls[..b]) + Kv(ls[b]), Flat(ls[b + 1..]));
  }

  lemma {:induction false} DistinctFlat(ls: seq<List>, ln: nat)
    requires ln > 0 && ListsOk(ls, ln)
    ensures Distinct(Flat(ls))
  {
    if ls != [] {
      var n := |ls| - 1;
      forall b | 0 <= b < n ensures ListOk(ls[..n][b], b, ln) { assert ListOk(ls[b], b, ln); }
      DistinctFlat(ls[..n], ln);
      assert ListOk(ls[n], n, ln);
      var es, kv := Flat(ls[..n]), Kv(ls[n]);
      var all: seq<Entry> := es + kv;
      forall i, j | 0 <= i < j < |all| ensures NameOf(all[i].key) != NameOf(all[j].key) {
        if i < |es| <= j {
          FlatIndex(ls[..n], 0, ln, i);
          if NameOf(es[i].key) == NameOf(kv[j - |es|].key) { HashAgrees(es[i].key, kv[j - |es|].key, ln); }
        }
      }
    }
  }

  // ---- the changes to one bucket ----

  /** Where a new entry goes: a first list of one, a list of twice the room, or the free room. */
  function Appended(l: List, e: Entry): List {
    if l.NoList? then List(1, [e])
    else if |l.kv| == l.n then List(2 * l.n, l.kv + [e])
    else List(l.n, l.kv + [e])
  }

  /** An entry is added to the bucket of its key. */
  function Put(ls: seq<List>, e: Entry): (r: seq<List>)
    requires |ls| > 0
    ensures |r| == |ls|
  {
    var b := Index(|ls|, e.key);
    ls[b := Appended(ls[b], e)]
  }

  function PutAll(ls: seq<List>, es: seq<Entry>): (r: seq<List>)
    requires |ls| > 0
    ensures |r| == |ls|
  {
    if es == [] then ls else Put(PutAll(ls, es[..|es| - 1]), es[|es| - 1])
  }

  /** The buckets of a new array. */
  function NewLists(ln: nat): (r: seq<List>)
    ensures |r| == ln
  {
    seq(ln, _ => NoList)
  }

  /** The buckets after copytable. */
  function Rehashed(ls: seq<List>, ln: nat): (r: seq<List>)
    requires ln > 0
    ensures |r| == ln
  {
    PutAll(NewLists(ln), Flat(ls))
  }

  /** More than four entries a bucket would be too many. */
  predicate Full(ln: nat, n: nat) {
    n + 1 > 4 * ln && n + 1 < SIZEMAX
  }

  /** The buckets after the insertion of an entry whose key is new. */
  function Added(ls: seq<List>, n: nat, e: Entry): seq<List>
    requires |ls| > 0
  {
    Put(if Full(|ls|, n) then Rehashed(ls, n + 1) else ls, e)
  }

  lemma BucketSet(ls: seq<List>, k: Key, l: List)
    requires |ls| > 0 && ListsOk(ls, |ls|) && ListOk(l, Index(|ls|, k), |ls|)
    requires MapOf(Kv(l)) - {NameOf(k)} == MapOf(Kv(ls[Index(|ls|, k)])) - {NameOf(k)}
    ensures var b, m := Index(|ls|, k), MapOf(Kv(l));
      && ListsOk(ls[b := l], |ls|)
      && |Flat(ls[b := l])| == |Flat(ls)| + |Kv(l)| - |Kv(ls[b])|
      && MapOf(Flat(ls[b := l])) ==
        if NameOf(k) in m then MapOf(Flat(ls))[NameOf(k) := m[NameOf(k)]] else MapOf(Flat(ls)) - {NameOf(k)}
  {
    hide MapOf, Flat, Index, Distinct;
    var b := Index(|ls|, k);
    var ms := ls[b := l];
    forall c | 0 <= c < |ms| ensures ListOk(ms[c], c, |ls|) { assert ListOk(ls[c], c, |ls|); }
    OneBucket(ls, |ls|, k);
    OneBucket(ms, |ls|, k);
    assert ms[..b] == ls[..b] && ms[b + 1..] == ls[b + 1..];
    FlatCut(ls, b);
    FlatCut(ms, b);
    MergeSets(MapOf(Flat(ls[..b])), MapOf(Kv(ls[b])), MapOf(Kv(l)), MapOf(Flat(ls[b + 1..])), NameOf(k));
  }

  /** A key that is not in the table yet is added to its bucket. */
  lemma AppendAt(ls: seq<List>, e: Entry)
    requires |ls| > 0 && ListsOk(ls, |ls|) && NameOf(e.key) !in MapOf(Flat(ls))
    ensures var b := Index(|ls|, e.key);
      var ms := ls[b := Appended(ls[b], e)];
      && ListsOk(ms, |ls|) && |Flat(ms)| == |Flat(ls)| + 1
      && MapOf(Flat(ms)) == MapOf(Flat(ls))[NameOf(e.key) := e.vo]
  {
    hide MapOf, Flat, Index;
    var b := Index(|ls|, e.key);
    OneBucket(ls, |ls|, e.key);
    assert ListOk(ls[b], b, |ls|);
    var kv := Kv(ls[b]);
    MapHas(kv, NameOf(e.key));
    MapAdds(kv, [e]);
    MapOne(e);
    var l := Appended(ls[b], e);
    assert Kv(l) == kv + [e];
    assert ListOk(l, b, |ls|);
    BucketSet(ls, e.key, l);
  }
}
