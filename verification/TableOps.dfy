/** insert, find, delete and copytable of cmd/lefty/tbl.c in place, against the finite map. */
module TableOps {
  import C = Collector
  import R = CollectorRuns
  import opened Table

  lemma NewName(es: seq<Entry>, i: nat)
    requires i < |es| && Distinct(es)
    ensures NameOf(es[i].key) !in MapOf(es[..i])
  {
    MapHas(es[..i], NameOf(es[i].key));
  }

  lemma MapStep(es: seq<Entry>, i: nat)
    requires i < |es|
    ensures MapOf(es[..i + 1]) == MapOf(es[..i])[NameOf(es[i].key) := es[i].vo]
  {
    assert es[..i + 1][..i] == es[..i];
  }

  /** Entry j of bucket i in the order of all entries. */
  lemma FlatAt(ls: seq<List>, i: nat, j: nat)
    requires i < |ls| && j <= |Kv(ls[i])|
    ensures var q := |Flat(ls[..i])| + j;
      && q <= |Flat(ls)| && Flat(ls)[..q] == Flat(ls[..i]) + Kv(ls[i])[..j]
      && (j < |Kv(ls[i])| ==> q < |Flat(ls)| && Flat(ls)[q] == Kv(ls[i])[j])
  {
    FlatCut(ls, i);
  }

  lemma {:induction false} FlatNone(ls: seq<List>)
    requires forall b :: 0 <= b < |ls| ==> ls[b].NoList?
    ensures Flat(ls) == []
  {
    if ls != [] { FlatNone(ls[..|ls| - 1]); }
  }

  /** A key is found in its bucket or nowhere. */
  lemma Located(ls: seq<List>, k: Key, i: nat)
    requires |ls| > 0 && ListsOk(ls, |ls|)
    requires var kv := Kv(ls[Index(|ls|, k)]);
      i <= |kv| && (i < |kv| ==> Same(k, kv[i].key)) && forall j :: 0 <= j < i ==> !Same(k, kv[j].key)
    ensures var kv, m := Kv(ls[Index(|ls|, k)]), MapOf(Flat(ls));
      if i < |kv| then NameOf(k) in m && m[NameOf(k)] == kv[i].vo else NameOf(k) !in m
  {
    hide MapOf, Flat, Index;
    var b := Index(|ls|, k);
    var kv := Kv(ls[b]);
    OneBucket(ls, |ls|, k);
    assert ListOk(ls[b], b, |ls|);
    if i < |kv| {
      MapAt(kv, i);
    } else {
      MapHas(kv, NameOf(k));
      forall j | 0 <= j < |kv| ensures NameOf(kv[j].key) != NameOf(k) { SameName(k, kv[j].key); }
    }
  }

  /** The key object that Tinteger, Treal or Tstring makes; a whole real becomes an integer. */
  function Made(k: Key): Key {
    if k.KReal? && k.r == Trunc(k.r) as real then KInt(Trunc(k.r)) else k
  }

  lemma MadeName(k: Key, ln: nat)
    requires ln > 0
    ensures NameOf(Made(k)) == NameOf(k) && Index(ln, Made(k)) == Index(ln, k)
  {
    HashAgrees(Made(k), k, ln);
  }

  // ---- the pointers that the collector will find ----

  function Kvs(es: seq<Entry>): seq<C.Kv> {
    seq(|es|, i requires 0 <= i < |es| => C.Kv(es[i].ko, es[i].vo))
  }

  function Ptrs(es: seq<Entry>): set<Ptr> {
    (set e | e in es :: e.ko) + (set e | e in es :: e.vo)
  }

  lemma PtrsAdds(es: seq<Entry>, fs: seq<Entry>)
    ensures Ptrs(es + fs) == Ptrs(es) + Ptrs(fs)
  {
  }

  lemma PtrsStep(es: seq<Entry>, i: nat)
    requires i < |es|
    ensures Ptrs(es[..i + 1]) == Ptrs(es[..i]) + {es[i].ko, es[i].vo}
  {
    assert es[..i + 1] == es[..i] + [es[i]];
    PtrsAdds(es[..i], [es[i]]);
  }

  lemma PtrsBucket(ls: seq<List>, b: nat, l: List)
    requires b < |ls|
    ensures Ptrs(Flat(ls)) == Ptrs(Flat(ls[..b])) + Ptrs(Kv(ls[b])) + Ptrs(Flat(ls[b + 1..]))
    ensures Ptrs(Flat(ls[b := l])) == Ptrs(Flat(ls[..b])) + Ptrs(Kv(l)) + Ptrs(Flat(ls[b + 1..]))
  {
    hide Flat, Ptrs;
    var ms := ls[b := l];
    FlatCut(ls, b);
    FlatCut(ms, b);
    assert ms[..b] == ls[..b] && ms[b + 1..] == ls[b + 1..];
    PtrsAdds(Flat(ls[..b]), Kv(ls[b]));
    PtrsAdds(Flat(ls[..b]) + Kv(ls[b]), Flat(ls[b + 1..]));
    PtrsAdds(Flat(ls[..b]), Kv(l));
    PtrsAdds(Flat(ls[..b]) + Kv(l), Flat(ls[b + 1..]));
  }

  lemma PtrsAppend(ls: seq<List>, b: nat, e: Entry)
    requires b < |ls|
    ensures Ptrs(Flat(ls[b := Appended(ls[b], e)])) == Ptrs(Flat(ls)) + {e.ko, e.vo}
  {
    hide Flat;
    PtrsBucket(ls, b, Appended(ls[b], e));
    PtrsAdds(Kv(ls[b]), [e]);
    assert Kv(Appended(ls[b], e)) == Kv(ls[b]) + [e];
  }

  lemma PtrsSet(ls: seq<List>, b: nat, i: nat, vo: Ptr)
    requires b < |ls| && i < |Kv(ls[b])|
    ensures var kv := Kv(ls[b]);
      Ptrs(Flat(ls[b := List(ls[b].n, kv[i := kv[i].(vo := vo)])])) <= Ptrs(Flat(ls)) + {vo}
  {
    hide Flat;
    var kv := Kv(ls[b]);
    PtrsBucket(ls, b, List(ls[b].n, kv[i := kv[i].(vo := vo)]));
  }

  lemma PtrsDrop(ls: seq<List>, b: nat, i: nat)
    requires b < |ls| && i < |Kv(ls[b])|
    ensures Ptrs(Flat(ls[b := List(ls[b].n, Kv(ls[b])[..i] + Kv(ls[b])[i + 1..])])) <= Ptrs(Flat(ls))
  {
    hide Flat;
    PtrsBucket(ls, b, List(ls[b].n, Kv(ls[b])[..i] + Kv(ls[b])[i + 1..]));
  }

  /** A change of a table that brings in only the pointers `extra` is one that the invariant of the
      collector survives, whatever the buckets and the order. */
  lemma ChangeIsBuilt(es: seq<Entry>, extra: set<Ptr>, fs: seq<Entry>)
    requires Ptrs(fs) <= Ptrs(es) + extra
    ensures R.BuiltFrom(C.Obj.Table(Kvs(es)), extra, Kvs(fs))
  {
    var o := C.Obj.Table(Kvs(es));
    forall i | 0 <= i < |fs|
      ensures R.Allowed(o, extra, Kvs(fs)[i].ko) && R.Allowed(o, extra, Kvs(fs)[i].vo)
    {
      assert fs[i] in fs && fs[i].ko in Ptrs(fs) && fs[i].vo in Ptrs(fs);
      PtrAllowed(es, extra, fs[i].ko);
      PtrAllowed(es, extra, fs[i].vo);
    }
  }

  lemma PtrAllowed(es: seq<Entry>, extra: set<Ptr>, x: Ptr)
    requires x in Ptrs(es) + extra
    ensures R.Allowed(C.Obj.Table(Kvs(es)), extra, x)
  {
    if x in Ptrs(es) {
      var e :| e in es && (e.ko == x || e.vo == x);
      var j :| 0 <= j < |es| && es[j] == e;
      assert Kvs(es)[j] == C.Kv(es[j].ko, es[j].vo);
    }
  }

  lemma PutNone(ls: seq<List>)
    requires |ls| > 0
    ensures PutAll(ls, []) == ls
  {
  }

  lemma PutStep(ls: seq<List>, es: seq<Entry>, i: nat)
    requires |ls| > 0 && i < |es|
    ensures PutAll(ls, es[..i + 1]) == Put(PutAll(ls, es[..i]), es[i])
  {
    assert es[..i + 1][..i] == es[..i];
  }

  // ---- what insert and delete do to the bucket of a key ----

  /** `made` is the object for a key that the caller does not hold as one. */
  function NewEntry(k: Key, own: bool, ko: Ptr, made: Ptr, vo: Ptr): Entry {
    if own then Entry(ko, k, vo) else Entry(made, Made(k), vo)
  }

  function Overwritten(ls: seq<List>, k: Key, i: nat, vo: Ptr): seq<List>
    requires |ls| > 0 && i < |Kv(ls[Index(|ls|, k)])|
  {
    var l := ls[Index(|ls|, k)];
    ls[Index(|ls|, k) := List(l.n, l.kv[i := l.kv[i].(vo := vo)])]
  }

  function Dropped(ls: seq<List>, k: Key, i: nat): seq<List>
    requires |ls| > 0 && i < |Kv(ls[Index(|ls|, k)])|
  {
    var l := ls[Index(|ls|, k)];
    ls[Index(|ls|, k) := List(l.n, l.kv[..i] + l.kv[i + 1..])]
  }

  class Ttable {
    var n: nat
    var lp: array<List>   // ln is its length

    ghost predicate Valid()
      reads this, lp
    {
      TableOk(lp[..], n)
    }

    /** At most four entries a bucket on average. */
    predicate Light()
      reads this
    {
      n <= 4 * lp.Length
    }

    ghost function Map(): map<Name, Ptr>
      reads this, lp
    {
      MapOf(Flat(lp[..]))
    }

    /** Ttable. */
    constructor (sizehint: int)
      ensures Valid() && Light() && Map() == map[] && fresh(lp)
      ensures lp[..] == NewLists(if sizehint < 2 then 2 else sizehint)
    {
      var ln := if sizehint < 2 then 2 else sizehint;
      n := 0;
      lp := new List[ln](_ => NoList);
      new;
      FlatNone(lp[..]);
    }

    /** The scan of one bucket in insert, find and delete. */
    static method Search(kv: seq<Entry>, k: Key) returns (i: nat)
      ensures i <= |kv| && (i < |kv| ==> Same(k, kv[i].key)) && forall j :: 0 <= j < i ==> !Same(k, kv[j].key)
    {
      i := 0;
      while i < |kv|
        invariant i <= |kv| && forall j :: 0 <= j < i ==> !Same(k, kv[j].key)
      {
        if Same(k, kv[i].key) { return; }
        i := i + 1;
      }
    }

    method Find(k: Key) returns (vo: Ptr)
      requires Valid()
      ensures vo == if NameOf(k) in Map() then Map()[NameOf(k)] else C.Null
    {
      hide MapOf, Flat, Index, Same;
      var kv := Kv(lp[Index(lp.Length, k)]);
      var i := Search(kv, k);
      Located(lp[..], k, i);
      vo := if i < |kv| then kv[i].vo else C.Null;
    }

    /** `made` is the object for a key that the caller does not hold as one (own is false then). */
    method Insert(k: Key, own: bool, ko: Ptr, made: Ptr, vo: Ptr)
      requires Valid()
      modifies this, lp
      ensures Valid() && Map() == old(Map())[NameOf(k) := vo]
      ensures n == old(n) + if NameOf(k) in old(Map()) then 0 else 1
      ensures n < SIZEMAX && (old(Light()) || n > old(n)) ==> Light()
      ensures lp.Length ==
        if n > old(n) && n > 4 * old(lp.Length) && n < SIZEMAX then n else old(lp.Length)
      ensures Ptrs(Flat(lp[..])) <= old(Ptrs(Flat(lp[..]))) + {if own then ko else made, vo}
      ensures NameOf(k) !in old(Map()) ==> lp[..] == Added(old(lp[..]), old(n), NewEntry(k, own, ko, made, vo))
      ensures NameOf(k) in old(Map()) ==> exists i ::
        0 <= i < |Kv(old(lp[..])[Index(old(lp).Length, k)])| && lp[..] == Overwritten(old(lp[..]), k, i, vo)
      ensures lp == old(lp) || fresh(lp)
    {
      hide Ptrs, MapOf, Flat, Index, Same, Distinct, Made;
      var ind := Index(lp.Length, k);
      var kv := Kv(lp[ind]);
      var i := Search(kv, k);
      Located(lp[..], k, i);
      if i < |kv| {
        SameName(k, kv[i].key);
        SetAt(lp[..], k, i, vo);
        PtrsSet(lp[..], ind, i, vo);
        lp[ind] := List(lp[ind].n, kv[i := kv[i].(vo := vo)]);
        assert lp[..] == Overwritten(old(lp[..]), k, i, vo);
        return;
      }
      Add(k, NewEntry(k, own, ko, made, vo));
    }

    /** The part of insert for a key that is not there, with the entry to store. */
    method Add(k: Key, e: Entry)
      requires Valid() && NameOf(k) !in Map() && (e.key == k || e.key == Made(k))
      modifies this, lp
      ensures Valid() && Map() == old(Map())[NameOf(k) := e.vo] && n == old(n) + 1
      ensures n < SIZEMAX ==> Light()
      ensures lp.Length == if n > 4 * old(lp.Length) && n < SIZEMAX then n else old(lp.Length)
      ensures Ptrs(Flat(lp[..])) == old(Ptrs(Flat(lp[..]))) + {e.ko, e.vo}
      ensures lp[..] == Added(old(lp[..]), old(n), e)
      ensures lp == old(lp) || fresh(lp)
    {
      hide Ptrs, MapOf, Flat, Index, Made, ListsOk, Rehashed;
      if n + 1 > 4 * lp.Length && n + 1 < SIZEMAX {
        Copytable(n + 1);
      }
      var ind := Index(lp.Length, k);
      MadeName(k, lp.Length);
      AppendAt(lp[..], e);
      PtrsAppend(lp[..], ind, e);
      lp[ind] := Appended(lp[ind], e);
      n := n + 1;
    }

    method Delete(k: Key)
      requires Valid()
      modifies this, lp
      ensures Valid() && Map() == old(Map()) - {NameOf(k)} && lp == old(lp)
      ensures old(Light()) ==> Light()
      ensures Ptrs(Flat(lp[..])) <= old(Ptrs(Flat(lp[..])))
      ensures NameOf(k) !in old(Map()) ==> lp[..] == old(lp[..])
      ensures NameOf(k) in old(Map()) ==> exists i ::
        0 <= i < |Kv(old(lp[..])[Index(old(lp).Length, k)])| && lp[..] == Dropped(old(lp[..]), k, i)
    {
      hide Ptrs, MapOf, Flat, Index, Same, Distinct;
      var ind := Index(lp.Length, k);
      var kv := Kv(lp[ind]);
      var i := Search(kv, k);
      Located(lp[..], k, i);
      if i < |kv| {
        SameName(k, kv[i].key);
        DropAt(lp[..], k, i);
        PtrsDrop(lp[..], ind, i);
        lp[ind] := List(lp[ind].n, kv[..i] + kv[i + 1..]);
        assert lp[..] == Dropped(old(lp[..]), k, i);
        n := n - 1;
      }
    }

    /** A rehash into ln buckets: the map and the number of entries stay. */
    method Copytable(ln: nat)
      requires Valid() && ln > 0
      modifies this
      ensures ListsOk(lp[..], ln) && lp.Length == ln && fresh(lp)
      ensures Map() == old(Map()) && n == old(n) == |Flat(lp[..])|
      ensures Ptrs(Flat(lp[..])) == old(Ptrs(Flat(lp[..])))
      ensures lp[..] == Rehashed(old(lp[..]), ln)
    {
      hide MapOf, Flat, Index, Distinct, ListOk, Ptrs, PutAll;
      var olp := lp;
      lp := new List[ln](_ => NoList);
      ghost var ls := olp[..];
      DistinctFlat(ls, |ls|);
      EmptyOk(lp[..]);
      FlatNone(ls[..0]);
      PutNone(NewLists(ln));
      assert lp[..] == NewLists(ln);
      FlatNone(lp[..]);
      for i := 0 to olp.Length
        invariant fresh(lp) && lp.Length == ln && lp != olp && olp[..] == ls
        invariant ListsOk(lp[..], ln) && n == old(n)
        invariant lp[..] == PutAll(NewLists(ln), Flat(ls[..i]))
        invariant Ptrs(Flat(lp[..])) == Ptrs(Flat(ls[..i]))
        invariant MapOf(Flat(lp[..])) == MapOf(Flat(ls[..i])) && |Flat(lp[..])| == |Flat(ls[..i])|
      {
        var kv := Kv(olp[i]);
        FlatAt(ls, i, 0);
        assert Flat(ls[..i]) + kv[..0] == Flat(ls[..i]);
        for j := 0 to |kv|
          invariant lp.Length == ln && ListsOk(lp[..], ln) && fresh(lp) && lp != olp && olp[..] == ls && n == old(n)
          invariant var q := |Flat(ls[..i])| + j;
            && q <= |Flat(ls)| && MapOf(Flat(lp[..])) == MapOf(Flat(ls)[..q]) && |Flat(lp[..])| == q
            && Ptrs(Flat(lp[..])) == Ptrs(Flat(ls)[..q]) && lp[..] == PutAll(NewLists(ln), Flat(ls)[..q])
        {
          ghost var q := |Flat(ls[..i])| + j;
          FlatAt(ls, i, j);
          NewName(Flat(ls), q);
          MapStep(Flat(ls), q);
          PtrsStep(Flat(ls), q);
          PutStep(NewLists(ln), Flat(ls), q);
          AppendAt(lp[..], kv[j]);
          PtrsAppend(lp[..], Index(ln, kv[j].key), kv[j]);
          var ind := Index(ln, kv[j].key);
          lp[ind] := Appended(lp[ind], kv[j]);
        }
        FlatAt(ls, i, |kv|);
        assert kv[..|kv|] == kv;
        FlatEnd(ls, i);
      }
      assert ls[..olp.Length] == ls;
    }
  }

  lemma EmptyOk(ls: seq<List>)
    requires |ls| > 0 && forall b :: 0 <= b < |ls| ==> ls[b].NoList?
    ensures ListsOk(ls, |ls|)
  {
  }

  lemma SetAt(ls: seq<List>, k: Key, i: nat, vo: Ptr)
    requires |ls| > 0 && ListsOk(ls, |ls|)
    requires i < |Kv(ls[Index(|ls|, k)])| && NameOf(Kv(ls[Index(|ls|, k)])[i].key) == NameOf(k)
    ensures var ms := Overwritten(ls, k, i, vo);
      && ListsOk(ms, |ls|) && |Flat(ms)| == |Flat(ls)|
      && MapOf(Flat(ms)) == MapOf(Flat(ls))[NameOf(k) := vo]
  {
    hide MapOf, Flat, Index, Distinct;
    var b := Index(|ls|, k);
    var kv := Kv(ls[b]);
    assert ListOk(ls[b], b, |ls|);
    MapSets(kv, i, vo);
    var l := List(ls[b].n, kv[i := kv[i].(vo := vo)]);
    forall j | 0 <= j < |kv| ensures Index(|ls|, l.kv[j].key) == b { assert l.kv[j].key == kv[j].key; }
    assert ListOk(l, b, |ls|);
    BucketSet(ls, k, l);
  }

  lemma DropAt(ls: seq<List>, k: Key, i: nat)
    requires |ls| > 0 && ListsOk(ls, |ls|)
    requires i < |Kv(ls[Index(|ls|, k)])| && NameOf(Kv(ls[Index(|ls|, k)])[i].key) == NameOf(k)
    ensures var ms := Dropped(ls, k, i);
      && ListsOk(ms, |ls|) && |Flat(ms)| == |Flat(ls)| - 1
      && MapOf(Flat(ms)) == MapOf(Flat(ls)) - {NameOf(k)}
  {
    hide MapOf, Flat, Index, Distinct;
    var b := Index(|ls|, k);
    var kv := Kv(ls[b]);
    assert ListOk(ls[b], b, |ls|);
    MapDrops(kv, i);
    var l := List(ls[b].n, kv[..i] + kv[i + 1..]);
    forall j | 0 <= j < |l.kv| ensures Index(|ls|, l.kv[j].key) == b {
      assert l.kv[j] == kv[if j < i then j else j + 1];
    }
    assert ListOk(l, b, |ls|);
    BucketSet(ls, k, l);
  }

  /** The number of entries is the number of keys. */
  lemma Counted(ls: seq<List>, n: nat)
    requires TableOk(ls, n)
    ensures n == |MapOf(Flat(ls))|
  {
    DistinctFlat(ls, |ls|);
    MapSize(Flat(ls));
  }

  // ---- walking over a table ----

  /** Tkvindex_t: bucket i, entry j. */
  class Cursor {
    const tp: Ttable
    var i: nat
    var j: nat

    /** The place of the cursor in the order of all entries. */
    ghost function Place(): nat
      requires i <= tp.lp.Length
      reads this, tp, tp.lp
    {
      |Flat(tp.lp[..i])| + j
    }

    ghost predicate On()
      reads this, tp, tp.lp
    {
      i < tp.lp.Length && j < |Kv(tp.lp[i])|
    }

    /** Tgetfirst. */
    constructor First(tp: Ttable)
      ensures this.tp == tp && i <= tp.lp.Length
      ensures On() <==> |Flat(tp.lp[..])| > 0
      ensures On() ==> Place() == 0
    {
      this.tp := tp;
      i, j := 0, 0;
      new;
      FlatNone(tp.lp[..0]);
      Seek();
    }

    /** The two loops that Tgetfirst and Tgetnext share. */
    method Seek()
      requires i < tp.lp.Length ==> j <= |Kv(tp.lp[i])|
      requires i <= tp.lp.Length && (i == tp.lp.Length ==> j == 0)
      modifies this
      ensures i <= tp.lp.Length && Place() == old(Place())
      ensures On() <==> old(Place()) < |Flat(tp.lp[..])|
    {
      hide Flat;
      while i < tp.lp.Length
        invariant i <= tp.lp.Length && Place() == old(Place())
        invariant i < tp.lp.Length ==> j <= |Kv(tp.lp[i])|
        invariant i == tp.lp.Length ==> j == 0
        decreases tp.lp.Length - i
      {
        FlatAt(tp.lp[..], i, j);
        FlatEnd(tp.lp[..], i);
        assert tp.lp[..][..i] == tp.lp[..i] && tp.lp[..][..i + 1] == tp.lp[..i + 1];
        if j < |Kv(tp.lp[i])| { return; }
        j := 0;
        i := i + 1;
      }
      assert tp.lp[..i] == tp.lp[..];
    }

    /** Tgetnext. */
    method Next()
      requires On()
      modifies this
      ensures i <= tp.lp.Length && Place() == old(Place()) + 1
      ensures On() <==> old(Place()) + 1 < |Flat(tp.lp[..])|
    {
      j := j + 1;
      Seek();
    }

    method Get() returns (e: Entry)
      requires On()
      ensures i <= tp.lp.Length && Place() < |Flat(tp.lp[..])| && e == Flat(tp.lp[..])[Place()]
    {
      FlatAt(tp.lp[..], i, j);
      assert tp.lp[..][..i] == tp.lp[..i];
      e := Kv(tp.lp[i])[j];
    }
  }

  /** The loop over a table that codestr, eforinst and others write: each entry once, in order. */
  method Walk(tp: Ttable) returns (es: seq<Entry>)
    ensures es == Flat(tp.lp[..])
  {
    hide Flat;
    var c := new Cursor.First(tp);
    es := [];
    while c.i < tp.lp.Length && c.j < |Kv(tp.lp[c.i])|
      invariant fresh(c) && c.tp == tp && c.i <= tp.lp.Length
      invariant |es| <= |Flat(tp.lp[..])| && es == Flat(tp.lp[..])[..|es|]
      invariant c.On() ==> c.Place() == |es|
      invariant c.On() <==> |es| < |Flat(tp.lp[..])|
      decreases |Flat(tp.lp[..])| - |es|
    {
      var e := c.Get();
      es := es + [e];
      c.Next();
    }
  }
}
