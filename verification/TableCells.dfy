/** The buckets that TableOps changes and the cells that Allocator takes and frees for them are those of one
    table of cmd/lefty/tbl.c: step by step they agree on every list, its entries and its room. */
module TableCells {
  import opened Table
  import opened TableOps
  import A = Allocator
  import Y = TableCopy

  /** What a bucket needs: the entries in use and those it has room for. */
  function Need(l: List): A.Room {
    if l.NoList? then A.NoRoom else A.Room.Room(|l.kv|, l.n)
  }

  function Needs(ls: seq<List>): (rs: seq<A.Room>)
    ensures |rs| == |ls|
  {
    seq(|ls|, b requires 0 <= b < |ls| => Need(ls[b]))
  }

  lemma PutNeeds(ls: seq<List>, e: Entry)
    requires |ls| > 0
    ensures var b := Index(|ls|, e.key); Needs(Put(ls, e)) == Needs(ls)[b := A.Grown(Needs(ls)[b])]
  {
    hide Index;
  }

  /** Where copytable puts entry j of old bucket i. */
  function Dest(ls: seq<List>, ln: nat): (f: (nat, nat) -> nat)
    requires ln > 0
    ensures forall i, j :: f(i, j) < ln
  {
    (i: nat, j: nat) => if i < |ls| && j < |Kv(ls[i])| then Index(ln, Kv(ls[i])[j].key) else 0
  }

  /** The first j entries of one old bucket. */
  lemma {:induction false} BucketNeeds(xs: seq<List>, ls: seq<List>, i: nat, j: nat)
    requires |xs| > 0 && i < |ls| && j <= |Kv(ls[i])|
    ensures Needs(PutAll(xs, Kv(ls[i])[..j])) == A.AddRooms(Needs(xs), j, i, Dest(ls, |xs|))
  {
    hide Index, Needs, A.Grown;
    var kv := Kv(ls[i]);
    if j > 0 {
      BucketNeeds(xs, ls, i, j - 1);
      assert kv[..j][..j - 1] == kv[..j - 1];
      PutNeeds(PutAll(xs, kv[..j - 1]), kv[j - 1]);
    } else {
      assert kv[..0] == [];
    }
  }

  lemma {:induction false} PutAllAdds(xs: seq<List>, es: seq<Entry>, fs: seq<Entry>)
    requires |xs| > 0
    ensures PutAll(xs, es + fs) == PutAll(PutAll(xs, es), fs)
    decreases |fs|
  {
    hide Put;
    if fs == [] {
      assert es + fs == es;
    } else {
      var n := |fs| - 1;
      assert (es + fs)[..|es + fs| - 1] == es + fs[..n];
      PutAllAdds(xs, es, fs[..n]);
    }
  }

  /** The first i old buckets. */
  lemma {:induction false} MovedNeeds(ls: seq<List>, ln: nat, i: nat)
    requires ln > 0 && i <= |ls|
    ensures Needs(PutAll(NewLists(ln), Flat(ls[..i]))) == A.MoveRooms(A.NoRooms(ln), Needs(ls), i, Dest(ls, ln))
  {
    hide PutAll, A.AddRooms, Dest;
    if i > 0 {
      MovedNeeds(ls, ln, i - 1);
      var xs, kv := PutAll(NewLists(ln), Flat(ls[..i - 1])), Kv(ls[i - 1]);
      FlatEnd(ls, i - 1);
      PutAllAdds(NewLists(ln), Flat(ls[..i - 1]), kv);
      BucketNeeds(xs, ls, i - 1, |kv|);
      assert kv[..|kv|] == kv;
      if ls[i - 1].NoList? { PutNone(xs); }
    } else {
      PutNone(NewLists(ln));
      assert Flat(ls[..0]) == [];
      assert Needs(NewLists(ln)) == A.NoRooms(ln);
    }
  }

  /** A rehash as TableMemory does it gives the cells that the buckets need afterwards. */
  lemma RehashNeeds(ls: seq<List>, ln: nat)
    requires ln > 0
    ensures Needs(Rehashed(ls, ln)) == A.MoveRooms(A.NoRooms(ln), Needs(ls), |ls|, Dest(ls, ln))
  {
    assert ls[..|ls|] == ls;
    MovedNeeds(ls, ln, |ls|);
  }

  /** The buckets of a copy need what those of the source need, which is what CopyOf takes. */
  lemma CopyNeeds(src: Y.Heap, m: map<Y.Ref, Y.Ref>, t: Y.Tab, c: Y.Tab)
    requires Y.Image(src, m, t, c)
    ensures Needs(c.ls) == Needs(t.ls)
  {
    forall b | 0 <= b < |t.ls| ensures Need(c.ls[b]) == Need(t.ls[b]) {
      assert Y.ListImage(src, m, t.ls[b], c.ls[b], |Kv(t.ls[b])|);
    }
  }

  /** A table and its memory. */
  class Stored {
    const t: Ttable
    const m: A.TableMemory

    ghost predicate Valid()
      reads this, t, t.lp, m, m.mem
    {
      t.Valid() && m.Valid() && m.mem.Whole() && Needs(t.lp[..]) == A.Rooms(m.lists)
    }

    /** The cells of everything else. */
    ghost function Others(): set<A.Ref>
      reads this, m, m.mem
    {
      m.mem.used - m.Parts()
    }

    /** Ttable. */
    constructor (mem: A.Memory, sizehint: int)
      requires mem.Whole()
      modifies mem
      ensures Valid() && t.Map() == map[] && m.mem == mem && Others() == old(mem.used)
    {
      t := new Ttable(sizehint);
      m := new A.TableMemory(mem, sizehint);
      new;
      NewNeeds(t.lp.Length);
    }

    /** insert: the cells taken and freed are those that the growth of the lists asks for. */
    method Insert(k: Key, own: bool, ko: Ptr, made: Ptr, vo: Ptr)
      requires Valid()
      modifies t, t.lp, m, m.mem
      ensures Valid() && t.Map() == old(t.Map())[NameOf(k) := vo] && Others() == old(Others())
    {
      hide MapOf, Flat, Index, Added, Needs, A.Rooms, m.Valid, m.mem.Whole, m.Parts;
      ghost var ls, n := t.lp[..], t.n;
      var ind := Index(t.lp.Length, k);
      var i := Ttable.Search(Kv(t.lp[ind]), k);
      Located(ls, k, i);
      if i == |Kv(t.lp[ind])| {
        MakeRoom(k, NewEntry(k, own, ko, made, vo));
      }
      t.Insert(k, own, ko, made, vo);
      forall j | 0 <= j < |Kv(ls[Index(|ls|, k)])| ensures Needs(Overwritten(ls, k, j, vo)) == Needs(ls) {
        OverwrittenNeeds(ls, k, j, vo);
      }
    }

    /** The calls of Mallocate and Mfree for a key that is new. */
    method MakeRoom(k: Key, ghost e: Entry)
      requires Valid() && (e.key == k || e.key == Made(k))
      modifies m, m.mem
      ensures m.Valid() && m.mem.Whole() && Others() == old(Others())
      ensures A.Rooms(m.lists) == Needs(Added(t.lp[..], t.n, e))
    {
      hide MapOf, Flat, Index, Made, Added, Rehashed, Needs, A.Rooms, A.Grown, A.MoveRooms, A.SlotsOk, A.Cells,
        m.mem.Whole;
      SameLength(t.lp[..], m.lists);
      if Full(t.lp.Length, t.n) {
        RehashNeeds(t.lp[..], t.n + 1);
        m.Rehash(t.n + 1, Dest(t.lp[..], t.n + 1));
      }
      AddedNeeds(t.lp[..], t.n, k, e);
      m.Append(Index(m.ln, k));
    }

    /** delete: no cell is taken or freed. */
    method Delete(k: Key)
      requires Valid()
      modifies t, t.lp, m, m.mem
      ensures Valid() && t.Map() == old(t.Map()) - {NameOf(k)}
      ensures m.Parts() == old(m.Parts()) && m.mem.used == old(m.mem.used)
    {
      hide MapOf, Flat, Index, Needs, A.Rooms, A.SlotsOk, A.Cells, m.mem.Whole;
      ghost var ls := t.lp[..];
      var ind := Index(t.lp.Length, k);
      var i := Ttable.Search(Kv(t.lp[ind]), k);
      Located(ls, k, i);
      SameLength(ls, m.lists);
      if i < |Kv(t.lp[ind])| {
        NeedHere(ls, m.lists, ind);
        m.Drop(ind);
      }
      t.Delete(k);
      forall j | 0 <= j < |Kv(ls[Index(|ls|, k)])|
        ensures Needs(Dropped(ls, k, j)) == DropNeed(Needs(ls), Index(|ls|, k))
      {
        DroppedNeeds(ls, k, j);
      }
    }
  }

  lemma NewNeeds(ln: nat)
    ensures Needs(NewLists(ln)) == A.NoRooms(ln)
  {
  }

  lemma SameLength(ls: seq<List>, lists: seq<A.Slot>)
    requires Needs(ls) == A.Rooms(lists)
    ensures |ls| == |lists|
  {
  }

  lemma NeedHere(ls: seq<List>, lists: seq<A.Slot>, b: nat)
    requires Needs(ls) == A.Rooms(lists) && b < |ls| && |Kv(ls[b])| > 0
    ensures b < |lists| && lists[b].List? && lists[b].i > 0
    ensures Needs(ls)[b] == A.Room.Room(lists[b].i, lists[b].n)
  {
    assert Needs(ls)[b] == Need(ls[b]) && A.Rooms(lists)[b] == A.RoomOf(lists[b]);
  }

  lemma AddedNeeds(ls: seq<List>, n: nat, k: Key, e: Entry)
    requires |ls| > 0 && (e.key == k || e.key == Made(k))
    ensures var xs := if Full(|ls|, n) then Rehashed(ls, n + 1) else ls;
      var b := Index(|xs|, k);
      Needs(Added(ls, n, e)) == Needs(xs)[b := A.Grown(Needs(xs)[b])]
  {
    hide Index, Needs, Put, Rehashed, Made;
    var xs := if Full(|ls|, n) then Rehashed(ls, n + 1) else ls;
    MadeName(k, |xs|);
    PutNeeds(xs, e);
  }

  lemma OverwrittenNeeds(ls: seq<List>, k: Key, i: nat, vo: Ptr)
    requires |ls| > 0 && i < |Kv(ls[Index(|ls|, k)])|
    ensures Needs(Overwritten(ls, k, i, vo)) == Needs(ls)
  {
    hide Index;
  }

  function DropNeed(rs: seq<A.Room>, b: nat): seq<A.Room> {
    if b < |rs| && rs[b].Room? && rs[b].i > 0 then rs[b := A.Room.Room(rs[b].i - 1, rs[b].n)] else rs
  }

  lemma DroppedNeeds(ls: seq<List>, k: Key, i: nat)
    requires |ls| > 0 && i < |Kv(ls[Index(|ls|, k)])|
    ensures Needs(Dropped(ls, k, i)) == DropNeed(Needs(ls), Index(|ls|, k))
  {
    hide Index;
  }
}
