/** The size-class allocator of cmd/lefty/mem.c and what a table of cmd/lefty/tbl.c keeps in it.

    A cell is the address of its first byte, its class its length in units of a long (8 bytes).  Every cell
    that was ever cut from a buffer is in exactly one place: in use, or once on the free list of its own
    class.  No two cells have a byte in common. */
module Allocator {

  type Ref = nat

  const UNIT := 8
  const FREEOBJSIZE := 16     // a header and a link
  const KVSIZE := 16          // Tkv_t
  const KVOFFSET := 16        // of kv in Tkvlist_t
  const PTRSIZE := 8

  /** M_BYTE2SIZE. */
  function Units(bytes: nat): nat {
    (bytes + UNIT - 1) / UNIT
  }

  /** The class of a cell for so many bytes: a cell has to have room for a free-list link. */
  function Class(bytes: nat): nat {
    if bytes < FREEOBJSIZE then Units(FREEOBJSIZE) else Units(bytes)
  }

  /** A class is the least number of units that has room for the bytes and for a free-list link. */
  lemma ClassFits(bytes: nat)
    ensures 8 * Class(bytes) >= bytes && 8 * Class(bytes) >= 16
    ensures forall u: nat :: 8 * u >= bytes && 8 * u >= 16 ==> Class(bytes) <= u
  {
  }

  /** The bytes of a list of n entries: its two counts, and two pointers for each entry. */
  function ListBytes(n: nat): nat {
    n * KVSIZE + KVOFFSET
  }

  /** Mfree is given the units without that minimum: right for every list, and for bucket arrays from
      two buckets on, which is what Ttable starts with. */
  lemma FreedInClass(n: nat, ln: nat)
    ensures Units(ListBytes(n)) == Class(ListBytes(n))
    ensures Units(ln * PTRSIZE) == Class(ln * PTRSIZE) <==> ln >= 2
  {
  }

  /** CALCNUM. */
  function CalcNum(size: nat): nat {
    if size < 20 then 1000 else if size < 200 then 100 else 1
  }

  ghost predicate NoDup(s: seq<Ref>) {
    forall i, j :: 0 <= i < j < |s| ==> s[i] != s[j]
  }

  /** Where cell i of a buffer at base starts, if each cell is w bytes long. */
  function CellAt(base: nat, i: nat, w: nat): nat {
    base + i * w
  }

  function CutCells(base: nat, n: nat, w: nat): (cells: seq<Ref>)
    ensures |cells| == n && forall i :: 0 <= i < n ==> cells[i] == CellAt(base, i, w)
  {
    seq(n, i requires 0 <= i < n => CellAt(base, i, w))
  }

  lemma Spaced(base: nat, i: nat, j: nat, w: nat)
    requires i < j
    ensures base <= CellAt(base, i, w) && CellAt(base, i, w) + w <= CellAt(base, j, w)
  {
    assert (i + 1) * w <= j * w;
  }

  lemma CellsApart(base: nat, n: nat, w: nat)
    requires w > 0
    ensures NoDup(CutCells(base, n, w))
    ensures forall p :: p in CutCells(base, n, w) ==> base <= p && p + w <= CellAt(base, n, w)
    ensures forall p, q :: p in CutCells(base, n, w) && q in CutCells(base, n, w) && p < q ==> p + w <= q
    ensures base <= CellAt(base, n, w)
  {
    hide CellAt;
    var cells := CutCells(base, n, w);
    forall i, j | 0 <= i < j < n ensures cells[i] + w <= cells[j] { Spaced(base, i, j, w); }
    forall p | p in cells ensures base <= p && p + w <= CellAt(base, n, w) {
      var i :| 0 <= i < n && cells[i] == p;
      Spaced(base, i, n, w);
    }
    forall p, q | p in cells && q in cells && p < q ensures p + w <= q {
      var i :| 0 <= i < n && cells[i] == p;
      var j :| 0 <= j < n && cells[j] == q;
      InOrder(cells, w, i, j);
    }
    assert base <= CellAt(base, n, w) by { Positive(base, n, w); }
  }

  lemma InOrder(cells: seq<Ref>, w: nat, i: nat, j: nat)
    requires i < |cells| && j < |cells| && cells[i] < cells[j]
    requires forall a, b :: 0 <= a < b < |cells| ==> cells[a] + w <= cells[b]
    ensures cells[i] + w <= cells[j]
  {
  }

  lemma Positive(base: nat, n: nat, w: nat)
    ensures base <= CellAt(base, n, w)
  {
  }

  /** The cells lie below top, one behind the other. */
  ghost predicate Spread(class_: map<Ref, nat>, top: Ref) {
    && (forall p :: p in class_ ==> class_[p] > 0 && p + UNIT * class_[p] <= top)
    && (forall p, q :: p in class_ && q in class_ && p < q ==> p + UNIT * class_[p] <= q)
  }

  /** A buffer is put behind all that there is. */
  lemma SpreadMore(class_: map<Ref, nat>, top: Ref, cells: seq<Ref>, end: Ref, size: nat)
    requires Spread(class_, top) && size > 0 && top <= end
    requires forall p :: p in cells ==> top <= p && p + UNIT * size <= end
    requires forall p, q :: p in cells && q in cells && p < q ==> p + UNIT * size <= q
    ensures forall p :: p in cells ==> p !in class_
    ensures Spread(class_ + (map p | p in cells :: size), end)
  {
  }

  class Memory {
    var free: map<nat, seq<Ref>>    // freearray: the free list of each class
    var top: Ref                    // the end of all buffers
    ghost var class_: map<Ref, nat> // the class of every cell ever cut
    ghost var used: set<Ref>

    ghost predicate Whole()
      reads this
    {
      && used <= class_.Keys
      && (forall u :: u in free ==> FreeOk(u))
      && (forall p :: p in class_ && p !in used ==> class_[p] in free && p in free[class_[p]])
      && Spread(class_, top)
    }

    ghost predicate FreeOk(u: nat)
      requires u in free
      reads this
    {
      NoDup(free[u]) && forall p :: p in free[u] ==> p in class_ && class_[p] == u && p !in used
    }

    constructor ()
      ensures Whole() && used == {} && class_ == map[]
    {
      free, top, class_, used := map[], 0, map[], {};
    }

    /** allocbuffer, for a class with an empty free list. */
    method Allocbuffer(size: nat)
      requires Whole() && size > 0 && (size in free ==> free[size] == [])
      modifies this
      ensures Whole() && size in free && used == old(used)
      ensures |free[size]| == if size < 20 then 1000 else if size < 200 then 100 else 1
      ensures forall u :: u != size ==> (u in free <==> u in old(free)) && (u in free ==> free[u] == old(free)[u])
      ensures class_.Keys == old(class_).Keys + set p | p in free[size]
      ensures forall p :: p in free[size] ==> p >= old(top)
      ensures forall p :: p in old(class_) ==> p in class_ && class_[p] == old(class_)[p]
    {
      hide CutCells, CellAt, NoDup, Spread;
      var n, w := CalcNum(size), UNIT * size;
      var cells, end := CutCells(top, n, w), CellAt(top, n, w);
      CellsApart(top, n, w);
      SpreadMore(class_, top, cells, end, size);
      class_ := class_ + map p | p in cells :: size;
      free := free[size := cells];
      top := end;
      forall u | u in free ensures FreeOk(u) {
        if u != size { assert old(FreeOk(u)); }
      }
      forall p | p in class_ && p !in used ensures class_[p] in free && p in free[class_[p]] {
        if p in old(class_) { assert old(class_)[p] != size; }
      }
    }

    /** Mallocate. */
    method Mallocate(bytes: nat) returns (p: Ref)
      requires Whole()
      modifies this
      ensures Whole() && p !in old(used) && used == old(used) + {p}
      ensures p in class_ && class_[p] == Class(bytes) && bytes <= 8 * class_[p]
      ensures forall q :: q in old(class_) ==> q in class_ && class_[q] == old(class_)[q]
    {
      ClassFits(bytes);
      hide Spread, NoDup, Class, FreeOk;
      var size := Class(bytes);
      if size !in free || free[size] == [] {
        Allocbuffer(size);
      }
      p := Take(size);
    }

    /** The first cell of a free list. */
    method Take(size: nat) returns (p: Ref)
      requires Whole() && size in free && free[size] != []
      modifies this`free, this`used
      ensures Whole() && p !in old(used) && used == old(used) + {p} && p in class_ && class_[p] == size
    {
      hide Spread;
      assert FreeOk(size);
      p := free[size][0];
      ghost var was := free;
      assert p in free[size];
      free := free[size := free[size][1..]];
      used := used + {p};
      forall u | u in free ensures FreeOk(u) {
        if u == size {
          assert free[u] == was[u][1..];
          forall q | q in free[u] ensures q in was[u] && q != p {}
        } else {
          assert u in was;
          Elsewhere(was, class_, u, size, p);
        }
      }
      forall q | q in class_ && q !in used ensures class_[q] in free && q in free[class_[q]] {
        if class_[q] == size {
          var i :| 0 <= i < |was[size]| && was[size][i] == q;
          assert free[size][i - 1] == q;
        }
      }
    }

    /** Mfree, with the class the cell was allocated in. */
    method Mfree(p: Ref, size: nat)
      requires Whole() && p in used && class_[p] == size
      modifies this
      ensures Whole() && used == old(used) - {p} && class_ == old(class_)
    {
      hide Spread;
      ghost var was := free;
      free := free[size := [p] + if size in free then free[size] else []];
      used := used - {p};
      forall u | u in free ensures FreeOk(u) {
        if u in was { assert old(FreeOk(u)); }
        if u == size { assert forall q :: q in free[u] <==> q == p || (u in was && q in was[u]); }
      }
      forall q | q in class_ && q !in used ensures class_[q] in free && q in free[class_[q]] {
        if q == p {
          assert free[size][0] == p;
        } else if class_[q] == size {
          assert q in was[size];
        }
      }
    }
  }

  lemma Elsewhere(free: map<nat, seq<Ref>>, class_: map<Ref, nat>, u: nat, size: nat, p: Ref)
    requires u in free && u != size && p in class_ && class_[p] == size
    requires forall q :: q in free[u] ==> q in class_ && class_[q] == u
    ensures p !in free[u]
  {
  }

  // ---- the memory of one table ----

  /** A bucket's list: its cell, the entries in it and the entries it has room for. */
  datatype Slot = NoList | List(cell: Ref, i: nat, n: nat)

  /** What a bucket has room for, and how much of it is used. */
  datatype Room = NoRoom | Room(i: nat, n: nat)

  function RoomOf(l: Slot): Room {
    if l.NoList? then NoRoom else Room(l.i, l.n)
  }

  function Rooms(lists: seq<Slot>): (rs: seq<Room>)
    ensures |rs| == |lists|
  {
    seq(|lists|, b requires 0 <= b < |lists| => RoomOf(lists[b]))
  }

  function NoRooms(ln: nat): (rs: seq<Room>)
    ensures |rs| == ln
  {
    seq(ln, _ => NoRoom)
  }

  /** One more entry: a first list of one, a list of twice the room, or the free room. */
  function Grown(r: Room): Room {
    if r.NoRoom? then Room(1, 1) else if r.i == r.n then Room(r.i + 1, 2 * r.n) else Room(r.i + 1, r.n)
  }

  /** The first n entries of old bucket i are added, entry j to bucket ind(i, j). */
  function AddRooms(rs: seq<Room>, n: nat, i: nat, ind: (nat, nat) -> nat): (r: seq<Room>)
    requires forall i, j :: ind(i, j) < |rs|
    ensures |r| == |rs|
  {
    if n == 0 then rs
    else
      var qs, b := AddRooms(rs, n - 1, i, ind), ind(i, n - 1);
      qs[b := Grown(qs[b])]
  }

  /** The entries of the first i old buckets are added. */
  function MoveRooms(rs: seq<Room>, olds: seq<Room>, i: nat, ind: (nat, nat) -> nat): (r: seq<Room>)
    requires i <= |olds| && forall i, j :: ind(i, j) < |rs|
    ensures |r| == |rs|
  {
    if i == 0 then rs
    else
      var qs := MoveRooms(rs, olds, i - 1, ind);
      if olds[i - 1].NoRoom? then qs else AddRooms(qs, olds[i - 1].i, i - 1, ind)
  }

  lemma MoveNone(rs: seq<Room>, olds: seq<Room>, ind: (nat, nat) -> nat)
    requires forall i, j :: ind(i, j) < |rs|
    ensures MoveRooms(rs, olds, 0, ind) == rs
  {
  }

  lemma MoveOne(rs: seq<Room>, olists: seq<Slot>, i: nat, ind: (nat, nat) -> nat)
    requires i < |olists| && forall i, j :: ind(i, j) < |rs|
    ensures var qs := MoveRooms(rs, Rooms(olists), i, ind);
      MoveRooms(rs, Rooms(olists), i + 1, ind) == if olists[i].NoList? then qs else AddRooms(qs, olists[i].i, i, ind)
  {
    hide AddRooms;
  }

  function Cells(lists: seq<Slot>): set<Ref> {
    set b | 0 <= b < |lists| && lists[b].List? :: lists[b].cell
  }

  /** The lists from b on. */
  function CellsFrom(lists: seq<Slot>, b: nat): set<Ref>
    requires b <= |lists|
  {
    Cells(lists[b..])
  }

  ghost predicate SlotOk(used: set<Ref>, class_: map<Ref, nat>, l: Slot) {
    l.List? ==> l.cell in used && l.cell in class_ && class_[l.cell] == Class(ListBytes(l.n)) && 1 <= l.n && l.i <= l.n
  }

  ghost predicate SlotsOk(used: set<Ref>, class_: map<Ref, nat>, lists: seq<Slot>) {
    && (forall b :: 0 <= b < |lists| ==> SlotOk(used, class_, lists[b]))
    && Apart(lists)
  }

  class TableMemory {
    const mem: Memory
    var lp: Ref
    var ln: nat
    var lists: seq<Slot>

    ghost predicate Valid()
      reads this, mem
    {
      && ln == |lists| >= 2 && lp in mem.used && lp in mem.class_ && mem.class_[lp] == Class(ln * PTRSIZE)
      && SlotsOk(mem.used, mem.class_, lists) && lp !in Cells(lists)
    }

    ghost function Parts(): set<Ref>
      reads this
    {
      {lp} + Cells(lists)
    }

    /** Ttable. */
    constructor (mem: Memory, sizehint: int)
      requires mem.Whole()
      modifies mem
      ensures Valid() && mem.Whole() && this.mem == mem
      ensures Rooms(lists) == NoRooms(if sizehint < 2 then 2 else sizehint)
      ensures mem.used == old(mem.used) + Parts() && Parts() !! old(mem.used)
    {
      var n := if sizehint < 2 then 2 else sizehint;
      this.mem := mem;
      ln := n;
      lists := seq(n, _ => NoList);
      var p := mem.Mallocate(n * PTRSIZE);
      lp := p;
      new;
      assert Cells(lists) == {};
    }

    /** The cells of a copy, as reccopytable allocates them: an array of as many buckets, and a list of
        the same size for every list. */
    constructor CopyOf(from: TableMemory)
      requires from.Valid() && from.mem.Whole()
      modifies from.mem
      ensures Valid() && mem == from.mem && mem.Whole() && from.Valid()
      ensures mem.used == old(from.mem.used) + Parts() && Parts() !! old(from.mem.used)
      ensures ln == from.ln && Rooms(lists) == Rooms(from.lists)
    {
      this.mem := from.mem;
      ln := from.ln;
      lists := seq(from.ln, _ => NoList);
      var p := from.mem.Mallocate(from.ln * PTRSIZE);
      lp := p;
      new;
      AllRoom(old(from.mem.used), old(from.mem.class_), from.lists);
      hide Spread, Class, Units, ListBytes, SlotOk, SlotsOk, Cells, HasRoom, RoomOf, from.mem.Whole;
      NoCells(ln, mem.used, mem.class_);
      CopyLists(from, old(from.mem.used));
      StillOk(old(from.mem.used), old(from.mem.class_), mem.used, mem.class_, from.lists);
    }

    method CopyLists(from: TableMemory, ghost before: set<Ref>)
      requires Valid() && mem.Whole() && from != this && from.mem == mem && ln == from.ln && |from.lists| == ln
      requires (forall b :: 0 <= b < ln ==> lists[b].NoList?) && forall b :: 0 <= b < ln ==> HasRoom(from.lists[b])
      requires mem.used == before + Parts() && Parts() !! before
      modifies this`lists, mem
      ensures Valid() && mem.Whole() && mem.used == before + Parts() && Parts() !! before
      ensures forall q :: q in old(mem.class_) ==> q in mem.class_ && mem.class_[q] == old(mem.class_)[q]
      ensures |lists| == ln && forall b :: 0 <= b < ln ==> RoomOf(lists[b]) == RoomOf(from.lists[b])
    {
      hide Spread, Class, Units, ListBytes, SlotOk, SlotsOk, Cells, HasRoom, RoomOf, Valid, mem.Whole;
      assert |lists| == ln by { ListsAre(); }
      for i := 0 to ln
        invariant Valid() && mem.Whole() && |lists| == ln
        invariant mem.used == before + Parts() && Parts() !! before
        invariant forall q :: q in old(mem.class_) ==> q in mem.class_ && mem.class_[q] == old(mem.class_)[q]
        invariant forall b :: i <= b < ln ==> lists[b].NoList?
        invariant forall b :: 0 <= b < i ==> RoomOf(lists[b]) == RoomOf(from.lists[b])
      {
        CopyList(from, i, before);
      }
    }

    lemma ListsAre()
      requires Valid()
      ensures |lists| == ln
    {
    }

    method CopyList(from: TableMemory, i: nat, ghost before: set<Ref>)
      requires Valid() && mem.Whole() && from != this && from.mem == mem && ln == from.ln && i < ln
      requires lists[i].NoList? && |from.lists| == ln && HasRoom(from.lists[i])
      requires mem.used == before + Parts() && Parts() !! before
      modifies this`lists, mem
      ensures Valid() && mem.Whole() && mem.used == before + Parts() && Parts() !! before
      ensures forall q :: q in old(mem.class_) ==> q in mem.class_ && mem.class_[q] == old(mem.class_)[q]
      ensures |lists| == ln && forall b :: 0 <= b < ln && b != i ==> lists[b] == old(lists[b])
      ensures RoomOf(lists[i]) == RoomOf(from.lists[i])
    {
      hide Spread, Class, Units, ListBytes, SlotOk, SlotsOk, Cells;
      var l := from.lists[i];
      if l.List? {
        var q := mem.Mallocate(ListBytes(l.n));
        NewSlot(mem.used, mem.class_, q, l.i, l.n);
        SlotSet(old(mem.used), old(mem.class_), mem.used, mem.class_, lists, i, List(q, l.i, l.n));
        lists := lists[i := List(q, l.i, l.n)];
      }
    }

    /** Room for one more entry in bucket b: a first list, or one of twice the size. */
    method Append(b: nat)
      requires Valid() && mem.Whole() && b < ln
      modifies this, mem
      ensures Valid() && mem.Whole() && ln == old(ln) && lp == old(lp)
      ensures Rooms(lists) == old(Rooms(lists))[b := Grown(old(Rooms(lists))[b])]
      ensures mem.used - Parts() == old(mem.used - Parts())
      ensures forall p :: p in old(mem.used) - old(Parts()) ==> p in mem.class_ && mem.class_[p] == old(mem.class_)[p]
    {
      hide Spread, Class, ListBytes, SlotOk, SlotsOk;
      var l := lists[b];
      if l.NoList? {
        var p := mem.Mallocate(ListBytes(1));
        NewSlot(mem.used, mem.class_, p, 1, 1);
        SlotSet(old(mem.used), old(mem.class_), mem.used, mem.class_, lists, b, List(p, 1, 1));
        lists := lists[b := List(p, 1, 1)];
      } else if l.i == l.n {
        Double(b);
      } else {
        SlotGrows(mem.used, mem.class_, lists, b);
        SlotSet(mem.used, mem.class_, mem.used, mem.class_, lists, b, List(l.cell, l.i + 1, l.n));
        lists := lists[b := List(l.cell, l.i + 1, l.n)];
      }
    }

    /** A full list is moved to one of twice the size, and its cell freed. */
    method Double(b: nat)
      requires Valid() && mem.Whole() && b < ln && lists[b].List? && lists[b].i == lists[b].n
      modifies this, mem
      ensures Valid() && mem.Whole() && ln == old(ln) && lp == old(lp)
      ensures |lists| == |old(lists)| && lists == old(lists)[b := lists[b]]
      ensures RoomOf(lists[b]) == Grown(RoomOf(old(lists[b])))
      ensures mem.used - Parts() == old(mem.used - Parts())
      ensures forall p :: p in old(mem.used) - old(Parts()) ==> p in mem.class_ && mem.class_[p] == old(mem.class_)[p]
    {
      hide Spread, Class, Units, ListBytes;
      var l := lists[b];
      FreedInClass(l.n, 2);
      assert SlotOk(mem.used, mem.class_, lists[b]);
      var p := mem.Mallocate(ListBytes(2 * l.n));
      mem.Mfree(l.cell, Units(ListBytes(l.n)));
      SlotSet(old(mem.used), old(mem.class_), mem.used, mem.class_, lists, b, List(p, l.i + 1, 2 * l.n));
      lists := lists[b := List(p, l.i + 1, 2 * l.n)];
    }

    /** A bucket array of ln1 buckets, all without a list; the old array and lists are no longer parts. */
    method NewArray(ln1: nat)
      requires Valid() && mem.Whole() && ln1 >= 2
      modifies this, mem
      ensures Valid() && mem.Whole() && ln == ln1 && Parts() == {lp} && Rooms(lists) == NoRooms(ln1)
      ensures lp !in old(mem.used) && mem.used == old(mem.used) + {lp}
      ensures forall p :: p in old(mem.class_) ==> p in mem.class_ && mem.class_[p] == old(mem.class_)[p]
    {
      hide Spread, Class, Units, SlotsOk, Cells;
      var p := mem.Mallocate(ln1 * PTRSIZE);
      lp, ln, lists := p, ln1, seq(ln1, _ => NoList);
      NoCells(ln1, mem.used, mem.class_);
    }

    /** copytable: entry j of old bucket i goes to bucket ind(i, j) of ln1. */
    method Rehash(ln1: nat, ind: (nat, nat) -> nat)
      requires Valid() && mem.Whole() && ln1 >= 2 && forall i, j :: ind(i, j) < ln1
      modifies this, mem
      ensures Valid() && mem.Whole() && ln == ln1
      ensures Rooms(lists) == MoveRooms(NoRooms(ln1), old(Rooms(lists)), |old(lists)|, ind)
      ensures mem.used - Parts() == old(mem.used - Parts())
      ensures forall p :: p in old(mem.used) - old(Parts()) ==> p in mem.class_ && mem.class_[p] == old(mem.class_)[p]
    {
      hide Spread, Apart;
      ghost var base := mem.used - Parts();
      var olp, oln, olists := lp, ln, lists;
      OldLists(mem.used, mem.class_, olists);
      FreedInClass(0, oln);
      assert Cells(olists) !! base + {olp} && base + {olp} <= mem.class_.Keys;
      hide Class, Units, ListBytes, SlotsOk, Cells, CellsFrom, Classed, Rooms, MoveRooms, Valid, mem.Whole;
      NewArray(ln1);
      ClassedKept(old(mem.class_), mem.class_, olists, 0);
      MoveLists(olists, ind, base + {olp});
      FreeOld(olp, Units(oln * PTRSIZE));
    }

    /** The loop of copytable over the old buckets. */
    method MoveLists(olists: seq<Slot>, ind: (nat, nat) -> nat, ghost base: set<Ref>)
      requires Valid() && mem.Whole() && ln == |lists| && forall i, j :: ind(i, j) < ln
      requires Apart(olists) && Classed(mem.class_, olists, 0) && Cells(olists) !! base
      requires mem.used - Parts() == base + CellsFrom(olists, 0) && base <= mem.class_.Keys
      modifies this, mem
      ensures Valid() && mem.Whole() && ln == old(ln) && mem.used - Parts() == base + CellsFrom(olists, |olists|)
      ensures Rooms(lists) == MoveRooms(old(Rooms(lists)), Rooms(olists), |olists|, ind)
      ensures forall p :: p in base ==> p in mem.class_ && mem.class_[p] == old(mem.class_)[p]
    {
      hide Spread, Class, Units, ListBytes, SlotsOk, Cells, CellsFrom, Classed, Apart, Rooms, MoveRooms, AddRooms,
        Valid, mem.Whole;
      MoveNone(Rooms(lists), Rooms(olists), ind);
      for i := 0 to |olists|
        invariant Valid() && mem.Whole() && ln == old(ln) && |lists| == ln
        invariant Rooms(lists) == MoveRooms(old(Rooms(lists)), Rooms(olists), i, ind)
        invariant mem.used - Parts() == base + CellsFrom(olists, i)
        invariant Classed(mem.class_, olists, i)
        invariant forall p :: p in base ==> p in mem.class_ && mem.class_[p] == old(mem.class_)[p]
      {
        MoveList(olists, i, ind, base);
        MoveOne(old(Rooms(lists)), olists, i, ind);
      }
    }

    /** The entries of old bucket i are moved and its list is freed. */
    method MoveList(olists: seq<Slot>, i: nat, ind: (nat, nat) -> nat, ghost base: set<Ref>)
      requires Valid() && mem.Whole() && forall i, j :: ind(i, j) < ln
      requires |lists| == ln && i < |olists| && Apart(olists) && Classed(mem.class_, olists, i) && Cells(olists) !! base
      requires mem.used - Parts() == base + CellsFrom(olists, i) && base <= mem.class_.Keys
      modifies this, mem
      ensures Valid() && mem.Whole() && ln == old(ln) && mem.used - Parts() == base + CellsFrom(olists, i + 1)
      ensures |lists| == ln && Rooms(lists) ==
        if olists[i].NoList? then old(Rooms(lists)) else AddRooms(old(Rooms(lists)), olists[i].i, i, ind)
      ensures Classed(mem.class_, olists, i + 1)
      ensures forall p :: p in base ==> p in mem.class_ && mem.class_[p] == old(mem.class_)[p]
    {
      hide Spread, Class, Units, ListBytes, SlotsOk, Cells, CellsFrom, Classed, Apart, Valid, mem.Whole;
      CellsStep(olists, i);
      var l := olists[i];
      ClassedStep(mem.class_, olists, i);
      if l.List? {
        FreedInClass(l.n, 2);
        OneCell(olists, i);
        AppendAll(l.i, i, ind);
        ClassedKept(old(mem.class_), mem.class_, olists, i);
        ClassedStep(mem.class_, olists, i);
        FreeOld(l.cell, Units(ListBytes(l.n)));
      }
    }

    /** The entries of one old bucket. */
    method AppendAll(n: nat, i: nat, ind: (nat, nat) -> nat)
      requires Valid() && mem.Whole() && forall i, j :: ind(i, j) < ln
      modifies this, mem
      ensures Valid() && mem.Whole() && ln == old(ln)
      ensures Rooms(lists) == AddRooms(old(Rooms(lists)), n, i, ind)
      ensures mem.used - Parts() == old(mem.used - Parts())
      ensures forall p :: p in old(mem.used - Parts()) ==> p in mem.class_ && mem.class_[p] == old(mem.class_)[p]
    {
      hide Spread, SlotsOk, Cells, Class;
      for j := 0 to n
        invariant Valid() && mem.Whole() && ln == old(ln)
        invariant Rooms(lists) == AddRooms(old(Rooms(lists)), j, i, ind)
        invariant mem.used - Parts() == old(mem.used - Parts())
        invariant forall p :: p in old(mem.used - Parts()) ==> p in mem.class_ && mem.class_[p] == old(mem.class_)[p]
      {
        Append(ind(i, j));
      }
    }

    /** Mfree of a cell that is no longer a part of the table. */
    method FreeOld(p: Ref, size: nat)
      requires Valid() && mem.Whole() && p in mem.used - Parts() && mem.class_[p] == size
      modifies mem
      ensures Valid() && mem.Whole() && mem.used - Parts() == old(mem.used - Parts()) - {p}
      ensures mem.class_ == old(mem.class_)
    {
      mem.Mfree(p, size);
      assert forall b :: 0 <= b < |lists| ==> SlotOk(old(mem.used), mem.class_, lists[b]);
      assert forall b :: 0 <= b < |lists| && lists[b].List? ==> lists[b].cell in Cells(lists);
    }

    /** delete: the list of the bucket keeps its cell. */
    method Drop(b: nat)
      requires Valid() && b < ln && lists[b].List? && lists[b].i > 0
      modifies this`lists
      ensures Valid() && Parts() == old(Parts())
      ensures Rooms(lists) == old(Rooms(lists))[b := Room(old(lists)[b].i - 1, old(lists)[b].n)]
    {
      hide Spread, Class, ListBytes;
      var l := lists[b];
      assert SlotOk(mem.used, mem.class_, l);
      SlotSet(mem.used, mem.class_, mem.used, mem.class_, lists, b, List(l.cell, l.i - 1, l.n));
      lists := lists[b := List(l.cell, l.i - 1, l.n)];
    }

    /** Tfreehelper: every part of the table goes back. */
    method Free()
      requires Valid() && mem.Whole()
      modifies mem
      ensures mem.Whole() && mem.used == old(mem.used) - Parts()
    {
      hide Spread, Class, Units, ListBytes;
      FreedInClass(0, ln);
      assert lists[0..] == lists;
      for i := 0 to ln
        invariant mem.Whole() && mem.class_ == old(mem.class_)
        invariant mem.used == old(mem.used) - Parts() + {lp} + CellsFrom(lists, i)
      {
        CellsStep(lists, i);
        if lists[i].List? {
          FreedInClass(lists[i].n, 2);
          assert SlotOk(old(mem.used), mem.class_, lists[i]);
          mem.Mfree(lists[i].cell, Units(ListBytes(lists[i].n)));
          OneCell(lists, i);
        }
      }
      assert Cells([]) == {} && lists[ln..] == [];
      mem.Mfree(lp, Units(ln * PTRSIZE));
    }
  }

  /** A list of n entries has its two counts and all of its entries in its own cell, the bucket array has a
      pointer for each list, and no other cell has a byte of them. */
  lemma TableFits(t: TableMemory, b: nat, q: Ref)
    requires t.Valid() && t.mem.Whole() && b < t.ln && q in t.mem.class_
    ensures q != t.lp ==> t.lp + 8 * t.ln <= q || q + 8 * t.mem.class_[q] <= t.lp
    ensures var l := t.lists[b];
      l.List? && q != l.cell ==> l.i <= l.n && (l.cell + 16 + 16 * l.n <= q || q + 8 * t.mem.class_[q] <= l.cell)
  {
    ClassFits(t.ln * PTRSIZE);
    var l := t.lists[b];
    if l.List? {
      assert SlotOk(t.mem.used, t.mem.class_, l);
      ClassFits(ListBytes(l.n));
    }
  }

  /** A table is not touched by what is done to another one. */
  twostate lemma OtherStays(t: TableMemory, o: TableMemory)
    requires o.mem == t.mem && old(t.mem.Whole()) && old(o.Valid()) && old(o.Parts() !! t.Parts()) && unchanged(o)
    requires t.mem.used - t.Parts() == old(t.mem.used - t.Parts())
    requires forall p :: p in old(t.mem.used) - old(t.Parts()) ==>
      p in t.mem.class_ && t.mem.class_[p] == old(t.mem.class_)[p]
    ensures o.Valid() && o.Parts() == old(o.Parts()) && o.Parts() !! t.Parts()
  {
    var u, c := old(t.mem.used), old(t.mem.class_);
    forall p | p in o.Parts() ensures p in t.mem.used - t.Parts() && p in t.mem.class_ && t.mem.class_[p] == c[p] {
      PartUsed(u, c, o.lists, o.lp, p);
      assert p in old(t.mem.used - t.Parts());
    }
    assert o.lp in o.Parts();
    forall b | 0 <= b < |o.lists| ensures SlotOk(t.mem.used, t.mem.class_, o.lists[b]) {
      assert SlotOk(u, c, o.lists[b]);
      if o.lists[b].List? { assert o.lists[b].cell in o.Parts(); }
    }
  }

  lemma PartUsed(u: set<Ref>, c: map<Ref, nat>, lists: seq<Slot>, lp: Ref, p: Ref)
    requires SlotsOk(u, c, lists) && lp in u && lp in c && p in {lp} + Cells(lists)
    ensures p in u && p in c
  {
    if p != lp {
      var b :| 0 <= b < |lists| && lists[b].List? && lists[b].cell == p;
      assert SlotOk(u, c, lists[b]);
    }
  }

  /** A list with as much room as entries at least. */
  predicate HasRoom(l: Slot) {
    l.List? ==> 1 <= l.n && l.i <= l.n
  }

  lemma AllRoom(used: set<Ref>, class_: map<Ref, nat>, lists: seq<Slot>)
    requires SlotsOk(used, class_, lists)
    ensures forall b :: 0 <= b < |lists| ==> HasRoom(lists[b])
  {
    hide Class, ListBytes;
    forall b | 0 <= b < |lists| ensures HasRoom(lists[b]) { assert SlotOk(used, class_, lists[b]); }
  }

  lemma NoCells(n: nat, used: set<Ref>, class_: map<Ref, nat>)
    ensures Cells(seq(n, _ => NoList)) == {} && SlotsOk(used, class_, seq(n, _ => NoList))
  {
  }

  lemma StillOk(u0: set<Ref>, c0: map<Ref, nat>, u1: set<Ref>, c1: map<Ref, nat>, lists: seq<Slot>)
    requires SlotsOk(u0, c0, lists) && u0 <= u1
    requires forall p :: p in c0 ==> p in c1 && c1[p] == c0[p]
    ensures SlotsOk(u1, c1, lists)
  {
    forall b | 0 <= b < |lists| ensures SlotOk(u1, c1, lists[b]) { assert SlotOk(u0, c0, lists[b]); }
  }

  lemma NewSlot(used: set<Ref>, class_: map<Ref, nat>, p: Ref, i: nat, n: nat)
    requires p in used && p in class_ && class_[p] == Class(ListBytes(n)) && 1 <= n && i <= n
    ensures SlotOk(used, class_, List(p, i, n))
  {
  }

  lemma SlotGrows(used: set<Ref>, class_: map<Ref, nat>, lists: seq<Slot>, b: nat)
    requires b < |lists| && SlotsOk(used, class_, lists) && lists[b].List? && lists[b].i != lists[b].n
    ensures lists[b].cell in used && SlotOk(used, class_, List(lists[b].cell, lists[b].i + 1, lists[b].n))
  {
    assert SlotOk(used, class_, lists[b]);
  }

  /** The lists from i on are in the class that their room tells, and in different cells. */
  ghost predicate Classed(class_: map<Ref, nat>, lists: seq<Slot>, i: nat) {
    && (forall b :: i <= b < |lists| && lists[b].List? ==>
      lists[b].cell in class_ && class_[lists[b].cell] == Class(ListBytes(lists[b].n)))
  }

  ghost predicate Apart(lists: seq<Slot>) {
    forall b, c :: 0 <= b < c < |lists| && lists[b].List? && lists[c].List? ==> lists[b].cell != lists[c].cell
  }

  lemma OldLists(used: set<Ref>, class_: map<Ref, nat>, lists: seq<Slot>)
    requires SlotsOk(used, class_, lists)
    ensures Apart(lists) && Classed(class_, lists, 0) && CellsFrom(lists, 0) == Cells(lists)
    ensures CellsFrom(lists, |lists|) == {}
  {
    hide Class, ListBytes;
    forall b | 0 <= b < |lists| && lists[b].List?
      ensures lists[b].cell in class_ && class_[lists[b].cell] == Class(ListBytes(lists[b].n))
    {
      assert SlotOk(used, class_, lists[b]);
    }
    assert lists[0..] == lists && lists[|lists|..] == [];
  }

  lemma ClassedStep(class_: map<Ref, nat>, lists: seq<Slot>, i: nat)
    requires i < |lists| && Classed(class_, lists, i)
    ensures Classed(class_, lists, i + 1)
    ensures lists[i].List? ==> lists[i].cell in class_ && class_[lists[i].cell] == Class(ListBytes(lists[i].n))
  {
  }

  lemma ClassedKept(c0: map<Ref, nat>, c1: map<Ref, nat>, lists: seq<Slot>, i: nat)
    requires i < |lists| && Classed(c0, lists, i)
    requires forall p :: p in CellsFrom(lists, i) && p in c0 ==> p in c1 && c1[p] == c0[p]
    ensures Classed(c1, lists, i)
  {
    hide Class, ListBytes;
    forall b | i <= b < |lists| && lists[b].List? ensures lists[b].cell in CellsFrom(lists, i) {
      assert lists[i..][b - i] == lists[b];
    }
  }

  lemma CellsStep(lists: seq<Slot>, i: nat)
    requires i < |lists|
    ensures CellsFrom(lists, i) == (if lists[i].List? then {lists[i].cell} else {}) + CellsFrom(lists, i + 1)
  {
    var a, b := lists[i..], lists[i + 1..];
    forall p | p in Cells(b) ensures p in Cells(a) {
      var c :| 0 <= c < |b| && b[c].List? && b[c].cell == p;
      assert a[c + 1] == b[c];
    }
    forall p | p in Cells(a) ensures p in Cells(b) || (lists[i].List? && p == lists[i].cell) {
      var c :| 0 <= c < |a| && a[c].List? && a[c].cell == p;
      if c > 0 { assert b[c - 1] == a[c]; }
    }
    if lists[i].List? { assert a[0] == lists[i]; }
  }

  /** A cell is that of one list only. */
  lemma OneCell(lists: seq<Slot>, i: nat)
    requires i < |lists| && lists[i].List?
    requires Apart(lists)
    ensures lists[i].cell !in CellsFrom(lists, i + 1) && lists[i].cell in Cells(lists)
  {
    var b := lists[i + 1..];
    forall c | 0 <= c < |b| && b[c].List? ensures b[c].cell != lists[i].cell {
      assert lists[i + 1 + c] == b[c];
    }
  }

  /** A new list in bucket b. */
  lemma SlotSet(u0: set<Ref>, c0: map<Ref, nat>, u1: set<Ref>, c1: map<Ref, nat>, lists: seq<Slot>, b: nat, l: Slot)
    requires b < |lists| && SlotsOk(u0, c0, lists) && l.List? && SlotOk(u1, c1, l)
    requires l.cell !in u0 || (lists[b].List? && l.cell == lists[b].cell)
    requires forall p :: p in c0 ==> p in c1 && c1[p] == c0[p]
    requires forall p :: p in u0 && (lists[b].List? ==> p != lists[b].cell) ==> p in u1
    ensures SlotsOk(u1, c1, lists[b := l])
    ensures Cells(lists[b := l]) == Cells(lists) - (if lists[b].List? then {lists[b].cell} else {}) + {l.cell}
  {
    var ms := lists[b := l];
    forall c | 0 <= c < |lists| ensures SlotOk(u1, c1, ms[c]) {
      assert SlotOk(u0, c0, lists[c]);
    }
    forall p | p in Cells(lists) - (if lists[b].List? then {lists[b].cell} else {}) + {l.cell} ensures p in Cells(ms) {
      if p == l.cell {
        assert ms[b] == l;
      } else {
        var c :| 0 <= c < |lists| && lists[c].List? && lists[c].cell == p;
        assert ms[c] == lists[c];
      }
    }
    forall p | p in Cells(ms)
      ensures p in Cells(lists) - (if lists[b].List? then {lists[b].cell} else {}) + {l.cell}
    {
      var c :| 0 <= c < |ms| && ms[c].List? && ms[c].cell == p;
      if c != b { assert lists[c] == ms[c]; }
    }
  }
}
