/** The cell array of cmd/lefty/code.c, the cells that the parser leaves there for a tree, and Tcode,
    which moves a stretch of them (cmd/lefty/tbl.c).

    The parts of a cell that the C code leaves unset are NULL links and NUL bytes here. */
module CodeCells {
  import opened LeftySyntax

  const CELL := 16      // sizeof (Code_t)
  const OFFSET := 8     // of u.s in it
  const NULL := -1

  datatype CType =
    | C_CODE | C_ASSIGN | C_INTEGER | C_STRING | C_BIN(op: BinOp) | C_UMINUS | C_NOT | C_PEXPR | C_FCALL
    | C_GVAR | C_LVAR | C_FUNCTION | C_TCONS | C_DECL | C_STMT | C_IF | C_WHILE | C_FOR | C_FORIN
    | C_BREAK | C_CONTINUE | C_RETURN | C_INTERNAL | C_ARGS | C_NOP

  datatype Byte = Nul | Ch(c: char)

  datatype Union = Fp(fp: int) | Num(n: int) | Chars(b: seq<Byte>)

  /** A Code_t, or sixteen bytes in the middle of a string. */
  datatype Cell = Node(ct: CType, next: int, u: Union) | Tail(b: seq<Byte>)

  // ---- trees of cells: the first child is behind fp, the next sibling behind next ----

  datatype Tree = Number(n: int) | Text(s: string) | Link(ct: CType, kids: Trees)

  datatype Trees = Nil | Cons(head: Tree, tail: Trees)

  function Cat(ts: Trees, us: Trees): (r: Trees)
    ensures ts.Cons? || us.Cons? ==> r.Cons?
  {
    match ts case Nil => us case Cons(t, rest) => Cons(t, Cat(rest, us))
  }

  // ---- strings ----

  /** The cells that Cstring takes for a string. */
  function StringSize(len: nat): (n: nat)
    ensures n >= 1
  {
    (len + OFFSET + 1 + CELL - 1) / CELL
  }

  /** Tcode counts them by the distance of the final NUL from the start of the first cell. */
  lemma StringSizes(len: nat)
    ensures StringSize(len) == 1 + (OFFSET + len) / CELL
  {
  }

  /** The same for cells of any size and any offset. */
  lemma CeilingIsFloor(len: nat, offset: nat, cell: nat)
    requires cell > 0
    ensures (len + offset + 1 + cell - 1) / cell == (len + offset) / cell + 1
  {
    var n := len + offset;
    var q, r := n / cell, n % cell;
    assert n + cell == cell * (q + 1) + r;
    assert (n + cell) / cell == q + 1 by { DivIs(n + cell, cell, q + 1, r); }
  }

  lemma DivIs(n: nat, d: nat, q: nat, r: nat)
    requires r < d && n == d * q + r
    ensures n / d == q
  {
    var q1 := n / d;
    var r1 := n % d;
    assert n == d * q1 + r1;
    if q1 < q { Monotone(d, q1 + 1, q); }
    if q1 > q { Monotone(d, q + 1, q1); }
  }

  lemma Monotone(d: nat, a: nat, b: nat)
    requires a <= b
    ensures d * a <= d * b && d * a == d * (a - 1) + d
  {
    assert d * (b - a) >= 0;
  }

  /** Byte k of a string buffer. */
  function ByteAt(s: string, k: nat): Byte {
    if k < |s| then Ch(s[k]) else Nul
  }

  function Bytes(s: string, from: nat, n: nat): (b: seq<Byte>)
    ensures |b| == n
  {
    seq(n, k requires 0 <= k < n => ByteAt(s, from + k))
  }

  /** The bytes of s from `from` on, in n cells. */
  function Tails(s: string, from: nat, n: nat): (cs: seq<Cell>)
    ensures |cs| == n
  {
    seq(n, k requires 0 <= k < n => Tail(Bytes(s, from + CELL * k, CELL)))
  }

  /** Cstring: as many characters as fit in the union, the rest over the cells that follow. */
  function StringCells(s: string, next: int): (cs: seq<Cell>)
    ensures |cs| == StringSize(|s|)
  {
    [Node(C_STRING, next, Chars(Bytes(s, 0, CELL - OFFSET)))] + Tails(s, CELL - OFFSET, StringSize(|s|) - 1)
  }

  // ---- the layout ----

  /** These are allocated after their first operand. */
  predicate After(ct: CType) {
    ct == C_ASSIGN || ct.C_BIN? || ct == C_FCALL
  }

  function Size(t: Tree): (n: nat)
    ensures n >= 1
  {
    match t
    case Number(_) => 1
    case Text(s) => StringSize(|s|)
    case Link(_, kids) => 1 + Sizes(kids)
  }

  function Sizes(ts: Trees): nat {
    match ts case Nil => 0 case Cons(t, rest) => Size(t) + Sizes(rest)
  }

  /** The index of the top cell of a tree whose cells start at lo. */
  function Root(t: Tree, lo: nat): (i: nat)
    ensures lo <= i < lo + Size(t)
  {
    if t.Link? && After(t.ct) && t.kids.Cons? then lo + Size(t.kids.head) else lo
  }

  function First(ts: Trees, lo: nat): int {
    match ts case Nil => NULL case Cons(t, _) => Root(t, lo)
  }

  /** The cells of a tree from lo on; `next` is the link of its top cell. */
  function Emit(t: Tree, lo: nat, next: int): (cs: seq<Cell>)
    ensures |cs| == Size(t)
    decreases t
  {
    match t
    case Number(n) => [Node(C_INTEGER, next, Num(n))]
    case Text(s) => StringCells(s, next)
    case Link(ct, kids) =>
      if After(ct) && kids.Cons? then
        var mid := lo + Size(kids.head);
        Emit(kids.head, lo, First(kids.tail, mid + 1)) + [Node(ct, next, Fp(Root(kids.head, lo)))]
        + Emits(kids.tail, mid + 1)
      else [Node(ct, next, Fp(First(kids, lo + 1)))] + Emits(kids, lo + 1)
  }

  function Emits(ts: Trees, lo: nat): (cs: seq<Cell>)
    ensures |cs| == Sizes(ts)
    decreases ts
  {
    match ts
    case Nil => []
    case Cons(t, rest) => Emit(t, lo, First(rest, lo + Size(t))) + Emits(rest, lo + Size(t))
  }

  // ---- relocation ----

  /** A link of Tcode. */
  function Shift(link: int, ci: int): int {
    if link == NULL then NULL else link - ci
  }

  function Moved(c: Cell, ci: int): Cell {
    match c
    case Tail(_) => c
    case Node(ct, next, Fp(fp)) => Node(ct, Shift(next, ci), Fp(Shift(fp, ci)))
    case Node(ct, next, u) => Node(ct, Shift(next, ci), u)
  }

  function MovedAll(cs: seq<Cell>, ci: int): (ds: seq<Cell>)
    ensures |ds| == |cs|
  {
    seq(|cs|, k requires 0 <= k < |cs| => Moved(cs[k], ci))
  }

  lemma MovedAdds(cs: seq<Cell>, ds: seq<Cell>, ci: int)
    ensures MovedAll(cs + ds, ci) == MovedAll(cs, ci) + MovedAll(ds, ci)
  {
  }

  /** Moving the cells of a tree gives the cells that the tree has at the new place. */
  lemma {:induction false} EmitMoves(t: Tree, lo: nat, ci: nat, next: int)
    requires ci <= lo
    ensures MovedAll(Emit(t, lo, next), ci) == Emit(t, lo - ci, Shift(next, ci))
    decreases t
  {
    hide MovedAll, First, Emits, StringSize, StringCells;
    match t
    case Number(n) =>
      MovedOne(Node(C_INTEGER, next, Num(n)), ci);
    case Text(s) => TextMoves(s, next, ci);
    case Link(ct, kids) =>
      if After(ct) && kids.Cons? {
        var mid := lo + Size(kids.head);
        EmitMoves(kids.head, lo, ci, First(kids.tail, mid + 1));
        EmitsMove(kids.tail, mid + 1, ci);
        FirstMoves(kids.tail, mid + 1, ci);
        MovedOne(Node(ct, next, Fp(Root(kids.head, lo))), ci);
        MovedAdds(Emit(kids.head, lo, First(kids.tail, mid + 1)), [Node(ct, next, Fp(Root(kids.head, lo)))], ci);
        MovedAdds(Emit(kids.head, lo, First(kids.tail, mid + 1)) + [Node(ct, next, Fp(Root(kids.head, lo)))],
          Emits(kids.tail, mid + 1), ci);
      } else {
        EmitsMove(kids, lo + 1, ci);
        FirstMoves(kids, lo + 1, ci);
        MovedOne(Node(ct, next, Fp(First(kids, lo + 1))), ci);
        MovedAdds([Node(ct, next, Fp(First(kids, lo + 1)))], Emits(kids, lo + 1), ci);
      }
  }

  lemma MovedOne(c: Cell, ci: int)
    ensures MovedAll([c], ci) == [Moved(c, ci)]
  {
  }

  lemma TextMoves(s: string, next: int, ci: int)
    ensures MovedAll(StringCells(s, next), ci) == StringCells(s, Shift(next, ci))
  {
  }

  lemma FirstMoves(ts: Trees, lo: nat, ci: nat)
    requires ci <= lo
    ensures Shift(First(ts, lo), ci) == First(ts, lo - ci)
  {
  }

  lemma {:induction false} EmitsMove(ts: Trees, lo: nat, ci: nat)
    requires ci <= lo
    ensures MovedAll(Emits(ts, lo), ci) == Emits(ts, lo - ci)
    decreases ts
  {
    hide MovedAll, First, Emit, StringSize;
    match ts
    case Nil =>
    case Cons(t, rest) =>
      EmitMoves(t, lo, ci, First(rest, lo + Size(t)));
      EmitsMove(rest, lo + Size(t), ci);
      FirstMoves(rest, lo + Size(t), ci);
      MovedAdds(Emit(t, lo, First(rest, lo + Size(t))), Emits(rest, lo + Size(t)), ci);
  }

  /** Every link below the top cell leads to a cell of the tree. */
  lemma {:induction false} LinksInside(t: Tree, lo: nat, next: int, k: nat)
    requires k < Size(t) && Emit(t, lo, next)[k].Node?
    ensures var c := Emit(t, lo, next)[k];
      && (k != Root(t, lo) - lo ==> c.next == NULL || lo <= c.next < lo + Size(t))
      && (k == Root(t, lo) - lo ==> c.next == next)
      && (c.u.Fp? ==> c.u.fp == NULL || lo <= c.u.fp < lo + Size(t))
    decreases t, 1
  {
    hide StringSize, Bytes, Emits, Size;
    match t
    case Number(_) => NumberSize(t);
    case Text(_) =>
    case Link(ct, kids) =>
      if After(ct) && kids.Cons? { LinksAfter(t, lo, next, k); } else { LinksBehind(t, lo, next, k); }
  }

  lemma NumberSize(t: Tree)
    requires t.Number?
    ensures Size(t) == 1
  {
  }

  lemma FirstIn(ts: Trees, lo: nat)
    ensures First(ts, lo) == NULL || lo <= First(ts, lo) < lo + Sizes(ts)
  {
  }

  lemma {:induction false} LinksAfter(t: Tree, lo: nat, next: int, k: nat)
    requires t.Link? && After(t.ct) && t.kids.Cons? && k < Size(t) && Emit(t, lo, next)[k].Node?
    ensures var c := Emit(t, lo, next)[k];
      && (k != Root(t, lo) - lo ==> c.next == NULL || lo <= c.next < lo + Size(t))
      && (k == Root(t, lo) - lo ==> c.next == next)
      && (c.u.Fp? ==> c.u.fp == NULL || lo <= c.u.fp < lo + Size(t))
    decreases t, 0
  {
    hide Emits, Size, Sizes;
    SizeIs(t.ct, t.kids);
    var n := Size(t.kids.head);
    var mid := lo + n;
    var a, b := Emit(t.kids.head, lo, First(t.kids.tail, mid + 1)), Emits(t.kids.tail, mid + 1);
    var c := Node(t.ct, next, Fp(Root(t.kids.head, lo)));
    assert Emit(t, lo, next) == a + [c] + b;
    if k < n {
      assert (a + [c] + b)[k] == a[k];
      LinksInside(t.kids.head, lo, First(t.kids.tail, mid + 1), k);
      FirstIn(t.kids.tail, mid + 1);
    } else if k > n {
      assert (a + [c] + b)[k] == b[k - n - 1];
      LinksBelow(t.kids.tail, mid + 1, k - n - 1);
    }
  }

  lemma {:induction false} LinksBehind(t: Tree, lo: nat, next: int, k: nat)
    requires t.Link? && !(After(t.ct) && t.kids.Cons?) && k < Size(t) && Emit(t, lo, next)[k].Node?
    ensures var c := Emit(t, lo, next)[k];
      && (k != Root(t, lo) - lo ==> c.next == NULL || lo <= c.next < lo + Size(t))
      && (k == Root(t, lo) - lo ==> c.next == next)
      && (c.u.Fp? ==> c.u.fp == NULL || lo <= c.u.fp < lo + Size(t))
    decreases t, 0
  {
    hide Emits;
    var a, b := [Node(t.ct, next, Fp(First(t.kids, lo + 1)))], Emits(t.kids, lo + 1);
    assert Emit(t, lo, next) == a + b;
    if k > 0 {
      assert (a + b)[k] == b[k - 1];
      LinksBelow(t.kids, lo + 1, k - 1);
    }
  }

  lemma {:induction false} LinksBelow(ts: Trees, lo: nat, k: nat)
    requires k < Sizes(ts) && Emits(ts, lo)[k].Node?
    ensures var c := Emits(ts, lo)[k];
      && (c.next == NULL || lo <= c.next < lo + Sizes(ts))
      && (c.u.Fp? ==> c.u.fp == NULL || lo <= c.u.fp < lo + Sizes(ts))
    decreases ts, 2
  {
    hide StringSize, Emit;
    var n := Size(ts.head);
    if k < n {
      LinksInside(ts.head, lo, First(ts.tail, lo + n), k);
    } else {
      LinksBelow(ts.tail, lo + n, k - n);
    }
  }

  // ---- building a tree cell by cell ----

  function SetNext(cs: seq<Cell>, i: int, next: int): seq<Cell> {
    if 0 <= i < |cs| && cs[i].Node? then cs[i := cs[i].(next := next)] else cs
  }

  function SetFp(cs: seq<Cell>, i: int, fp: int): seq<Cell> {
    if 0 <= i < |cs| && cs[i].Node? then cs[i := cs[i].(u := Fp(fp))] else cs
  }

  lemma {:induction false} TopNext(t: Tree, lo: nat, n: int, m: int)
    ensures SetNext(Emit(t, lo, n), Root(t, lo) - lo, m) == Emit(t, lo, m)
  {
    if t.Link? && After(t.ct) && t.kids.Cons? {
      var a := Emit(t.kids.head, lo, First(t.kids.tail, lo + Size(t.kids.head) + 1));
      var b := Emits(t.kids.tail, lo + Size(t.kids.head) + 1);
      var c := Node(t.ct, n, Fp(Root(t.kids.head, lo)));
      assert Emit(t, lo, n) == a + [c] + b;
      assert Emit(t, lo, n)[|a|] == c;
      assert Emit(t, lo, m) == a + [c.(next := m)] + b;
    }
  }

  /** The last of a row of trees. */
  function Last(ts: Trees, lo: nat): (i: nat)
    requires ts.Cons?
    ensures lo <= i < lo + Sizes(ts)
  {
    if ts.tail.Nil? then Root(ts.head, lo) else Last(ts.tail, lo + Size(ts.head))
  }

  lemma RowOne(t: Tree, lo: nat)
    ensures Emits(Cons(t, Nil), lo) == Emit(t, lo, NULL)
  {
    hide Emit;
    assert Emits(Nil, lo + Size(t)) == [];
  }

  lemma RowTwo(h: Tree, t: Tree, lo: nat)
    ensures Emits(Cons(h, Cons(t, Nil)), lo)
      == SetNext(Emits(Cons(h, Nil), lo), Root(h, lo) - lo, Root(t, lo + Size(h))) + Emit(t, lo + Size(h), NULL)
  {
    hide Emit, Root, SetNext;
    RowOne(h, lo);
    RowOne(t, lo + Size(h));
    TopNext(h, lo, NULL, Root(t, lo + Size(h)));
  }

  /** A change in the second of two parts. */
  lemma SetNextEnd(a: seq<Cell>, b: seq<Cell>, i: int, next: int)
    requires |a| <= i < |a| + |b|
    ensures SetNext(a + b, i, next) == a + SetNext(b, i - |a|, next)
  {
    assert (a + b)[i] == b[i - |a|];
  }

  lemma SetNextStart(a: seq<Cell>, b: seq<Cell>, i: int, next: int)
    requires 0 <= i < |a|
    ensures SetNext(a + b, i, next) == SetNext(a, i, next) + b
  {
    assert (a + b)[i] == a[i];
  }

  /** One more tree at the end of a row: its cells follow, and the last top cell links to it. */
  lemma {:induction false} RowGrows(ts: Trees, t: Tree, lo: nat)
    requires ts.Cons?
    ensures Emits(Cat(ts, Cons(t, Nil)), lo)
      == SetNext(Emits(ts, lo), Last(ts, lo) - lo, Root(t, lo + Sizes(ts))) + Emit(t, lo + Sizes(ts), NULL)
    decreases ts
  {
    hide Emit, Root, SetNext, Size;
    var n := Size(ts.head);
    if ts.tail.Nil? {
      assert Cat(ts, Cons(t, Nil)) == Cons(ts.head, Cons(t, Nil));
      RowTwo(ts.head, t, lo);
    } else {
      RowGrows(ts.tail, t, lo + n);
      SetNextEnd(Emit(ts.head, lo, First(ts.tail, lo + n)), Emits(ts.tail, lo + n), Last(ts, lo) - lo,
        Root(t, lo + Sizes(ts)));
    }
  }

  /** The last child of a tree. */
  function LastKid(ct: CType, ts: Trees, lo: nat): nat
    requires ts.Cons?
  {
    if !After(ct) then Last(ts, lo + 1)
    else if ts.tail.Nil? then Root(ts.head, lo)
    else Last(ts.tail, lo + Size(ts.head) + 1)
  }

  /** A further child. */
  lemma KidLinked(ct: CType, ts: Trees, t: Tree, lo: nat)
    requires ts.Cons?
    ensures var n := lo + Size(Link(ct, ts));
      Emit(Link(ct, Cat(ts, Cons(t, Nil))), lo, NULL)
        == SetNext(Emit(Link(ct, ts), lo, NULL), LastKid(ct, ts, lo) - lo, Root(t, n)) + Emit(t, n, NULL)
  {
    hide Size, Emit, SetNext;
    SizeIs(ct, ts);
    if !After(ct) {
      BehindLinked(ct, ts, t, lo);
    } else if ts.tail.Nil? {
      FirstKid(ct, ts.head, lo);
      SecondKid(ct, ts.head, t, lo);
    } else {
      AfterLinked(ct, ts, t, lo);
    }
  }

  lemma BehindLinked(ct: CType, ts: Trees, t: Tree, lo: nat)
    requires ts.Cons? && !After(ct)
    ensures var n := lo + 1 + Sizes(ts);
      Emit(Link(ct, Cat(ts, Cons(t, Nil))), lo, NULL)
        == SetNext(Emit(Link(ct, ts), lo, NULL), Last(ts, lo + 1) - lo, Root(t, n)) + Emit(t, n, NULL)
  {
    hide Size, Sizes, Emits, Root, SetNext;
    RowGrows(ts, t, lo + 1);
    SetNextEnd([Node(ct, NULL, Fp(First(ts, lo + 1)))], Emits(ts, lo + 1), Last(ts, lo + 1) - lo,
      Root(t, lo + 1 + Sizes(ts)));
  }

  lemma AfterLinked(ct: CType, ts: Trees, t: Tree, lo: nat)
    requires ts.Cons? && ts.tail.Cons? && After(ct)
    ensures var n := lo + Size(ts.head) + 1 + Sizes(ts.tail);
      Emit(Link(ct, Cat(ts, Cons(t, Nil))), lo, NULL)
        == SetNext(Emit(Link(ct, ts), lo, NULL), Last(ts.tail, lo + Size(ts.head) + 1) - lo, Root(t, n))
          + Emit(t, n, NULL)
  {
    hide Size, Sizes, Emits, Root, SetNext;
    var mid := lo + Size(ts.head);
    RowGrows(ts.tail, t, mid + 1);
    SetNextEnd(Emit(ts.head, lo, First(ts.tail, mid + 1)) + [Node(ct, NULL, Fp(Root(ts.head, lo)))],
      Emits(ts.tail, mid + 1), Last(ts.tail, mid + 1) - lo, Root(t, mid + 1 + Sizes(ts.tail)));
  }

  lemma SizeIs(ct: CType, ts: Trees)
    requires ts.Cons?
    ensures Size(Link(ct, ts)) == 1 + Size(ts.head) + Sizes(ts.tail) == 1 + Sizes(ts)
  {
  }

  /** An operator after its first operand. */
  lemma FirstKid(ct: CType, t: Tree, lo: nat)
    requires After(ct)
    ensures Emit(Link(ct, Cons(t, Nil)), lo, NULL) == Emit(t, lo, NULL) + [Node(ct, NULL, Fp(Root(t, lo)))]
  {
    assert Emits(Nil, lo + Size(t) + 1) == [];
  }

  lemma SecondKid(ct: CType, t: Tree, u: Tree, lo: nat)
    requires After(ct)
    ensures var n := lo + Size(t) + 1;
      Emit(Link(ct, Cons(t, Cons(u, Nil))), lo, NULL)
        == SetNext(Emit(t, lo, NULL) + [Node(ct, NULL, Fp(Root(t, lo)))], Root(t, lo) - lo, Root(u, n))
          + Emit(u, n, NULL)
  {
    hide SetNext, Size, Emits;
    var n := lo + Size(t) + 1;
    RowOne(u, n);
    TopNext(t, lo, NULL, Root(u, n));
    SetNextStart(Emit(t, lo, NULL), [Node(ct, NULL, Fp(Root(t, lo)))], Root(t, lo) - lo, Root(u, n));
  }

  /** The first child of a cell that was allocated before it. */
  lemma KidBehind(ct: CType, t: Tree, lo: nat)
    requires !After(ct)
    ensures Emit(Link(ct, Cons(t, Nil)), lo, NULL) == [Node(ct, NULL, Fp(Root(t, lo + 1)))] + Emit(t, lo + 1, NULL)
  {
    assert Emits(Nil, lo + 1 + Size(t)) == [];
  }
}
