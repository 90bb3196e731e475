/** What the readers of a code array see: the tree behind the links (eeval and codestr follow fp and
    next); and the function that Tcode cuts out, which they see unchanged. */
module CodeReads {
  import opened LeftySyntax
  import opened CodeCells
  import opened CodeTrees
  import G = LeftyGrammar

  /** Cell i is the top of tree t. */
  ghost predicate Reads(cs: seq<Cell>, i: int, t: Tree)
    decreases t
  {
    && 0 <= i < |cs| && cs[i].Node?
    && match t
       case Number(n) => cs[i].ct == C_INTEGER && cs[i].u == Num(n)
       case Text(s) => cs[i].ct == C_STRING && GetString(cs, i) == s
       case Link(ct, kids) => cs[i].ct == ct && cs[i].u.Fp? && ReadsRow(cs, cs[i].u.fp, kids)
  }

  /** Cell j and its right siblings are the tops of the trees ts. */
  ghost predicate ReadsRow(cs: seq<Cell>, j: int, ts: Trees)
    decreases ts
  {
    match ts
    case Nil => j == NULL
    case Cons(t, rest) => Reads(cs, j, t) && ReadsRow(cs, cs[j].next, rest)
  }

  lemma {:induction false} EmitReads(t: Tree, lo: nat, next: int, cs: seq<Cell>)
    requires lo + Size(t) <= |cs| && cs[lo..lo + Size(t)] == Emit(t, lo, next)
    ensures Reads(cs, Root(t, lo), t) && cs[Root(t, lo)].next == next
    decreases t
  {
    hide StringSize, StringCells, Emit, Emits, Size, Sizes, GetString;
    match t
    case Number(n) => CutNumber(n, lo, next, cs, lo);
    case Text(s) =>
      CutText(s, lo, next);
      TextReads(s, lo, next, cs);
    case Link(ct, kids) =>
      if After(ct) && kids.Cons? {
        var n := Size(kids.head);
        CutAfter(ct, kids, lo, next, cs, lo);
        EmitReads(kids.head, lo, First(kids.tail, lo + n + 1), cs);
        EmitsRead(kids.tail, lo + n + 1, cs);
        RowReads(cs, Root(kids.head, lo), kids);
      } else {
        CutBehind(ct, kids, lo, next, cs, lo);
        EmitsRead(kids, lo + 1, cs);
      }
  }

  lemma RowReads(cs: seq<Cell>, j: int, ts: Trees)
    requires ts.Cons? && Reads(cs, j, ts.head) && ReadsRow(cs, cs[j].next, ts.tail)
    ensures ReadsRow(cs, j, ts)
  {
  }

  lemma TextReads(s: string, lo: nat, next: int, cs: seq<Cell>)
    requires lo + StringSize(|s|) <= |cs| && cs[lo..lo + StringSize(|s|)] == StringCells(s, next)
    ensures Reads(cs, lo, Text(s)) && cs[lo].next == next
  {
    hide StringSize, StringCells;
    TopIsNode(s, next);
    assert cs[lo] == cs[lo..lo + StringSize(|s|)][0];
    StringIsRead(cs, lo, s);
  }

  lemma {:induction false} EmitsRead(ts: Trees, lo: nat, cs: seq<Cell>)
    requires lo + Sizes(ts) <= |cs| && cs[lo..lo + Sizes(ts)] == Emits(ts, lo)
    ensures ReadsRow(cs, First(ts, lo), ts)
    decreases ts
  {
    hide StringSize, Emit, Reads, Size;
    if ts.Cons? {
      var n := Size(ts.head);
      CutRow(ts, lo, cs, lo);
      EmitReads(ts.head, lo, First(ts.tail, lo + n), cs);
      EmitsRead(ts.tail, lo + n, cs);
    }
  }

  /** The array shows one tree at a cell, not two. */
  lemma {:induction false} ReadsOnce(cs: seq<Cell>, i: int, t: Tree, u: Tree)
    requires Reads(cs, i, t) && Reads(cs, i, u) && LinkCells(t) && LinkCells(u)
    ensures t == u
    decreases t
  {
    hide GetString;
    if t.Link? && u.Link? { RowOnce(cs, cs[i].u.fp, t.kids, u.kids); }
  }

  lemma {:induction false} RowOnce(cs: seq<Cell>, j: int, ts: Trees, us: Trees)
    requires ReadsRow(cs, j, ts) && ReadsRow(cs, j, us) && LinksCells(ts) && LinksCells(us)
    ensures ts == us
    decreases ts
  {
    hide GetString;
    if ts.Cons? && us.Cons? {
      LinksHead(ts);
      LinksHead(us);
      ReadsOnce(cs, j, ts.head, us.head);
      RowOnce(cs, cs[j].next, ts.tail, us.tail);
    }
  }

  /** eeval of C_FUNCTION: the function at ci becomes a code object of its own.  The length that pfunc
      stored spans it exactly, and at index 0 of the new object stands the same tree. */
  method Extract(co: seq<Cell>, ci: nat, ghost e: Expr, ghost next: int) returns (code: seq<Cell>)
    requires e.Func? && ci + Size(TreeE(e)) <= |co|
    requires co[ci..ci + Size(TreeE(e))] == Emit(TreeE(e), ci, next)
    ensures code == Emit(TreeE(e), 0, Shift(next, ci))
    ensures Reads(code, 0, TreeE(e))
  {
    hide Laid, Emit, LinkCells, MovedAll, Reads, TreeE;
    FuncLength(co, ci, e, next);
    var fp := co[ci].u.fp;
    var cl := co[fp].u.n;
    var cp := co[ci..ci + cl];
    TreeLinksE(e);
    assert cp[0..cl] == cp;
    EmitLaid(TreeE(e), ci, next, cp, 0);
    LaidEnd(cp);
    code := Tcode(cp, ci, cl);
    EmitMoves(TreeE(e), ci, ci, next);
    assert code[0..0 + Size(TreeE(e))] == code;
    FuncRoot(e);
    EmitReads(TreeE(e), 0, Shift(next, ci), code);
  }

  lemma LaidEnd(cs: seq<Cell>)
    ensures Laid(cs, |cs|)
  {
  }

  lemma FuncRoot(e: Expr)
    requires e.Func?
    ensures Root(TreeE(e), 0) == 0
  {
  }

  /** The first number behind a function cell is the number of its cells. */
  lemma FuncLength(co: seq<Cell>, ci: nat, e: Expr, next: int)
    requires e.Func? && ci + Size(TreeE(e)) <= |co|
    requires co[ci..ci + Size(TreeE(e))] == Emit(TreeE(e), ci, next)
    ensures co[ci].Node? && co[ci].u == Fp(ci + 1) && ci + 1 < |co|
    ensures co[ci + 1].Node? && co[ci + 1].u == Num(Size(TreeE(e)))
  {
    hide Emits, TreesDs, TreesSs, Cat, DeclTree;
    var t := TreeE(e);
    FuncSizes(e);
    CutBehind(C_FUNCTION, t.kids, ci, next, co, ci);
    RowHead(t.kids, ci + 1);
    assert co[ci + 1] == co[ci + 1..ci + 1 + Sizes(t.kids)][0];
  }

  lemma RowHead(ts: Trees, lo: nat)
    requires ts.Cons? && ts.head.Number?
    ensures Sizes(ts) >= 1 && First(ts, lo) == lo
    ensures Emits(ts, lo)[0].Node? && Emits(ts, lo)[0].u == Num(ts.head.n)
  {
  }

  lemma FuncSizes(e: Expr)
    requires e.Func?
    ensures TreeE(e).Link? && TreeE(e).ct == C_FUNCTION && TreeE(e).kids.Cons?
    ensures TreeE(e).kids.head == Number(Size(TreeE(e)))
  {
    match e.body
    case Internal(n) =>
      var body := One(Link(C_INTERNAL, One(Number(n))));
      FuncTreeSize(e.params, FuncSize(e.params, body), |e.params|, body);
    case Code(ds, ss) =>
      var body := Cat(TreesDs(ds), TreesSs(ss));
      FuncTreeSize(e.params, FuncSize(e.params, body), |e.params| + |G.DeclNames(ds)|, body);
  }
}
