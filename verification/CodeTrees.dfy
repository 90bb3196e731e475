/** The trees of cells that stand for lefty programs, and the extraction of a function from the
    code around it (Tcode of cmd/lefty/tbl.c, pfunc of cmd/lefty/parse.c). */
module CodeTrees {
  import opened Options
  import opened LeftySyntax
  import opened CodeCells
  import G = LeftyGrammar

  // ---- program trees as trees of cells ----

  function One(t: Tree): Trees { Cons(t, Nil) }

  function TreeE(e: Expr): Tree {
    match e
    case Assign(l, r) => Link(C_ASSIGN, Cons(TreeE(l), One(TreeE(r))))
    case Bin(op, l, r) => Link(C_BIN(op), Cons(TreeE(l), One(TreeE(r))))
    case Uminus(a) => Link(C_UMINUS, One(TreeE(a)))
    case Not(a) => Link(C_NOT, One(TreeE(a)))
    case Paren(a) => Link(C_PEXPR, One(TreeE(a)))
    case Call(f, args) => Link(C_FCALL, Cons(TreeE(f), One(Link(C_ARGS, TreesEs(args)))))
    case Int(n) => Number(n)
    case Str(s) => Text(s)
    case Var(name, None, path) => Link(C_GVAR, Cons(Text(name), TreesEs(path)))
    case Var(name, Some(n), path) => Link(C_LVAR, Cons(Text(name), Cons(Number(n), TreesEs(path))))
    case Func(params, Internal(n)) => FuncTree(params, |params|, One(Link(C_INTERNAL, One(Number(n)))))
    case Func(params, Code(ds, ss)) => FuncTree(params, |params| + |G.DeclNames(ds)|, Cat(TreesDs(ds), TreesSs(ss)))
    case Tcons(items) => Link(C_TCONS, TreesItems(items))
  }

  /** The first number is the length of the function in cells. */
  function FuncTree(params: seq<string>, nl: nat, body: Trees): Tree {
    Link(C_FUNCTION, Cons(Number(FuncSize(params, body)), Cons(Number(nl), Cons(DeclTree(params), body))))
  }

  function FuncSize(params: seq<string>, body: Trees): nat {
    3 + Size(DeclTree(params)) + Sizes(body)
  }

  function DeclTree(xs: seq<string>): Tree {
    Link(C_DECL, Names(xs))
  }

  function Names(xs: seq<string>): Trees {
    if xs == [] then Nil else Cons(Text(xs[0]), Names(xs[1..]))
  }

  function TreesEs(es: Exprs): Trees {
    match es case ENil => Nil case ECons(e, rest) => Cons(TreeE(e), TreesEs(rest))
  }

  function TreesItems(items: Items): Trees {
    match items case INil => Nil case ICons(k, v, rest) => Cons(TreeE(k), Cons(TreeE(v), TreesItems(rest)))
  }

  function TreesDs(ds: Decls): Trees {
    match ds case DNil => Nil case DCons(xs, rest) => Cons(DeclTree(xs), TreesDs(rest))
  }

  function TreesSs(ss: Stmts): Trees {
    match ss case SNil => Nil case SCons(s, rest) => Cons(TreeS(s), TreesSs(rest))
  }

  function OptTree(o: OptExpr): Tree {
    match o case NoExpr => Link(C_NOP, Nil) case TheExpr(e) => TreeE(e)
  }

  /** A statement is a C_STMT cell over what it holds. */
  function TreeS(s: Stmt): Tree {
    Link(C_STMT,
      match s
      case Empty => Nil
      case Block(s1, more) => Cons(TreeS(s1), TreesSs(more))
      case If(c, t, NoStmt) => One(Link(C_IF, Cons(TreeE(c), One(TreeS(t)))))
      case If(c, t, TheStmt(e)) => One(Link(C_IF, Cons(TreeE(c), Cons(TreeS(t), One(TreeS(e))))))
      case While(c, b) => One(Link(C_WHILE, Cons(TreeE(c), One(TreeS(b)))))
      case For(i, c, st, b) => One(Link(C_FOR, Cons(OptTree(i), Cons(OptTree(c), Cons(TreeE(st), One(TreeS(b)))))))
      case ForIn(v, t, b) => One(Link(C_FORIN, Cons(TreeE(v), Cons(TreeE(t), One(TreeS(b))))))
      case Break => One(Link(C_BREAK, Nil))
      case Continue => One(Link(C_CONTINUE, Nil))
      case Return(NoExpr) => One(Link(C_RETURN, Nil))
      case Return(TheExpr(e)) => One(Link(C_RETURN, One(TreeE(e))))
      case Do(e) => One(TreeE(e)))
  }

  // ---- strings in the array ----

  /** Byte k from u.s of cell i on. */
  function MemByte(cs: seq<Cell>, i: nat, k: nat): Byte
    requires i < |cs|
  {
    if k < CELL - OFFSET then
      if cs[i].Node? && cs[i].u.Chars? && k < |cs[i].u.b| then cs[i].u.b[k] else Nul
    else
      var j := i + 1 + (k - (CELL - OFFSET)) / CELL;
      var b := (k - (CELL - OFFSET)) % CELL;
      if j < |cs| && cs[j].Tail? && b < |cs[j].b| then cs[j].b[b] else Nul
  }

  /** A C string: the characters up to the first NUL. */
  function StringFrom(cs: seq<Cell>, i: nat, k: nat): string
    requires i < |cs|
    decreases CELL * |cs| - k
  {
    if k < CELL * |cs| && MemByte(cs, i, k).Ch? then [MemByte(cs, i, k).c] + StringFrom(cs, i, k + 1) else []
  }

  /** Cgetstring. */
  function GetString(cs: seq<Cell>, i: nat): string
    requires i < |cs|
  {
    StringFrom(cs, i, 0)
  }

  /** Cstring has put s at i. */
  ghost predicate StringAt(cs: seq<Cell>, i: nat, s: string) {
    i + StringSize(|s|) <= |cs| && cs[i].Node? && cs[i..i + StringSize(|s|)] == StringCells(s, cs[i].next)
  }

  lemma StringByte(cs: seq<Cell>, i: nat, s: string, k: nat)
    requires StringAt(cs, i, s) && k <= |s|
    ensures MemByte(cs, i, k) == ByteAt(s, k) && k < CELL * |cs|
  {
    var part := StringCells(s, cs[i].next);
    assert cs[i] == part[0];
    if k >= CELL - OFFSET {
      var q := (k - (CELL - OFFSET)) / CELL;
      assert q < StringSize(|s|) - 1;
      assert cs[i + 1 + q] == part[1 + q];
    }
  }

  lemma {:induction false} StringReads(cs: seq<Cell>, i: nat, s: string, k: nat)
    requires StringAt(cs, i, s) && k <= |s|
    ensures StringFrom(cs, i, k) == s[k..]
    decreases |s| - k
  {
    hide MemByte, StringAt;
    StringByte(cs, i, s, k);
    if k < |s| { StringReads(cs, i, s, k + 1); }
  }

  /** What Cstring stores, Cgetstring gives back. */
  lemma StringIsRead(cs: seq<Cell>, i: nat, s: string)
    requires StringAt(cs, i, s) && i < |cs|
    ensures GetString(cs, i) == s
  {
    StringReads(cs, i, s, 0);
  }

  // ---- an array of whole cells ----

  /** From i on the array is nodes, each string with its further cells behind it. */
  ghost predicate Laid(cs: seq<Cell>, i: nat)
    decreases |cs| - i
  {
    i == |cs| || (i < |cs| && cs[i].Node?
      && (match cs[i].ct
          case C_STRING => exists s :: StringAt(cs, i, s) && Laid(cs, i + StringSize(|s|))
          case C_INTEGER => cs[i].u.Num? && Laid(cs, i + 1)
          case _ => cs[i].u.Fp? && Laid(cs, i + 1)))
  }

  predicate IsLink(ct: CType) {
    ct != C_STRING && ct != C_INTEGER
  }

  predicate LinkCells(t: Tree) {
    t.Link? ==> IsLink(t.ct) && LinksCells(t.kids)
  }

  predicate LinksCells(ts: Trees) {
    ts.Cons? ==> LinkCells(ts.head) && LinksCells(ts.tail)
  }

  lemma {:induction false} EmitLaid(t: Tree, lo: nat, next: int, cs: seq<Cell>, i: nat)
    requires LinkCells(t) && i + Size(t) <= |cs| && cs[i..i + Size(t)] == Emit(t, lo, next)
    ensures Laid(cs, i + Size(t)) ==> Laid(cs, i)
    decreases t
  {
    hide StringSize, StringCells, Laid, Emit, Emits, Size, Sizes;
    match t
    case Number(n) =>
      CutNumber(n, lo, next, cs, i);
      if Laid(cs, i + 1) { LaidStep(cs, i); }
    case Text(s) =>
      CutText(s, lo, next);
      TextLaid(s, next, cs, i);
    case Link(ct, kids) =>
      if After(ct) && kids.Cons? {
        CutAfter(ct, kids, lo, next, cs, i);
        var n := Size(kids.head);
        LinksHead(kids);
        EmitsLaid(kids.tail, lo + n + 1, cs, i + n + 1);
        if Laid(cs, i + n + 1) { LaidStep(cs, i + n); }
        EmitLaid(kids.head, lo, First(kids.tail, lo + n + 1), cs, i);
      } else {
        CutBehind(ct, kids, lo, next, cs, i);
        EmitsLaid(kids, lo + 1, cs, i + 1);
        if Laid(cs, i + 1) { LaidStep(cs, i); }
      }
  }

  lemma CutNumber(n: int, lo: nat, next: int, cs: seq<Cell>, i: nat)
    requires i + Size(Number(n)) <= |cs| && cs[i..i + Size(Number(n))] == Emit(Number(n), lo, next)
    ensures Size(Number(n)) == 1 && i < |cs| && cs[i] == Node(C_INTEGER, next, Num(n))
  {
    assert cs[i] == cs[i..i + 1][0];
  }

  lemma CutText(s: string, lo: nat, next: int)
    ensures Size(Text(s)) == StringSize(|s|) && Emit(Text(s), lo, next) == StringCells(s, next)
  {
  }

  lemma CutAfter(ct: CType, kids: Trees, lo: nat, next: int, cs: seq<Cell>, i: nat)
    requires After(ct) && kids.Cons?
    requires i + Size(Link(ct, kids)) <= |cs| && cs[i..i + Size(Link(ct, kids))] == Emit(Link(ct, kids), lo, next)
    ensures var n := Size(kids.head);
      && Size(Link(ct, kids)) == n + 1 + Sizes(kids.tail)
      && cs[i..i + n] == Emit(kids.head, lo, First(kids.tail, lo + n + 1))
      && cs[i + n] == Node(ct, next, Fp(Root(kids.head, lo)))
      && cs[i + n + 1..i + n + 1 + Sizes(kids.tail)] == Emits(kids.tail, lo + n + 1)
  {
    hide Size, Emits;
    SizeIs(ct, kids);
    var n := Size(kids.head);
    Parts(cs, i, Emit(kids.head, lo, First(kids.tail, lo + n + 1)), Node(ct, next, Fp(Root(kids.head, lo))),
      Emits(kids.tail, lo + n + 1));
  }

  lemma CutBehind(ct: CType, kids: Trees, lo: nat, next: int, cs: seq<Cell>, i: nat)
    requires !(After(ct) && kids.Cons?)
    requires i + Size(Link(ct, kids)) <= |cs| && cs[i..i + Size(Link(ct, kids))] == Emit(Link(ct, kids), lo, next)
    ensures Size(Link(ct, kids)) == 1 + Sizes(kids)
    ensures cs[i] == Node(ct, next, Fp(First(kids, lo + 1))) && cs[i + 1..i + 1 + Sizes(kids)] == Emits(kids, lo + 1)
  {
    hide Emits;
    var c := Node(ct, next, Fp(First(kids, lo + 1)));
    assert [] + [c] + Emits(kids, lo + 1) == [c] + Emits(kids, lo + 1);
    Parts(cs, i, [], c, Emits(kids, lo + 1));
  }

  lemma LinksHead(ts: Trees)
    requires ts.Cons? && LinksCells(ts)
    ensures LinkCells(ts.head) && LinksCells(ts.tail)
  {
  }

  lemma LaidStep(cs: seq<Cell>, i: nat)
    requires i < |cs| && cs[i].Node? && cs[i].ct != C_STRING && Laid(cs, i + 1)
    requires if cs[i].ct == C_INTEGER then cs[i].u.Num? else cs[i].u.Fp?
    ensures Laid(cs, i)
  {
  }

  lemma TextLaid(s: string, next: int, cs: seq<Cell>, i: nat)
    requires i + StringSize(|s|) <= |cs| && cs[i..i + StringSize(|s|)] == StringCells(s, next)
    ensures Laid(cs, i + StringSize(|s|)) ==> Laid(cs, i)
  {
    hide StringSize, StringCells;
    TopIsNode(s, next);
    assert cs[i] == cs[i..i + StringSize(|s|)][0];
    assert StringAt(cs, i, s);
  }

  lemma TopIsNode(s: string, next: int)
    ensures StringCells(s, next)[0].Node? && StringCells(s, next)[0].ct == C_STRING
    ensures StringCells(s, next)[0].next == next
  {
  }

  lemma Parts(cs: seq<Cell>, i: nat, a: seq<Cell>, c: Cell, b: seq<Cell>)
    requires i + |a| + 1 + |b| <= |cs| && cs[i..i + |a| + 1 + |b|] == a + [c] + b
    ensures cs[i..i + |a|] == a && cs[i + |a|] == c && cs[i + |a| + 1..i + |a| + 1 + |b|] == b
  {
    var s := cs[i..i + |a| + 1 + |b|];
    assert s[..|a|] == a && s[|a|] == c && s[|a| + 1..] == b;
  }

  lemma CutRow(ts: Trees, lo: nat, cs: seq<Cell>, i: nat)
    requires ts.Cons? && i + Sizes(ts) <= |cs| && cs[i..i + Sizes(ts)] == Emits(ts, lo)
    ensures var n := Size(ts.head);
      && Sizes(ts) == n + Sizes(ts.tail)
      && cs[i..i + n] == Emit(ts.head, lo, First(ts.tail, lo + n))
      && cs[i + n..i + n + Sizes(ts.tail)] == Emits(ts.tail, lo + n)
  {
    hide Size, Emit;
    var n := Size(ts.head);
    var a, b := Emit(ts.head, lo, First(ts.tail, lo + n)), Emits(ts.tail, lo + n);
    var s := cs[i..i + Sizes(ts)];
    assert s == a + b;
    assert s[..n] == a && s[n..] == b;
  }

  lemma {:induction false} EmitsLaid(ts: Trees, lo: nat, cs: seq<Cell>, i: nat)
    requires LinksCells(ts) && i + Sizes(ts) <= |cs| && cs[i..i + Sizes(ts)] == Emits(ts, lo)
    ensures Laid(cs, i + Sizes(ts)) ==> Laid(cs, i)
    decreases ts
  {
    hide StringSize, Emit, Laid, Size;
    if ts.Cons? {
      var n := Size(ts.head);
      CutRow(ts, lo, cs, i);
      EmitsLaid(ts.tail, lo + n, cs, i + n);
      EmitLaid(ts.head, lo, First(ts.tail, lo + n), cs, i);
    }
  }

  // ---- Tcode ----

  /** Tcode: a copy of cl cells that started at index ci, with its links moved to start at 0.  The
      cells of a string are found by the distance of its NUL byte. */
  method Tcode(cp: seq<Cell>, ci: int, cl: nat) returns (cp2: seq<Cell>)
    requires cl == |cp| && Laid(cp, 0)
    ensures cp2 == MovedAll(cp, ci)
  {
    hide MovedAll, StringAt, GetString;
    cp2 := [];
    var i := 0;
    MovedNone(cp[..0], ci);
    while i < cl
      invariant i <= cl && Laid(cp, i) && cp2 == MovedAll(cp[..i], ci)
    {
      var c := cp[i];
      var next := if c.next == NULL then NULL else c.next - ci;
      MovedMore(cp, i, ci);
      match c.ct {
        case C_INTEGER => cp2 := cp2 + [Node(c.ct, next, c.u)];
        case C_STRING =>
          ghost var str :| StringAt(cp, i, str) && Laid(cp, i + StringSize(|str|));
          StringPlace(cp, i, str);
          cp2 := cp2 + [Node(c.ct, next, c.u)];
          var len := |GetString(cp, i)|;
          StringSizes(len);
          var cn := (OFFSET + len) / CELL;
          var j := 0;
          ghost var i0 := i;
          while j < cn
            invariant j <= cn && i == i0 + j && cp2 == MovedAll(cp[..i + 1], ci)
          {
            j := j + 1;
            i := i + 1;
            TailCell(cp, i0, str, j);
            MovedMore(cp, i, ci);
            cp2 := cp2 + [cp[i]];
          }
        case _ =>
          var fp := if c.u.fp == NULL then NULL else c.u.fp - ci;
          cp2 := cp2 + [Node(c.ct, next, Fp(fp))];
      }
      i := i + 1;
    }
    assert cp[..i] == cp;
  }

  lemma MovedNone(cs: seq<Cell>, ci: int)
    requires cs == []
    ensures MovedAll(cs, ci) == []
  {
  }

  lemma MovedMore(cs: seq<Cell>, i: nat, ci: int)
    requires i < |cs|
    ensures MovedAll(cs[..i + 1], ci) == MovedAll(cs[..i], ci) + [Moved(cs[i], ci)]
  {
  }

  lemma StringPlace(cs: seq<Cell>, i: nat, s: string)
    requires StringAt(cs, i, s) && i < |cs|
    ensures GetString(cs, i) == s && i + StringSize(|s|) <= |cs| && cs[i].u.Chars?
  {
    StringIsRead(cs, i, s);
    assert cs[i] == StringCells(s, cs[i].next)[0];
  }

  lemma TailCell(cs: seq<Cell>, i: nat, s: string, j: nat)
    requires StringAt(cs, i, s) && 1 <= j < StringSize(|s|)
    ensures cs[i + j].Tail?
  {
    assert cs[i + j] == StringCells(s, cs[i].next)[j];
  }

  // ---- functions ----

  lemma LinkTwo(t: Tree, u: Tree)
    requires LinkCells(t) && LinkCells(u)
    ensures LinksCells(Cons(t, One(u))) && LinksCells(One(u))
  {
    assert LinksCells(One(u));
  }

  lemma LinkMore(t: Tree, us: Trees)
    requires LinkCells(t) && LinksCells(us)
    ensures LinksCells(Cons(t, us))
  {
  }

  /** Every program tree is made of cells whose kind tells what they hold. */
  lemma {:induction false} TreeLinksE(e: Expr)
    ensures LinkCells(TreeE(e))
    decreases e
  {
    match e
    case Assign(l, r) => TreeLinksE(l); TreeLinksE(r); LinkTwo(TreeE(l), TreeE(r));
    case Bin(op, l, r) => TreeLinksE(l); TreeLinksE(r); LinkTwo(TreeE(l), TreeE(r));
    case Uminus(a) => TreeLinksE(a);
    case Not(a) => TreeLinksE(a);
    case Paren(a) => TreeLinksE(a);
    case Call(f, args) => TreeLinksE(f); TreeLinksEs(args); LinkTwo(TreeE(f), Link(C_ARGS, TreesEs(args)));
    case Int(_) =>
    case Str(_) =>
    case Var(name, slot, path) =>
      TreeLinksEs(path);
      if slot.Some? { LinkMore(Number(slot.value), TreesEs(path)); }
    case Func(params, Internal(n)) =>
      LinkMore(Number(n), Nil);
      LinkMore(Link(C_INTERNAL, One(Number(n))), Nil);
      FuncLinks(params, |params|, One(Link(C_INTERNAL, One(Number(n)))));
    case Func(params, Code(ds, ss)) =>
      DeclsLinks(ds);
      TreeLinksSs(ss);
      CatLinks(TreesDs(ds), TreesSs(ss));
      FuncLinks(params, |params| + |G.DeclNames(ds)|, Cat(TreesDs(ds), TreesSs(ss)));
    case Tcons(items) => TreeLinksItems(items);
  }

  lemma FuncLinks(params: seq<string>, nl: nat, body: Trees)
    requires LinksCells(body)
    ensures LinkCells(FuncTree(params, nl, body))
  {
    NamesLinks(params);
    LinkMore(DeclTree(params), body);
    LinkMore(Number(nl), Cons(DeclTree(params), body));
  }

  lemma {:induction false} NamesLinks(xs: seq<string>)
    ensures LinksCells(Names(xs)) && LinkCells(DeclTree(xs))
  {
    if xs != [] { NamesLinks(xs[1..]); }
  }

  lemma {:induction false} DeclsLinks(ds: Decls)
    ensures LinksCells(TreesDs(ds))
  {
    if ds.DCons? { NamesLinks(ds.names); DeclsLinks(ds.rest); }
  }

  lemma {:induction false} CatLinks(ts: Trees, us: Trees)
    requires LinksCells(ts) && LinksCells(us)
    ensures LinksCells(Cat(ts, us))
  {
    if ts.Cons? { CatLinks(ts.tail, us); }
  }

  lemma {:induction false} TreeLinksEs(es: Exprs)
    ensures LinksCells(TreesEs(es))
    decreases es
  {
    if es.ECons? { TreeLinksE(es.head); TreeLinksEs(es.tail); }
  }

  lemma {:induction false} TreeLinksItems(items: Items)
    ensures LinksCells(TreesItems(items))
    decreases items
  {
    if items.ICons? { TreeLinksE(items.key); TreeLinksE(items.val); TreeLinksItems(items.rest); }
  }

  lemma {:induction false} TreeLinksSs(ss: Stmts)
    ensures LinksCells(TreesSs(ss))
    decreases ss
  {
    if ss.SCons? { TreeLinksS(ss.head); TreeLinksSs(ss.tail); }
  }

  lemma {:induction false} TreeLinksO(o: OptExpr)
    ensures LinkCells(OptTree(o))
    decreases o
  {
    if o.TheExpr? { TreeLinksE(o.e); }
  }

  lemma {:induction false} TreeLinksS(s: Stmt)
    ensures LinkCells(TreeS(s))
    decreases s
  {
    match s
    case Empty =>
    case Block(s1, more) => TreeLinksS(s1); TreeLinksSs(more);
    case If(c, t, e) =>
      TreeLinksE(c);
      TreeLinksS(t);
      if e.TheStmt? {
        TreeLinksS(e.s);
        LinkTwo(TreeS(t), TreeS(e.s));
        LinkMore(TreeE(c), Cons(TreeS(t), One(TreeS(e.s))));
        LinkMore(Link(C_IF, Cons(TreeE(c), Cons(TreeS(t), One(TreeS(e.s))))), Nil);
      } else {
        LinkTwo(TreeE(c), TreeS(t));
        LinkMore(Link(C_IF, Cons(TreeE(c), One(TreeS(t)))), Nil);
      }
    case While(c, b) =>
      TreeLinksE(c);
      TreeLinksS(b);
      LinkTwo(TreeE(c), TreeS(b));
      LinkMore(Link(C_WHILE, Cons(TreeE(c), One(TreeS(b)))), Nil);
    case For(i, c, st, b) =>
      TreeLinksO(i);
      TreeLinksO(c);
      TreeLinksE(st);
      TreeLinksS(b);
      LinkTwo(TreeE(st), TreeS(b));
      LinkMore(OptTree(c), Cons(TreeE(st), One(TreeS(b))));
      LinkMore(OptTree(i), Cons(OptTree(c), Cons(TreeE(st), One(TreeS(b)))));
      LinkMore(Link(C_FOR, Cons(OptTree(i), Cons(OptTree(c), Cons(TreeE(st), One(TreeS(b)))))), Nil);
    case ForIn(v, t, b) =>
      TreeLinksE(v);
      TreeLinksE(t);
      TreeLinksS(b);
      LinkTwo(TreeE(t), TreeS(b));
      LinkMore(TreeE(v), Cons(TreeE(t), One(TreeS(b))));
      LinkMore(Link(C_FORIN, Cons(TreeE(v), Cons(TreeE(t), One(TreeS(b))))), Nil);
    case Break => LinkMore(Link(C_BREAK, Nil), Nil);
    case Continue => LinkMore(Link(C_CONTINUE, Nil), Nil);
    case Return(o) =>
      TreeLinksO(o);
      if o.TheExpr? { LinkMore(Link(C_RETURN, One(TreeE(o.e))), Nil); } else { LinkMore(Link(C_RETURN, Nil), Nil); }
    case Do(e) => TreeLinksE(e);
  }

  lemma FuncTreeSize(params: seq<string>, m: int, n: int, body: Trees)
    ensures Size(Link(C_FUNCTION, Cons(Number(m), Cons(Number(n), Cons(DeclTree(params), body)))))
      == FuncSize(params, body)
  {
    hide DeclTree, Sizes;
    var row := Cons(DeclTree(params), body);
    SizesCons(DeclTree(params), body);
    SizesCons(Number(n), row);
    SizesCons(Number(m), Cons(Number(n), row));
  }

  lemma SizesCons(t: Tree, ts: Trees)
    ensures Sizes(Cons(t, ts)) == Size(t) + Sizes(ts)
  {
  }
}
