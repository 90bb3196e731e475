/** What the cells of a program show to the printer of cmd/lefty/str.c, and what each kind of tree prints
    as. */
module WriterRules {
  import opened LeftySyntax
  import opened LeftyPrint
  import opened CodeCells
  import opened CodeTrees
  import opened CodeReads

  /** The tokens ws, then k. */
  function Prep(ws: seq<Tok>, k: Toks): Toks {
    if ws == [] then k else TCons(ws[0], Prep(ws[1..], k))
  }

  lemma {:induction false} PrepMore(ws: seq<Tok>, t: Tok, k: Toks)
    ensures Prep(ws + [t], k) == Prep(ws, TCons(t, k))
  {
    if ws == [] {
      assert (ws + [t])[1..] == [];
    } else {
      assert (ws + [t])[1..] == ws[1..] + [t];
      PrepMore(ws[1..], t, k);
    }
  }

  // ---- what a cell shows of a program tree ----

  function Kind(t: Tree): CType {
    match t case Number(_) => C_INTEGER case Text(_) => C_STRING case Link(ct, _) => ct
  }

  lemma SeeKind(co: seq<Cell>, i: int, t: Tree)
    requires Reads(co, i, t)
    ensures 0 <= i < |co| && co[i].Node? && co[i].ct == Kind(t)
    ensures t.Link? ==> co[i].u.Fp? && ReadsRow(co, co[i].u.fp, t.kids)
    ensures t.Number? ==> co[i].u == Num(t.n)
    ensures t.Text? ==> GetString(co, i) == t.s
  {
  }

  lemma SeeRow(co: seq<Cell>, j: int, ts: Trees)
    requires ReadsRow(co, j, ts)
    ensures ts.Nil? <==> j == NULL
    ensures ts.Cons? ==> Reads(co, j, ts.head) && 0 <= j < |co| && co[j].Node? && ReadsRow(co, co[j].next, ts.tail)
  {
  }

  lemma RowSizes(ts: Trees)
    ensures ts.Cons? ==> Sizes(ts) == Size(ts.head) + Sizes(ts.tail) && Size(ts.head) >= 1
    ensures ts.Nil? ==> Sizes(ts) == 0
  {
  }

  lemma LinkSize(ct: CType, ts: Trees)
    ensures Size(Link(ct, ts)) == 1 + Sizes(ts)
  {
  }

  /** Cell i is in the array and the top of t. */
  ghost predicate Here(co: seq<Cell>, i: int, t: Tree) {
    0 <= i < |co| && co[i].Node? && Reads(co, i, t)
  }

  lemma SeeOne(co: seq<Cell>, i: int, ct: CType, t: Tree)
    requires Reads(co, i, Link(ct, One(t)))
    ensures 0 <= i < |co| && co[i].Node? && co[i].ct == ct && co[i].u.Fp?
    ensures Reads(co, co[i].u.fp, t) && Size(t) < Size(Link(ct, One(t)))
    ensures 0 <= co[i].u.fp < |co| && co[co[i].u.fp].Node? && co[co[i].u.fp].next == NULL
  {
    hide PrE, PrDecls, PrSs, PrS, FineE, FineSs, FineS, TreeE, TreesDs, TreesSs, OptTree, TreeS, Reads, ReadsRow,
      GetString, Cat, Prep;
    SeeKind(co, i, Link(ct, One(t)));
    SeeRow(co, co[i].u.fp, One(t));
    SeeRow(co, co[co[i].u.fp].next, Nil);
  }

  lemma SeeTwo(co: seq<Cell>, i: int, ct: CType, t: Tree, u: Tree)
    requires Reads(co, i, Link(ct, Cons(t, One(u))))
    ensures 0 <= i < |co| && co[i].Node? && co[i].ct == ct && co[i].u.Fp?
    ensures var j := co[i].u.fp;
      && Reads(co, j, t) && 0 <= j < |co| && co[j].Node?
      && Reads(co, co[j].next, u) && 0 <= co[j].next < |co| && co[co[j].next].Node? && co[co[j].next].next == NULL
    ensures Size(t) + Size(u) < Size(Link(ct, Cons(t, One(u))))
  {
    hide PrE, PrDecls, PrSs, PrS, FineE, FineSs, FineS, TreeE, TreesDs, TreesSs, OptTree, TreeS, Reads, ReadsRow,
      Size, Sizes, GetString, Cat, Prep;
    SeeKind(co, i, Link(ct, Cons(t, One(u))));
    var j := co[i].u.fp;
    SeeRow(co, j, Cons(t, One(u)));
    SeeRow(co, co[j].next, One(u));
    SeeRow(co, co[co[j].next].next, Nil);
    LinkSize(ct, Cons(t, One(u)));
    RowSizes(Cons(t, One(u)));
    RowSizes(One(u));
    RowSizes(Nil);
  }

  // ---- statements ----

  lemma StmtKind(s: Stmt)
    ensures TreeS(s).Link? && TreeS(s).ct == C_STMT
    ensures s.Empty? <==> TreeS(s).kids.Nil?
    ensures s.Block? ==> TreeS(s).kids == TreesSs(SCons(s.first, s.more))
    ensures TreeS(s).kids.Cons? && TreeS(s).kids.tail.Cons? ==> s.Block?
  {
    hide PrE, PrDecls, PrSs, PrS, FineE, FineSs, FineS, TreeE, TreesDs, OptTree, Reads, ReadsRow, Size, Sizes,
      GetString, Cat, Prep;
  }

  lemma EmptyPrint(s: Stmt, fns: seq<string>)
    requires s.Empty?
    ensures forall k :: PrS(s, fns, k) == TCons(SEMI, k)
  {
    hide PrE, PrDecls, PrSs, PrOpt, FineE, FineSs, FineS, TreeE, TreesDs, TreesSs, OptTree, TreeS, Reads, ReadsRow,
      Size, Sizes, GetString, Cat, Prep;
  }

  lemma BlockPrint(s: Stmt, fns: seq<string>)
    requires s.Block? && TreeS(s).Link? && TreeS(s).kids.Cons? && TreeS(s).kids.tail.Cons?
    ensures forall k :: PrS(s, fns, k) == TCons(LCB, PrS(s.first, fns, PrSs(s.more, fns, TCons(RCB, k))))
  {
    hide PrE, PrDecls, PrSs, PrOpt, FineE, FineSs, FineS, TreeE, TreesDs, OptTree, Reads, ReadsRow, Size, Sizes,
      GetString, Cat, Prep;
  }

  lemma FineBlock(s: Stmt)
    requires s.Block? && FineS(s, false)
    ensures FineSs(SCons(s.first, s.more), false)
  {
    hide PrE, PrDecls, PrSs, PrS, FineE, FineO, TreeE, TreesDs, TreesSs, OptTree, TreeS, Reads, ReadsRow, Size, Sizes,
      GetString, Cat, Prep;
  }

  lemma SsPrint(ss: Stmts, fns: seq<string>)
    ensures ss.SNil? <==> TreesSs(ss) == Nil
    ensures ss.SCons? ==> TreesSs(ss) == Cons(TreeS(ss.head), TreesSs(ss.tail))
    ensures ss.SCons? && FineSs(ss, false) ==> FineS(ss.head, false) && FineSs(ss.tail, false)
    ensures ss.SCons? ==> forall k :: PrSs(ss, fns, k) == PrS(ss.head, fns, PrSs(ss.tail, fns, k))
    ensures ss.SNil? ==> forall k :: PrSs(ss, fns, k) == k
  {
    hide PrE, PrDecls, PrS, FineE, FineS, TreeE, TreesDs, OptTree, TreeS, Reads, ReadsRow, Size, Sizes, GetString,
      Cat, Prep;
  }

  function InnerIf(s: Stmt): Tree
    requires s.If?
  {
    Link(C_IF, Cons(TreeE(s.cond), Cons(TreeS(s.thn), if s.els.NoStmt? then Nil else One(TreeS(s.els.s)))))
  }

  function ForKids(s: Stmt): Trees
    requires s.For?
  {
    Cons(OptTree(s.init), Cons(OptTree(s.test), Cons(TreeE(s.step), One(TreeS(s.body)))))
  }

  function ReturnTree(s: Stmt): Tree
    requires s.Return?
  {
    Link(C_RETURN, if s.val.NoExpr? then Nil else One(TreeE(s.val.e)))
  }

  /** Which statement stands under a C_STMT cell, by the kind of the cell below. */
  lemma SingleKind(s: Stmt, fns: seq<string>)
    requires FineS(s, false) && TreeS(s).Link? && TreeS(s).kids.Cons? && TreeS(s).kids.tail.Nil?
    ensures var t := TreeS(s).kids.head;
      match Kind(t)
      case C_STMT =>
        s.Block? && t == TreeS(s.first) && FineS(s.first, false) && forall k :: PrS(s, fns, k) == PrS(s.first, fns, k)
      case C_IF => s.If? && t == InnerIf(s)
      case C_WHILE => s.While? && t == Link(C_WHILE, Cons(TreeE(s.cond), One(TreeS(s.body))))
      case C_FOR => s.For? && t == Link(C_FOR, ForKids(s))
      case C_FORIN => s.ForIn? && t == Link(C_FORIN, Cons(TreeE(s.v), Cons(TreeE(s.tbl), One(TreeS(s.body)))))
      case C_BREAK => s.Break? && forall k :: PrS(s, fns, k) == TCons(BREAK, TCons(SEMI, k))
      case C_CONTINUE => s.Continue? && forall k :: PrS(s, fns, k) == TCons(CONTINUE, TCons(SEMI, k))
      case C_RETURN => s.Return? && t == ReturnTree(s)
      case _ =>
        s.Do? && t == TreeE(s.e) && Printable(s.e) && forall k :: PrS(s, fns, k) == PrE(s.e, fns, TCons(SEMI, k))
  {
    hide PrE, PrDecls, PrSs, PrOpt, FineE, FineSs, FineO, TreeE, TreesDs, OptTree, Reads, ReadsRow, Size, Sizes,
      GetString, Cat, Prep;
    match s
    case Block(s1, more) => StmtKind(s1);
    case Do(e) => ExprKind(e);
    case _ =>
  }

  lemma SeeIf(co: seq<Cell>, i: int, s: Stmt)
    requires s.If? && Reads(co, i, InnerIf(s))
    ensures 0 <= i < |co| && co[i].Node? && co[i].u.Fp?
    ensures Here(co, co[i].u.fp, TreeE(s.cond)) && Here(co, co[co[i].u.fp].next, TreeS(s.thn))
    ensures var c := co[co[co[i].u.fp].next].next;
      (c == NULL <==> s.els.NoStmt?) && (s.els.TheStmt? ==> Reads(co, c, TreeS(s.els.s)))
    ensures Size(TreeE(s.cond)) < Size(InnerIf(s)) && Size(TreeS(s.thn)) < Size(InnerIf(s))
    ensures s.els.TheStmt? ==> Size(TreeS(s.els.s)) < Size(InnerIf(s))
  {
    hide PrE, PrDecls, PrSs, PrS, FineE, FineSs, FineS, TreeE, TreesDs, TreesSs, OptTree, TreeS, Reads, ReadsRow,
      Size, Sizes, GetString, Cat, Prep;
    var kids := InnerIf(s).kids;
    SeeKind(co, i, InnerIf(s));
    LinkSize(C_IF, kids);
    SeeRow(co, co[i].u.fp, kids);
    RowSizes(kids);
    var b := co[co[i].u.fp].next;
    SeeRow(co, b, kids.tail);
    RowSizes(kids.tail);
    SeeRow(co, co[b].next, kids.tail.tail);
    RowSizes(kids.tail.tail);
  }

  lemma SeeThree(co: seq<Cell>, i: int, ct: CType, t: Tree, u: Tree, v: Tree)
    requires Reads(co, i, Link(ct, Cons(t, Cons(u, One(v)))))
    ensures 0 <= i < |co| && co[i].Node? && co[i].u.Fp?
    ensures Here(co, co[i].u.fp, t) && Here(co, co[co[i].u.fp].next, u)
    ensures Reads(co, co[co[co[i].u.fp].next].next, v)
    ensures Size(t) + Size(u) + Size(v) < Size(Link(ct, Cons(t, Cons(u, One(v)))))
  {
    hide PrE, PrDecls, PrSs, PrS, FineE, FineSs, FineS, TreeE, TreesDs, TreesSs, OptTree, TreeS, Reads, ReadsRow,
      Size, Sizes, GetString, Cat, Prep;
    var kids := Cons(t, Cons(u, One(v)));
    SeeKind(co, i, Link(ct, kids));
    LinkSize(ct, kids);
    SeeRow(co, co[i].u.fp, kids);
    RowSizes(kids);
    var b := co[co[i].u.fp].next;
    SeeRow(co, b, kids.tail);
    RowSizes(kids.tail);
    SeeRow(co, co[b].next, One(v));
    RowSizes(One(v));
    RowSizes(Nil);
  }

  lemma SeeFor(co: seq<Cell>, i: int, s: Stmt)
    requires s.For? && s.init.TheExpr? && s.test.TheExpr? && Reads(co, i, Link(C_FOR, ForKids(s)))
    ensures 0 <= i < |co| && co[i].Node? && co[i].u.Fp?
    ensures Here(co, co[i].u.fp, TreeE(s.init.e)) && Here(co, co[co[i].u.fp].next, TreeE(s.test.e))
    ensures Here(co, co[co[co[i].u.fp].next].next, TreeE(s.step))
    ensures Reads(co, co[co[co[co[i].u.fp].next].next].next, TreeS(s.body))
    ensures Size(TreeE(s.init.e)) + Size(TreeE(s.test.e)) + Size(TreeE(s.step)) + Size(TreeS(s.body))
      < Size(Link(C_FOR, ForKids(s)))
  {
    hide PrE, PrDecls, PrSs, PrS, FineE, FineSs, FineS, TreeE, TreesDs, TreesSs, TreeS, Reads, ReadsRow, Size, Sizes,
      GetString, Cat, Prep;
    var kids := ForKids(s);
    SeeKind(co, i, Link(C_FOR, kids));
    LinkSize(C_FOR, kids);
    SeeRow(co, co[i].u.fp, kids);
    RowSizes(kids);
    var b := co[co[i].u.fp].next;
    SeeRow(co, b, kids.tail);
    RowSizes(kids.tail);
    var c := co[b].next;
    SeeRow(co, c, kids.tail.tail);
    RowSizes(kids.tail.tail);
    SeeRow(co, co[c].next, One(TreeS(s.body)));
    RowSizes(One(TreeS(s.body)));
    RowSizes(Nil);
  }

  lemma CallRule(e: Expr, fns: seq<string>)
    requires e.Call? && Printable(e)
    ensures TreeE(e) == Link(C_FCALL, Cons(TreeE(e.fn), One(Link(C_ARGS, TreesEs(e.args)))))
    ensures Printable(e.fn) && FineEs(e.args, false)
    ensures forall k :: PrE(e, fns, k) == PrE(e.fn, fns, TCons(LP, PrArgs(e.args, fns, TCons(RP, k))))
  {
    hide PrArgs, PrPath, PrItems, PrNames, PrDecls, PrSs, PrS, FineEs, FineItems, FineSs, FineS, TreesEs, TreesItems,
      TreesDs, TreesSs, OptTree, TreeS, FuncTree, Reads, ReadsRow, Size, Sizes, GetString, Cat, Prep;
  }

  lemma FuncRule(e: Expr, fns: seq<string>)
    requires e.Func? && Printable(e)
    ensures e.body.Code? ==> FineSs(e.body.stmts, false)
    ensures e.body.Internal? ==> forall k ::
      PrE(e, fns, k) == TCons(FUNCTION, TCons(LP, PrNames(e.params, TCons(RP, TCons(INTERNAL,
        TCons(STRING(if e.body.num < |fns| then fns[e.body.num] else ""), k))))))
    ensures e.body.Code? ==> forall k ::
      PrE(e, fns, k) == TCons(FUNCTION, TCons(LP, PrNames(e.params, TCons(RP, TCons(LCB,
        PrDecls(e.body.locals, PrSs(e.body.stmts, fns, TCons(RCB, k))))))))
  {
    hide PrArgs, PrPath, PrItems, PrNames, PrDecls, PrSs, PrS, FineEs, FineItems, FineSs, FineS, TreeE, TreesDs,
      TreesSs, OptTree, TreeS, Reads, ReadsRow, Size, Sizes, GetString, Cat, Prep;
  }

  lemma IfRule(s: Stmt, fns: seq<string>)
    requires s.If? && FineS(s, false)
    ensures Printable(s.cond) && FineS(s.thn, false) && (s.els.TheStmt? ==> FineS(s.els.s, false))
    ensures s.els.NoStmt? ==> forall k ::
      PrS(s, fns, k) == TCons(IF, TCons(LP, PrE(s.cond, fns, TCons(RP, PrS(s.thn, fns, k)))))
    ensures s.els.TheStmt? ==> forall k ::
      PrS(s, fns, k) == TCons(IF, TCons(LP, PrE(s.cond, fns,
        TCons(RP, PrS(s.thn, fns, TCons(ELSE, PrS(s.els.s, fns, k)))))))
  {
    hide PrE, PrDecls, PrSs, PrOpt, FineE, FineSs, FineO, TreeE, TreesDs, TreesSs, OptTree, TreeS, Reads, ReadsRow,
      Size, Sizes, GetString, Cat, Prep;
  }

  lemma ForRule(s: Stmt, fns: seq<string>)
    requires s.For? && FineS(s, false)
    ensures s.init.TheExpr? && s.test.TheExpr? && Printable(s.init.e) && Printable(s.test.e) && Printable(s.step)
    ensures FineS(s.body, false)
    ensures forall k ::
      PrS(s, fns, k) == TCons(FOR, TCons(LP, PrE(s.init.e, fns, TCons(SEMI, PrE(s.test.e, fns, TCons(SEMI,
        PrE(s.step, fns, TCons(RP, PrS(s.body, fns, k)))))))))
  {
    hide PrE, PrDecls, PrSs, FineE, FineSs, TreeE, TreesDs, TreesSs, OptTree, TreeS, Reads, ReadsRow, Size, Sizes,
      GetString, Cat, Prep;
  }

  lemma ArgsRule(es: Exprs, fns: seq<string>)
    requires es.ECons?
    ensures TreesEs(es) == Cons(TreeE(es.head), TreesEs(es.tail))
    ensures FineEs(es, false) ==> Printable(es.head) && FineEs(es.tail, false)
    ensures es.tail.ENil? <==> TreesEs(es.tail).Nil?
    ensures forall k ::
      PrArgs(es, fns, k) == PrE(es.head, fns, if es.tail.ENil? then k else TCons(COMMA, PrArgs(es.tail, fns, k)))
    ensures es.tail.ENil? ==> forall k :: PrArgs(es.tail, fns, k) == k
  {
    hide PrE, PrDecls, PrSs, PrS, FineE, FineSs, FineS, TreeE, TreesDs, TreesSs, OptTree, TreeS, Reads, ReadsRow,
      Size, Sizes, GetString, Cat, Prep;
  }

  lemma NoArgs(es: Exprs, fns: seq<string>)
    ensures es.ECons? ==> TreesEs(es).Cons?
    ensures es.ENil? ==> forall k :: PrArgs(es, fns, k) == k
  {
    hide PrE, PrDecls, PrSs, PrS, FineE, FineSs, FineS, TreeE, TreesDs, TreesSs, OptTree, TreeS, Reads, ReadsRow,
      Size, Sizes, GetString, Cat, Prep;
  }

  lemma PathRule(es: Exprs, fns: seq<string>)
    ensures es.ECons? ==> TreesEs(es) == Cons(TreeE(es.head), TreesEs(es.tail))
    ensures es.ECons? && FineEs(es, false) ==> Printable(es.head) && FineEs(es.tail, false)
    ensures es.ENil? ==> forall k :: PrPath(es, fns, k) == k
    ensures es.ECons? && es.head.Str? ==>
      forall k :: PrPath(es, fns, k) == TCons(DOT, TCons(ID(es.head.s), PrPath(es.tail, fns, k)))
    ensures es.ECons? && !es.head.Str? ==>
      forall k :: PrPath(es, fns, k) == TCons(LB, PrE(es.head, fns, TCons(RB, PrPath(es.tail, fns, k))))
  {
    hide PrE, PrDecls, PrSs, PrS, FineE, FineSs, FineS, TreeE, TreesDs, TreesSs, OptTree, TreeS, Reads, ReadsRow,
      Size, Sizes, GetString, Cat, Prep;
  }

  lemma ExprKind(e: Expr)
    ensures var k := Kind(TreeE(e));
      && (k == C_ASSIGN <==> e.Assign?) && (k.C_BIN? <==> e.Bin?) && (k == C_NOT <==> e.Not?)
      && (k == C_UMINUS <==> e.Uminus?) && (k == C_PEXPR <==> e.Paren?) && (k == C_FCALL <==> e.Call?)
      && (k == C_INTEGER <==> e.Int?) && (k == C_STRING <==> e.Str?) && (k == C_GVAR || k == C_LVAR <==> e.Var?)
      && (k == C_FUNCTION <==> e.Func?) && (k == C_TCONS <==> e.Tcons?)
    ensures e.Int? ==> TreeE(e) == Number(e.n)
    ensures e.Str? ==> TreeE(e) == Text(e.s)
  {
    hide PrE, PrDecls, PrSs, PrS, FineE, FineSs, FineS, TreesEs, TreesItems, TreesDs, TreesSs, OptTree, TreeS,
      FuncSize, DeclTree, Reads, ReadsRow, Size, Sizes, GetString, Cat, Prep;
  }

  lemma StrKind(co: seq<Cell>, i: int, e: Expr)
    requires Reads(co, i, TreeE(e))
    ensures 0 <= i < |co| && co[i].Node? && (co[i].ct == C_STRING <==> e.Str?)
    ensures e.Str? ==> GetString(co, i) == e.s
  {
    hide *;
    ExprKind(e);
    SeeKind(co, i, TreeE(e));
  }

  lemma ItemsRule(co: seq<Cell>, i: int, items: Items, fns: seq<string>)
    requires ReadsRow(co, i, TreesItems(items)) && i != NULL && FineItems(items, false)
    ensures items.ICons? && 0 <= i < |co| && co[i].Node? && Reads(co, i, TreeE(items.key))
    ensures var j := co[i].next;
      0 <= j < |co| && co[j].Node? && Reads(co, j, TreeE(items.val)) && ReadsRow(co, co[j].next, TreesItems(items.rest))
    ensures Printable(items.key) && Printable(items.val) && FineItems(items.rest, false)
    ensures Size(TreeE(items.key)) + Size(TreeE(items.val)) + Sizes(TreesItems(items.rest)) <= Sizes(TreesItems(items))
    ensures Sizes(TreesItems(items.rest)) < Sizes(TreesItems(items))
    ensures forall k ::
      PrItems(items, fns, k) == PrE(items.key, fns,
        TCons(ASSIGN, PrE(items.val, fns, TCons(SEMI, PrItems(items.rest, fns, k)))))
  {
    hide PrE, PrDecls, PrSs, PrS, FineE, FineSs, FineS, TreeE, TreesDs, TreesSs, OptTree, TreeS, Reads, ReadsRow,
      Size, Sizes, GetString, Cat, Prep;
    SeeRow(co, i, TreesItems(items));
    RowSizes(TreesItems(items));
    SeeRow(co, co[i].next, TreesItems(items).tail);
    RowSizes(TreesItems(items).tail);
  }

  lemma NoItems(co: seq<Cell>, i: int, items: Items, fns: seq<string>)
    requires ReadsRow(co, i, TreesItems(items)) && i == NULL
    ensures forall k :: PrItems(items, fns, k) == k
  {
    hide PrE, PrDecls, PrSs, PrS, FineE, FineSs, FineS, TreeE, TreesDs, TreesSs, OptTree, TreeS, Reads, ReadsRow,
      Size, Sizes, GetString, Cat, Prep;
    SeeRow(co, i, TreesItems(items));
  }

  function FuncBody(e: Expr): Trees
    requires e.Func?
  {
    if e.body.Internal? then One(Link(C_INTERNAL, One(Number(e.body.num))))
    else Cat(TreesDs(e.body.locals), TreesSs(e.body.stmts))
  }

  lemma SeeFunc(co: seq<Cell>, i: int, e: Expr)
    requires e.Func? && Reads(co, i, TreeE(e))
    ensures 0 <= i < |co| && co[i].Node? && co[i].u.Fp?
    ensures 0 <= co[i].u.fp < |co| && co[co[i].u.fp].Node?
    ensures 0 <= co[co[i].u.fp].next < |co| && co[co[co[i].u.fp].next].Node?
    ensures Here(co, co[co[co[i].u.fp].next].next, DeclTree(e.params))
    ensures ReadsRow(co, co[co[co[co[i].u.fp].next].next].next, FuncBody(e))
    ensures Sizes(FuncBody(e)) < Size(TreeE(e))
  {
    hide PrE, PrDecls, PrSs, PrS, FineE, FineSs, FineS, TreesEs, TreesItems, TreesDs, TreesSs, OptTree, TreeS,
      FuncSize, DeclTree, Reads, ReadsRow, Size, Sizes, GetString, Cat, Prep;
    var t := TreeE(e);
    SeeKind(co, i, t);
    LinkSize(C_FUNCTION, t.kids);
    var a := co[i].u.fp;
    SeeRow(co, a, t.kids);
    RowSizes(t.kids);
    var b := co[a].next;
    SeeRow(co, b, t.kids.tail);
    RowSizes(t.kids.tail);
    var d := co[b].next;
    SeeRow(co, d, t.kids.tail.tail);
    RowSizes(t.kids.tail.tail);
  }

  lemma SeeInternal(co: seq<Cell>, i: int, e: Expr)
    requires e.Func? && 0 <= i < |co| && co[i].Node? && co[i].ct == C_INTERNAL && ReadsRow(co, i, FuncBody(e))
    ensures e.body.Internal? && co[i].u.Fp?
    ensures 0 <= co[i].u.fp < |co| && co[co[i].u.fp].Node? && co[co[i].u.fp].u == Num(e.body.num)
  {
    hide PrE, PrDecls, PrSs, PrS, FineE, FineSs, FineS, TreeE, TreesDs, TreesSs, OptTree, TreeS, DeclTree, Reads,
      ReadsRow, Size, Sizes, GetString, Cat, Prep;
    SeeRow(co, i, FuncBody(e));
    SeeKind(co, i, FuncBody(e).head);
    if e.body.Code? {
      BodyKind(e.body.locals, e.body.stmts);
    } else {
      SeeOne(co, i, C_INTERNAL, Number(e.body.num));
      SeeKind(co, co[i].u.fp, Number(e.body.num));
    }
  }

  lemma BodyKind(ds: Decls, ss: Stmts)
    ensures var ts := Cat(TreesDs(ds), TreesSs(ss));
      && (ds.DCons? ==> ts == Cons(DeclTree(ds.names), Cat(TreesDs(ds.rest), TreesSs(ss))) && Kind(ts.head) == C_DECL)
      && (ds.DNil? && ss.SCons? ==> ts == Cons(TreeS(ss.head), TreesSs(ss.tail)) && Kind(ts.head) == C_STMT)
      && (ds.DNil? && ss.SNil? ==> ts == Nil)
  {
    hide PrE, PrDecls, PrSs, PrS, FineE, FineSs, FineS, TreeE, OptTree, Names, Reads, ReadsRow, Size, Sizes,
      GetString, Prep;
  }

  lemma SeeCode(co: seq<Cell>, i: int, e: Expr)
    requires e.Func? && ReadsRow(co, i, FuncBody(e)) && !(0 <= i < |co| && co[i].Node? && co[i].ct == C_INTERNAL)
    ensures e.body.Code?
  {
    hide PrE, PrDecls, PrSs, PrS, FineE, FineSs, FineS, TreeE, TreesDs, TreesSs, OptTree, TreeS, Reads, ReadsRow,
      Size, Sizes, GetString, Cat, Prep;
    SeeRow(co, i, FuncBody(e));
    if e.body.Internal? { SeeKind(co, i, Link(C_INTERNAL, One(Number(e.body.num)))); }
  }

  lemma BodyRule(co: seq<Cell>, i: int, ds: Decls, ss: Stmts, fns: seq<string>)
    requires var ts := Cat(TreesDs(ds), TreesSs(ss));
      ts.Cons? && Reads(co, i, ts.head) && FineSs(ss, false)
    ensures 0 <= i < |co| && co[i].Node? && (co[i].ct == C_DECL <==> ds.DCons?)
    ensures ds.DCons? ==> Cat(TreesDs(ds), TreesSs(ss)) == Cons(DeclTree(ds.names), Cat(TreesDs(ds.rest), TreesSs(ss)))
    ensures ds.DCons? ==> forall k ::
      PrDecls(ds, k) == TCons(LOCAL, PrNames(ds.names, TCons(SEMI, PrDecls(ds.rest, k))))
    ensures ds.DNil? ==> ss.SCons? && FineS(ss.head, false) && FineSs(ss.tail, false)
    ensures ds.DNil? ==> Cat(TreesDs(ds), TreesSs(ss)) == Cons(TreeS(ss.head), Cat(TreesDs(ds), TreesSs(ss.tail)))
    ensures ds.DNil? ==> forall k :: PrSs(ss, fns, k) == PrS(ss.head, fns, PrSs(ss.tail, fns, k))
    ensures ds.DNil? ==> forall k :: PrDecls(ds, k) == k
  {
    hide PrE, PrNames, PrS, FineE, FineS, TreeE, TreesDs, TreesSs, OptTree, TreeS, DeclTree, Reads, ReadsRow, Size,
      Sizes, GetString, Cat, Prep;
    BodyKind(ds, ss);
    SeeKind(co, i, Cat(TreesDs(ds), TreesSs(ss)).head);
    if ds.DNil? { BodyTail(ss); }
  }

  lemma BodyTail(ss: Stmts)
    ensures Cat(TreesDs(DNil), TreesSs(ss)) == TreesSs(ss)
    ensures ss.SCons? ==> Cat(TreesDs(DNil), TreesSs(ss.tail)) == TreesSs(ss.tail)
  {
    hide PrE, PrDecls, PrSs, PrS, FineE, FineSs, FineS, TreeE, TreesSs, OptTree, TreeS, DeclTree, Reads, ReadsRow,
      Size, Sizes, GetString, Prep;
  }

  lemma NoBody(ds: Decls, ss: Stmts, fns: seq<string>)
    requires Cat(TreesDs(ds), TreesSs(ss)) == Nil
    ensures forall k :: PrDecls(ds, PrSs(ss, fns, k)) == k
  {
    hide PrE, PrNames, PrS, FineE, FineSs, FineS, TreeE, TreesDs, TreesSs, OptTree, TreeS, DeclTree, Reads, ReadsRow,
      Size, Sizes, GetString, Cat, Prep;
    BodyKind(ds, ss);
  }
}
