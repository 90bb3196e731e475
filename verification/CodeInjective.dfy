/** The cells of a program determine the program: different trees of cmd/lefty/parse.c have different
    cells. */
module CodeInjective {
  import opened LeftySyntax
  import opened CodeCells
  import opened CodeTrees
  import opened CodeReads

  /** A cell type that no expression has at its top. */
  predicate NoExprType(ct: CType) {
    match ct
    case C_DECL => true case C_STMT => true case C_IF => true case C_WHILE => true case C_FOR => true
    case C_FORIN => true case C_BREAK => true case C_CONTINUE => true case C_RETURN => true
    case C_INTERNAL => true case C_NOP => true
    case _ => false
  }

  lemma ExprTop(e: Expr)
    ensures TreeE(e).Link? ==> !NoExprType(TreeE(e).ct)
  {
  }

  lemma {:induction false} SameE(e: Expr, f: Expr)
    requires TreeE(e) == TreeE(f)
    ensures e == f
    decreases e
  {
    match e
    case Assign(l, r) => SameE(l, f.lhs); SameE(r, f.rhs);
    case Bin(_, l, r) => SameE(l, f.left); SameE(r, f.right);
    case Uminus(a) => SameE(a, f.arg);
    case Not(a) => SameE(a, f.arg);
    case Paren(a) => SameE(a, f.arg);
    case Call(g, args) => SameE(g, f.fn); SameEs(args, f.args);
    case Int(_) =>
    case Str(_) =>
    case Var(_, slot, path) =>
      assert f.Var? && f.slot == slot;
      SameEs(path, f.path);
    case Func(_, _) => SameFunc(e, f);
    case Tcons(items) => SameItems(items, f.items);
  }

  lemma {:induction false} SameFunc(e: Expr, f: Expr)
    requires e.Func? && TreeE(e) == TreeE(f)
    ensures e == f
    decreases e, 0
  {
    assert f.Func?;
    SameNames(e.params, f.params);
    assert BodyTrees(e.body) == BodyTrees(f.body);
    BodyTop(e.body);
    BodyTop(f.body);
    match e.body
    case Internal(_) =>
    case Code(ds, ss) => SameBody(ds, ss, f.body.locals, f.body.stmts);
  }

  function BodyTrees(b: Body): Trees {
    match b
    case Internal(n) => One(Link(C_INTERNAL, One(Number(n))))
    case Code(ds, ss) => Cat(TreesDs(ds), TreesSs(ss))
  }

  lemma BodyTop(b: Body)
    ensures b.Internal? <==>
      BodyTrees(b).Cons? && BodyTrees(b).head.Link? && BodyTrees(b).head.ct == C_INTERNAL
  {
    match b
    case Internal(_) =>
    case Code(DCons(xs, _), _) => assert DeclTree(xs).ct == C_DECL;
    case Code(DNil, SNil) =>
    case Code(DNil, SCons(s, _)) => assert TreeS(s).ct == C_STMT;
  }

  lemma {:induction false} SameBody(ds: Decls, ss: Stmts, ds2: Decls, ss2: Stmts)
    requires Cat(TreesDs(ds), TreesSs(ss)) == Cat(TreesDs(ds2), TreesSs(ss2))
    ensures ds == ds2 && ss == ss2
    decreases ss, 1, ds
  {
    assert ds.DCons? <==> ds2.DCons? by {
      if ss.SCons? { assert TreeS(ss.head).ct == C_STMT; }
      if ss2.SCons? { assert TreeS(ss2.head).ct == C_STMT; }
    }
    match ds
    case DNil => SameSs(ss, ss2);
    case DCons(xs, rest) => SameNames(xs, ds2.names); SameBody(rest, ss, ds2.rest, ss2);
  }

  lemma {:induction false} SameNames(xs: seq<string>, ys: seq<string>)
    requires Names(xs) == Names(ys)
    ensures xs == ys
    decreases |xs|
  {
    if xs != [] {
      SameNames(xs[1..], ys[1..]);
      assert xs == [xs[0]] + xs[1..] && ys == [ys[0]] + ys[1..];
    }
  }

  lemma {:induction false} SameEs(es: Exprs, fs: Exprs)
    requires TreesEs(es) == TreesEs(fs)
    ensures es == fs
    decreases es
  {
    match es case ENil => case ECons(e, rest) => SameE(e, fs.head); SameEs(rest, fs.tail);
  }

  lemma {:induction false} SameItems(items: Items, others: Items)
    requires TreesItems(items) == TreesItems(others)
    ensures items == others
    decreases items
  {
    match items
    case INil =>
    case ICons(k, v, rest) => SameE(k, others.key); SameE(v, others.val); SameItems(rest, others.rest);
  }

  lemma {:induction false} SameSs(ss: Stmts, rs: Stmts)
    requires TreesSs(ss) == TreesSs(rs)
    ensures ss == rs
    decreases ss, 0
  {
    match ss case SNil => case SCons(s, rest) => SameS(s, rs.head); SameSs(rest, rs.tail);
  }

  lemma {:induction false} SameO(o: OptExpr, q: OptExpr)
    requires OptTree(o) == OptTree(q)
    ensures o == q
    decreases o
  {
    if o.TheExpr? { ExprTop(o.e); }
    if q.TheExpr? { ExprTop(q.e); }
    if o.TheExpr? { SameE(o.e, q.e); }
  }

  /** The cell below C_STMT. */
  function StmtType(s: Stmt): CType {
    match s
    case If(_, _, _) => C_IF
    case While(_, _) => C_WHILE
    case For(_, _, _, _) => C_FOR
    case ForIn(_, _, _) => C_FORIN
    case Break => C_BREAK
    case Continue => C_CONTINUE
    case _ => C_RETURN
  }

  lemma StmtTop(s: Stmt)
    ensures s.Do? ==> TreeS(s).kids == One(TreeE(s.e)) && (TreeE(s.e).Link? ==> !NoExprType(TreeE(s.e).ct))
    ensures s.Block? ==> TreeS(s).kids.Cons? && TreeS(s).kids.head.Link? && TreeS(s).kids.head.ct == C_STMT
    ensures s.Empty? ==> TreeS(s).kids == Nil
    ensures !s.Do? && !s.Block? && !s.Empty? ==>
      TreeS(s).kids.Cons? && TreeS(s).kids.head.Link? && TreeS(s).kids.head.ct == StmtType(s)
  {
    if s.Do? { ExprTop(s.e); }
    if s.Block? { assert TreeS(s.first).ct == C_STMT; }
  }

  lemma {:induction false} SameS(s: Stmt, r: Stmt)
    requires TreeS(s) == TreeS(r)
    ensures s == r
    decreases s
  {
    StmtTop(s);
    StmtTop(r);
    match s
    case Empty =>
    case Block(s1, more) => SameS(s1, r.first); SameSs(more, r.more);
    case If(c, t, e) =>
      SameE(c, r.cond);
      SameS(t, r.thn);
      assert e.TheStmt? <==> r.els.TheStmt?;
      if e.TheStmt? { SameS(e.s, r.els.s); }
    case While(c, b) => SameE(c, r.cond); SameS(b, r.body);
    case For(i, c, st, b) => SameO(i, r.init); SameO(c, r.test); SameE(st, r.step); SameS(b, r.body);
    case ForIn(v, t, b) => SameE(v, r.v); SameE(t, r.tbl); SameS(b, r.body);
    case Break =>
    case Continue =>
    case Return(o) =>
      assert o.TheExpr? <==> r.val.TheExpr?;
      if o.TheExpr? { SameE(o.e, r.val.e); }
    case Do(e) => SameE(e, r.e);
  }

  /** Two units with the same code object are the same unit. */
  lemma SameCode(e: Expr, f: Expr)
    requires Emit(Link(C_CODE, One(TreeE(e))), 0, NULL) == Emit(Link(C_CODE, One(TreeE(f))), 0, NULL)
    ensures e == f
  {
    var t, u := Link(C_CODE, One(TreeE(e))), Link(C_CODE, One(TreeE(f)));
    var cs := Emit(t, 0, NULL);
    hide TreeE, Emit, Reads;
    assert cs[0..0 + Size(t)] == cs && cs[0..0 + Size(u)] == cs;
    EmitReads(t, 0, NULL, cs);
    EmitReads(u, 0, NULL, cs);
    TreeLinksE(e);
    TreeLinksE(f);
    CodeTop(e);
    CodeTop(f);
    ReadsOnce(cs, 0, t, u);
    SameE(e, f);
  }

  lemma CodeTop(e: Expr)
    ensures var t := Link(C_CODE, One(TreeE(e))); Root(t, 0) == 0 && (LinkCells(TreeE(e)) ==> LinkCells(t))
  {
    hide TreeE;
    assert LinkCells(TreeE(e)) ==> LinksCells(One(TreeE(e))) by { assert LinksCells(Nil); }
  }
}
