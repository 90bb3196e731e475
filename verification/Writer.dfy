/** codestr of cmd/lefty/str.c as it works: a walk over the cells of a code object along fp and next,
    appending tokens.  It is proved against LeftyPrint for every tree whose top the walk starts at. */
module Writer {
  import opened LeftySyntax
  import opened LeftyPrint
  import opened CodeCells
  import opened CodeTrees
  import opened CodeReads
  import opened WriterRules

  class Writer {
    var out: seq<Tok>        // the buffer
    const co: seq<Cell>      // the code object
    const fns: seq<string>   // Ifuncs

    constructor (co: seq<Cell>, fns: seq<string>)
      ensures this.co == co && this.fns == fns && out == []
    {
      this.co, this.fns, out := co, fns, [];
    }

    method Put(t: Tok)
      modifies this
      ensures forall k {:trigger Prep(out, k)} :: Prep(out, k) == Prep(old(out), TCons(t, k))
    {
      ghost var was := out;
      out := out + [t];
      forall k ensures Prep(out, k) == Prep(was, TCons(t, k)) { PrepMore(was, t, k); }
    }

    // ---- expressions ----

    /** codestr at the top cell of an expression. */
    method Expr(ci: int, ghost e: LeftySyntax.Expr)
      requires Reads(co, ci, TreeE(e)) && Printable(e)
      modifies this
      ensures forall k {:trigger Prep(out, k)} :: Prep(out, k) == Prep(old(out), PrE(e, fns, k))
      decreases Size(TreeE(e)), 1
    {
      hide PrArgs, PrPath, PrItems, PrNames, PrDecls, PrSs, PrS, FineE, FineSs, FineS, TreeE, TreesDs, TreesSs,
        OptTree, TreeS, Reads, ReadsRow, Size, Sizes, GetString, Cat, Prep;
      SeeKind(co, ci, TreeE(e));
      ExprKind(e);
      var ct := co[ci].ct;
      if ct == C_ASSIGN || ct.C_BIN? {
        Two(ci, e);
      } else if ct == C_NOT || ct == C_UMINUS || ct == C_PEXPR {
        Prefix(ci, e);
      } else if ct == C_FCALL {
        CallOf(ci, e);
      } else if ct == C_INTEGER {
        Put(NUMBER(co[ci].u.n));
      } else if ct == C_STRING {
        Put(STRING(GetString(co, ci)));
      } else if ct == C_GVAR || ct == C_LVAR {
        Variable(ci, e);
      } else if ct == C_FUNCTION {
        Function(ci, e);
      } else {
        TableCons(ci, e);
      }
    }

    method Two(ci: int, ghost e: LeftySyntax.Expr)
      requires Reads(co, ci, TreeE(e)) && Printable(e) && (e.Assign? || e.Bin?)
      modifies this
      ensures forall k {:trigger Prep(out, k)} :: Prep(out, k) == Prep(old(out), PrE(e, fns, k))
      decreases Size(TreeE(e)), 0
    {
      hide PrArgs, PrPath, PrItems, PrNames, PrDecls, PrSs, PrS, FineEs, FineItems, FineSs, FineS, TreesEs,
        TreesItems, TreesDs, TreesSs, OptTree, TreeS, FuncTree, Reads, ReadsRow, Size, Sizes, GetString, Cat, Prep;
      ghost var l, r := if e.Assign? then e.lhs else e.left, if e.Assign? then e.rhs else e.right;
      SeeTwo(co, ci, if e.Assign? then C_ASSIGN else C_BIN(e.op), TreeE(l), TreeE(r));
      var ct := co[ci].ct;
      var ci1 := co[ci].u.fp;
      Expr(ci1, l);
      if ct == C_ASSIGN { Put(ASSIGN); } else { Put(OpTok(ct.op)); }
      Expr(co[ci1].next, r);
    }

    method Prefix(ci: int, ghost e: LeftySyntax.Expr)
      requires Reads(co, ci, TreeE(e)) && Printable(e) && (e.Not? || e.Uminus? || e.Paren?)
      modifies this
      ensures forall k {:trigger Prep(out, k)} :: Prep(out, k) == Prep(old(out), PrE(e, fns, k))
      decreases Size(TreeE(e)), 0
    {
      hide PrArgs, PrPath, PrItems, PrNames, PrDecls, PrSs, PrS, FineEs, FineItems, FineSs, FineS, TreesEs,
        TreesItems, TreesDs, TreesSs, OptTree, TreeS, FuncTree, Reads, ReadsRow, Size, Sizes, GetString, Cat, Prep;
      SeeOne(co, ci, if e.Not? then C_NOT else if e.Uminus? then C_UMINUS else C_PEXPR, TreeE(e.arg));
      var ct := co[ci].ct;
      Put(if ct == C_NOT then NOT else if ct == C_UMINUS then MINUS else LP);
      Expr(co[ci].u.fp, e.arg);
      if ct == C_PEXPR { Put(RP); }
    }

    method CallOf(ci: int, ghost e: LeftySyntax.Expr)
      requires Reads(co, ci, TreeE(e)) && Printable(e) && e.Call?
      modifies this
      ensures forall k {:trigger Prep(out, k)} :: Prep(out, k) == Prep(old(out), PrE(e, fns, k))
      decreases Size(TreeE(e)), 0
    {
      hide *;
      CallRule(e, fns);
      SeeTwo(co, ci, C_FCALL, TreeE(e.fn), Link(C_ARGS, TreesEs(e.args)));
      var ci1 := co[ci].u.fp;
      Expr(ci1, e.fn);
      Put(LP);
      Args(co[ci1].next, e.args);
      Put(RP);
    }

    /** codestr at a C_ARGS cell. */
    method Args(ci: int, ghost es: Exprs)
      requires Reads(co, ci, Link(C_ARGS, TreesEs(es))) && FineEs(es, false)
      modifies this
      ensures forall k {:trigger Prep(out, k)} :: Prep(out, k) == Prep(old(out), PrArgs(es, fns, k))
      decreases Size(Link(C_ARGS, TreesEs(es))), 2
    {
      hide PrE, PrArgs, PrDecls, PrSs, PrS, FineE, FineSs, FineS, TreeE, TreesDs, TreesSs, OptTree, TreeS, Reads,
        ReadsRow, Size, Sizes, GetString, Cat, Prep;
      SeeKind(co, ci, Link(C_ARGS, TreesEs(es)));
      LinkSize(C_ARGS, TreesEs(es));
      var ci1 := co[ci].u.fp;
      ghost var rest := es;
      while ci1 != NULL
        invariant ReadsRow(co, ci1, TreesEs(rest)) && FineEs(rest, false)
        invariant Sizes(TreesEs(rest)) <= Sizes(TreesEs(es))
        invariant forall k :: Prep(out, PrArgs(rest, fns, k)) == Prep(old(out), PrArgs(es, fns, k))
        decreases Sizes(TreesEs(rest))
      {
        SeeRow(co, ci1, TreesEs(rest));
        RowSizes(TreesEs(rest));
        ArgsRule(rest, fns);
        Expr(ci1, rest.head);
        ci1 := co[ci1].next;
        SeeRow(co, ci1, TreesEs(rest.tail));
        if ci1 != NULL { Put(COMMA); }
        rest := rest.tail;
      }
      SeeRow(co, ci1, TreesEs(rest));
      NoArgs(rest, fns);
    }

    method Variable(ci: int, ghost e: LeftySyntax.Expr)
      requires Reads(co, ci, TreeE(e)) && Printable(e) && e.Var?
      modifies this
      ensures forall k {:trigger Prep(out, k)} :: Prep(out, k) == Prep(old(out), PrE(e, fns, k))
      decreases Size(TreeE(e)), 0
    {
      hide PrArgs, PrPath, PrItems, PrNames, PrDecls, PrSs, PrS, FineEs, FineItems, FineSs, FineS, TreesEs,
        TreesItems, TreesDs, TreesSs, OptTree, TreeS, FuncTree, Reads, ReadsRow, Size, Sizes, GetString, Cat, Prep;
      SeeKind(co, ci, TreeE(e));
      var ct := co[ci].ct;
      var ci1 := co[ci].u.fp;
      ghost var kids := TreeE(e).kids;
      LinkSize(TreeE(e).ct, kids);
      SeeRow(co, ci1, kids);
      RowSizes(kids);
      SeeKind(co, ci1, Text(e.name));
      Put(ID(GetString(co, ci1)));
      if ct == C_LVAR {
        ci1 := co[ci1].next;
        SeeRow(co, ci1, kids.tail);
        RowSizes(kids.tail);
      }
      Path(co[ci1].next, e.path);
    }

    /** The loop of codestr over the selectors of a variable. */
    method Path(ci: int, ghost path: Exprs)
      requires ReadsRow(co, ci, TreesEs(path)) && FineEs(path, false)
      modifies this
      ensures forall k {:trigger Prep(out, k)} :: Prep(out, k) == Prep(old(out), PrPath(path, fns, k))
      decreases Sizes(TreesEs(path)), 2
    {
      hide PrE, PrPath, PrDecls, PrSs, PrS, FineE, FineSs, FineS, TreeE, TreesDs, TreesSs, OptTree, TreeS, Reads,
        ReadsRow, Size, Sizes, GetString, Cat, Prep;
      var ci1 := ci;
      ghost var rest := path;
      while ci1 != NULL
        invariant ReadsRow(co, ci1, TreesEs(rest)) && FineEs(rest, false)
        invariant Sizes(TreesEs(rest)) <= Sizes(TreesEs(path))
        invariant forall k :: Prep(out, PrPath(rest, fns, k)) == Prep(old(out), PrPath(path, fns, k))
        decreases Sizes(TreesEs(rest))
      {
        SeeRow(co, ci1, TreesEs(rest));
        RowSizes(TreesEs(rest));
        PathRule(rest, fns);
        StrKind(co, ci1, rest.head);
        if co[ci1].ct == C_STRING {
          Put(DOT);
          Put(ID(GetString(co, ci1)));
        } else {
          Put(LB);
          Expr(ci1, rest.head);
          Put(RB);
        }
        ci1 := co[ci1].next;
        rest := rest.tail;
      }
      SeeRow(co, ci1, TreesEs(rest));
      PathRule(rest, fns);
    }

    method TableCons(ci: int, ghost e: LeftySyntax.Expr)
      requires Reads(co, ci, TreeE(e)) && Printable(e) && e.Tcons?
      modifies this
      ensures forall k {:trigger Prep(out, k)} :: Prep(out, k) == Prep(old(out), PrE(e, fns, k))
      decreases Size(TreeE(e)), 0
    {
      hide PrArgs, PrPath, PrItems, PrNames, PrDecls, PrSs, PrS, FineEs, FineItems, FineSs, FineS, TreesEs,
        TreesItems, TreesDs, TreesSs, OptTree, TreeS, FuncTree, Reads, ReadsRow, Size, Sizes, GetString, Cat, Prep;
      SeeKind(co, ci, TreeE(e));
      LinkSize(C_TCONS, TreesItems(e.items));
      Put(LB);
      ghost var o1 := out;
      var ci1 := co[ci].u.fp;
      ghost var rest := e.items;
      while ci1 != NULL
        invariant ReadsRow(co, ci1, TreesItems(rest)) && FineItems(rest, false)
        invariant Sizes(TreesItems(rest)) <= Sizes(TreesItems(e.items))
        invariant forall k :: Prep(out, PrItems(rest, fns, k)) == Prep(o1, PrItems(e.items, fns, k))
        decreases Sizes(TreesItems(rest))
      {
        ItemsRule(co, ci1, rest, fns);
        Expr(ci1, rest.key);
        Put(ASSIGN);
        ci1 := co[ci1].next;
        Expr(ci1, rest.val);
        Put(SEMI);
        ci1 := co[ci1].next;
        rest := rest.rest;
      }
      NoItems(co, ci1, rest, fns);
      Put(RB);
    }

    // ---- functions ----

    method Parameters(ci: int, ghost xs: seq<string>)
      requires Reads(co, ci, DeclTree(xs))
      modifies this
      ensures forall k {:trigger Prep(out, k)} ::
        Prep(out, k) == Prep(old(out), TCons(FUNCTION, TCons(LP, PrNames(xs, TCons(RP, k)))))
    {
      hide *;
      Put(FUNCTION);
      Put(LP);
      Decl(ci, xs);
      Put(RP);
    }

    method Function(ci: int, ghost e: LeftySyntax.Expr)
      requires Reads(co, ci, TreeE(e)) && Printable(e) && e.Func?
      modifies this
      ensures forall k {:trigger Prep(out, k)} :: Prep(out, k) == Prep(old(out), PrE(e, fns, k))
      decreases Size(TreeE(e)), 0
    {
      hide PrE, PrNames, PrDecls, PrSs, PrS, FineE, FineSs, FineS, TreeE, TreesDs, TreesSs, OptTree, TreeS, DeclTree,
        Reads, ReadsRow, Size, Sizes, GetString, Cat, Prep;
      ghost var body := FuncBody(e);
      FuncRule(e, fns);
      SeeFunc(co, ci, e);
      var ci1 := co[co[co[ci].u.fp].next].next;
      Parameters(ci1, e.params);
      ci1 := co[ci1].next;
      SeeRow(co, ci1, body);
      // an empty body has no cell to look at
      if ci1 != NULL && co[ci1].ct == C_INTERNAL {
        SeeInternal(co, ci1, e);
        Put(INTERNAL);
        var n := co[co[ci1].u.fp].u.n;
        Put(STRING(if 0 <= n < |fns| then fns[n] else ""));
      } else {
        SeeCode(co, ci1, e);
        Put(LCB);
        Body(ci1, e.body.locals, e.body.stmts);
        Put(RCB);
      }
    }

    /** The loop of codestr over the declarations and statements of a function. */
    method Body(ci: int, ghost ds: Decls, ghost ss: Stmts)
      requires ReadsRow(co, ci, Cat(TreesDs(ds), TreesSs(ss))) && FineSs(ss, false)
      modifies this
      ensures forall k {:trigger Prep(out, k)} :: Prep(out, k) == Prep(old(out), PrDecls(ds, PrSs(ss, fns, k)))
      decreases Sizes(Cat(TreesDs(ds), TreesSs(ss))), 2
    {
      hide *;
      var ci1 := ci;
      ghost var rd, rs := ds, ss;
      ghost var all := Cat(TreesDs(ds), TreesSs(ss));
      while ci1 != NULL
        invariant ReadsRow(co, ci1, Cat(TreesDs(rd), TreesSs(rs))) && FineSs(rs, false)
        invariant Sizes(Cat(TreesDs(rd), TreesSs(rs))) <= Sizes(all)
        invariant forall k :: Prep(out, PrDecls(rd, PrSs(rs, fns, k))) == Prep(old(out), PrDecls(ds, PrSs(ss, fns, k)))
        decreases Sizes(Cat(TreesDs(rd), TreesSs(rs)))
      {
        SeeRow(co, ci1, Cat(TreesDs(rd), TreesSs(rs)));
        RowSizes(Cat(TreesDs(rd), TreesSs(rs)));
        BodyRule(co, ci1, rd, rs, fns);
        if co[ci1].ct == C_DECL {
          Put(LOCAL);
          Decl(ci1, rd.names);
          Put(SEMI);
          rd := rd.rest;
        } else {
          Stmt(ci1, rs.head);
          rs := rs.tail;
        }
        ci1 := co[ci1].next;
      }
      SeeRow(co, ci1, Cat(TreesDs(rd), TreesSs(rs)));
      NoBody(rd, rs, fns);
    }

    /** codestr at a C_DECL cell. */
    method Decl(ci: int, ghost xs: seq<string>)
      requires Reads(co, ci, DeclTree(xs))
      modifies this
      ensures forall k {:trigger Prep(out, k)} :: Prep(out, k) == Prep(old(out), PrNames(xs, k))
    {
      hide PrE, PrDecls, PrSs, PrS, FineE, FineSs, FineS, TreeE, TreesDs, TreesSs, OptTree, TreeS, Reads, ReadsRow,
        Size, Sizes, GetString, Cat, Prep;
      SeeKind(co, ci, DeclTree(xs));
      var ci1 := co[ci].u.fp;
      ghost var rest := xs;
      while ci1 != NULL
        invariant ReadsRow(co, ci1, Names(rest))
        invariant forall k :: Prep(out, PrNames(rest, k)) == Prep(old(out), PrNames(xs, k))
        decreases |rest|
      {
        SeeRow(co, ci1, Names(rest));
        SeeKind(co, ci1, Text(rest[0]));
        Put(ID(GetString(co, ci1)));
        ci1 := co[ci1].next;
        SeeRow(co, ci1, Names(rest[1..]));
        if ci1 != NULL { Put(COMMA); }
        rest := rest[1..];
      }
      SeeRow(co, ci1, Names(rest));
    }

    // ---- statements ----

    /** codestr at a C_STMT cell. */
    method Stmt(ci: int, ghost s: LeftySyntax.Stmt)
      requires Reads(co, ci, TreeS(s)) && FineS(s, false)
      modifies this
      ensures forall k {:trigger Prep(out, k)} :: Prep(out, k) == Prep(old(out), PrS(s, fns, k))
      decreases Size(TreeS(s)), 1
    {
      hide *;
      StmtKind(s);
      SeeKind(co, ci, TreeS(s));
      LinkSize(C_STMT, TreeS(s).kids);
      var ci1 := co[ci].u.fp;
      SeeRow(co, ci1, TreeS(s).kids);
      RowSizes(TreeS(s).kids);
      if ci1 == NULL {
        EmptyPrint(s, fns);
        Put(SEMI);
        return;
      }
      SeeRow(co, co[ci1].next, TreeS(s).kids.tail);
      if co[ci1].next == NULL {
        Single(ci1, s);
      } else {
        BlockPrint(s, fns);
        Put(LCB);
        Block(ci1, TreeS(s).kids, s);
        Put(RCB);
      }
    }

    /** A statement with one cell under it. */
    method Single(ci1: int, ghost s: LeftySyntax.Stmt)
      requires FineS(s, false) && TreeS(s).Link? && TreeS(s).kids.Cons? && TreeS(s).kids.tail.Nil?
      requires Reads(co, ci1, TreeS(s).kids.head)
      modifies this
      ensures forall k {:trigger Prep(out, k)} :: Prep(out, k) == Prep(old(out), PrS(s, fns, k))
      decreases Size(TreeS(s)), 0
    {
      hide PrE, PrDecls, PrSs, PrS, FineE, FineSs, FineS, TreeE, TreesDs, TreesSs, OptTree, TreeS, Reads, ReadsRow,
        Size, Sizes, GetString, Cat, Prep;
      StmtKind(s);
      SeeKind(co, ci1, TreeS(s).kids.head);
      LinkSize(C_STMT, TreeS(s).kids);
      RowSizes(TreeS(s).kids);
      RowSizes(Nil);
      SingleKind(s, fns);
      var ct1 := co[ci1].ct;
      if ct1 == C_STMT {
        Stmt(ci1, s.first);
      } else if ct1 == C_IF {
        If(ci1, s);
      } else if ct1 == C_WHILE {
        While(ci1, s);
      } else if ct1 == C_FOR {
        For(ci1, s);
      } else if ct1 == C_FORIN {
        ForIn(ci1, s);
      } else if ct1 == C_BREAK {
        Put(BREAK);
        Put(SEMI);
      } else if ct1 == C_CONTINUE {
        Put(CONTINUE);
        Put(SEMI);
      } else if ct1 == C_RETURN {
        Return(ci1, s);
      } else {
        Expr(ci1, s.e);
        Put(SEMI);
      }
    }

    /** The loop over the statements of a block. */
    method Block(ci: int, ghost kids: Trees, ghost s: LeftySyntax.Stmt)
      requires s.Block? && FineS(s, false) && kids == TreesSs(SCons(s.first, s.more)) && ReadsRow(co, ci, kids)
      modifies this
      ensures forall k {:trigger Prep(out, k)} ::
        Prep(out, k) == Prep(old(out), PrS(s.first, fns, PrSs(s.more, fns, k)))
      decreases Sizes(kids), 2
    {
      hide *;
      var ci1 := ci;
      ghost var rest := SCons(s.first, s.more);
      FineBlock(s);
      SsPrint(rest, fns);
      while ci1 != NULL
        invariant ReadsRow(co, ci1, TreesSs(rest)) && FineSs(rest, false) && Sizes(TreesSs(rest)) <= Sizes(kids)
        invariant forall k :: Prep(out, PrSs(rest, fns, k)) == Prep(old(out), PrS(s.first, fns, PrSs(s.more, fns, k)))
        decreases Sizes(TreesSs(rest))
      {
        SeeRow(co, ci1, TreesSs(rest));
        RowSizes(TreesSs(rest));
        SsPrint(rest, fns);
        Stmt(ci1, rest.head);
        ci1 := co[ci1].next;
        rest := rest.tail;
      }
      SeeRow(co, ci1, TreesSs(rest));
      SsPrint(rest, fns);
    }

    /** An expression and the token after it. */
    method ExprThen(ci: int, ghost e: LeftySyntax.Expr, t: Tok)
      requires Reads(co, ci, TreeE(e)) && Printable(e)
      modifies this
      ensures forall k {:trigger Prep(out, k)} :: Prep(out, k) == Prep(old(out), PrE(e, fns, TCons(t, k)))
      decreases Size(TreeE(e)), 2
    {
      hide *;
      Expr(ci, e);
      Put(t);
    }

    /** A keyword and the condition in parentheses after it. */
    method Condition(t: Tok, ci: int, ghost e: LeftySyntax.Expr)
      requires Reads(co, ci, TreeE(e)) && Printable(e)
      modifies this
      ensures forall k {:trigger Prep(out, k)} ::
        Prep(out, k) == Prep(old(out), TCons(t, TCons(LP, PrE(e, fns, TCons(RP, k)))))
      decreases Size(TreeE(e)), 3
    {
      hide *;
      Put(t);
      Put(LP);
      ExprThen(ci, e, RP);
    }

    method If(ci: int, ghost s: LeftySyntax.Stmt)
      requires s.If? && FineS(s, false) && TreeS(s) == Link(C_STMT, One(InnerIf(s))) && Reads(co, ci, InnerIf(s))
      modifies this
      ensures forall k {:trigger Prep(out, k)} :: Prep(out, k) == Prep(old(out), PrS(s, fns, k))
      decreases Size(InnerIf(s)), 0
    {
      hide PrE, PrDecls, PrSs, PrS, FineE, FineSs, FineS, TreeE, TreesDs, TreesSs, OptTree, TreeS, Reads, ReadsRow,
        Size, Sizes, GetString, Cat, Prep, InnerIf;
      IfRule(s, fns);
      SeeIf(co, ci, s);
      var ci1 := co[ci].u.fp;
      Condition(IF, ci1, s.cond);
      ci1 := co[ci1].next;
      Stmt(ci1, s.thn);
      ci1 := co[ci1].next;
      if ci1 != NULL {
        Put(ELSE);
        Stmt(ci1, s.els.s);
      }
    }

    method While(ci: int, ghost s: LeftySyntax.Stmt)
      requires s.While? && FineS(s, false) && Reads(co, ci, Link(C_WHILE, Cons(TreeE(s.cond), One(TreeS(s.body)))))
      modifies this
      ensures forall k {:trigger Prep(out, k)} :: Prep(out, k) == Prep(old(out), PrS(s, fns, k))
      decreases Size(Link(C_WHILE, Cons(TreeE(s.cond), One(TreeS(s.body))))), 0
    {
      hide PrE, PrDecls, PrSs, PrOpt, FineE, FineSs, FineO, TreeE, TreesDs, TreesSs, OptTree, TreeS, Reads, ReadsRow,
        Size, Sizes, GetString, Cat, Prep;
      SeeTwo(co, ci, C_WHILE, TreeE(s.cond), TreeS(s.body));
      var ci1 := co[ci].u.fp;
      Condition(WHILE, ci1, s.cond);
      Stmt(co[ci1].next, s.body);
    }

    /** codestr at a C_FOR cell; a C_NOP would stop it, so there is none. */
    method For(ci: int, ghost s: LeftySyntax.Stmt)
      requires s.For? && FineS(s, false)
      requires Reads(co, ci, Link(C_FOR, ForKids(s)))
      modifies this
      ensures forall k {:trigger Prep(out, k)} :: Prep(out, k) == Prep(old(out), PrS(s, fns, k))
      decreases Size(Link(C_FOR, ForKids(s))), 0
    {
      hide PrE, PrDecls, PrSs, PrS, FineE, FineSs, FineS, TreeE, TreesDs, TreesSs, OptTree, TreeS, Reads, ReadsRow,
        Size, Sizes, GetString, Cat, Prep;
      ForRule(s, fns);
      SeeFor(co, ci, s);
      var ci1 := co[ci].u.fp;
      Put(FOR);
      Put(LP);
      ExprThen(ci1, s.init.e, SEMI);
      ci1 := co[ci1].next;
      ExprThen(ci1, s.test.e, SEMI);
      ci1 := co[ci1].next;
      ExprThen(ci1, s.step, RP);
      ci1 := co[ci1].next;
      Stmt(ci1, s.body);
    }

    method ForIn(ci: int, ghost s: LeftySyntax.Stmt)
      requires s.ForIn? && FineS(s, false)
      requires Reads(co, ci, Link(C_FORIN, Cons(TreeE(s.v), Cons(TreeE(s.tbl), One(TreeS(s.body))))))
      modifies this
      ensures forall k {:trigger Prep(out, k)} :: Prep(out, k) == Prep(old(out), PrS(s, fns, k))
      decreases Size(Link(C_FORIN, Cons(TreeE(s.v), Cons(TreeE(s.tbl), One(TreeS(s.body)))))), 0
    {
      hide PrE, PrDecls, PrSs, PrOpt, FineE, FineSs, FineO, TreeE, TreesDs, TreesSs, OptTree, TreeS, Reads, ReadsRow,
        Size, Sizes, GetString, Cat, Prep;
      SeeThree(co, ci, C_FORIN, TreeE(s.v), TreeE(s.tbl), TreeS(s.body));
      var ci1 := co[ci].u.fp;
      Put(FOR);
      Put(LP);
      Expr(ci1, s.v);
      Put(IN);
      ci1 := co[ci1].next;
      Expr(ci1, s.tbl);
      ci1 := co[ci1].next;
      Put(RP);
      Stmt(ci1, s.body);
    }

    method Return(ci: int, ghost s: LeftySyntax.Stmt)
      requires s.Return? && FineS(s, false) && Reads(co, ci, ReturnTree(s))
      modifies this
      ensures forall k {:trigger Prep(out, k)} :: Prep(out, k) == Prep(old(out), PrS(s, fns, k))
      decreases Size(ReturnTree(s)), 0
    {
      hide PrE, PrDecls, PrSs, FineE, FineSs, TreeE, TreesDs, TreesSs, OptTree, TreeS, Reads, ReadsRow, Size, Sizes,
        GetString, Cat, Prep;
      SeeKind(co, ci, ReturnTree(s));
      var ci1 := co[ci].u.fp;
      SeeRow(co, ci1, ReturnTree(s).kids);
      LinkSize(C_RETURN, ReturnTree(s).kids);
      RowSizes(ReturnTree(s).kids);
      Put(RETURN);
      if ci1 != NULL {
        Expr(ci1, s.val.e);
      }
      Put(SEMI);
    }
  }
}
