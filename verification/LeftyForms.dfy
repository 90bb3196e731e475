/** The forms of the lefty language, each with its tokens written out: what cmd/lefty/parse.c builds from them.
    The parts of a form are any expressions and statements that print without loss. */
module LeftyForms {
  import opened Options
  import opened LeftySyntax
  import opened LeftyGrammar
  import opened LeftyPrint
  import opened LeftyRoundTrip

  /** An expression that comes back from its print. */
  predicate Part(e: Expr, sc: seq<string>, fns: seq<string>) {
    WfE(e, sc, fns) && Plain(e)
  }

  /** A statement that comes back from its print, an else after it included. */
  predicate Closed(s: Stmt, sc: seq<string>, fns: seq<string>) {
    WfS(s, sc, fns) && FineS(s, true) && !Open(s)
  }

  // ---- statements ----

  lemma EmptyForms(sc: seq<string>, fns: seq<string>, k: Toks)
    ensures PStmt(TCons(SEMI, k), sc, fns) == Ok(Empty, k)
    ensures PStmt(TCons(RETURN, TCons(SEMI, k)), sc, fns) == Ok(Return(NoExpr), k)
  {
    hide PExpr, PStmts, PIf, PWhile, PFor, Len, Shorter;
  }

  lemma JumpForms(sc: seq<string>, fns: seq<string>, k: Toks)
    ensures PStmt(TCons(BREAK, k), sc, fns) == if Hd(k) == SEMI then Ok(Break, Tl(k)) else Fail
    ensures PStmt(TCons(CONTINUE, k), sc, fns) == if Hd(k) == SEMI then Ok(Continue, Tl(k)) else Fail
  {
    hide PExpr, PStmts, PIf, PWhile, PFor, Len, Shorter;
  }

  lemma ExprForms(e: Expr, sc: seq<string>, fns: seq<string>, k: Toks)
    requires Part(e, sc, fns)
    ensures PStmt(TCons(RETURN, PrE(e, fns, TCons(SEMI, k))), sc, fns) == Ok(Return(TheExpr(e)), k)
    ensures PStmt(PrE(e, fns, TCons(SEMI, k)), sc, fns) == Ok(Do(e), k)
  {
    hide PStmt, PrE, WfE, FineE;
    RtReturn(e, sc, fns, k);
    RtDo(e, sc, fns, k);
  }

  lemma WhileForm(c: Expr, s: Stmt, sc: seq<string>, fns: seq<string>, k: Toks)
    requires Part(c, sc, fns) && Closed(s, sc, fns)
    ensures PStmt(TCons(WHILE, TCons(LP, PrE(c, fns, TCons(RP, PrS(s, fns, k))))), sc, fns) == Ok(While(c, s), k)
  {
    hide PStmt, PrE, WfE, FineE;
    RtS(While(c, s), sc, fns, k);
  }

  lemma IfForms(c: Expr, s: Stmt, t: Stmt, sc: seq<string>, fns: seq<string>, k: Toks)
    requires Part(c, sc, fns) && Closed(s, sc, fns) && Closed(t, sc, fns)
    ensures Hd(k) != ELSE ==>
      PStmt(TCons(IF, TCons(LP, PrE(c, fns, TCons(RP, PrS(s, fns, k))))), sc, fns) == Ok(If(c, s, NoStmt), k)
    ensures PStmt(TCons(IF, TCons(LP, PrE(c, fns, TCons(RP, PrS(s, fns, TCons(ELSE, PrS(t, fns, k))))))), sc, fns)
      == Ok(If(c, s, TheStmt(t)), k)
  {
    hide PStmt, PrE, WfE, FineE;
    if Hd(k) != ELSE { RtS(If(c, s, NoStmt), sc, fns, k); }
    RtS(If(c, s, TheStmt(t)), sc, fns, k);
  }

  /** The three parts of a for stand in this order, and the loop over a table names its variable first. */
  lemma ForForms(a: Expr, b: Expr, c: Expr, s: Stmt, sc: seq<string>, fns: seq<string>, k: Toks)
    requires Part(a, sc, fns) && Part(b, sc, fns) && Part(c, sc, fns) && Closed(s, sc, fns)
    ensures PStmt(TCons(FOR, TCons(LP, PrE(a, fns, TCons(SEMI, PrE(b, fns, TCons(SEMI, PrE(c, fns,
        TCons(RP, PrS(s, fns, k))))))))), sc, fns)
      == Ok(For(TheExpr(a), TheExpr(b), c, s), k)
    ensures PStmt(TCons(FOR, TCons(LP, PrE(a, fns, TCons(IN, PrE(b, fns, TCons(RP, PrS(s, fns, k))))))), sc, fns)
      == Ok(ForIn(a, b, s), k)
  {
    hide PStmt, PrE, WfE, FineE;
    ForFine(a, b, c, s, sc, fns);
    RtS(For(TheExpr(a), TheExpr(b), c, s), sc, fns, k);
    RtS(ForIn(a, b, s), sc, fns, k);
  }

  lemma ForFine(a: Expr, b: Expr, c: Expr, s: Stmt, sc: seq<string>, fns: seq<string>)
    requires Part(a, sc, fns) && Part(b, sc, fns) && Part(c, sc, fns) && Closed(s, sc, fns)
    ensures Closed(For(TheExpr(a), TheExpr(b), c, s), sc, fns) && Closed(ForIn(a, b, s), sc, fns)
  {
    hide PrE, WfE, FineE;
    assert FineO(TheExpr(a), true) && FineO(TheExpr(b), true) && WfO(TheExpr(a), sc, fns) && WfO(TheExpr(b), sc, fns);
  }

  /** In a for without its first two parts these stay open, and one without the third is an error. */
  lemma BareFor(c: Expr, s: Stmt, sc: seq<string>, fns: seq<string>, k: Toks)
    requires Part(c, sc, fns) && Closed(s, sc, fns)
    ensures PStmt(TCons(FOR, TCons(LP, TCons(SEMI, TCons(SEMI, PrE(c, fns, TCons(RP, PrS(s, fns, k))))))), sc, fns)
      == Ok(For(NoExpr, NoExpr, c, s), k)
    ensures PStmt(TCons(FOR, TCons(LP, TCons(SEMI, TCons(SEMI, TCons(RP, PrS(s, fns, k)))))), sc, fns) == Fail
  {
    hide PrE, PrS, WfE, FineE, WfS, FineS, PExpr, PStmt, PStmts, Open, Len, POpt;
    var k1 := TCons(RP, PrS(s, fns, k));
    RtAny(c, sc, fns, k1) by { assert Hd(k1) == RP; }
    RtS(s, sc, fns, k);
    NoPart(sc, fns, PrE(c, fns, k1));
    NoPart(sc, fns, k1);
    NoOperand(sc, fns, k1);
    NoPart(sc, fns, TCons(SEMI, PrE(c, fns, k1)));
    NoPart(sc, fns, TCons(SEMI, k1));
    ForRule(TCons(FOR, TCons(LP, TCons(SEMI, TCons(SEMI, PrE(c, fns, k1))))), sc, fns);
    ForRule(TCons(FOR, TCons(LP, TCons(SEMI, TCons(SEMI, k1)))), sc, fns);
  }

  lemma NoPart(sc: seq<string>, fns: seq<string>, k: Toks)
    ensures POpt(TCons(SEMI, k), sc, fns) == Ok(NoExpr, TCons(SEMI, k))
  {
  }

  lemma NoOperand(sc: seq<string>, fns: seq<string>, k: Toks)
    requires Hd(k) == RP
    ensures POpt(k, sc, fns) == Fail
  {
    assert PExp7(k, sc, fns) == Fail;
    assert PExp6(k, sc, fns) == Fail;
    assert PExp5(k, sc, fns) == Fail;
    hide PExp5, PExp6, PExp7, PLoop, Len;
    assert PExpI(5, k, sc, fns) == Fail;
    assert PExpI(4, k, sc, fns) == Fail;
    assert PExpI(3, k, sc, fns) == Fail;
    assert PExpI(2, k, sc, fns) == Fail;
    assert PExpI(1, k, sc, fns) == Fail;
    assert PExpI(0, k, sc, fns) == Fail;
    assert PExpr(k, sc, fns) == Fail;
  }

  /** A block keeps its statements in order; an empty one is like a semicolon. */
  lemma BlockForms(s: Stmt, t: Stmt, sc: seq<string>, fns: seq<string>, k: Toks)
    requires Closed(s, sc, fns) && Closed(t, sc, fns)
    ensures PStmt(TCons(LCB, TCons(RCB, k)), sc, fns) == Ok(Empty, k)
    ensures PStmt(TCons(LCB, PrS(s, fns, TCons(RCB, k))), sc, fns) == Ok(Block(s, SNil), k)
    ensures PStmt(TCons(LCB, PrS(s, fns, PrS(t, fns, TCons(RCB, k)))), sc, fns) == Ok(Block(s, SCons(t, SNil)), k)
  {
    hide PStmt, PrE, PrS, WfE, FineE, WfS, FineS, Open;
    EmptyBlock(sc, fns, k);
    var r := TCons(RCB, k);
    RtS(s, sc, fns, r);
    HdS(s, sc, fns, r);
    NoStatement(sc, fns, k);
    StmtsRule(PrS(s, fns, r), s, r, sc, fns);
    BlockRule(PrS(s, fns, r), sc, fns);
    var t1 := PrS(t, fns, r);
    RtS(s, sc, fns, t1);
    RtS(t, sc, fns, r);
    HdS(s, sc, fns, t1);
    HdS(t, sc, fns, r);
    StmtsRule(t1, t, r, sc, fns);
    StmtsRule(PrS(s, fns, t1), s, t1, sc, fns);
    BlockRule(PrS(s, fns, t1), sc, fns);
  }

  lemma EmptyBlock(sc: seq<string>, fns: seq<string>, k: Toks)
    ensures PStmt(TCons(LCB, TCons(RCB, k)), sc, fns) == Ok(Empty, k)
  {
    hide PExpr, Len;
  }

  lemma NoStatement(sc: seq<string>, fns: seq<string>, k: Toks)
    ensures PStmts(TCons(RCB, k), sc, fns) == Ok(SNil, k)
  {
    hide PStmt, Len;
  }

  lemma BlockRule(ts: Toks, sc: seq<string>, fns: seq<string>)
    requires PStmts(ts, sc, fns).Ok? && PStmts(ts, sc, fns).val.SCons?
    ensures var r := PStmts(ts, sc, fns); PStmt(TCons(LCB, ts), sc, fns) == Ok(Block(r.val.head, r.val.tail), r.rest)
  {
    hide PStmts, PExpr, Len;
  }

  // ---- expressions ----

  /** What may follow an expression without becoming a part of it. */
  predicate After(k: Toks) {
    !Continues(Hd(k), 0) && Hd(k) != ASSIGN
  }

  lemma AtomForms(n: nat, s: string, v: string, sc: seq<string>, fns: seq<string>, k: Toks)
    requires After(k)
    ensures PExpr(TCons(NUMBER(n), k), sc, fns) == Ok(Int(n), k)
    ensures PExpr(TCons(STRING(s), k), sc, fns) == Ok(Str(s), k)
    ensures PExpr(TCons(ID(v), k), sc, fns) == Ok(Var(v, Find(sc, v), ENil), k)
  {
    assert PrPath(ENil, fns, k) == k && WfEs(ENil, sc, fns) && FineEs(ENil, true);
    hide PExpr, PrPath, Find, WfEs, FineEs;
    RtE(Int(n), sc, fns, k);
    RtE(Str(s), sc, fns, k);
    RtVar(v, ENil, sc, fns, k);
  }

  lemma RtVar(v: string, path: Exprs, sc: seq<string>, fns: seq<string>, k: Toks)
    requires WfEs(path, sc, fns) && FineEs(path, true) && After(k)
    ensures PExpr(TCons(ID(v), PrPath(path, fns, k)), sc, fns) == Ok(Var(v, Find(sc, v), path), k)
  {
    var e := Var(v, Find(sc, v), path);
    assert Part(e, sc, fns) by { hide WfEs, FineEs, Find; }
    assert PrE(e, fns, k) == TCons(ID(v), PrPath(path, fns, k)) by { hide PrPath, Find; }
    hide PExpr, PrE, WfE, FineE, Find;
    RtE(e, sc, fns, k);
  }

  /** The variable v.w[e]. */
  lemma PathForm(v: string, w: string, e: Expr, sc: seq<string>, fns: seq<string>, k: Toks)
    requires Part(e, sc, fns) && !e.Str? && After(k)
    ensures PExpr(TCons(ID(v), TCons(DOT, TCons(ID(w), TCons(LB, PrE(e, fns, TCons(RB, k)))))), sc, fns)
      == Ok(Var(v, Find(sc, v), ECons(Str(w), ECons(e, ENil))), k)
  {
    var path := ECons(Str(w), ECons(e, ENil));
    PathPrints(w, e, fns, k);
    PathFine(w, e, sc, fns);
    hide PExpr, PrPath, WfEs, FineEs, Find;
    RtVar(v, path, sc, fns, k);
  }

  lemma PathPrints(w: string, e: Expr, fns: seq<string>, k: Toks)
    requires !e.Str?
    ensures PrPath(ECons(Str(w), ECons(e, ENil)), fns, k) ==
      TCons(DOT, TCons(ID(w), TCons(LB, PrE(e, fns, TCons(RB, k)))))
  {
    hide PrE;
    assert PrPath(ENil, fns, k) == k;
    assert PrPath(ECons(e, ENil), fns, k) == TCons(LB, PrE(e, fns, TCons(RB, k)));
  }

  lemma PathFine(w: string, e: Expr, sc: seq<string>, fns: seq<string>)
    requires Part(e, sc, fns)
    ensures var path := ECons(Str(w), ECons(e, ENil)); WfEs(path, sc, fns) && FineEs(path, true)
  {
    assert WfE(Str(w), sc, fns) && FineE(Str(w), true);
    hide WfE, FineE;
    assert WfEs(ENil, sc, fns) && FineEs(ENil, true);
    assert WfEs(ECons(e, ENil), sc, fns) && FineEs(ECons(e, ENil), true);
  }

  /** The call f(a, b), and the one without arguments. */
  lemma CallForms(f: string, a: Expr, b: Expr, sc: seq<string>, fns: seq<string>, k: Toks)
    requires Part(a, sc, fns) && Part(b, sc, fns) && After(k)
    ensures PExpr(TCons(ID(f), TCons(LP, TCons(RP, k))), sc, fns) == Ok(Call(Var(f, Find(sc, f), ENil), ENil), k)
    ensures PExpr(TCons(ID(f), TCons(LP, PrE(a, fns, TCons(COMMA, PrE(b, fns, TCons(RP, k)))))), sc, fns)
      == Ok(Call(Var(f, Find(sc, f), ENil), ECons(a, ECons(b, ENil))), k)
  {
    var fn := Var(f, Find(sc, f), ENil);
    var args := ECons(a, ECons(b, ENil));
    VarFine(f, sc, fns);
    ArgsFine(a, b, sc, fns);
    ArgsPrint(a, b, fns, TCons(RP, k));
    CallPrints(f, Find(sc, f), ENil, fns, k);
    CallPrints(f, Find(sc, f), args, fns, k);
    assert PrArgs(ENil, fns, TCons(RP, k)) == TCons(RP, k);
    assert WfEs(ENil, sc, fns) && FineEs(ENil, true);
    hide PExpr, PrArgs, PrE, WfEs, FineEs, Find;
    RtCalled(fn, ENil, sc, fns, k);
    RtCalled(fn, args, sc, fns, k);
  }

  /** The call f(a,) is an error. */
  lemma TrailingComma(f: string, a: Expr, sc: seq<string>, fns: seq<string>, k: Toks)
    requires Part(a, sc, fns)
    ensures PExp7(TCons(ID(f), TCons(LP, PrE(a, fns, TCons(COMMA, TCons(RP, k))))), sc, fns) == Fail
  {
    var k1 := TCons(COMMA, TCons(RP, k));
    var args := PrE(a, fns, k1);
    HdE(a, sc, fns, k1);
    RtE(a, sc, fns, k1) by { assert Hd(k1) == COMMA; hide WfE, PrE, FineE; }
    hide PExpr, PItems, PFunc, WfE, PrE, FineE, Find, Len;
    assert PMoreArgs(k1, sc, fns) == Fail;
    assert PArgs(args, sc, fns) == Fail;
    NoArgs(f, args, sc, fns);
  }

  lemma NoArgs(f: string, args: Toks, sc: seq<string>, fns: seq<string>)
    requires PArgs(args, sc, fns) == Fail
    ensures PExp7(TCons(ID(f), TCons(LP, args)), sc, fns) == Fail
  {
    assert PPath(TCons(LP, args), sc, fns) == Ok(ENil, TCons(LP, args));
    hide PExpr, PItems, PFunc, PArgs, PPath, Find, Len, Shorter, NotLonger;
  }

  lemma RtCalled(fn: Expr, args: Exprs, sc: seq<string>, fns: seq<string>, k: Toks)
    requires fn.Var? && WfE(fn, sc, fns) && FineE(fn, true) && WfEs(args, sc, fns) && FineEs(args, true) && After(k)
    ensures PExpr(PrE(Call(fn, args), fns, k), sc, fns) == Ok(Call(fn, args), k)
  {
    assert Part(Call(fn, args), sc, fns) by { hide WfEs, FineEs; }
    hide PExpr, PrE, WfE, FineE;
    RtE(Call(fn, args), sc, fns, k);
  }

  lemma VarFine(f: string, sc: seq<string>, fns: seq<string>)
    ensures WfE(Var(f, Find(sc, f), ENil), sc, fns) && FineE(Var(f, Find(sc, f), ENil), true)
  {
  }

  lemma ArgsFine(a: Expr, b: Expr, sc: seq<string>, fns: seq<string>)
    requires Part(a, sc, fns) && Part(b, sc, fns)
    ensures var args := ECons(a, ECons(b, ENil)); WfEs(args, sc, fns) && FineEs(args, true)
  {
    hide WfE, FineE;
    assert WfEs(ENil, sc, fns) && FineEs(ENil, true);
    assert WfEs(ECons(b, ENil), sc, fns) && FineEs(ECons(b, ENil), true);
  }

  lemma ArgsPrint(a: Expr, b: Expr, fns: seq<string>, k: Toks)
    ensures PrArgs(ECons(a, ECons(b, ENil)), fns, k) == PrE(a, fns, TCons(COMMA, PrE(b, fns, k)))
  {
    hide PrE;
    assert PrArgs(ECons(b, ENil), fns, k) == PrE(b, fns, k);
  }

  lemma CallPrints(f: string, slot: Option<nat>, args: Exprs, fns: seq<string>, k: Toks)
    ensures PrE(Call(Var(f, slot, ENil), args), fns, k) == TCons(ID(f), TCons(LP, PrArgs(args, fns, TCons(RP, k))))
  {
    hide PrArgs;
    assert PrPath(ENil, fns, TCons(LP, PrArgs(args, fns, TCons(RP, k)))) == TCons(LP, PrArgs(args, fns, TCons(RP, k)));
  }

  /** The table constructor [ a = v; b = w; ], and the empty one. */
  lemma TableForms(a: Expr, v: Expr, b: Expr, w: Expr, sc: seq<string>, fns: seq<string>, k: Toks)
    requires Part(a, sc, fns) && Part(v, sc, fns) && Part(b, sc, fns) && Part(w, sc, fns) && !a.Assign? && !b.Assign?
    requires After(k)
    ensures PExpr(TCons(LB, TCons(RB, k)), sc, fns) == Ok(Tcons(INil), k)
    ensures PExpr(TCons(LB, PrE(a, fns, TCons(ASSIGN, PrE(v, fns, TCons(SEMI, PrE(b, fns, TCons(ASSIGN, PrE(w, fns,
        TCons(SEMI, TCons(RB, k)))))))))), sc, fns)
      == Ok(Tcons(ICons(a, v, ICons(b, w, INil))), k)
  {
    var items := ICons(a, v, ICons(b, w, INil));
    ItemsFine(a, v, b, w, sc, fns);
    ItemsPrint(a, v, b, w, fns, TCons(RB, k));
    assert WfItems(INil, sc, fns) && FineItems(INil, true) && PrItems(INil, fns, TCons(RB, k)) == TCons(RB, k);
    hide PExpr, PrItems, WfItems, FineItems, PrE, FineE;
    TableReads(INil, sc, fns, k);
    TableReads(items, sc, fns, k);
  }

  lemma TableReads(items: Items, sc: seq<string>, fns: seq<string>, k: Toks)
    requires WfItems(items, sc, fns) && FineItems(items, true) && After(k)
    ensures PExpr(TCons(LB, PrItems(items, fns, TCons(RB, k))), sc, fns) == Ok(Tcons(items), k)
  {
    hide PExpr, PrItems, WfItems, FineItems;
    RtE(Tcons(items), sc, fns, k);
  }

  lemma ItemsFine(a: Expr, v: Expr, b: Expr, w: Expr, sc: seq<string>, fns: seq<string>)
    requires Part(a, sc, fns) && Part(v, sc, fns) && Part(b, sc, fns) && Part(w, sc, fns) && !a.Assign? && !b.Assign?
    ensures var items := ICons(a, v, ICons(b, w, INil)); WfItems(items, sc, fns) && FineItems(items, true)
  {
    hide WfE, FineE;
    assert WfItems(INil, sc, fns) && FineItems(INil, true) && Prec(a) >= 1 && Prec(b) >= 1;
    assert WfItems(ICons(b, w, INil), sc, fns) && FineItems(ICons(b, w, INil), true);
  }

  lemma ItemsPrint(a: Expr, v: Expr, b: Expr, w: Expr, fns: seq<string>, k: Toks)
    ensures PrItems(ICons(a, v, ICons(b, w, INil)), fns, k) == PrE(a, fns, TCons(ASSIGN, PrE(v, fns, TCons(SEMI,
      PrE(b, fns, TCons(ASSIGN, PrE(w, fns, TCons(SEMI, k))))))))
  {
    hide PrE;
    assert PrItems(ICons(b, w, INil), fns, k) == PrE(b, fns, TCons(ASSIGN, PrE(w, fns, TCons(SEMI, k))));
  }

  // ---- functions ----

  /** function (p, q) { local x, y; s t } : the names are the locals 0 to 3 of s and t. */
  lemma FunctionForm(p: string, q: string, x: string, y: string, s: Stmt, t: Stmt, sc: seq<string>,
                     fns: seq<string>, k: Toks)
    requires p != q && x !in [p, q] && y !in [p, q, x]
    requires Closed(s, [p, q, x, y], fns) && Closed(t, [p, q, x, y], fns) && After(k)
    ensures PExpr(TCons(FUNCTION, TCons(LP, TCons(ID(p), TCons(COMMA, TCons(ID(q), TCons(RP, TCons(LCB,
        TCons(LOCAL, TCons(ID(x), TCons(COMMA, TCons(ID(y), TCons(SEMI, PrS(s, fns, PrS(t, fns, TCons(RCB, k)
        )))))))))))))), sc, fns)
      == Ok(Func([p, q], Code(DCons([x, y], DNil), SCons(s, SCons(t, SNil)))), k)
  {
    var ss := SCons(s, SCons(t, SNil));
    var f := Func([p, q], Code(DCons([x, y], DNil), ss));
    AllNew(p, q, x, y);
    assert DeclNames(DNil) == [] && DeclNames(DCons([x, y], DNil)) == [x, y];
    assert WfDecls(DNil, [p, q] + [x, y]) && WfDecls(DCons([x, y], DNil), [p, q]);
    assert [p, q] + [x, y] == [p, q, x, y];
    BodyFine(s, t, [p, q, x, y], fns);
    BodyPrints(s, t, fns, TCons(RCB, k));
    FunctionPrints(p, q, x, y, ss, fns, k);
    FunctionFine([p, q], DCons([x, y], DNil), ss, sc, fns);
    hide PExpr, PrE, PrSs, PrS, WfE, FineE, WfSs, FineSs, WfS, FineS, WfDecls, NewNames;
    RtE(f, sc, fns, k);
  }

  lemma FunctionFine(params: seq<string>, ds: Decls, ss: Stmts, sc: seq<string>, fns: seq<string>)
    requires NewNames(params, []) && WfDecls(ds, params) && WfSs(ss, params + DeclNames(ds), fns) && FineSs(ss, true)
    ensures Part(Func(params, Code(ds, ss)), sc, fns)
  {
    hide NewNames, WfDecls, WfSs, FineSs, DeclNames;
  }

  /** Names apart from commas, a comma left out, one too many, and names declared twice; k starts with no name
      and no comma.  After the first name a comma may end the list, and its absence does. */
  lemma DeclForms(x: string, y: string, z: string, sc: seq<string>, k: Toks)
    requires !Hd(k).ID? && Hd(k) != COMMA && x !in sc && y !in sc + [x] && z !in sc + [x] + [y]
    ensures var xs, xyz := [x], [x] + ([y] + [z]);
      var zs, c := TCons(ID(z), k), TCons(COMMA, k);
      && PDecl(TCons(ID(x), TCons(COMMA, TCons(ID(y), TCons(COMMA, zs)))), sc) == Ok(xyz, k)
      && PDecl(TCons(ID(x), TCons(COMMA, TCons(ID(y), zs))), sc) == Ok(xyz, k)
      && PDecl(TCons(ID(x), zs), sc) == Ok(xs, zs) && PDecl(TCons(ID(x), c), sc) == Ok(xs, k)
      && PDecl(TCons(ID(x), TCons(COMMA, TCons(ID(y), c))), sc) == Fail
      && PDecl(TCons(ID(x), TCons(COMMA, TCons(ID(y), TCons(ID(x), k)))), sc) == Fail
      && PDecl(TCons(ID(x), TCons(COMMA, TCons(ID(x), k))), sc) == Fail && PDecl(k, sc) == Ok([], k)
  {
    hide Len;
    assert PMoreDecl(k, sc + [x] + [y] + [z]) == Ok([], k);
    assert PMoreDecl(TCons(ID(z), k), sc + [x] + [y]) == Ok([z], k) by { assert [z] + [] == [z]; }
    assert PMoreDecl(TCons(ID(x), k), sc + [x] + [y]) == Fail;
    assert PMoreDecl(TCons(ID(x), k), sc + [x]) == Fail;
    assert PMoreDecl(TCons(ID(y), TCons(COMMA, TCons(ID(z), k))), sc + [x]) == Ok([y] + [z], k);
    assert PMoreDecl(TCons(ID(y), TCons(ID(z), k)), sc + [x]) == Ok([y] + [z], k);
    assert PMoreDecl(TCons(ID(y), TCons(COMMA, k)), sc + [x]) == Fail;
    assert PMoreDecl(TCons(ID(y), TCons(ID(x), k)), sc + [x]) == Fail;
    assert PMoreDecl(k, sc + [x]) == Ok([], k) && [x] + [] == [x];
  }

  lemma AllNew(p: string, q: string, x: string, y: string)
    requires p != q && x !in [p, q] && y !in [p, q, x]
    ensures NewNames([p, q], []) && NewNames([x, y], [p, q])
  {
    assert [p, q][1..] == [q] && [q][1..] == [] && [x, y][1..] == [y] && [y][1..] == [];
    assert [] + [p] == [p] && [p, q] + [x] == [p, q, x];
    assert NewNames([q], [p]) && NewNames([y], [p, q, x]);
  }

  lemma BodyFine(s: Stmt, t: Stmt, sc: seq<string>, fns: seq<string>)
    requires Closed(s, sc, fns) && Closed(t, sc, fns)
    ensures var ss := SCons(s, SCons(t, SNil)); WfSs(ss, sc, fns) && FineSs(ss, true)
  {
    hide WfS, FineS;
    assert WfSs(SNil, sc, fns) && FineSs(SNil, true);
    assert WfSs(SCons(t, SNil), sc, fns) && FineSs(SCons(t, SNil), true);
  }

  lemma BodyPrints(s: Stmt, t: Stmt, fns: seq<string>, k: Toks)
    ensures PrSs(SCons(s, SCons(t, SNil)), fns, k) == PrS(s, fns, PrS(t, fns, k))
  {
    hide PrS;
    assert PrSs(SCons(t, SNil), fns, k) == PrS(t, fns, k);
  }

  lemma FunctionPrints(p: string, q: string, x: string, y: string, ss: Stmts, fns: seq<string>, k: Toks)
    ensures PrE(Func([p, q], Code(DCons([x, y], DNil), ss)), fns, k) ==
      TCons(FUNCTION, TCons(LP, TCons(ID(p), TCons(COMMA, TCons(ID(q), TCons(RP, TCons(LCB,
        TCons(LOCAL, TCons(ID(x), TCons(COMMA, TCons(ID(y), TCons(SEMI, PrSs(ss, fns, TCons(RCB, k))))))))))))))
  {
    hide PrSs;
    NamesPrint(p, q, TCons(RP, TCons(LCB, PrDecls(DCons([x, y], DNil), PrSs(ss, fns, TCons(RCB, k))))));
    NamesPrint(x, y, TCons(SEMI, PrSs(ss, fns, TCons(RCB, k))));
    assert PrDecls(DNil, PrSs(ss, fns, TCons(RCB, k))) == PrSs(ss, fns, TCons(RCB, k));
  }

  lemma NamesPrint(p: string, q: string, k: Toks)
    ensures PrNames([p, q], k) == TCons(ID(p), TCons(COMMA, TCons(ID(q), k)))
  {
    assert [p, q][1..] == [q];
    assert PrNames([q], k) == TCons(ID(q), k);
  }

  /** function () internal "f" : the first internal function of that name. */
  lemma InternalForm(f: string, sc: seq<string>, fns: seq<string>, k: Toks)
    requires f in fns && After(k)
    ensures PExpr(TCons(FUNCTION, TCons(LP, TCons(RP, TCons(INTERNAL, TCons(STRING(f), k))))), sc, fns)
      == Ok(Func([], Internal(Find(fns, f).value)), k)
  {
    var e := Func([], Internal(Find(fns, f).value));
    assert WfE(e, sc, fns) && Plain(e);
    assert PrE(e, fns, k) == TCons(FUNCTION, TCons(LP, TCons(RP, TCons(INTERNAL, TCons(STRING(f), k)))));
    hide PExpr, PrE, WfE, FineE;
    RtE(e, sc, fns, k);
  }
}
