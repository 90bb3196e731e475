/** Which trees the parser builds, and for which of them printing and parsing is the identity. */
module LeftyImage {
  import opened Options
  import opened LeftySyntax
  import opened LeftyGrammar
  import opened LeftyPrint
  import opened LeftyRoundTrip

  // ---- counting braces ----

  function Braces(ts: Toks): nat {
    if ts.TNil? then 0 else (if ts.head == LCB then 1 else 0) + Braces(ts.tail)
  }

  lemma TlBraces(ts: Toks)
    ensures Braces(ts) == (if Hd(ts) == LCB then 1 else 0) + Braces(Tl(ts))
  {
  }

  /** The blocks and function bodies of a tree; without `all`, blocks of one statement do not count. */
  function BrE(e: Expr, all: bool): nat {
    match e
    case Assign(l, r) => BrE(l, all) + BrE(r, all)
    case Bin(_, l, r) => BrE(l, all) + BrE(r, all)
    case Uminus(a) => BrE(a, all)
    case Not(a) => BrE(a, all)
    case Paren(a) => BrE(a, all)
    case Call(f, args) => BrE(f, all) + BrEs(args, all)
    case Int(_) => 0
    case Str(_) => 0
    case Var(_, _, path) => BrEs(path, all)
    case Func(_, Internal(_)) => 0
    case Func(_, Code(_, ss)) => 1 + BrSs(ss, all)
    case Tcons(items) => BrItems(items, all)
  }

  function BrEs(es: Exprs, all: bool): nat {
    match es case ENil => 0 case ECons(e, rest) => BrE(e, all) + BrEs(rest, all)
  }

  function BrItems(items: Items, all: bool): nat {
    match items case INil => 0
    case ICons(k, v, rest) => BrE(k, all) + BrE(v, all) + BrItems(rest, all)
  }

  function BrSs(ss: Stmts, all: bool): nat {
    match ss case SNil => 0 case SCons(s, rest) => BrS(s, all) + BrSs(rest, all)
  }

  function BrO(o: OptExpr, all: bool): nat {
    match o case NoExpr => 0 case TheExpr(e) => BrE(e, all)
  }

  function BrS(s: Stmt, all: bool): nat {
    match s
    case Empty => 0
    case Block(s1, more) => (if all || more.SCons? then 1 else 0) + BrS(s1, all) + BrSs(more, all)
    case If(c, t, NoStmt) => BrE(c, all) + BrS(t, all)
    case If(c, t, TheStmt(e)) => BrE(c, all) + BrS(t, all) + BrS(e, all)
    case While(c, b) => BrE(c, all) + BrS(b, all)
    case For(i, c, st, b) => BrO(i, all) + BrO(c, all) + BrE(st, all) + BrS(b, all)
    case ForIn(v, t, b) => BrE(v, all) + BrE(t, all) + BrS(b, all)
    case Break => 0
    case Continue => 0
    case Return(o) => BrO(o, all)
    case Do(e) => BrE(e, all)
  }

  // ---- what the parser builds ----

  /** Every tree the parser builds is well-formed, and takes a brace for each block and body. */
  lemma {:induction false} ImE(ts: Toks, sc: seq<string>, fns: seq<string>)
    requires PExpr(ts, sc, fns).Ok?
    ensures var r := PExpr(ts, sc, fns); WfE(r.val, sc, fns) && BrE(r.val, true) + Braces(r.rest) <= Braces(ts)
    decreases Len(ts), 20
  {
    hide PExpI, PStmts, PStmt, PrE, PrSs, PrS, FineE, FineS, WfEs, WfItems, WfDecls, WfSs, NewNames, BrEs, BrItems,
      BrSs, Braces;
    ImI(0, ts, sc, fns);
    var ts1 := PExpI(0, ts, sc, fns).rest;
    if Hd(ts1) == ASSIGN {
      TlBraces(ts1);
      ImE(Tl(ts1), sc, fns);
    }
  }

  lemma {:induction false} ImI(k: nat, ts: Toks, sc: seq<string>, fns: seq<string>)
    requires k <= 5 && PExpI(k, ts, sc, fns).Ok?
    ensures var r := PExpI(k, ts, sc, fns);
      WfE(r.val, sc, fns) && Prec(r.val) >= 1 + k && BrE(r.val, true) + Braces(r.rest) <= Braces(ts)
    decreases Len(ts), 15 - k
  {
    hide PExpr, PLoop, PExp5, PStmts, PStmt, PrE, PrSs, PrS, FineE, FineS, WfE, BrE, Braces;
    if k == 5 {
      Im5(ts, sc, fns);
    } else {
      ImI(k + 1, ts, sc, fns);
      var r := PExpI(k + 1, ts, sc, fns);
      ImLoop(k, r.val, r.rest, sc, fns);
    }
  }

  lemma {:induction false} ImLoop(k: nat, l: Expr, ts: Toks, sc: seq<string>, fns: seq<string>)
    requires k < 5 && WfE(l, sc, fns) && Prec(l) >= 1 + k && PLoop(k, l, ts, sc, fns).Ok?
    ensures var r := PLoop(k, l, ts, sc, fns);
      && WfE(r.val, sc, fns) && Prec(r.val) >= 1 + k
      && BrE(r.val, true) + Braces(r.rest) <= BrE(l, true) + Braces(ts)
    decreases Len(ts), 16
  {
    hide PExpr, PExpI, PStmts, PStmt, PrE, PrDecls, PrSs, PrS, FineE, FineSs, FineS, WfEs, WfItems, WfDecls, WfSs,
      NewNames, BrEs, BrItems, BrSs, Braces;
    if GetOp(Hd(ts), k).Some? {
      TlBraces(ts);
      ImI(k + 1, Tl(ts), sc, fns);
      var r := PExpI(k + 1, Tl(ts), sc, fns);
      ImLoop(k, Bin(GetOp(Hd(ts), k).value, l, r.val), r.rest, sc, fns);
    }
  }

  lemma {:induction false} Im5(ts: Toks, sc: seq<string>, fns: seq<string>)
    requires PExp5(ts, sc, fns).Ok?
    ensures var r := PExp5(ts, sc, fns);
      WfE(r.val, sc, fns) && Prec(r.val) >= 6 && BrE(r.val, true) + Braces(r.rest) <= Braces(ts)
    decreases Len(ts), 9
  {
    hide PExpr, PExp6, PStmts, PStmt, PrE, PrSs, PrS, FineE, FineS, WfEs, WfItems, WfDecls, WfSs, NewNames, BrEs,
      BrItems, BrSs, Braces;
    if Hd(ts) == MINUS {
      TlBraces(ts);
      Im5(Tl(ts), sc, fns);
    } else {
      Im6(ts, sc, fns);
    }
  }

  lemma {:induction false} Im6(ts: Toks, sc: seq<string>, fns: seq<string>)
    requires PExp6(ts, sc, fns).Ok?
    ensures var r := PExp6(ts, sc, fns);
      WfE(r.val, sc, fns) && Prec(r.val) >= 7 && BrE(r.val, true) + Braces(r.rest) <= Braces(ts)
    decreases Len(ts), 8
  {
    hide PExpr, PExp7, PStmts, PStmt, PrE, PrSs, PrS, FineE, FineS, WfEs, WfItems, WfDecls, WfSs, NewNames, BrEs,
      BrItems, BrSs, Braces;
    if Hd(ts) == NOT {
      TlBraces(ts);
      Im6(Tl(ts), sc, fns);
    } else {
      Im7(ts, sc, fns);
    }
  }

  lemma {:induction false} Im7(ts: Toks, sc: seq<string>, fns: seq<string>)
    requires PExp7(ts, sc, fns).Ok?
    ensures var r := PExp7(ts, sc, fns);
      WfE(r.val, sc, fns) && Prec(r.val) >= 8 && BrE(r.val, true) + Braces(r.rest) <= Braces(ts)
    decreases Len(ts), 7
  {
    hide PExpr, PArgs, PPath, PItems, PFunc, PStmts, PStmt, PrE, PrSs, PrS, FineE, FineS, WfEs, WfItems, WfDecls,
      WfSs, NewNames, BrEs, BrItems, BrSs, Braces;
    TlBraces(ts);
    match Hd(ts) {
      case FUNCTION => ImFunc(Tl(ts), sc, fns);
      case LP =>
        ImE(Tl(ts), sc, fns);
        TlBraces(PExpr(Tl(ts), sc, fns).rest);
      case LB => ImItems(Tl(ts), sc, fns);
      case ID(name) => ImVar(ts, sc, fns);
      case _ =>
    }
  }

  lemma {:induction false} ImVar(ts: Toks, sc: seq<string>, fns: seq<string>)
    requires Hd(ts).ID? && PExp7(ts, sc, fns).Ok?
    ensures var r := PExp7(ts, sc, fns);
      WfE(r.val, sc, fns) && Prec(r.val) >= 8 && BrE(r.val, true) + Braces(r.rest) <= Braces(ts)
    decreases Len(ts), 6
  {
    hide PExpr, PArgs, PPath, PItems, PFunc, PStmts, PStmt, PrE, PrSs, PrS, FineE, FineS, WfEs, WfItems, WfDecls,
      WfSs, NewNames, BrEs, BrItems, BrSs, Braces;
    TlBraces(ts);
    ImPath(Tl(ts), sc, fns);
    var r := PPath(Tl(ts), sc, fns);
    var v := Var(Hd(ts).id, Find(sc, Hd(ts).id), r.val);
    assert WfE(v, sc, fns) && BrE(v, true) == BrEs(r.val, true);
    if Hd(r.rest) == LP {
      TlBraces(r.rest);
      ImArgs(Tl(r.rest), sc, fns);
      TlBraces(PArgs(Tl(r.rest), sc, fns).rest);
    }
  }

  lemma {:induction false} ImArgs(ts: Toks, sc: seq<string>, fns: seq<string>)
    requires PArgs(ts, sc, fns).Ok?
    ensures var r := PArgs(ts, sc, fns); WfEs(r.val, sc, fns) && BrEs(r.val, true) + Braces(r.rest) <= Braces(ts)
    decreases Len(ts), 22
  {
    hide PExpr, PMoreArgs, PStmts, PStmt, PrE, PrSs, PrS, FineE, FineS, WfE, BrE, Braces;
    if Hd(ts) != RP {
      ImE(ts, sc, fns);
      ImMoreArgs(PExpr(ts, sc, fns).rest, sc, fns);
    }
  }

  lemma {:induction false} ImMoreArgs(ts: Toks, sc: seq<string>, fns: seq<string>)
    requires PMoreArgs(ts, sc, fns).Ok?
    ensures var r := PMoreArgs(ts, sc, fns);
      WfEs(r.val, sc, fns) && BrEs(r.val, true) + Braces(r.rest) <= Braces(ts)
    decreases Len(ts), 21
  {
    hide PExpr, PStmts, PStmt, PrE, PrSs, PrS, FineE, FineS, WfE, BrE, Braces;
    if Hd(ts) != RP {
      TlBraces(ts);
      ImE(Tl(ts), sc, fns);
      ImMoreArgs(PExpr(Tl(ts), sc, fns).rest, sc, fns);
    }
  }

  lemma {:induction false} ImPath(ts: Toks, sc: seq<string>, fns: seq<string>)
    requires PPath(ts, sc, fns).Ok?
    ensures var r := PPath(ts, sc, fns); WfEs(r.val, sc, fns) && BrEs(r.val, true) + Braces(r.rest) <= Braces(ts)
    decreases Len(ts), 22
  {
    hide PExpr, PStmts, PStmt, PrE, PrSs, PrS, FineE, FineS, WfItems, WfDecls, WfSs, NewNames, BrItems, BrSs, Braces;
    TlBraces(ts);
    if Hd(ts) == DOT {
      TlBraces(Tl(ts));
      ImPath(Tl(Tl(ts)), sc, fns);
      assert WfE(Str(Hd(Tl(ts)).id), sc, fns) && BrE(Str(Hd(Tl(ts)).id), true) == 0;
    } else if Hd(ts) == LB {
      ImE(Tl(ts), sc, fns);
      var ts1 := PExpr(Tl(ts), sc, fns).rest;
      TlBraces(ts1);
      ImPath(Tl(ts1), sc, fns);
    }
  }

  lemma {:induction false} ImItems(ts: Toks, sc: seq<string>, fns: seq<string>)
    requires PItems(ts, sc, fns).Ok?
    ensures var r := PItems(ts, sc, fns);
      WfItems(r.val, sc, fns) && BrItems(r.val, true) + Braces(r.rest) <= Braces(ts)
    decreases Len(ts), 21
  {
    hide PExpr, PExpI, PStmts, PStmt, PrE, PrSs, PrS, FineE, FineS, WfE, BrE, Braces;
    TlBraces(ts);
    if Hd(ts) != RB {
      ImI(0, ts, sc, fns);
      var ts1 := PExpI(0, ts, sc, fns).rest;
      TlBraces(ts1);
      ImE(Tl(ts1), sc, fns);
      var ts2 := PExpr(Tl(ts1), sc, fns).rest;
      TlBraces(ts2);
      ImItems(Tl(ts2), sc, fns);
    }
  }

  lemma {:induction false} ImMoreDecl(ts: Toks, sc: seq<string>)
    requires PMoreDecl(ts, sc).Ok?
    ensures NewNames(PMoreDecl(ts, sc).val, sc) && Braces(PMoreDecl(ts, sc).rest) <= Braces(ts)
    decreases Len(ts)
  {
    hide PExpr, PStmts, PStmt, PrE, PrSs, PrS, FineE, FineS, Braces;
    if Hd(ts).ID? {
      TlBraces(ts);
      TlBraces(Tl(ts));
      var x := Hd(ts).id;
      var ts1 := if Hd(Tl(ts)) == COMMA then Tl(Tl(ts)) else Tl(ts);
      ImMoreDecl(ts1, sc + [x]);
      var xs := PMoreDecl(ts1, sc + [x]).val;
      assert ([x] + xs)[1..] == xs;
    }
  }

  lemma ImDecl(ts: Toks, sc: seq<string>)
    requires PDecl(ts, sc).Ok?
    ensures NewNames(PDecl(ts, sc).val, sc) && Braces(PDecl(ts, sc).rest) <= Braces(ts)
  {
    hide PExpr, PMoreDecl, PStmts, PStmt, PrE, PrSs, PrS, FineE, FineS, Braces;
    if Hd(ts).ID? {
      TlBraces(ts);
      TlBraces(Tl(ts));
      var x := Hd(ts).id;
      assert [x][1..] == [];
      if Hd(Tl(ts)) == COMMA {
        ImMoreDecl(Tl(Tl(ts)), sc + [x]);
        var xs := PMoreDecl(Tl(Tl(ts)), sc + [x]).val;
        assert ([x] + xs)[1..] == xs;
      }
    }
  }

  lemma {:induction false} ImLocals(ts: Toks, sc: seq<string>)
    requires PLocals(ts, sc).Ok?
    ensures WfDecls(PLocals(ts, sc).val, sc) && Braces(PLocals(ts, sc).rest) <= Braces(ts)
    decreases Len(ts)
  {
    hide PExpr, PDecl, PStmts, PStmt, PrE, PrSs, PrS, FineE, FineS, NewNames, Braces;
    if Hd(ts) == LOCAL {
      TlBraces(ts);
      ImDecl(Tl(ts), sc);
      var r := PDecl(Tl(ts), sc);
      TlBraces(r.rest);
      ImLocals(Tl(r.rest), sc + r.val);
    }
  }

  lemma FindThere(names: seq<string>, s: string)
    ensures Find(names, s).Some? ==> Find(names, names[Find(names, s).value]) == Find(names, s)
  {
  }

  lemma {:induction false} ImFunc(ts: Toks, sc: seq<string>, fns: seq<string>)
    requires PFunc(ts, fns).Ok?
    ensures var r := PFunc(ts, fns);
      WfE(r.val, sc, fns) && Prec(r.val) >= 8 && BrE(r.val, true) + Braces(r.rest) <= Braces(ts)
    decreases Len(ts), 33
  {
    hide PExpr, PDecl, PLocals, PStmts, PStmt, PrE, PrSs, PrS, FineE, FineS, WfEs, WfItems, WfDecls, WfSs, NewNames,
      BrEs, BrItems, BrSs, Braces;
    TlBraces(ts);
    ImDecl(Tl(ts), []);
    var r1 := PDecl(Tl(ts), []);
    TlBraces(r1.rest);
    var ts2 := Tl(r1.rest);
    TlBraces(ts2);
    if Hd(ts2) == INTERNAL {
      TlBraces(Tl(ts2));
      FindThere(fns, Hd(Tl(ts2)).s);
    } else {
      ImLocals(Tl(ts2), r1.val);
      var r2 := PLocals(Tl(ts2), r1.val);
      ImStmts(r2.rest, r1.val + DeclNames(r2.val), fns);
    }
  }

  lemma {:induction false} ImStmts(ts: Toks, sc: seq<string>, fns: seq<string>)
    requires PStmts(ts, sc, fns).Ok?
    ensures var r := PStmts(ts, sc, fns); WfSs(r.val, sc, fns) && BrSs(r.val, true) + Braces(r.rest) <= Braces(ts)
    decreases Len(ts), 32
  {
    hide PExpr, PStmt, PrE, PrSs, PrS, FineE, FineS, WfS, BrS, Braces;
    TlBraces(ts);
    if Hd(ts) != RCB {
      ImStmt(ts, sc, fns);
      ImStmts(PStmt(ts, sc, fns).rest, sc, fns);
    }
  }

  /** A statement that could take an else is never followed by one. */
  lemma {:induction false} ImStmt(ts: Toks, sc: seq<string>, fns: seq<string>)
    requires PStmt(ts, sc, fns).Ok?
    ensures var r := PStmt(ts, sc, fns);
      && WfS(r.val, sc, fns) && (Open(r.val) ==> Hd(r.rest) != ELSE)
      && BrS(r.val, true) + Braces(r.rest) <= Braces(ts)
    decreases Len(ts), 31
  {
    hide PExpr, PStmts, PIf, PWhile, PFor, PrE, PrSs, PrS, FineE, FineS, WfE, WfSs, BrE, BrSs, Braces;
    TlBraces(ts);
    match Hd(ts) {
      case SEMI =>
      case LCB => ImBlock(ts, sc, fns);
      case IF => ImIf(ts, sc, fns);
      case WHILE => ImWhile(ts, sc, fns);
      case FOR => ImFor(ts, sc, fns);
      case BREAK => ImJump(ts, sc, fns);
      case CONTINUE => ImJump(ts, sc, fns);
      case RETURN => ImReturn(ts, sc, fns);
      case _ => ImDo(ts, sc, fns);
    }
  }

  lemma ImJump(ts: Toks, sc: seq<string>, fns: seq<string>)
    requires (Hd(ts) == BREAK || Hd(ts) == CONTINUE) && PStmt(ts, sc, fns).Ok?
    ensures var r := PStmt(ts, sc, fns);
      && WfS(r.val, sc, fns) && !Open(r.val) && BrS(r.val, true) + Braces(r.rest) <= Braces(ts)
  {
    hide PExpr, PStmts, PIf, PWhile, PFor, PrE, PrSs, PrS, FineE, FineS, WfE, WfSs, WfO, BrE, BrSs, BrO, Braces,
      Shorter;
    TlBraces(ts);
    TlBraces(Tl(ts));
  }

  lemma {:induction false} ImBlock(ts: Toks, sc: seq<string>, fns: seq<string>)
    requires Hd(ts) == LCB && PStmt(ts, sc, fns).Ok?
    ensures var r := PStmt(ts, sc, fns);
      && WfS(r.val, sc, fns) && !Open(r.val) && BrS(r.val, true) + Braces(r.rest) <= Braces(ts)
    decreases Len(ts), 30
  {
    hide PExpr, PStmts, PIf, PWhile, PFor, PrE, PrSs, PrS, FineE, FineS, WfE, WfO, BrE, BrO, Braces;
    TlBraces(ts);
    ImStmts(Tl(ts), sc, fns);
  }

  lemma {:induction false} ImReturn(ts: Toks, sc: seq<string>, fns: seq<string>)
    requires Hd(ts) == RETURN && PStmt(ts, sc, fns).Ok?
    ensures var r := PStmt(ts, sc, fns);
      && WfS(r.val, sc, fns) && !Open(r.val) && BrS(r.val, true) + Braces(r.rest) <= Braces(ts)
    decreases Len(ts), 30
  {
    hide PExpr, PStmts, PIf, PWhile, PFor, PrE, PrSs, PrS, FineE, FineS, WfE, WfSs, BrE, BrSs, Braces;
    TlBraces(ts);
    TlBraces(Tl(ts));
    if Hd(Tl(ts)) != SEMI {
      ImE(Tl(ts), sc, fns);
      TlBraces(PExpr(Tl(ts), sc, fns).rest);
    }
  }

  lemma {:induction false} ImDo(ts: Toks, sc: seq<string>, fns: seq<string>)
    requires PExpr(ts, sc, fns).Ok? && Hd(PExpr(ts, sc, fns).rest) == SEMI
    ensures var r := PExpr(ts, sc, fns);
      WfS(Do(r.val), sc, fns) && BrS(Do(r.val), true) + Braces(Tl(r.rest)) <= Braces(ts)
    decreases Len(ts), 30
  {
    hide PExpr, PStmts, PStmt, PrE, PrSs, PrS, FineE, FineS, WfE, WfSs, WfO, BrE, BrSs, BrO, Braces;
    ImE(ts, sc, fns);
    TlBraces(PExpr(ts, sc, fns).rest);
  }

  lemma {:induction false} ImIf(ts: Toks, sc: seq<string>, fns: seq<string>)
    requires Hd(ts) == IF && PIf(ts, sc, fns).Ok?
    ensures var r := PIf(ts, sc, fns);
      && WfS(r.val, sc, fns) && (Open(r.val) ==> Hd(r.rest) != ELSE)
      && BrS(r.val, true) + Braces(r.rest) <= Braces(ts)
    decreases Len(ts), 30
  {
    hide PExpr, PStmts, PStmt, PrE, PrSs, PrS, FineE, FineS, WfE, WfSs, WfO, BrE, BrSs, BrO, Braces;
    TlBraces(ts);
    TlBraces(Tl(ts));
    ImE(Tl(Tl(ts)), sc, fns);
    var ts1 := PExpr(Tl(Tl(ts)), sc, fns).rest;
    TlBraces(ts1);
    ImStmt(Tl(ts1), sc, fns);
    var ts2 := PStmt(Tl(ts1), sc, fns).rest;
    TlBraces(ts2);
    if Hd(ts2) == ELSE { ImStmt(Tl(ts2), sc, fns); }
  }

  lemma {:induction false} ImWhile(ts: Toks, sc: seq<string>, fns: seq<string>)
    requires Hd(ts) == WHILE && PWhile(ts, sc, fns).Ok?
    ensures var r := PWhile(ts, sc, fns);
      && WfS(r.val, sc, fns) && (Open(r.val) ==> Hd(r.rest) != ELSE)
      && BrS(r.val, true) + Braces(r.rest) <= Braces(ts)
    decreases Len(ts), 30
  {
    hide PExpr, PStmts, PStmt, PrE, PrSs, PrS, FineE, FineS, WfE, WfSs, WfO, BrE, BrSs, BrO, Braces;
    TlBraces(ts);
    TlBraces(Tl(ts));
    ImE(Tl(Tl(ts)), sc, fns);
    var ts1 := PExpr(Tl(Tl(ts)), sc, fns).rest;
    TlBraces(ts1);
    ImStmt(Tl(ts1), sc, fns);
  }

  lemma {:induction false} ImOpt(ts: Toks, sc: seq<string>, fns: seq<string>)
    requires POpt(ts, sc, fns).Ok?
    ensures var r := POpt(ts, sc, fns); WfO(r.val, sc, fns) && BrO(r.val, true) + Braces(r.rest) <= Braces(ts)
    decreases Len(ts), 21
  {
    hide PExpr, PStmts, PStmt, PrE, PrSs, PrS, FineE, FineS, WfE, BrE, Braces;
    if Hd(ts) != SEMI { ImE(ts, sc, fns); }
  }

  lemma {:induction false} ImFor(ts: Toks, sc: seq<string>, fns: seq<string>)
    requires Hd(ts) == FOR && PFor(ts, sc, fns).Ok?
    ensures var r := PFor(ts, sc, fns);
      && WfS(r.val, sc, fns) && (Open(r.val) ==> Hd(r.rest) != ELSE)
      && BrS(r.val, true) + Braces(r.rest) <= Braces(ts)
    decreases Len(ts), 30
  {
    hide PExpr, PStmts, PStmt, POpt, PrE, PrSs, PrS, FineE, FineS, WfE, WfSs, BrE, BrSs, Braces;
    TlBraces(ts);
    TlBraces(Tl(ts));
    ImOpt(Tl(Tl(ts)), sc, fns);
    var r1 := POpt(Tl(Tl(ts)), sc, fns);
    TlBraces(r1.rest);
    if Hd(r1.rest) == IN {
      ImE(Tl(r1.rest), sc, fns);
      var ts2 := PExpr(Tl(r1.rest), sc, fns).rest;
      TlBraces(ts2);
      ImStmt(Tl(ts2), sc, fns);
    } else {
      ImOpt(Tl(r1.rest), sc, fns);
      var ts2 := POpt(Tl(r1.rest), sc, fns).rest;
      TlBraces(ts2);
      ImOpt(Tl(ts2), sc, fns);
      var ts3 := POpt(Tl(ts2), sc, fns).rest;
      TlBraces(ts3);
      ImStmt(Tl(ts3), sc, fns);
    }
  }

  // ---- what the printer prints ----

  lemma {:induction false} PrNamesBraces(xs: seq<string>, k: Toks)
    ensures Braces(PrNames(xs, k)) == Braces(k)
    decreases |xs|
  {
    if |xs| > 1 { PrNamesBraces(xs[1..], k); }
  }

  lemma {:induction false} PrDeclsBraces(ds: Decls, k: Toks)
    ensures Braces(PrDecls(ds, k)) == Braces(k)
  {
    match ds case DNil =>
    case DCons(xs, rest) =>
      PrNamesBraces(xs, TCons(SEMI, PrDecls(rest, k)));
      PrDeclsBraces(rest, k);
  }

  /** The printer leaves the braces of exactly the blocks of one statement out. */
  lemma {:induction false} PrEBraces(e: Expr, fns: seq<string>, k: Toks)
    ensures Braces(PrE(e, fns, k)) == BrE(e, false) + Braces(k)
    decreases e
  {
    hide PExpr, PStmts, PStmt, PrArgs, PrPath, PrItems, PrNames, PrDecls, PrSs, PrS, FineE, FineS, BrEs, BrItems,
      BrSs, Shorter;
    match e {
      case Assign(l, r) =>
        PrEBraces(l, fns, TCons(ASSIGN, PrE(r, fns, k)));
        PrEBraces(r, fns, k);
      case Bin(op, l, r) =>
        PrEBraces(l, fns, TCons(OpTok(op), PrE(r, fns, k)));
        PrEBraces(r, fns, k);
      case Uminus(a) => PrEBraces(a, fns, k);
      case Not(a) => PrEBraces(a, fns, k);
      case Paren(a) => PrEBraces(a, fns, TCons(RP, k));
      case _ => PrPrimBraces(e, fns, k);
    }
  }

  lemma {:induction false} PrPrimBraces(e: Expr, fns: seq<string>, k: Toks)
    requires Prec(e) >= 8 && !e.Paren?
    ensures Braces(PrE(e, fns, k)) == BrE(e, false) + Braces(k)
    decreases e, 1
  {
    hide PExpr, PStmts, PStmt, PrArgs, PrPath, PrItems, PrNames, PrDecls, PrSs, PrS, FineE, FineS, BrEs, BrItems,
      BrSs, Shorter;
    match e {
      case Call(f, args) =>
        PrEBraces(f, fns, TCons(LP, PrArgs(args, fns, TCons(RP, k))));
        PrArgsBraces(args, fns, TCons(RP, k));
      case Int(_) =>
      case Str(_) =>
      case Var(_, _, path) => PrPathBraces(path, fns, k);
      case Func(params, body) => PrFuncBraces(e, fns, k);
      case Tcons(items) => PrItemsBraces(items, fns, TCons(RB, k));
    }
  }

  lemma ConsBraces(t: Tok, k: Toks)
    ensures Braces(TCons(t, k)) == (if t == LCB then 1 else 0) + Braces(k)
  {
  }

  lemma {:induction false} PrFuncBraces(e: Expr, fns: seq<string>, k: Toks)
    requires e.Func?
    ensures Braces(PrE(e, fns, k)) == BrE(e, false) + Braces(k)
    decreases e, 0
  {
    hide *;
    match e.body
    case Internal(n) => PrInternalBraces(e.params, n, fns, k);
    case Code(ds, ss) =>
      PrSsBraces(ss, fns, TCons(RCB, k));
      PrCodeBraces(e.params, ds, ss, fns, k);
  }

  lemma PrInternalBraces(params: seq<string>, n: nat, fns: seq<string>, k: Toks)
    ensures Braces(PrE(Func(params, Internal(n)), fns, k)) == BrE(Func(params, Internal(n)), false) + Braces(k)
  {
    hide PExpr, PStmts, PStmt, PrArgs, PrPath, PrItems, PrNames, PrDecls, PrSs, PrS, FineE, FineS, BrEs, BrItems,
      BrSs, Braces, Shorter;
    var k1 := TCons(STRING(if n < |fns| then fns[n] else ""), k);
    var k2 := TCons(RP, TCons(INTERNAL, k1));
    PrNamesBraces(params, k2);
    ConsBraces(FUNCTION, TCons(LP, PrNames(params, k2)));
    ConsBraces(LP, PrNames(params, k2));
    ConsBraces(RP, TCons(INTERNAL, k1));
    ConsBraces(INTERNAL, k1);
    ConsBraces(STRING(if n < |fns| then fns[n] else ""), k);
  }

  lemma PrCodeBraces(params: seq<string>, ds: Decls, ss: Stmts, fns: seq<string>, k: Toks)
    requires Braces(PrSs(ss, fns, TCons(RCB, k))) == BrSs(ss, false) + Braces(TCons(RCB, k))
    ensures Braces(PrE(Func(params, Code(ds, ss)), fns, k)) == BrE(Func(params, Code(ds, ss)), false) + Braces(k)
  {
    hide PExpr, PStmts, PStmt, PrArgs, PrPath, PrItems, PrNames, PrDecls, PrSs, PrS, FineE, FineS, BrEs, BrItems,
      BrSs, Braces, Shorter;
    var k1 := PrSs(ss, fns, TCons(RCB, k));
    var k2 := TCons(RP, TCons(LCB, PrDecls(ds, k1)));
    PrNamesBraces(params, k2);
    PrDeclsBraces(ds, k1);
    ConsBraces(FUNCTION, TCons(LP, PrNames(params, k2)));
    ConsBraces(LP, PrNames(params, k2));
    ConsBraces(RP, TCons(LCB, PrDecls(ds, k1)));
    ConsBraces(LCB, PrDecls(ds, k1));
    ConsBraces(RCB, k);
  }

  lemma {:induction false} PrArgsBraces(es: Exprs, fns: seq<string>, k: Toks)
    ensures Braces(PrArgs(es, fns, k)) == BrEs(es, false) + Braces(k)
    decreases es
  {
    hide PExpr, PStmts, PStmt, PrE, PrSs, PrS, FineE, FineS, BrE, Shorter;
    match es
    case ENil =>
    case ECons(e, ENil) =>
      PrEBraces(e, fns, k);
      assert BrEs(ENil, false) == 0;
    case ECons(e, rest) =>
      PrEBraces(e, fns, TCons(COMMA, PrArgs(rest, fns, k)));
      PrArgsBraces(rest, fns, k);
  }

  lemma {:induction false} PrPathBraces(es: Exprs, fns: seq<string>, k: Toks)
    ensures Braces(PrPath(es, fns, k)) == BrEs(es, false) + Braces(k)
    decreases es
  {
    hide PExpr, PStmts, PStmt, PrE, PrSs, PrS, FineE, FineS, BrItems, BrSs, Shorter;
    match es
    case ENil =>
    case ECons(e, rest) =>
      PrPathBraces(rest, fns, k);
      if e.Str? {
        assert BrE(e, false) == 0;
      } else {
        PrEBraces(e, fns, TCons(RB, PrPath(rest, fns, k)));
      }
  }

  lemma {:induction false} PrItemsBraces(items: Items, fns: seq<string>, k: Toks)
    ensures Braces(PrItems(items, fns, k)) == BrItems(items, false) + Braces(k)
    decreases items
  {
    hide PExpr, PStmts, PStmt, PrE, PrSs, PrS, FineE, FineS, BrE, Shorter;
    match items
    case INil =>
    case ICons(key, v, rest) =>
      var k2 := TCons(SEMI, PrItems(rest, fns, k));
      PrEBraces(key, fns, TCons(ASSIGN, PrE(v, fns, k2)));
      PrEBraces(v, fns, k2);
      PrItemsBraces(rest, fns, k);
  }

  lemma {:induction false} PrSsBraces(ss: Stmts, fns: seq<string>, k: Toks)
    ensures Braces(PrSs(ss, fns, k)) == BrSs(ss, false) + Braces(k)
    decreases ss
  {
    hide PExpr, PStmts, PStmt, PrE, PrS, FineE, FineS, BrS, Shorter;
    match ss
    case SNil =>
    case SCons(s, rest) =>
      PrSBraces(s, fns, PrSs(rest, fns, k));
      PrSsBraces(rest, fns, k);
  }

  lemma {:induction false} PrOptBraces(o: OptExpr, fns: seq<string>, k: Toks)
    ensures Braces(PrOpt(o, fns, k)) == BrO(o, false) + Braces(k)
    decreases o
  {
    hide PExpr, PStmts, PStmt, PrE, PrSs, PrS, FineE, FineS, BrE, Shorter;
    if o.TheExpr? { PrEBraces(o.e, fns, k); }
  }

  lemma {:induction false} PrSBraces(s: Stmt, fns: seq<string>, k: Toks)
    ensures Braces(PrS(s, fns, k)) == BrS(s, false) + Braces(k)
    decreases s
  {
    hide *;
    match s {
      case Block(_, _) => PrBlockBraces(s, fns, k);
      case If(_, _, _) => PrIfBraces(s, fns, k);
      case While(c, b) => PrWhileBraces(s, fns, k);
      case For(_, _, _, _) => PrForBraces(s, fns, k);
      case ForIn(_, _, _) => PrForInBraces(s, fns, k);
      case Return(o) =>
        PrOptBraces(o, fns, TCons(SEMI, k));
        PrLeafBraces(s, fns, k);
      case Do(e) =>
        PrEBraces(e, fns, TCons(SEMI, k));
        PrLeafBraces(s, fns, k);
      case _ => PrLeafBraces(s, fns, k);
    }
  }

  lemma PrLeafBraces(s: Stmt, fns: seq<string>, k: Toks)
    requires s.Empty? || s.Break? || s.Continue? || s.Return? || s.Do?
    requires s.Return? ==> Braces(PrOpt(s.val, fns, TCons(SEMI, k))) == BrO(s.val, false) + Braces(TCons(SEMI, k))
    requires s.Do? ==> Braces(PrE(s.e, fns, TCons(SEMI, k))) == BrE(s.e, false) + Braces(TCons(SEMI, k))
    ensures Braces(PrS(s, fns, k)) == BrS(s, false) + Braces(k)
  {
    hide PExpr, PStmts, PStmt, PrE, PrSs, FineE, FineS, BrE, BrSs, Shorter;
  }

  lemma {:induction false} PrBlockBraces(s: Stmt, fns: seq<string>, k: Toks)
    requires s.Block?
    ensures Braces(PrS(s, fns, k)) == BrS(s, false) + Braces(k)
    decreases s, 0
  {
    hide PExpr, PStmts, PStmt, PrE, PrSs, PrOpt, FineE, FineS, BrE, BrO, Braces, Shorter;
    if s.more == SNil {
      PrSBraces(s.first, fns, k);
      assert BrSs(SNil, false) == 0;
    } else {
      var k1 := PrSs(s.more, fns, TCons(RCB, k));
      PrSBraces(s.first, fns, k1);
      PrSsBraces(s.more, fns, TCons(RCB, k));
      ConsBraces(LCB, PrS(s.first, fns, k1));
      ConsBraces(RCB, k);
    }
  }

  lemma {:induction false} PrForBraces(s: Stmt, fns: seq<string>, k: Toks)
    requires s.For?
    ensures Braces(PrS(s, fns, k)) == BrS(s, false) + Braces(k)
    decreases s, 0
  {
    hide PExpr, PStmts, PStmt, PrE, PrSs, PrOpt, FineE, FineS, BrE, BrSs, BrO, Braces, Shorter;
    var k3 := TCons(RP, PrS(s.body, fns, k));
    var k2 := TCons(SEMI, PrE(s.step, fns, k3));
    var k1 := TCons(SEMI, PrOpt(s.test, fns, k2));
    PrOptBraces(s.init, fns, k1);
    PrOptBraces(s.test, fns, k2);
    PrEBraces(s.step, fns, k3);
    PrSBraces(s.body, fns, k);
    ConsBraces(RP, PrS(s.body, fns, k));
    ConsBraces(SEMI, PrE(s.step, fns, k3));
    ConsBraces(SEMI, PrOpt(s.test, fns, k2));
    ConsBraces(FOR, TCons(LP, PrOpt(s.init, fns, k1)));
    ConsBraces(LP, PrOpt(s.init, fns, k1));
  }

  lemma {:induction false} PrForInBraces(s: Stmt, fns: seq<string>, k: Toks)
    requires s.ForIn?
    ensures Braces(PrS(s, fns, k)) == BrS(s, false) + Braces(k)
    decreases s, 0
  {
    hide PExpr, PStmts, PStmt, PrE, PrSs, PrOpt, FineE, FineS, BrE, BrSs, BrO, Braces, Shorter;
    var k2 := TCons(RP, PrS(s.body, fns, k));
    var k1 := TCons(IN, PrE(s.tbl, fns, k2));
    PrEBraces(s.v, fns, k1);
    PrEBraces(s.tbl, fns, k2);
    PrSBraces(s.body, fns, k);
    ConsBraces(RP, PrS(s.body, fns, k));
    ConsBraces(IN, PrE(s.tbl, fns, k2));
    ConsBraces(FOR, TCons(LP, PrE(s.v, fns, k1)));
    ConsBraces(LP, PrE(s.v, fns, k1));
  }

  lemma {:induction false} PrIfBraces(s: Stmt, fns: seq<string>, k: Toks)
    requires s.If?
    ensures Braces(PrS(s, fns, k)) == BrS(s, false) + Braces(k)
    decreases s, 0
  {
    hide PExpr, PStmts, PStmt, PrE, PrSs, PrOpt, FineE, FineS, BrE, BrSs, BrO, Braces, Shorter;
    var k2 := if s.els.NoStmt? then k else TCons(ELSE, PrS(s.els.s, fns, k));
    var k1 := PrS(s.thn, fns, k2);
    PrEBraces(s.cond, fns, TCons(RP, k1));
    PrSBraces(s.thn, fns, k2);
    ConsBraces(RP, k1);
    ConsBraces(IF, TCons(LP, PrE(s.cond, fns, TCons(RP, k1))));
    ConsBraces(LP, PrE(s.cond, fns, TCons(RP, k1)));
    if s.els.TheStmt? {
      PrSBraces(s.els.s, fns, k);
      ConsBraces(ELSE, PrS(s.els.s, fns, k));
    }
  }

  lemma {:induction false} PrWhileBraces(s: Stmt, fns: seq<string>, k: Toks)
    requires s.While?
    ensures Braces(PrS(s, fns, k)) == BrS(s, false) + Braces(k)
    decreases s, 0
  {
    hide PExpr, PStmts, PStmt, PrE, PrSs, PrOpt, FineE, FineS, BrE, BrSs, BrO, Braces, Shorter;
    var k1 := TCons(RP, PrS(s.body, fns, k));
    PrEBraces(s.cond, fns, k1);
    PrSBraces(s.body, fns, k);
    ConsBraces(RP, PrS(s.body, fns, k));
    ConsBraces(WHILE, TCons(LP, PrE(s.cond, fns, k1)));
    ConsBraces(LP, PrE(s.cond, fns, k1));
  }

  /** Blocks of one statement are what the two counts differ by. */
  lemma {:induction false} SinglesE(e: Expr)
    ensures BrE(e, false) <= BrE(e, true)
    ensures FineE(e, false) && BrE(e, false) == BrE(e, true) ==> FineE(e, true)
    ensures FineE(e, true) ==> FineE(e, false)
    decreases e
  {
    hide PExpr, PStmts, PrE, PrSs, PrS, FineEs, FineItems, FineSs, FineS, BrEs, BrItems, BrSs, Shorter;
    match e {
      case Assign(l, r) => SinglesE(l); SinglesE(r);
      case Bin(_, l, r) => SinglesE(l); SinglesE(r);
      case Uminus(a) => SinglesE(a);
      case Not(a) => SinglesE(a);
      case Paren(a) => SinglesE(a);
      case Call(f, args) => SinglesE(f); SinglesEs(args);
      case Var(_, _, path) => SinglesEs(path);
      case Func(_, Internal(_)) =>
      case Func(_, Code(_, ss)) => SinglesSs(ss);
      case Tcons(items) => SinglesItems(items);
      case Int(_) =>
      case Str(_) =>
    }
  }

  lemma {:induction false} SinglesEs(es: Exprs)
    ensures BrEs(es, false) <= BrEs(es, true)
    ensures FineEs(es, false) && BrEs(es, false) == BrEs(es, true) ==> FineEs(es, true)
    ensures FineEs(es, true) ==> FineEs(es, false)
    decreases es
  {
    hide PExpr, PStmts, PrE, PrSs, PrS, FineE, FineS, BrE, Shorter;
    if es.ECons? { SinglesE(es.head); SinglesEs(es.tail); }
  }

  lemma {:induction false} SinglesItems(items: Items)
    ensures BrItems(items, false) <= BrItems(items, true)
    ensures FineItems(items, false) && BrItems(items, false) == BrItems(items, true) ==> FineItems(items, true)
    ensures FineItems(items, true) ==> FineItems(items, false)
    decreases items
  {
    hide PExpr, PStmts, PrE, PrSs, PrS, FineE, FineS, BrE, Shorter;
    if items.ICons? { SinglesE(items.key); SinglesE(items.val); SinglesItems(items.rest); }
  }

  lemma {:induction false} SinglesSs(ss: Stmts)
    ensures BrSs(ss, false) <= BrSs(ss, true)
    ensures FineSs(ss, false) && BrSs(ss, false) == BrSs(ss, true) ==> FineSs(ss, true)
    ensures FineSs(ss, true) ==> FineSs(ss, false)
    decreases ss
  {
    hide PExpr, PStmts, PrE, PrSs, PrS, FineE, FineS, BrS, Shorter;
    if ss.SCons? { SinglesS(ss.head); SinglesSs(ss.tail); }
  }

  lemma {:induction false} SinglesO(o: OptExpr)
    ensures BrO(o, false) <= BrO(o, true)
    ensures FineO(o, false) && BrO(o, false) == BrO(o, true) ==> FineO(o, true)
    ensures FineO(o, true) ==> FineO(o, false)
    decreases o
  {
    hide PExpr, PStmts, PrE, PrSs, PrS, FineE, FineS, BrE, Shorter;
    if o.TheExpr? { SinglesE(o.e); }
  }

  lemma {:induction false} SinglesS(s: Stmt)
    ensures BrS(s, false) <= BrS(s, true)
    ensures FineS(s, false) && BrS(s, false) == BrS(s, true) ==> FineS(s, true)
    ensures FineS(s, true) ==> FineS(s, false)
    decreases s
  {
    hide PExpr, PStmts, PrE, PrSs, PrS, FineE, FineSs, FineO, BrE, BrSs, BrO, Shorter;
    match s {
      case Empty =>
      case Block(s1, more) => SinglesS(s1); SinglesSs(more);
      case If(c, t, NoStmt) => SinglesE(c); SinglesS(t);
      case If(c, t, TheStmt(e)) => SinglesE(c); SinglesS(t); SinglesS(e);
      case While(c, b) => SinglesE(c); SinglesS(b);
      case For(i, c, st, b) => SinglesO(i); SinglesO(c); SinglesE(st); SinglesS(b);
      case ForIn(v, t, b) => SinglesE(v); SinglesE(t); SinglesS(b);
      case Break =>
      case Continue =>
      case Return(o) => SinglesO(o);
      case Do(e) => SinglesE(e);
    }
  }

  // ---- the theorem ----

  /** A unit that the parser built and the printer can print comes back from its own print exactly
      when none of its blocks holds a single statement. */
  lemma PrintThenParse(ts: Toks, fns: seq<string>)
    requires PUnit(ts, fns).Ok? && Printable(PUnit(ts, fns).val)
    ensures var e := PUnit(ts, fns).val; PUnit(PrE(e, fns, TNil), fns) == Ok(e, TNil) <==> Plain(e)
  {
    hide PExpr, PStmts, PStmt, PrE, PrSs, PrS, FineE, FineS, WfE, BrE, Shorter;
    UnitWf(ts, fns);
    var e := PUnit(ts, fns).val;
    var out := PrE(e, fns, TNil);
    HdE(e, [], fns, TNil);
    UnitIsExpr(out, fns);
    if Plain(e) {
      RtE(e, [], fns, TNil);
    }
    if PUnit(out, fns) == Ok(e, TNil) {
      ImE(out, [], fns);
      PrEBraces(e, fns, TNil);
      SinglesE(e);
    }
  }

  /** Whatever the print of a unit with a one-statement block parses to, it is not that unit. */
  lemma PrintNeverBack(ts: Toks, fns: seq<string>)
    requires PUnit(ts, fns).Ok? && Printable(PUnit(ts, fns).val) && !Plain(PUnit(ts, fns).val)
    ensures var e := PUnit(ts, fns).val;
      PUnit(PrE(e, fns, TNil), fns).Ok? ==> PUnit(PrE(e, fns, TNil), fns).val != e
  {
    hide PExpr, PrE, FineE, WfE, BrE, Shorter, NotLonger;
    UnitWf(ts, fns);
    var e := PUnit(ts, fns).val;
    var out := PrE(e, fns, TNil);
    HdE(e, [], fns, TNil);
    UnitIsExpr(out, fns);
    if PUnit(out, fns).Ok? {
      ImE(out, [], fns);
      PrEBraces(e, fns, TNil);
      SinglesE(e);
    }
  }

  lemma UnitIsExpr(ts: Toks, fns: seq<string>)
    requires StartsExpr(Hd(ts))
    ensures PUnit(ts, fns) == PExpr(ts, [], fns)
  {
    hide PExpr, PStmts, PrE, PrSs, PrS, FineE, FineS, Shorter;
  }

  lemma {:induction false} UnitWf(ts: Toks, fns: seq<string>)
    requires PUnit(ts, fns).Ok?
    ensures WfE(PUnit(ts, fns).val, [], fns)
    decreases Len(ts)
  {
    hide PExpr, PStmts, PStmt, PrE, PrSs, PrS, FineE, FineS, WfE, BrE, Braces, Shorter;
    if Hd(ts) == SEMI { UnitWf(Tl(ts), fns); } else { ImE(ts, [], fns); }
  }

  /** An else that the braces kept from the inner if goes to it when they are not printed. */
  lemma DanglingElse(c: Expr, d: Expr, a: Expr, b: Expr, sc: seq<string>, fns: seq<string>, ts: Toks)
    requires WfE(c, sc, fns) && WfE(d, sc, fns) && WfE(a, sc, fns) && WfE(b, sc, fns)
    requires Plain(c) && Plain(d) && Plain(a) && Plain(b) && Hd(ts) != ELSE
    ensures var s := If(c, Block(If(d, Do(a), NoStmt), SNil), TheStmt(Do(b)));
      var t := If(c, If(d, Do(a), TheStmt(Do(b))), NoStmt);
      && WfS(s, sc, fns)
      && PStmt(PrS(s, fns, ts), sc, fns) == Ok(t, ts)
  {
    hide *;
    var s := If(c, Block(If(d, Do(a), NoStmt), SNil), TheStmt(Do(b)));
    var t := If(c, If(d, Do(a), TheStmt(Do(b))), NoStmt);
    Elses(c, d, a, b, fns, ts);
    DoOk(a, sc, fns);
    DoOk(b, sc, fns);
    IfOk(d, Do(a), NoStmt, sc, fns);
    IfOk(d, Do(a), TheStmt(Do(b)), sc, fns);
    IfOk(c, If(d, Do(a), TheStmt(Do(b))), NoStmt, sc, fns);
    SingleWf(If(d, Do(a), NoStmt), sc, fns);
    IfWf(c, Block(If(d, Do(a), NoStmt), SNil), Do(b), sc, fns);
    RtS(t, sc, fns, ts);
  }

  lemma DoOk(e: Expr, sc: seq<string>, fns: seq<string>)
    requires WfE(e, sc, fns) && Plain(e)
    ensures WfS(Do(e), sc, fns) && FineS(Do(e), true) && !Open(Do(e))
  {
    hide PExpr, PStmts, PrE, PrSs, PrS, FineE, FineSs, FineO, WfE, WfSs, WfO, Shorter;
  }

  lemma IfOk(c: Expr, t: Stmt, e: OptStmt, sc: seq<string>, fns: seq<string>)
    requires WfE(c, sc, fns) && Plain(c) && WfS(t, sc, fns) && FineS(t, true)
    requires e.TheStmt? ==> !Open(t) && WfS(e.s, sc, fns) && FineS(e.s, true)
    ensures WfS(If(c, t, e), sc, fns) && FineS(If(c, t, e), true)
  {
    hide PExpr, PStmts, PrE, PrSs, PrS, FineE, FineSs, FineO, WfE, WfSs, WfO, Shorter;
  }

  lemma SingleWf(s: Stmt, sc: seq<string>, fns: seq<string>)
    requires WfS(s, sc, fns)
    ensures WfS(Block(s, SNil), sc, fns) && !Open(Block(s, SNil))
  {
    hide PExpr, PStmts, PrE, PrSs, PrS, FineE, FineS, WfE, WfO, Shorter;
  }

  lemma IfWf(c: Expr, t: Stmt, e: Stmt, sc: seq<string>, fns: seq<string>)
    requires WfE(c, sc, fns) && WfS(t, sc, fns) && !Open(t) && WfS(e, sc, fns)
    ensures WfS(If(c, t, TheStmt(e)), sc, fns)
  {
    hide PExpr, PStmts, PrE, PrSs, PrS, FineE, FineS, WfE, WfSs, WfO, Shorter;
  }

  /** Both trees print as the same tokens. */
  lemma Elses(c: Expr, d: Expr, a: Expr, b: Expr, fns: seq<string>, ts: Toks)
    ensures PrS(If(c, Block(If(d, Do(a), NoStmt), SNil), TheStmt(Do(b))), fns, ts)
      == PrS(If(c, If(d, Do(a), TheStmt(Do(b))), NoStmt), fns, ts)
  {
    hide PExpr, PStmts, PrE, PrSs, PrOpt, FineE, FineS, Shorter;
    var k := PrS(Do(b), fns, ts);
    assert PrS(Block(If(d, Do(a), NoStmt), SNil), fns, TCons(ELSE, k))
      == PrS(If(d, Do(a), NoStmt), fns, TCons(ELSE, k));
    assert PrS(If(d, Do(a), TheStmt(Do(b))), fns, ts) == PrS(If(d, Do(a), NoStmt), fns, TCons(ELSE, k));
  }
}
