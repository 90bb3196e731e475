/** Parsing what codestr prints gives back the tree, precedence and association included. */
module LeftyRoundTrip {
  import opened Options
  import opened LeftySyntax
  import opened LeftyGrammar
  import opened LeftyPrint

  // ---- the trees the parser can build ----

  /** The parser function that builds a node: 0 pexpr, 1..5 pexpi, 6 pexp5, 7 pexp6, 8 pexp7. */
  function Prec(e: Expr): nat {
    match e
    case Assign(_, _) => 0
    case Bin(op, _, _) => 1 + Level(op)
    case Uminus(_) => 6
    case Not(_) => 7
    case _ => 8
  }

  predicate NewNames(xs: seq<string>, sc: seq<string>)
    decreases |xs|
  {
    xs == [] || (xs[0] !in sc && NewNames(xs[1..], sc + [xs[0]]))
  }

  predicate WfE(e: Expr, sc: seq<string>, fns: seq<string>) {
    match e
    case Assign(l, r) => Prec(l) >= 1 && WfE(l, sc, fns) && WfE(r, sc, fns)
    case Bin(op, l, r) =>
      Prec(l) >= 1 + Level(op) && Prec(r) >= 2 + Level(op) && WfE(l, sc, fns) && WfE(r, sc, fns)
    case Uminus(a) => Prec(a) >= 6 && WfE(a, sc, fns)
    case Not(a) => Prec(a) >= 7 && WfE(a, sc, fns)
    case Paren(a) => WfE(a, sc, fns)
    case Call(f, args) => f.Var? && WfE(f, sc, fns) && WfEs(args, sc, fns)
    case Int(_) => true
    case Str(_) => true
    case Var(name, slot, path) => slot == Find(sc, name) && WfEs(path, sc, fns)
    case Func(params, Internal(n)) => NewNames(params, []) && n < |fns| && Find(fns, fns[n]) == Some(n)
    case Func(params, Code(ds, ss)) =>
      NewNames(params, []) && WfDecls(ds, params) && WfSs(ss, params + DeclNames(ds), fns)
    case Tcons(items) => WfItems(items, sc, fns)
  }

  predicate WfEs(es: Exprs, sc: seq<string>, fns: seq<string>) {
    match es case ENil => true case ECons(e, rest) => WfE(e, sc, fns) && WfEs(rest, sc, fns)
  }

  predicate WfItems(items: Items, sc: seq<string>, fns: seq<string>) {
    match items case INil => true
    case ICons(k, v, rest) => Prec(k) >= 1 && WfE(k, sc, fns) && WfE(v, sc, fns) && WfItems(rest, sc, fns)
  }

  predicate WfDecls(ds: Decls, sc: seq<string>) {
    match ds case DNil => true
    case DCons(xs, rest) => NewNames(xs, sc) && WfDecls(rest, sc + xs)
  }

  predicate WfSs(ss: Stmts, sc: seq<string>, fns: seq<string>) {
    match ss case SNil => true case SCons(s, rest) => WfS(s, sc, fns) && WfSs(rest, sc, fns)
  }

  predicate WfO(o: OptExpr, sc: seq<string>, fns: seq<string>) {
    match o case NoExpr => true case TheExpr(e) => WfE(e, sc, fns)
  }

  /** The statement ends in an if that would take an else. */
  predicate Open(s: Stmt) {
    match s
    case If(_, _, NoStmt) => true
    case If(_, _, TheStmt(e)) => Open(e)
    case While(_, b) => Open(b)
    case For(_, _, _, b) => Open(b)
    case ForIn(_, _, b) => Open(b)
    case _ => false
  }

  predicate WfS(s: Stmt, sc: seq<string>, fns: seq<string>) {
    match s
    case Empty => true
    case Block(s1, more) => WfS(s1, sc, fns) && WfSs(more, sc, fns)
    case If(c, t, NoStmt) => WfE(c, sc, fns) && WfS(t, sc, fns)
    case If(c, t, TheStmt(e)) => !Open(t) && WfE(c, sc, fns) && WfS(t, sc, fns) && WfS(e, sc, fns)
    case While(c, b) => WfE(c, sc, fns) && WfS(b, sc, fns)
    case For(i, c, st, b) => WfO(i, sc, fns) && WfO(c, sc, fns) && WfE(st, sc, fns) && WfS(b, sc, fns)
    case ForIn(v, t, b) => WfE(v, sc, fns) && WfE(t, sc, fns) && WfS(b, sc, fns)
    case Break => true
    case Continue => true
    case Return(o) => WfO(o, sc, fns)
    case Do(e) => WfE(e, sc, fns)
  }

  // ---- how printed text starts and ends ----

  predicate StartsExpr(t: Tok) {
    t == FUNCTION || t == LP || t == LB || t.STRING? || t.NUMBER? || t.ID? || t == MINUS || t == NOT
  }

  /** After an expression read by pexpi(j) or above, t would be read as a part of it. */
  predicate Continues(t: Tok, j: nat) {
    t == DOT || t == LB || t == LP || (TokOp(t).Some? && Level(TokOp(t).value) >= j)
  }

  lemma {:induction false} HdE(e: Expr, sc: seq<string>, fns: seq<string>, k: Toks)
    requires WfE(e, sc, fns)
    ensures StartsExpr(Hd(PrE(e, fns, k)))
    ensures Prec(e) >= 7 ==> Hd(PrE(e, fns, k)) != MINUS
    ensures Prec(e) >= 8 ==> Hd(PrE(e, fns, k)) != NOT
  {
    hide PExpr, PStmts, PrArgs, PrPath, PrItems, PrNames, PrDecls, PrSs, PrS, FineE, FineS, WfEs, WfItems, WfDecls,
      WfSs, NewNames, Len, Shorter;
    match e
    case Assign(l, r) => HdE(l, sc, fns, TCons(ASSIGN, PrE(r, fns, k)));
    case Bin(op, l, r) => HdE(l, sc, fns, TCons(OpTok(op), PrE(r, fns, k)));
    case Call(f, args) =>
    case _ =>
  }

  lemma {:induction false} HdS(s: Stmt, sc: seq<string>, fns: seq<string>, k: Toks)
    requires WfS(s, sc, fns) && FineS(s, true)
    ensures Hd(PrS(s, fns, k)) != ELSE && Hd(PrS(s, fns, k)) != RCB && Hd(PrS(s, fns, k)) != LOCAL
  {
    hide PExpr, PStmts, PrE, PrSs, PrOpt, FineE, FineSs, FineO, WfE, WfSs, WfO, Len, Shorter;
    match s
    case Do(e) => HdE(e, sc, fns, TCons(SEMI, k));
    case _ =>
  }

  // ---- the round trip ----

  lemma RowRule(k: nat, l: Expr, ts0: Toks, ts: Toks, sc: seq<string>, fns: seq<string>)
    requires k < 5 && PExpI(k + 1, ts0, sc, fns) == Ok(l, ts)
    ensures PExpI(k, ts0, sc, fns) == PLoop(k, l, ts, sc, fns)
  {
    hide PLoop, PExp5, Len;
  }

  lemma LoopRule(k: nat, op: BinOp, l: Expr, e: Expr, ts0: Toks, ts: Toks, sc: seq<string>, fns: seq<string>)
    requires k < 5 && Level(op) == k && PExpI(k + 1, ts0, sc, fns) == Ok(e, ts)
    ensures PLoop(k, l, TCons(OpTok(op), ts0), sc, fns) == PLoop(k, Bin(op, l, e), ts, sc, fns)
  {
    hide PExpI, Len;
  }

  lemma LoopEnds(k: nat, l: Expr, ts: Toks, sc: seq<string>, fns: seq<string>)
    requires k < 5 && !Continues(Hd(ts), k)
    ensures PLoop(k, l, ts, sc, fns) == Ok(l, ts)
  {
    hide PExpI, Len;
  }

  /** Any operator that binds as tightly as row k or tighter is read by pexpi(k); what stays is the
      loop of row k over the tokens that follow. */
  lemma {:induction false} RtI(k: nat, e: Expr, sc: seq<string>, fns: seq<string>, ts: Toks)
    requires k < 5 && WfE(e, sc, fns) && Plain(e) && Prec(e) >= 1 + k && !Continues(Hd(ts), k + 1)
    ensures PExpI(k, PrE(e, fns, ts), sc, fns) == PLoop(k, e, ts, sc, fns)
    decreases e, 20 - 2 * k
  {
    hide PExpr, PExpI, PLoop, PExp5, PStmts, PrArgs, PrPath, PrItems, PrNames, PrDecls, PrSs, PrS, FineEs, FineItems,
      FineSs, FineS, WfEs, WfItems, WfDecls, WfSs, NewNames, Len, Shorter, NotLonger;
    if e.Bin? && Level(e.op) == k {
      var ts1 := PrE(e.right, fns, ts);
      RtI(k, e.left, sc, fns, TCons(OpTok(e.op), ts1));
      RtTight(k + 1, e.right, sc, fns, ts);
      LoopRule(k, e.op, e.left, e.right, ts1, ts, sc, fns);
    } else {
      RtTight(k + 1, e, sc, fns, ts);
      RowRule(k, e, PrE(e, fns, ts), ts, sc, fns);
    }
  }

  lemma {:induction false} RtTight(k: nat, e: Expr, sc: seq<string>, fns: seq<string>, ts: Toks)
    requires 1 <= k <= 5 && WfE(e, sc, fns) && Plain(e) && Prec(e) >= 1 + k && !Continues(Hd(ts), k)
    ensures PExpI(k, PrE(e, fns, ts), sc, fns) == Ok(e, ts)
    decreases e, 21 - 2 * k
  {
    hide PExpr, PLoop, PExp5, PStmts, PrE, PrSs, PrS, FineE, FineS, WfE, Len, Shorter, NotLonger;
    if k < 5 {
      RtI(k, e, sc, fns, ts);
      LoopEnds(k, e, ts, sc, fns);
    } else {
      Rt5(e, sc, fns, ts);
    }
  }

  lemma {:induction false} RtE(e: Expr, sc: seq<string>, fns: seq<string>, ts: Toks)
    requires WfE(e, sc, fns) && Plain(e) && !Continues(Hd(ts), 0) && Hd(ts) != ASSIGN
    ensures PExpr(PrE(e, fns, ts), sc, fns) == Ok(e, ts)
    decreases e, 22
  {
    hide PExpr, PExpI, PLoop, PStmts, PrArgs, PrPath, PrItems, PrNames, PrDecls, PrSs, PrS, FineEs, FineItems, FineSs,
      FineS, WfEs, WfItems, WfDecls, WfSs, NewNames, Len, Shorter, NotLonger;
    if e.Assign? {
      var ts1 := TCons(ASSIGN, PrE(e.rhs, fns, ts));
      RtI(0, e.lhs, sc, fns, ts1);
      LoopEnds(0, e.lhs, ts1, sc, fns);
      RtE(e.rhs, sc, fns, ts);
      ExprRule(PrE(e, fns, ts), e.lhs, ts1, sc, fns);
    } else {
      RtI(0, e, sc, fns, ts);
      LoopEnds(0, e, ts, sc, fns);
      ExprRule(PrE(e, fns, ts), e, ts, sc, fns);
    }
  }

  lemma ExprRule(ts0: Toks, l: Expr, ts: Toks, sc: seq<string>, fns: seq<string>)
    requires PExpI(0, ts0, sc, fns) == Ok(l, ts)
    ensures PExpr(ts0, sc, fns) ==
      if Hd(ts) != ASSIGN then Ok(l, ts)
      else match PExpr(Tl(ts), sc, fns) case Fail => Fail case Ok(e, ts2) => Ok(Assign(l, e), ts2)
  {
    hide PExpI, Len;
  }

  /** Where an expression is optional it is read as one. */
  lemma {:induction false} RtAny(e: Expr, sc: seq<string>, fns: seq<string>, ts: Toks)
    requires WfE(e, sc, fns) && Plain(e) && !Continues(Hd(ts), 0) && Hd(ts) != ASSIGN
    ensures POpt(PrE(e, fns, ts), sc, fns) == Ok(TheExpr(e), ts)
    ensures PExpr(PrE(e, fns, ts), sc, fns) == Ok(e, ts)
    decreases e, 23
  {
    hide PExpr, PStmts, PrE, PrSs, PrS, FineE, FineS, WfE, Len, Shorter, NotLonger;
    HdE(e, sc, fns, ts);
    RtE(e, sc, fns, ts);
  }

  lemma {:induction false} Rt5(e: Expr, sc: seq<string>, fns: seq<string>, ts: Toks)
    requires WfE(e, sc, fns) && Plain(e) && Prec(e) >= 6 && !Continues(Hd(ts), 5)
    ensures PExp5(PrE(e, fns, ts), sc, fns) == Ok(e, ts)
    decreases e, 10
  {
    hide PExpr, PExp6, PStmts, PrArgs, PrPath, PrItems, PrNames, PrDecls, PrSs, PrS, FineEs, FineItems, FineSs, FineS,
      WfEs, WfItems, WfDecls, WfSs, NewNames, Len, Shorter;
    if e.Uminus? {
      Rt5(e.arg, sc, fns, ts);
    } else {
      HdE(e, sc, fns, ts);
      Rt6(e, sc, fns, ts);
    }
  }

  lemma {:induction false} Rt6(e: Expr, sc: seq<string>, fns: seq<string>, ts: Toks)
    requires WfE(e, sc, fns) && Plain(e) && Prec(e) >= 7 && !Continues(Hd(ts), 5)
    ensures PExp6(PrE(e, fns, ts), sc, fns) == Ok(e, ts)
    decreases e, 9
  {
    hide PExpr, PExp7, PStmts, PrArgs, PrPath, PrItems, PrNames, PrDecls, PrSs, PrS, FineEs, FineItems, FineSs, FineS,
      WfEs, WfItems, WfDecls, WfSs, NewNames, Len, Shorter;
    if e.Not? {
      Rt6(e.arg, sc, fns, ts);
    } else {
      HdE(e, sc, fns, ts);
      Rt7(e, sc, fns, ts);
    }
  }

  lemma {:induction false} Rt7(e: Expr, sc: seq<string>, fns: seq<string>, ts: Toks)
    requires WfE(e, sc, fns) && Plain(e) && Prec(e) >= 8 && !Continues(Hd(ts), 5)
    ensures PExp7(PrE(e, fns, ts), sc, fns) == Ok(e, ts)
    decreases e, 8
  {
    hide PExpr, PExp7, PArgs, PPath, PItems, PFunc, PStmts, PrE, PrPath, PrItems, PrNames, PrDecls, PrSs, PrS, FineEs,
      FineItems, FineSs, FineS, WfEs, WfItems, WfDecls, WfSs, NewNames, Len, Shorter, NotLonger;
    match e
    case Paren(a) => RtParen(a, sc, fns, ts);
    case Call(f, args) => RtCall(e, sc, fns, ts);
    case Int(_) => RtLeaf(e, sc, fns, ts);
    case Str(_) => RtLeaf(e, sc, fns, ts);
    case Var(_, _, path) =>
      RtPath(path, sc, fns, ts);
      VarRule(e, sc, fns, ts);
    case Func(_, _) =>
      RtFunc(e, sc, fns, ts);
      FuncRule(e, sc, fns, ts);
    case Tcons(items) =>
      RtItems(items, sc, fns, ts);
      ItemsRule(items, sc, fns, ts);
  }

  lemma RtLeaf(e: Expr, sc: seq<string>, fns: seq<string>, ts: Toks)
    requires e.Int? || e.Str?
    ensures PExp7(PrE(e, fns, ts), sc, fns) == Ok(e, ts)
  {
    hide PExpr, PArgs, PPath, PItems, PFunc, PStmts, PrArgs, PrPath, PrItems, PrNames, PrDecls, PrSs, PrS, FineE,
      FineS, Len, Shorter, NotLonger;
  }

  lemma VarRule(e: Expr, sc: seq<string>, fns: seq<string>, ts: Toks)
    requires e.Var? && e.slot == Find(sc, e.name) && Hd(ts) != LP
    requires PPath(PrPath(e.path, fns, ts), sc, fns) == Ok(e.path, ts)
    ensures PExp7(PrE(e, fns, ts), sc, fns) == Ok(e, ts)
  {
    hide PExpr, PArgs, PPath, PItems, PFunc, PStmts, PrArgs, PrPath, PrItems, PrNames, PrDecls, PrSs, PrS, FineE,
      FineS, Len, Shorter, NotLonger;
  }

  lemma FuncRule(e: Expr, sc: seq<string>, fns: seq<string>, ts: Toks)
    requires e.Func? && PFunc(Tl(PrE(e, fns, ts)), fns) == Ok(e, ts)
    ensures PExp7(PrE(e, fns, ts), sc, fns) == Ok(e, ts)
  {
    hide PExpr, PArgs, PPath, PItems, PFunc, PStmts, PrArgs, PrPath, PrItems, PrNames, PrDecls, PrSs, PrS, FineE,
      FineSs, FineS, Len, Shorter, NotLonger;
  }

  lemma ItemsRule(items: Items, sc: seq<string>, fns: seq<string>, ts: Toks)
    requires PItems(PrItems(items, fns, TCons(RB, ts)), sc, fns) == Ok(items, ts)
    ensures PExp7(PrE(Tcons(items), fns, ts), sc, fns) == Ok(Tcons(items), ts)
  {
    hide PExpr, PArgs, PPath, PItems, PFunc, PStmts, PrArgs, PrPath, PrItems, PrNames, PrDecls, PrSs, PrS, FineE,
      FineItems, FineS, Len, Shorter, NotLonger;
  }

  lemma {:induction false} RtParen(a: Expr, sc: seq<string>, fns: seq<string>, ts: Toks)
    requires WfE(a, sc, fns) && Plain(a)
    ensures PExp7(PrE(Paren(a), fns, ts), sc, fns) == Ok(Paren(a), ts)
    decreases a, 24
  {
    hide PExpr, PArgs, PPath, PItems, PFunc, PStmts, PrArgs, PrPath, PrItems, PrNames, PrDecls, PrSs, PrS, FineE,
      FineS, WfE, Len, Shorter, NotLonger;
    RtE(a, sc, fns, TCons(RP, ts));
  }

  lemma {:induction false} RtCall(e: Expr, sc: seq<string>, fns: seq<string>, ts: Toks)
    requires e.Call? && WfE(e, sc, fns) && Plain(e)
    ensures PExp7(PrE(e, fns, ts), sc, fns) == Ok(e, ts)
    decreases e, 7
  {
    hide PExpr, PArgs, PMoreArgs, PPath, PItems, PFunc, PStmts, PrArgs, PrPath, PrItems, PrNames, PrDecls, PrSs, PrS,
      FineEs, FineItems, FineSs, FineS, WfEs, WfItems, WfDecls, WfSs, NewNames, Len, Shorter, NotLonger;
    assert WfE(e.fn, sc, fns) && FineE(e.fn, true);
    RtPath(e.fn.path, sc, fns, TCons(LP, PrArgs(e.args, fns, TCons(RP, ts))));
    RtArgs(e.args, sc, fns, ts);
  }

  lemma {:induction false} RtPath(es: Exprs, sc: seq<string>, fns: seq<string>, ts: Toks)
    requires WfEs(es, sc, fns) && FineEs(es, true) && Hd(ts) != DOT && Hd(ts) != LB
    ensures PPath(PrPath(es, fns, ts), sc, fns) == Ok(es, ts)
    decreases es
  {
    hide PExpr, PPath, PStmts, PrE, PrPath, PrSs, PrS, FineE, FineS, WfE, Len, Shorter, NotLonger;
    match es
    case ENil => NoPath(ts, sc, fns);
    case ECons(e, rest) =>
      RtPath(rest, sc, fns, ts);
      if e.Str? {
        DotRule(e.s, rest, sc, fns, ts);
      } else {
        RtE(e, sc, fns, TCons(RB, PrPath(rest, fns, ts)));
        IndexRule(e, rest, sc, fns, ts);
      }
  }

  lemma NoPath(ts: Toks, sc: seq<string>, fns: seq<string>)
    requires Hd(ts) != DOT && Hd(ts) != LB
    ensures PPath(PrPath(ENil, fns, ts), sc, fns) == Ok(ENil, ts)
  {
    hide PExpr, PStmts, PrE, PrSs, PrS, FineE, FineS, Len, Shorter, NotLonger;
  }

  lemma DotRule(x: string, rest: Exprs, sc: seq<string>, fns: seq<string>, ts: Toks)
    requires PPath(PrPath(rest, fns, ts), sc, fns) == Ok(rest, ts)
    ensures PPath(PrPath(ECons(Str(x), rest), fns, ts), sc, fns) == Ok(ECons(Str(x), rest), ts)
  {
    hide PExpr, PStmts, PrE, PrSs, PrS, FineE, FineS, Len, Shorter, NotLonger;
    var k := PrPath(rest, fns, ts);
    assert PrPath(ECons(Str(x), rest), fns, ts) == TCons(DOT, TCons(ID(x), k));
    hide PrPath;
  }

  lemma IndexRule(e: Expr, rest: Exprs, sc: seq<string>, fns: seq<string>, ts: Toks)
    requires !e.Str? && PPath(PrPath(rest, fns, ts), sc, fns) == Ok(rest, ts)
    requires var k := TCons(RB, PrPath(rest, fns, ts)); PExpr(PrE(e, fns, k), sc, fns) == Ok(e, k)
    ensures PPath(PrPath(ECons(e, rest), fns, ts), sc, fns) == Ok(ECons(e, rest), ts)
  {
    hide PExpr, PStmts, PrE, PrSs, PrS, FineE, FineS, Len, Shorter, NotLonger;
    var k := PrPath(rest, fns, ts);
    assert PrPath(ECons(e, rest), fns, ts) == TCons(LB, PrE(e, fns, TCons(RB, k)));
    hide PrPath;
  }

  lemma {:induction false} RtArgs(es: Exprs, sc: seq<string>, fns: seq<string>, ts: Toks)
    requires WfEs(es, sc, fns) && FineEs(es, true)
    ensures PArgs(PrArgs(es, fns, TCons(RP, ts)), sc, fns) == Ok(es, TCons(RP, ts))
    ensures es.ECons? ==> PMoreArgs(TCons(COMMA, PrArgs(es, fns, TCons(RP, ts))), sc, fns) == Ok(es, TCons(RP, ts))
    decreases es
  {
    hide PExpr, PStmts, PrE, PrSs, PrS, FineE, FineS, WfE, Len, Shorter, NotLonger;
    match es
    case ENil =>
    case ECons(e, ENil) =>
      HdE(e, sc, fns, TCons(RP, ts));
      RtE(e, sc, fns, TCons(RP, ts));
    case ECons(e, rest) =>
      var k := TCons(COMMA, PrArgs(rest, fns, TCons(RP, ts)));
      HdE(e, sc, fns, k);
      RtE(e, sc, fns, k);
      RtArgs(rest, sc, fns, ts);
  }

  lemma {:induction false} RtItems(items: Items, sc: seq<string>, fns: seq<string>, ts: Toks)
    requires WfItems(items, sc, fns) && FineItems(items, true)
    ensures PItems(PrItems(items, fns, TCons(RB, ts)), sc, fns) == Ok(items, ts)
    decreases items
  {
    hide PExpr, PExpI, PLoop, PItems, PStmts, PrE, PrItems, PrSs, PrS, FineE, FineS, WfE, Len, Shorter, NotLonger;
    match items
    case INil => NoItems(sc, fns, ts);
    case ICons(key, v, rest) =>
      var k2 := TCons(SEMI, PrItems(rest, fns, TCons(RB, ts)));
      var k1 := TCons(ASSIGN, PrE(v, fns, k2));
      HdE(key, sc, fns, k1);
      RtI(0, key, sc, fns, k1);
      LoopEnds(0, key, k1, sc, fns);
      RtE(v, sc, fns, k2);
      RtItems(rest, sc, fns, ts);
      ItemRule(key, v, rest, sc, fns, ts);
  }

  lemma NoItems(sc: seq<string>, fns: seq<string>, ts: Toks)
    ensures PItems(PrItems(INil, fns, TCons(RB, ts)), sc, fns) == Ok(INil, ts)
  {
    hide PExpr, PExpI, PStmts, PrE, PrSs, PrS, FineE, FineS, Len, Shorter, NotLonger;
  }

  lemma ItemRule(key: Expr, v: Expr, rest: Items, sc: seq<string>, fns: seq<string>, ts: Toks)
    requires var k2 := TCons(SEMI, PrItems(rest, fns, TCons(RB, ts)));
      var k1 := TCons(ASSIGN, PrE(v, fns, k2));
      && Hd(PrE(key, fns, k1)) != RB && PExpI(0, PrE(key, fns, k1), sc, fns) == Ok(key, k1)
      && PExpr(PrE(v, fns, k2), sc, fns) == Ok(v, k2)
    requires PItems(PrItems(rest, fns, TCons(RB, ts)), sc, fns) == Ok(rest, ts)
    ensures PItems(PrItems(ICons(key, v, rest), fns, TCons(RB, ts)), sc, fns) == Ok(ICons(key, v, rest), ts)
  {
    hide PExpr, PExpI, PStmts, PrE, PrSs, PrS, FineE, FineS, Len, Shorter, NotLonger;
    var k := PrItems(rest, fns, TCons(RB, ts));
    assert PrItems(ICons(key, v, rest), fns, TCons(RB, ts))
      == PrE(key, fns, TCons(ASSIGN, PrE(v, fns, TCons(SEMI, k))));
    hide PrItems;
  }

  // ---- declarations and functions ----

  lemma {:induction false} RtMoreDecl(xs: seq<string>, sc: seq<string>, ts: Toks)
    requires NewNames(xs, sc) && Hd(ts) != COMMA && !Hd(ts).ID?
    ensures PMoreDecl(PrNames(xs, ts), sc) == Ok(xs, ts)
    decreases |xs|
  {
    if xs != [] {
      RtMoreDecl(xs[1..], sc + [xs[0]], ts);
      assert xs == [xs[0]] + xs[1..];
      if |xs| == 1 { assert xs[1..] == []; }
    }
  }

  lemma RtDecl(xs: seq<string>, sc: seq<string>, ts: Toks)
    requires NewNames(xs, sc) && Hd(ts) != COMMA && !Hd(ts).ID?
    ensures PDecl(PrNames(xs, ts), sc) == Ok(xs, ts)
  {
    if |xs| == 1 {
      assert xs == [xs[0]];
    } else if xs != [] {
      RtMoreDecl(xs[1..], sc + [xs[0]], ts);
      assert xs == [xs[0]] + xs[1..];
    }
  }

  lemma {:induction false} RtLocals(ds: Decls, sc: seq<string>, ts: Toks)
    requires WfDecls(ds, sc) && Hd(ts) != LOCAL
    ensures PLocals(PrDecls(ds, ts), sc) == Ok(ds, ts)
  {
    match ds
    case DNil =>
    case DCons(xs, rest) =>
      RtDecl(xs, sc, TCons(SEMI, PrDecls(rest, ts)));
      RtLocals(rest, sc + xs, ts);
  }

  lemma {:induction false} RtFunc(e: Expr, sc: seq<string>, fns: seq<string>, ts: Toks)
    requires e.Func? && WfE(e, sc, fns) && Plain(e)
    ensures PFunc(Tl(PrE(e, fns, ts)), fns) == Ok(e, ts)
    decreases e, 7
  {
    hide PExpr, PDecl, PFunc, PStmts, PrE, PrNames, PrSs, PrS, FineEs, FineItems, FineSs, FineS, WfEs, WfItems,
      WfDecls, WfSs, NewNames, Len, Shorter, NotLonger;
    match e.body
    case Internal(n) =>
      RtDecl(e.params, [], TCons(RP, TCons(INTERNAL, TCons(STRING(fns[n]), ts))));
      InternalRule(e.params, n, fns, ts);
    case Code(ds, ss) =>
      assert WfSs(ss, e.params + DeclNames(ds), fns) && FineSs(ss, true);
      RtSs(ss, e.params + DeclNames(ds), fns, ts);
      RtCode(e.params, ds, ss, fns, ts);
  }

  lemma InternalRule(params: seq<string>, n: nat, fns: seq<string>, ts: Toks)
    requires n < |fns| && Find(fns, fns[n]) == Some(n)
    requires var k := TCons(RP, TCons(INTERNAL, TCons(STRING(fns[n]), ts)));
      PDecl(PrNames(params, k), []) == Ok(params, k)
    ensures PFunc(Tl(PrE(Func(params, Internal(n)), fns, ts)), fns) == Ok(Func(params, Internal(n)), ts)
  {
    hide PExpr, PDecl, PLocals, PStmts, PrArgs, PrPath, PrItems, PrNames, PrDecls, PrSs, PrS, FineE, FineS, Len,
      Shorter, NotLonger;
  }

  lemma RtCode(params: seq<string>, ds: Decls, ss: Stmts, fns: seq<string>, ts: Toks)
    requires NewNames(params, []) && WfDecls(ds, params)
    requires WfSs(ss, params + DeclNames(ds), fns) && FineSs(ss, true)
    requires PStmts(PrSs(ss, fns, TCons(RCB, ts)), params + DeclNames(ds), fns) == Ok(ss, ts)
    ensures PFunc(Tl(PrE(Func(params, Code(ds, ss)), fns, ts)), fns) == Ok(Func(params, Code(ds, ss)), ts)
  {
    hide PExpr, PDecl, PLocals, PStmts, PrArgs, PrPath, PrItems, PrNames, PrDecls, PrSs, PrS, FineE, FineSs, FineS,
      WfDecls, WfSs, NewNames, Len, Shorter, NotLonger;
    var k3 := PrSs(ss, fns, TCons(RCB, ts));
    SsNoLocal(ss, params + DeclNames(ds), fns, ts);
    RtDecl(params, [], TCons(RP, TCons(LCB, PrDecls(ds, k3))));
    RtLocals(ds, params, k3);
  }

  lemma SsNoLocal(ss: Stmts, sc: seq<string>, fns: seq<string>, ts: Toks)
    requires WfSs(ss, sc, fns) && FineSs(ss, true)
    ensures Hd(PrSs(ss, fns, TCons(RCB, ts))) != LOCAL
  {
    hide PExpr, PStmts, PrE, PrS, FineE, FineS, WfS, Len, Shorter;
    if ss.SCons? { HdS(ss.head, sc, fns, PrSs(ss.tail, fns, TCons(RCB, ts))); }
  }

  // ---- statements ----

  lemma {:induction false} RtSs(ss: Stmts, sc: seq<string>, fns: seq<string>, ts: Toks)
    requires WfSs(ss, sc, fns) && FineSs(ss, true)
    ensures PStmts(PrSs(ss, fns, TCons(RCB, ts)), sc, fns) == Ok(ss, ts)
    decreases ss
  {
    hide PExpr, PStmt, PrE, PrS, FineE, FineS, WfS, Len, Shorter;
    match ss
    case SNil =>
    case SCons(s, rest) =>
      var k := PrSs(rest, fns, TCons(RCB, ts));
      if rest.SCons? { HdS(rest.head, sc, fns, PrSs(rest.tail, fns, TCons(RCB, ts))); }
      HdS(s, sc, fns, k);
      RtS(s, sc, fns, k);
      RtSs(rest, sc, fns, ts);
  }

  /** A statement is read back whole, unless it could take an else and an else follows. */
  lemma {:induction false} RtS(s: Stmt, sc: seq<string>, fns: seq<string>, ts: Toks)
    requires WfS(s, sc, fns) && FineS(s, true) && (Open(s) ==> Hd(ts) != ELSE)
    ensures PStmt(PrS(s, fns, ts), sc, fns) == Ok(s, ts)
    decreases s, 30
  {
    hide PExpr, PStmts, PIf, PWhile, PFor, PrE, PrSs, FineE, FineSs, WfE, WfSs, Len, Shorter;
    match s
    case Empty =>
    case Block(s1, more) => RtBlock(s, sc, fns, ts);
    case If(c, t, e) => RtIf(s, sc, fns, ts);
    case While(c, b) => RtWhile(s, sc, fns, ts);
    case For(i, c, st, b) => RtFor(s, sc, fns, ts);
    case ForIn(v, t, b) => RtForIn(s, sc, fns, ts);
    case Break =>
    case Continue =>
    case Return(NoExpr) =>
    case Return(TheExpr(e)) => RtReturn(e, sc, fns, ts);
    case Do(e) => RtDo(e, sc, fns, ts);
  }

  lemma {:induction false} RtReturn(e: Expr, sc: seq<string>, fns: seq<string>, ts: Toks)
    requires WfE(e, sc, fns) && Plain(e)
    ensures PStmt(PrS(Return(TheExpr(e)), fns, ts), sc, fns) == Ok(Return(TheExpr(e)), ts)
    decreases e, 40
  {
    hide PExpr, PStmts, PIf, PWhile, PFor, PrE, PrSs, FineE, FineS, WfE, Len, Shorter;
    HdE(e, sc, fns, TCons(SEMI, ts));
    RtE(e, sc, fns, TCons(SEMI, ts));
  }

  lemma {:induction false} RtDo(e: Expr, sc: seq<string>, fns: seq<string>, ts: Toks)
    requires WfE(e, sc, fns) && Plain(e)
    ensures PStmt(PrS(Do(e), fns, ts), sc, fns) == Ok(Do(e), ts)
    decreases e, 40
  {
    hide PExpr, PStmts, PIf, PWhile, PFor, PrE, PrSs, PrOpt, FineE, FineS, WfE, Len, Shorter;
    HdE(e, sc, fns, TCons(SEMI, ts));
    RtE(e, sc, fns, TCons(SEMI, ts));
  }

  lemma {:induction false} RtBlock(s: Stmt, sc: seq<string>, fns: seq<string>, ts: Toks)
    requires s.Block? && WfS(s, sc, fns) && FineS(s, true)
    ensures PStmt(PrS(s, fns, ts), sc, fns) == Ok(s, ts)
    decreases s, 25
  {
    hide PExpr, PStmts, PIf, PWhile, PFor, PrE, PrOpt, FineE, FineO, WfE, WfO, Len, Shorter;
    var k := PrSs(s.more, fns, TCons(RCB, ts));
    RtSs(s.more, sc, fns, ts);
    HdS(s.first, sc, fns, k);
    HdS(s.more.head, sc, fns, PrSs(s.more.tail, fns, TCons(RCB, ts)));
    RtS(s.first, sc, fns, k);
    StmtsRule(PrS(s.first, fns, k), s.first, k, sc, fns);
  }

  lemma StmtsRule(ts0: Toks, s: Stmt, ts: Toks, sc: seq<string>, fns: seq<string>)
    requires Hd(ts0) != RCB && PStmt(ts0, sc, fns) == Ok(s, ts)
    ensures PStmts(ts0, sc, fns) ==
      match PStmts(ts, sc, fns) case Fail => Fail case Ok(ss, ts2) => Ok(SCons(s, ss), ts2)
  {
    hide PStmt, Len;
  }

  lemma {:induction false} RtWhile(s: Stmt, sc: seq<string>, fns: seq<string>, ts: Toks)
    requires s.While? && WfS(s, sc, fns) && FineS(s, true) && (Open(s) ==> Hd(ts) != ELSE)
    ensures PStmt(PrS(s, fns, ts), sc, fns) == Ok(s, ts)
    decreases s, 25
  {
    hide PExpr, PStmts, PStmt, PrE, PrSs, PrOpt, FineE, FineSs, FineO, WfE, WfSs, WfO, Len, Shorter;
    RtE(s.cond, sc, fns, TCons(RP, PrS(s.body, fns, ts)));
    RtS(s.body, sc, fns, ts);
    WhileRule(PrS(s, fns, ts), sc, fns);
  }

  lemma WhileRule(ts: Toks, sc: seq<string>, fns: seq<string>)
    requires Hd(ts) == WHILE
    ensures PStmt(ts, sc, fns) == PWhile(ts, sc, fns)
  {
    hide PWhile, Len;
  }

  lemma IfRule(ts: Toks, sc: seq<string>, fns: seq<string>)
    requires Hd(ts) == IF
    ensures PStmt(ts, sc, fns) == PIf(ts, sc, fns)
  {
    hide PIf, Len;
  }

  lemma ForRule(ts: Toks, sc: seq<string>, fns: seq<string>)
    requires Hd(ts) == FOR
    ensures PStmt(ts, sc, fns) == PFor(ts, sc, fns)
  {
    hide PFor, Len;
  }

  lemma {:induction false} RtIf(s: Stmt, sc: seq<string>, fns: seq<string>, ts: Toks)
    requires s.If? && WfS(s, sc, fns) && FineS(s, true) && (Open(s) ==> Hd(ts) != ELSE)
    ensures PStmt(PrS(s, fns, ts), sc, fns) == Ok(s, ts)
    decreases s, 25
  {
    hide PExpr, PStmts, PStmt, PrE, PrSs, PrOpt, FineE, FineSs, FineO, WfE, WfSs, WfO, Len, Shorter;
    IfRule(PrS(s, fns, ts), sc, fns);
    match s.els
    case NoStmt =>
      RtE(s.cond, sc, fns, TCons(RP, PrS(s.thn, fns, ts)));
      RtS(s.thn, sc, fns, ts);
    case TheStmt(e) =>
      var k := TCons(ELSE, PrS(e, fns, ts));
      RtE(s.cond, sc, fns, TCons(RP, PrS(s.thn, fns, k)));
      RtS(s.thn, sc, fns, k);
      RtS(e, sc, fns, ts);
  }

  lemma {:induction false} RtFor(s: Stmt, sc: seq<string>, fns: seq<string>, ts: Toks)
    requires s.For? && WfS(s, sc, fns) && FineS(s, true) && (Open(s) ==> Hd(ts) != ELSE)
    ensures PStmt(PrS(s, fns, ts), sc, fns) == Ok(s, ts)
    decreases s, 25
  {
    hide PExpr, PStmts, PStmt, POpt, PrE, PrSs, FineE, FineSs, WfE, WfSs, Len, Shorter, NotLonger;
    var k3 := TCons(RP, PrS(s.body, fns, ts));
    var k2 := TCons(SEMI, PrE(s.step, fns, k3));
    var k1 := TCons(SEMI, PrE(s.test.e, fns, k2));
    RtAny(s.init.e, sc, fns, k1);
    RtAny(s.test.e, sc, fns, k2);
    RtAny(s.step, sc, fns, k3);
    RtS(s.body, sc, fns, ts);
    ForRule(PrS(s, fns, ts), sc, fns);
  }

  lemma {:induction false} RtForIn(s: Stmt, sc: seq<string>, fns: seq<string>, ts: Toks)
    requires s.ForIn? && WfS(s, sc, fns) && FineS(s, true) && (Open(s) ==> Hd(ts) != ELSE)
    ensures PStmt(PrS(s, fns, ts), sc, fns) == Ok(s, ts)
    decreases s, 25
  {
    hide PExpr, PStmts, PStmt, POpt, PrE, PrSs, PrOpt, FineE, FineSs, FineO, WfE, WfSs, WfO, Len, Shorter, NotLonger;
    var k2 := TCons(RP, PrS(s.body, fns, ts));
    var k1 := TCons(IN, PrE(s.tbl, fns, k2));
    RtAny(s.v, sc, fns, k1);
    RtE(s.tbl, sc, fns, k2);
    RtS(s.body, sc, fns, ts);
    ForRule(PrS(s, fns, ts), sc, fns);
  }
}
