/** What a program becomes when it is printed and parsed again: its one-statement blocks are unwrapped,
    unless that would give an else to another if. */
module LeftyStrip {
  import opened LeftySyntax
  import opened LeftyGrammar
  import opened LeftyPrint
  import opened LeftyRoundTrip
  import opened LeftyImage

  // ---- unwrapping ----

  function StripE(e: Expr): Expr {
    match e
    case Assign(l, r) => Assign(StripE(l), StripE(r))
    case Bin(op, l, r) => Bin(op, StripE(l), StripE(r))
    case Uminus(a) => Uminus(StripE(a))
    case Not(a) => Not(StripE(a))
    case Paren(a) => Paren(StripE(a))
    case Call(f, args) => Call(StripE(f), StripEs(args))
    case Int(_) => e
    case Str(_) => e
    case Var(x, slot, path) => Var(x, slot, StripEs(path))
    case Func(_, Internal(_)) => e
    case Func(params, Code(ds, ss)) => Func(params, Code(ds, StripSs(ss)))
    case Tcons(items) => Tcons(StripItems(items))
  }

  function StripEs(es: Exprs): Exprs {
    match es case ENil => ENil case ECons(e, rest) => ECons(StripE(e), StripEs(rest))
  }

  function StripItems(items: Items): Items {
    match items case INil => INil case ICons(k, v, rest) => ICons(StripE(k), StripE(v), StripItems(rest))
  }

  function StripSs(ss: Stmts): Stmts {
    match ss case SNil => SNil case SCons(s, rest) => SCons(StripS(s), StripSs(rest))
  }

  function StripO(o: OptExpr): OptExpr {
    match o case NoExpr => NoExpr case TheExpr(e) => TheExpr(StripE(e))
  }

  function StripS(s: Stmt): Stmt {
    match s
    case Block(s1, SNil) => StripS(s1)
    case Block(s1, more) => Block(StripS(s1), StripSs(more))
    case If(c, t, NoStmt) => If(StripE(c), StripS(t), NoStmt)
    case If(c, t, TheStmt(e)) => If(StripE(c), StripS(t), TheStmt(StripS(e)))
    case While(c, b) => While(StripE(c), StripS(b))
    case For(i, c, st, b) => For(StripO(i), StripO(c), StripE(st), StripS(b))
    case ForIn(v, t, b) => ForIn(StripE(v), StripE(t), StripS(b))
    case Return(o) => Return(StripO(o))
    case Do(e) => Do(StripE(e))
    case _ => s
  }

  // ---- no else would move ----

  predicate SafeE(e: Expr) {
    match e
    case Assign(l, r) => SafeE(l) && SafeE(r)
    case Bin(_, l, r) => SafeE(l) && SafeE(r)
    case Uminus(a) => SafeE(a)
    case Not(a) => SafeE(a)
    case Paren(a) => SafeE(a)
    case Call(f, args) => SafeE(f) && SafeEs(args)
    case Var(_, _, path) => SafeEs(path)
    case Func(_, Code(_, ss)) => SafeSs(ss)
    case Tcons(items) => SafeItems(items)
    case _ => true
  }

  predicate SafeEs(es: Exprs) {
    match es case ENil => true case ECons(e, rest) => SafeE(e) && SafeEs(rest)
  }

  predicate SafeItems(items: Items) {
    match items case INil => true case ICons(k, v, rest) => SafeE(k) && SafeE(v) && SafeItems(rest)
  }

  predicate SafeSs(ss: Stmts) {
    match ss case SNil => true case SCons(s, rest) => SafeS(s) && SafeSs(rest)
  }

  predicate SafeO(o: OptExpr) {
    match o case NoExpr => true case TheExpr(e) => SafeE(e)
  }

  /** No branch before an else ends, in one-statement blocks, in an if that would take the else. */
  predicate SafeS(s: Stmt) {
    match s
    case Block(s1, more) => SafeS(s1) && SafeSs(more)
    case If(c, t, NoStmt) => SafeE(c) && SafeS(t)
    case If(c, t, TheStmt(e)) => !Dangling(t) && SafeE(c) && SafeS(t) && SafeS(e)
    case While(c, b) => SafeE(c) && SafeS(b)
    case For(i, c, st, b) => SafeO(i) && SafeO(c) && SafeE(st) && SafeS(b)
    case ForIn(v, t, b) => SafeE(v) && SafeE(t) && SafeS(b)
    case Return(o) => SafeO(o)
    case Do(e) => SafeE(e)
    case _ => true
  }

  /** The statement ends in an if that would take an else, if braces around one statement do not count. */
  predicate Dangling(s: Stmt) {
    match s
    case Block(s1, SNil) => Dangling(s1)
    case If(_, _, NoStmt) => true
    case If(_, _, TheStmt(e)) => Dangling(e)
    case While(_, b) => Dangling(b)
    case For(_, _, _, b) => Dangling(b)
    case ForIn(_, _, b) => Dangling(b)
    case _ => false
  }

  lemma {:induction false} StripOpens(s: Stmt)
    ensures Open(StripS(s)) <==> Dangling(s)
  {
    match s
    case Block(s1, SNil) => StripOpens(s1);
    case If(_, _, TheStmt(e)) => StripOpens(e);
    case While(_, b) => StripOpens(b);
    case For(_, _, _, b) => StripOpens(b);
    case ForIn(_, _, b) => StripOpens(b);
    case _ =>
  }

  // ---- the print does not change ----

  lemma {:induction false} PrintE(e: Expr, fns: seq<string>, k: Toks)
    ensures PrE(StripE(e), fns, k) == PrE(e, fns, k)
    decreases e
  {
    match e
    case Assign(l, r) => PrintE(r, fns, k); PrintE(l, fns, TCons(ASSIGN, PrE(r, fns, k)));
    case Bin(op, l, r) => PrintE(r, fns, k); PrintE(l, fns, TCons(OpTok(op), PrE(r, fns, k)));
    case Uminus(a) => PrintE(a, fns, k);
    case Not(a) => PrintE(a, fns, k);
    case Paren(a) => PrintE(a, fns, TCons(RP, k));
    case Call(f, args) =>
      PrintArgs(args, fns, TCons(RP, k));
      PrintE(f, fns, TCons(LP, PrArgs(args, fns, TCons(RP, k))));
    case Var(_, _, path) => PrintPath(path, fns, k);
    case Func(_, Code(_, ss)) => PrintSs(ss, fns, TCons(RCB, k));
    case Tcons(items) => PrintItems(items, fns, TCons(RB, k));
    case _ =>
  }

  lemma {:induction false} PrintArgs(es: Exprs, fns: seq<string>, k: Toks)
    ensures PrArgs(StripEs(es), fns, k) == PrArgs(es, fns, k)
    decreases es
  {
    match es
    case ENil =>
    case ECons(e, ENil) => PrintE(e, fns, k);
    case ECons(e, rest) => PrintArgs(rest, fns, k); PrintE(e, fns, TCons(COMMA, PrArgs(rest, fns, k)));
  }

  lemma {:induction false} PrintPath(es: Exprs, fns: seq<string>, k: Toks)
    ensures PrPath(StripEs(es), fns, k) == PrPath(es, fns, k)
    decreases es
  {
    match es
    case ENil =>
    case ECons(e, rest) => PrintPath(rest, fns, k); PrintE(e, fns, TCons(RB, PrPath(rest, fns, k)));
  }

  lemma {:induction false} PrintItems(items: Items, fns: seq<string>, k: Toks)
    ensures PrItems(StripItems(items), fns, k) == PrItems(items, fns, k)
    decreases items
  {
    match items
    case INil =>
    case ICons(key, v, rest) =>
      PrintItems(rest, fns, k);
      PrintE(v, fns, TCons(SEMI, PrItems(rest, fns, k)));
      PrintE(key, fns, TCons(ASSIGN, PrE(v, fns, TCons(SEMI, PrItems(rest, fns, k)))));
  }

  lemma {:induction false} PrintSs(ss: Stmts, fns: seq<string>, k: Toks)
    ensures PrSs(StripSs(ss), fns, k) == PrSs(ss, fns, k)
    decreases ss
  {
    match ss case SNil => case SCons(s, rest) => PrintSs(rest, fns, k); PrintS(s, fns, PrSs(rest, fns, k));
  }

  lemma {:induction false} PrintO(o: OptExpr, fns: seq<string>, k: Toks)
    ensures PrOpt(StripO(o), fns, k) == PrOpt(o, fns, k)
    decreases o
  {
    match o case NoExpr => case TheExpr(e) => PrintE(e, fns, k);
  }

  lemma {:induction false} PrintS(s: Stmt, fns: seq<string>, k: Toks)
    ensures PrS(StripS(s), fns, k) == PrS(s, fns, k)
    decreases s
  {
    match s
    case Block(s1, SNil) => PrintS(s1, fns, k);
    case Block(s1, more) =>
      PrintSs(more, fns, TCons(RCB, k));
      PrintS(s1, fns, PrSs(more, fns, TCons(RCB, k)));
    case If(c, t, NoStmt) => PrintS(t, fns, k); PrintE(c, fns, TCons(RP, PrS(t, fns, k)));
    case If(c, t, TheStmt(e)) =>
      var k1 := TCons(ELSE, PrS(e, fns, k));
      PrintS(e, fns, k);
      PrintS(t, fns, k1);
      PrintE(c, fns, TCons(RP, PrS(t, fns, k1)));
    case While(c, b) => PrintS(b, fns, k); PrintE(c, fns, TCons(RP, PrS(b, fns, k)));
    case For(_, _, _, _) => PrintFor(s, fns, k);
    case ForIn(v, t, b) =>
      var k1 := TCons(RP, PrS(b, fns, k));
      PrintS(b, fns, k);
      PrintE(t, fns, k1);
      PrintE(v, fns, TCons(IN, PrE(t, fns, k1)));
    case Return(o) => PrintO(o, fns, TCons(SEMI, k));
    case Do(e) => PrintE(e, fns, TCons(SEMI, k));
    case _ =>
  }

  lemma {:induction false} PrintFor(s: Stmt, fns: seq<string>, k: Toks)
    requires s.For?
    ensures PrS(StripS(s), fns, k) == PrS(s, fns, k)
    decreases s, 0
  {
    var k1 := TCons(RP, PrS(s.body, fns, k));
    var k2 := TCons(SEMI, PrE(s.step, fns, k1));
    PrintS(s.body, fns, k);
    PrintE(s.step, fns, k1);
    PrintO(s.test, fns, k2);
    PrintO(s.init, fns, TCons(SEMI, PrOpt(s.test, fns, k2)));
  }

  // ---- the unwrapped tree has no one-statement block, and is well formed when no else would move ----

  lemma {:induction false} StripsE(e: Expr, sc: seq<string>, fns: seq<string>)
    requires WfE(e, sc, fns) && FineE(e, false)
    ensures Prec(StripE(e)) == Prec(e) && FineE(StripE(e), true) && (WfE(StripE(e), sc, fns) <==> SafeE(e))
    decreases e
  {
    match e
    case Assign(l, r) => StripsE(l, sc, fns); StripsE(r, sc, fns);
    case Bin(_, l, r) => StripsE(l, sc, fns); StripsE(r, sc, fns);
    case Uminus(a) => StripsE(a, sc, fns);
    case Not(a) => StripsE(a, sc, fns);
    case Paren(a) => StripsE(a, sc, fns);
    case Call(f, args) => StripsE(f, sc, fns); StripsEs(args, sc, fns);
    case Var(_, _, path) => StripsEs(path, sc, fns);
    case Func(params, Code(ds, ss)) => StripsSs(ss, params + DeclNames(ds), fns);
    case Tcons(items) => StripsItems(items, sc, fns);
    case _ =>
  }

  lemma {:induction false} StripsEs(es: Exprs, sc: seq<string>, fns: seq<string>)
    requires WfEs(es, sc, fns) && FineEs(es, false)
    ensures FineEs(StripEs(es), true) && (WfEs(StripEs(es), sc, fns) <==> SafeEs(es))
    decreases es
  {
    match es case ENil => case ECons(e, rest) => StripsE(e, sc, fns); StripsEs(rest, sc, fns);
  }

  lemma {:induction false} StripsItems(items: Items, sc: seq<string>, fns: seq<string>)
    requires WfItems(items, sc, fns) && FineItems(items, false)
    ensures FineItems(StripItems(items), true) && (WfItems(StripItems(items), sc, fns) <==> SafeItems(items))
    decreases items
  {
    match items
    case INil =>
    case ICons(k, v, rest) => StripsE(k, sc, fns); StripsE(v, sc, fns); StripsItems(rest, sc, fns);
  }

  lemma {:induction false} StripsSs(ss: Stmts, sc: seq<string>, fns: seq<string>)
    requires WfSs(ss, sc, fns) && FineSs(ss, false)
    ensures FineSs(StripSs(ss), true) && (WfSs(StripSs(ss), sc, fns) <==> SafeSs(ss))
    decreases ss
  {
    match ss case SNil => case SCons(s, rest) => StripsS(s, sc, fns); StripsSs(rest, sc, fns);
  }

  lemma {:induction false} StripsO(o: OptExpr, sc: seq<string>, fns: seq<string>)
    requires WfO(o, sc, fns) && FineO(o, false)
    ensures FineO(StripO(o), true) && (WfO(StripO(o), sc, fns) <==> SafeO(o))
    decreases o
  {
    match o case NoExpr => case TheExpr(e) => StripsE(e, sc, fns);
  }

  lemma {:induction false} StripsS(s: Stmt, sc: seq<string>, fns: seq<string>)
    requires WfS(s, sc, fns) && FineS(s, false)
    ensures FineS(StripS(s), true) && (WfS(StripS(s), sc, fns) <==> SafeS(s))
    decreases s
  {
    match s
    case Block(s1, more) => StripsS(s1, sc, fns); StripsSs(more, sc, fns);
    case If(c, t, NoStmt) => StripsE(c, sc, fns); StripsS(t, sc, fns);
    case If(c, t, TheStmt(e)) => StripsE(c, sc, fns); StripsS(t, sc, fns); StripsS(e, sc, fns); StripOpens(t);
    case While(c, b) => StripsE(c, sc, fns); StripsS(b, sc, fns);
    case For(i, c, st, b) => StripsO(i, sc, fns); StripsO(c, sc, fns); StripsE(st, sc, fns); StripsS(b, sc, fns);
    case ForIn(v, t, b) => StripsE(v, sc, fns); StripsE(t, sc, fns); StripsS(b, sc, fns);
    case Return(o) => StripsO(o, sc, fns);
    case Do(e) => StripsE(e, sc, fns);
    case _ =>
  }

  /** A unit that the parser built and the printer can print comes back unwrapped exactly when no else
      would move. */
  lemma PrintUnwraps(ts: Toks, fns: seq<string>)
    requires PUnit(ts, fns).Ok? && Printable(PUnit(ts, fns).val)
    ensures var e := PUnit(ts, fns).val;
      PUnit(PrE(e, fns, TNil), fns) == Ok(StripE(e), TNil) <==> SafeE(e)
  {
    hide PExpr, PrE, FineE, WfE, StripE, SafeE, Shorter;
    UnitWf(ts, fns);
    var e := PUnit(ts, fns).val;
    var out := PrE(e, fns, TNil);
    StripsE(e, [], fns);
    PrintE(e, fns, TNil);
    HdE(e, [], fns, TNil);
    UnitIsExpr(out, fns);
    if SafeE(e) { RtE(StripE(e), [], fns, TNil); }
    if PUnit(out, fns) == Ok(StripE(e), TNil) { UnitWf(out, fns); }
  }
}
