/** codestr of cmd/lefty/str.c: the tokens that a tree prints as.

    Every function takes the tokens that follow, `k`, and puts its own in front of them. */
module LeftyPrint {
  import opened LeftySyntax

  function PrE(e: Expr, fns: seq<string>, k: Toks): Toks {
    match e
    case Assign(l, r) => PrE(l, fns, TCons(ASSIGN, PrE(r, fns, k)))
    case Bin(op, l, r) => PrE(l, fns, TCons(OpTok(op), PrE(r, fns, k)))
    case Uminus(a) => TCons(MINUS, PrE(a, fns, k))
    case Not(a) => TCons(NOT, PrE(a, fns, k))
    case Paren(a) => TCons(LP, PrE(a, fns, TCons(RP, k)))
    case Call(f, args) => PrE(f, fns, TCons(LP, PrArgs(args, fns, TCons(RP, k))))
    case Int(n) => TCons(NUMBER(n), k)
    case Str(s) => TCons(STRING(s), k)
    case Var(name, _, path) => TCons(ID(name), PrPath(path, fns, k))
    case Func(params, Internal(n)) =>
      TCons(FUNCTION, TCons(LP, PrNames(params,
        TCons(RP, TCons(INTERNAL, TCons(STRING(if n < |fns| then fns[n] else ""), k))))))
    case Func(params, Code(ds, ss)) =>
      TCons(FUNCTION, TCons(LP, PrNames(params,
        TCons(RP, TCons(LCB, PrDecls(ds, PrSs(ss, fns, TCons(RCB, k))))))))
    case Tcons(items) => TCons(LB, PrItems(items, fns, TCons(RB, k)))
  }

  function PrArgs(es: Exprs, fns: seq<string>, k: Toks): Toks {
    match es
    case ENil => k
    case ECons(e, ENil) => PrE(e, fns, k)
    case ECons(e, rest) => PrE(e, fns, TCons(COMMA, PrArgs(rest, fns, k)))
  }

  function PrPath(es: Exprs, fns: seq<string>, k: Toks): Toks {
    match es
    case ENil => k
    case ECons(Str(s), rest) => TCons(DOT, TCons(ID(s), PrPath(rest, fns, k)))
    case ECons(e, rest) => TCons(LB, PrE(e, fns, TCons(RB, PrPath(rest, fns, k))))
  }

  function PrItems(items: Items, fns: seq<string>, k: Toks): Toks {
    match items
    case INil => k
    case ICons(key, v, rest) => PrE(key, fns, TCons(ASSIGN, PrE(v, fns, TCons(SEMI, PrItems(rest, fns, k)))))
  }

  function PrNames(xs: seq<string>, k: Toks): Toks {
    if xs == [] then k
    else if |xs| == 1 then TCons(ID(xs[0]), k)
    else TCons(ID(xs[0]), TCons(COMMA, PrNames(xs[1..], k)))
  }

  function PrDecls(ds: Decls, k: Toks): Toks {
    match ds
    case DNil => k
    case DCons(xs, rest) => TCons(LOCAL, PrNames(xs, TCons(SEMI, PrDecls(rest, k))))
  }

  function PrSs(ss: Stmts, fns: seq<string>, k: Toks): Toks {
    match ss
    case SNil => k
    case SCons(s, rest) => PrS(s, fns, PrSs(rest, fns, k))
  }

  function PrOpt(o: OptExpr, fns: seq<string>, k: Toks): Toks {
    match o case NoExpr => k case TheExpr(e) => PrE(e, fns, k)
  }

  /** A block of one statement prints as that statement, without braces. */
  function PrS(s: Stmt, fns: seq<string>, k: Toks): Toks {
    match s
    case Empty => TCons(SEMI, k)
    case Block(s1, SNil) => PrS(s1, fns, k)
    case Block(s1, more) => TCons(LCB, PrS(s1, fns, PrSs(more, fns, TCons(RCB, k))))
    case If(c, t, NoStmt) => TCons(IF, TCons(LP, PrE(c, fns, TCons(RP, PrS(t, fns, k)))))
    case If(c, t, TheStmt(e)) =>
      TCons(IF, TCons(LP, PrE(c, fns, TCons(RP, PrS(t, fns, TCons(ELSE, PrS(e, fns, k)))))))
    case While(c, b) => TCons(WHILE, TCons(LP, PrE(c, fns, TCons(RP, PrS(b, fns, k)))))
    case For(i, c, st, b) =>
      TCons(FOR, TCons(LP, PrOpt(i, fns, TCons(SEMI, PrOpt(c, fns, TCons(SEMI,
        PrE(st, fns, TCons(RP, PrS(b, fns, k)))))))))
    case ForIn(v, t, b) =>
      TCons(FOR, TCons(LP, PrE(v, fns, TCons(IN, PrE(t, fns, TCons(RP, PrS(b, fns, k)))))))
    case Break => TCons(BREAK, TCons(SEMI, k))
    case Continue => TCons(CONTINUE, TCons(SEMI, k))
    case Return(o) => TCons(RETURN, PrOpt(o, fns, TCons(SEMI, k)))
    case Do(e) => PrE(e, fns, TCons(SEMI, k))
  }

  // ---- what the printer can print, and what it prints without loss ----

  /** `single` asks for no block of one statement; without it, only for no C_NOP, at which the
      printer panics. */
  predicate FineE(e: Expr, single: bool) {
    match e
    case Assign(l, r) => FineE(l, single) && FineE(r, single)
    case Bin(_, l, r) => FineE(l, single) && FineE(r, single)
    case Uminus(a) => FineE(a, single)
    case Not(a) => FineE(a, single)
    case Paren(a) => FineE(a, single)
    case Call(f, args) => FineE(f, single) && FineEs(args, single)
    case Int(_) => true
    case Str(_) => true
    case Var(_, _, path) => FineEs(path, single)
    case Func(_, Internal(_)) => true
    case Func(_, Code(_, ss)) => FineSs(ss, single)
    case Tcons(items) => FineItems(items, single)
  }

  predicate FineEs(es: Exprs, single: bool) {
    match es case ENil => true case ECons(e, rest) => FineE(e, single) && FineEs(rest, single)
  }

  predicate FineItems(items: Items, single: bool) {
    match items case INil => true
    case ICons(k, v, rest) => FineE(k, single) && FineE(v, single) && FineItems(rest, single)
  }

  predicate FineSs(ss: Stmts, single: bool) {
    match ss case SNil => true case SCons(s, rest) => FineS(s, single) && FineSs(rest, single)
  }

  predicate FineO(o: OptExpr, single: bool) {
    match o case NoExpr => true case TheExpr(e) => FineE(e, single)
  }

  predicate FineS(s: Stmt, single: bool) {
    match s
    case Empty => true
    case Block(s1, more) => (single ==> more.SCons?) && FineS(s1, single) && FineSs(more, single)
    case If(c, t, NoStmt) => FineE(c, single) && FineS(t, single)
    case If(c, t, TheStmt(e)) => FineE(c, single) && FineS(t, single) && FineS(e, single)
    case While(c, b) => FineE(c, single) && FineS(b, single)
    case For(i, c, st, b) =>
      i.TheExpr? && c.TheExpr? && FineO(i, single) && FineO(c, single) && FineE(st, single) && FineS(b, single)
    case ForIn(v, t, b) => FineE(v, single) && FineE(t, single) && FineS(b, single)
    case Break => true
    case Continue => true
    case Return(o) => FineO(o, single)
    case Do(e) => FineE(e, single)
  }

  /** codestr prints the tree; it panics at a C_NOP. */
  predicate Printable(e: Expr) {
    FineE(e, false)
  }

  /** The tree has no block of one statement (and no C_NOP). */
  predicate Plain(e: Expr) {
    FineE(e, true)
  }
}
