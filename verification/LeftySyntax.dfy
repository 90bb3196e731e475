/** Tokens and program trees of the lefty language (cmd/lefty/lex.h, cmd/lefty/code.h). */
module LeftySyntax {
  import opened Options

  datatype Tok =
    | SEMI | ASSIGN | OR | AND | EQ | NE | LT | LE | GT | GE | PLUS | MINUS | MUL | DIV | MOD | NOT
    | STRING(s: string) | NUMBER(n: nat) | ID(id: string)
    | DOT | LB | RB | FUNCTION | LP | RP | LCB | RCB | LOCAL | COLON | COMMA
    | IF | ELSE | WHILE | FOR | IN | BREAK | CONTINUE | RETURN | INTERNAL | EOF

  /** What the lexer still has to give; at the end it gives EOF again and again. */
  datatype Toks = TNil | TCons(head: Tok, tail: Toks)

  function Hd(ts: Toks): Tok {
    if ts.TNil? then EOF else ts.head
  }

  function Len(ts: Toks): nat {
    if ts.TNil? then 0 else 1 + Len(ts.tail)
  }

  function Tl(ts: Toks): (r: Toks)
    ensures Len(r) <= Len(ts) && (Hd(ts) != EOF ==> Len(r) < Len(ts))
  {
    if ts.TNil? then ts else ts.tail
  }

  datatype BinOp = BOr | BAnd | BEq | BNe | BLt | BLe | BGt | BGe | BPlus | BMinus | BMul | BDiv | BMod

  /** The row of an operator in lextab and parsetab. */
  function Level(op: BinOp): nat {
    match op
    case BOr => 0
    case BAnd => 1
    case BEq => 2 case BNe => 2 case BLt => 2 case BLe => 2 case BGt => 2 case BGe => 2
    case BPlus => 3 case BMinus => 3
    case BMul => 4 case BDiv => 4 case BMod => 4
  }

  function OpTok(op: BinOp): Tok {
    match op
    case BOr => OR case BAnd => AND
    case BEq => EQ case BNe => NE case BLt => LT case BLe => LE case BGt => GT case BGe => GE
    case BPlus => PLUS case BMinus => MINUS
    case BMul => MUL case BDiv => DIV case BMod => MOD
  }

  function TokOp(t: Tok): Option<BinOp> {
    match t
    case OR => Some(BOr) case AND => Some(BAnd)
    case EQ => Some(BEq) case NE => Some(BNe) case LT => Some(BLt) case LE => Some(BLe)
    case GT => Some(BGt) case GE => Some(BGe)
    case PLUS => Some(BPlus) case MINUS => Some(BMinus)
    case MUL => Some(BMul) case DIV => Some(BDiv) case MOD => Some(BMod)
    case _ => None
  }

  /** getop: the operator of token t in row k. */
  function GetOp(t: Tok, k: nat): Option<BinOp> {
    match TokOp(t)
    case Some(op) => if Level(op) == k then Some(op) else None
    case None => None
  }

  // ---- trees ----

  datatype Expr =
    | Assign(lhs: Expr, rhs: Expr)
    | Bin(op: BinOp, left: Expr, right: Expr)
    | Uminus(arg: Expr)
    | Not(arg: Expr)
    | Paren(arg: Expr)
    | Call(fn: Expr, args: Exprs)
    | Int(n: nat)
    | Str(s: string)
    | Var(name: string, slot: Option<nat>, path: Exprs)   // C_LVAR with its slot, or C_GVAR
    | Func(params: seq<string>, body: Body)
    | Tcons(items: Items)

  datatype Exprs = ENil | ECons(head: Expr, tail: Exprs)

  datatype Items = INil | ICons(key: Expr, val: Expr, rest: Items)

  datatype Body = Internal(num: nat) | Code(locals: Decls, stmts: Stmts)

  datatype Decls = DNil | DCons(names: seq<string>, rest: Decls)

  datatype Stmts = SNil | SCons(head: Stmt, tail: Stmts)

  datatype OptExpr = NoExpr | TheExpr(e: Expr)

  datatype OptStmt = NoStmt | TheStmt(s: Stmt)

  /** One C_STMT node with what it points to. */
  datatype Stmt =
    | Empty
    | Block(first: Stmt, more: Stmts)
    | If(cond: Expr, thn: Stmt, els: OptStmt)
    | While(cond: Expr, body: Stmt)
    | For(init: OptExpr, test: OptExpr, step: Expr, body: Stmt)   // NoExpr is C_NOP
    | ForIn(v: Expr, tbl: Expr, body: Stmt)
    | Break
    | Continue
    | Return(val: OptExpr)
    | Do(e: Expr)

  /** strcmp over a table of names, as in Igetfunc and pvar: the first place of a name. */
  function Find(names: seq<string>, s: string): Option<nat>
    ensures Find(names, s).None? <==> s !in names
    ensures Find(names, s).Some? ==> Find(names, s).value < |names| && names[Find(names, s).value] == s
  {
    if names == [] then None
    else if names[0] == s then Some(0)
    else match Find(names[1..], s) case None => None case Some(i) => Some(i + 1)
  }
}
