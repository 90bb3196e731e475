/** The recursive-descent parser of cmd/lefty/parse.c as functions from tokens to trees.

    `sc` is the part lvp[flvi..llvi) of the local-variable stack: the names of the locals of the
    function that is being parsed, in slot order.  `fns` is the table of internal functions. */
module LeftyGrammar {
  import opened Options
  import opened LeftySyntax

  datatype Res<T> = Fail | Ok(val: T, rest: Toks)

  ghost predicate Shorter<T>(r: Res<T>, ts: Toks) {
    r.Ok? ==> Len(r.rest) < Len(ts)
  }

  ghost predicate NotLonger<T>(r: Res<T>, ts: Toks) {
    r.Ok? ==> Len(r.rest) <= Len(ts)
  }

  function PExpr(ts: Toks, sc: seq<string>, fns: seq<string>): (r: Res<Expr>)
    ensures Shorter(r, ts)
    decreases Len(ts), 20
  {
    match PExpI(0, ts, sc, fns)
    case Fail => Fail
    case Ok(l, ts1) =>
      if Hd(ts1) != ASSIGN then Ok(l, ts1)
      else match PExpr(Tl(ts1), sc, fns)
        case Fail => Fail
        case Ok(e, ts2) => Ok(Assign(l, e), ts2)
  }

  function PExpI(k: nat, ts: Toks, sc: seq<string>, fns: seq<string>): (r: Res<Expr>)
    requires k <= 5
    ensures Shorter(r, ts)
    decreases Len(ts), 15 - k
  {
    if k == 5 then PExp5(ts, sc, fns)
    else match PExpI(k + 1, ts, sc, fns)
      case Fail => Fail
      case Ok(l, ts1) => PLoop(k, l, ts1, sc, fns)
  }

  /** The loop of pexpi over the operators of row k. */
  function PLoop(k: nat, l: Expr, ts: Toks, sc: seq<string>, fns: seq<string>): (r: Res<Expr>)
    requires k < 5
    ensures NotLonger(r, ts)
    decreases Len(ts), 16
  {
    match GetOp(Hd(ts), k)
    case None => Ok(l, ts)
    case Some(op) =>
      match PExpI(k + 1, Tl(ts), sc, fns)
      case Fail => Fail
      case Ok(e, ts1) => PLoop(k, Bin(op, l, e), ts1, sc, fns)
  }

  function PExp5(ts: Toks, sc: seq<string>, fns: seq<string>): (r: Res<Expr>)
    ensures Shorter(r, ts)
    decreases Len(ts), 9
  {
    if Hd(ts) == MINUS then
      match PExp5(Tl(ts), sc, fns) case Fail => Fail case Ok(e, ts1) => Ok(Uminus(e), ts1)
    else PExp6(ts, sc, fns)
  }

  function PExp6(ts: Toks, sc: seq<string>, fns: seq<string>): (r: Res<Expr>)
    ensures Shorter(r, ts)
    decreases Len(ts), 8
  {
    if Hd(ts) == NOT then
      match PExp6(Tl(ts), sc, fns) case Fail => Fail case Ok(e, ts1) => Ok(Not(e), ts1)
    else PExp7(ts, sc, fns)
  }

  function PExp7(ts: Toks, sc: seq<string>, fns: seq<string>): (r: Res<Expr>)
    ensures Shorter(r, ts)
    decreases Len(ts), 7
  {
    match Hd(ts)
    case FUNCTION => PFunc(Tl(ts), fns)
    case LP =>
      (match PExpr(Tl(ts), sc, fns)
       case Fail => Fail
       case Ok(e, ts1) => if Hd(ts1) == RP then Ok(Paren(e), Tl(ts1)) else Fail)
    case LB =>
      (match PItems(Tl(ts), sc, fns) case Fail => Fail case Ok(items, ts1) => Ok(Tcons(items), ts1))
    case STRING(s) => Ok(Str(s), Tl(ts))
    case NUMBER(n) => Ok(Int(n), Tl(ts))
    case ID(name) =>
      (match PPath(Tl(ts), sc, fns)
       case Fail => Fail
       case Ok(path, ts1) =>
         var v := Var(name, Find(sc, name), path);
         if Hd(ts1) != LP then Ok(v, ts1)
         else match PArgs(Tl(ts1), sc, fns)
           case Fail => Fail
           case Ok(args, ts2) => if Hd(ts2) == RP then Ok(Call(v, args), Tl(ts2)) else Fail)
    case _ => Fail
  }

  function PArgs(ts: Toks, sc: seq<string>, fns: seq<string>): (r: Res<Exprs>)
    ensures NotLonger(r, ts)
    decreases Len(ts), 21
  {
    if Hd(ts) == RP then Ok(ENil, ts)
    else match PExpr(ts, sc, fns)
      case Fail => Fail
      case Ok(e, ts1) =>
        match PMoreArgs(ts1, sc, fns) case Fail => Fail case Ok(es, ts2) => Ok(ECons(e, es), ts2)
  }

  function PMoreArgs(ts: Toks, sc: seq<string>, fns: seq<string>): (r: Res<Exprs>)
    ensures NotLonger(r, ts)
    decreases Len(ts), 21
  {
    if Hd(ts) == RP then Ok(ENil, ts)
    else if Hd(ts) != COMMA || Hd(Tl(ts)) == RP then Fail
    else match PExpr(Tl(ts), sc, fns)
      case Fail => Fail
      case Ok(e, ts1) =>
        match PMoreArgs(ts1, sc, fns) case Fail => Fail case Ok(es, ts2) => Ok(ECons(e, es), ts2)
  }

  /** The loop of pvar over `.name` and `[index]`. */
  function PPath(ts: Toks, sc: seq<string>, fns: seq<string>): (r: Res<Exprs>)
    ensures NotLonger(r, ts)
    decreases Len(ts), 22
  {
    if Hd(ts) == DOT then
      if !Hd(Tl(ts)).ID? then Fail
      else match PPath(Tl(Tl(ts)), sc, fns)
        case Fail => Fail
        case Ok(es, ts1) => Ok(ECons(Str(Hd(Tl(ts)).id), es), ts1)
    else if Hd(ts) == LB then
      match PExpr(Tl(ts), sc, fns)
      case Fail => Fail
      case Ok(e, ts1) =>
        if Hd(ts1) != RB then Fail
        else match PPath(Tl(ts1), sc, fns) case Fail => Fail case Ok(es, ts2) => Ok(ECons(e, es), ts2)
    else Ok(ENil, ts)
  }

  /** ptcons after the bracket; the first round and the loop are the same. */
  function PItems(ts: Toks, sc: seq<string>, fns: seq<string>): (r: Res<Items>)
    ensures NotLonger(r, ts)
    decreases Len(ts), 21
  {
    if Hd(ts) == RB then Ok(INil, Tl(ts))
    else match PExpI(0, ts, sc, fns)
      case Fail => Fail
      case Ok(k, ts1) =>
        if Hd(ts1) != ASSIGN then Fail
        else match PExpr(Tl(ts1), sc, fns)
          case Fail => Fail
          case Ok(v, ts2) =>
            if Hd(ts2) != SEMI then Fail
            else match PItems(Tl(ts2), sc, fns)
              case Fail => Fail
              case Ok(items, ts3) => Ok(ICons(k, v, items), ts3)
  }

  /** pdecl: the declared names, which must be new in sc. */
  function PDecl(ts: Toks, sc: seq<string>): (r: Res<seq<string>>)
    ensures NotLonger(r, ts)
  {
    if !Hd(ts).ID? then Ok([], ts)
    else
      var x := Hd(ts).id;
      if x in sc then Fail
      else if Hd(Tl(ts)) != COMMA then Ok([x], Tl(ts))
      else match PMoreDecl(Tl(Tl(ts)), sc + [x])
        case Fail => Fail
        case Ok(xs, ts1) => Ok([x] + xs, ts1)
  }

  /** The loop of pdecl: a comma may be left out between two names, and a comma must be followed
      by a name, except after the first name. */
  function PMoreDecl(ts: Toks, sc: seq<string>): (r: Res<seq<string>>)
    ensures NotLonger(r, ts)
    decreases Len(ts)
  {
    if !Hd(ts).ID? then Ok([], ts)
    else
      var x := Hd(ts).id;
      if x in sc then Fail
      else
        var ts1 := if Hd(Tl(ts)) == COMMA then Tl(Tl(ts)) else Tl(ts);
        if Hd(Tl(ts)) == COMMA && !Hd(ts1).ID? then Fail
        else match PMoreDecl(ts1, sc + [x])
          case Fail => Fail
          case Ok(xs, ts2) => Ok([x] + xs, ts2)
  }

  function DeclNames(ds: Decls): seq<string> {
    match ds case DNil => [] case DCons(xs, rest) => xs + DeclNames(rest)
  }

  /** pfunc, after the keyword. */
  function PFunc(ts: Toks, fns: seq<string>): (r: Res<Expr>)
    ensures Shorter(r, ts)
    decreases Len(ts), 30
  {
    if Hd(ts) != LP then Fail
    else match PDecl(Tl(ts), [])
      case Fail => Fail
      case Ok(params, ts1) =>
        if Hd(ts1) != RP then Fail
        else if Hd(Tl(ts1)) == INTERNAL then
          var t := Hd(Tl(Tl(ts1)));
          if !t.STRING? then Fail
          else match Find(fns, t.s)
            case None => Fail
            case Some(i) => Ok(Func(params, Internal(i)), Tl(Tl(Tl(ts1))))
        else if Hd(Tl(ts1)) != LCB then Fail
        else match PLocals(Tl(Tl(ts1)), params)
          case Fail => Fail
          case Ok(ds, ts2) =>
            match PStmts(ts2, params + DeclNames(ds), fns)
            case Fail => Fail
            case Ok(ss, ts3) => Ok(Func(params, Code(ds, ss)), ts3)
  }

  function PLocals(ts: Toks, sc: seq<string>): (r: Res<Decls>)
    ensures NotLonger(r, ts)
    decreases Len(ts)
  {
    if Hd(ts) != LOCAL then Ok(DNil, ts)
    else match PDecl(Tl(ts), sc)
      case Fail => Fail
      case Ok(xs, ts1) =>
        if Hd(ts1) != SEMI then Fail
        else match PLocals(Tl(ts1), sc + xs) case Fail => Fail case Ok(ds, ts2) => Ok(DCons(xs, ds), ts2)
  }

  /** Statements up to and with the closing brace. */
  function PStmts(ts: Toks, sc: seq<string>, fns: seq<string>): (r: Res<Stmts>)
    ensures Shorter(r, ts)
    decreases Len(ts), 32
  {
    if Hd(ts) == RCB then Ok(SNil, Tl(ts))
    else match PStmt(ts, sc, fns)
      case Fail => Fail
      case Ok(s, ts1) =>
        match PStmts(ts1, sc, fns) case Fail => Fail case Ok(ss, ts2) => Ok(SCons(s, ss), ts2)
  }

  function PStmt(ts: Toks, sc: seq<string>, fns: seq<string>): (r: Res<Stmt>)
    ensures Shorter(r, ts)
    decreases Len(ts), 31
  {
    match Hd(ts)
    case SEMI => Ok(Empty, Tl(ts))
    case LCB =>
      (match PStmts(Tl(ts), sc, fns)
       case Fail => Fail
       case Ok(SNil, ts1) => Ok(Empty, ts1)
       case Ok(SCons(s, ss), ts1) => Ok(Block(s, ss), ts1))
    case IF => PIf(ts, sc, fns)
    case WHILE => PWhile(ts, sc, fns)
    case FOR => PFor(ts, sc, fns)
    case BREAK => if Hd(Tl(ts)) == SEMI then Ok(Break, Tl(Tl(ts))) else Fail
    case CONTINUE => if Hd(Tl(ts)) == SEMI then Ok(Continue, Tl(Tl(ts))) else Fail
    case RETURN =>
      if Hd(Tl(ts)) == SEMI then Ok(Return(NoExpr), Tl(Tl(ts)))
      else (match PExpr(Tl(ts), sc, fns)
        case Fail => Fail
        case Ok(e, ts1) => if Hd(ts1) == SEMI then Ok(Return(TheExpr(e)), Tl(ts1)) else Fail)
    case _ =>
      (match PExpr(ts, sc, fns)
       case Fail => Fail
       case Ok(e, ts1) => if Hd(ts1) == SEMI then Ok(Do(e), Tl(ts1)) else Fail)
  }

  function PIf(ts: Toks, sc: seq<string>, fns: seq<string>): (r: Res<Stmt>)
    requires Hd(ts) == IF
    ensures Shorter(r, ts)
    decreases Len(ts), 30
  {
    if Hd(Tl(ts)) != LP then Fail
    else match PExpr(Tl(Tl(ts)), sc, fns)
      case Fail => Fail
      case Ok(c, ts1) =>
        if Hd(ts1) != RP then Fail
        else match PStmt(Tl(ts1), sc, fns)
          case Fail => Fail
          case Ok(t, ts2) =>
            if Hd(ts2) != ELSE then Ok(If(c, t, NoStmt), ts2)
            else match PStmt(Tl(ts2), sc, fns)
              case Fail => Fail
              case Ok(e, ts3) => Ok(If(c, t, TheStmt(e)), ts3)
  }

  function PWhile(ts: Toks, sc: seq<string>, fns: seq<string>): (r: Res<Stmt>)
    requires Hd(ts) == WHILE
    ensures Shorter(r, ts)
    decreases Len(ts), 30
  {
    if Hd(Tl(ts)) != LP then Fail
    else match PExpr(Tl(Tl(ts)), sc, fns)
      case Fail => Fail
      case Ok(c, ts1) =>
        if Hd(ts1) != RP then Fail
        else match PStmt(Tl(ts1), sc, fns) case Fail => Fail case Ok(b, ts2) => Ok(While(c, b), ts2)
  }

  /** An expression of a for header, or C_NOP if a semicolon comes at once. */
  function POpt(ts: Toks, sc: seq<string>, fns: seq<string>): (r: Res<OptExpr>)
    ensures NotLonger(r, ts)
    decreases Len(ts), 21
  {
    if Hd(ts) == SEMI then Ok(NoExpr, ts)
    else match PExpr(ts, sc, fns) case Fail => Fail case Ok(e, ts1) => Ok(TheExpr(e), ts1)
  }

  /** pforst.  The third expression is C_NOP before a semicolon too, but then the right
      parenthesis that must follow is missing. */
  function PFor(ts: Toks, sc: seq<string>, fns: seq<string>): (r: Res<Stmt>)
    requires Hd(ts) == FOR
    ensures Shorter(r, ts)
    decreases Len(ts), 30
  {
    if Hd(Tl(ts)) != LP then Fail
    else match POpt(Tl(Tl(ts)), sc, fns)
      case Fail => Fail
      case Ok(i, ts1) =>
        if Hd(ts1) == IN then
          match PExpr(Tl(ts1), sc, fns)
          case Fail => Fail
          case Ok(t, ts2) =>
            if Hd(ts2) != RP then Fail
            else match PStmt(Tl(ts2), sc, fns)
              case Fail => Fail
              case Ok(b, ts3) => if i.NoExpr? then Fail else Ok(ForIn(i.e, t, b), ts3)
        else if Hd(ts1) != SEMI then Fail
        else match POpt(Tl(ts1), sc, fns)
          case Fail => Fail
          case Ok(c, ts2) =>
            if Hd(ts2) != SEMI then Fail
            else match POpt(Tl(ts2), sc, fns)
              case Fail => Fail
              case Ok(s, ts3) =>
                if Hd(ts3) != RP then Fail
                else match PStmt(Tl(ts3), sc, fns)
                  case Fail => Fail
                  case Ok(b, ts4) => if s.NoExpr? then Fail else Ok(For(i, c, s.e, b), ts4)
  }

  /** Punit: skip semicolons, then one expression. */
  function PUnit(ts: Toks, fns: seq<string>): (r: Res<Expr>)
    decreases Len(ts)
  {
    if Hd(ts) == SEMI then PUnit(Tl(ts), fns)
    else if Hd(ts) == EOF then Fail
    else PExpr(ts, [], fns)
  }
}
