/** Which operators of the lefty language bind tighter, and to which side: lextab, parsetab and pexpi of
    cmd/lefty/parse.c, on written-out tokens and trees. */
module LeftyPrecedence {
  import opened Options
  import opened LeftySyntax
  import opened LeftyGrammar

  /** The operators, loosest row first, each token with its node. */
  const ROWS: seq<seq<(Tok, BinOp)>> := [
    [(OR, BOr)],
    [(AND, BAnd)],
    [(EQ, BEq), (NE, BNe), (LT, BLt), (LE, BLe), (GT, BGt), (GE, BGe)],
    [(PLUS, BPlus), (MINUS, BMinus)],
    [(MUL, BMul), (DIV, BDiv), (MOD, BMod)]
  ]

  predicate InRows(i: nat, x: nat) {
    i < |ROWS| && x < |ROWS[i]|
  }

  /** getop finds just the operators of a row, and their nodes. */
  lemma RowOf(i: nat, x: nat, k: nat)
    requires InRows(i, x)
    ensures GetOp(ROWS[i][x].0, k) == if k == i then Some(ROWS[i][x].1) else None
  {
    if
    case i == 0 => assert ROWS[i] == [(OR, BOr)];
    case i == 1 => assert ROWS[i] == [(AND, BAnd)];
    case i == 2 => assert ROWS[i] == [(EQ, BEq), (NE, BNe), (LT, BLt), (LE, BLe), (GT, BGt), (GE, BGe)];
    case i == 3 => assert ROWS[i] == [(PLUS, BPlus), (MINUS, BMinus)];
    case i == 4 => assert ROWS[i] == [(MUL, BMul), (DIV, BDiv), (MOD, BMod)];
  }

  /** Tokens that no operand goes on with, no operator among them and no assignment. */
  predicate Ends(t: Tok) {
    t == SEMI || t == RP || t == RB || t == COMMA || t == IN || t == EOF
  }

  lemma EndsRows(t: Tok, k: nat)
    requires Ends(t)
    ensures GetOp(t, k) == None && t != ASSIGN
  {
  }

  // ---- the rows, one by one ----

  /** Where no operator of the rows k to m - 1 follows, row k reads what row m reads. */
  lemma {:induction false} Down(k: nat, m: nat, ts: Toks, l: Expr, rest: Toks, sc: seq<string>, fns: seq<string>)
    requires k <= m <= 5 && PExpI(m, ts, sc, fns) == Ok(l, rest)
    requires forall j: nat :: k <= j < m ==> GetOp(Hd(rest), j) == None
    ensures PExpI(k, ts, sc, fns) == Ok(l, rest)
    decreases m - k
  {
    hide GetOp, Hd, Tl, PExp5, Len;
    if k < m {
      Down(k + 1, m, ts, l, rest, sc, fns);
      assert PLoop(k, l, rest, sc, fns) == Ok(l, rest);
    }
  }

  /** An operand of row 5 and an operator of row i: row i goes on with it in its loop. */
  lemma AtRow(i: nat, op: BinOp, ts: Toks, l: Expr, t: Tok, ts1: Toks, m: nat, sc: seq<string>, fns: seq<string>)
    requires i < m <= 5 && PExpI(m, ts, sc, fns) == Ok(l, TCons(t, ts1))
    requires forall j: nat :: GetOp(t, j) == if j == i then Some(op) else None
    ensures PExpI(i, ts, sc, fns) == PLoop(i, l, TCons(t, ts1), sc, fns)
    ensures var r := PExpI(i + 1, ts1, sc, fns);
      PLoop(i, l, TCons(t, ts1), sc, fns) == if r.Fail? then Fail else PLoop(i, Bin(op, l, r.val), r.rest, sc, fns)
  {
    hide GetOp, PExp5, Len, PLoop;
    Down(i + 1, m, ts, l, TCons(t, ts1), sc, fns);
    LoopStep(i, op, l, t, ts1, sc, fns);
  }

  lemma LoopStep(i: nat, op: BinOp, l: Expr, t: Tok, ts1: Toks, sc: seq<string>, fns: seq<string>)
    requires i < 5 && GetOp(t, i) == Some(op)
    ensures var r := PExpI(i + 1, ts1, sc, fns);
      PLoop(i, l, TCons(t, ts1), sc, fns) == if r.Fail? then Fail else PLoop(i, Bin(op, l, r.val), r.rest, sc, fns)
  {
    hide GetOp, PExpI, Len;
  }

  lemma LoopStops(i: nat, l: Expr, ts: Toks, sc: seq<string>, fns: seq<string>)
    requires i < 5 && GetOp(Hd(ts), i) == None
    ensures PLoop(i, l, ts, sc, fns) == Ok(l, ts)
  {
    hide GetOp, PExpI, Len;
  }

  lemma Operand(ts: Toks, sc: seq<string>, fns: seq<string>)
    ensures PExpI(5, ts, sc, fns) == PExp5(ts, sc, fns)
  {
    hide PExp5, Len, PLoop;
  }

  /** Two operands and an operator of row i, from row k on, where no more operators of these rows follow. */
  lemma OneOperator(i: nat, x: nat, k: nat, ts: Toks, a: Expr, ts1: Toks, b: Expr, rest: Toks,
                    sc: seq<string>, fns: seq<string>)
    requires InRows(i, x) && k <= i
    requires PExp5(ts, sc, fns) == Ok(a, TCons(ROWS[i][x].0, ts1)) && PExp5(ts1, sc, fns) == Ok(b, rest)
    requires forall j: nat :: k <= j ==> GetOp(Hd(rest), j) == None
    ensures PExpI(k, ts, sc, fns) == Ok(Bin(ROWS[i][x].1, a, b), rest)
  {
    hide GetOp, PExp5, PExpI, PLoop, ROWS, Hd;
    var (t, op) := ROWS[i][x];
    forall j: nat ensures GetOp(t, j) == if j == i then Some(op) else None { RowOf(i, x, j); }
    RowsFive();
    Operand(ts, sc, fns);
    Operand(ts1, sc, fns);
    AtRow(i, op, ts, a, t, ts1, 5, sc, fns);
    Down(i + 1, 5, ts1, b, rest, sc, fns);
    LoopStops(i, Bin(op, a, b), rest, sc, fns);
    Down(k, i, ts, Bin(op, a, b), rest, sc, fns);
  }

  lemma RowsFive()
    ensures |ROWS| == 5
  {
  }

  /** The expression `a op1 b op2 c`, for operands that pexp5 reads: an operator of a later row takes its operands
      first, and among operators of one row the one on the left does. */
  lemma TwoOperators(i: nat, x: nat, j: nat, y: nat, ts: Toks, a: Expr, ts1: Toks, b: Expr, ts2: Toks, c: Expr,
                     rest: Toks, sc: seq<string>, fns: seq<string>)
    requires InRows(i, x) && InRows(j, y) && Ends(Hd(rest))
    requires PExp5(ts, sc, fns) == Ok(a, TCons(ROWS[i][x].0, ts1))
    requires PExp5(ts1, sc, fns) == Ok(b, TCons(ROWS[j][y].0, ts2))
    requires PExp5(ts2, sc, fns) == Ok(c, rest)
    ensures var op1, op2 := ROWS[i][x].1, ROWS[j][y].1;
      PExpr(ts, sc, fns) == Ok(if i < j then Bin(op1, a, Bin(op2, b, c)) else Bin(op2, Bin(op1, a, b), c), rest)
  {
    hide GetOp, PExp5, PExpI, PLoop, ROWS, Hd, Ends, PExpr;
    var (t1, op1) := ROWS[i][x];
    var (t2, op2) := ROWS[j][y];
    RowsFive();
    forall n: nat ensures GetOp(t1, n) == if n == i then Some(op1) else None { RowOf(i, x, n); }
    forall n: nat ensures GetOp(t2, n) == if n == j then Some(op2) else None { RowOf(j, y, n); }
    forall n: nat ensures GetOp(Hd(rest), n) == None { EndsRows(Hd(rest), n); }
    HdIs(t2, ts2);
    Operand(ts, sc, fns);
    Operand(ts1, sc, fns);
    Operand(ts2, sc, fns);
    AtRow(i, op1, ts, a, t1, ts1, 5, sc, fns);
    Down(j + 1, 5, ts2, c, rest, sc, fns);
    if i < j {
      OneOperator(j, y, i + 1, ts1, b, ts2, c, rest, sc, fns);
      var e := Bin(op1, a, Bin(op2, b, c));
      LoopStops(i, e, rest, sc, fns);
      Whole(i, ts, e, rest, sc, fns);
    } else {
      Down(i + 1, 5, ts1, b, TCons(t2, ts2), sc, fns);
      var l := Bin(op1, a, b);
      var e := Bin(op2, l, c);
      if i == j {
        LoopStep(i, op2, l, t2, ts2, sc, fns);
      } else {
        LoopStops(i, l, TCons(t2, ts2), sc, fns);
        AtRow(j, op2, ts, l, t2, ts2, i, sc, fns);
      }
      LoopStops(j, e, rest, sc, fns);
      Whole(j, ts, e, rest, sc, fns);
    }
  }

  lemma HdIs(t: Tok, ts: Toks)
    ensures Hd(TCons(t, ts)) == t
  {
  }

  /** What row i reads is the whole expression, if nothing follows that belongs to it. */
  lemma Whole(i: nat, ts: Toks, e: Expr, rest: Toks, sc: seq<string>, fns: seq<string>)
    requires i <= 5 && PExpI(i, ts, sc, fns) == Ok(e, rest) && Ends(Hd(rest))
    ensures PExpr(ts, sc, fns) == Ok(e, rest)
  {
    hide PExpI, PLoop, Len;
    forall n: nat ensures GetOp(Hd(rest), n) == None { EndsRows(Hd(rest), n); }
    Down(0, i, ts, e, rest, sc, fns);
  }

  // ---- operands ----

  lemma NumberOperand(n: nat, ts: Toks, sc: seq<string>, fns: seq<string>)
    ensures PExp5(TCons(NUMBER(n), ts), sc, fns) == Ok(Int(n), ts)
  {
    hide PExpr, PItems, PFunc, PPath, PArgs, Len;
    assert PExp6(TCons(NUMBER(n), ts), sc, fns) == PExp7(TCons(NUMBER(n), ts), sc, fns);
  }

  lemma NameOperand(x: string, ts: Toks, sc: seq<string>, fns: seq<string>)
    requires Hd(ts) != DOT && Hd(ts) != LB && Hd(ts) != LP
    ensures PExp5(TCons(ID(x), ts), sc, fns) == Ok(Var(x, Find(sc, x), ENil), ts)
  {
    assert PPath(ts, sc, fns) == Ok(ENil, ts);
    hide PExpr, PItems, PFunc, PPath, PArgs, Len;
    assert PExp6(TCons(ID(x), ts), sc, fns) == PExp7(TCons(ID(x), ts), sc, fns);
  }

  lemma ParenOperand(ts: Toks, e: Expr, rest: Toks, sc: seq<string>, fns: seq<string>)
    requires PExpr(ts, sc, fns) == Ok(e, TCons(RP, rest))
    ensures PExp5(TCons(LP, ts), sc, fns) == Ok(Paren(e), rest)
  {
    hide PExpr, PItems, PFunc, PPath, PArgs, Len;
    assert PExp6(TCons(LP, ts), sc, fns) == PExp7(TCons(LP, ts), sc, fns);
  }

  /** A minus takes an operand with its own minus or not, and a not takes one with its own not only. */
  lemma PrefixOperand(ts: Toks, e: Expr, rest: Toks, sc: seq<string>, fns: seq<string>)
    requires PExp5(ts, sc, fns) == Ok(e, rest)
    ensures PExp5(TCons(MINUS, ts), sc, fns) == Ok(Uminus(e), rest)
    ensures PExp5(TCons(NOT, ts), sc, fns) == if Hd(ts) == MINUS then Fail else Ok(Not(e), rest)
  {
    hide PExp7, Len;
    if Hd(ts) == MINUS { NoMinus(ts, sc, fns); }
  }

  lemma NoMinus(ts: Toks, sc: seq<string>, fns: seq<string>)
    requires Hd(ts) == MINUS
    ensures PExp6(ts, sc, fns) == Fail
  {
    hide PExpr, PItems, PFunc, PPath, PArgs, Len;
  }

  // ---- units of written-out tokens ----

  predicate Operands(t: Tok) {
    t.NUMBER? || t.ID? || t == LP || t == MINUS || t == NOT
  }

  lemma UnitOf(ts: Toks, fns: seq<string>)
    requires Operands(Hd(ts))
    ensures PUnit(ts, fns) == PExpr(ts, [], fns)
  {
    hide PExpr, Len;
  }

  /** Three numbers and any two operators. */
  lemma Numbers(i: nat, x: nat, j: nat, y: nat, a: nat, b: nat, c: nat, fns: seq<string>)
    requires InRows(i, x) && InRows(j, y)
    ensures var (t1, op1) := ROWS[i][x];
      var (t2, op2) := ROWS[j][y];
      var e := if i < j then Bin(op1, Int(a), Bin(op2, Int(b), Int(c))) else Bin(op2, Bin(op1, Int(a), Int(b)), Int(c));
      PUnit(TCons(NUMBER(a), TCons(t1, TCons(NUMBER(b), TCons(t2, TCons(NUMBER(c), TNil))))), fns) == Ok(e, TNil)
  {
    hide PExpr, PExp5, PUnit, ROWS, Len;
    var t1, t2 := ROWS[i][x].0, ROWS[j][y].0;
    var ts2 := TCons(NUMBER(c), TNil);
    var ts1 := TCons(NUMBER(b), TCons(t2, ts2));
    NumberOperand(a, TCons(t1, ts1), [], fns);
    NumberOperand(b, TCons(t2, ts2), [], fns);
    NumberOperand(c, TNil, [], fns);
    TwoOperators(i, x, j, y, TCons(NUMBER(a), TCons(t1, ts1)), Int(a), ts1, Int(b), ts2, Int(c), TNil, [], fns);
    UnitOf(TCons(NUMBER(a), TCons(t1, ts1)), fns);
  }

  /** The parentheses of `(a op1 b) op2 c` stay in the tree, whichever operator binds tighter. */
  lemma Parens(i: nat, x: nat, j: nat, y: nat, a: nat, b: nat, c: nat, fns: seq<string>)
    requires InRows(i, x) && InRows(j, y)
    ensures var (t1, op1) := ROWS[i][x];
      var (t2, op2) := ROWS[j][y];
      PUnit(TCons(LP, TCons(NUMBER(a), TCons(t1, TCons(NUMBER(b), TCons(RP, TCons(t2, TCons(NUMBER(c), TNil))))))), fns)
        == Ok(Bin(op2, Paren(Bin(op1, Int(a), Int(b))), Int(c)), TNil)
  {
    hide PExpr, PExp5, PUnit, ROWS, Len;
    var t1, t2 := ROWS[i][x].0, ROWS[j][y].0;
    var rest := TCons(t2, TCons(NUMBER(c), TNil));
    var ts1 := TCons(NUMBER(b), TCons(RP, rest));
    var ts := TCons(NUMBER(a), TCons(t1, ts1));
    NumberOperand(a, TCons(t1, ts1), [], fns);
    NumberOperand(b, TCons(RP, rest), [], fns);
    NumberOperand(c, TNil, [], fns);
    Pair(i, x, ts, Int(a), ts1, Int(b), TCons(RP, rest), [], fns);
    ParenOperand(ts, Bin(ROWS[i][x].1, Int(a), Int(b)), rest, [], fns);
    Pair(j, y, TCons(LP, ts), Paren(Bin(ROWS[i][x].1, Int(a), Int(b))), TCons(NUMBER(c), TNil), Int(c), TNil, [], fns);
    UnitOf(TCons(LP, ts), fns);
  }

  lemma Pair(i: nat, x: nat, ts: Toks, a: Expr, ts1: Toks, b: Expr, rest: Toks, sc: seq<string>, fns: seq<string>)
    requires InRows(i, x) && Ends(Hd(rest))
    requires PExp5(ts, sc, fns) == Ok(a, TCons(ROWS[i][x].0, ts1)) && PExp5(ts1, sc, fns) == Ok(b, rest)
    ensures PExpr(ts, sc, fns) == Ok(Bin(ROWS[i][x].1, a, b), rest)
  {
    hide PExpr, PExpI, PExp5, GetOp, ROWS, Hd, Ends;
    forall n: nat ensures GetOp(Hd(rest), n) == None { EndsRows(Hd(rest), n); }
    OneOperator(i, x, 0, ts, a, ts1, b, rest, sc, fns);
    Whole(0, ts, Bin(ROWS[i][x].1, a, b), rest, sc, fns);
  }

  /** Prefix operators bind tighter than all others, on both sides of them. */
  lemma Prefixes(i: nat, x: nat, a: nat, b: nat, fns: seq<string>)
    requires InRows(i, x)
    ensures var (t, op) := ROWS[i][x];
      var ts := TCons(t, TCons(NUMBER(b), TNil));
      && PUnit(TCons(MINUS, TCons(NUMBER(a), ts)), fns) == Ok(Bin(op, Uminus(Int(a)), Int(b)), TNil)
      && PUnit(TCons(NOT, TCons(NUMBER(a), ts)), fns) == Ok(Bin(op, Not(Int(a)), Int(b)), TNil)
      && PUnit(TCons(MINUS, TCons(NOT, TCons(NUMBER(a), ts))), fns) == Ok(Bin(op, Uminus(Not(Int(a))), Int(b)), TNil)
      && PUnit(TCons(NUMBER(a), TCons(t, TCons(MINUS, TCons(NUMBER(b), TNil)))), fns)
        == Ok(Bin(op, Int(a), Uminus(Int(b))), TNil)
      && PUnit(TCons(NUMBER(a), TCons(t, TCons(NOT, TCons(NUMBER(b), TNil)))), fns)
        == Ok(Bin(op, Int(a), Not(Int(b))), TNil)
  {
    hide PExpr, PExp5, PUnit, ROWS, Len;
    var t := ROWS[i][x].0;
    var b1 := TCons(NUMBER(b), TNil);
    var a1 := TCons(NUMBER(a), TCons(t, b1));
    NumberOperand(b, TNil, [], fns);
    NumberOperand(a, TCons(t, b1), [], fns);
    PrefixOperand(b1, Int(b), TNil, [], fns);
    PrefixOperand(a1, Int(a), TCons(t, b1), [], fns);
    PrefixOperand(TCons(NOT, a1), Not(Int(a)), TCons(t, b1), [], fns);
    Pair(i, x, TCons(MINUS, a1), Uminus(Int(a)), b1, Int(b), TNil, [], fns);
    Pair(i, x, TCons(NOT, a1), Not(Int(a)), b1, Int(b), TNil, [], fns);
    Pair(i, x, TCons(MINUS, TCons(NOT, a1)), Uminus(Not(Int(a))), b1, Int(b), TNil, [], fns);
    UnitOf(TCons(MINUS, a1), fns);
    UnitOf(TCons(NOT, a1), fns);
    UnitOf(TCons(MINUS, TCons(NOT, a1)), fns);
    var m, n := TCons(MINUS, b1), TCons(NOT, b1);
    NumberOperand(a, TCons(t, m), [], fns);
    NumberOperand(a, TCons(t, n), [], fns);
    Pair(i, x, TCons(NUMBER(a), TCons(t, m)), Int(a), m, Uminus(Int(b)), TNil, [], fns);
    Pair(i, x, TCons(NUMBER(a), TCons(t, n)), Int(a), n, Not(Int(b)), TNil, [], fns);
    UnitOf(TCons(NUMBER(a), TCons(t, m)), fns);
    UnitOf(TCons(NUMBER(a), TCons(t, n)), fns);
  }

  /** Assignments are loosest of all, and the one on the right comes first. */
  lemma Assignments(i: nat, x: nat, v: string, w: string, a: nat, b: nat, fns: seq<string>)
    requires InRows(i, x)
    ensures var (t, op) := ROWS[i][x];
      && PUnit(TCons(ID(v), TCons(ASSIGN, TCons(ID(w), TCons(ASSIGN, TCons(NUMBER(a), TNil))))), fns)
        == Ok(Assign(Var(v, None, ENil), Assign(Var(w, None, ENil), Int(a))), TNil)
      && PUnit(TCons(ID(v), TCons(ASSIGN, TCons(NUMBER(a), TCons(t, TCons(NUMBER(b), TNil))))), fns)
        == Ok(Assign(Var(v, None, ENil), Bin(op, Int(a), Int(b))), TNil)
  {
    hide PExpr, PExp5, PUnit, ROWS, Len;
    var t := ROWS[i][x].0;
    var a1, b1 := TCons(NUMBER(a), TNil), TCons(NUMBER(b), TNil);
    NumberOperand(a, TNil, [], fns);
    NumberOperand(b, TNil, [], fns);
    Single(a1, Int(a), TNil, fns);
    Assigned(w, a1, Int(a), fns);
    Assigned(v, TCons(ID(w), TCons(ASSIGN, a1)), Assign(Var(w, None, ENil), Int(a)), fns);
    UnitOf(TCons(ID(v), TCons(ASSIGN, TCons(ID(w), TCons(ASSIGN, a1)))), fns);
    var ab := TCons(NUMBER(a), TCons(t, b1));
    NumberOperand(a, TCons(t, b1), [], fns);
    Pair(i, x, ab, Int(a), b1, Int(b), TNil, [], fns);
    Assigned(v, ab, Bin(ROWS[i][x].1, Int(a), Int(b)), fns);
    UnitOf(TCons(ID(v), TCons(ASSIGN, ab)), fns);
  }

  lemma Single(ts: Toks, e: Expr, rest: Toks, fns: seq<string>)
    requires PExp5(ts, [], fns) == Ok(e, rest) && Ends(Hd(rest))
    ensures PExpr(ts, [], fns) == Ok(e, rest)
  {
    hide PExpr, PExp5, Ends;
    Operand(ts, [], fns);
    Whole(5, ts, e, rest, [], fns);
  }

  lemma Assigned(v: string, ts: Toks, e: Expr, fns: seq<string>)
    requires PExpr(ts, [], fns) == Ok(e, TNil)
    ensures PExpr(TCons(ID(v), TCons(ASSIGN, ts)), [], fns) == Ok(Assign(Var(v, None, ENil), e), TNil)
  {
    var t := TCons(ASSIGN, ts);
    NameOperand(v, t, [], fns);
    Operand(TCons(ID(v), t), [], fns);
    assert forall n: nat :: GetOp(Hd(t), n) == None;
    hide PExpI, PExp5, GetOp, Len;
    Down(0, 5, TCons(ID(v), t), Var(v, None, ENil), t, [], fns);
  }
}
