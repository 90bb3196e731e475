/** A program whose print parses back to another program: cmd/lefty/str.c leaves out the braces around
    one statement, and an else moves to another if. */
module LeftyElse {
  import opened LeftySyntax
  import opened LeftyGrammar
  import opened LeftyPrint
  import opened LeftyRoundTrip
  import opened LeftyImage

  /** if (c) { if (d) a; } else b; and then ts. */
  function Braced(c: Expr, d: Expr, a: Expr, b: Expr, fns: seq<string>, ts: Toks): Toks {
    TCons(IF, TCons(LP, PrE(c, fns, TCons(RP, TCons(LCB, PrS(If(d, Do(a), NoStmt), fns, TCons(RCB,
      TCons(ELSE, PrS(Do(b), fns, ts)))))))))
  }

  function BracedTree(c: Expr, d: Expr, a: Expr, b: Expr): Stmt {
    If(c, Block(If(d, Do(a), NoStmt), SNil), TheStmt(Do(b)))
  }

  /** The parser keeps the inner if in its block, and the else with the outer one. */
  lemma BracedParses(c: Expr, d: Expr, a: Expr, b: Expr, sc: seq<string>, fns: seq<string>, ts: Toks)
    requires WfE(c, sc, fns) && WfE(d, sc, fns) && WfE(a, sc, fns) && WfE(b, sc, fns)
    requires Plain(c) && Plain(d) && Plain(a) && Plain(b)
    ensures PStmt(Braced(c, d, a, b, fns, ts), sc, fns) == Ok(BracedTree(c, d, a, b), ts)
  {
    hide PExpr, PStmts, PStmt, PrE, PrS, PrSs, WfE, WfS, FineE, FineS, Plain, Open, Shorter;
    var k := TCons(ELSE, PrS(Do(b), fns, ts));
    var inner := If(d, Do(a), NoStmt);
    var block := TCons(LCB, PrS(inner, fns, TCons(RCB, k)));
    DoOk(b, sc, fns);
    RtS(Do(b), sc, fns, ts);
    InnerParses(d, a, sc, fns, k);
    RtE(c, sc, fns, TCons(RP, block)) by { assert Hd(TCons(RP, block)) == RP; }
    IfElse(TCons(LP, PrE(c, fns, TCons(RP, block))), c, block, Block(inner, SNil), PrS(Do(b), fns, ts), Do(b),
      ts, sc, fns);
  }

  lemma InnerParses(d: Expr, a: Expr, sc: seq<string>, fns: seq<string>, k: Toks)
    requires WfE(d, sc, fns) && WfE(a, sc, fns) && Plain(d) && Plain(a)
    ensures var inner := If(d, Do(a), NoStmt);
      PStmt(TCons(LCB, PrS(inner, fns, TCons(RCB, k))), sc, fns) == Ok(Block(inner, SNil), k)
  {
    var inner := If(d, Do(a), NoStmt);
    hide PIf, PrE, PrSs, PrS, WfE, WfS, FineE, FineS, Plain, Shorter, PStmts, PWhile, PFor, PExpr;
    DoOk(a, sc, fns);
    IfOk(d, Do(a), NoStmt, sc, fns);
    RtS(inner, sc, fns, TCons(RCB, k));
    HdS(inner, sc, fns, TCons(RCB, k));
    StmtsRule(PrS(inner, fns, TCons(RCB, k)), inner, TCons(RCB, k), sc, fns);
    NoMore(k, sc, fns);
  }

  lemma NoMore(k: Toks, sc: seq<string>, fns: seq<string>)
    ensures PStmts(TCons(RCB, k), sc, fns) == Ok(SNil, k)
  {
  }

  /** An if with an else, put together from the parse of its parts. */
  lemma IfElse(ts0: Toks, c: Expr, ts1: Toks, t: Stmt, ts2: Toks, e: Stmt, ts3: Toks, sc: seq<string>, fns: seq<string>)
    requires Hd(ts0) == LP && PExpr(Tl(ts0), sc, fns) == Ok(c, TCons(RP, ts1))
    requires PStmt(ts1, sc, fns) == Ok(t, TCons(ELSE, ts2)) && PStmt(ts2, sc, fns) == Ok(e, ts3)
    ensures PStmt(TCons(IF, ts0), sc, fns) == Ok(If(c, t, TheStmt(e)), ts3)
  {
    assert PIf(TCons(IF, ts0), sc, fns) == Ok(If(c, t, TheStmt(e)), ts3) by { hide PExpr, PStmt; }
    hide PExpr, PIf, PStmts, PWhile, PFor;
  }

  /** function () { if (c) { if (d) a; } else b; } */
  function Source(c: Expr, d: Expr, a: Expr, b: Expr, fns: seq<string>): Toks {
    TCons(FUNCTION, TCons(LP, TCons(RP, TCons(LCB, Braced(c, d, a, b, fns, TCons(RCB, TNil))))))
  }

  function SourceTree(c: Expr, d: Expr, a: Expr, b: Expr): Expr {
    Func([], Code(DNil, SCons(BracedTree(c, d, a, b), SNil)))
  }

  lemma SourceParses(c: Expr, d: Expr, a: Expr, b: Expr, fns: seq<string>)
    requires WfE(c, [], fns) && WfE(d, [], fns) && WfE(a, [], fns) && WfE(b, [], fns)
    requires Plain(c) && Plain(d) && Plain(a) && Plain(b)
    ensures PUnit(Source(c, d, a, b, fns), fns) == Ok(SourceTree(c, d, a, b), TNil)
  {
    hide PStmt, PFunc, PUnit, PrE, PrS, WfE, FineE;
    var k := TCons(RCB, TNil);
    var body := Braced(c, d, a, b, fns, k);
    BracedParses(c, d, a, b, [], fns, k);
    FuncParses(body, BracedTree(c, d, a, b), fns);
    FuncUnit(TCons(LP, TCons(RP, TCons(LCB, body))), SourceTree(c, d, a, b), fns);
  }

  /** A function without parameters and locals, and with one statement. */
  lemma FuncParses(body: Toks, s: Stmt, fns: seq<string>)
    requires Hd(body) != RCB && Hd(body) != LOCAL && PStmt(body, [], fns) == Ok(s, TCons(RCB, TNil))
    ensures PFunc(TCons(LP, TCons(RP, TCons(LCB, body))), fns) == Ok(Func([], Code(DNil, SCons(s, SNil))), TNil)
  {
    NoMore(TNil, [], fns);
    StmtsRule(body, s, TCons(RCB, TNil), [], fns);
    hide PStmt, PStmts;
    assert PLocals(body, []) == Ok(DNil, body);
    assert [] + DeclNames(DNil) == [];
  }

  /** A unit that is a function and nothing else. */
  lemma FuncUnit(ts: Toks, f: Expr, fns: seq<string>)
    requires PFunc(ts, fns) == Ok(f, TNil)
    ensures PUnit(TCons(FUNCTION, ts), fns) == Ok(f, TNil)
  {
    var t := TCons(FUNCTION, ts);
    hide PFunc, PPath, PArgs, PItems;
    assert PExp7(t, [], fns) == Ok(f, TNil);
    assert PExp6(t, [], fns) == Ok(f, TNil);
    assert PExp5(t, [], fns) == Ok(f, TNil);
    LevelsPass(t, f, fns, 5);
    ExprRule(t, f, TNil, [], fns);
  }

  lemma {:induction false} LevelsPass(t: Toks, f: Expr, fns: seq<string>, n: nat)
    requires n <= 5 && PExp5(t, [], fns) == Ok(f, TNil)
    ensures PExpI(5 - n, t, [], fns) == Ok(f, TNil)
    decreases n
  {
    if n > 0 {
      LevelsPass(t, f, fns, n - 1);
      RowRule(5 - n, f, t, TNil, [], fns);
      LoopEnds(5 - n, f, TNil, [], fns);
    } else {
      assert PExpI(5, t, [], fns) == PExp5(t, [], fns);
    }
  }

  /** The unit is accepted and can be printed, and its print parses to something else. */
  lemma PrintLost(c: Expr, d: Expr, a: Expr, b: Expr, fns: seq<string>)
    requires WfE(c, [], fns) && WfE(d, [], fns) && WfE(a, [], fns) && WfE(b, [], fns)
    requires Plain(c) && Plain(d) && Plain(a) && Plain(b)
    ensures var ts, e := Source(c, d, a, b, fns), SourceTree(c, d, a, b);
      && PUnit(ts, fns) == Ok(e, TNil) && Printable(e) && !Plain(e)
      && PUnit(PrE(e, fns, TNil), fns) != Ok(e, TNil)
  {
    SourceParses(c, d, a, b, fns);
    SourceFine(c, d, a, b);
    hide PUnit, Source, PrE, Plain, Printable;
    PrintThenParse(Source(c, d, a, b, fns), fns);
  }

  lemma SourceFine(c: Expr, d: Expr, a: Expr, b: Expr)
    requires Plain(c) && Plain(d) && Plain(a) && Plain(b)
    ensures Printable(SourceTree(c, d, a, b)) && !Plain(SourceTree(c, d, a, b))
  {
    SinglesE(c);
    SinglesE(d);
    SinglesE(a);
    SinglesE(b);
    hide BrE;
    var inner := If(d, Do(a), NoStmt);
    var block := Block(inner, SNil);
    assert FineS(Do(a), false) && FineS(Do(b), false);
    assert FineS(inner, false);
    assert FineSs(SNil, false);
    assert FineS(block, false) && !FineS(block, true);
    var s := BracedTree(c, d, a, b);
    assert FineS(s, false) && !FineS(s, true);
    assert FineSs(SCons(s, SNil), false) && !FineSs(SCons(s, SNil), true);
  }

  /** The shortest such program: function () { if (1) { if (2) 3; } else 4; } */
  lemma ShortestLost(fns: seq<string>)
    ensures var ts := TCons(FUNCTION, TCons(LP, TCons(RP, TCons(LCB, TCons(IF, TCons(LP, TCons(NUMBER(1), TCons(RP,
        TCons(LCB, TCons(IF, TCons(LP, TCons(NUMBER(2), TCons(RP, TCons(NUMBER(3), TCons(SEMI, TCons(RCB,
        TCons(ELSE, TCons(NUMBER(4), TCons(SEMI, TCons(RCB, TNil))))))))))))))))))));
      && PUnit(ts, fns).Ok? && Printable(PUnit(ts, fns).val) && !Plain(PUnit(ts, fns).val)
      && PUnit(PrE(PUnit(ts, fns).val, fns, TNil), fns) != PUnit(ts, fns)
  {
    hide PUnit, Printable, Plain, Source, SourceTree;
    PrintLost(Int(1), Int(2), Int(3), Int(4), fns) by { NumbersFine(fns); }
    ShortestIs(fns);
  }

  lemma NumbersFine(fns: seq<string>)
    ensures forall n: nat :: WfE(Int(n), [], fns) && Plain(Int(n))
  {
  }

  lemma ShortestIs(fns: seq<string>)
    ensures Source(Int(1), Int(2), Int(3), Int(4), fns) == TCons(FUNCTION, TCons(LP, TCons(RP, TCons(LCB, TCons(IF,
      TCons(LP, TCons(NUMBER(1), TCons(RP, TCons(LCB, TCons(IF, TCons(LP, TCons(NUMBER(2), TCons(RP, TCons(NUMBER(3),
      TCons(SEMI, TCons(RCB, TCons(ELSE, TCons(NUMBER(4), TCons(SEMI, TCons(RCB, TNil))))))))))))))))))))
  {
    var k := TCons(ELSE, PrS(Do(Int(4)), fns, TCons(RCB, TNil)));
    NumberPrints(4, fns, TCons(RCB, TNil));
    NumberPrints(3, fns, TCons(RCB, k));
    InnerPrints(fns, TCons(RCB, k));
    hide PrS;
    assert forall j :: PrE(Int(1), fns, j) == TCons(NUMBER(1), j);
  }

  lemma NumberPrints(n: nat, fns: seq<string>, k: Toks)
    ensures PrS(Do(Int(n)), fns, k) == TCons(NUMBER(n), TCons(SEMI, k))
  {
  }

  lemma InnerPrints(fns: seq<string>, k: Toks)
    ensures PrS(If(Int(2), Do(Int(3)), NoStmt), fns, k) ==
      TCons(IF, TCons(LP, TCons(NUMBER(2), TCons(RP, PrS(Do(Int(3)), fns, k)))))
  {
  }
}
