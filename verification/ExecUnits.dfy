/** What the evaluator of cmd/lefty/exec.c may rely on in code that the parser made, and what it may not. */
module ExecUnits {
  import opened LeftySyntax
  import opened LeftyGrammar
  import opened LeftyPrint
  import opened LeftyRoundTrip
  import opened ExecState
  import opened Exec
  import I = LeftyImage

  lemma {:induction false} DeclCount(ds: Decls)
    ensures |DeclNames(ds)| == CountDecls(ds)
  {
    match ds
    case DNil =>
    case DCons(_, rest) => DeclCount(rest);
  }

  /** Slots found among the names in scope are slots of the running function. */
  lemma {:induction false} SlotsE(e: Expr, sc: seq<string>, fns: seq<string>)
    requires WfE(e, sc, fns)
    ensures OkE(e, |sc|, false)
    decreases e
  {
    match e
    case Assign(l, r) => SlotsE(l, sc, fns); SlotsE(r, sc, fns);
    case Bin(_, l, r) => SlotsE(l, sc, fns); SlotsE(r, sc, fns);
    case Uminus(a) => SlotsE(a, sc, fns);
    case Not(a) => SlotsE(a, sc, fns);
    case Paren(a) => SlotsE(a, sc, fns);
    case Call(f, args) => SlotsE(f, sc, fns); SlotsEs(args, sc, fns);
    case Int(_) =>
    case Str(_) =>
    case Var(_, _, path) => SlotsEs(path, sc, fns);
    case Func(_, Internal(_)) =>
    case Func(params, Code(ds, ss)) => DeclCount(ds); SlotsSs(ss, params + DeclNames(ds), fns, false);
    case Tcons(items) => SlotsItems(items, sc, fns);
  }

  lemma {:induction false} SlotsEs(es: Exprs, sc: seq<string>, fns: seq<string>)
    requires WfEs(es, sc, fns)
    ensures OkEs(es, |sc|, false)
    decreases es
  {
    if es.ECons? {
      SlotsE(es.head, sc, fns);
      SlotsEs(es.tail, sc, fns);
    }
  }

  lemma {:induction false} SlotsItems(items: Items, sc: seq<string>, fns: seq<string>)
    requires WfItems(items, sc, fns)
    ensures OkItems(items, |sc|, false)
    decreases items
  {
    if items.ICons? {
      SlotsE(items.key, sc, fns);
      SlotsE(items.val, sc, fns);
      SlotsItems(items.rest, sc, fns);
    }
  }

  lemma {:induction false} SlotsO(o: OptExpr, sc: seq<string>, fns: seq<string>)
    requires WfO(o, sc, fns)
    ensures OkO(o, |sc|, false)
    decreases o
  {
    if o.TheExpr? { SlotsE(o.e, sc, fns); }
  }

  lemma {:induction false} SlotsSs(ss: Stmts, sc: seq<string>, fns: seq<string>, loop: bool)
    requires WfSs(ss, sc, fns)
    ensures OkSs(ss, |sc|, loop, false)
    decreases ss
  {
    if ss.SCons? {
      SlotsS(ss.head, sc, fns, loop);
      SlotsSs(ss.tail, sc, fns, loop);
    }
  }

  lemma {:induction false} SlotsS(s: Stmt, sc: seq<string>, fns: seq<string>, loop: bool)
    requires WfS(s, sc, fns)
    ensures OkS(s, |sc|, loop, false)
    decreases s
  {
    match s
    case Empty =>
    case Block(s1, more) => SlotsS(s1, sc, fns, loop); SlotsSs(more, sc, fns, loop);
    case If(c, t, NoStmt) => SlotsE(c, sc, fns); SlotsS(t, sc, fns, loop);
    case If(c, t, TheStmt(e)) => SlotsE(c, sc, fns); SlotsS(t, sc, fns, loop); SlotsS(e, sc, fns, loop);
    case While(c, b) => SlotsE(c, sc, fns); SlotsS(b, sc, fns, true);
    case For(i, c, st, b) => SlotsO(i, sc, fns); SlotsO(c, sc, fns); SlotsE(st, sc, fns); SlotsS(b, sc, fns, true);
    case ForIn(v, t, b) => SlotsE(v, sc, fns); SlotsE(t, sc, fns); SlotsS(b, sc, fns, true);
    case Break =>
    case Continue =>
    case Return(o) => SlotsO(o, sc, fns);
    case Do(e) => SlotsE(e, sc, fns);
  }

  /** Whatever the parser accepts can be evaluated: each local has its slot in its own function. */
  lemma UnitRuns(ts: Toks, fns: seq<string>)
    requires PUnit(ts, fns).Ok?
    ensures OkE(PUnit(ts, fns).val, 0, false)
  {
    I.UnitWf(ts, fns);
    SlotsE(PUnit(ts, fns).val, [], fns);
  }

  // ---- a break without a loop ----

  const LEAVER := Func([], Code(DNil, SCons(Break, SNil)))

  lemma LeaverFine(fns: seq<string>)
    ensures WfE(LEAVER, [], fns) && Plain(LEAVER)
    ensures OkFunc(LEAVER, false) && !OkFunc(LEAVER, true)
  {
    assert WfSs(SCons(Break, SNil), [], fns) && FineSs(SCons(Break, SNil), true) && [] + DeclNames(DNil) == [];
    assert OkS(Break, 0, false, false) && !OkS(Break, 0, false, true);
    assert OkSs(SCons(Break, SNil), 0, false, false) && !OkSs(SCons(Break, SNil), 0, false, true);
  }

  lemma LeaverPrints(fns: seq<string>)
    ensures PrE(LEAVER, fns, TNil) ==
      TCons(FUNCTION, TCons(LP, TCons(RP, TCons(LCB, TCons(BREAK, TCons(SEMI, TCons(RCB, TNil)))))))
  {
    assert PrSs(SCons(Break, SNil), fns, TCons(RCB, TNil)) == TCons(BREAK, TCons(SEMI, TCons(RCB, TNil)));
  }

  /** The parser builds it from: function () { break; } */
  lemma LeaverParses(fns: seq<string>)
    ensures var ts := TCons(FUNCTION, TCons(LP, TCons(RP, TCons(LCB, TCons(BREAK, TCons(SEMI, TCons(RCB, TNil)))))));
      PUnit(ts, fns) == Ok(LEAVER, TNil)
  {
    hide PUnit, PExpr, WfE, FineE;
    LeaverFine(fns);
    LeaverPrints(fns);
    RtE(LEAVER, [], fns, TNil);
    I.UnitIsExpr(PrE(LEAVER, fns, TNil), fns);
  }

  /** The call of it always ends in a jump out of the function, which leaves its record, its marks and
      its frame behind. */
  method LeaverLeaves(m: Machine, k: nat, fuel: nat, ghost s: Stacks, nl: nat) returns (out: Out)
    requires m.Ready(nl) && !m.strict && Rooted(s) && Calling(s, m.st, k, nl) && |m.st.lvars| == |s.lvars|
    requires s.j1 < m.nextJump && s.j2 < m.nextJump
    modifies m
    ensures out.Gone? && Unwound(s, m.st)
  {
    hide Rooted, Calling, Unwound;
    LeaverFine([]);
    CallingMeans(s, m.st, k, nl);
    out := m.Body(LEAVER, 0, k, fuel, s, nl);
  }
}
