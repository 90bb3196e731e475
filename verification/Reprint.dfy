/** Parser, code array and printer together: a unit is parsed into cells, the cells are printed, and
    the printed tokens are parsed again (Punit, codestr, Punit). */
module Reprint {
  import opened Options
  import opened LeftySyntax
  import opened LeftyGrammar
  import opened LeftyPrint
  import opened CodeCells
  import opened CodeTrees
  import opened CodeInjective
  import opened CodeReads
  import I = LeftyImage
  import P = Parser
  import W = Writer
  import opened WriterRules

  /** The second code object is the first one, cell for cell, exactly when no block of the unit holds a
      single statement; codestr panics unless the unit is printable. */
  method Reprint(ts: Toks, fns: seq<string>)
    returns (code: Option<seq<Cell>>, printed: seq<Tok>, again: Option<seq<Cell>>)
    requires PUnit(ts, fns).Ok? ==> Printable(PUnit(ts, fns).val)
    ensures code.Some? <==> PUnit(ts, fns).Ok?
    ensures code.Some? ==> Prep(printed, TNil) == PrE(PUnit(ts, fns).val, fns, TNil)
    ensures code.Some? ==> (again == code <==> Plain(PUnit(ts, fns).val))
  {
    hide PUnit, PrE, TreeE, Emit, Reads, ReadsRow, FineE, Prep;
    printed, again := [], None;
    var reader := new P.Reader(fns, ts);
    code := reader.Unit();
    if code.None? { return; }
    var co := code.value;
    ghost var e := PUnit(ts, fns).val;
    UnitTop(co, e);
    var writer := new W.Writer(co, fns);
    writer.Expr(co[0].u.fp, e);
    printed := writer.out;
    PrepNone(PrE(e, fns, TNil));
    assert Prep(printed, TNil) == Prep([], PrE(e, fns, TNil));
    I.PrintThenParse(ts, fns);
    if !Plain(e) { I.PrintNeverBack(ts, fns); }
    var second := new P.Reader(fns, Prep(printed, TNil));
    again := second.Unit();
    if again == code { SameCode(e, PUnit(Prep(printed, TNil), fns).val); }
  }

  lemma UnitTop(co: seq<Cell>, e: Expr)
    requires Reads(co, 0, Link(C_CODE, One(TreeE(e))))
    ensures |co| > 0 && co[0].Node? && co[0].u.Fp? && Reads(co, co[0].u.fp, TreeE(e))
  {
    hide TreeE;
    SeeOne(co, 0, C_CODE, TreeE(e));
  }

  lemma PrepNone(k: Toks)
    ensures Prep([], k) == k
  {
  }
}
