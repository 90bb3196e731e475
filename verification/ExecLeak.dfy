/** A program at which eforinst of cmd/lefty/exec.c leaves a mark behind, and its source. */
module ExecLeak {
  import opened Options
  import opened LeftySyntax
  import opened LeftyGrammar
  import opened LeftyPrint
  import opened LeftyRoundTrip
  import opened ExecState
  import opened Exec

  const KEY := Paren(Int(1))
  const VARIABLE := Var("a", None, ECons(KEY, ENil))

  /** The variable a[(1)], the number 2, and an empty body. */
  const LEAKING := ForIn(VARIABLE, Int(2), Empty)

  lemma LeakIs()
    ensures forall strict :: OkE(VARIABLE, 0, strict) && OkE(Int(2), 0, strict) && OkS(Empty, 0, true, strict)
    ensures SureKeys(VARIABLE.path) && KeyedByObject(VARIABLE.path) && Made(Int(2)) == Some(ANumber(2.0))
  {
    forall strict: bool
      ensures OkE(VARIABLE, 0, strict) && OkE(Int(2), 0, strict) && OkS(Empty, 0, true, strict)
    {
      assert OkE(KEY, 0, strict) && OkEs(ECons(KEY, ENil), 0, strict);
    }
    assert IsKey(Made(KEY)) && SureKeys(ECons(KEY, ENil));
  }

  /** What is sure to be found, and when the key is an object: x[n], x.s, x[(n)] and x[("s")], with any such index
      before the last. */
  lemma KeyForms(n: nat, s: string, e: Expr)
    requires e == Int(n) || e == Str(s) || e == Paren(Int(n)) || e == Paren(Str(s))
    ensures SureKeys(ECons(e, ENil)) && forall d, es :: SureKeys(ECons(d, es)) ==> SureKeys(ECons(e, ECons(d, es)))
    ensures KeyedByObject(ECons(e, ENil)) <==> e.Paren?
    ensures forall d, es :: KeyedByObject(ECons(e, ECons(d, es))) <==> KeyedByObject(ECons(d, es))
  {
    assert IsKey(Made(e)) by { assert Made(Int(n)).Some? && Made(Str(s)).Some?; }
    assert SureKeys(ENil);
  }

  /** It leaves one mark behind in every state, each time it is run. */
  method LeakOne(m: Machine, fuel: nat) returns (out: Out)
    requires m.Ready(0)
    modifies m
    ensures m.Good() && out.Value? && |m.st.marks| == |old(m.st).marks| + 1
  {
    hide OkE, OkS, SureKeys, KeyedByObject, Made;
    LeakIs();
    var found, tblo, ty;
    out, found, tblo, ty := m.EForIn(LEAKING, 0, fuel);
  }

  lemma KeyPrints(fns: seq<string>, k: Toks)
    ensures PrE(VARIABLE, fns, k) ==
      TCons(ID("a"), TCons(LB, TCons(LP, TCons(NUMBER(1), TCons(RP, TCons(RB, k))))))
  {
    assert PrE(KEY, fns, TCons(RB, k)) == TCons(LP, TCons(NUMBER(1), TCons(RP, TCons(RB, k))));
    assert PrPath(ENil, fns, k) == k;
    assert PrPath(ECons(KEY, ENil), fns, k) == TCons(LB, PrE(KEY, fns, TCons(RB, PrPath(ENil, fns, k))));
  }

  lemma KeyWf(fns: seq<string>)
    ensures WfS(LEAKING, [], fns) && FineS(LEAKING, true)
  {
    assert WfE(KEY, [], fns) && FineE(KEY, true);
    assert WfEs(ECons(KEY, ENil), [], fns) && FineEs(ECons(KEY, ENil), true);
    assert WfE(VARIABLE, [], fns) && FineE(VARIABLE, true);
  }

  /** The parser builds it from: for (a[(1)] in 2) ; */
  lemma LeakParses(fns: seq<string>)
    ensures var ts := TCons(FOR, TCons(LP, TCons(ID("a"), TCons(LB, TCons(LP, TCons(NUMBER(1), TCons(RP, TCons(RB,
        TCons(IN, TCons(NUMBER(2), TCons(RP, TCons(SEMI, TNil))))))))))));
      PStmt(ts, [], fns) == Ok(LEAKING, TNil)
  {
    hide PStmt, WfS, FineS;
    KeyWf(fns);
    KeyPrints(fns, TCons(IN, TCons(NUMBER(2), TCons(RP, TCons(SEMI, TNil)))));
    RtS(LEAKING, [], fns, TNil);
  }
}
