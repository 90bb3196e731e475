/** Programs that the evaluator of cmd/lefty/exec.c runs: what they mean, what the evaluator gives for them, and
    their source. */
module ExecPrograms {
  import opened Options
  import opened LeftySyntax
  import opened LeftyGrammar
  import opened LeftyPrint
  import opened LeftyRoundTrip
  import opened ExecState
  import opened ExecMeaning
  import opened Exec
  import I = LeftyImage

  // ---- an argument that comes back ----

  const X := Var("x", Some(0), ENil)

  /** function (x) { return x; } */
  const IDENTITY := Func(["x"], Code(DNil, SCons(Return(TheExpr(X)), SNil)))

  lemma IdentityMeans(v: Val, fuel: nat)
    ensures MeanSs(IDENTITY.body.stmts, [v], fuel) == Back(v)
  {
    MeanOfSs(IDENTITY.body.stmts, [v], fuel);
    MeanOfS(Return(TheExpr(X)), [v], fuel);
    MeanOf(X, [v], fuel);
    hide MeanE, MeanS, MeanSs;
  }

  /** A call of a local that holds the function, with one argument. */
  lemma CallOne(fn: Expr, f: string, k: nat, arg: Expr, env: seq<Val>, fuel: nat)
    requires k < |env| && env[k] == FunVal(fn) && fn.Func? && |fn.params| == 1 && fn.body.Code? && fuel > 0
    ensures var r := MeanE(arg, env, fuel);
      MeanE(Call(Var(f, Some(k), ENil), ECons(arg, ENil)), env, fuel) ==
        if r.Unclear? then Unclear
        else if r.v.NullVal? then Gives(NullVal, r.env)
        else MeanReturn(MeanSs(fn.body.stmts, Locals([r.v], fn.body.locals), fuel - 1), r.env)
  {
    var r := MeanE(arg, env, fuel);
    MeanOfCall(Var(f, Some(k), ENil), ECons(arg, ENil), env, fuel);
    MeanOfArgs(ECons(arg, ENil), 1, env, fuel);
    if r.Gives? {
      MeanOfArgs(ENil, 0, r.env, fuel);
      assert [r.v] + [] == [r.v];
    }
    hide MeanE, MeanSs, MeanArgs, Locals;
  }

  lemma NoLocals(vs: seq<Val>)
    ensures Locals(vs, DNil) == vs
  {
    assert Nulls(CountDecls(DNil)) == [];
  }

  /** Called with a constant, it returns an object that holds this constant. */
  method Identity(m: Machine, k: nat, arg: Expr, nl: nat, fuel: nat) returns (out: Out)
    requires m.Ready(nl) && k < nl && ObjectOf(m.st, m.st.lvars[m.st.flvari + k].o) == Some(ACode(IDENTITY))
    requires Made(arg).Some? && OkE(arg, nl, m.strict) && fuel > 0
    modifies m
    ensures m.Good() && out.Value? && out.v.At? && ObjectOf(m.st, out.v) == Made(arg)
    ensures Balanced(old(m.st), m.st, nl)
  {
    var e := Call(Var("f", Some(k), ENil), ECons(arg, ENil));
    ghost var env := Env(m.st, nl);
    assert OkE(e, nl, m.strict) by {
      assert OkEs(ENil, nl, m.strict);
      assert OkEs(ECons(arg, ENil), nl, m.strict);
    }
    CallOne(IDENTITY, "f", k, arg, env, fuel);
    MadeMeans(arg, env, fuel);
    ghost var v := MeanE(arg, env, fuel).v;
    NoLocals([v]);
    IdentityMeans(v, fuel - 1);
    hide MeanE, MeanSs, Made, OkE, Env, ValOf, Balanced, Rooted, Locals, OkFunc;
    out := m.EEval(e, nl, fuel);
    MadeObject(arg, m.st, out.v, env, fuel);
  }

  // ---- recursion ----

  const SELF := Var("self", Some(0), ENil)
  const N := Var("n", Some(1), ENil)
  const STEP := Call(SELF, ECons(SELF, ECons(Bin(BMinus, N, Int(1)), ENil)))
  const BASE := If(Bin(BEq, N, Int(0)), Return(TheExpr(Int(1))), NoStmt)
  const NEXT := Return(TheExpr(Bin(BMul, N, STEP)))

  /** function (self, n) { if (n == 0) return 1; return n * self (self, n - 1); } */
  const FACT := Func(["self", "n"], Code(DNil, SCons(BASE, SCons(NEXT, SNil))))

  function Factorial(n: nat): nat {
    if n == 0 then 1 else n * Factorial(n - 1)
  }

  function FactEnv(n: nat): seq<Val> {
    [FunVal(FACT), NumVal(n as real)]
  }

  lemma BaseMeans(n: nat, fuel: nat)
    ensures MeanS(BASE, FactEnv(n), fuel) == if n == 0 then Back(NumVal(1.0)) else On(FactEnv(n))
  {
    var env, c := FactEnv(n), Bin(BEq, N, Int(0));
    MeanOf(c, env, fuel);
    MeanOf(N, env, fuel);
    MeanOf(Int(0), env, fuel);
    MeanOf(Int(1), env, fuel);
    MeanOfS(BASE, env, fuel);
    MeanOfS(Return(TheExpr(Int(1))), env, fuel);
    hide MeanE, MeanS, FACT;
  }

  /** The call in the body, with one number less. */
  lemma StepMeans(n: nat, fuel: nat)
    requires n > 0 && fuel > 0
    ensures MeanE(STEP, FactEnv(n), fuel) == MeanReturn(MeanSs(FACT.body.stmts, FactEnv(n - 1), fuel - 1), FactEnv(n))
  {
    var env, less := FactEnv(n), Bin(BMinus, N, Int(1));
    MeanOf(less, env, fuel);
    MeanOf(N, env, fuel);
    MeanOf(Int(1), env, fuel);
    assert MeanE(less, env, fuel) == Gives(NumVal((n - 1) as real), env) by { hide MeanE; }
    CallTwo(FACT, SELF, SELF, less, env, fuel) by { MeanOf(SELF, env, fuel); hide MeanE; }
    NoLocals(FactEnv(n - 1));
    hide MeanE, MeanSs;
  }

  /** A call of a local that holds the function, with two arguments that change no local. */
  lemma CallTwo(fn: Expr, f: Expr, a: Expr, b: Expr, env: seq<Val>, fuel: nat)
    requires fn.Func? && |fn.params| == 2 && fn.body.Code? && fuel > 0
    requires f.Var? && MeanVar(f, env) == Gives(FunVal(fn), env)
    requires MeanE(a, env, fuel).Gives? && MeanE(a, env, fuel).env == env && !MeanE(a, env, fuel).v.NullVal?
    requires MeanE(b, env, fuel).Gives? && MeanE(b, env, fuel).env == env && !MeanE(b, env, fuel).v.NullVal?
    ensures var vs := [MeanE(a, env, fuel).v, MeanE(b, env, fuel).v];
      MeanE(Call(f, ECons(a, ECons(b, ENil))), env, fuel) ==
        MeanReturn(MeanSs(fn.body.stmts, Locals(vs, fn.body.locals), fuel - 1), env)
  {
    var u, v := MeanE(a, env, fuel).v, MeanE(b, env, fuel).v;
    MeanOfCall(f, ECons(a, ECons(b, ENil)), env, fuel);
    MeanOfArgs(ECons(a, ECons(b, ENil)), 2, env, fuel);
    MeanOfArgs(ECons(b, ENil), 1, env, fuel);
    MeanOfArgs(ENil, 0, env, fuel);
    assert [v] + [] == [v] && [u] + [v] == [u, v];
    hide MeanE, MeanSs, MeanArgs, Locals, MeanVar;
  }

  lemma NextMeans(n: nat, x: real, fuel: nat)
    requires MeanE(STEP, FactEnv(n), fuel) == Gives(NumVal(x), FactEnv(n))
    ensures MeanS(NEXT, FactEnv(n), fuel) == Back(NumVal(Times(n as real, x)))
  {
    var env := FactEnv(n);
    MeanOfS(NEXT, env, fuel);
    MeanOf(Bin(BMul, N, STEP), env, fuel);
    MeanOf(N, env, fuel);
    hide MeanE, MeanS, STEP, Times;
  }

  lemma BodyMeans(n: nat, fuel: nat)
    ensures MeanSs(FACT.body.stmts, FactEnv(n), fuel) ==
      if n == 0 then Back(NumVal(1.0))
      else
        var f := MeanS(NEXT, FactEnv(n), fuel);
        if f.On? then MeanSs(SNil, f.env, fuel) else f
  {
    BaseMeans(n, fuel);
    MeanOfSs(FACT.body.stmts, FactEnv(n), fuel);
    MeanOfSs(SCons(NEXT, SNil), FactEnv(n), fuel);
    hide MeanS, MeanSs, NEXT, BASE;
  }

  /** The body means n!, whatever n is, if the bound on the depth of calls allows it. */
  lemma {:induction false} FactMeans(n: nat, fuel: nat)
    requires fuel >= n
    ensures MeanSs(FACT.body.stmts, FactEnv(n), fuel) == Back(NumVal(Factorial(n) as real))
    decreases n
  {
    hide MeanE, MeanS, MeanSs, STEP, NEXT, FACT, FactEnv, Times;
    BodyMeans(n, fuel);
    if n > 0 {
      StepMeans(n, fuel);
      FactMeans(n - 1, fuel - 1);
      NextMeans(n, Factorial(n - 1) as real, fuel);
      Product(n);
    }
  }

  lemma Product(n: nat)
    requires n > 0
    ensures Times(n as real, Factorial(n - 1) as real) == Factorial(n) as real
  {
    Products(n, Factorial(n - 1));
  }

  lemma Products(a: nat, b: nat)
    ensures (a as real) * (b as real) == (a * b) as real
  {
  }

  /** The evaluator gives n! for a call of a local that holds the function. */
  method RunFactorial(m: Machine, k: nat, n: nat, nl: nat, fuel: nat) returns (out: Out)
    requires m.Ready(nl) && k < nl && ObjectOf(m.st, m.st.lvars[m.st.flvari + k].o) == Some(ACode(FACT)) && fuel > n
    modifies m
    ensures m.Good() && out.Value? && ObjectOf(m.st, out.v) == Some(ANumber(Factorial(n) as real))
    ensures Balanced(old(m.st), m.st, nl)
  {
    var f := Var("f", Some(k), ENil);
    var e := Call(f, ECons(f, ECons(Int(n), ENil)));
    ghost var env := Env(m.st, nl);
    CallOk(f, n, nl, m.strict);
    CallFact(f, n, env, fuel);
    hide MeanE, MeanSs, OkE, Env, Balanced, Rooted, Locals, OkFunc, FACT, Factorial;
    out := m.EEval(e, nl, fuel);
  }

  lemma CallOk(f: Expr, n: nat, nl: nat, strict: bool)
    requires OkE(f, nl, strict)
    ensures OkE(Call(f, ECons(f, ECons(Int(n), ENil))), nl, strict)
  {
    assert OkE(Int(n), nl, strict) && OkEs(ENil, nl, strict);
    assert OkEs(ECons(Int(n), ENil), nl, strict);
    assert OkEs(ECons(f, ECons(Int(n), ENil)), nl, strict);
  }

  lemma CallFact(f: Expr, n: nat, env: seq<Val>, fuel: nat)
    requires f.Var? && MeanVar(f, env) == Gives(FunVal(FACT), env) && fuel > n
    ensures MeanE(Call(f, ECons(f, ECons(Int(n), ENil))), env, fuel) == Gives(NumVal(Factorial(n) as real), env)
  {
    MeanOf(f, env, fuel);
    MeanOf(Int(n), env, fuel);
    hide MeanE, MeanSs, MeanVar;
    CallTwo(FACT, f, f, Int(n), env, fuel);
    NoLocals(FactEnv(n));
    FactMeans(n, fuel - 1);
  }

  // ---- its source ----

  const NAMES := ["self", "n"]

  lemma Slots()
    ensures Find(NAMES, "self") == Some(0) && Find(NAMES, "n") == Some(1)
  {
    assert NAMES[1..] == ["n"] && ["n"][0] == "n" && "self" != "n";
  }

  predicate Fits(e: Expr, fns: seq<string>) {
    WfE(e, NAMES, fns) && FineE(e, true)
  }

  lemma NamesWf(fns: seq<string>)
    ensures Fits(N, fns) && Fits(SELF, fns)
  {
    Slots();
  }

  lemma StepWf(fns: seq<string>)
    ensures Fits(STEP, fns)
  {
    NamesWf(fns);
    var less := Bin(BMinus, N, Int(1));
    assert Fits(Int(1), fns);
    assert Fits(less, fns);
    assert WfEs(ENil, NAMES, fns) && FineEs(ENil, true);
    assert WfEs(ECons(less, ENil), NAMES, fns) && FineEs(ECons(less, ENil), true) by { hide WfE, FineE; }
    assert WfEs(STEP.args, NAMES, fns) && FineEs(STEP.args, true) by { hide WfE, FineE; }
    hide WfEs, FineEs;
  }

  lemma NextWf(fns: seq<string>)
    ensures WfS(NEXT, NAMES, fns) && FineS(NEXT, true)
  {
    NamesWf(fns);
    StepWf(fns);
    assert Fits(Bin(BMul, N, STEP), fns);
    hide WfE, FineE;
    assert WfO(TheExpr(Bin(BMul, N, STEP)), NAMES, fns) && FineO(TheExpr(Bin(BMul, N, STEP)), true);
  }

  lemma BaseWf(fns: seq<string>)
    ensures WfS(BASE, NAMES, fns) && FineS(BASE, true)
  {
    NamesWf(fns);
    assert Fits(Int(0), fns) && Fits(Int(1), fns);
    assert Fits(Bin(BEq, N, Int(0)), fns);
    hide WfE, FineE;
    assert WfS(Return(TheExpr(Int(1))), NAMES, fns) && FineS(Return(TheExpr(Int(1))), true);
  }

  lemma FactWf(fns: seq<string>)
    ensures WfE(FACT, [], fns) && Plain(FACT)
  {
    NextWf(fns);
    BaseWf(fns);
    hide WfS, FineS;
    assert WfSs(SNil, NAMES, fns) && FineSs(SNil, true);
    assert WfSs(SCons(NEXT, SNil), NAMES, fns) && FineSs(SCons(NEXT, SNil), true);
    assert WfSs(FACT.body.stmts, NAMES, fns) && FineSs(FACT.body.stmts, true);
    assert NAMES[1..] == ["n"] && ["n"][1..] == [] && [] + ["self"] == ["self"] && "n" !in ["self"];
    assert NewNames(["n"], ["self"]) && NewNames(NAMES, []);
    assert NAMES + DeclNames(DNil) == NAMES;
  }

  lemma StepPrints(fns: seq<string>, k: Toks)
    ensures PrE(STEP, fns, k) == TCons(ID("self"), TCons(LP, TCons(ID("self"), TCons(COMMA,
      TCons(ID("n"), TCons(MINUS, TCons(NUMBER(1), TCons(RP, k))))))))
  {
    var less := Bin(BMinus, N, Int(1));
    NamePrints("n", 1, fns, TCons(MINUS, TCons(NUMBER(1), TCons(RP, k))));
    assert PrE(less, fns, TCons(RP, k)) == TCons(ID("n"), TCons(MINUS, TCons(NUMBER(1), TCons(RP, k))));
    NamePrints("self", 0, fns, TCons(COMMA, PrE(less, fns, TCons(RP, k))));
    assert PrArgs(ECons(less, ENil), fns, TCons(RP, k)) == PrE(less, fns, TCons(RP, k));
    assert PrArgs(STEP.args, fns, TCons(RP, k)) == PrE(SELF, fns, TCons(COMMA, PrE(less, fns, TCons(RP, k))));
    NamePrints("self", 0, fns, TCons(LP, PrArgs(STEP.args, fns, TCons(RP, k))));
  }

  lemma NamePrints(x: string, i: nat, fns: seq<string>, k: Toks)
    ensures PrE(Var(x, Some(i), ENil), fns, k) == TCons(ID(x), k)
  {
    assert PrPath(ENil, fns, k) == k;
  }

  lemma BasePrints(fns: seq<string>, k: Toks)
    ensures PrS(BASE, fns, k) == TCons(IF, TCons(LP, TCons(ID("n"), TCons(EQ, TCons(NUMBER(0), TCons(RP,
      TCons(RETURN, TCons(NUMBER(1), TCons(SEMI, k)))))))))
  {
    var k1 := TCons(RETURN, TCons(NUMBER(1), TCons(SEMI, k)));
    assert PrOpt(TheExpr(Int(1)), fns, TCons(SEMI, k)) == TCons(NUMBER(1), TCons(SEMI, k));
    assert PrS(Return(TheExpr(Int(1))), fns, k) == k1;
    NamePrints("n", 1, fns, TCons(EQ, TCons(NUMBER(0), TCons(RP, k1))));
    assert PrE(Bin(BEq, N, Int(0)), fns, TCons(RP, k1)) == TCons(ID("n"), TCons(EQ, TCons(NUMBER(0), TCons(RP, k1))));
  }

  lemma NextPrints(fns: seq<string>, k: Toks)
    ensures PrS(NEXT, fns, k) == TCons(RETURN, TCons(ID("n"), TCons(MUL, PrE(STEP, fns, TCons(SEMI, k)))))
  {
    NamePrints("n", 1, fns, TCons(MUL, PrE(STEP, fns, TCons(SEMI, k))));
    hide STEP;
    assert PrE(Bin(BMul, N, STEP), fns, TCons(SEMI, k)) == TCons(ID("n"), TCons(MUL, PrE(STEP, fns, TCons(SEMI, k))));
  }

  lemma HeadPrints(ss: Stmts, fns: seq<string>)
    ensures PrE(Func(NAMES, Code(DNil, ss)), fns, TNil) == TCons(FUNCTION, TCons(LP, TCons(ID("self"), TCons(COMMA,
      TCons(ID("n"), TCons(RP, TCons(LCB, PrSs(ss, fns, TCons(RCB, TNil)))))))))
  {
    hide PrSs;
    var k := TCons(RP, TCons(LCB, PrSs(ss, fns, TCons(RCB, TNil))));
    assert NAMES[1..] == ["n"] && PrNames(["n"], k) == TCons(ID("n"), k);
    assert PrDecls(DNil, PrSs(ss, fns, TCons(RCB, TNil))) == PrSs(ss, fns, TCons(RCB, TNil));
  }

  /** The parser builds it from: function (self, n) { if (n == 0) return 1; return n * self (self, n - 1); } */
  lemma FactParses(fns: seq<string>)
    ensures var ts := TCons(FUNCTION, TCons(LP, TCons(ID("self"), TCons(COMMA, TCons(ID("n"), TCons(RP, TCons(LCB,
        TCons(IF, TCons(LP, TCons(ID("n"), TCons(EQ, TCons(NUMBER(0), TCons(RP, TCons(RETURN, TCons(NUMBER(1),
        TCons(SEMI, TCons(RETURN, TCons(ID("n"), TCons(MUL, TCons(ID("self"), TCons(LP, TCons(ID("self"), TCons(COMMA,
        TCons(ID("n"), TCons(MINUS, TCons(NUMBER(1), TCons(RP, TCons(SEMI, TCons(RCB, TNil)
        ))))))))))))))))))))))))))));
      PUnit(ts, fns) == Ok(FACT, TNil)
  {
    hide PUnit, PExpr, WfE, FineE, BASE, NEXT, STEP;
    FactWf(fns);
    var k := TCons(RCB, TNil);
    StepPrints(fns, TCons(SEMI, k));
    NextPrints(fns, k);
    BasePrints(fns, PrS(NEXT, fns, k));
    HeadPrints(FACT.body.stmts, fns);
    TwoPrint(BASE, NEXT, fns, k);
    RtE(FACT, [], fns, TNil);
    I.UnitIsExpr(PrE(FACT, fns, TNil), fns);
  }

  lemma TwoPrint(s: Stmt, t: Stmt, fns: seq<string>, k: Toks)
    ensures PrSs(SCons(s, SCons(t, SNil)), fns, k) == PrS(s, fns, PrS(t, fns, k))
  {
    hide PrS;
    assert PrSs(SCons(t, SNil), fns, k) == PrS(t, fns, k);
  }

  // ---- a loop ----

  const LIMIT := Var("n", Some(0), ENil)
  const SUM := Var("s", Some(1), ENil)
  const COUNTDOWN := Do(Assign(LIMIT, Bin(BMinus, LIMIT, Int(1))))
  const ADDING := Block(Do(Assign(SUM, Bin(BPlus, SUM, LIMIT))), SCons(COUNTDOWN, SNil))
  const ROUNDS := While(Bin(BGt, LIMIT, Int(0)), ADDING)

  /** function (n) { local s; s = 0; while (n > 0) { s = s + n; n = n - 1; } return s; } */
  const TOTAL := Func(["n"], Code(DCons(["s"], DNil),
    SCons(Do(Assign(SUM, Int(0))), SCons(ROUNDS, SCons(Return(TheExpr(SUM)), SNil)))))

  function SumEnv(n: nat, s: nat): seq<Val> {
    [NumVal(n as real), NumVal(s as real)]
  }

  lemma SumMeans(n: nat, s: nat, fuel: nat)
    ensures MeanS(Do(Assign(SUM, Bin(BPlus, SUM, LIMIT))), SumEnv(n, s), fuel) == On(SumEnv(n, s + n))
  {
    var env, sum := SumEnv(n, s), Bin(BPlus, SUM, LIMIT);
    MeanOfS(Do(Assign(SUM, sum)), env, fuel);
    MeanOf(Assign(SUM, sum), env, fuel);
    MeanOf(sum, env, fuel);
    MeanOf(SUM, env, fuel);
    MeanOf(LIMIT, env, fuel);
    hide MeanE, MeanS;
    assert MeanE(sum, env, fuel) == Gives(NumVal((s + n) as real), env);
    assert env[1 := NumVal((s + n) as real)] == SumEnv(n, s + n);
  }

  lemma CountdownMeans(n: nat, s: nat, fuel: nat)
    requires n > 0
    ensures MeanS(COUNTDOWN, SumEnv(n, s), fuel) == On(SumEnv(n - 1, s))
  {
    var env, less := SumEnv(n, s), Bin(BMinus, LIMIT, Int(1));
    MeanOfS(COUNTDOWN, env, fuel);
    MeanOf(Assign(LIMIT, less), env, fuel);
    MeanOf(less, env, fuel);
    MeanOf(LIMIT, env, fuel);
    MeanOf(Int(1), env, fuel);
    hide MeanE, MeanS;
    assert MeanE(less, env, fuel) == Gives(NumVal((n - 1) as real), env);
    assert env[0 := NumVal((n - 1) as real)] == SumEnv(n - 1, s);
  }

  /** Each round adds the number and counts it down. */
  lemma AddingMeans(n: nat, s: nat, fuel: nat)
    requires n > 0
    ensures MeanS(ADDING, SumEnv(n, s), fuel) == On(SumEnv(n - 1, s + n))
  {
    MeanOfS(ADDING, SumEnv(n, s), fuel);
    MeanOfSs(SCons(COUNTDOWN, SNil), SumEnv(n, s + n), fuel);
    MeanOfSs(SNil, SumEnv(n - 1, s + n), fuel);
    hide MeanS, MeanSs, SumEnv, COUNTDOWN;
    SumMeans(n, s, fuel);
    CountdownMeans(n, s + n, fuel);
  }

  lemma LimitMeans(n: nat, s: nat, fuel: nat)
    ensures MeanTest(MeanE(Bin(BGt, LIMIT, Int(0)), SumEnv(n, s), fuel)) ==
      if n > 0 then Yes(SumEnv(n, s)) else No(SumEnv(n, s))
  {
    MeanOf(Bin(BGt, LIMIT, Int(0)), SumEnv(n, s), fuel);
    MeanOf(LIMIT, SumEnv(n, s), fuel);
    MeanOf(Int(0), SumEnv(n, s), fuel);
    hide MeanE;
  }

  /** The sum of the numbers up to n. */
  function Triangle(n: nat): nat {
    n * (n + 1) / 2
  }

  lemma TriangleGrows(n: nat)
    ensures Triangle(0) == 0 && (n > 0 ==> Triangle(n) == n + Triangle(n - 1))
  {
  }

  lemma {:induction false} RoundsMean(n: nat, s: nat, rounds: nat, fuel: nat)
    requires rounds > n
    ensures MeanLoop(ROUNDS, SumEnv(n, s), rounds, fuel) == On(SumEnv(0, s + Triangle(n)))
    decreases n
  {
    hide MeanE, MeanS, MeanLoop, SumEnv, Triangle;
    TriangleGrows(n);
    LimitMeans(n, s, fuel);
    MeanOfLoop(ROUNDS, SumEnv(n, s), rounds, fuel);
    if n > 0 {
      AddingMeans(n, s, fuel);
      RoundsMean(n - 1, s + n, rounds - 1, fuel);
    }
  }

  lemma StartMeans(n: nat, fuel: nat)
    ensures MeanS(Do(Assign(SUM, Int(0))), Locals([NumVal(n as real)], TOTAL.body.locals), fuel) == On(SumEnv(n, 0))
  {
    var env := Locals([NumVal(n as real)], TOTAL.body.locals);
    assert CountDecls(DNil) == 0 && CountDecls(TOTAL.body.locals) == 1 && env == [NumVal(n as real), NullVal];
    MeanOfS(Do(Assign(SUM, Int(0))), env, fuel);
    MeanOf(Assign(SUM, Int(0)), env, fuel);
    MeanOf(Int(0), env, fuel);
    hide MeanE, MeanS;
    assert env[1 := NumVal(0.0)] == SumEnv(n, 0);
  }

  lemma EndMeans(n: nat, s: nat, fuel: nat)
    ensures MeanSs(SCons(Return(TheExpr(SUM)), SNil), SumEnv(n, s), fuel) == Back(NumVal(s as real))
  {
    MeanOfSs(SCons(Return(TheExpr(SUM)), SNil), SumEnv(n, s), fuel);
    MeanOfS(Return(TheExpr(SUM)), SumEnv(n, s), fuel);
    MeanOf(SUM, SumEnv(n, s), fuel);
    hide MeanE, MeanS, MeanSs;
  }

  /** The function gives the sum of the numbers up to n: the bound has to allow a round for each. */
  lemma TotalMeans(n: nat, fuel: nat)
    requires fuel > n
    ensures MeanSs(TOTAL.body.stmts, Locals([NumVal(n as real)], TOTAL.body.locals), fuel)
      == Back(NumVal(Triangle(n) as real))
  {
    hide MeanE, MeanS, MeanSs, MeanLoop, Locals, ROUNDS, SumEnv, Triangle;
    var rest := SCons(Return(TheExpr(SUM)), SNil);
    StartMeans(n, fuel);
    RoundsMean(n, 0, fuel, fuel);
    EndMeans(0, Triangle(n), fuel);
    MeanOfSs(TOTAL.body.stmts, Locals([NumVal(n as real)], TOTAL.body.locals), fuel);
    MeanOfSs(SCons(ROUNDS, rest), SumEnv(n, 0), fuel);
    WhileMeans(SumEnv(n, 0), fuel);
  }

  lemma WhileMeans(env: seq<Val>, fuel: nat)
    ensures MeanS(ROUNDS, env, fuel) == MeanLoop(ROUNDS, env, fuel, fuel)
  {
    MeanOfS(ROUNDS, env, fuel);
    hide MeanS, MeanLoop;
  }

  // ---- operators and jumps on written-out programs ----

  function Flag(b: bool): Val {
    NumVal(if b then 1.0 else 0.0)
  }

  lemma BothMean(op: BinOp, a: Expr, b: Expr, u: Val, v: Val, env: seq<Val>, fuel: nat)
    requires MeanE(a, env, fuel) == Gives(u, env) && MeanE(b, env, fuel) == Gives(v, env)
    ensures MeanE(Bin(op, a, b), env, fuel) == MeanBin(op, Gives(u, env), Gives(v, env))
  {
    MeanOf(Bin(op, a, b), env, fuel);
    hide MeanE, MeanBin;
  }

  lemma IntsMean(op: BinOp, a: nat, b: nat, env: seq<Val>, fuel: nat)
    ensures MeanE(Bin(op, Int(a), Int(b)), env, fuel) ==
      MeanBin(op, Gives(NumVal(a as real), env), Gives(NumVal(b as real), env))
  {
    MeanOf(Int(a), env, fuel);
    MeanOf(Int(b), env, fuel);
    hide MeanE, MeanBin;
    BothMean(op, Int(a), Int(b), NumVal(a as real), NumVal(b as real), env, fuel);
  }

  lemma TruncInt(a: nat)
    ensures Trunc(a as real) == a
  {
  }

  /** The arithmetic operators on two numbers of the source. */
  lemma SumsMean(a: nat, b: nat, env: seq<Val>, fuel: nat)
    ensures MeanE(Bin(BPlus, Int(a), Int(b)), env, fuel) == Gives(NumVal((a + b) as real), env)
    ensures MeanE(Bin(BMinus, Int(a), Int(b)), env, fuel) == Gives(NumVal((a - b) as real), env)
    ensures MeanE(Bin(BMul, Int(a), Int(b)), env, fuel) == Gives(NumVal((a * b) as real), env)
    ensures b != 0 ==> MeanE(Bin(BDiv, Int(a), Int(b)), env, fuel) == Gives(NumVal((a as real) / (b as real)), env)
    ensures b != 0 ==> MeanE(Bin(BMod, Int(a), Int(b)), env, fuel) == Gives(NumVal((a % b) as real), env)
    ensures MeanE(Uminus(Int(a)), env, fuel) == Gives(NumVal(-(a as real)), env)
  {
    var u, v := NumVal(a as real), NumVal(b as real);
    MeanOf(Int(a), env, fuel);
    MeanOf(Uminus(Int(a)), env, fuel);
    ProductMean(a, b);
    assert Arith(u, BPlus, v) == Some(NumVal((a + b) as real)) && Arith(u, BMinus, v) == Some(NumVal((a - b) as real));
    hide MeanE, MeanBin, Arith;
    SumMean(BPlus, a, b, env, fuel);
    SumMean(BMinus, a, b, env, fuel);
    SumMean(BMul, a, b, env, fuel);
    SumMean(BDiv, a, b, env, fuel);
    SumMean(BMod, a, b, env, fuel);
  }

  lemma ProductMean(a: nat, b: nat)
    ensures Arith(NumVal(a as real), BMul, NumVal(b as real)) == Some(NumVal((a * b) as real))
    ensures b != 0 ==> Arith(NumVal(a as real), BMod, NumVal(b as real)) == Some(NumVal((a % b) as real))
    ensures b != 0 ==> Arith(NumVal(a as real), BDiv, NumVal(b as real)) == Some(NumVal((a as real) / (b as real)))
  {
    Products(a, b);
    TruncInt(a);
    TruncInt(b);
    hide Trunc;
  }

  lemma SumMean(op: BinOp, a: nat, b: nat, env: seq<Val>, fuel: nat)
    requires IsArith(op)
    ensures var r := Arith(NumVal(a as real), op, NumVal(b as real));
      MeanE(Bin(op, Int(a), Int(b)), env, fuel) == if r.None? then Unclear else Gives(r.value, env)
  {
    IntsMean(op, a, b, env, fuel);
    ArithMeans(op, Gives(NumVal(a as real), env), Gives(NumVal(b as real), env));
    hide MeanE, MeanBin, Arith;
  }

  /** The comparisons. */
  lemma OrdersMean(a: nat, b: nat, env: seq<Val>, fuel: nat)
    ensures MeanE(Bin(BEq, Int(a), Int(b)), env, fuel) == Gives(Flag(a == b), env)
    ensures MeanE(Bin(BNe, Int(a), Int(b)), env, fuel) == Gives(Flag(a != b), env)
    ensures MeanE(Bin(BLt, Int(a), Int(b)), env, fuel) == Gives(Flag(a < b), env)
    ensures MeanE(Bin(BLe, Int(a), Int(b)), env, fuel) == Gives(Flag(a <= b), env)
    ensures MeanE(Bin(BGt, Int(a), Int(b)), env, fuel) == Gives(Flag(a > b), env)
    ensures MeanE(Bin(BGe, Int(a), Int(b)), env, fuel) == Gives(Flag(a >= b), env)
  {
    hide MeanE, MeanBin, BoolVal;
    OrderMean(BEq, a, b, env, fuel);
    OrderMean(BNe, a, b, env, fuel);
    OrderMean(BLt, a, b, env, fuel);
    OrderMean(BLe, a, b, env, fuel);
    OrderMean(BGt, a, b, env, fuel);
    OrderMean(BGe, a, b, env, fuel);
  }

  lemma OrderMean(op: BinOp, a: nat, b: nat, env: seq<Val>, fuel: nat)
    requires op != BOr && op != BAnd && !IsArith(op)
    ensures MeanE(Bin(op, Int(a), Int(b)), env, fuel) == Gives(Flag(Compared(a < b, a == b, op)), env)
  {
    IntsMean(op, a, b, env, fuel);
    CompareMeans(op, Gives(NumVal(a as real), env), Gives(NumVal(b as real), env));
    hide MeanE, MeanBin;
  }

  /** The logical operators. */
  lemma LogicMeans(a: nat, b: nat, env: seq<Val>, fuel: nat)
    ensures MeanE(Bin(BOr, Int(a), Int(b)), env, fuel) == Gives(Flag(a != 0 || b != 0), env)
    ensures MeanE(Bin(BAnd, Int(a), Int(b)), env, fuel) == Gives(Flag(a != 0 && b != 0), env)
    ensures MeanE(Not(Int(a)), env, fuel) == Gives(Flag(a == 0), env)
  {
    MeanOf(Int(a), env, fuel);
    MeanOf(Not(Int(a)), env, fuel);
    IntsMean(BOr, a, b, env, fuel);
    IntsMean(BAnd, a, b, env, fuel);
    hide MeanE;
  }

  /** Strings are equal or not, and a string and a number are neither. */
  lemma StringsMean(s: string, t: string, n: nat, env: seq<Val>, fuel: nat)
    ensures MeanE(Bin(BEq, Str(s), Str(t)), env, fuel) == Gives(Flag(s == t), env)
    ensures MeanE(Bin(BNe, Str(s), Str(t)), env, fuel) == Gives(Flag(s != t), env)
    ensures MeanE(Bin(BEq, Str(s), Int(n)), env, fuel) == Gives(Flag(false), env)
    ensures MeanE(Bin(BNe, Str(s), Int(n)), env, fuel) == Gives(Flag(false), env)
    ensures MeanE(Bin(BPlus, Str(s), Int(n)), env, fuel) == Gives(NullVal, env)
  {
    MeanOf(Str(s), env, fuel);
    MeanOf(Str(t), env, fuel);
    MeanOf(Int(n), env, fuel);
    hide MeanE;
    BothMean(BEq, Str(s), Str(t), StrVal(s), StrVal(t), env, fuel);
    BothMean(BNe, Str(s), Str(t), StrVal(s), StrVal(t), env, fuel);
    BothMean(BEq, Str(s), Int(n), StrVal(s), NumVal(n as real), env, fuel);
    BothMean(BNe, Str(s), Int(n), StrVal(s), NumVal(n as real), env, fuel);
    BothMean(BPlus, Str(s), Int(n), StrVal(s), NumVal(n as real), env, fuel);
  }

  /** A break ends the loop, and a continue goes on with it for ever. */
  lemma {:induction false} JumpsMean(env: seq<Val>, rounds: nat, fuel: nat)
    ensures rounds > 0 ==> MeanLoop(While(Int(1), Break), env, rounds, fuel) == On(env)
    ensures MeanLoop(While(Int(1), Continue), env, rounds, fuel).UnclearFlow?
    decreases rounds
  {
    MeanOf(Int(1), env, fuel);
    MeanOfS(Break, env, fuel);
    MeanOfS(Continue, env, fuel);
    MeanOfLoop(While(Int(1), Break), env, rounds, fuel);
    MeanOfLoop(While(Int(1), Continue), env, rounds, fuel);
    hide MeanE, MeanS, MeanLoop;
    if rounds > 0 { JumpsMean(env, rounds - 1, fuel); }
  }

  /** The body of a for, and then its last part. */
  function Joined(s: Stmt): Stmt
    requires s.For? && s.test.TheExpr?
  {
    While(s.test.e, Block(s.body, SCons(Do(s.step), SNil)))
  }

  /** A for is the while loop with its last part behind the body, if the body never ends in a continue. */
  lemma {:induction false} ForIsWhile(s: Stmt, env: seq<Val>, rounds: nat, fuel: nat)
    requires s.For? && s.test.TheExpr? && forall e :: !MeanS(s.body, e, fuel).Again?
    ensures MeanLoop(s, env, rounds, fuel) == MeanLoop(Joined(s), env, rounds, fuel)
    decreases rounds
  {
    MeanOfLoop(s, env, rounds, fuel);
    MeanOfLoop(Joined(s), env, rounds, fuel);
    hide MeanE, MeanS, MeanSs, MeanLoop, MeanTest;
    var t := MeanTest(MeanE(s.test.e, env, fuel));
    if rounds > 0 && t.Yes? {
      JoinedMeans(s, t.env, fuel);
      var f := MeanS(s.body, t.env, fuel);
      if f.On? && MeanE(s.step, f.env, fuel).Gives? {
        ForIsWhile(s, MeanE(s.step, f.env, fuel).env, rounds - 1, fuel);
      }
    }
  }

  lemma JoinedMeans(s: Stmt, env: seq<Val>, fuel: nat)
    requires s.For? && s.test.TheExpr?
    ensures var f := MeanS(s.body, env, fuel);
      MeanS(Joined(s).body, env, fuel) ==
        if !f.On? then f
        else
          var r := MeanE(s.step, f.env, fuel);
          if r.Unclear? then UnclearFlow else On(r.env)
  {
    MeanOfS(Joined(s).body, env, fuel);
    var f := MeanS(s.body, env, fuel);
    if f.On? {
      MeanOfSs(SCons(Do(s.step), SNil), f.env, fuel);
      MeanOfS(Do(s.step), f.env, fuel);
      var r := MeanE(s.step, f.env, fuel);
      if r.Gives? { MeanOfSs(SNil, r.env, fuel); }
    }
    hide MeanE, MeanS, MeanSs;
  }
}
