/** What expressions and statements mean for all values of the locals, written out: the branches of eeval, boolop,
    orderop, arithop, efcall and the loops in cmd/lefty/exec.c. */
module ExecValues {
  import opened Options
  import opened LeftySyntax
  import opened ExecState
  import opened ExecMeaning
  import opened ExecPrograms

  // The locals x, y and z.
  const Y := Var("y", Some(1), ENil)
  const Z := Var("z", Some(2), ENil)

  /** The value of an expression that changes no local. */
  predicate Is(e: Expr, env: seq<Val>, fuel: nat, v: Val) {
    MeanE(e, env, fuel) == Gives(v, env)
  }

  lemma Read(env: seq<Val>, fuel: nat)
    requires |env| == 3
    ensures Is(X, env, fuel, env[0]) && Is(Y, env, fuel, env[1]) && Is(Z, env, fuel, env[2])
  {
  }

  lemma Both(op: BinOp, u: Val, v: Val, env: seq<Val>, fuel: nat)
    requires |env| == 3 && u == env[0] && v == env[1]
    ensures MeanE(Bin(op, X, Y), env, fuel) == MeanBin(op, Gives(u, env), Gives(v, env))
  {
    Read(env, fuel);
    hide MeanE, MeanBin;
    BothMean(op, X, Y, u, v, env, fuel);
  }

  // ---- truth ----

  /** NULL and zero are false; other numbers, strings and functions are true. */
  lemma Truths(u: Val, env: seq<Val>, fuel: nat)
    requires |env| == 3 && env[0] == u && !u.TabVal?
    ensures Is(Not(X), env, fuel, Flag(u == NullVal || u == NumVal(0.0)))
    ensures MeanS(If(X, Break, TheStmt(Continue)), env, fuel) ==
      if u == NullVal || u == NumVal(0.0) then Again(env) else Broke(env)
  {
    MeanOf(Not(X), env, fuel);
    MeanOf(X, env, fuel);
    MeanOfS(If(X, Break, TheStmt(Continue)), env, fuel);
    MeanOfS(Break, env, fuel);
    MeanOfS(Continue, env, fuel);
    hide MeanE, MeanS;
  }

  /** The second operand of an or is evaluated just if the first is false, and that of an and just if it is true; the
      value is that of Ttrue or Tfalse. */
  lemma ShortCircuits(u: Val, n: nat, env: seq<Val>, fuel: nat)
    requires |env| == 3 && env[0] == u && !u.TabVal?
    ensures var no, e := u == NullVal || u == NumVal(0.0), Assign(Y, Int(n));
      && MeanE(Bin(BOr, X, e), env, fuel) ==
        (if no then Gives(Flag(n != 0), env[1 := NumVal(n as real)]) else Gives(Flag(true), env))
      && MeanE(Bin(BAnd, X, e), env, fuel) ==
        (if no then Gives(Flag(false), env) else Gives(Flag(n != 0), env[1 := NumVal(n as real)]))
  {
    var e := Assign(Y, Int(n));
    MeanOf(Bin(BOr, X, e), env, fuel);
    MeanOf(Bin(BAnd, X, e), env, fuel);
    MeanOf(X, env, fuel);
    MeanOf(e, env, fuel);
    MeanOf(Int(n), env, fuel);
    hide MeanE;
  }

  // ---- comparisons ----

  /** NULL is less, equal or greater in no way, and different from all other values. */
  lemma Nulls(u: Val, v: Val, env: seq<Val>, fuel: nat)
    requires |env| == 3 && env[0] == u && env[1] == v && (u.NullVal? || v.NullVal?)
    ensures Is(Bin(BNe, X, Y), env, fuel, Flag(u != v)) && Is(Bin(BEq, X, Y), env, fuel, Flag(false))
    ensures Is(Bin(BLt, X, Y), env, fuel, Flag(false)) && Is(Bin(BLe, X, Y), env, fuel, Flag(false))
    ensures Is(Bin(BGt, X, Y), env, fuel, Flag(false)) && Is(Bin(BGe, X, Y), env, fuel, Flag(false))
  {
    hide MeanE, MeanBin;
    Both(BNe, u, v, env, fuel);
    Both(BEq, u, v, env, fuel);
    Both(BLt, u, v, env, fuel);
    Both(BLe, u, v, env, fuel);
    Both(BGt, u, v, env, fuel);
    Both(BGe, u, v, env, fuel);
    Related(u, v, env);
  }

  lemma Related(u: Val, v: Val, env: seq<Val>)
    requires !(u.FunVal? && v.FunVal?) && !(u.StrVal? && v.StrVal?)
    ensures forall op :: op == BEq || op == BNe || op == BLt || op == BLe || op == BGt || op == BGe ==>
      MeanBin(op, Gives(u, env), Gives(v, env)) == Gives(Flag(Order(u, op, v).value), env)
  {
  }

  lemma Unordered(u: Val, v: Val, env: seq<Val>)
    requires u.FunVal? && v.FunVal?
    ensures u != v ==> MeanBin(BEq, Gives(u, env), Gives(v, env)) == Gives(Flag(false), env)
    ensures u != v ==> MeanBin(BNe, Gives(u, env), Gives(v, env)) == Gives(Flag(true), env)
    ensures forall op :: op == BLt || op == BLe || op == BGt || op == BGe ==>
      MeanBin(op, Gives(u, env), Gives(v, env)) == Gives(Flag(false), env)
  {
  }

  /** Two values of different types are neither equal, different, less nor greater. */
  lemma Mixed(op: BinOp, u: Val, v: Val, env: seq<Val>, fuel: nat)
    requires |env| == 3 && env[0] == u && env[1] == v && !u.NullVal? && !v.NullVal?
    requires u.NumVal? != v.NumVal? || u.StrVal? != v.StrVal? || u.FunVal? != v.FunVal?
    requires op != BOr && op != BAnd && !IsArith(op)
    ensures Is(Bin(op, X, Y), env, fuel, Flag(false))
  {
    Both(op, u, v, env, fuel);
    hide MeanE;
  }

  /** Two tables are the same one or not, two functions are not less or greater, and those with different code are
      different. */
  lemma Objects(p: nat, q: nat, f: Expr, g: Expr, env: seq<Val>, fuel: nat)
    requires |env| == 3
    ensures env[0] == FunVal(f) && env[1] == FunVal(g) && f != g ==>
      Is(Bin(BEq, X, Y), env, fuel, Flag(false)) && Is(Bin(BNe, X, Y), env, fuel, Flag(true))
    ensures env[0] == TabVal(p) && env[1] == TabVal(q) ==>
      Is(Bin(BEq, X, Y), env, fuel, Flag(p == q)) && Is(Bin(BNe, X, Y), env, fuel, Flag(p != q))
      && Is(Bin(BLt, X, Y), env, fuel, Flag(false)) && Is(Bin(BGe, X, Y), env, fuel, Flag(false))
    ensures env[0] == FunVal(f) && env[1] == FunVal(g) ==>
      Is(Bin(BLe, X, Y), env, fuel, Flag(false)) && Is(Bin(BGt, X, Y), env, fuel, Flag(false))
  {
    hide MeanE, MeanBin;
    var u, v := env[0], env[1];
    Both(BEq, u, v, env, fuel);
    Both(BNe, u, v, env, fuel);
    Both(BLt, u, v, env, fuel);
    Both(BLe, u, v, env, fuel);
    Both(BGt, u, v, env, fuel);
    Both(BGe, u, v, env, fuel);
    if u.TabVal? && v.TabVal? { Related(u, v, env); }
    if u.FunVal? && v.FunVal? { Unordered(u, v, env); }
  }

  /** Strings compare as strcmp compares them, whatever they begin with in common. */
  lemma Strings(r: string, c: char, d: char, s: string, t: string, env: seq<Val>, fuel: nat)
    requires |env| == 3 && c != d && env[0] == StrVal(r + ([c] + s))
    ensures env[1] == StrVal(r + ([d] + t)) ==>
      Is(Bin(BLt, X, Y), env, fuel, Flag(c < d)) && Is(Bin(BLe, X, Y), env, fuel, Flag(c < d))
      && Is(Bin(BGt, X, Y), env, fuel, Flag(c > d)) && Is(Bin(BGe, X, Y), env, fuel, Flag(c > d))
    ensures env[1] == StrVal(r) ==>
      Is(Bin(BLt, X, Y), env, fuel, Flag(false)) && Is(Bin(BGt, X, Y), env, fuel, Flag(true))
    ensures env[1] == env[0] ==>
      Is(Bin(BLt, X, Y), env, fuel, Flag(false)) && Is(Bin(BLe, X, Y), env, fuel, Flag(true))
  {
    hide MeanE, MeanBin, Less;
    var u, v := env[0], env[1];
    Both(BLt, u, v, env, fuel);
    Both(BLe, u, v, env, fuel);
    Both(BGt, u, v, env, fuel);
    Both(BGe, u, v, env, fuel);
    if v.StrVal? { StringsRelated(u.s, v.s, env); }
    Parted(r, c, d, s, t);
    Alike(r + ([c] + s));
    Longer(r, c, s);
  }

  lemma StringsRelated(s: string, t: string, env: seq<Val>)
    ensures forall op :: op == BLt || op == BLe || op == BGt || op == BGe ==>
      MeanBin(op, Gives(StrVal(s), env), Gives(StrVal(t), env)) == Gives(Flag(Compared(Less(s, t), s == t, op)), env)
  {
    hide Less;
  }

  lemma {:induction false} Parted(r: string, c: char, d: char, s: string, t: string)
    requires c != d
    ensures Less(r + ([c] + s), r + ([d] + t)) == (c < d) && r + ([c] + s) != r + ([d] + t)
  {
    var a, b := r + ([c] + s), r + ([d] + t);
    assert a[|r|] == c && b[|r|] == d;
    if r != "" {
      assert a[1..] == r[1..] + ([c] + s) && b[1..] == r[1..] + ([d] + t);
      Parted(r[1..], c, d, s, t);
    }
  }

  lemma {:induction false} Alike(s: string)
    ensures !Less(s, s)
  {
    if s != "" { Alike(s[1..]); }
  }

  lemma {:induction false} Longer(r: string, c: char, s: string)
    ensures !Less(r + ([c] + s), r) && r + ([c] + s) != r
  {
    var a := r + ([c] + s);
    assert |a| > |r|;
    if r != "" {
      assert a[1..] == r[1..] + ([c] + s);
      Longer(r[1..], c, s);
    }
  }

  // ---- arithmetic ----

  /** The remainder is that of the whole parts, and has the sign of the first operand. */
  lemma Remainders(m: nat, n: nat, x: real, y: real, env: seq<Val>, fuel: nat)
    requires |env| == 3 && m as real <= x < m as real + 1.0 && n as real <= y < n as real + 1.0 && n > 0
    requires env[0] == NumVal(x) || env[0] == NumVal(-x)
    requires env[1] == NumVal(y) || env[1] == NumVal(-y)
    ensures Is(Bin(BMod, X, Y), env, fuel, NumVal(if env[0] == NumVal(x) then (m % n) as real else -((m % n) as real)))
  {
    hide MeanE, Trunc, CRem;
    Both(BMod, env[0], env[1], env, fuel);
    Cut(m, x);
    Cut(n, y);
    Signs(m, n);
  }

  lemma Cut(m: nat, x: real)
    requires m as real <= x < m as real + 1.0
    ensures Trunc(x) == m && Trunc(-x) == 0 - m
  {
    assert x.Floor == m && -(-x) == x;
  }

  lemma Signs(m: nat, n: nat)
    requires n > 0
    ensures CRem(m, n) == CRem(m, 0 - n) == m % n && CRem(0 - m, n) == CRem(0 - m, 0 - n) == 0 - m % n
  {
  }

  /** An operand that is no number: no value, and the second operand is not evaluated if the first is NULL. */
  lemma NoNumbers(op: BinOp, n: nat, env: seq<Val>, fuel: nat)
    requires |env| == 3 && IsArith(op) && !env[0].NumVal?
    ensures Is(Bin(op, X, Y), env, fuel, NullVal) && Is(Bin(op, Int(n), X), env, fuel, NullVal)
    ensures Is(Uminus(X), env, fuel, NullVal)
    ensures MeanE(Bin(op, X, Assign(Y, Int(n))), env, fuel) ==
      Gives(NullVal, if env[0].NullVal? then env else env[1 := NumVal(n as real)])
  {
    MeanOf(X, env, fuel);
    MeanOf(Y, env, fuel);
    MeanOf(Int(n), env, fuel);
    MeanOf(Uminus(X), env, fuel);
    MeanOf(Bin(op, X, Y), env, fuel);
    MeanOf(Bin(op, Int(n), X), env, fuel);
    MeanOf(Assign(Y, Int(n)), env, fuel);
    MeanOf(Bin(op, X, Assign(Y, Int(n))), env, fuel);
    hide MeanE;
  }

  /** The first operand is evaluated first: x - (x = n) and (x = n) - x. */
  lemma FirstOperandFirst(m: nat, n: nat, env: seq<Val>, fuel: nat)
    requires |env| == 3 && env[0] == NumVal(m as real)
    ensures var e, after := Assign(X, Int(n)), env[0 := NumVal(n as real)];
      && MeanE(Bin(BMinus, X, e), env, fuel) == Gives(NumVal((m - n) as real), after)
      && MeanE(Bin(BMinus, e, X), env, fuel) == Gives(NumVal(0.0), after)
  {
    var e, after := Assign(X, Int(n)), env[0 := NumVal(n as real)];
    MeanOf(X, env, fuel);
    MeanOf(X, after, fuel);
    MeanOf(Int(n), env, fuel);
    MeanOf(e, env, fuel);
    MeanOf(Bin(BMinus, X, e), env, fuel);
    MeanOf(Bin(BMinus, e, X), env, fuel);
    hide MeanE;
  }

  // ---- assignment ----

  /** x = y gives x the value of y, which is also the value of the assignment; NULL is not assigned. */
  lemma Assigns(env: seq<Val>, fuel: nat)
    requires |env| == 3
    ensures MeanE(Assign(X, Y), env, fuel) ==
      Gives(env[1], if env[1].NullVal? then env else [env[1], env[1], env[2]])
  {
    MeanOf(Y, env, fuel);
    MeanOf(Assign(X, Y), env, fuel);
    hide MeanE;
    if !env[1].NullVal? { assert env[0 := env[1]] == [env[1], env[1], env[2]]; }
  }

  /** A string, a number or a function has nothing in it. */
  lemma Indexed(n: nat, env: seq<Val>, fuel: nat)
    requires |env| == 3 && !env[0].TabVal?
    ensures Is(Var("x", Some(0), ECons(Int(n), ENil)), env, fuel, NullVal)
  {
  }

  // ---- calls ----

  /** function (x, y) { return x - y; } */
  const DIFFERENCE := Func(["x", "y"], Code(DNil, SCons(Return(TheExpr(Bin(BMinus, X, Y))), SNil)))

  /** function (x) { local y; return y; } */
  const LOCAL := Func(["x"], Code(DCons(["y"], DNil), SCons(Return(TheExpr(Y)), SNil)))

  /** function (x) { x = 7; } */
  const STORE := Func(["x"], Code(DNil, SCons(Do(Assign(X, Int(7))), SNil)))

  function Args1(a: Expr): Exprs { ECons(a, ENil) }
  function Args2(a: Expr, b: Expr): Exprs { ECons(a, Args1(b)) }

  lemma OneArg(a: Expr, max: nat, v: Val, left: Exprs, env: seq<Val>, fuel: nat)
    requires MeanE(a, env, fuel) == Gives(v, env) && !v.NullVal? && max > 0 && (max > 1 ==> left.ENil?)
    ensures MeanArgs(ECons(a, left), max, env, fuel) == Vals([v], left, env)
  {
    MeanOfArgs(ECons(a, left), max, env, fuel);
    MeanOfArgs(left, max - 1, env, fuel);
    hide MeanE, MeanArgs;
    assert [v] + [] == [v];
  }

  lemma TwoArgs(a: Expr, b: Expr, u: Val, v: Val, left: Exprs, env: seq<Val>, fuel: nat)
    requires MeanE(a, env, fuel) == Gives(u, env) && MeanE(b, env, fuel) == Gives(v, env) && !u.NullVal? && !v.NullVal?
    ensures MeanArgs(ECons(a, ECons(b, left)), 2, env, fuel) == Vals([u, v], left, env)
  {
    OneArg(b, 1, v, left, env, fuel);
    MeanOfArgs(ECons(a, ECons(b, left)), 2, env, fuel);
    hide MeanE, MeanArgs;
    assert [u] + [v] == [u, v];
  }

  lemma DifferenceMeans(m: nat, n: nat, fuel: nat)
    ensures var vs := [NumVal(m as real), NumVal(n as real)];
      MeanSs(DIFFERENCE.body.stmts, Locals(vs, DNil), fuel) == Back(NumVal((m - n) as real))
  {
    var vs := [NumVal(m as real), NumVal(n as real)];
    NoLocals(vs);
    var e := Bin(BMinus, X, Y);
    MeanOfSs(DIFFERENCE.body.stmts, vs, fuel);
    MeanOfS(Return(TheExpr(e)), vs, fuel);
    MeanOf(X, vs, fuel);
    MeanOf(Y, vs, fuel);
    MeanOf(e, vs, fuel);
    hide MeanE, MeanS, MeanSs, Locals;
  }

  /** The arguments come in their order. */
  lemma Differs(m: nat, n: nat, env: seq<Val>, fuel: nat)
    requires |env| == 3 && env[2] == FunVal(DIFFERENCE) && fuel > 0
    ensures Is(Call(Z, Args2(Int(m), Int(n))), env, fuel, NumVal((m - n) as real))
  {
    hide MeanE, MeanS, MeanSs, MeanArgs, Locals;
    var u, v := NumVal(m as real), NumVal(n as real);
    IntMeans(m, env, fuel);
    IntMeans(n, env, fuel);
    TwoArgs(Int(m), Int(n), u, v, ENil, env, fuel);
    MeanOfCall(Z, Args2(Int(m), Int(n)), env, fuel);
    DifferenceMeans(m, n, fuel - 1);
  }

  lemma IntMeans(n: nat, env: seq<Val>, fuel: nat)
    ensures MeanE(Int(n), env, fuel) == Gives(NumVal(n as real), env)
  {
  }

  /** A call with too few arguments, with too many, or with one that is NULL has no value; what comes after that
      argument, or is one too many, is not evaluated, and neither is any argument of what is no function. */
  lemma BadCalls(m: nat, n: nat, env: seq<Val>, fuel: nat)
    requires |env| == 3 && env[0] == NullVal && env[2] == FunVal(DIFFERENCE) && fuel > 0
    ensures var e := Assign(Y, Int(n));
      && Is(Call(Z, ENil), env, fuel, NullVal) && Is(Call(Z, Args1(Int(m))), env, fuel, NullVal)
      && Is(Call(Z, ECons(Int(m), ECons(Int(n), Args1(e)))), env, fuel, NullVal)
      && Is(Call(Z, Args2(X, e)), env, fuel, NullVal) && Is(Call(X, Args1(e)), env, fuel, NullVal)
  {
    var e := Assign(Y, Int(n));
    MeanOf(Int(m), env, fuel);
    MeanOf(Int(n), env, fuel);
    MeanOf(X, env, fuel);
    MeanOfCall(Z, ENil, env, fuel);
    MeanOfCall(Z, Args1(Int(m)), env, fuel);
    MeanOfCall(Z, ECons(Int(m), ECons(Int(n), Args1(e))), env, fuel);
    MeanOfCall(Z, Args2(X, e), env, fuel);
    MeanOfCall(X, Args1(e), env, fuel);
    MeanOfArgs(ENil, 2, env, fuel);
    MeanOfArgs(Args2(X, e), 2, env, fuel);
    hide MeanE, MeanArgs, MeanSs, Locals;
    OneArg(Int(m), 2, NumVal(m as real), ENil, env, fuel);
    TwoArgs(Int(m), Int(n), NumVal(m as real), NumVal(n as real), Args1(e), env, fuel);
  }

  /** A local that is no parameter starts as NULL; a function that does not return has no value, and what it does to
      its own locals is not seen by its caller. */
  lemma OwnLocals(n: nat, env: seq<Val>, fuel: nat)
    requires |env| == 3 && fuel > 0 && (env[2] == FunVal(LOCAL) || env[2] == FunVal(STORE))
    ensures Is(Call(Z, Args1(Int(n))), env, fuel, NullVal)
  {
    var v := NumVal(n as real);
    MeanOf(Int(n), env, fuel);
    MeanOfCall(Z, Args1(Int(n)), env, fuel);
    LocalMeans(v, fuel - 1);
    StoreMeans(v, fuel - 1);
    hide MeanE, MeanS, MeanSs, MeanArgs, Locals;
    OneArg(Int(n), 1, v, ENil, env, fuel);
  }

  lemma LocalMeans(v: Val, fuel: nat)
    ensures MeanSs(LOCAL.body.stmts, Locals([v], LOCAL.body.locals), fuel) == Back(NullVal)
  {
    assert CountDecls(DCons(["y"], DNil)) == 1;
    assert Locals([v], LOCAL.body.locals) == [v, NullVal];
    MeanOfSs(LOCAL.body.stmts, [v, NullVal], fuel);
    MeanOfS(Return(TheExpr(Y)), [v, NullVal], fuel);
    MeanOf(Y, [v, NullVal], fuel);
    hide MeanE, MeanS, MeanSs;
  }

  lemma StoreMeans(v: Val, fuel: nat)
    ensures MeanSs(STORE.body.stmts, Locals([v], STORE.body.locals), fuel) == On([NumVal(7.0)])
  {
    NoLocals([v]);
    var s := Do(Assign(X, Int(7)));
    MeanOfSs(STORE.body.stmts, [v], fuel);
    MeanOfSs(SNil, [NumVal(7.0)], fuel);
    MeanOfS(s, [v], fuel);
    MeanOf(Int(7), [v], fuel);
    MeanOf(Assign(X, Int(7)), [v], fuel);
    assert [v][0 := NumVal(7.0)] == [NumVal(7.0)];
    hide MeanE, MeanS, MeanSs;
  }

  // ---- loops ----

  /** for (x = 0; x < y; x = x + 1) */
  function Counting(body: Stmt): Stmt {
    For(TheExpr(Assign(X, Int(0))), TheExpr(Bin(BLt, X, Y)), Assign(X, Bin(BPlus, X, Int(1))), body)
  }

  function At(k: nat, n: nat, z: Val): seq<Val> {
    [NumVal(k as real), NumVal(n as real), z]
  }

  lemma Tested(k: nat, n: nat, z: Val, fuel: nat)
    ensures MeanTest(MeanE(Bin(BLt, X, Y), At(k, n, z), fuel)) == if k < n then Yes(At(k, n, z)) else No(At(k, n, z))
  {
    hide MeanE;
    Both(BLt, NumVal(k as real), NumVal(n as real), At(k, n, z), fuel);
  }

  lemma OneMore(k: nat, n: nat, z: Val, fuel: nat)
    ensures MeanE(Assign(X, Bin(BPlus, X, Int(1))), At(k, n, z), fuel) ==
      Gives(NumVal((k + 1) as real), At(k + 1, n, z))
  {
    var env := At(k, n, z);
    MeanOf(X, env, fuel);
    MeanOf(Int(1), env, fuel);
    MeanOf(Bin(BPlus, X, Int(1)), env, fuel);
    MeanOf(Assign(X, Bin(BPlus, X, Int(1))), env, fuel);
    hide MeanE;
    assert env[0 := NumVal((k + 1) as real)] == At(k + 1, n, z);
  }

  /** From any round on it counts up to y, whether the body goes on or continues. */
  lemma {:induction false} Counts(body: Stmt, k: nat, n: nat, z: Val, rounds: nat, fuel: nat)
    requires (body == Empty || body == Continue) && k <= n && rounds > n - k
    ensures MeanLoop(Counting(body), At(k, n, z), rounds, fuel) == On(At(n, n, z))
    decreases n - k
  {
    Tested(k, n, z, fuel);
    OneMore(k, n, z, fuel);
    MeanOfS(body, At(k, n, z), fuel);
    MeanOfLoop(Counting(body), At(k, n, z), rounds, fuel);
    hide MeanE, MeanS, MeanLoop, At;
    if k < n { Counts(body, k + 1, n, z, rounds - 1, fuel); }
  }

  /** The first part runs once, and the third after each round, one that ended in a continue included. */
  lemma ForCounts(body: Stmt, u: Val, n: nat, z: Val, fuel: nat)
    requires (body == Empty || body == Continue) && fuel > n
    ensures MeanS(Counting(body), [u, NumVal(n as real), z], fuel) == On(At(n, n, z))
  {
    var env := [u, NumVal(n as real), z];
    MeanOf(Int(0), env, fuel);
    MeanOf(Assign(X, Int(0)), env, fuel);
    MeanOfS(Counting(body), env, fuel);
    assert env[0 := NumVal(0.0)] == At(0, n, z);
    hide MeanE, MeanS, MeanLoop, At;
    Counts(body, 0, n, z, fuel, fuel);
  }

  /** A break leaves out the third part, and a return gives its value. */
  lemma ForStops(u: Val, n: nat, z: Val, fuel: nat)
    requires n > 0 && fuel > 0
    ensures MeanS(Counting(Break), [u, NumVal(n as real), z], fuel) == On(At(0, n, z))
    ensures MeanS(Counting(Return(TheExpr(Y))), [u, NumVal(n as real), z], fuel) == Back(NumVal(n as real))
  {
    ForStopsBy(Break, u, n, z, fuel);
    ForStopsBy(Return(TheExpr(Y)), u, n, z, fuel);
    MeanOfS(Break, At(0, n, z), fuel);
    MeanOf(Y, At(0, n, z), fuel);
    MeanOfS(Return(TheExpr(Y)), At(0, n, z), fuel);
    hide MeanE, MeanS;
  }

  lemma ForStopsBy(body: Stmt, u: Val, n: nat, z: Val, fuel: nat)
    requires n > 0 && fuel > 0
    ensures var f := MeanS(body, At(0, n, z), fuel);
      f.Broke? || f.Back? ==>
        MeanS(Counting(body), [u, NumVal(n as real), z], fuel) == if f.Broke? then On(f.env) else f
  {
    var env := [u, NumVal(n as real), z];
    MeanOf(Int(0), env, fuel);
    MeanOf(Assign(X, Int(0)), env, fuel);
    MeanOfS(Counting(body), env, fuel);
    assert env[0 := NumVal(0.0)] == At(0, n, z);
    Tested(0, n, z, fuel);
    MeanOfLoop(Counting(body), At(0, n, z), fuel, fuel);
    hide MeanE, MeanS, MeanLoop, At;
  }

  /** A for without its first two parts. */
  lemma ForOpen(env: seq<Val>, fuel: nat)
    requires |env| == 3 && fuel > 0
    ensures MeanS(For(NoExpr, NoExpr, Assign(X, Int(1)), Break), env, fuel) == On(env)
  {
    var s := For(NoExpr, NoExpr, Assign(X, Int(1)), Break);
    MeanOfS(s, env, fuel);
    MeanOfS(Break, env, fuel);
    MeanOfLoop(s, env, fuel, fuel);
    hide MeanE, MeanS, MeanLoop;
  }
}
