/** What a lefty program means, without stacks, marks and jumps: the value of an expression, and how a statement
    ends, as functions of the values of the locals.

    What depends on the entries of tables (global variables, paths, for-in), on an internal function, on the order
    of strings or on the place of a code object is `Unclear`, and so is what takes more depth or rounds than `fuel`.
    Numbers are real numbers: the rounding and the overflow of doubles and longs are left out. */
module ExecMeaning {
  import opened Options
  import C = Collector
  import opened LeftySyntax
  import opened ExecState

  /** What a pointer stands for; a table for its place. */
  datatype Val = NullVal | NumVal(x: real) | StrVal(s: string) | FunVal(fn: Expr) | TabVal(p: C.Ref)

  function ValOf(s: Stacks, v: Ptr): Val {
    match ObjectOf(s, v)
    case None => NullVal
    case Some(ANumber(x)) => NumVal(x)
    case Some(AString(t)) => StrVal(t)
    case Some(ACode(fn)) => FunVal(fn)
    case Some(ATable) => TabVal(v.p)
  }

  /** The values of the locals of the running function. */
  function Env(s: Stacks, nl: nat): (env: seq<Val>)
    requires s.flvari + nl <= |s.lvars|
    ensures |env| == nl && forall i :: 0 <= i < nl ==> env[i] == ValOf(s, s.lvars[s.flvari + i].o)
  {
    seq(nl, i requires 0 <= i < nl => ValOf(s, s.lvars[s.flvari + i].o))
  }

  /** The values of the locals from a place on. */
  function SlotVals(s: Stacks, from: nat): (vs: seq<Val>)
    requires from <= |s.lvars|
    ensures |vs| == |s.lvars| - from && forall i :: 0 <= i < |vs| ==> vs[i] == ValOf(s, s.lvars[from + i].o)
  {
    seq(|s.lvars| - from, i requires 0 <= i < |s.lvars| - from => ValOf(s, s.lvars[from + i].o))
  }

  // ---- operators ----

  /** boolop; a table is true unless it is the one that the variable null holds. */
  function Truth(v: Val): Option<bool> {
    match v
    case NullVal => Some(false)
    case NumVal(x) => Some(x != 0.0)
    case StrVal(_) => Some(true)
    case FunVal(_) => Some(true)
    case TabVal(_) => None
  }

  /** Ttrue and Tfalse. */
  function BoolVal(b: bool): Val {
    NumVal(if b then 1.0 else 0.0)
  }

  /** The comparison of two things that are less, equal or greater. */
  function Compared(lt: bool, eq: bool, op: BinOp): bool {
    match op
    case BEq => eq
    case BNe => !eq
    case BLt => lt
    case BLe => lt || eq
    case BGt => !lt && !eq
    case BGe => !lt
    case _ => false
  }

  /** strcmp: the first characters that differ decide, and a string comes before those that go on from it. */
  function Less(s: string, t: string): bool {
    t != "" && (s == "" || s[0] < t[0] || (s[0] == t[0] && Less(s[1..], t[1..])))
  }

  /** orderop.  Whether two functions with the same code are one object is left open.  Values of different types are
      in no relation, not even in that of !=. */
  function Order(a: Val, op: BinOp, b: Val): Option<bool> {
    if a.NullVal? || b.NullVal? then Some(op == BNe && a != b)
    else if a.NumVal? && b.NumVal? then Some(Compared(a.x < b.x, a.x == b.x, op))
    else if a.StrVal? && b.StrVal? then Some(Compared(Less(a.s, b.s), a.s == b.s, op))
    else if a.TabVal? && b.TabVal? then Some((op == BEq || op == BNe) && Compared(false, a == b, op))
    else if a.FunVal? && b.FunVal? then
      (if op != BEq && op != BNe then Some(false) else if a != b then Some(op == BNe) else None)
    else Some(false)
  }

  /** The cast to a long. */
  function Trunc(x: real): int {
    if x >= 0.0 then x.Floor else -(-x).Floor
  }

  /** % of C: the remainder has the sign of the first operand. */
  function CRem(a: int, b: int): int
    requires b != 0
  {
    if a >= 0 then a % b else -((-a) % b)
  }

  function Times(x: real, y: real): real {
    x * y
  }

  /** arithop: no value if an operand is no number; division by zero is left open. */
  function Arith(a: Val, op: BinOp, b: Val): Option<Val> {
    if !a.NumVal? || !b.NumVal? then Some(NullVal)
    else match op
      case BPlus => Some(NumVal(a.x + b.x))
      case BMinus => Some(NumVal(a.x - b.x))
      case BMul => Some(NumVal(Times(a.x, b.x)))
      case BDiv => if b.x == 0.0 then None else Some(NumVal(a.x / b.x))
      case BMod => if Trunc(b.x) == 0 then None else Some(NumVal(CRem(Trunc(a.x), Trunc(b.x)) as real))
      case _ => None
  }

  predicate IsArith(op: BinOp) {
    op == BPlus || op == BMinus || op == BMul || op == BDiv || op == BMod
  }

  function Apply(a: Val, op: BinOp, b: Val): Option<Val> {
    if IsArith(op) then Arith(a, op, b)
    else match Order(a, op, b) case None => None case Some(t) => Some(BoolVal(t))
  }

  // ---- expressions ----

  datatype Result = Gives(v: Val, env: seq<Val>) | Unclear

  /** The arguments that were evaluated and those that were not, or one without a value. */
  datatype Args = Vals(vs: seq<Val>, left: Exprs, env: seq<Val>) | NoVal(env: seq<Val>) | UnclearArgs

  function MeanE(e: Expr, env: seq<Val>, fuel: nat): Result
    decreases fuel, e, 1
  {
    match e
    case Assign(l, r) => MeanAssign(l, MeanE(r, env, fuel))
    case Bin(op, l, r) =>
      var a := MeanE(l, env, fuel);
      if a.Unclear? then Unclear else MeanBin(op, a, MeanE(r, a.env, fuel))
    case Uminus(a) => MeanMinus(MeanE(a, env, fuel))
    case Not(a) => MeanNot(MeanE(a, env, fuel))
    case Paren(a) => MeanE(a, env, fuel)
    case Call(f, args) =>
      var v := if f.Var? then MeanVar(f, env) else Gives(NullVal, env);
      if v.Unclear? then Unclear
      else if !v.v.FunVal? then Gives(NullVal, env)
      else if !v.v.fn.Func? || v.v.fn.body.Internal? then Unclear
      else
        var fn, a := v.v.fn, MeanArgs(args, |v.v.fn.params|, env, fuel);
        MeanCall(fn, a, if a.Vals? && fuel > 0 then MeanSs(fn.body.stmts, Locals(a.vs, fn.body.locals), fuel - 1)
          else UnclearFlow)
    case Int(n) => Gives(NumVal(n as real), env)
    case Str(s) => Gives(StrVal(s), env)
    case Var(_, _, _) => MeanVar(e, env)
    case Func(_, _) => Gives(FunVal(e), env)
    case Tcons(_) => Unclear
  }

  /** The place of an assignment is looked up after its value; without a value nothing is assigned. */
  function MeanAssign(l: Expr, r: Result): Result {
    if r.Unclear? then Unclear
    else if r.v.NullVal? || !l.Var? then Gives(NullVal, r.env)
    else if l.slot.Some? && l.path.ENil? && l.slot.value < |r.env| then Gives(r.v, r.env[l.slot.value := r.v])
    else Unclear
  }

  /** From the results of both operands; that of the second does not matter if the first decides, and an arithmetic
      operator has no value if the first has none. */
  function MeanBin(op: BinOp, a: Result, b: Result): Result
    requires a.Gives?
  {
    if op == BOr || op == BAnd then
      match Truth(a.v)
      case None => Unclear
      case Some(t) => if t == (op == BOr) then Gives(BoolVal(t), a.env) else MeanTruth(b)
    else if IsArith(op) && a.v.NullVal? then Gives(NullVal, a.env)
    else if b.Unclear? then Unclear
    else match Apply(a.v, op, b.v) case None => Unclear case Some(v) => Gives(v, b.env)
  }

  function MeanTruth(r: Result): Result {
    if r.Unclear? then Unclear else match Truth(r.v) case None => Unclear case Some(t) => Gives(BoolVal(t), r.env)
  }

  function MeanNot(r: Result): Result {
    if r.Unclear? then Unclear else match Truth(r.v) case None => Unclear case Some(t) => Gives(BoolVal(!t), r.env)
  }

  function MeanMinus(r: Result): Result {
    if r.Unclear? then Unclear else Gives(if r.v.NumVal? then NumVal(-r.v.x) else NullVal, r.env)
  }

  /** From the arguments and the run of the body: too few or too many of them, or one without a value, and the call
      has no value. */
  function MeanCall(fn: Expr, args: Args, run: Flow): Result
    requires fn.Func?
  {
    match args
    case UnclearArgs => Unclear
    case NoVal(env1) => Gives(NullVal, env1)
    case Vals(vs, left, env1) =>
      if left.ECons? || |vs| < |fn.params| then Gives(NullVal, env1) else MeanReturn(run, env1)
  }

  /** A local; one that holds no table has no value at any index. */
  function MeanVar(e: Expr, env: seq<Val>): (r: Result)
    requires e.Var?
    ensures r.Gives? ==> r.env == env
  {
    if e.slot.None? || e.slot.value >= |env| then Unclear
    else
      var v := env[e.slot.value];
      if e.path.ENil? || v.NullVal? then Gives(v, env) else if v.TabVal? then Unclear else Gives(NullVal, env)
  }

  /** At most max arguments, from left to right. */
  function MeanArgs(args: Exprs, max: nat, env: seq<Val>, fuel: nat): (a: Args)
    ensures a.Vals? ==> |a.vs| <= max
    decreases fuel, args, 0
  {
    if args.ENil? || max == 0 then Vals([], args, env)
    else match MeanE(args.head, env, fuel)
      case Unclear => UnclearArgs
      case Gives(v, env1) =>
        if v.NullVal? then NoVal(env1) else MeanMore(v, MeanArgs(args.tail, max - 1, env1, fuel))
  }

  function MeanMore(v: Val, a: Args): Args {
    if a.Vals? then Vals([v] + a.vs, a.left, a.env) else a
  }

  /** The locals of a function at its start: the arguments, and NULL for the others. */
  function Locals(vs: seq<Val>, ds: Decls): seq<Val> {
    vs + Nulls(CountDecls(ds))
  }

  function Nulls(n: nat): (vs: seq<Val>)
    ensures |vs| == n && forall i :: 0 <= i < n ==> vs[i].NullVal?
  {
    seq(n, _ => NullVal)
  }

  /** The value of a call, in the function that made it: that of the return, or none. */
  function MeanReturn(f: Flow, env: seq<Val>): Result {
    match f
    case Back(v) => Gives(v, env)
    case On(_) => Gives(NullVal, env)
    case _ => Unclear
  }

  // ---- statements ----

  /** A statement goes on, breaks or goes on with the loop that it is in, or returns. */
  datatype Flow = On(env: seq<Val>) | Broke(env: seq<Val>) | Again(env: seq<Val>) | Back(v: Val) | UnclearFlow

  function MeanSs(ss: Stmts, env: seq<Val>, fuel: nat): Flow
    decreases fuel, ss, 3
  {
    if ss.SNil? then On(env)
    else
      var f := MeanS(ss.head, env, fuel);
      if f.On? then MeanSs(ss.tail, f.env, fuel) else f
  }

  function MeanS(s: Stmt, env: seq<Val>, fuel: nat): Flow
    decreases fuel, s, 2
  {
    match s
    case Empty => On(env)
    case Block(first, more) =>
      var f := MeanS(first, env, fuel);
      if f.On? then MeanSs(more, f.env, fuel) else f
    case If(c, t, e) =>
      (match MeanTest(MeanE(c, env, fuel))
       case Open => UnclearFlow
       case Yes(env1) => MeanS(t, env1, fuel)
       case No(env1) => if e.TheStmt? then MeanS(e.s, env1, fuel) else On(env1))
    case While(_, _) => MeanLoop(s, env, fuel, fuel)
    case For(i, _, _, _) =>
      var r := MeanO(i, env, fuel);
      if r.Unclear? then UnclearFlow else MeanLoop(s, r.env, fuel, fuel)
    case ForIn(_, _, _) => UnclearFlow
    case Break => Broke(env)
    case Continue => Again(env)
    case Return(o) =>
      var r := MeanO(o, env, fuel);
      if r.Unclear? then UnclearFlow else Back(r.v)
    case Do(e) =>
      var r := MeanE(e, env, fuel);
      if r.Unclear? then UnclearFlow else On(r.env)
  }

  datatype Test = Yes(env: seq<Val>) | No(env: seq<Val>) | Open

  function MeanTest(r: Result): Test {
    if r.Unclear? then Open
    else match Truth(r.v) case None => Open case Some(t) => if t then Yes(r.env) else No(r.env)
  }

  function MeanO(o: OptExpr, env: seq<Val>, fuel: nat): Result
    decreases fuel, o
  {
    if o.NoExpr? then Gives(NullVal, env) else MeanE(o.e, env, fuel)
  }

  /** The condition of a loop; a for without one goes on. */
  function Condition(s: Stmt, env: seq<Val>, fuel: nat): Test
    requires s.While? || s.For?
    decreases fuel, s, 0
  {
    if s.While? then MeanTest(MeanE(s.cond, env, fuel))
    else if s.test.NoExpr? then Yes(env)
    else MeanTest(MeanE(s.test.e, env, fuel))
  }

  /** The last part of a for, which a continue does not leave out. */
  function Stepped(s: Stmt, env: seq<Val>, fuel: nat): Result
    requires s.While? || s.For?
    decreases fuel, s, 0
  {
    if s.While? then Gives(NullVal, env) else MeanE(s.step, env, fuel)
  }

  /** A loop from its condition on, for at most so many rounds. */
  function MeanLoop(s: Stmt, env: seq<Val>, rounds: nat, fuel: nat): (f: Flow)
    requires s.While? || s.For?
    ensures !f.Broke? && !f.Again?
    decreases fuel, s, 1, rounds, 0
  {
    if rounds == 0 then UnclearFlow
    else match Condition(s, env, fuel)
      case Open => UnclearFlow
      case No(env1) => On(env1)
      case Yes(env1) =>
        match MeanS(s.body, env1, fuel)
        case Broke(env2) => On(env2)
        case Back(v) => Back(v)
        case UnclearFlow => UnclearFlow
        case On(env2) => MeanNext(s, env2, rounds, fuel)
        case Again(env2) => MeanNext(s, env2, rounds, fuel)
  }

  function MeanNext(s: Stmt, env: seq<Val>, rounds: nat, fuel: nat): (f: Flow)
    requires (s.While? || s.For?) && rounds > 0
    ensures !f.Broke? && !f.Again?
    decreases fuel, s, 1, rounds - 1, 1
  {
    var r := Stepped(s, env, fuel);
    if r.Unclear? then UnclearFlow else MeanLoop(s, r.env, rounds - 1, fuel)
  }

  // ---- the values of the locals through the steps of the stacks ----

  /** Marks, records and targets do not matter. */
  lemma EnvSame(s: Stacks, t: Stacks, nl: nat)
    requires s.flvari + nl <= |s.lvars| && t.lvars == s.lvars && t.flvari == s.flvari && t.objs == s.objs
    ensures Env(t, nl) == Env(s, nl)
    ensures forall v :: ValOf(t, v) == ValOf(s, v) && ObjectOf(t, v) == ObjectOf(s, v)
  {
    assert Env(t, nl) == Env(s, nl);
  }

  /** A new object takes nothing that a mark holds. */
  lemma PlaceSame(s: Stacks, p: C.Ref, o: Object, nl: nat)
    requires Rooted(s) && C.At(p) !in s.marks && s.flvari + nl <= |s.lvars|
    ensures Env(Place(s, p, o), nl) == Env(s, nl)
    ensures forall v :: v in s.marks ==> ObjectOf(Place(s, p, o), v) == ObjectOf(s, v)
  {
    forall i | s.flvari <= i < s.flvari + nl ensures s.lvars[i].o != C.At(p) {
      assert s.marks[s.lvars[i].m] in s.marks;
    }
    assert Env(Place(s, p, o), nl) == Env(s, nl);
  }

  lemma SlotSame(s: Stacks, n: nat, v: Ptr, nl: nat)
    requires Rooted(s) && n < nl && s.flvari + nl <= |s.lvars|
    ensures s.lvars[s.flvari + n].m < |s.marks| && Env(SetSlot(s, n, v), nl) == Env(s, nl)[n := ValOf(s, v)]
  {
    assert Env(SetSlot(s, n, v), nl) == Env(s, nl)[n := ValOf(s, v)];
  }

  /** What is marked for a while stays what it is. */
  lemma TempSame(s: Stacks, t: Stacks, v: Ptr, nl: nat)
    requires Rooted(s) && Steady(PushMark(s, v), t, nl)
    ensures ObjectOf(t, v) == ObjectOf(s, v)
  {
    var u, k := PushMark(s, v), |s.marks|;
    assert !OwnMark(u, k, nl);
    assert SameRoot(u, t, k);
  }

  // ---- the forms one by one ----

  lemma MeanOf(e: Expr, env: seq<Val>, fuel: nat)
    ensures e.Assign? ==> MeanE(e, env, fuel) == MeanAssign(e.lhs, MeanE(e.rhs, env, fuel))
    ensures e.Bin? ==>
      var a := MeanE(e.left, env, fuel);
      MeanE(e, env, fuel) == if a.Unclear? then Unclear else MeanBin(e.op, a, MeanE(e.right, a.env, fuel))
    ensures e.Uminus? ==> MeanE(e, env, fuel) == MeanMinus(MeanE(e.arg, env, fuel))
    ensures e.Not? ==> MeanE(e, env, fuel) == MeanNot(MeanE(e.arg, env, fuel))
    ensures e.Paren? ==> MeanE(e, env, fuel) == MeanE(e.arg, env, fuel)
    ensures e.Int? ==> MeanE(e, env, fuel) == Gives(NumVal(e.n as real), env)
    ensures e.Str? ==> MeanE(e, env, fuel) == Gives(StrVal(e.s), env)
    ensures e.Var? ==> MeanE(e, env, fuel) == MeanVar(e, env)
    ensures e.Func? ==> MeanE(e, env, fuel) == Gives(FunVal(e), env)
    ensures e.Tcons? ==> MeanE(e, env, fuel) == Unclear
  {
    hide MeanAssign, MeanBin, MeanMinus, MeanNot, MeanVar, MeanArgs, MeanCall, MeanSs;
  }

  lemma CompareMeans(op: BinOp, a: Result, b: Result)
    requires op != BOr && op != BAnd && !IsArith(op) && a.Gives?
    ensures b.Unclear? ==> MeanBin(op, a, b).Unclear?
    ensures b.Gives? ==>
      var r := Order(a.v, op, b.v);
      MeanBin(op, a, b) == if r.None? then Unclear else Gives(BoolVal(r.value), b.env)
  {
    hide Order, BoolVal;
  }

  lemma ArithMeans(op: BinOp, a: Result, b: Result)
    requires IsArith(op) && a.Gives?
    ensures a.v.NullVal? ==> MeanBin(op, a, b) == Gives(NullVal, a.env)
    ensures !a.v.NullVal? && b.Unclear? ==> MeanBin(op, a, b).Unclear?
    ensures !a.v.NullVal? && b.Gives? ==>
      var r := Arith(a.v, op, b.v);
      MeanBin(op, a, b) == if r.None? then Unclear else Gives(r.value, b.env)
  {
    hide Arith;
  }

  lemma MeanOfCall(f: Expr, args: Exprs, env: seq<Val>, fuel: nat)
    ensures !f.Var? ==> MeanE(Call(f, args), env, fuel) == Gives(NullVal, env)
    ensures f.Var? && MeanVar(f, env).Unclear? ==> MeanE(Call(f, args), env, fuel).Unclear?
    ensures f.Var? && MeanVar(f, env).Gives? ==>
      var v := MeanVar(f, env).v;
      if !v.FunVal? then MeanE(Call(f, args), env, fuel) == Gives(NullVal, env)
      else if !v.fn.Func? || v.fn.body.Internal? then MeanE(Call(f, args), env, fuel).Unclear?
      else
        var a := MeanArgs(args, |v.fn.params|, env, fuel);
        MeanE(Call(f, args), env, fuel) == MeanCall(v.fn, a, MeanRun(v.fn, a, fuel))
  {
    hide MeanVar, MeanArgs, MeanCall, MeanSs, Locals;
  }

  lemma MeanOfArgs(args: Exprs, max: nat, env: seq<Val>, fuel: nat)
    ensures args.ENil? || max == 0 ==> MeanArgs(args, max, env, fuel) == Vals([], args, env)
    ensures args.ECons? && max > 0 ==>
      var r := MeanE(args.head, env, fuel);
      MeanArgs(args, max, env, fuel) ==
        if r.Unclear? then UnclearArgs
        else if r.v.NullVal? then NoVal(r.env)
        else MeanMore(r.v, MeanArgs(args.tail, max - 1, r.env, fuel))
  {
    hide MeanE, MeanMore;
  }

  lemma MeanOfSs(ss: Stmts, env: seq<Val>, fuel: nat)
    ensures ss.SNil? ==> MeanSs(ss, env, fuel) == On(env)
    ensures ss.SCons? ==>
      var f := MeanS(ss.head, env, fuel);
      MeanSs(ss, env, fuel) == if f.On? then MeanSs(ss.tail, f.env, fuel) else f
  {
    hide MeanS;
  }

  lemma MeanOfS(s: Stmt, env: seq<Val>, fuel: nat)
    ensures s.Empty? ==> MeanS(s, env, fuel) == On(env)
    ensures s.Block? ==>
      var f := MeanS(s.first, env, fuel);
      MeanS(s, env, fuel) == if f.On? then MeanSs(s.more, f.env, fuel) else f
    ensures s.If? ==>
      var t := MeanTest(MeanE(s.cond, env, fuel));
      && (t.Open? ==> MeanS(s, env, fuel).UnclearFlow?)
      && (t.Yes? ==> MeanS(s, env, fuel) == MeanS(s.thn, t.env, fuel))
      && (t.No? ==> MeanS(s, env, fuel) == if s.els.TheStmt? then MeanS(s.els.s, t.env, fuel) else On(t.env))
    ensures s.While? ==> MeanS(s, env, fuel) == MeanLoop(s, env, fuel, fuel)
    ensures s.For? ==>
      var r := MeanO(s.init, env, fuel);
      MeanS(s, env, fuel) == if r.Unclear? then UnclearFlow else MeanLoop(s, r.env, fuel, fuel)
    ensures s.ForIn? ==> MeanS(s, env, fuel).UnclearFlow?
    ensures s.Break? ==> MeanS(s, env, fuel) == Broke(env)
    ensures s.Continue? ==> MeanS(s, env, fuel) == Again(env)
    ensures s.Return? ==>
      var r := MeanO(s.val, env, fuel);
      MeanS(s, env, fuel) == if r.Unclear? then UnclearFlow else Back(r.v)
    ensures s.Do? ==>
      var r := MeanE(s.e, env, fuel);
      MeanS(s, env, fuel) == if r.Unclear? then UnclearFlow else On(r.env)
  {
    hide MeanE, MeanO, MeanSs, MeanLoop, MeanTest;
  }

  /** One round of a loop. */
  lemma MeanOfLoop(s: Stmt, env: seq<Val>, rounds: nat, fuel: nat)
    requires s.While? || s.For?
    ensures rounds == 0 ==> MeanLoop(s, env, rounds, fuel).UnclearFlow?
    ensures rounds > 0 ==>
      var t := if s.While? then MeanTest(MeanE(s.cond, env, fuel))
        else if s.test.NoExpr? then Yes(env) else MeanTest(MeanE(s.test.e, env, fuel));
      && (t.Open? ==> MeanLoop(s, env, rounds, fuel).UnclearFlow?)
      && (t.No? ==> MeanLoop(s, env, rounds, fuel) == On(t.env))
      && (t.Yes? ==>
        var f := MeanS(s.body, t.env, fuel);
        && (f.UnclearFlow? || f.Back? ==> MeanLoop(s, env, rounds, fuel) == f)
        && (f.Broke? ==> MeanLoop(s, env, rounds, fuel) == On(f.env))
        && (f.On? || f.Again? ==>
          var r := if s.While? then Gives(NullVal, f.env) else MeanE(s.step, f.env, fuel);
          MeanLoop(s, env, rounds, fuel) == if r.Unclear? then UnclearFlow else MeanLoop(s, r.env, rounds - 1, fuel)))
  {
    hide MeanE, MeanS, MeanTest;
    var t := Condition(s, env, fuel);
    if rounds > 0 && t.Yes? {
      var f := MeanS(s.body, t.env, fuel);
      if f.On? || f.Again? { MeanOfNext(s, f.env, rounds, fuel); }
    }
  }

  lemma MeanOfNext(s: Stmt, env: seq<Val>, rounds: nat, fuel: nat)
    requires (s.While? || s.For?) && rounds > 0
    ensures var r := if s.While? then Gives(NullVal, env) else MeanE(s.step, env, fuel);
      MeanNext(s, env, rounds, fuel) == if r.Unclear? then UnclearFlow else MeanLoop(s, r.env, rounds - 1, fuel)
  {
    hide MeanE, MeanS, MeanLoop, Condition;
  }

  /** The run of the body, if there are arguments to run it with. */
  function MeanRun(fn: Expr, a: Args, fuel: nat): Flow
    requires fn.Func? && fn.body.Code?
  {
    if a.Vals? && fuel > 0 then MeanSs(fn.body.stmts, Locals(a.vs, fn.body.locals), fuel - 1) else UnclearFlow
  }
}
