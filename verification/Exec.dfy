/** The evaluator of cmd/lefty/exec.c: its discipline of stacks, and that it computes what `ExecMeaning` says.

    What is found in a table is left open (`*`), so the statements hold for all contents of tables.  `fuel` bounds
    the depth of calls and the rounds of each loop: a run that needs more ends with `Stopped`, and every run that
    ends is covered by some bound. */
module Exec {
  import opened Options
  import C = Collector
  import opened LeftySyntax
  import opened ExecState
  import opened ExecMeaning

  /** tnk_t: where an assignment goes. */
  datatype Target = Local(n: nat) | ByObject(ko: Ptr) | ByConstant

  datatype Lookup = NoTarget | Found(t: Target) | NoEnd(out: Out)

  /** The variable takes its keys from an object, and there is a value which is no table. */
  predicate Leaks(path: Exprs, tblo: Ptr, o: Option<Object>) {
    KeyedByObject(path) && tblo.At? && o != Some(ATable)
  }

  /** The object that an expression is sure to make. */
  function Made(e: Expr): (o: Option<Object>)
    ensures o != Some(ATable)
  {
    match e
    case Int(n) => Some(ANumber(n as real))
    case Str(s) => Some(AString(s))
    case Func(_, _) => Some(ACode(e))
    case Paren(a) => Made(a)
    case _ => None
  }

  lemma {:induction false} MadeMeans(e: Expr, env: seq<Val>, fuel: nat)
    requires Made(e).Some?
    ensures MeanE(e, env, fuel) == Gives(match Made(e).value
      case ANumber(x) => NumVal(x)
      case AString(s) => StrVal(s)
      case ACode(fn) => FunVal(fn)
      case ATable => NullVal, env)
  {
    MeanOf(e, env, fuel);
    if e.Paren? { MadeMeans(e.arg, env, fuel); }
  }

  /** An object that is a key. */
  predicate IsKey(o: Option<Object>) {
    o.Some? && (o.value.ANumber? || o.value.AString?)
  }

  /** Every index is a constant, so the variable can always be found or made. */
  predicate SureKeys(path: Exprs) {
    match path
    case ENil => true
    case ECons(e, rest) => IsKey(Made(e)) && SureKeys(rest)
  }

  /** The last index is there and has to be evaluated to an object. */
  predicate KeyedByObject(path: Exprs) {
    match path
    case ENil => false
    case ECons(e, rest) => if rest.ENil? then !e.Str? && !e.Int? else KeyedByObject(rest)
  }

  function NumberOf(o: Option<Object>): Option<real> {
    if o.Some? && o.value.ANumber? then Some(o.value.x) else None
  }

  function NumberIn(v: Val): Option<real> {
    if v.NumVal? then Some(v.x) else None
  }

  /** An address that is on no mark. */
  function Unmarked(marks: seq<Ptr>): (p: C.Ref)
    ensures forall v :: v in marks && v.At? ==> v.p < p
  {
    if marks == [] then 0
    else
      var p, v := Unmarked(marks[..|marks| - 1]), marks[|marks| - 1];
      if v.At? && v.p >= p then v.p + 1 else p
  }

  class Machine {
    var st: Stacks
    var rtno: Ptr
    var nextJump: nat                 // every jmp_buf in use has a smaller number
    const null_: Ptr                  // the table that the variable null holds at first
    const ifuncs: seq<(nat, nat)>     // how many arguments each internal function takes
    const strict: bool                // whether all code keeps break and continue in loops

    ghost predicate Good()
      reads this
    {
      && Rooted(st) && st.j1 < nextJump && st.j2 < nextJump
      && forall p :: p in st.objs && st.objs[p].ACode? ==> OkFunc(st.objs[p].fn, strict)
    }

    /** The running function has its nl locals. */
    ghost predicate Room(nl: nat)
      reads this
    {
      st.flvari + nl <= |st.lvars|
    }

    /** No value waits to be returned. */
    ghost predicate Ready(nl: nat)
      reads this
    {
      Good() && Room(nl) && rtno.Null?
    }

    /** An expression came out as it means. */
    ghost predicate Meets(r: Result, out: Out, nl: nat)
      reads this
    {
      r.Gives? ==> out.Value? && Room(nl) && ValOf(st, out.v) == r.v && Env(st, nl) == r.env
    }

    /** A statement ended as it means, from a state with the targets j1 and j2. */
    ghost predicate Flows(f: Flow, out: Out, j1: nat, j2: nat, loop: bool, nl: nat)
      reads this
    {
      match f
      case On(env) => out.Value? && Room(nl) && Env(st, nl) == env
      case Broke(env) => loop ==> out == Jump(j1, BreakJump) && Room(nl) && Env(st, nl) == env
      case Again(env) => loop ==> out == Jump(j1, ContinueJump) && Room(nl) && Env(st, nl) == env
      case Back(v) => out == Jump(j2, ReturnJump) && ValOf(st, rtno) == v
      case UnclearFlow => true
    }

    /** Einit, after Tinit has marked Ttrue and Tfalse: the root table is the next mark, and no target is set. */
    constructor (tt: C.Ref, tf: C.Ref, root: C.Ref, null_: Ptr, ifuncs: seq<(nat, nat)>, strict: bool)
      requires tt != tf && tt != root && tf != root
      ensures Ready(0) && st.marks == [C.At(tt), C.At(tf), C.At(root)] && st.lvars == [] && st.sinfo == []
      ensures this.null_ == null_ && this.ifuncs == ifuncs && this.strict == strict
    {
      this.null_, this.ifuncs, this.strict := null_, ifuncs, strict;
      st := Stacks([C.At(tt), C.At(tf), C.At(root)], [], 0, [], 0, 0, map[tt := ANumber(1.0), tf := ANumber(0.0)]);
      rtno := C.Null;
      nextJump := 1;
    }

    // ---- objects ----

    /** A new object; the cell may be one that was in use before, but none that a mark holds. */
    method New(o: Object, nl: nat) returns (v: Ptr)
      requires Good() && Room(nl) && (o.ACode? ==> OkFunc(o.fn, strict))
      modifies this`st
      ensures Good() && Room(nl) && Balanced(old(st), st, nl) && v.At? && ObjectOf(st, v) == Some(o)
      ensures Env(st, nl) == old(Env(st, nl))
      ensures forall w :: w in old(st.marks) ==> ObjectOf(st, w) == ObjectOf(old(st), w)
    {
      hide Rooted, OkFunc;
      var p: C.Ref := *;
      if C.At(p) in st.marks { p := Unmarked(st.marks); }
      PlaceKeeps(st, p, o, nl);
      PlaceSame(st, p, o, nl);
      st := Place(st, p, o);
      v := C.At(p);
    }

    /** What a look-up finds: nothing, or an object, which holds anything if no mark holds it. */
    method AnyValue(nl: nat) returns (v: Ptr)
      requires Good() && Room(nl)
      modifies this`st
      ensures Good() && Room(nl) && Balanced(old(st), st, nl) && Env(st, nl) == old(Env(st, nl))
      ensures forall w :: w in old(st.marks) ==> ObjectOf(st, w) == ObjectOf(old(st), w)
    {
      hide Rooted, OkFunc;
      SteadySame(st, nl);
      var isNew, o: Object := *, *;
      if isNew && (o.ACode? ==> OkFunc(o.fn, strict)) {
        v := New(o, nl);
      } else {
        v := *;
      }
    }

    /** boolop. */
    function Boolop(v: Ptr): bool
      reads this
      ensures Truth(ValOf(st, v)).Some? ==> Truth(ValOf(st, v)).value == Boolop(v)
    {
      match ObjectOf(st, v)
      case None => false
      case Some(ANumber(x)) => x != 0.0
      case Some(ATable) => v != null_
      case _ => true
    }

    /** orderop. */
    method Orderop(v: Ptr, op: BinOp, w: Ptr) returns (r: bool)
      requires op != BOr && op != BAnd && !IsArith(op)
      ensures var a, b := ObjectOf(st, v), ObjectOf(st, w);
        (a.Some? && b.Some? && a.value.ACode? && b.value.ACode?) || (a == b == Some(ATable)) ==>
          (r <==> (op == BEq && v == w) || (op == BNe && v != w))
      ensures Order(ValOf(st, v), op, ValOf(st, w)).Some? ==> r == Order(ValOf(st, v), op, ValOf(st, w)).value
    {
      if v.Null? || w.Null? { return (v.At? || w.At?) && op == BNe; }
      var a, b := ObjectOf(st, v).value, ObjectOf(st, w).value;
      var lt, eq := false, false;
      if a.ANumber? && b.ANumber? {
        lt, eq := a.x < b.x, a.x == b.x;
      } else if a.AString? && b.AString? {
        lt, eq := Less(a.s, b.s), a.s == b.s;
      } else if a.ACode? == b.ACode? && a.ATable? == b.ATable? && a.ANumber? == b.ANumber? {
        if op != BEq && op != BNe { return false; }
        eq := v == w;
      } else {
        return false;
      }
      r := if op == BEq then eq else if op == BNe then !eq else if op == BLt then lt
        else if op == BLe then lt || eq else if op == BGt then !lt && !eq else !lt;
    }

    /** arithop, with two operands; what is divided by zero is left open. */
    method Arithop(x: Option<real>, op: BinOp, y: Option<real>, nl: nat) returns (v: Ptr)
      requires Good() && Room(nl) && IsArith(op)
      modifies this`st
      ensures Good() && Room(nl) && Balanced(old(st), st, nl) && Env(st, nl) == old(Env(st, nl))
      ensures x.None? || y.None? ==> v.Null?
      ensures x.Some? && y.Some? && Arith(NumVal(x.value), op, NumVal(y.value)).Some? ==>
        ValOf(st, v) == Arith(NumVal(x.value), op, NumVal(y.value)).value
    {
      hide Rooted, Steady, Env;
      SteadySame(st, nl);
      if x.None? || y.None? { return C.Null; }
      var d: real := *;
      if op == BPlus {
        d := x.value + y.value;
      } else if op == BMinus {
        d := x.value - y.value;
      } else if op == BMul {
        d := Times(x.value, y.value);
      } else if op == BDiv && y.value != 0.0 {
        d := x.value / y.value;
      } else if op == BMod && Trunc(y.value) != 0 {
        d := CRem(Trunc(x.value), Trunc(y.value)) as real;
      }
      v := New(ANumber(d), nl);
    }

    // ---- expressions ----

    /** eeval of an expression. */
    method EEval(e: Expr, nl: nat, fuel: nat) returns (out: Out)
      requires Ready(nl) && OkE(e, nl, strict)
      modifies this
      ensures Good() && !out.Jump?
      ensures out.Value? ==> Balanced(old(st), st, nl) && rtno.Null?
      ensures out.Gone? ==> !strict && Unwound(old(st), st)
      ensures Meets(MeanE(e, old(Env(st, nl)), fuel), out, nl)
      decreases fuel, e, 3
    {
      hide Rooted, Unwound, Steady, Env, OkEs, OkItems, OkSs, MeanE, MeanAssign, MeanBin, MeanVar, Balanced;
      SteadySame(st, nl);
      MeanOf(e, Env(st, nl), fuel);
      match e {
        case Assign(l, r) => out := EAssign(l, r, nl, fuel);
        case Bin(op, l, r) => out := EBin(op, l, r, nl, fuel);
        case Uminus(a) => out := EMinus(a, nl, fuel);
        case Not(a) =>
          out := EEval(a, nl, fuel);
          if out.Value? {
            TruthsAre(st);
            out := Value(if Boolop(out.v) then Tfalse(st) else Ttrue(st));
          }
        case Paren(a) => out := EEval(a, nl, fuel);
        case Call(_, _) => out := EFcall(e, nl, fuel);
        case Int(n) =>
          var v := New(ANumber(n as real), nl);
          out := Value(v);
        case Str(s) =>
          var v := New(AString(s), nl);
          out := Value(v);
        case Var(_, _, _) => out := GetVal(e, nl, fuel);
        case Func(_, _) =>
          OkAnywhere(e, nl, strict);
          var v := New(ACode(e), nl);
          out := Value(v);
        case Tcons(items) => out := ETable(items, nl, fuel);
      }
    }

    method EAssign(l: Expr, r: Expr, nl: nat, fuel: nat) returns (out: Out)
      requires Ready(nl) && OkE(l, nl, strict) && OkE(r, nl, strict)
      modifies this
      ensures Good() && !out.Jump?
      ensures out.Value? ==> Balanced(old(st), st, nl) && rtno.Null?
      ensures out.Gone? ==> !strict && Unwound(old(st), st)
      ensures Meets(MeanAssign(l, MeanE(r, old(Env(st, nl)), fuel)), out, nl)
      decreases fuel, Assign(l, r), 0
    {
      hide Rooted, Unwound, Steady, OkE, Env, MeanE, Balanced, ValOf, KeyedByObject, SureKeys;
      out := EEval(r, nl, fuel);
      if !out.Value? { return; }
      NullIs(st, out.v);
      if out.v.Null? { return; }
      BalancedMeans(old(st), st, nl);
      ghost var s1 := st;
      var m1 := |st.marks|;
      PushMarkKeeps(st, out.v, nl);
      st := PushMark(st, out.v);
      ghost var s2 := st;
      EnvSame(s1, s2, nl);
      SteadyTrans(old(st), s1, s2, nl);
      var res := GetVar(l, nl, fuel);
      if res.NoEnd? {
        out := res.out;
        UnwoundAfter(old(st), s2, st, out, nl);
        return;
      }
      BalancedMeans(s2, st, nl);
      PopTemp(s1, out.v, m1, nl);
      BalancedTrans(old(st), s1, st, nl);
      ValFollows(s1, st, out.v);
      NullIs(st, C.Null);
      if res.NoTarget? {
        out := Value(C.Null);
        return;
      }
      ghost var s3 := st;
      SetVar(res.t, out.v, nl);
      SameObjects(s3, st);
      BalancedTrans(old(st), s3, st, nl);
    }

    /** Mpopmark of a mark that was pushed for a while. */
    method PopTemp(ghost s: Stacks, v: Ptr, m: nat, nl: nat)
      requires Good() && Room(nl) && Rooted(s) && s.flvari + nl <= |s.lvars|
      requires Balanced(PushMark(s, v), st, nl) && m == |s.marks|
      modifies this`st
      ensures Good() && Balanced(s, st, nl) && ObjectOf(st, v) == ObjectOf(s, v)
      ensures st.lvars == old(st).lvars && st.objs == old(st).objs && Room(nl) && Env(st, nl) == old(Env(st, nl))
      ensures st.flvari == s.flvari
    {
      hide Rooted, Unwound, Steady, Env;
      PushMarkKeeps(s, v, nl);
      SteadyTrans(s, PushMark(s, v), st, nl);
      TempSame(s, st, v, nl);
      SteadyMeans(PushMark(s, v), st, nl);
      PopMarkKeeps(s, st, m, nl);
      EnvSame(st, PopMark(st, m), nl);
      st := PopMark(st, m);
    }

    /** - : the operand is a number in the code, or is evaluated. */
    method EMinus(a: Expr, nl: nat, fuel: nat) returns (out: Out)
      requires Ready(nl) && OkE(a, nl, strict)
      modifies this
      ensures Good() && !out.Jump?
      ensures out.Value? ==> Balanced(old(st), st, nl) && rtno.Null?
      ensures out.Gone? ==> !strict && Unwound(old(st), st)
      ensures Meets(MeanMinus(MeanE(a, old(Env(st, nl)), fuel)), out, nl)
      decreases fuel, Uminus(a), 0
    {
      hide Rooted, Unwound, Steady, Env, OkEs, OkItems, OkSs, MeanE, Balanced;
      SteadySame(st, nl);
      MeanOf(a, Env(st, nl), fuel);
      var x: Option<real> := None;
      if a.Int? {
        x := Some(a.n as real);
      } else {
        out := EEval(a, nl, fuel);
        if !out.Value? || out.v.Null? { return; }
        x := NumberOf(ObjectOf(st, out.v));
      }
      BalancedMeans(old(st), st, nl);
      ghost var s1 := st;
      if x.None? { return Value(C.Null); }
      var v := New(ANumber(-x.value), nl);
      BalancedTrans(old(st), s1, st, nl);
      out := Value(v);
    }

    /** The cases of eeval with two operands. */
    method EBin(op: BinOp, l: Expr, r: Expr, nl: nat, fuel: nat) returns (out: Out)
      requires Ready(nl) && OkE(l, nl, strict) && OkE(r, nl, strict)
      modifies this
      ensures Good() && !out.Jump?
      ensures out.Value? ==> Balanced(old(st), st, nl) && rtno.Null?
      ensures out.Gone? ==> !strict && Unwound(old(st), st)
      ensures Meets(MeanE(Bin(op, l, r), old(Env(st, nl)), fuel), out, nl)
      decreases fuel, Bin(op, l, r), 2
    {
      hide Rooted, Unwound, Steady, OkE, Env, MeanE, MeanBin, Balanced;
      MeanOf(Bin(op, l, r), Env(st, nl), fuel);
      if op == BOr || op == BAnd {
        out := EBool(op, l, r, nl, fuel);
      } else if IsArith(op) {
        out := EArith(op, l, r, nl, fuel);
      } else {
        out := ECompare(op, l, r, nl, fuel);
      }
    }

    /** | and & : the second operand is evaluated only if the first does not decide. */
    method EBool(op: BinOp, l: Expr, r: Expr, nl: nat, fuel: nat) returns (out: Out)
      requires Ready(nl) && OkE(l, nl, strict) && OkE(r, nl, strict) && (op == BOr || op == BAnd)
      modifies this
      ensures Good() && !out.Jump?
      ensures out.Value? ==> Balanced(old(st), st, nl) && rtno.Null?
      ensures out.Gone? ==> !strict && Unwound(old(st), st)
      ensures Meets(MeanE(Bin(op, l, r), old(Env(st, nl)), fuel), out, nl)
      decreases fuel, Bin(op, l, r), 1
    {
      hide Rooted, Unwound, Steady, OkE, OkFunc, Env, MeanE, Balanced, ValOf;
      MeanOf(Bin(op, l, r), Env(st, nl), fuel);
      out := EEval(l, nl, fuel);
      if !out.Value? { return; }
      BalancedMeans(old(st), st, nl);
      TruthsAre(st);
      if Boolop(out.v) == (op == BOr) {
        out := Value(if op == BOr then Ttrue(st) else Tfalse(st));
        return;
      }
      ghost var s1 := st;
      out := EEval(r, nl, fuel);
      UnwoundAfter(old(st), s1, st, out, nl);
      if !out.Value? { return; }
      BalancedTrans(old(st), s1, st, nl);
      TruthsAre(st);
      out := Value(if Boolop(out.v) then Ttrue(st) else Tfalse(st));
    }

    /** Comparisons: both operands are evaluated, also when the first has no value. */
    method ECompare(op: BinOp, l: Expr, r: Expr, nl: nat, fuel: nat) returns (out: Out)
      requires Ready(nl) && OkE(l, nl, strict) && OkE(r, nl, strict) && op != BOr && op != BAnd && !IsArith(op)
      modifies this
      ensures Good() && !out.Jump?
      ensures out.Value? ==> Balanced(old(st), st, nl) && rtno.Null?
      ensures out.Gone? ==> !strict && Unwound(old(st), st)
      ensures Meets(MeanE(Bin(op, l, r), old(Env(st, nl)), fuel), out, nl)
      decreases fuel, Bin(op, l, r), 1
    {
      hide Rooted, Unwound, Steady, OkE, OkFunc, Env, MeanE, MeanBin, Balanced, Order, ValOf, BoolVal, IsArith;
      ghost var env := Env(st, nl);
      MeanOf(Bin(op, l, r), env, fuel);
      ghost var a := MeanE(l, env, fuel);
      ghost var b := if a.Gives? then MeanE(r, a.env, fuel) else Unclear;
      if a.Gives? { CompareMeans(op, a, b); }
      var v;
      out, v := ETwo(op, l, r, nl, fuel, a, b);
      if !out.Value? { return; }
      TruthsAre(st);
      var t := Orderop(v, op, out.v);
      out := Value(if t then Ttrue(st) else Tfalse(st));
    }

    /** Two operands, the first marked while the second is evaluated. */
    method ETwo(ghost op: BinOp, l: Expr, r: Expr, nl: nat, fuel: nat, ghost a: Result, ghost b: Result)
      returns (out: Out, v: Ptr)
      requires Ready(nl) && OkE(l, nl, strict) && OkE(r, nl, strict)
      requires a == MeanE(l, Env(st, nl), fuel) && (a.Gives? ==> b == MeanE(r, a.env, fuel))
      modifies this
      ensures Good() && !out.Jump?
      ensures out.Value? ==> Balanced(old(st), st, nl) && rtno.Null?
      ensures out.Gone? ==> !strict && Unwound(old(st), st)
      ensures a.Gives? ==> Meets(b, out, nl) && (out.Value? ==> ValOf(st, v) == a.v)
      decreases fuel, Bin(op, l, r), 0
    {
      hide Rooted, Unwound, Steady, OkE, OkFunc, Env, MeanE, Balanced, ValOf;
      v := C.Null;
      out := EEval(l, nl, fuel);
      if !out.Value? { return; }
      BalancedMeans(old(st), st, nl);
      ghost var s1 := st;
      v := out.v;
      out := ESecond(r, v, v.At?, nl, fuel);
      UnwoundAfter(old(st), s1, st, out, nl);
      if !out.Value? { return; }
      BalancedTrans(old(st), s1, st, nl);
      ValFollows(s1, st, v);
    }

    /** Arithmetic: an operand that is a number in the code makes no object and needs no mark. */
    method EArith(op: BinOp, l: Expr, r: Expr, nl: nat, fuel: nat) returns (out: Out)
      requires Ready(nl) && OkE(l, nl, strict) && OkE(r, nl, strict) && IsArith(op)
      modifies this
      ensures Good() && !out.Jump?
      ensures out.Value? ==> Balanced(old(st), st, nl) && rtno.Null?
      ensures out.Gone? ==> !strict && Unwound(old(st), st)
      ensures Meets(MeanE(Bin(op, l, r), old(Env(st, nl)), fuel), out, nl)
      decreases fuel, Bin(op, l, r), 1
    {
      hide Rooted, Unwound, Steady, OkE, OkFunc, Env, MeanE, MeanBin, Balanced, Arith, ValOf, IsArith;
      ghost var env := Env(st, nl);
      MeanOf(Bin(op, l, r), env, fuel);
      ghost var a := MeanE(l, env, fuel);
      if a.Gives? { ArithMeans(op, a, MeanE(r, a.env, fuel)); }
      var x, v;
      out, x, v := EFirst(l, nl, fuel);
      NullIs(st, C.Null);
      if !out.Value? || out.v.Null? { return; }
      BalancedMeans(old(st), st, nl);
      ghost var s1 := st;
      var y;
      out, x, y := ELast(r, x, v, nl, fuel);
      UnwoundAfter(old(st), s1, st, out, nl);
      if !out.Value? { return; }
      BalancedMeans(s1, st, nl);
      BalancedTrans(old(st), s1, st, nl);
      ghost var s2 := st;
      var w := Arithop(x, op, y, nl);
      BalancedTrans(old(st), s2, st, nl);
      out := Value(w);
      NullIs(st, w);
      ArithNone(op);
    }

    /** The first operand: a number in the code, or the object v, whose number is looked at later. */
    method EFirst(l: Expr, nl: nat, fuel: nat) returns (out: Out, x: Option<real>, v: Ptr)
      requires Ready(nl) && OkE(l, nl, strict)
      modifies this
      ensures Good() && !out.Jump?
      ensures out.Value? ==> Balanced(old(st), st, nl) && rtno.Null?
      ensures out.Gone? ==> !strict && Unwound(old(st), st)
      ensures out.Value? && out.v.At? ==> x.Some? || v.At?
      ensures var a := MeanE(l, old(Env(st, nl)), fuel);
        a.Gives? ==>
          && out.Value? && (out.v.Null? <==> a.v.NullVal?) && Room(nl) && Env(st, nl) == a.env
          && (out.v.At? ==> if x.Some? then a.v == NumVal(x.value) else ValOf(st, v) == a.v)
      decreases fuel, l, 5
    {
      hide Rooted, Unwound, Steady, OkE, OkFunc, Env, MeanE, Balanced, ValOf;
      SteadySame(st, nl);
      MeanOf(l, Env(st, nl), fuel);
      out, x, v := Value(C.At(0)), None, C.Null;
      if l.Int? {
        x := Some(l.n as real);
      } else {
        out := EEval(l, nl, fuel);
        if out.Value? {
          v := out.v;
          NullIs(st, v);
        }
      }
    }

    /** The second operand, and then the numbers of both. */
    method ELast(r: Expr, x0: Option<real>, v: Ptr, nl: nat, fuel: nat)
      returns (out: Out, x: Option<real>, y: Option<real>)
      requires Ready(nl) && OkE(r, nl, strict) && (x0.Some? || v.At?)
      modifies this
      ensures Good() && !out.Jump?
      ensures out.Value? ==> Balanced(old(st), st, nl) && rtno.Null?
      ensures out.Gone? ==> !strict && Unwound(old(st), st)
      ensures out.Value? ==> x == if x0.Some? then x0 else NumberIn(old(ValOf(st, v)))
      ensures var b := MeanE(r, old(Env(st, nl)), fuel);
        b.Gives? ==> out.Value? && Room(nl) && Env(st, nl) == b.env && y == NumberIn(b.v)
      decreases fuel, r, 5
    {
      hide Rooted, Unwound, Steady, OkE, OkFunc, Env, MeanE, Balanced, ValOf;
      SteadySame(st, nl);
      MeanOf(r, Env(st, nl), fuel);
      out, x, y := Value(C.Null), x0, None;
      if r.Int? {
        y := Some(r.n as real);
      } else {
        out := ESecond(r, v, x0.None?, nl, fuel);
        if !out.Value? { return; }
        NumberIs(st, out.v);
        y := NumberOf(ObjectOf(st, out.v));
        if x0.None? { ValFollows(old(st), st, v); }
      }
      NumberIs(st, v);
      if x0.None? { x := NumberOf(ObjectOf(st, v)); }
    }

    lemma ArithNone(op: BinOp)
      requires IsArith(op)
      ensures forall a: Val, b: Val {:trigger Arith(a, op, b)} :: !a.NumVal? || !b.NumVal? ==>
        Arith(a, op, b) == Some(NullVal)
    {
    }

    /** The second operand, with the first value marked or not; if it is, it still is what it was. */
    method ESecond(r: Expr, v1: Ptr, marked: bool, nl: nat, fuel: nat) returns (out: Out)
      requires Ready(nl) && OkE(r, nl, strict)
      modifies this
      ensures Good() && !out.Jump?
      ensures out.Value? ==> Balanced(old(st), st, nl) && rtno.Null?
      ensures out.Gone? ==> !strict && Unwound(old(st), st)
      ensures Meets(MeanE(r, old(Env(st, nl)), fuel), out, nl)
      ensures out.Value? && (marked || v1.Null?) ==> ObjectOf(st, v1) == ObjectOf(old(st), v1)
      decreases fuel, r, 4
    {
      hide Rooted, Unwound, Steady, OkE, Env, MeanE, Balanced;
      if !marked {
        out := EEval(r, nl, fuel);
        return;
      }
      ghost var s := st;
      var m1 := |st.marks|;
      PushMarkKeeps(st, v1, nl);
      EnvSame(st, PushMark(st, v1), nl);
      st := PushMark(st, v1);
      ghost var s2 := st;
      out := EEval(r, nl, fuel);
      UnwoundAfter(s, s2, st, out, nl);
      if !out.Value? { return; }
      BalancedMeans(s2, st, nl);
      EnvSame(st, PopMark(st, m1), nl);
      PopTemp(s, v1, m1, nl);
    }

    method ETable(items: Items, nl: nat, fuel: nat) returns (out: Out)
      requires Ready(nl) && OkItems(items, nl, strict)
      modifies this
      ensures Good() && !out.Jump?
      ensures out.Value? ==> Balanced(old(st), st, nl) && rtno.Null?
      ensures out.Gone? ==> !strict && Unwound(old(st), st)
      ensures out.Value? ==> ObjectOf(st, out.v) == Some(ATable)
      decreases fuel, Tcons(items), 0
    {
      hide Rooted, Unwound, Steady, OkItems, Env, Balanced;
      var v1 := New(ATable, nl);
      ghost var s := st;
      BalancedMeans(old(st), st, nl);
      var m1 := |st.marks|;
      PushMarkKeeps(st, v1, nl);
      st := PushMark(st, v1);
      ghost var s1 := st;
      out := EItems(items, nl, fuel);
      UnwoundAfter(s, s1, st, out, nl);
      UnwoundAfter(old(st), s, st, out, nl);
      if !out.Value? { return; }
      SteadyTrans(s, s1, st, nl);
      TempSame(s, st, v1, nl);
      PopMarkKeeps(s, st, m1, nl);
      EnvSame(st, PopMark(st, m1), nl);
      st := PopMark(st, m1);
      BalancedIs(s, st, nl);
      BalancedTrans(old(st), s, st, nl);
      out := Value(v1);
    }

    /** The loop of a table constructor; a stored value stays marked until the constructor ends. */
    method EItems(items: Items, nl: nat, fuel: nat) returns (out: Out)
      requires Ready(nl) && OkItems(items, nl, strict)
      modifies this
      ensures Good() && !out.Jump?
      ensures out.Value? ==> Steady(old(st), st, nl) && st.j1 == old(st).j1 && rtno.Null?
      ensures out.Gone? ==> !strict && Unwound(old(st), st)
      decreases fuel, items
    {
      hide Rooted, Unwound, Steady, OkE, Env, Meets, Balanced, MeanE;
      SteadySame(st, nl);
      out := Value(C.Null);
      if items.INil? { return; }
      out := EEval(items.val, nl, fuel);
      if !out.Value? { return; }
      BalancedMeans(old(st), st, nl);
      ghost var s1 := st;
      if out.v.At? {
        var m2 := |st.marks|;
        PushMarkKeeps(st, out.v, nl);
        st := PushMark(st, out.v);
        ghost var s2 := st;
        SteadyTrans(old(st), s1, s2, nl);
        out := EEval(items.key, nl, fuel);
        UnwoundAfter(old(st), s2, st, out, nl);
        if !out.Value? { return; }
        BalancedMeans(s2, st, nl);
        SteadyTrans(s1, s2, st, nl);
        if out.v.Null? {
          PopMarkKeeps(s1, st, m2, nl);
          st := PopMark(st, m2);
        }
        SteadyTrans(old(st), s1, st, nl);
      }
      SteadyMeans(old(st), st, nl);
      ghost var s3 := st;
      out := EItems(items.rest, nl, fuel);
      UnwoundAfter(old(st), s3, st, out, nl);
      if out.Value? { SteadyTrans(old(st), s3, st, nl); }
    }

    // ---- variables ----

    /** getval. */
    method GetVal(e: Expr, nl: nat, fuel: nat) returns (out: Out)
      requires Ready(nl) && OkE(e, nl, strict)
      modifies this
      ensures Good() && !out.Jump?
      ensures out.Value? ==> Balanced(old(st), st, nl) && rtno.Null?
      ensures out.Gone? ==> !strict && Unwound(old(st), st)
      ensures Meets(if e.Var? then MeanVar(e, old(Env(st, nl))) else Gives(NullVal, old(Env(st, nl))), out, nl)
      ensures e.Var? && e.slot.Some? && e.path.ENil? ==>
        st == old(st) && out == Value(st.lvars[st.flvari + e.slot.value].o)
      decreases fuel, e, 0
    {
      hide Rooted, Unwound, Steady, OkEs, Balanced;
      SteadySame(st, nl);
      if !e.Var? { return Value(C.Null); }
      var cvo: Ptr;
      if e.slot.Some? {
        cvo := st.lvars[st.flvari + e.slot.value].o;
        if e.path.ENil? { return Value(cvo); }
        if ObjectOf(st, cvo) != Some(ATable) { return Value(C.Null); }
      } else {
        cvo := AnyValue(nl);
      }
      BalancedMeans(old(st), st, nl);
      if cvo.Null? { return Value(C.Null); }
      ghost var s1 := st;
      out := GetPath(cvo, e.path, nl, fuel);
      UnwoundAfter(old(st), s1, st, out, nl);
      if out.Value? { BalancedTrans(old(st), s1, st, nl); }
    }

    /** The loop of getval: from a value by its indices. */
    method GetPath(cto: Ptr, path: Exprs, nl: nat, fuel: nat) returns (out: Out)
      requires Ready(nl) && OkEs(path, nl, strict)
      modifies this
      ensures Good() && !out.Jump?
      ensures out.Value? ==> Balanced(old(st), st, nl) && rtno.Null?
      ensures out.Gone? ==> !strict && Unwound(old(st), st)
      decreases fuel, path
    {
      hide Rooted, Unwound, Steady, OkE, Env, Balanced, Meets, MeanE;
      SteadySame(st, nl);
      if path.ENil? { return Value(cto); }
      if ObjectOf(st, cto) != Some(ATable) { return Value(C.Null); }
      if !path.head.Str? && !path.head.Int? {
        out := EEval(path.head, nl, fuel);
        if !out.Value? || out.v.Null? { return; }
      }
      BalancedMeans(old(st), st, nl);
      ghost var s0 := st;
      var cvo := AnyValue(nl);
      BalancedTrans(old(st), s0, st, nl);
      BalancedMeans(old(st), st, nl);
      if cvo.Null? { return Value(C.Null); }
      ghost var s1 := st;
      out := GetPath(cvo, path.tail, nl, fuel);
      UnwoundAfter(old(st), s1, st, out, nl);
      if out.Value? { BalancedTrans(old(st), s1, st, nl); }
    }

    /** The variable to assign to.  A local that is to hold a table and does not is given one. */
    method GetVar(e: Expr, nl: nat, fuel: nat) returns (res: Lookup)
      requires Ready(nl) && OkE(e, nl, strict)
      modifies this
      ensures Good() && (res.NoEnd? ==> res.out.Stopped? || res.out.Gone?)
      ensures !res.NoEnd? ==> Balanced(old(st), st, nl) && rtno.Null?
      ensures res.NoEnd? && res.out.Gone? ==> !strict && Unwound(old(st), st)
      ensures res.Found? && res.t.Local? ==> res.t.n < nl
      ensures res.Found? ==> e.Var? && (res.t.ByObject? <==> KeyedByObject(e.path))
      ensures e.Var? && SureKeys(e.path) ==> res.Found?
      ensures !e.Var? ==> res.NoTarget? && st == old(st)
      ensures e.Var? && e.slot.Some? && e.path.ENil? ==> res == Found(Local(e.slot.value)) && st == old(st)
      decreases fuel, e, 0
    {
      hide Rooted, Unwound, Steady, OkEs, Env, Balanced;
      SteadySame(st, nl);
      if !e.Var? { return NoTarget; }
      if e.slot.Some? {
        if e.path.ENil? { return Found(Local(e.slot.value)); }
        if ObjectOf(st, st.lvars[st.flvari + e.slot.value].o) != Some(ATable) {
          ghost var s0 := st;
          var t := New(ATable, nl);
          BalancedMeans(s0, st, nl);
          ghost var s1 := st;
          SlotMark(st, e.slot.value);
          SetSlotKeeps(st, e.slot.value, t, nl);
          st := SetSlot(st, e.slot.value, t);
          BalancedTrans(s0, s1, st, nl);
        }
      }
      ghost var s1 := st;
      BalancedMeans(old(st), st, nl);
      res := VarPath(e.path, nl, fuel, ByConstant);
      if res.NoEnd? { UnwoundAfter(old(st), s1, st, res.out, nl); } else { BalancedTrans(old(st), s1, st, nl); }
    }

    method VarPath(path: Exprs, nl: nat, fuel: nat, last: Target) returns (res: Lookup)
      requires Ready(nl) && OkEs(path, nl, strict) && !last.Local?
      modifies this
      ensures Good() && (res.NoEnd? ==> res.out.Stopped? || res.out.Gone?)
      ensures !res.NoEnd? ==> Balanced(old(st), st, nl) && rtno.Null?
      ensures res.NoEnd? && res.out.Gone? ==> !strict && Unwound(old(st), st)
      ensures res.Found? ==> !res.t.Local?
      ensures res.Found? ==> (res.t.ByObject? <==> if path.ENil? then last.ByObject? else KeyedByObject(path))
      ensures SureKeys(path) ==> res.Found?
      decreases fuel, path
    {
      hide Rooted, Unwound, Steady, OkE, Env, Balanced, MeanE;
      SteadySame(st, nl);
      if path.ENil? { return Found(last); }
      var next := ByConstant;
      if !path.head.Str? && !path.head.Int? {
        if Made(path.head).Some? { MadeMeans(path.head, Env(st, nl), fuel); }
        var out := EEval(path.head, nl, fuel);
        if !out.Value? { return NoEnd(out); }
        if !IsKey(ObjectOf(st, out.v)) { return NoTarget; }
        next := ByObject(out.v);
        // a missing inner table is stored under this key, which is marked meanwhile
        ghost var s0 := st;
        BalancedMeans(old(st), st, nl);
        var m := |st.marks|;
        PushMarkKeeps(st, out.v, nl);
        st := PushMark(st, out.v);
        ghost var s2 := st;
        var inner := New(ATable, nl);
        BalancedMeans(s2, st, nl);
        PopTemp(s0, out.v, m, nl);
        BalancedTrans(old(st), s0, st, nl);
      }
      BalancedMeans(old(st), st, nl);
      ghost var s1 := st;
      res := VarPath(path.tail, nl, fuel, next);
      if res.NoEnd? { UnwoundAfter(old(st), s1, st, res.out, nl); } else { BalancedTrans(old(st), s1, st, nl); }
    }

    /** setvar: what a local holds is the value, and no other local changes. */
    method SetVar(t: Target, vo: Ptr, nl: nat)
      requires Good() && Room(nl) && (t.Local? ==> t.n < nl)
      modifies this`st
      ensures Good() && Room(nl) && Balanced(old(st), st, nl)
      ensures t.Local? ==> |st.lvars| == |old(st).lvars| && st.lvars[st.flvari + t.n].o == vo
      ensures t.Local? ==> Env(st, nl) == old(Env(st, nl))[t.n := ValOf(old(st), vo)]
      ensures st.objs == old(st).objs && (!t.Local? ==> st == old(st))
    {
      hide Rooted, Unwound, Steady;
      SteadySame(st, nl);
      if t.Local? {
        SlotMark(st, t.n);
        SetSlotKeeps(st, t.n, vo, nl);
        SlotSame(st, t.n, vo, nl);
        st := SetSlot(st, t.n, vo);
      }
    }

    // ---- calls ----

    /** efcall: whatever happens in it, the stacks and the jump targets are as before; its value is that of the call. */
    method EFcall(e: Expr, nl: nat, fuel: nat) returns (out: Out)
      requires Ready(nl) && e.Call? && OkE(e, nl, strict)
      modifies this
      ensures Good() && !out.Jump?
      ensures out.Value? ==> Balanced(old(st), st, nl) && rtno.Null?
      ensures out.Gone? ==> !strict && Unwound(old(st), st)
      ensures Meets(MeanE(e, old(Env(st, nl)), fuel), out, nl)
      decreases fuel, e, 0
    {
      hide Rooted, Unwound, Steady, Balanced, OkEs, OkFunc, Calling, Leave, Env, MeanE, MeanVar, MeanSs, MeanArgs,
        MeanCall, MeanRun;
      ghost var s, env := st, Env(st, nl);
      var own := |st.sinfo|;
      MeanOfCall(e.fn, e.args, env, fuel);
      RecordKeeps(st);
      EnvSame(st, Record(st), nl);
      st := Record(st);
      out := GetVal(e.fn, nl, fuel);
      UnwoundRecord(s, st, out);
      if !out.Value? { return; }
      CallFails(s, st, nl);
      BalancedMeans(Record(s), st, nl);
      var fo := ObjectOf(st, out.v);
      if fo.None? || !fo.value.ACode? {
        EnvSame(st, st.(sinfo := st.sinfo[..own]), nl);
        st := st.(sinfo := st.sinfo[..own]);
        return Value(C.Null);
      }
      var fdo := fo.value.fn;
      FuncOk(fdo, strict);
      var m := |st.marks|;
      CallStarts(s, st, out.v, nl);
      EnvSame(st, PushMark(st, out.v), nl);
      st := PushMark(st, out.v);
      CallingMeans(s, st, m, nl);
      out := ECall(fdo, e.args, m, nl, fuel, s);
    }

    /** efcall from the point where the function is known and marked. */
    method ECall(fdo: Expr, args: Exprs, m: nat, nl: nat, fuel: nat, ghost s: Stacks) returns (out: Out)
      requires Ready(nl) && OkEs(args, nl, strict) && OkFunc(fdo, strict) && fdo.Func?
      requires Rooted(s) && Calling(s, st, m, nl) && |st.lvars| == |s.lvars| && s.j1 < nextJump && s.j2 < nextJump
      modifies this
      ensures Good() && !out.Jump?
      ensures out.Value? ==> Balanced(s, st, nl) && rtno.Null?
      ensures out.Gone? ==> !strict && Unwound(s, st)
      ensures fdo.body.Code? ==>
        var a := MeanArgs(args, |fdo.params|, old(Env(st, nl)), fuel);
        Meets(MeanCall(fdo, a, MeanRun(fdo, a, fuel)), out, nl)
      decreases fuel, args, 1
    {
      hide Rooted, Unwound, Steady, Balanced, OkEs, OkFunc, Calling, Leave, Env, ValOf, MeanE, MeanSs, MeanArgs,
        Locals;
      CallingMeans(s, st, m, nl);
      var own := |st.sinfo| - 1;
      var left, n := args, 0;
      ghost var vals;
      out, left, n, vals := EArgs(args, if fdo.body.Internal? then -1 else |fdo.params|, nl, fuel, s, m);
      if !out.Value? { return; }
      CallStops(s, st, m, nl);
      CallingMeans(s, st, m, nl);
      if out.v.Null? || !Fits(fdo, left, n) {
        LeaveEnv(s, st, Leave(st, own, m, st.j1, st.j2), nl);
        st := Leave(st, own, m, st.j1, st.j2);
        NullIs(st, C.Null);
        BalancedMeans(s, st, nl);
        return Value(C.Null);
      }
      if fuel == 0 { return Stopped; }
      out := Body(fdo, n, m, fuel - 1, s, nl);
    }

    /** The argument counts agree. */
    predicate Fits(fdo: Expr, left: Exprs, n: nat)
      requires fdo.Func?
    {
      if fdo.body.Internal? then
        fdo.body.num < |ifuncs| && ifuncs[fdo.body.num].0 <= n <= ifuncs[fdo.body.num].1
      else left.ENil? && n == |fdo.params|
    }

    /** What the argument loops leave, as the meaning says. */
    ghost predicate Passed(a: Args, out: Out, left: Exprs, from: nat, nl: nat)
      reads this
    {
      match a
      case UnclearArgs => true
      case NoVal(env) => out == Value(C.Null) && Room(nl) && Env(st, nl) == env
      case Vals(vs, rest, env) =>
        && out.Value? && out.v.At? && left == rest && Room(nl) && Env(st, nl) == env
        && from <= |st.lvars| && SlotVals(st, from) == vs
    }

    /** The argument loops of efcall: at most max values, or all if max is negative.  Each value is at once in a slot
        of its own, with a mark that holds it, and stays there, and stays what it is, while the others are
        evaluated. */
    method EArgs(args: Exprs, max: int, nl: nat, fuel: nat, ghost s: Stacks, ghost m: nat)
      returns (out: Out, left: Exprs, n: nat, ghost vals: seq<Ptr>)
      requires Ready(nl) && OkEs(args, nl, strict) && Rooted(s) && Calling(s, st, m, nl)
      modifies this
      ensures Good() && !out.Jump?
      ensures out.Value? ==> Calling(s, st, m, nl) && rtno.Null?
      ensures out.Gone? ==> !strict && Unwound(s, st)
      ensures out.Value? ==> |vals| == n && |st.lvars| == old(|st.lvars|) + n && Holds(st, old(|st.lvars|), vals)
      ensures out.Value? ==> AreMade(st, vals, args) && Keeps(old(st), st, |s.lvars|, old(|st.lvars|))
      ensures max >= 0 ==> Passed(MeanArgs(args, max, old(Env(st, nl)), fuel), out, left, old(|st.lvars|), nl)
      decreases fuel, args, 0
    {
      hide Rooted, Unwound, Steady, OkE, OkFunc, Calling, Balanced, Env, MeanE, MeanArgs, ValOf, Made, Holds, AreMade,
        Keeps, SlotVals;
      out, left, n, vals := Value(C.At(0)), args, 0, [];
      ghost var s1, env := st, Env(st, nl);
      CallingMeans(s, st, m, nl);
      NoArgs(st, |s.lvars|, args);
      if max >= 0 { MeanOfArgs(args, max, env, fuel); }
      if args.ENil? || max == 0 { return; }
      out := EArg(args.head, nl, fuel, s, m);
      if !out.Value? { return; }
      NoArgs(st, |s.lvars|, args);
      NullIs(st, out.v);
      if out.v.Null? { return; }
      ghost var v, s2 := out.v, st;
      CallingMeans(s, st, m, nl);
      out, left, n, vals := EArgs(args.tail, if max < 0 then max else max - 1, nl, fuel, s, m);
      if out.Value? {
        CallingMeans(s, st, m, nl);
        assert |s.lvars| <= |s1.lvars|;
        ArgHeld(s1, s2, st, |s.lvars|, v, vals, args);
      }
      n := n + 1;
      vals := [v] + vals;
    }

    /** One argument: its value, unless it is NULL, is at once in a slot of its own. */
    method EArg(arg: Expr, nl: nat, fuel: nat, ghost s: Stacks, ghost m: nat) returns (out: Out)
      requires Ready(nl) && OkE(arg, nl, strict) && Rooted(s) && Calling(s, st, m, nl)
      modifies this
      ensures Good() && !out.Jump?
      ensures out.Value? ==> Calling(s, st, m, nl) && rtno.Null? && Room(nl)
      ensures out.Gone? ==> !strict && Unwound(s, st)
      ensures out.Value? ==> Keeps(old(st), st, |s.lvars|, old(|st.lvars|))
      ensures out.Value? && out.v.Null? ==> |st.lvars| == old(|st.lvars|)
      ensures out.Value? && out.v.At? ==> |st.lvars| == old(|st.lvars|) + 1 && st.lvars[old(|st.lvars|)].o == out.v
      ensures Made(arg).Some? ==> out.Value? && ObjectOf(st, out.v) == Made(arg)
      ensures Meets(MeanE(arg, old(Env(st, nl)), fuel), out, nl)
      decreases fuel, arg, 5
    {
      hide Rooted, Unwound, Steady, OkE, OkFunc, Calling, Balanced, Env, MeanE, ValOf, Made, Keeps;
      ghost var s1, env := st, Env(st, nl);
      CallingMeans(s, st, m, nl);
      if Made(arg).Some? { MadeMeans(arg, env, fuel); }
      out := EEval(arg, nl, fuel);
      UnwoundCall(s, s1, st, m, nl, 0, 0, out);
      if !out.Value? { return; }
      ArgEvaluated(s, s1, st, m, nl);
      BalancedMeans(s1, st, nl);
      KeepsPushed(s1, st, |s.lvars|, out.v);
      if Made(arg).Some? { MadeObject(arg, st, out.v, env, fuel); }
      if out.v.Null? { return; }
      ArgPushed(s, st, out.v, m, nl);
      PushEnv(st, out.v, nl);
      ValFollows(st, PushSlot(st, out.v), out.v);
      st := PushSlot(st, out.v);
    }

    /** The locals that no argument initialises are NULL, and roots too. */
    method Fill(n: nat, ln: nat, nl: nat, ghost s: Stacks, ghost m: nat)
      requires Good() && Calling(s, st, m, nl) && |st.lvars| == |s.lvars| + n && n <= ln
      modifies this`st
      ensures Good() && Calling(s, st, m, nl) && |st.lvars| == |s.lvars| + ln && st.objs == old(st).objs
      ensures old(st).lvars <= st.lvars && forall i :: old(|st.lvars|) <= i < |st.lvars| ==> st.lvars[i].o.Null?
      ensures SlotVals(st, |s.lvars|) == old(SlotVals(st, |s.lvars|)) + Nulls(ln - n)
      ensures s.flvari + nl <= |s.lvars| && st.flvari == s.flvari && Env(st, nl) == old(Env(st, nl))
    {
      hide Rooted, Unwound, Calling, OkFunc;
      CallingMeans(s, st, m, nl);
      var i := n;
      while i < ln
        invariant n <= i <= ln && |st.lvars| == |s.lvars| + i && Good() && Calling(s, st, m, nl)
        invariant old(st).lvars <= st.lvars && st.objs == old(st).objs && st.flvari == s.flvari
        invariant forall k :: |s.lvars| + n <= k < |st.lvars| ==> st.lvars[k].o.Null?
      {
        ArgPushed(s, st, C.Null, m, nl);
        CallingMeans(s, PushSlot(st, C.Null), m, nl);
        CallingMeans(s, st, m, nl);
        st := PushSlot(st, C.Null);
        i := i + 1;
      }
      assert SlotVals(st, |s.lvars|) == old(SlotVals(st, |s.lvars|)) + Nulls(ln - n);
      assert Env(st, nl) == old(Env(st, nl));
    }

    /** efcall from the point where the arguments are in their slots. */
    method Body(fdo: Expr, n: nat, m: nat, fuel: nat, ghost s: Stacks, nl: nat) returns (out: Out)
      requires Good() && Rooted(s) && Calling(s, st, m, nl) && s.j1 < nextJump && s.j2 < nextJump && rtno.Null?
      requires OkFunc(fdo, strict) && |st.lvars| == |s.lvars| + n && s.flvari + nl <= |s.lvars| && st.flvari == s.flvari
      requires fdo.body.Code? ==> n == |fdo.params|
      modifies this
      ensures Good() && !out.Jump?
      ensures out.Value? ==> Balanced(s, st, nl) && rtno.Null?
      ensures out.Gone? ==> !strict && Unwound(s, st)
      ensures fdo.body.Code? && LeavesFirst(fdo.body.stmts) ==> out.Gone?
      ensures fdo.body.Code? ==> Meets(MeanReturn(MeanSs(fdo.body.stmts,
        Locals(old(SlotVals(st, |s.lvars|)), fdo.body.locals), fuel), old(Env(st, nl))), out, nl)
      decreases fuel, fdo, 1
    {
      hide Rooted, Unwound, Steady, Balanced, Calling, Leave, OkSs, Env, MeanSs, ValOf;
      CallingMeans(s, st, m, nl);
      ghost var env := Env(st, nl);
      var own := |st.sinfo| - 1;
      var op1, op2 := st.j1, st.j2;
      if fdo.body.Internal? {
        ghost var t := st;
        EnterKeeps(t, t.j2);
        st := Enter(st, st.j2);
        rtno := AnyValue(n);
        CallEnds(s, t, st, m, nl, t.j2, n) by { BalancedMeans(Enter(t, t.j2), st, n); }
        BalancedMeans(Enter(t, t.j2), st, n);
      } else {
        var ln := |fdo.params| + CountDecls(fdo.body.locals);
        Fill(n, ln, nl, s, m);
        CallingMeans(s, st, m, nl);
        ghost var t := st;
        var id := nextJump;
        nextJump := nextJump + 1;
        EnterKeeps(t, id);
        EnterEnv(s, t, id, ln);
        st := Enter(st, id);
        out := ESs(fdo.body.stmts, ln, false, fuel);
        UnwoundCall(s, t, st, m, nl, id, ln, out);
        if out.Stopped? || out.Gone? { return; }
        SteadyMeans(Enter(t, id), st, ln);
        CallEnds(s, t, st, m, nl, id, ln);
        LeaveEnv(s, t, Leave(st, own, m, op1, op2), nl);
      }
      ghost var u := st;
      st := Leave(st, own, m, op1, op2);
      SameObjects(u, st);
      NullIs(st, C.Null);
      BalancedMeans(s, st, nl);
      out := Value(rtno);
      rtno := C.Null;
    }

    /** The callee finds its arguments and NULLs in its locals. */
    lemma EnterEnv(s: Stacks, t: Stacks, id: nat, ln: nat)
      requires |t.sinfo| > 0 && t.sinfo[|t.sinfo| - 1].llvari == |s.lvars| && |t.lvars| == |s.lvars| + ln && t == st
      ensures Env(Enter(t, id), ln) == SlotVals(st, |s.lvars|)
    {
      assert Env(Enter(t, id), ln) == SlotVals(st, |s.lvars|);
    }

    // ---- statements ----

    method ESs(ss: Stmts, nl: nat, loop: bool, fuel: nat) returns (out: Out)
      requires Ready(nl) && OkSs(ss, nl, loop, strict)
      modifies this
      ensures Good()
      ensures out.Value? || out.Jump? ==> Steady(old(st), st, nl)
      ensures !out.Stopped? ==> Ends(old(st), st, out, loop, strict, nl)
      ensures Goes(out) ==> rtno.Null?
      ensures LeavesFirst(ss) && !loop ==> out.Gone?
      ensures Flows(MeanSs(ss, old(Env(st, nl)), fuel), out, old(st).j1, old(st).j2, loop, nl)
      decreases fuel, ss, 0
    {
      hide Rooted, Unwound, Steady, OkS, MeanS, MeanSs, Env, ValOf;
      SteadySame(st, nl);
      NormalEnd(st, st, loop, strict, nl);
      MeanOfSs(ss, Env(st, nl), fuel);
      out := Value(C.Null);
      if ss.SNil? { return; }
      out := EStmt(ss.head, nl, loop, fuel);
      if !out.Value? { return; }
      SteadyMeans(old(st), st, nl);
      ghost var s1 := st;
      out := ESs(ss.tail, nl, loop, fuel);
      if !out.Stopped? { Then(old(st), s1, st, out, loop, strict, nl); }
    }

    /** eeval of a statement.  A break or continue jumps to pljbufp1, which is of this function only in a
        loop of it. */
    method EStmt(s: Stmt, nl: nat, loop: bool, fuel: nat) returns (out: Out)
      requires Ready(nl) && OkS(s, nl, loop, strict)
      modifies this
      ensures Good()
      ensures out.Value? || out.Jump? ==> Steady(old(st), st, nl)
      ensures !out.Stopped? ==> Ends(old(st), st, out, loop, strict, nl)
      ensures Goes(out) ==> rtno.Null?
      ensures s.Break? || s.Continue? ==> if loop then out.Jump? else out.Gone?
      ensures Flows(MeanS(s, old(Env(st, nl)), fuel), out, old(st).j1, old(st).j2, loop, nl)
      decreases fuel, s, 2
    {
      hide Rooted, Unwound, Steady, Balanced, OkE, OkSs, MeanS, MeanSs, MeanE, MeanO, MeanLoop, Env, ValOf;
      SteadySame(st, nl);
      MeanOfS(s, Env(st, nl), fuel);
      out := Value(C.Null);
      match s {
        case Empty =>
        case Block(first, more) =>
          out := EStmt(first, nl, loop, fuel);
          if out.Value? {
            SteadyMeans(old(st), st, nl);
            ghost var s1 := st;
            out := ESs(more, nl, loop, fuel);
            if !out.Stopped? { Then(old(st), s1, st, out, loop, strict, nl); }
          }
        case If(_, _, _) => out := EIf(s, nl, loop, fuel);
        case While(c, b) => out := EWhile(s, nl, fuel);
        case For(_, _, _, _) => out := EFor(s, nl, fuel);
        case ForIn(_, _, _) =>
          var found, tblo, ty;
          out, found, tblo, ty := EForIn(s, nl, fuel);
        case Break => out := if loop then Jump(st.j1, BreakJump) else Gone;
        case Continue => out := if loop then Jump(st.j1, ContinueJump) else Gone;
        case Return(o) =>
          out := EOpt(o, nl, fuel);
          if !out.Value? { return; }
          BalancedMeans(old(st), st, nl);
          if o.TheExpr? { rtno := out.v; }
          out := Jump(st.j2, ReturnJump);
        case Do(e) =>
          out := EEval(e, nl, fuel);
          if out.Value? { BalancedMeans(old(st), st, nl); }
      }
    }

    method EIf(s: Stmt, nl: nat, loop: bool, fuel: nat) returns (out: Out)
      requires Ready(nl) && s.If? && OkS(s, nl, loop, strict)
      modifies this
      ensures Good()
      ensures out.Value? || out.Jump? ==> Steady(old(st), st, nl)
      ensures !out.Stopped? ==> Ends(old(st), st, out, loop, strict, nl)
      ensures Goes(out) ==> rtno.Null?
      ensures Flows(MeanS(s, old(Env(st, nl)), fuel), out, old(st).j1, old(st).j2, loop, nl)
      decreases fuel, s, 1
    {
      hide Rooted, Unwound, Steady, Balanced, OkE, OkSs, OkFunc, MeanS, MeanSs, MeanE, MeanO, MeanLoop, MeanTest, Env,
        ValOf;
      MeanOfS(s, Env(st, nl), fuel);
      var yes;
      out, yes := ETest(s.cond, nl, fuel);
      if !out.Value? { return; }
      BalancedMeans(old(st), st, nl);
      NormalEnd(old(st), st, loop, strict, nl);
      ghost var s1 := st;
      if yes {
        out := EStmt(s.thn, nl, loop, fuel);
      } else if s.els.TheStmt? {
        out := EStmt(s.els.s, nl, loop, fuel);
      } else {
        return;
      }
      if !out.Stopped? { Then(old(st), s1, st, out, loop, strict, nl); }
    }

    /** A condition: eeval and boolop. */
    method ETest(e: Expr, nl: nat, fuel: nat) returns (out: Out, yes: bool)
      requires Ready(nl) && OkE(e, nl, strict)
      modifies this
      ensures Good() && !out.Jump?
      ensures out.Value? ==> Balanced(old(st), st, nl) && rtno.Null?
      ensures out.Gone? ==> !strict && Unwound(old(st), st)
      ensures var t := MeanTest(MeanE(e, old(Env(st, nl)), fuel));
        !t.Open? ==> out.Value? && Room(nl) && Env(st, nl) == t.env && (yes <==> t.Yes?)
      decreases fuel, e, 4
    {
      hide Rooted, Unwound, Steady, Balanced, OkE, OkFunc, MeanE, Env, ValOf, Truth, Boolop;
      out := EEval(e, nl, fuel);
      yes := out.Value? && Boolop(out.v);
    }

    /** PUSHJMP on pljbufp1. */
    method PushJump(nl: nat) returns (id: nat)
      requires Ready(nl)
      modifies this
      ensures Ready(nl) && id == old(nextJump) && st == old(st).(j1 := id) && nextJump == id + 1
      ensures Env(st, nl) == old(Env(st, nl))
    {
      EnvSame(st, st.(j1 := nextJump), nl);
      id := nextJump;
      nextJump := id + 1;
      st := st.(j1 := id);
    }

    /** POPJMP. */
    method PopJump(op: nat, nl: nat)
      requires Ready(nl) && op < nextJump
      modifies this`st
      ensures Ready(nl) && st == old(st).(j1 := op) && Env(st, nl) == old(Env(st, nl))
    {
      EnvSame(st, st.(j1 := op), nl);
      st := st.(j1 := op);
    }

    /** The body of a loop with the target id: what jumps there comes back, and the loop goes on unless it was a
        break. */
    method LoopBody(body: Stmt, id: nat, nl: nat, fuel: nat, ghost s0: Stacks) returns (out: Out, goes: bool)
      requires Ready(nl) && OkS(body, nl, true, strict)
      requires Steady(s0, st, nl) && st.j1 == id && s0.j2 < id && st.j2 == s0.j2
      modifies this
      ensures Good() && (out.Value? ==> Ready(nl) && st.j1 == id && st.j2 == s0.j2)
      ensures out.Value? || out.Jump? ==> Steady(s0, st, nl)
      ensures out.Jump? ==> out == Jump(s0.j2, ReturnJump)
      ensures out.Gone? ==> !strict && Unwound(s0, st)
      ensures var f := MeanS(body, old(Env(st, nl)), fuel);
        && (f.On? || f.Again? ==> out.Value? && goes && Env(st, nl) == f.env)
        && (f.Broke? ==> out.Value? && !goes && Env(st, nl) == f.env)
        && (f.Back? ==> out.Jump? && ValOf(st, rtno) == f.v)
      decreases fuel, body, 4
    {
      hide Rooted, Unwound, Steady, Balanced, OkS, OkFunc, MeanS, Env, ValOf;
      ghost var s1 := st;
      goes := false;
      out := EStmt(body, nl, true, fuel);
      UnwoundAfter(s0, s1, st, out, nl);
      if out.Stopped? || out.Gone? { return; }
      SteadyTrans(s0, s1, st, nl);
      SteadyMeans(s1, st, nl);
      if out.Jump? {
        if out.to != id { return; }
        goes := out.kind != BreakJump;
        out := Value(C.Null);
      } else {
        goes := true;
      }
    }

    /** ewhilest. */
    method EWhile(s: Stmt, nl: nat, fuel: nat) returns (out: Out)
      requires Ready(nl) && s.While? && OkE(s.cond, nl, strict) && OkS(s.body, nl, true, strict)
      modifies this
      ensures Good()
      ensures out.Value? || out.Jump? ==> Steady(old(st), st, nl)
      ensures !out.Stopped? ==> Ends(old(st), st, out, false, strict, nl)
      ensures Goes(out) ==> rtno.Null?
      ensures out.Gone? ==> Unwound(old(st), st)
      ensures Flows(MeanLoop(s, old(Env(st, nl)), fuel, fuel), out, old(st).j1, old(st).j2, false, nl)
      decreases fuel, s, 1
    {
      hide Rooted, Unwound, Steady, Balanced, OkE, OkS, OkFunc, MeanS, MeanSs, MeanE, MeanO, MeanLoop, MeanNext, Env,
        ValOf, MeanTest;
      ghost var f := MeanLoop(s, Env(st, nl), fuel, fuel);
      var op := st.j1;
      Retarget(st, nextJump, nl);
      var id := PushJump(nl);
      var rounds := fuel;
      while true
        invariant Ready(nl) && Steady(old(st), st, nl) && st.j1 == id && op < nextJump && old(st).j2 < id
        invariant st.j2 == old(st).j2
        invariant f.UnclearFlow? || f == MeanLoop(s, Env(st, nl), rounds, fuel)
        decreases rounds
      {
        MeanOfLoop(s, Env(st, nl), rounds, fuel);
        if rounds == 0 { return Stopped; }
        rounds := rounds - 1;
        ghost var s1 := st;
        var yes, goes;
        out, yes := ETest(s.cond, nl, fuel);
        UnwoundAfter(old(st), s1, st, out, nl);
        if !out.Value? { return; }
        BalancedMeans(s1, st, nl);
        SteadyTrans(old(st), s1, st, nl);
        if !yes { break; }
        out, goes := LoopBody(s.body, id, nl, fuel, old(st));
        if !out.Value? { return; }
        if !goes { break; }
      }
      Retarget(st, op, nl);
      SteadyTrans(old(st), st, st.(j1 := op), nl);
      PopJump(op, nl);
      out := Value(C.Null);
    }

    /** eforst. */
    method EFor(s: Stmt, nl: nat, fuel: nat) returns (out: Out)
      requires Ready(nl) && s.For?
      requires OkO(s.init, nl, strict) && OkO(s.test, nl, strict) && OkE(s.step, nl, strict)
      requires OkS(s.body, nl, true, strict)
      modifies this
      ensures Good()
      ensures out.Value? || out.Jump? ==> Steady(old(st), st, nl)
      ensures !out.Stopped? ==> Ends(old(st), st, out, false, strict, nl)
      ensures Goes(out) ==> rtno.Null?
      ensures out.Gone? ==> Unwound(old(st), st)
      ensures Flows(MeanS(s, old(Env(st, nl)), fuel), out, old(st).j1, old(st).j2, false, nl)
      decreases fuel, s, 1
    {
      hide Rooted, Unwound, Steady, Balanced, OkE, OkS, OkFunc, MeanS, MeanSs, MeanE, MeanO, MeanLoop, MeanNext, Env,
        ValOf;
      MeanOfS(s, Env(st, nl), fuel);
      var op := st.j1;
      Retarget(st, nextJump, nl);
      var id := PushJump(nl);
      SteadyMeans(old(st), st, nl);
      ghost var s0 := st;
      out := EOpt(s.init, nl, fuel);
      UnwoundAfter(old(st), s0, st, out, nl);
      if !out.Value? { return; }
      BalancedMeans(s0, st, nl);
      SteadyTrans(old(st), s0, st, nl);
      out := ForLoop(s, id, nl, fuel, old(st));
      if !out.Value? { return; }
      Retarget(st, op, nl);
      SteadyTrans(old(st), st, st.(j1 := op), nl);
      PopJump(op, nl);
    }

    /** The loop of eforst. */
    method ForLoop(s: Stmt, id: nat, nl: nat, fuel: nat, ghost s0: Stacks) returns (out: Out)
      requires Ready(nl) && s.For?
      requires OkO(s.test, nl, strict) && OkE(s.step, nl, strict) && OkS(s.body, nl, true, strict)
      requires Steady(s0, st, nl) && st.j1 == id && s0.j2 < id && st.j2 == s0.j2
      modifies this
      ensures Good() && (out.Value? ==> Ready(nl) && st.j1 == id)
      ensures out.Value? || out.Jump? ==> Steady(s0, st, nl)
      ensures out.Jump? ==> out == Jump(s0.j2, ReturnJump)
      ensures out.Gone? ==> !strict && Unwound(s0, st)
      ensures Flows(MeanLoop(s, old(Env(st, nl)), fuel, fuel), out, 0, s0.j2, false, nl)
      decreases fuel, s, 0, 1
    {
      hide Rooted, Unwound, Steady, Balanced, OkO, OkE, OkS, OkFunc, MeanLoop, Env, ValOf;
      ghost var f := MeanLoop(s, Env(st, nl), fuel, fuel);
      out := Value(C.Null);
      var rounds, more := fuel, true;
      while more
        invariant out.Value? && Ready(nl) && Steady(s0, st, nl) && st.j1 == id && st.j2 == s0.j2
        invariant f.UnclearFlow? || f == if more then MeanLoop(s, Env(st, nl), rounds, fuel) else On(Env(st, nl))
        decreases more, rounds
      {
        if rounds == 0 {
          MeanOfLoop(s, Env(st, nl), 0, fuel);
          return Stopped;
        }
        out, more := ForRound(s, id, nl, fuel, rounds, MeanLoop(s, Env(st, nl), rounds, fuel), s0);
        if !out.Value? { return; }
        rounds := rounds - 1;
      }
    }

    /** A round of this loop.  A continue goes on with the last part of the header. */
    method ForRound(s: Stmt, id: nat, nl: nat, fuel: nat, ghost rounds: nat, ghost f: Flow, ghost s0: Stacks)
      returns (out: Out, more: bool)
      requires Ready(nl) && s.For?
      requires OkO(s.test, nl, strict) && OkE(s.step, nl, strict) && OkS(s.body, nl, true, strict)
      requires Steady(s0, st, nl) && st.j1 == id && s0.j2 < id && st.j2 == s0.j2
      requires rounds > 0 && f == MeanLoop(s, Env(st, nl), rounds, fuel)
      modifies this
      ensures Good() && (out.Value? ==> Ready(nl) && st.j1 == id && st.j2 == s0.j2) && (more ==> out.Value?)
      ensures out.Value? || out.Jump? ==> Steady(s0, st, nl)
      ensures out.Jump? ==> out == Jump(s0.j2, ReturnJump)
      ensures out.Gone? ==> !strict && Unwound(s0, st)
      ensures more ==> f.UnclearFlow? || f == MeanLoop(s, Env(st, nl), rounds - 1, fuel)
      ensures !more ==> Flows(f, out, 0, s0.j2, false, nl)
      decreases fuel, s, 0, 0
    {
      hide Rooted, Unwound, Steady, Balanced, OkE, OkS, OkFunc, MeanS, MeanSs, MeanE, MeanO, MeanLoop, MeanNext, Env,
        ValOf, MeanTest;
      MeanOfLoop(s, Env(st, nl), rounds, fuel);
      out, more := Value(C.Null), false;
      ghost var s1 := st;
      SteadySame(st, nl);
      if s.test.TheExpr? {
        var yes;
        out, yes := ETest(s.test.e, nl, fuel);
        UnwoundAfter(s0, s1, st, out, nl);
        if !out.Value? { return; }
        BalancedMeans(s1, st, nl);
        SteadyTrans(s0, s1, st, nl);
        if !yes { return; }
      }
      var goes;
      out, goes := LoopBody(s.body, id, nl, fuel, s0);
      if !out.Value? || !goes { return; }
      ghost var s3 := st;
      out := EEval(s.step, nl, fuel);
      UnwoundAfter(s0, s3, st, out, nl);
      if !out.Value? { return; }
      BalancedMeans(s3, st, nl);
      SteadyTrans(s0, s3, st, nl);
      more := true;
    }

    /** An expression that may be missing: C_NOP, or the one of a return. */
    method EOpt(o: OptExpr, nl: nat, fuel: nat) returns (out: Out)
      requires Ready(nl) && OkO(o, nl, strict)
      modifies this
      ensures Good() && !out.Jump?
      ensures out.Value? ==> Balanced(old(st), st, nl) && rtno.Null?
      ensures out.Gone? ==> !strict && Unwound(old(st), st)
      ensures Meets(MeanO(o, old(Env(st, nl)), fuel), out, nl)
      ensures o.NoExpr? ==> out == Value(C.Null)
      decreases fuel, o
    {
      hide Rooted, Unwound, Steady, OkE, Env, MeanE, Balanced;
      SteadySame(st, nl);
      out := Value(C.Null);
      if o.TheExpr? { out := EEval(o.e, nl, fuel); }
    }

    /** eforinst; found says whether there is a variable to assign to, tblo and ty are the value to go
        through and its type.  The early return for a value that is no table leaves the mark of the key
        behind, and only then is the mark stack higher afterwards. */
    method EForIn(s: Stmt, nl: nat, fuel: nat) returns (out: Out, found: bool, tblo: Ptr, ty: Option<Object>)
      requires Ready(nl) && s.ForIn? && OkE(s.v, nl, strict) && OkE(s.tbl, nl, strict)
      requires OkS(s.body, nl, true, strict)
      modifies this
      ensures Good()
      ensures out.Value? || out.Jump? ==> Steady(old(st), st, nl)
      ensures !out.Stopped? ==> Ends(old(st), st, out, false, strict, nl)
      ensures Goes(out) ==> rtno.Null?
      ensures out.Gone? ==> Unwound(old(st), st)
      ensures found ==> s.v.Var?
      ensures out.Value? ==>
        |st.marks| == |old(st).marks| + if found && Leaks(s.v.path, tblo, ty) then 1 else 0
      ensures s.v.Var? && SureKeys(s.v.path) && out.Value? ==> found
      ensures found && Made(s.tbl).Some? ==> tblo.At? && ty == Made(s.tbl)
      ensures s.v.Var? && SureKeys(s.v.path) && Made(s.tbl).Some? ==> out.Value?
      decreases fuel, s, 1
    {
      hide Rooted, Unwound, Steady, Balanced, OkE, OkS, OkFunc, Made, SureKeys, KeyedByObject, Env, MeanE, ValOf;
      out, found, tblo, ty := Value(C.Null), false, C.Null, None;
      var res := GetVar(s.v, nl, fuel);
      if res.NoEnd? {
        out := res.out;
        return;
      }
      BalancedMeans(old(st), st, nl);
      if res.NoTarget? { return; }
      ghost var s1 := st;
      var km := |st.marks|;
      PushKey(res.t, nl);
      SteadyTrans(old(st), s1, st, nl);
      ghost var s2 := st;
      ghost var env := Env(st, nl);
      if Made(s.tbl).Some? { MadeMeans(s.tbl, env, fuel); }
      var v := EEval(s.tbl, nl, fuel);
      if Made(s.tbl).Some? { MadeObject(s.tbl, st, v.v, env, fuel); }
      SteadyTrans(old(st), s1, s2, nl);
      UnwoundAfter(old(st), s2, st, v, nl);
      if !v.Value? {
        out := v;
        return;
      }
      found, tblo, ty := true, v.v, ObjectOf(st, v.v);
      BalancedMeans(s2, st, nl);
      SteadyTrans(s1, s2, st, nl);
      SteadyMeans(s1, st, nl);
      ghost var s3 := st;
      out := ForInValue(s.body, res.t, v.v, km, nl, fuel, s1);
      if out.Value? || out.Jump? { SteadyTrans(old(st), s1, st, nl); }
      UnwoundAfter(old(st), s1, st, out, nl);
    }

    /** eforinst from the point where the value to go through is known; s is the state before its key was marked. */
    method ForInValue(body: Stmt, t: Target, tblo: Ptr, km: nat, nl: nat, fuel: nat, ghost s: Stacks) returns (out: Out)
      requires Ready(nl) && OkS(body, nl, true, strict) && (t.Local? ==> t.n < nl)
      requires Rooted(s) && Steady(s, st, nl) && st.j1 == s.j1 && st.j2 == s.j2
      requires km == |s.marks| && |st.marks| == km + if t.ByObject? then 1 else 0
      modifies this
      ensures Good()
      ensures out.Value? || out.Jump? ==> Steady(s, st, nl)
      ensures !out.Stopped? ==> Ends(s, st, out, false, strict, nl)
      ensures Goes(out) ==> rtno.Null?
      ensures out.Gone? ==> Unwound(s, st)
      ensures var other := tblo.At? && ObjectOf(old(st), tblo) != Some(ATable);
        && (other ==> out.Value?)
        && (out.Value? ==> |st.marks| == km + if t.ByObject? && other then 1 else 0)
      decreases fuel, body, 5
    {
      hide Rooted, Unwound, Steady, Balanced, OkE, OkS, OkFunc, Env, ValOf;
      out := Value(C.Null);
      if tblo.Null? {
        PopKey(t.ByObject?, km, s, nl);
        return;
      }
      if ObjectOf(st, tblo) != Some(ATable) { return; }
      ghost var s3 := st;
      out := Rows(body, t, tblo, nl, fuel);
      UnwoundAfter(s, s3, st, out, nl);
      if !out.Value? {
        if out.Jump? { SteadyTrans(s, s3, st, nl); }
        return;
      }
      SteadyTrans(s, s3, st, nl);
      PopKey(t.ByObject?, km, s, nl);
    }

    /** The key of the variable is marked while the value to go through is evaluated. */
    method PushKey(t: Target, nl: nat)
      requires Ready(nl)
      modifies this`st
      ensures Ready(nl) && Steady(old(st), st, nl) && st.j1 == old(st).j1
      ensures |st.marks| == |old(st).marks| + if t.ByObject? then 1 else 0
    {
      hide Rooted, Unwound, Steady;
      SteadySame(st, nl);
      if t.ByObject? {
        PushMarkKeeps(st, t.ko, nl);
        st := PushMark(st, t.ko);
      }
    }

    method PopKey(byKey: bool, km: nat, ghost s: Stacks, nl: nat)
      requires Good() && Rooted(s) && Steady(s, st, nl) && km == |s.marks| && (!byKey ==> |st.marks| == km)
      modifies this`st
      ensures Good() && Steady(s, st, nl) && |st.marks| == km && st.j1 == old(st).j1
    {
      hide Rooted, Unwound, Steady;
      SteadyMeans(s, st, nl);
      if byKey {
        PopMarkKeeps(s, st, km, nl);
        st := PopMark(st, km);
      }
    }

    /** The table is a root while its keys are gone through. */
    method Rows(body: Stmt, t: Target, tblo: Ptr, nl: nat, fuel: nat) returns (out: Out)
      requires Ready(nl) && OkS(body, nl, true, strict) && (t.Local? ==> t.n < nl)
      modifies this
      ensures Good()
      ensures out.Value? || out.Jump? ==> Steady(old(st), st, nl)
      ensures !out.Stopped? ==> Ends(old(st), st, out, false, strict, nl)
      ensures Goes(out) ==> rtno.Null?
      ensures out.Gone? ==> Unwound(old(st), st)
      ensures out.Value? ==> |st.marks| == |old(st).marks|
      decreases fuel, body, 4
    {
      hide Rooted, Unwound, Steady, Balanced, OkS, Env, ValOf;
      var tm := |st.marks|;
      PushMarkKeeps(st, tblo, nl);
      st := PushMark(st, tblo);
      SteadyMeans(old(st), st, nl);
      out := Keys(body, t, nl, fuel, old(st));
      if out.Value? {
        PopMarkKeeps(old(st), st, tm, nl);
        st := PopMark(st, tm);
      }
    }

    /** The loop of eforinst over the keys, between PUSHJMP and POPJMP. */
    method Keys(body: Stmt, t: Target, nl: nat, fuel: nat, ghost s: Stacks) returns (out: Out)
      requires Ready(nl) && OkS(body, nl, true, strict) && (t.Local? ==> t.n < nl)
      requires Steady(s, st, nl) && st.j1 == s.j1
      modifies this
      ensures Good()
      ensures out.Value? || out.Jump? ==> Steady(s, st, nl)
      ensures !out.Stopped? ==> Ends(s, st, out, false, strict, nl)
      ensures Goes(out) ==> rtno.Null?
      ensures out.Gone? ==> Unwound(s, st)
      decreases fuel, body, 3
    {
      hide Rooted, Unwound, Steady, Balanced, OkS, Env, MeanS, ValOf;
      SteadyMeans(s, st, nl);
      var op := st.j1;
      Retarget(st, nextJump, nl);
      SteadyTrans(s, st, st.(j1 := nextJump), nl);
      var id := PushJump(nl);
      var rounds := fuel;
      var more := *;
      while more
        invariant Ready(nl) && Steady(s, st, nl) && st.j1 == id && op < nextJump && s.j2 < id && op == s.j1
        invariant st.flvari == old(st).flvari && |st.lvars| == |old(st).lvars|
        decreases rounds
      {
        if rounds == 0 { return Stopped; }
        rounds := rounds - 1;
        ghost var s0 := st;
        var key := AnyValue(nl);
        BalancedMeans(s0, st, nl);
        SteadyTrans(s, s0, st, nl);
        ghost var s1 := st;
        SetVar(t, key, nl);
        BalancedMeans(s1, st, nl);
        SteadyTrans(s, s1, st, nl);
        ghost var s2 := st;
        out := EStmt(body, nl, true, fuel);
        UnwoundAfter(s, s2, st, out, nl);
        if out.Stopped? || out.Gone? { return; }
        SteadyMeans(s2, st, nl);
        SteadyTrans(s, s2, st, nl);
        if out.Jump? {
          if out.to != id { return; }
          if out.kind == BreakJump { break; }
        }
        var changed := *;
        if out.Value? && changed { break; }
        more := *;
      }
      Retarget(st, op, nl);
      SteadyTrans(s, st, st.(j1 := op), nl);
      SteadyMeans(s, st, nl);
      PopJump(op, nl);
      out := Value(C.Null);
    }

    // ---- units ----

    /** Eunit: everything is as before, also when the unit runs inside another one. */
    method Eunit(e: Expr, co: Ptr, fuel: nat) returns (out: Out)
      requires Ready(0) && OkE(e, 0, strict)
      modifies this
      ensures Good() && !out.Jump?
      ensures out.Value? ==> Balanced(old(st), st, 0) && rtno.Null?
      ensures out.Gone? ==> !strict && Unwound(old(st), st)
      ensures MeanE(e, [], fuel).Gives? ==> out.Value? && ValOf(st, out.v) == MeanE(e, [], fuel).v
    {
      hide Rooted, Unwound, Steady, Balanced, Calling, Leave, OkE, MeanE, ValOf;
      ghost var s := st;
      assert Env(st, 0) == [];
      var m := |st.marks|;
      var own := |st.sinfo|;
      RecordKeeps(st);
      SteadySame(Record(s), 0);
      CallStarts(s, Record(s), co, 0);
      EnvSame(s, Record(PushMark(s, co)), 0);
      st := Record(PushMark(st, co));
      assert st == PushMark(Record(s), co);
      CallingMeans(s, st, m, 0);
      ghost var t := st;
      out := EEval(e, 0, fuel);
      UnwoundCall(s, t, st, m, 0, 0, 0, out);
      if !out.Value? { return; }
      ArgEvaluated(s, t, st, m, 0);
      CallStops(s, st, m, 0);
      CallingMeans(s, st, m, 0);
      rtno := C.Null;
      ghost var u := st;
      st := Leave(st, own, m, st.j1, st.j2);
      SameObjects(u, st);
      BalancedMeans(s, st, 0);
    }
  }

  /** The statement ends, and it does not return. */
  predicate Goes(out: Out) {
    out.Value? || (out.Jump? && out.kind != ReturnJump)
  }

  /** The first statement is a break or continue. */
  predicate LeavesFirst(ss: Stmts) {
    ss.SCons? && (ss.head.Break? || ss.head.Continue?)
  }

  lemma TruthsAre(s: Stacks)
    requires Rooted(s)
    ensures |s.marks| >= 3 && ValOf(s, Ttrue(s)) == BoolVal(true) && ValOf(s, Tfalse(s)) == BoolVal(false)
  {
  }

  lemma BalancedIs(s: Stacks, t: Stacks, nl: nat)
    requires Steady(s, t, nl) && |t.marks| == |s.marks| && t.j1 == s.j1
    ensures Balanced(s, t, nl)
  {
  }

  /** What Made says of an expression is what the object of its value is. */
  lemma {:induction false} MadeObject(e: Expr, s: Stacks, v: Ptr, env: seq<Val>, fuel: nat)
    requires Made(e).Some? && MeanE(e, env, fuel).Gives? && ValOf(s, v) == MeanE(e, env, fuel).v
    ensures v.At? && ObjectOf(s, v) == Made(e)
  {
    MadeMeans(e, env, fuel);
  }

  /** The slots from a place on hold the values, and so do their marks. */
  predicate Holds(s: Stacks, from: nat, vals: seq<Ptr>) {
    from + |vals| <= |s.lvars| && forall i :: 0 <= i < |vals| ==>
      var l := s.lvars[from + i];
      l.o == vals[i] && vals[i].At? && l.m < |s.marks| && s.marks[l.m] == vals[i]
  }

  /** Each value is what its expression is sure to make. */
  predicate AreMade(s: Stacks, vals: seq<Ptr>, args: Exprs) {
    forall i :: 0 <= i < |vals| && MadeAt(args, i).Some? ==> ObjectOf(s, vals[i]) == MadeAt(args, i)
  }

  /** The slots between two places are as they were, with the objects in them. */
  predicate Keeps(s: Stacks, t: Stacks, from: nat, to: nat) {
    to <= |s.lvars| && to <= |t.lvars| && forall i :: from <= i < to ==>
      t.lvars[i] == s.lvars[i] && ObjectOf(t, t.lvars[i].o) == ObjectOf(s, s.lvars[i].o)
  }

  lemma NoArgs(s: Stacks, from: nat, args: Exprs)
    ensures Holds(s, |s.lvars|, []) && AreMade(s, [], args) && Keeps(s, s, from, |s.lvars|)
    ensures SlotVals(s, |s.lvars|) == []
  {
  }

  lemma KeepsPushed(s: Stacks, t: Stacks, from: nat, v: Ptr)
    requires |t.lvars| == |s.lvars|
    requires forall i :: from <= i < |s.lvars| ==>
      t.lvars[i] == s.lvars[i] && ObjectOf(t, t.lvars[i].o) == ObjectOf(s, s.lvars[i].o)
    ensures Keeps(s, t, from, |s.lvars|) && Keeps(s, PushSlot(t, v), from, |s.lvars|)
  {
  }

  /** An argument v, pushed when s became t, is what it is when the ones after it are in their slots. */
  lemma ArgHeld(s: Stacks, t: Stacks, u: Stacks, from: nat, v: Ptr, vals: seq<Ptr>, args: Exprs)
    requires from <= |s.lvars| && |t.lvars| == |s.lvars| + 1 && t.lvars[|s.lvars|].o == v && v.At?
    requires Rooted(u) && args.ECons?
    requires Keeps(s, t, from, |s.lvars|) && Keeps(t, u, from, |t.lvars|) && Holds(u, |t.lvars|, vals)
    requires AreMade(u, vals, args.tail) && (Made(args.head).Some? ==> ObjectOf(t, v) == Made(args.head))
    ensures Holds(u, |s.lvars|, [v] + vals) && AreMade(u, [v] + vals, args) && Keeps(s, u, from, |s.lvars|)
    ensures SlotVals(u, |s.lvars|) == [ValOf(t, v)] + SlotVals(u, |s.lvars| + 1)
  {
    SlotRooted(u, |s.lvars|);
    hide Rooted;
    HoldsMore(u, |s.lvars|, v, vals);
    MadeMore(u, v, vals, args);
    KeepsMore(s, t, u, from);
    ValFollows(t, u, v);
    assert SlotVals(u, |s.lvars|) == [ValOf(t, v)] + SlotVals(u, |s.lvars| + 1);
  }

  lemma HoldsMore(s: Stacks, a: nat, v: Ptr, vals: seq<Ptr>)
    requires Holds(s, a + 1, vals) && v.At?
    requires var l := s.lvars[a]; l.o == v && l.m < |s.marks| && s.marks[l.m] == v
    ensures Holds(s, a, [v] + vals)
  {
    var all := [v] + vals;
    forall i | 0 <= i < |all|
      ensures var l := s.lvars[a + i]; l.o == all[i] && all[i].At? && l.m < |s.marks| && s.marks[l.m] == all[i]
    {
      if i > 0 { assert s.lvars[a + i] == s.lvars[a + 1 + (i - 1)]; }
    }
  }

  lemma MadeMore(s: Stacks, v: Ptr, vals: seq<Ptr>, args: Exprs)
    requires args.ECons? && AreMade(s, vals, args.tail) && (Made(args.head).Some? ==> ObjectOf(s, v) == Made(args.head))
    ensures AreMade(s, [v] + vals, args)
  {
    var all := [v] + vals;
    forall i | 0 <= i < |all| && MadeAt(args, i).Some? ensures ObjectOf(s, all[i]) == MadeAt(args, i) {
      if i > 0 { assert all[i] == vals[i - 1]; }
    }
  }

  lemma KeepsMore(s: Stacks, t: Stacks, u: Stacks, from: nat)
    requires |s.lvars| < |t.lvars| && Keeps(s, t, from, |s.lvars|) && Keeps(t, u, from, |t.lvars|)
    ensures Keeps(s, u, from, |s.lvars|)
  {
    forall i | from <= i < |s.lvars|
      ensures u.lvars[i] == s.lvars[i] && ObjectOf(u, u.lvars[i].o) == ObjectOf(s, s.lvars[i].o)
    {
      assert t.lvars[i] == s.lvars[i];
    }
  }

  function MadeAt(args: Exprs, i: nat): Option<Object> {
    match args
    case ENil => None
    case ECons(e, rest) => if i == 0 then Made(e) else MadeAt(rest, i - 1)
  }

  lemma OkAnywhere(e: Expr, nl: nat, strict: bool)
    requires e.Func? && OkE(e, nl, strict)
    ensures OkFunc(e, strict)
  {
  }

  lemma PushEnv(s: Stacks, v: Ptr, nl: nat)
    requires s.flvari + nl <= |s.lvars|
    ensures Env(PushSlot(s, v), nl) == Env(s, nl) && forall w :: ObjectOf(PushSlot(s, v), w) == ObjectOf(s, w)
  {
    assert Env(PushSlot(s, v), nl) == Env(s, nl);
  }

  lemma SlotRooted(s: Stacks, i: nat)
    requires Rooted(s) && i < |s.lvars|
    ensures s.lvars[i].m < |s.marks| && s.marks[s.lvars[i].m] == s.lvars[i].o
  {
  }

  lemma NullIs(s: Stacks, v: Ptr)
    ensures ValOf(s, v).NullVal? <==> v.Null?
  {
  }

  lemma NumberIs(s: Stacks, v: Ptr)
    ensures NumberOf(ObjectOf(s, v)) == NumberIn(ValOf(s, v))
  {
  }

  lemma ValFollows(s: Stacks, t: Stacks, v: Ptr)
    requires ObjectOf(t, v) == ObjectOf(s, v)
    ensures ValOf(t, v) == ValOf(s, v)
  {
  }

  lemma SameObjects(s: Stacks, t: Stacks)
    requires t.objs == s.objs
    ensures forall v :: ValOf(t, v) == ValOf(s, v)
  {
  }

  /** The locals of the caller hold the same values when the callee is left. */
  lemma LeaveEnv(s: Stacks, t: Stacks, v: Stacks, nl: nat)
    requires s.flvari + nl <= |s.lvars| <= |t.lvars| && v.lvars == t.lvars[..|s.lvars|]
    requires v.flvari == s.flvari && t.flvari == s.flvari
    requires forall i :: 0 <= i < |s.lvars| ==> ObjectOf(v, v.lvars[i].o) == ObjectOf(t, t.lvars[i].o)
    ensures Env(v, nl) == Env(t, nl)
  {
    assert Env(v, nl) == Env(t, nl);
  }

  lemma NormalEnd(s: Stacks, t: Stacks, loop: bool, strict: bool, nl: nat)
    requires t.j1 == s.j1
    ensures forall v :: Ends(s, t, Value(v), loop, strict, nl)
  {
  }

  /** One statement after another. */
  lemma Then(s: Stacks, t: Stacks, u: Stacks, out: Out, loop: bool, strict: bool, nl: nat)
    requires Steady(s, t, nl) && t.j1 == s.j1 && (out.Value? || out.Jump? ==> Steady(t, u, nl))
    requires Ends(t, u, out, loop, strict, nl)
    ensures (out.Value? || out.Jump? ==> Steady(s, u, nl)) && Ends(s, u, out, loop, strict, nl)
  {
    if out.Value? || out.Jump? || Steady(t, u, nl) {
      SteadyTrans(s, t, u, nl);
    } else {
      UnwoundAfter(s, t, u, out, nl);
    }
  }

  lemma Retarget(s: Stacks, j: nat, nl: nat)
    ensures Steady(s, s.(j1 := j), nl)
    ensures Rooted(s) ==> Rooted(s.(j1 := j))
  {
  }

  lemma FuncOk(e: Expr, strict: bool)
    requires OkFunc(e, strict)
    ensures e.Func?
  {
  }

  /** How a statement may end: where it began, by a jump to the target of its loop or function, or by a
      break or continue that no loop of its function holds. */
  ghost predicate Ends(s: Stacks, t: Stacks, out: Out, loop: bool, strict: bool, nl: nat) {
    && (out.Value? ==> t.j1 == s.j1)
    && (out.Jump? && out.kind == ReturnJump ==> out.to == s.j2)
    && (out.Jump? && out.kind != ReturnJump ==> loop && out.to == s.j1 == t.j1)
    && (out.Gone? ==> !strict && (Unwound(s, t) || (!loop && Steady(s, t, nl))))
  }
}
