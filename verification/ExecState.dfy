/** The stacks of cmd/lefty/exec.c: marks, locals, call records and jump targets; and the objects that they point
    to. */
module ExecState {
  import opened Options
  import C = Collector
  import opened LeftySyntax

  type Ptr = C.Ptr

  /** lvar_t: the value of a local and the index of its mark. */
  datatype Slot = Slot(o: Ptr, m: nat)

  /** What an object holds, as far as the evaluator looks at it; the entries of tables are left open. */
  datatype Object = ANumber(x: real) | AString(s: string) | ACode(fn: Expr) | ATable

  /** sinfo_t: the part that efcall restores. */
  datatype Frame = Frame(flvari: nat, llvari: nat)

  datatype Stacks = Stacks(
    marks: seq<Ptr>,    // markarray[0..marki)
    lvars: seq<Slot>,   // lvarp[0..llvari)
    flvari: nat,        // the first local of the running function
    sinfo: seq<Frame>,  // sinfop[0..sinfoi)
    j1: nat,            // pljbufp1: where break and continue go
    j2: nat,            // pljbufp2: where return goes
    objs: map<C.Ref, Object>)

  /** What is not listed is a table, as the root table is. */
  function ObjectOf(s: Stacks, v: Ptr): Option<Object> {
    if v.Null? then None else if v.p in s.objs then Some(s.objs[v.p]) else Some(ATable)
  }

  datatype Kind = BreakJump | ContinueJump | ReturnJump

  /** How an evaluation ends: with a value, by a longjmp, by a longjmp that leaves a running function, or
      not within the steps it was given. */
  datatype Out = Value(v: Ptr) | Jump(to: nat, kind: Kind) | Gone | Stopped

  // ---- code that may run ----

  /** Every local has a slot below nl.  In strict code every break and continue stands in a loop of its
      own function, which the parser does not ask for. */
  predicate OkE(e: Expr, nl: nat, strict: bool) {
    match e
    case Assign(l, r) => OkE(l, nl, strict) && OkE(r, nl, strict)
    case Bin(_, l, r) => OkE(l, nl, strict) && OkE(r, nl, strict)
    case Uminus(a) => OkE(a, nl, strict)
    case Not(a) => OkE(a, nl, strict)
    case Paren(a) => OkE(a, nl, strict)
    case Call(f, args) => OkE(f, nl, strict) && OkEs(args, nl, strict)
    case Int(_) => true
    case Str(_) => true
    case Var(_, slot, path) => (slot.Some? ==> slot.value < nl) && OkEs(path, nl, strict)
    case Func(_, Internal(_)) => true
    case Func(params, Code(ds, ss)) => OkSs(ss, |params| + CountDecls(ds), false, strict)
    case Tcons(items) => OkItems(items, nl, strict)
  }

  predicate OkEs(es: Exprs, nl: nat, strict: bool) {
    match es case ENil => true case ECons(e, rest) => OkE(e, nl, strict) && OkEs(rest, nl, strict)
  }

  predicate OkItems(items: Items, nl: nat, strict: bool) {
    match items case INil => true
    case ICons(k, v, rest) => OkE(k, nl, strict) && OkE(v, nl, strict) && OkItems(rest, nl, strict)
  }

  predicate OkSs(ss: Stmts, nl: nat, loop: bool, strict: bool) {
    match ss case SNil => true case SCons(s, rest) => OkS(s, nl, loop, strict) && OkSs(rest, nl, loop, strict)
  }

  predicate OkO(o: OptExpr, nl: nat, strict: bool) {
    match o case NoExpr => true case TheExpr(e) => OkE(e, nl, strict)
  }

  predicate OkS(s: Stmt, nl: nat, loop: bool, strict: bool) {
    match s
    case Empty => true
    case Block(s1, more) => OkS(s1, nl, loop, strict) && OkSs(more, nl, loop, strict)
    case If(c, t, NoStmt) => OkE(c, nl, strict) && OkS(t, nl, loop, strict)
    case If(c, t, TheStmt(e)) => OkE(c, nl, strict) && OkS(t, nl, loop, strict) && OkS(e, nl, loop, strict)
    case While(c, b) => OkE(c, nl, strict) && OkS(b, nl, true, strict)
    case For(i, c, st, b) => OkO(i, nl, strict) && OkO(c, nl, strict) && OkE(st, nl, strict) && OkS(b, nl, true, strict)
    case ForIn(v, t, b) => OkE(v, nl, strict) && OkE(t, nl, strict) && OkS(b, nl, true, strict)
    case Break => strict ==> loop
    case Continue => strict ==> loop
    case Return(o) => OkO(o, nl, strict)
    case Do(e) => OkE(e, nl, strict)
  }

  function CountDecls(ds: Decls): nat {
    match ds case DNil => 0 case DCons(xs, rest) => |xs| + CountDecls(rest)
  }

  predicate OkFunc(e: Expr, strict: bool) {
    e.Func? && OkE(e, 0, strict)
  }

  // ---- what holds in every state ----

  /** Every local is a root: its mark is on the mark stack and holds its value; no two share one.  Below them
      are the marks of Ttrue, Tfalse and the root table. */
  ghost predicate Rooted(s: Stacks) {
    && |s.marks| >= 3 && ObjectOf(s, Ttrue(s)) == Some(ANumber(1.0)) && ObjectOf(s, Tfalse(s)) == Some(ANumber(0.0))
    && (forall i :: 0 <= i < |s.lvars| ==> 3 <= s.lvars[i].m < |s.marks| && s.marks[s.lvars[i].m] == s.lvars[i].o)
    && (forall i, j :: 0 <= i < j < |s.lvars| ==> s.lvars[i].m < s.lvars[j].m)
  }

  function Ttrue(s: Stacks): Ptr
    requires |s.marks| >= 3
  {
    s.marks[0]
  }

  function Tfalse(s: Stacks): Ptr
    requires |s.marks| >= 3
  {
    s.marks[1]
  }

  /** Mark k is that of one of the nl locals of the running function. */
  ghost predicate OwnMark(s: Stacks, k: nat, nl: nat) {
    exists i :: s.flvari <= i < s.flvari + nl && i < |s.lvars| && s.lvars[i].m == k
  }

  /** Mark k holds the same object, and that object what it held. */
  predicate SameRoot(s: Stacks, t: Stacks, k: nat)
    requires k < |s.marks| <= |t.marks|
  {
    t.marks[k] == s.marks[k] && ObjectOf(t, t.marks[k]) == ObjectOf(s, s.marks[k])
  }

  /** What every evaluation keeps in a function of nl locals: the height of the local and the call stack, every
      local that is not one of these, and every mark but theirs, with the objects that these marks hold. */
  ghost predicate Steady(s: Stacks, t: Stacks, nl: nat) {
    && |t.marks| >= |s.marks| && |t.lvars| == |s.lvars|
    && t.flvari == s.flvari && t.sinfo == s.sinfo && t.j2 == s.j2
    && (forall i :: 0 <= i < |s.lvars| ==> t.lvars[i].m == s.lvars[i].m)
    && (forall i :: 0 <= i < |s.lvars| && !(s.flvari <= i < s.flvari + nl) ==> t.lvars[i] == s.lvars[i])
    && (forall k :: 0 <= k < |s.marks| && !OwnMark(s, k, nl) ==> SameRoot(s, t, k))
  }

  /** What an expression and a call keep besides: the height of the mark stack and both targets. */
  ghost predicate Balanced(s: Stacks, t: Stacks, nl: nat) {
    Steady(s, t, nl) && |t.marks| == |s.marks| && t.j1 == s.j1
  }

  lemma SteadyTrans(s: Stacks, t: Stacks, u: Stacks, nl: nat)
    requires Steady(s, t, nl) && Steady(t, u, nl)
    ensures Steady(s, u, nl)
  {
    forall k | 0 <= k < |s.marks| && !OwnMark(s, k, nl) ensures SameRoot(s, u, k) {
      OwnSame(s, t, k, nl);
      assert SameRoot(s, t, k) && SameRoot(t, u, k);
    }
  }

  lemma OwnSame(s: Stacks, t: Stacks, k: nat, nl: nat)
    requires |t.lvars| == |s.lvars| || |t.lvars| >= |s.lvars| >= s.flvari + nl
    requires t.flvari == s.flvari && forall i :: 0 <= i < |s.lvars| ==> t.lvars[i].m == s.lvars[i].m
    ensures OwnMark(t, k, nl) <==> OwnMark(s, k, nl)
  {
    if OwnMark(t, k, nl) {
      var i :| t.flvari <= i < t.flvari + nl && i < |t.lvars| && t.lvars[i].m == k;
      assert s.lvars[i].m == k;
    }
    if OwnMark(s, k, nl) {
      var i :| s.flvari <= i < s.flvari + nl && i < |s.lvars| && s.lvars[i].m == k;
      assert t.lvars[i].m == k;
    }
  }

  lemma BalancedTrans(s: Stacks, t: Stacks, u: Stacks, nl: nat)
    requires Balanced(s, t, nl) && Balanced(t, u, nl)
    ensures Balanced(s, u, nl)
  {
    hide Steady;
    SteadyTrans(s, t, u, nl);
  }

  /** What a break or continue leaves behind that jumps out of a running function: the call record, the
      marks and the frame of that function. */
  ghost predicate Unwound(s: Stacks, t: Stacks) {
    s.sinfo < t.sinfo && |t.marks| > |s.marks| && t.flvari >= |s.lvars|
  }

  lemma UnwoundAfter(s: Stacks, t: Stacks, u: Stacks, out: Out, nl: nat)
    requires Steady(s, t, nl) && (out.Gone? ==> Unwound(t, u))
    ensures out.Gone? ==> Unwound(s, u)
  {
  }

  lemma BalancedMeans(s: Stacks, t: Stacks, nl: nat)
    requires Balanced(s, t, nl)
    ensures Steady(s, t, nl)
    ensures t.flvari == s.flvari && |t.lvars| == |s.lvars| && t.sinfo == s.sinfo && |t.marks| == |s.marks|
    ensures t.j1 == s.j1 && t.j2 == s.j2
  {
  }

  lemma SteadyMeans(s: Stacks, t: Stacks, nl: nat)
    requires Steady(s, t, nl)
    ensures t.flvari == s.flvari && |t.lvars| == |s.lvars| && t.sinfo == s.sinfo && t.j2 == s.j2
  {
  }

  /** A local has its mark on the mark stack. */
  lemma SlotMark(s: Stacks, n: nat)
    requires Rooted(s) && s.flvari + n < |s.lvars|
    ensures s.lvars[s.flvari + n].m < |s.marks|
  {
  }

  lemma SteadySame(s: Stacks, nl: nat)
    ensures Balanced(s, s, nl) && Steady(s, s, nl)
  {
  }

  // ---- the steps ----

  /** Mpushmark. */
  function PushMark(s: Stacks, v: Ptr): Stacks {
    s.(marks := s.marks + [v])
  }

  /** Mpopmark. */
  function PopMark(s: Stacks, m: nat): Stacks {
    if m < |s.marks| then s.(marks := s.marks[..m]) else s
  }

  /** An argument or a local: lvarp[llvari].m = Mpushmark (lvarp[llvari].o = v), llvari++. */
  function PushSlot(s: Stacks, v: Ptr): Stacks {
    s.(lvars := s.lvars + [Slot(v, |s.marks|)], marks := s.marks + [v])
  }

  /** Mresetmark (lvarp[flvari + n].m, (lvarp[flvari + n].o = v)). */
  function SetSlot(s: Stacks, n: nat, v: Ptr): Stacks
    requires s.flvari + n < |s.lvars| && s.lvars[s.flvari + n].m < |s.marks|
  {
    var l := s.lvars[s.flvari + n];
    s.(lvars := s.lvars[s.flvari + n := Slot(v, l.m)], marks := s.marks[l.m := v])
  }

  /** A new object, in a cell that no mark holds: the collector does not free what is on the mark stack. */
  function Place(s: Stacks, p: C.Ref, o: Object): Stacks {
    s.(objs := s.objs[p := o])
  }

  lemma PlaceKeeps(s: Stacks, p: C.Ref, o: Object, nl: nat)
    requires Rooted(s) && C.At(p) !in s.marks
    ensures Rooted(Place(s, p, o)) && Balanced(s, Place(s, p, o), nl)
    ensures ObjectOf(Place(s, p, o), C.At(p)) == Some(o)
  {
  }

  lemma PushMarkKeeps(s: Stacks, v: Ptr, nl: nat)
    requires Rooted(s)
    ensures Rooted(PushMark(s, v)) && Steady(s, PushMark(s, v), nl) && PushMark(s, v).j1 == s.j1
  {
  }

  /** A mark pushed for a while is popped again, with all that was left above it. */
  lemma PopMarkKeeps(s: Stacks, t: Stacks, m: nat, nl: nat)
    requires Rooted(s) && Rooted(t) && Steady(s, t, nl) && m == |s.marks|
    ensures Rooted(PopMark(t, m)) && Steady(s, PopMark(t, m), nl) && |PopMark(t, m).marks| == m
    ensures PopMark(t, m).j1 == t.j1
  {
    var u := PopMark(t, m);
    forall i | 0 <= i < |u.lvars| ensures u.lvars[i].m < |u.marks| && u.marks[u.lvars[i].m] == u.lvars[i].o {
      assert s.lvars[i].m < |s.marks|;
    }
    forall k | 0 <= k < |s.marks| && !OwnMark(s, k, nl) ensures SameRoot(s, u, k) { assert SameRoot(s, t, k); }
  }

  /** Assigning to a local keeps it a root. */
  lemma SetSlotKeeps(s: Stacks, n: nat, v: Ptr, nl: nat)
    requires Rooted(s) && n < nl && s.flvari + n < |s.lvars|
    ensures Rooted(SetSlot(s, n, v)) && Balanced(s, SetSlot(s, n, v), nl)
  {
    var t := SetSlot(s, n, v);
    var a := s.flvari + n;
    forall i | 0 <= i < |t.lvars| ensures t.lvars[i].m < |t.marks| && t.marks[t.lvars[i].m] == t.lvars[i].o {
      if i < a { assert s.lvars[i].m < s.lvars[a].m; }
      if a < i { assert s.lvars[a].m < s.lvars[i].m; }
    }
    assert OwnMark(s, s.lvars[a].m, nl);
  }

  // ---- a call from its record on ----

  /** What holds in efcall while arguments are evaluated: the locals of before, then one slot for
      each argument; the mark of the function object is at m. */
  ghost predicate Calling(s: Stacks, t: Stacks, m: nat, nl: nat) {
    && Rooted(t) && m == |s.marks| < |t.marks| && |t.lvars| >= |s.lvars| >= s.flvari + nl
    && t.flvari == s.flvari && t.j1 == s.j1 && t.j2 == s.j2 && t.sinfo == s.sinfo + [Frame(s.flvari, |s.lvars|)]
    && (forall i :: 0 <= i < |s.lvars| ==> t.lvars[i].m == s.lvars[i].m)
    && (forall i :: 0 <= i < |s.lvars| && !(s.flvari <= i < s.flvari + nl) ==> t.lvars[i] == s.lvars[i])
    && (forall i :: |s.lvars| <= i < |t.lvars| ==> t.lvars[i].m > m)
    && (forall k :: 0 <= k < |s.marks| && !OwnMark(s, k, nl) ==> SameRoot(s, t, k))
  }

  /** efcall before the look-up of the function: the call record. */
  function Record(s: Stacks): Stacks {
    s.(sinfo := s.sinfo + [Frame(s.flvari, |s.lvars|)])
  }

  lemma RecordKeeps(s: Stacks)
    requires Rooted(s)
    ensures Rooted(Record(s))
  {
  }

  lemma OwnRecord(s: Stacks, k: nat, nl: nat)
    ensures OwnMark(Record(s), k, nl) <==> OwnMark(s, k, nl)
  {
    OwnSame(s, Record(s), k, nl);
  }

  /** The function was looked up, and its object pushed. */
  lemma CallStarts(s: Stacks, t: Stacks, v: Ptr, nl: nat)
    requires Rooted(s) && Rooted(t) && Balanced(Record(s), t, nl) && s.flvari + nl <= |s.lvars|
    ensures Calling(s, PushMark(t, v), |s.marks|, nl)
  {
    PushMarkKeeps(t, v, nl);
    forall k | 0 <= k < |s.marks| && !OwnMark(s, k, nl) ensures SameRoot(s, PushMark(t, v), k) {
      OwnRecord(s, k, nl);
      assert SameRoot(Record(s), t, k);
    }
  }

  /** The function was not found: only the record goes. */
  lemma CallFails(s: Stacks, t: Stacks, nl: nat)
    requires Rooted(s) && Rooted(t) && Balanced(Record(s), t, nl)
    ensures var u := t.(sinfo := t.sinfo[..|s.sinfo|]); Rooted(u) && Balanced(s, u, nl)
  {
    var u := t.(sinfo := t.sinfo[..|s.sinfo|]);
    assert u.sinfo == s.sinfo;
    forall k | 0 <= k < |s.marks| && !OwnMark(s, k, nl) ensures SameRoot(s, u, k) {
      OwnRecord(s, k, nl);
      assert SameRoot(Record(s), t, k);
    }
  }

  /** An argument was evaluated: the slots of the arguments before it are as they were. */
  lemma ArgEvaluated(s: Stacks, t: Stacks, u: Stacks, m: nat, nl: nat)
    requires Rooted(s) && Calling(s, t, m, nl) && Rooted(u) && Balanced(t, u, nl)
    ensures Calling(s, u, m, nl)
    ensures forall i :: |s.lvars| <= i < |t.lvars| ==>
      u.lvars[i] == t.lvars[i] && ObjectOf(u, u.lvars[i].o) == ObjectOf(t, t.lvars[i].o)
  {
    forall k | 0 <= k < |s.marks| && !OwnMark(s, k, nl) ensures SameRoot(s, u, k) {
      OwnSame(s, t, k, nl);
      assert SameRoot(s, t, k) && SameRoot(t, u, k);
    }
    forall i | |s.lvars| <= i < |t.lvars|
      ensures u.lvars[i] == t.lvars[i] && ObjectOf(u, u.lvars[i].o) == ObjectOf(t, t.lvars[i].o)
    {
      var k := t.lvars[i].m;
      assert !OwnMark(t, k, nl) by { assert forall j :: 0 <= j < i ==> t.lvars[j].m < k; }
      assert SameRoot(t, u, k);
    }
  }

  lemma ArgPushed(s: Stacks, t: Stacks, v: Ptr, m: nat, nl: nat)
    requires Calling(s, t, m, nl)
    ensures Calling(s, PushSlot(t, v), m, nl)
    ensures PushSlot(t, v).lvars == t.lvars + [Slot(v, |t.marks|)] && PushSlot(t, v).marks == t.marks + [v]
  {
    var u := PushSlot(t, v);
    forall i, j | 0 <= i < j < |u.lvars| ensures u.lvars[i].m < u.lvars[j].m {
      if j < |t.lvars| { assert t.lvars[i].m < t.lvars[j].m; }
    }
    forall k | 0 <= k < |s.marks| && !OwnMark(s, k, nl) ensures SameRoot(s, u, k) { assert SameRoot(s, t, k); }
  }

  /** The body runs: the locals of the callee start where those of before end. */
  function Enter(t: Stacks, j2: nat): Stacks
    requires |t.sinfo| > 0
  {
    t.(flvari := t.sinfo[|t.sinfo| - 1].llvari, j2 := j2)
  }

  lemma EnterKeeps(t: Stacks, j2: nat)
    requires |t.sinfo| > 0 && Rooted(t)
    ensures Rooted(Enter(t, j2))
  {
  }

  lemma UnwoundCall(s: Stacks, t: Stacks, u: Stacks, m: nat, nl: nat, j2: nat, ln: nat, out: Out)
    requires Calling(s, t, m, nl)
    requires out.Gone? ==> Unwound(t, u) || Unwound(Enter(t, j2), u) || Steady(Enter(t, j2), u, ln)
    ensures out.Gone? ==> Unwound(s, u)
  {
  }

  lemma UnwoundRecord(s: Stacks, u: Stacks, out: Out)
    requires out.Gone? ==> Unwound(Record(s), u)
    ensures out.Gone? ==> Unwound(s, u)
  {
  }

  lemma CallingMeans(s: Stacks, t: Stacks, m: nat, nl: nat)
    requires Calling(s, t, m, nl)
    ensures Rooted(t) && m == |s.marks| && t.flvari == s.flvari && t.j1 == s.j1 && t.j2 == s.j2
    ensures |t.lvars| >= |s.lvars| >= s.flvari + nl && t.sinfo == s.sinfo + [Frame(s.flvari, |s.lvars|)]
  {
  }

  /** All that efcall puts back at its end. */
  function Leave(t: Stacks, own: nat, m: nat, j1: nat, j2: nat): Stacks
    requires own < |t.sinfo| && t.sinfo[own].llvari <= |t.lvars|
  {
    var f := t.sinfo[own];
    PopMark(t.(flvari := f.flvari, lvars := t.lvars[..f.llvari], sinfo := t.sinfo[..own], j1 := j1, j2 := j2), m)
  }

  /** From any state the body can leave behind, everything is as before the call; the locals of the caller are as
      they were after the arguments, and so are the objects in them. */
  lemma CallEnds(s: Stacks, t: Stacks, u: Stacks, m: nat, nl: nat, j2: nat, ln: nat)
    requires Rooted(s) && Calling(s, t, m, nl) && Rooted(u) && Steady(Enter(t, j2), u, ln)
    ensures |s.sinfo| < |u.sinfo| && u.sinfo[|s.sinfo|].llvari <= |u.lvars|
    ensures var v := Leave(u, |s.sinfo|, m, s.j1, s.j2);
      && Rooted(v) && Balanced(s, v, nl) && v.flvari == s.flvari && v.lvars == t.lvars[..|s.lvars|] && v.objs == u.objs
      && forall i :: 0 <= i < |s.lvars| ==> ObjectOf(v, v.lvars[i].o) == ObjectOf(t, t.lvars[i].o)
  {
    var e := Enter(t, j2);
    assert u.sinfo == s.sinfo + [Frame(s.flvari, |s.lvars|)];
    var v := Leave(u, |s.sinfo|, m, s.j1, s.j2);
    assert v.sinfo == s.sinfo;
    forall i | 0 <= i < |s.lvars| ensures v.lvars[i] == t.lvars[i] && v.lvars[i].m < |s.marks| {
      assert u.lvars[i] == e.lvars[i];
      assert s.lvars[i].m < |s.marks|;
    }
    forall k | 0 <= k < |s.marks| ensures SameRoot(t, u, k) {
      assert !OwnMark(e, k, ln);
      assert SameRoot(e, u, k);
    }
    forall k | 0 <= k < |s.marks| && !OwnMark(s, k, nl) ensures SameRoot(s, v, k) {
      assert SameRoot(s, t, k) && SameRoot(t, u, k);
    }
    forall i | 0 <= i < |v.lvars| ensures v.marks[v.lvars[i].m] == v.lvars[i].o {
      assert u.marks[u.lvars[i].m] == u.lvars[i].o;
    }
    forall i | 0 <= i < |s.lvars| ensures ObjectOf(v, v.lvars[i].o) == ObjectOf(t, t.lvars[i].o) {
      assert SameRoot(t, u, t.lvars[i].m);
    }
  }

  /** A call that stops before the body: an argument without a value, or too few or too many. */
  lemma CallStops(s: Stacks, t: Stacks, m: nat, nl: nat)
    requires Rooted(s) && Calling(s, t, m, nl)
    ensures |s.sinfo| < |t.sinfo| && t.sinfo[|s.sinfo|].llvari <= |t.lvars|
    ensures var v := Leave(t, |s.sinfo|, m, t.j1, t.j2);
      Rooted(v) && Balanced(s, v, nl) && v.flvari == s.flvari && v.lvars == t.lvars[..|s.lvars|] && v.objs == t.objs
  {
    var v := Leave(t, |s.sinfo|, m, t.j1, t.j2);
    assert v.sinfo == s.sinfo;
    forall i | 0 <= i < |s.lvars| ensures v.lvars[i].m < |s.marks| { assert s.lvars[i].m < |s.marks|; }
    forall k | 0 <= k < |s.marks| && !OwnMark(s, k, nl) ensures SameRoot(s, v, k) { assert SameRoot(s, t, k); }
  }
}
