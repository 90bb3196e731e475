/** What the branches of the grammar mean for the cells that a parser leaves: one fact for every branch
    of cmd/lefty/parse.c, and what a loop over a list has still to read. */
module ParserRules {
  import opened Options
  import opened LeftySyntax
  import opened LeftyGrammar
  import opened CodeCells
  import opened CodeTrees
  import opened CodeReads
  import opened CodeBuild

  lemma TlShorter(ts: Toks)
    ensures Hd(ts) != EOF ==> Len(Tl(ts)) < Len(ts)
    ensures Len(Tl(ts)) <= Len(ts)
  {
  }

  lemma CatOne(t: Tree, u: Tree)
    ensures Cat(One(t), One(u)) == Cons(t, One(u))
  {
  }

  lemma NoChild(c0: seq<Cell>, ct: CType)
    ensures SetFp(With(c0, Link(ct, Nil)), |c0|, NULL) == With(c0, Link(ct, Nil))
  {
    WithLink(c0, ct);
  }

  lemma TopLink(c0: seq<Cell>, ct: CType, ts: Trees)
    requires !After(ct)
    ensures Top(c0, Link(ct, ts)) == |c0|
  {
  }

  // ---- what a loop has still to read ----

  /** The outcome of a part of the grammar that gives a row of trees. */
  datatype Goal = Goal(ok: bool, rest: Toks, kids: Trees)

  function GoalEs(r: Res<Exprs>): Goal {
    if r.Ok? then Goal(true, r.rest, TreesEs(r.val)) else Goal(false, TNil, Nil)
  }

  /** With `done` already built, what is left is g. */
  predicate Left(goal: Goal, done: Trees, g: Goal) {
    goal.ok == g.ok && (g.ok ==> goal.rest == g.rest && goal.kids == Cat(done, g.kids))
  }

  lemma LeftMeans(goal: Goal, done: Trees, g: Goal)
    requires Left(goal, done, g)
    ensures goal.ok == g.ok
  {
  }

  lemma LeftOne(goal: Goal, t: Tree, g: Goal)
    requires Ahead(goal, t, g)
    ensures Left(goal, One(t), g)
  {
  }

  /** g is t and then h. */
  predicate Ahead(g: Goal, t: Tree, h: Goal) {
    g.ok == h.ok && (h.ok ==> g.rest == h.rest && g.kids == Cons(t, h.kids))
  }

  predicate AheadTwo(g: Goal, t: Tree, u: Tree, h: Goal) {
    g.ok == h.ok && (h.ok ==> g.rest == h.rest && g.kids == Cons(t, Cons(u, h.kids)))
  }

  lemma LeftMore(goal: Goal, done: Trees, g: Goal, t: Tree, h: Goal)
    requires Left(goal, done, g) && Ahead(g, t, h)
    ensures Left(goal, Cat(done, One(t)), h)
  {
    CatMore(done, t, h.kids);
  }

  lemma LeftTwo(goal: Goal, done: Trees, g: Goal, t: Tree, u: Tree, h: Goal)
    requires Left(goal, done, g) && AheadTwo(g, t, u, h)
    ensures Left(goal, Cat(Cat(done, One(t)), One(u)), h)
  {
    CatMore(done, t, Cons(u, h.kids));
    CatMore(Cat(done, One(t)), u, h.kids);
  }

  lemma LeftNone(goal: Goal)
    ensures Left(goal, Nil, goal)
  {
  }

  /** g with the trees of base in front. */
  function Behind(base: Trees, g: Goal): Goal {
    g.(kids := Cat(base, g.kids))
  }

  lemma BehindIs(base: Trees, g: Goal)
    ensures var b := Behind(base, g); b.ok == g.ok && b.rest == g.rest && b.kids == Cat(base, g.kids)
  {
  }

  lemma LeftStart(base: Trees, g: Goal)
    ensures Left(Behind(base, g), base, g)
  {
  }

  lemma LeftEnd(goal: Goal, done: Trees, g: Goal)
    requires Left(goal, done, g) && g.kids == Nil
    ensures goal.ok == g.ok && (g.ok ==> goal.rest == g.rest && goal.kids == done)
  {
    CatNil(done);
  }


  function GoalItems(r: Res<Items>): Goal {
    if r.Ok? then Goal(true, r.rest, TreesItems(r.val)) else Goal(false, TNil, Nil)
  }

  function GoalSs(r: Res<Stmts>): Goal {
    if r.Ok? then Goal(true, r.rest, TreesSs(r.val)) else Goal(false, TNil, Nil)
  }

  function GoalDs(r: Res<Decls>): Goal {
    if r.Ok? then Goal(true, r.rest, TreesDs(r.val)) else Goal(false, TNil, Nil)
  }

  lemma CatNone(ts: Trees)
    ensures Cat(Nil, ts) == ts
  {
  }

  lemma SameLast(ct: CType, du: CType, ts: Trees, lo: nat)
    requires !After(ct) && !After(du) && ts.Cons?
    ensures LastKid(ct, ts, lo) == LastKid(du, ts, lo)
  {
  }

  lemma ParenRule(ts: Toks, sc: seq<string>, fns: seq<string>)
    requires Hd(ts) == LP
    ensures var r, q := PExpr(Tl(ts), sc, fns), PExp7(ts, sc, fns);
      if r.Ok? && Hd(r.rest) == RP then
        q.Ok? && q.rest == Tl(r.rest) && TreeE(q.val) == Link(C_PEXPR, One(TreeE(r.val)))
      else q.Fail?
  {
    hide PExpr, PArgs, PPath, PItems, PFunc, PStmts, TreesEs, TreesItems, TreesDs, TreesSs, OptTree, TreeS, FuncTree,
      With, Top, Scope, LastKid, Cat, Size, Len, GetString, Hd, Tl, Sizes, Reads, ReadsRow;
  }

  lemma VarRule(ts: Toks, sc: seq<string>, fns: seq<string>)
    requires Hd(ts).ID?
    ensures var r, q := PPath(Tl(ts), sc, fns), PExp7(ts, sc, fns);
      if r.Fail? then q.Fail?
      else
        var v := Var(Hd(ts).id, Find(sc, Hd(ts).id), r.val);
        if Hd(r.rest) != LP then q == Ok(v, r.rest)
        else
          var a := PArgs(Tl(r.rest), sc, fns);
          if a.Ok? && Hd(a.rest) == RP then q == Ok(Call(v, a.val), Tl(a.rest)) else q.Fail?
  {
    hide PExpr, PArgs, PPath, PItems, PFunc, PStmts, TreeE, TreesSs, OptTree, TreeS, With, Top, Scope, LastKid, Cat,
      Size, Len, GetString, Hd, Tl, Sizes, Reads, ReadsRow;
  }

  lemma CallTree(f: Expr, args: Exprs)
    ensures TreeE(Call(f, args)) == Link(C_FCALL, Cons(TreeE(f), One(Link(C_ARGS, TreesEs(args)))))
  {
    hide PExpr, PStmts, TreesEs, TreesItems, TreesDs, TreesSs, OptTree, TreeS, FuncTree, With, Top, Scope, LastKid,
      Cat, Size, Len, GetString, Hd, Sizes, Reads, ReadsRow;
  }

  // ---- operators ----

  lemma RowRule(k: nat, ts: Toks, sc: seq<string>, fns: seq<string>)
    requires k <= 5
    ensures k == 5 ==> PExpI(k, ts, sc, fns) == PExp5(ts, sc, fns)
    ensures k < 5 ==>
      var r := PExpI(k + 1, ts, sc, fns);
      if r.Ok? then PExpI(k, ts, sc, fns) == PLoop(k, r.val, r.rest, sc, fns) && Len(r.rest) < Len(ts)
      else PExpI(k, ts, sc, fns).Fail?
  {
    hide PExpr, PLoop, PExp5, PStmts, TreeE, TreesSs, OptTree, TreeS, With, Top, Scope, LastKid, Cat, Size, Len,
      GetString, Hd, Sizes, Reads, ReadsRow;
  }

  lemma LoopRule(k: nat, l: Expr, ts: Toks, sc: seq<string>, fns: seq<string>)
    requires k < 5 && GetOp(Hd(ts), k).Some?
    ensures var op, r := GetOp(Hd(ts), k).value, PExpI(k + 1, Tl(ts), sc, fns);
      Hd(ts) != EOF
      && if r.Ok? then
           && PLoop(k, l, ts, sc, fns) == PLoop(k, Bin(op, l, r.val), r.rest, sc, fns) && Len(r.rest) < Len(ts)
           && TreeE(Bin(op, l, r.val)) == Link(C_BIN(op), Cons(TreeE(l), One(TreeE(r.val))))
         else PLoop(k, l, ts, sc, fns).Fail?
  {
    hide PExpr, PExpI, PStmts, TreesEs, TreesItems, TreesDs, TreesSs, OptTree, TreeS, FuncTree, With, Top, Scope,
      LastKid, Cat, Size, Len, GetString, Hd, Tl, Sizes, Reads, ReadsRow, Level;
  }

  lemma LoopEnd(k: nat, l: Expr, ts: Toks, sc: seq<string>, fns: seq<string>)
    requires k < 5 && GetOp(Hd(ts), k).None?
    ensures PLoop(k, l, ts, sc, fns) == Ok(l, ts)
  {
    hide PExpr, PExpI, PStmts, TreeE, TreesSs, OptTree, TreeS, With, Top, Scope, LastKid, Cat, Size, Len, GetString,
      Hd, Tl, Sizes, Reads, ReadsRow, GetOp;
  }

  // ---- variables ----

  function VarKids(x: string, slot: Option<nat>): Trees {
    if slot.Some? then Cons(Text(x), One(Number(slot.value))) else One(Text(x))
  }

  lemma VarTree(x: string, slot: Option<nat>, path: Exprs)
    ensures TreeE(Var(x, slot, path))
      == Link(if slot.Some? then C_LVAR else C_GVAR, Cat(VarKids(x, slot), TreesEs(path)))
  {
    assert Cat(One(Text(x)), TreesEs(path)) == Cons(Text(x), TreesEs(path));
    if slot.Some? {
      assert Cat(One(Number(slot.value)), TreesEs(path)) == Cons(Number(slot.value), TreesEs(path));
    }
  }

  lemma ArgsRule(ts: Toks, sc: seq<string>, fns: seq<string>)
    ensures Hd(ts) == RP ==> PArgs(ts, sc, fns) == Ok(ENil, ts) && TreesEs(ENil) == Nil
    ensures Hd(ts) != RP ==>
      var r := PExpr(ts, sc, fns);
      if r.Ok? then
        Ahead(GoalEs(PArgs(ts, sc, fns)), TreeE(r.val), GoalEs(PMoreArgs(r.rest, sc, fns)))
      else PArgs(ts, sc, fns).Fail?
  {
    hide PExpr, PMoreArgs, PStmts, TreeE, TreesSs, OptTree, TreeS, With, Top, Scope, LastKid, Cat, Size, Len,
      GetString, Hd, Sizes, Reads, ReadsRow;
  }

  lemma MoreArgsRule(ts: Toks, sc: seq<string>, fns: seq<string>)
    requires Hd(ts) != RP
    ensures var r := PExpr(Tl(ts), sc, fns);
      if Hd(ts) == COMMA && Hd(Tl(ts)) != RP && r.Ok? then
        Ahead(GoalEs(PMoreArgs(ts, sc, fns)), TreeE(r.val), GoalEs(PMoreArgs(r.rest, sc, fns)))
      else PMoreArgs(ts, sc, fns).Fail?
  {
    hide PExpr, PStmts, TreeE, TreesSs, OptTree, TreeS, With, Top, Scope, LastKid, Cat, Size, Len, GetString, Hd, Tl,
      Sizes, Reads, ReadsRow;
  }

  lemma MoreArgsEnd(ts: Toks, sc: seq<string>, fns: seq<string>)
    requires Hd(ts) == RP
    ensures GoalEs(PMoreArgs(ts, sc, fns)) == Goal(true, ts, Nil)
  {
    hide PExpr, PStmts, TreeE, TreesSs, OptTree, TreeS, With, Top, Scope, LastKid, Cat, Size, Len, GetString, Hd, Tl,
      Sizes, Reads, ReadsRow;
  }

  lemma DotRule(ts: Toks, sc: seq<string>, fns: seq<string>)
    requires Hd(ts) == DOT
    ensures !Hd(Tl(ts)).ID? ==> PPath(ts, sc, fns).Fail?
    ensures Hd(Tl(ts)).ID? ==>
      Ahead(GoalEs(PPath(ts, sc, fns)), Text(Hd(Tl(ts)).id), GoalEs(PPath(Tl(Tl(ts)), sc, fns)))
  {
    hide PExpr, PStmts, TreesItems, TreesDs, TreesSs, OptTree, TreeS, FuncTree, With, Top, Scope, LastKid, Cat, Size,
      Len, GetString, Hd, Tl, Sizes, Reads, ReadsRow;
    if Hd(Tl(ts)).ID? { assert TreeE(Str(Hd(Tl(ts)).id)) == Text(Hd(Tl(ts)).id); }
  }

  lemma IndexRule(ts: Toks, sc: seq<string>, fns: seq<string>)
    requires Hd(ts) == LB
    ensures var r := PExpr(Tl(ts), sc, fns);
      if r.Ok? && Hd(r.rest) == RB then
        Ahead(GoalEs(PPath(ts, sc, fns)), TreeE(r.val), GoalEs(PPath(Tl(r.rest), sc, fns)))
      else PPath(ts, sc, fns).Fail?
  {
    hide PExpr, PStmts, TreeE, TreesSs, OptTree, TreeS, With, Top, Scope, LastKid, Cat, Size, Len, GetString, Hd, Tl,
      Sizes, Reads, ReadsRow;
  }

  lemma PathEnds(ts: Toks, sc: seq<string>, fns: seq<string>)
    requires Hd(ts) != DOT && Hd(ts) != LB
    ensures GoalEs(PPath(ts, sc, fns)) == Goal(true, ts, Nil)
  {
    hide PExpr, Len;
  }

  lemma ItemRule(ts: Toks, sc: seq<string>, fns: seq<string>)
    requires Hd(ts) != RB
    ensures var rk := PExpI(0, ts, sc, fns);
      if rk.Ok? && Hd(rk.rest) == ASSIGN && PExpr(Tl(rk.rest), sc, fns).Ok?
        && Hd(PExpr(Tl(rk.rest), sc, fns).rest) == SEMI
      then
        var rv := PExpr(Tl(rk.rest), sc, fns);
        AheadTwo(GoalItems(PItems(ts, sc, fns)), TreeE(rk.val), TreeE(rv.val), GoalItems(PItems(Tl(rv.rest), sc, fns)))
      else PItems(ts, sc, fns).Fail?
  {
    hide PExpr, PExpI, PStmts, TreeE, TreesSs, OptTree, TreeS, With, Top, Scope, LastKid, Cat, Size, Len, GetString,
      Hd, Tl, Sizes, Reads, ReadsRow;
  }

  lemma ItemsEnd(ts: Toks, sc: seq<string>, fns: seq<string>)
    ensures Hd(ts) == RB ==> GoalItems(PItems(ts, sc, fns)) == Goal(true, Tl(ts), Nil)
  {
    hide PExpr, PExpI, Len;
  }

  lemma NameOf(cells: seq<Cell>, lvs: seq<Lv>, flvi: nat, sc: seq<string>, j: nat)
    requires Scope(cells, lvs, flvi, sc) && j < |sc|
    ensures lvs[flvi + j].si < |cells| && GetString(cells, lvs[flvi + j].si) == sc[j] && lvs[flvi + j].vi == j
  {
    hide StringAt, GetString;
    assert LvOk(cells, lvs[flvi + j], j, sc[j]);
    StringIsRead(cells, lvs[flvi + j].si, sc[j]);
  }

  lemma {:induction false} FindFirst(sc: seq<string>, x: string, j: nat)
    requires j < |sc| && sc[j] == x && forall i :: 0 <= i < j ==> sc[i] != x
    ensures Find(sc, x) == Some(j)
  {
    if j > 0 { FindFirst(sc[1..], x, j - 1); }
  }

  lemma FindNone(sc: seq<string>, x: string)
    requires forall i :: 0 <= i < |sc| ==> sc[i] != x
    ensures Find(sc, x) == None
  {
  }

  // ---- functions ----

  function Start(params: seq<string>): Trees {
    Cons(Number(0), Cons(Number(0), One(DeclTree(params))))
  }

  ghost predicate Keeps(l: seq<Lv>, m: seq<Lv>) {
    |m| >= |l| && m[..|l|] == l
  }

  lemma KeepsAll(l: seq<Lv>)
    ensures Keeps(l, l)
  {
  }

  lemma KeepsMore(l: seq<Lv>, m: seq<Lv>, n: seq<Lv>)
    requires Keeps(l, m) && Keeps(m, n)
    ensures Keeps(l, n)
  {
    assert n[..|l|] == n[..|m|][..|l|];
  }

  lemma NoScope(cells: seq<Cell>, lvs: seq<Lv>)
    ensures Scope(cells, lvs, |lvs|, [])
  {
  }

  lemma StartIs(params: seq<string>)
    ensures Cat(Cons(Number(0), One(Number(0))), One(DeclTree(params))) == Start(params)
  {
    assert Cat(One(Number(0)), One(DeclTree(params))) == Cons(Number(0), One(DeclTree(params)));
  }

  lemma NumberPlaces(c0: seq<Cell>)
    ensures Top(With(c0, Link(C_FUNCTION, Nil)), Number(0)) == |c0| + 1
    ensures Top(With(c0, Link(C_FUNCTION, One(Number(0)))), Number(0)) == |c0| + 2
  {
    WithSize(c0, Link(C_FUNCTION, Nil));
    WithSize(c0, Link(C_FUNCTION, One(Number(0))));
    assert Sizes(One(Number(0))) == 1;
  }

  lemma FuncHeadRule(ts: Toks, fns: seq<string>)
    ensures Hd(ts) != LP ==> PFunc(ts, fns).Fail?
    ensures Hd(ts) == LP ==>
      var r := PDecl(Tl(ts), []);
      r.Fail? || Hd(r.rest) != RP ==> PFunc(ts, fns).Fail?
  {
    hide PExpr, PDecl, PLocals, PStmts, TreeE, TreesSs, OptTree, TreeS, With, Top, Scope, LastKid, Cat, Size, Len,
      GetString, Hd, Tl, Sizes, Reads, ReadsRow;
  }

  lemma FuncInternalRule(ts: Toks, fns: seq<string>)
    requires Hd(ts) == LP
    requires var r := PDecl(Tl(ts), []); r.Ok? && Hd(r.rest) == RP && Hd(Tl(r.rest)) == INTERNAL
    ensures var r, q := PDecl(Tl(ts), []), PFunc(ts, fns);
      var t := Hd(Tl(Tl(r.rest)));
      if t.STRING? && Find(fns, t.s).Some? then
        && q.Ok? && q.rest == Tl(Tl(Tl(r.rest)))
        && TreeE(q.val) == FuncTree(r.val, |r.val|, One(Link(C_INTERNAL, One(Number(Find(fns, t.s).value)))))
      else q.Fail?
  {
    hide PExpr, PDecl, PLocals, PStmts, TreesEs, TreesItems, TreesDs, TreesSs, OptTree, TreeS, FuncTree, With, Top,
      Scope, LastKid, Cat, Size, Len, GetString, Hd, Tl, Sizes, Reads, ReadsRow;
  }

  lemma FuncCodeRule(ts: Toks, fns: seq<string>)
    requires Hd(ts) == LP
    requires var r := PDecl(Tl(ts), []); r.Ok? && Hd(r.rest) == RP && Hd(Tl(r.rest)) != INTERNAL
    ensures var r, q := PDecl(Tl(ts), []), PFunc(ts, fns);
      var rd := PLocals(Tl(Tl(r.rest)), r.val);
      if Hd(Tl(r.rest)) == LCB && rd.Ok? && PStmts(rd.rest, r.val + DeclNames(rd.val), fns).Ok? then
        var rs := PStmts(rd.rest, r.val + DeclNames(rd.val), fns);
        q == Ok(Func(r.val, Code(rd.val, rs.val)), rs.rest)
      else q.Fail?
  {
    hide PExpr, PDecl, PLocals, PStmts, TreeE, TreesSs, OptTree, TreeS, With, Top, Scope, LastKid, Cat, Size, Len,
      GetString, Hd, Tl, Sizes, Reads, ReadsRow;
  }

  lemma CodeTree(params: seq<string>, ds: Decls, ss: Stmts)
    ensures TreeE(Func(params, Code(ds, ss)))
      == FuncTree(params, |params| + |DeclNames(ds)|, Cat(TreesDs(ds), TreesSs(ss)))
  {
    hide PExpr, PStmts, TreesEs, TreesItems, TreesDs, TreesSs, OptTree, TreeS, FuncTree, With, Top, Scope, LastKid,
      Cat, Size, Len, GetString, Hd, Sizes, Reads, ReadsRow;
  }

  lemma TableRule(ts: Toks, sc: seq<string>, fns: seq<string>)
    requires Hd(ts) == LB
    ensures var g, q := GoalItems(PItems(Tl(ts), sc, fns)), PExp7(ts, sc, fns);
      q.Ok? == g.ok && (g.ok ==> q.rest == g.rest && TreeE(q.val) == Link(C_TCONS, g.kids))
  {
    hide PExpr, PArgs, PPath, PItems, PFunc, PStmts, TreesEs, TreesItems, TreesDs, TreesSs, OptTree, TreeS, FuncTree,
      With, Top, Scope, LastKid, Cat, Size, Len, GetString, Hd, Tl, Sizes, Reads, ReadsRow;
  }

  /** The cells of the function, before its numbers are known, are as many as its length says. */
  lemma FuncCells(c0: seq<Cell>, params: seq<string>, body: Trees)
    ensures Cat(Start(params), body) == Cons(Number(0), Cons(Number(0), Cons(DeclTree(params), body)))
    ensures |With(c0, Link(C_FUNCTION, Cat(Start(params), body)))| - |c0| == FuncSize(params, body)
  {
    hide Emit, DeclTree;
    var d := DeclTree(params);
    assert Cat(One(d), body) == Cons(d, body);
    assert Cat(Cons(Number(0), One(d)), body) == Cons(Number(0), Cons(d, body));
    WithSize(c0, Link(C_FUNCTION, Cat(Start(params), body)));
    FuncTreeSize(params, 0, 0, body);
  }

  lemma FuncTop(c0: seq<Cell>, params: seq<string>, nl: nat, body: Trees)
    ensures FuncTree(params, nl, body)
      == Link(C_FUNCTION, Cons(Number(FuncSize(params, body)), Cons(Number(nl), Cons(DeclTree(params), body))))
    ensures Top(c0, FuncTree(params, nl, body)) == |c0|
  {
  }

  lemma {:induction false} CatAssoc(ts: Trees, us: Trees, vs: Trees)
    ensures Cat(Cat(ts, us), vs) == Cat(ts, Cat(us, vs))
  {
    if ts.Cons? { CatAssoc(ts.tail, us, vs); }
  }

  lemma ScopeLinked(cells: seq<Cell>, j: nat, next: int, lvs: seq<Lv>, flvi: nat, sc: seq<string>)
    requires Scope(cells, lvs, flvi, sc)
    ensures Scope(SetNext(cells, j, next), lvs, flvi, sc)
  {
    hide StringAt;
    forall k | 0 <= k < |sc| ensures LvOk(SetNext(cells, j, next), lvs[flvi + k], k, sc[k]) {
      assert LvOk(cells, lvs[flvi + k], k, sc[k]);
      StringLinked(cells, j, next, lvs[flvi + k].si, sc[k]);
    }
  }

  lemma LocalsRule(ts: Toks, sc: seq<string>)
    requires Hd(ts) == LOCAL
    ensures var r := PDecl(Tl(ts), sc);
      if r.Ok? && Hd(r.rest) == SEMI then
        && Ahead(GoalDs(PLocals(ts, sc)), DeclTree(r.val), GoalDs(PLocals(Tl(r.rest), sc + r.val)))
        && (PLocals(ts, sc).Ok? ==>
          DeclNames(PLocals(ts, sc).val) == r.val + DeclNames(PLocals(Tl(r.rest), sc + r.val).val))
      else PLocals(ts, sc).Fail?
  {
    hide PDecl, DeclTree, Len, Hd, Tl;
  }

  lemma LocalsEnd(ts: Toks, sc: seq<string>)
    requires Hd(ts) != LOCAL
    ensures PLocals(ts, sc) == Ok(DNil, ts) && GoalDs(PLocals(ts, sc)) == Goal(true, ts, Nil) && DeclNames(DNil) == []
  {
    hide PDecl, DeclTree, Len, Hd, Tl;
  }

  lemma LocalsShorter(ts: Toks, sc: seq<string>)
    ensures PLocals(ts, sc).Ok? ==> Len(PLocals(ts, sc).rest) <= Len(ts)
  {
    hide PDecl, Hd, Tl;
  }

  lemma NamesMore(sc: seq<string>, xs: seq<string>, ys: seq<string>)
    ensures sc + (xs + ys) == sc + xs + ys
  {
  }

  lemma UnitCells(e: Expr)
    ensures var t := Link(C_CODE, One(TreeE(e))); Laid(With([], t), 0) && With([], t) == Emit(t, 0, NULL)
  {
    hide TreeE, Emit, Laid, Reads;
    var t := Link(C_CODE, One(TreeE(e)));
    TreeLinksE(e);
    LinkMore(TreeE(e), Nil);
    var cs := With([], t);
    assert cs == Emit(t, 0, NULL) && cs[0..0 + Size(t)] == cs;
    EmitLaid(t, 0, NULL, cs, 0);
    LaidEnd(cs);
  }

  lemma UnitMoved(e: Expr)
    ensures var t := Link(C_CODE, One(TreeE(e)));
      var cs := MovedAll(With([], t), 0);
      cs == Emit(t, 0, NULL) && Reads(cs, 0, t)
  {
    hide TreeE, Emit, Reads, MovedAll;
    var t := Link(C_CODE, One(TreeE(e)));
    var cs := With([], t);
    assert cs == Emit(t, 0, NULL) && cs[0..0 + Size(t)] == cs;
    EmitMoves(t, 0, 0, NULL);
    EmitReads(t, 0, NULL, cs);
  }

  // ---- declarations ----

  lemma NoNames()
    ensures DeclTree([]) == Link(C_DECL, Nil)
  {
  }

  lemma OneName(x: string)
    ensures Names([x]) == One(Text(x)) && DeclTree([x]) == Link(C_DECL, One(Text(x)))
  {
    assert Names([x][1..]) == Nil;
  }

  lemma {:induction false} MoreNames(xs: seq<string>, y: string)
    ensures Names(xs + [y]) == Cat(Names(xs), One(Text(y)))
  {
    if xs == [] {
      OneName(y);
      assert xs + [y] == [y];
    } else {
      assert (xs + [y])[1..] == xs[1..] + [y];
      MoreNames(xs[1..], y);
    }
  }

  /** What pdecl has still to read after the names `done`. */
  predicate Rest(r0: Res<seq<string>>, done: seq<string>, r: Res<seq<string>>) {
    r0.Ok? == r.Ok? && (r.Ok? ==> r0.rest == r.rest && r0.val == done + r.val)
  }

  lemma RestStart(r: Res<seq<string>>)
    ensures Rest(r, [], r)
  {
    if r.Ok? { assert [] + r.val == r.val; }
  }

  lemma DeclIs(c0: seq<Cell>, xs: seq<string>)
    ensures DeclTree(xs) == Link(C_DECL, Names(xs)) && Top(c0, DeclTree(xs)) == |c0|
  {
  }

  lemma RestMeans(r0: Res<seq<string>>, done: seq<string>, r: Res<seq<string>>)
    requires Rest(r0, done, r)
    ensures r0.Ok? == r.Ok?
  {
  }

  lemma RestMore(r0: Res<seq<string>>, done: seq<string>, r: Res<seq<string>>, y: string, q: Res<seq<string>>)
    requires Rest(r0, done, r) && r.Ok? == q.Ok? && (q.Ok? ==> r.rest == q.rest && r.val == [y] + q.val)
    ensures Rest(r0, done + [y], q)
  {
    if q.Ok? { assert done + ([y] + q.val) == done + [y] + q.val; }
  }

  lemma RestEnd(r0: Res<seq<string>>, done: seq<string>, r: Res<seq<string>>)
    requires Rest(r0, done, r) && r.Ok? && r.val == []
    ensures r0.Ok? && r0.rest == r.rest && r0.val == done
  {
  }

  lemma MoreDeclRule(ts: Toks, sc: seq<string>)
    requires Hd(ts).ID?
    ensures var x := Hd(ts).id;
      var ts1 := if Hd(Tl(ts)) == COMMA then Tl(Tl(ts)) else Tl(ts);
      var q := PMoreDecl(ts1, sc + [x]);
      if x in sc || (Hd(Tl(ts)) == COMMA && !Hd(ts1).ID?) || q.Fail? then PMoreDecl(ts, sc).Fail?
      else PMoreDecl(ts, sc) == Ok([x] + q.val, q.rest)
  {
    hide Len, Hd, Tl;
  }

  lemma MoreDeclEnd(ts: Toks, sc: seq<string>)
    requires !Hd(ts).ID?
    ensures PMoreDecl(ts, sc) == Ok([], ts)
  {
  }

  lemma KeepsOne(l: seq<Lv>, v: Lv)
    ensures Keeps(l, l + [v])
  {
  }

  lemma ScopeMeans(cells: seq<Cell>, lvs: seq<Lv>, flvi: nat, sc: seq<string>)
    requires Scope(cells, lvs, flvi, sc)
    ensures flvi <= |lvs| && |sc| == |lvs| - flvi
  {
  }

  lemma ScopeMore(cells: seq<Cell>, lvs: seq<Lv>, flvi: nat, sc: seq<string>, v: Lv, x: string)
    requires Scope(cells, lvs, flvi, sc) && LvOk(cells, v, |sc|, x)
    ensures Scope(cells, lvs + [v], flvi, sc + [x])
  {
    hide LvOk;
    forall k | 0 <= k < |sc| + 1 ensures LvOk(cells, (lvs + [v])[flvi + k], k, (sc + [x])[k]) {
      if k < |sc| { assert LvOk(cells, lvs[flvi + k], k, sc[k]); }
    }
  }

  lemma StringNew(c0: seq<Cell>, x: string)
    ensures |c0| < |With(c0, Text(x))| && StringAt(With(c0, Text(x)), |c0|, x) && Top(c0, Text(x)) == |c0|
  {
    hide StringCells;
    TopIsNode(x, NULL);
    var cs := With(c0, Text(x));
    assert cs[|c0|] == StringCells(x, NULL)[0];
    assert cs[|c0|..|c0| + StringSize(|x|)] == StringCells(x, NULL);
  }

  /** A cell gets its first child. */
  lemma ScopeFp(c0: seq<Cell>, ct: CType, t: Tree, fp: int, lvs: seq<Lv>, flvi: nat, sc: seq<string>)
    requires Scope(With(With(c0, Link(ct, Nil)), t), lvs, flvi, sc)
    ensures Scope(SetFp(With(With(c0, Link(ct, Nil)), t), |c0|, fp), lvs, flvi, sc)
  {
    hide StringAt, Emit;
    WithLink(c0, ct);
    var cells := With(With(c0, Link(ct, Nil)), t);
    assert cells[|c0|] == Fresh(ct);
    forall k | 0 <= k < |sc| ensures LvOk(SetFp(cells, |c0|, fp), lvs[flvi + k], k, sc[k]) {
      assert LvOk(cells, lvs[flvi + k], k, sc[k]);
      StringLinkedFp(cells, |c0|, fp, lvs[flvi + k].si, sc[k]);
    }
  }

  // ---- statements ----

  /** The cell under the C_STMT cell. */
  function InnerTree(s: Stmt): Tree {
    match s
    case Empty => TreeS(s)
    case Block(_, _) => TreeS(s)
    case If(c, t, NoStmt) => Link(C_IF, Cons(TreeE(c), One(TreeS(t))))
    case If(c, t, TheStmt(e)) => Link(C_IF, Cons(TreeE(c), Cons(TreeS(t), One(TreeS(e)))))
    case While(c, b) => Link(C_WHILE, Cons(TreeE(c), One(TreeS(b))))
    case For(i, c, st, b) => Link(C_FOR, Cons(OptTree(i), Cons(OptTree(c), Cons(TreeE(st), One(TreeS(b))))))
    case ForIn(v, t, b) => Link(C_FORIN, Cons(TreeE(v), Cons(TreeE(t), One(TreeS(b)))))
    case Break => Link(C_BREAK, Nil)
    case Continue => Link(C_CONTINUE, Nil)
    case Return(NoExpr) => Link(C_RETURN, Nil)
    case Return(TheExpr(e)) => Link(C_RETURN, One(TreeE(e)))
    case Do(e) => TreeE(e)
  }

  lemma InnerIs(s: Stmt)
    requires !s.Empty? && !s.Block?
    ensures TreeS(s) == Link(C_STMT, One(InnerTree(s)))
  {
    hide PExpr, PStmts, TreeE, TreesSs, OptTree, With, Top, Scope, LastKid, Cat, Size, Len, GetString, Hd, Sizes,
      Reads, ReadsRow;
  }

  lemma EmptyRule(ts: Toks, sc: seq<string>, fns: seq<string>)
    requires Hd(ts) == SEMI
    ensures PStmt(ts, sc, fns) == Ok(Empty, Tl(ts)) && TreeS(Empty) == Link(C_STMT, Nil)
  {
    hide PExpr, PStmts, PIf, PWhile, PFor, TreeE, TreesSs, OptTree, With, Top, Scope, LastKid, Cat, Size, Len,
      GetString, Hd, Tl, Sizes, Reads, ReadsRow;
  }

  lemma BlockRule(ts: Toks, sc: seq<string>, fns: seq<string>)
    requires Hd(ts) == LCB
    ensures var r, q := PStmts(Tl(ts), sc, fns), PStmt(ts, sc, fns);
      q.Ok? == r.Ok? && (r.Ok? ==> q.rest == r.rest && TreeS(q.val) == Link(C_STMT, TreesSs(r.val)))
  {
    hide PExpr, PStmts, PIf, PWhile, PFor, TreeE, OptTree, With, Top, Scope, LastKid, Cat, Size, Len, GetString, Hd,
      Tl, Sizes, Reads, ReadsRow;
  }

  lemma StmtsRule(ts: Toks, sc: seq<string>, fns: seq<string>)
    requires Hd(ts) != RCB
    ensures var r := PStmt(ts, sc, fns);
      if r.Fail? then PStmts(ts, sc, fns).Fail?
      else Len(r.rest) < Len(ts) && Ahead(GoalSs(PStmts(ts, sc, fns)), TreeS(r.val), GoalSs(PStmts(r.rest, sc, fns)))
  {
    hide PExpr, PStmt, TreeE, OptTree, TreeS, With, Top, Scope, LastKid, Cat, Size, Len, GetString, Hd, Tl, Sizes,
      Reads, ReadsRow;
  }

  lemma StmtsEnd(ts: Toks, sc: seq<string>, fns: seq<string>)
    requires Hd(ts) == RCB
    ensures PStmts(ts, sc, fns) == Ok(SNil, Tl(ts)) && GoalSs(PStmts(ts, sc, fns)) == Goal(true, Tl(ts), Nil)
    ensures TreesSs(SNil) == Nil
  {
    hide PExpr, PStmt, TreeE, OptTree, TreeS, With, Top, Scope, LastKid, Cat, Size, Len, GetString, Hd, Tl, Sizes,
      Reads, ReadsRow;
  }

  /** Neither empty nor a block: one cell under the C_STMT cell. */
  lemma InnerRule(ts: Toks, sc: seq<string>, fns: seq<string>)
    requires Hd(ts) != SEMI && Hd(ts) != LCB
    ensures var r := PStmt(ts, sc, fns);
      r.Ok? ==> !r.val.Empty? && !r.val.Block? && TreeS(r.val) == Link(C_STMT, One(InnerTree(r.val)))
  {
    hide *;
    var r := PStmt(ts, sc, fns);
    if r.Ok? {
      Kind(ts, sc, fns);
      InnerIs(r.val);
    }
  }

  lemma Kind(ts: Toks, sc: seq<string>, fns: seq<string>)
    requires Hd(ts) != SEMI && Hd(ts) != LCB && PStmt(ts, sc, fns).Ok?
    ensures !PStmt(ts, sc, fns).val.Empty? && !PStmt(ts, sc, fns).val.Block?
  {
    hide PExpr, PStmts, PIf, PWhile, PFor, TreeE, TreesSs, OptTree, TreeS, With, Top, Scope, LastKid, Cat, Size, Len,
      GetString, Hd, Tl, Sizes, Reads, ReadsRow;
    if Hd(ts) == IF { KindIf(ts, sc, fns); }
    if Hd(ts) == WHILE { KindWhile(ts, sc, fns); }
    if Hd(ts) == FOR { KindFor(ts, sc, fns); }
  }

  lemma KindIf(ts: Toks, sc: seq<string>, fns: seq<string>)
    requires Hd(ts) == IF && PIf(ts, sc, fns).Ok?
    ensures PIf(ts, sc, fns).val.If?
  {
    hide PExpr, PStmts, PStmt, TreeE, TreesSs, OptTree, TreeS, With, Top, Scope, LastKid, Cat, Size, Len, GetString,
      Hd, Tl, Sizes, Reads, ReadsRow;
  }

  lemma KindWhile(ts: Toks, sc: seq<string>, fns: seq<string>)
    requires Hd(ts) == WHILE && PWhile(ts, sc, fns).Ok?
    ensures PWhile(ts, sc, fns).val.While?
  {
    hide PExpr, PStmts, PStmt, TreeE, TreesSs, OptTree, TreeS, With, Top, Scope, LastKid, Cat, Size, Len, GetString,
      Hd, Tl, Sizes, Reads, ReadsRow;
  }

  lemma KindFor(ts: Toks, sc: seq<string>, fns: seq<string>)
    requires Hd(ts) == FOR && PFor(ts, sc, fns).Ok?
    ensures PFor(ts, sc, fns).val.For? || PFor(ts, sc, fns).val.ForIn?
  {
    hide PExpr, PStmts, PStmt, POpt, TreeE, TreesSs, OptTree, TreeS, With, Top, Scope, LastKid, Cat, Size, Len,
      GetString, Hd, Tl, Sizes, Reads, ReadsRow;
  }

  lemma DoRule(ts: Toks, sc: seq<string>, fns: seq<string>)
    requires Hd(ts) != SEMI && Hd(ts) != LCB && Hd(ts) != IF && Hd(ts) != WHILE && Hd(ts) != FOR
    requires Hd(ts) != BREAK && Hd(ts) != CONTINUE && Hd(ts) != RETURN
    ensures var r, q := PExpr(ts, sc, fns), PStmt(ts, sc, fns);
      if r.Ok? && Hd(r.rest) == SEMI then q == Ok(Do(r.val), Tl(r.rest)) && InnerTree(q.val) == TreeE(r.val)
      else q.Fail?
  {
    hide PExpr, PStmts, PIf, PWhile, PFor, TreeE, TreesSs, OptTree, TreeS, With, Top, Scope, LastKid, Cat, Size, Len,
      GetString, Hd, Tl, Sizes, Reads, ReadsRow;
  }

  lemma JumpRule(ts: Toks, sc: seq<string>, fns: seq<string>)
    requires Hd(ts) == BREAK || Hd(ts) == CONTINUE
    ensures var q := PStmt(ts, sc, fns);
      if Hd(Tl(ts)) != SEMI then q.Fail?
      else
        && q.Ok? && q.rest == Tl(Tl(ts))
        && InnerTree(q.val) == Link(if Hd(ts) == BREAK then C_BREAK else C_CONTINUE, Nil)
  {
    hide PExpr, PStmts, PIf, PWhile, PFor, TreeE, TreesSs, OptTree, TreeS, With, Top, Scope, LastKid, Cat, Size, Len,
      GetString, Hd, Tl, Sizes, Reads, ReadsRow;
  }

  lemma ReturnRule(ts: Toks, sc: seq<string>, fns: seq<string>)
    requires Hd(ts) == RETURN
    ensures var r, q := PExpr(Tl(ts), sc, fns), PStmt(ts, sc, fns);
      if Hd(Tl(ts)) == SEMI then q.Ok? && q.rest == Tl(Tl(ts)) && InnerTree(q.val) == Link(C_RETURN, Nil)
      else if r.Ok? && Hd(r.rest) == SEMI then
        q.Ok? && q.rest == Tl(r.rest) && InnerTree(q.val) == Link(C_RETURN, One(TreeE(r.val)))
      else q.Fail?
  {
    hide PExpr, PStmts, PIf, PWhile, PFor, TreeE, TreesSs, OptTree, TreeS, With, Top, Scope, LastKid, Cat, Size, Len,
      GetString, Hd, Tl, Sizes, Reads, ReadsRow;
  }

  lemma OptGiven(ts: Toks, sc: seq<string>, fns: seq<string>)
    ensures var r := POpt(ts, sc, fns);
      r.Ok? && Hd(r.rest) != SEMI ==> r.val.TheExpr? && OptTree(r.val) == TreeE(r.val.e)
  {
    hide PExpr, PStmts, TreeE, TreesSs, TreeS, With, Top, Scope, LastKid, Cat, Size, Len, GetString, Hd, Sizes, Reads,
      ReadsRow;
  }

  lemma IfRule(ts: Toks, sc: seq<string>, fns: seq<string>)
    requires Hd(ts) == IF
    ensures PStmt(ts, sc, fns) == PIf(ts, sc, fns)
  {
    hide PExpr, PStmts, PIf, PWhile, PFor, TreeE, TreesSs, OptTree, TreeS, With, Top, Scope, LastKid, Cat, Size, Len,
      GetString, Hd, Tl, Sizes, Reads, ReadsRow;
  }

  lemma WhileRule(ts: Toks, sc: seq<string>, fns: seq<string>)
    requires Hd(ts) == WHILE
    ensures PStmt(ts, sc, fns) == PWhile(ts, sc, fns)
  {
    hide PExpr, PStmts, PIf, PWhile, PFor, TreeE, TreesSs, OptTree, TreeS, With, Top, Scope, LastKid, Cat, Size, Len,
      GetString, Hd, Tl, Sizes, Reads, ReadsRow;
  }

  lemma ForRule(ts: Toks, sc: seq<string>, fns: seq<string>)
    requires Hd(ts) == FOR
    ensures PStmt(ts, sc, fns) == PFor(ts, sc, fns)
  {
    hide PExpr, PStmts, PIf, PWhile, PFor, TreeE, TreesSs, OptTree, TreeS, With, Top, Scope, LastKid, Cat, Size, Len,
      GetString, Hd, Tl, Sizes, Reads, ReadsRow;
  }

  lemma IfParts(ts: Toks, sc: seq<string>, fns: seq<string>)
    requires Hd(ts) == IF
    ensures var c, q := PExpr(Tl(Tl(ts)), sc, fns), PIf(ts, sc, fns);
      if Hd(Tl(ts)) == LP && c.Ok? && Hd(c.rest) == RP && PStmt(Tl(c.rest), sc, fns).Ok? then
        var t := PStmt(Tl(c.rest), sc, fns);
        if Hd(t.rest) != ELSE then
          q.Ok? && q.rest == t.rest && InnerTree(q.val) == Link(C_IF, Cons(TreeE(c.val), One(TreeS(t.val))))
        else
          var e := PStmt(Tl(t.rest), sc, fns);
          if e.Ok? then
            && q.Ok? && q.rest == e.rest
            && InnerTree(q.val) == Link(C_IF, Cons(TreeE(c.val), Cons(TreeS(t.val), One(TreeS(e.val)))))
          else q.Fail?
      else q.Fail?
  {
    hide PExpr, PStmts, PStmt, TreeE, TreesSs, OptTree, TreeS, With, Top, Scope, LastKid, Cat, Size, Len, GetString,
      Hd, Tl, Sizes, Reads, ReadsRow;
  }

  lemma WhileParts(ts: Toks, sc: seq<string>, fns: seq<string>)
    requires Hd(ts) == WHILE
    ensures var c, q := PExpr(Tl(Tl(ts)), sc, fns), PWhile(ts, sc, fns);
      if Hd(Tl(ts)) == LP && c.Ok? && Hd(c.rest) == RP && PStmt(Tl(c.rest), sc, fns).Ok? then
        var b := PStmt(Tl(c.rest), sc, fns);
        q.Ok? && q.rest == b.rest && InnerTree(q.val) == Link(C_WHILE, Cons(TreeE(c.val), One(TreeS(b.val))))
      else q.Fail?
  {
    hide PExpr, PStmts, PStmt, TreeE, TreesSs, OptTree, TreeS, With, Top, Scope, LastKid, Cat, Size, Len, GetString,
      Hd, Tl, Sizes, Reads, ReadsRow;
  }

  lemma HeadRule(ts: Toks, sc: seq<string>, fns: seq<string>)
    requires Hd(ts) == FOR
    ensures Hd(Tl(ts)) != LP ==> PFor(ts, sc, fns).Fail?
    ensures Hd(Tl(ts)) == LP ==>
      var ri := POpt(Tl(Tl(ts)), sc, fns);
      ri.Fail? || (Hd(ri.rest) != IN && Hd(ri.rest) != SEMI) ==> PFor(ts, sc, fns).Fail?
  {
    hide PExpr, PStmts, PStmt, POpt, TreeE, TreesSs, OptTree, TreeS, With, Top, Scope, LastKid, Cat, Size, Len,
      GetString, Hd, Tl, Sizes, Reads, ReadsRow;
  }

  lemma ForInRule(ts: Toks, sc: seq<string>, fns: seq<string>)
    requires Hd(ts) == FOR && Hd(Tl(ts)) == LP
    requires var ri := POpt(Tl(Tl(ts)), sc, fns); ri.Ok? && Hd(ri.rest) == IN && ri.val.TheExpr?
    ensures var ri := POpt(Tl(Tl(ts)), sc, fns);
      var rt := PExpr(Tl(ri.rest), sc, fns);
      var q := PFor(ts, sc, fns);
      if rt.Ok? && Hd(rt.rest) == RP && PStmt(Tl(rt.rest), sc, fns).Ok? then
        var rb := PStmt(Tl(rt.rest), sc, fns);
        && q.Ok? && q.rest == rb.rest
        && InnerTree(q.val) == Link(C_FORIN, Cons(TreeE(ri.val.e), Cons(TreeE(rt.val), One(TreeS(rb.val)))))
      else q.Fail?
  {
    hide PExpr, PStmts, PStmt, POpt, TreeE, TreesSs, OptTree, TreeS, With, Top, Scope, LastKid, Cat, Size, Len,
      GetString, Hd, Tl, Sizes, Reads, ReadsRow;
  }

  lemma ForSemiRule(ts: Toks, sc: seq<string>, fns: seq<string>)
    requires Hd(ts) == FOR && Hd(Tl(ts)) == LP
    requires var ri := POpt(Tl(Tl(ts)), sc, fns); ri.Ok? && Hd(ri.rest) == SEMI
    ensures var ri := POpt(Tl(Tl(ts)), sc, fns);
      var rc := POpt(Tl(ri.rest), sc, fns);
      var q := PFor(ts, sc, fns);
      if rc.Ok? && Hd(rc.rest) == SEMI && POpt(Tl(rc.rest), sc, fns).Ok?
        && Hd(POpt(Tl(rc.rest), sc, fns).rest) == RP && PStmt(Tl(POpt(Tl(rc.rest), sc, fns).rest), sc, fns).Ok?
      then
        var rs := POpt(Tl(rc.rest), sc, fns);
        var rb := PStmt(Tl(rs.rest), sc, fns);
        && q.Ok? && q.rest == rb.rest
        && InnerTree(q.val) == Link(C_FOR,
          Cons(OptTree(ri.val), Cons(OptTree(rc.val), Cons(OptTree(rs.val), One(TreeS(rb.val))))))
      else q.Fail?
  {
    hide PExpr, PStmts, PStmt, POpt, TreeE, TreesSs, OptTree, TreeS, With, Top, Scope, LastKid, Cat, Size, Len,
      GetString, Hd, Tl, Sizes, Reads, ReadsRow;
    var rc := POpt(Tl(POpt(Tl(Tl(ts)), sc, fns).rest), sc, fns);
    if rc.Ok? { OptGiven(Tl(rc.rest), sc, fns); }
  }

  lemma CatTwo(t: Tree, u: Tree, v: Tree)
    ensures Cat(Cons(t, One(u)), One(v)) == Cons(t, Cons(u, One(v)))
  {
    CatOne(u, v);
  }

  lemma CatThree(t: Tree, u: Tree, v: Tree, w: Tree)
    ensures Cat(Cons(t, Cons(u, One(v))), One(w)) == Cons(t, Cons(u, Cons(v, One(w))))
  {
    CatTwo(u, v, w);
  }
}
