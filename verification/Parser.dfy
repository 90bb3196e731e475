/** The recursive-descent parser of cmd/lefty/parse.c as it works: one token at a time, writing cells
    at the end of the code array and links between them.  Each method is proved against the grammar:
    it fails when the grammar does, and otherwise leaves the cells of exactly the tree that the
    grammar gives behind the cells that were there, and the rest of the tokens. */
module Parser {
  import opened Options
  import opened LeftySyntax
  import opened LeftyGrammar
  import opened CodeCells
  import opened CodeTrees
  import opened CodeReads
  import opened CodeBuild
  import opened ParserRules

  class Reader {
    var ts: Toks           // Ltok is the first one
    var cells: seq<Cell>   // cbufp[0..cbufi)
    var lvs: seq<Lv>       // lvp[0..llvi)
    var flvi: nat
    const fns: seq<string> // the names of the internal functions

    // ---- the lexer and the code array ----

    method Lgtok()
      modifies this`ts
      ensures ts == Tl(old(ts))
    {
      ts := Tl(ts);
    }

    /** GTOKIFEQ. */
    method Need(t: Tok) returns (ok: bool)
      modifies this`ts
      ensures ok <==> Hd(old(ts)) == t
      ensures ok ==> ts == Tl(old(ts))
    {
      ok := Hd(ts) == t;
      if ok { Lgtok(); }
    }

    method Cnew(ct: CType) returns (i: nat)
      modifies this`cells
      ensures cells == old(cells) + [Fresh(ct)] && i == |old(cells)|
    {
      i := |cells|;
      cells := cells + [Fresh(ct)];
    }

    method Cinteger(n: int) returns (i: nat)
      modifies this`cells
      ensures cells == With(old(cells), Number(n)) && i == Top(old(cells), Number(n))
    {
      i := |cells|;
      cells := cells + [Node(C_INTEGER, NULL, Num(n))];
    }

    method Cstring(s: string) returns (i: nat)
      modifies this`cells
      ensures cells == With(old(cells), Text(s)) && i == Top(old(cells), Text(s)) == |old(cells)|
    {
      i := |cells|;
      cells := cells + StringCells(s, NULL);
    }

    method Csetfp(i: nat, fp: int)
      modifies this`cells
      ensures cells == SetFp(old(cells), i, fp)
    {
      cells := SetFp(cells, i, fp);
    }

    method Csetnext(i: nat, next: int)
      modifies this`cells
      ensures cells == SetNext(old(cells), i, next)
    {
      cells := SetNext(cells, i, next);
    }

    method Csettype(i: nat, ct: CType)
      modifies this`cells
      ensures cells == SetType(old(cells), i, ct)
    {
      cells := SetType(cells, i, ct);
    }

    method Csetinteger(i: nat, n: int)
      modifies this`cells
      ensures cells == SetNum(old(cells), i, n)
    {
      cells := SetNum(cells, i, n);
    }

    /** Pinit. */
    constructor (fns: seq<string>, ts: Toks)
      ensures this.fns == fns && this.ts == ts
    {
      this.fns, this.ts := fns, ts;
      cells, lvs, flvi := [], [], 0;
    }

    // ---- what every parsing method leaves behind ----

    ghost predicate Built(c0: seq<Cell>, l0: seq<Lv>, f0: nat, t: Tree, rest: Toks, i: nat)
      reads this
    {
      ts == rest && cells == With(c0, t) && i == Top(c0, t) && lvs == l0 && flvi == f0
    }

    // ---- expressions ----

    /** pexpr. */
    method Expr(ghost sc: seq<string>) returns (ok: bool, i: nat)
      requires Scope(cells, lvs, flvi, sc)
      modifies this
      ensures var r := PExpr(old(ts), sc, fns);
        ok == r.Ok? && (ok ==> Built(old(cells), old(lvs), old(flvi), TreeE(r.val), r.rest, i))
      decreases Len(ts), 20
    {
      hide PExpI, PStmts, TreesEs, TreesItems, TreesDs, TreesSs, OptTree, TreeS, FuncTree, With, Top, SetFp, SetNext,
        Scope, LastKid, Cat, Size, Len, GetString, Hd, Tl, Fresh, Sizes, Reads, ReadsRow;
      ghost var c0 := cells;
      ok, i := ExpI(0, sc);
      if !ok { return; }
      if Hd(ts) != ASSIGN { return; }
      ghost var l := PExpI(0, old(ts), sc, fns).val;
      var ai := Cnew(C_ASSIGN);
      Csetfp(ai, i);
      Operator(c0, C_ASSIGN, TreeE(l));
      Lgtok();
      ghost var ts1 := ts;
      ScopeWith(c0, Link(C_ASSIGN, One(TreeE(l))), lvs, flvi, sc);
      var ei1;
      ok, ei1 := Expr(sc);
      if !ok { return; }
      Csetnext(i, ei1);
      ghost var r := PExpr(ts1, sc, fns).val;
      NextChild(c0, C_ASSIGN, One(TreeE(l)), TreeE(r));
      CatOne(TreeE(l), TreeE(r));
      i := ai;
    }

    /** pexpi; row 5 is the empty one. */
    method ExpI(k: nat, ghost sc: seq<string>) returns (ok: bool, i: nat)
      requires k <= 5 && Scope(cells, lvs, flvi, sc)
      modifies this
      ensures var r := PExpI(k, old(ts), sc, fns);
        ok == r.Ok? && (ok ==> Built(old(cells), old(lvs), old(flvi), TreeE(r.val), r.rest, i))
      decreases Len(ts), 15 - k
    {
      hide PExpr, PExpI, PLoop, PExp5, PStmts, TreeE, TreesSs, OptTree, TreeS, With, Top, Scope, LastKid, Cat, Size,
        Len, GetString, Hd, Tl, Sizes, Reads, ReadsRow, GetOp, Level;
      RowRule(k, ts, sc, fns);
      if k == 5 {
        ok, i := Exp5(sc);
        return;
      }
      ghost var c0 := cells;
      ok, i := ExpI(k + 1, sc);
      if !ok { return; }
      ghost var l := PExpI(k + 1, old(ts), sc, fns).val;
      while GetOp(Hd(ts), k).Some?
        invariant PExpI(k, old(ts), sc, fns) == PLoop(k, l, ts, sc, fns) && Len(ts) < Len(old(ts))
        invariant Built(c0, old(lvs), old(flvi), TreeE(l), ts, i) && Scope(c0, lvs, flvi, sc)
        decreases Len(ts)
      {
        ghost var ts1 := Tl(ts);
        var op := GetOp(Hd(ts), k).value;
        LoopRule(k, l, ts, sc, fns);
        TlShorter(ts);
        ok, i := Operand(k, op, i, c0, TreeE(l), sc);
        if !ok { return; }
        l := Bin(op, l, PExpI(k + 1, ts1, sc, fns).val);
      }
      LoopEnd(k, l, ts, sc, fns);
    }

    /** One round of the loop of pexpi: the operator over what was read, and its second operand. */
    method Operand(k: nat, op: BinOp, ei0: nat, ghost c0: seq<Cell>, ghost t: Tree, ghost sc: seq<string>)
      returns (ok: bool, ei1: nat)
      requires k < 5 && Hd(ts) != EOF && Scope(c0, lvs, flvi, sc) && cells == With(c0, t) && ei0 == Top(c0, t)
      modifies this
      ensures var r := PExpI(k + 1, Tl(old(ts)), sc, fns);
        ok == r.Ok? && (ok ==>
          Built(c0, old(lvs), old(flvi), Link(C_BIN(op), Cons(t, One(TreeE(r.val)))), r.rest, ei1))
      decreases Len(ts), 3
    {
      hide PExpr, PExpI, PStmts, TreeE, TreesSs, OptTree, TreeS, With, Top, SetFp, SetNext, Scope, LastKid, Cat, Size,
        Len, GetString, Hd, Tl, Fresh, Sizes, Reads, ReadsRow;
      ei1 := Cnew(C_BIN(op));
      Csetfp(ei1, ei0);
      Operator(c0, C_BIN(op), t);
      TlShorter(ts);
      Lgtok();
      ghost var ts1 := ts;
      ScopeWith(c0, Link(C_BIN(op), One(t)), lvs, flvi, sc);
      var ei2;
      ok, ei2 := ExpI(k + 1, sc);
      if !ok { return; }
      Csetnext(ei0, ei2);
      ghost var u := TreeE(PExpI(k + 1, ts1, sc, fns).val);
      NextChild(c0, C_BIN(op), One(t), u);
      CatOne(t, u);
    }

    /** pexp5. */
    method Exp5(ghost sc: seq<string>) returns (ok: bool, i: nat)
      requires Scope(cells, lvs, flvi, sc)
      modifies this
      ensures var r := PExp5(old(ts), sc, fns);
        ok == r.Ok? && (ok ==> Built(old(cells), old(lvs), old(flvi), TreeE(r.val), r.rest, i))
      decreases Len(ts), 9
    {
      hide PExpr, PExp6, PStmts, TreesEs, TreesItems, TreesDs, TreesSs, OptTree, TreeS, FuncTree, With, Top, SetFp,
        Scope, LastKid, Cat, Size, Len, GetString, Hd, Tl, Fresh, Sizes, Reads, ReadsRow;
      if Hd(ts) != MINUS {
        ok, i := Exp6(sc);
        return;
      }
      ghost var c0 := cells;
      i := Cnew(C_UMINUS);
      WithLink(c0, C_UMINUS);
      TlShorter(ts);
      Lgtok();
      ghost var ts1 := ts;
      ScopeWith(c0, Link(C_UMINUS, Nil), lvs, flvi, sc);
      var ei1;
      ok, ei1 := Exp5(sc);
      if !ok { return; }
      Csetfp(i, ei1);
      FirstChild(c0, C_UMINUS, TreeE(PExp5(ts1, sc, fns).val));
    }

    /** pexp6. */
    method Exp6(ghost sc: seq<string>) returns (ok: bool, i: nat)
      requires Scope(cells, lvs, flvi, sc)
      modifies this
      ensures var r := PExp6(old(ts), sc, fns);
        ok == r.Ok? && (ok ==> Built(old(cells), old(lvs), old(flvi), TreeE(r.val), r.rest, i))
      decreases Len(ts), 8
    {
      hide PExpr, PExp7, PStmts, TreesEs, TreesItems, TreesDs, TreesSs, OptTree, TreeS, FuncTree, With, Top, SetFp,
        Scope, LastKid, Cat, Size, Len, GetString, Hd, Tl, Fresh, Sizes, Reads, ReadsRow;
      if Hd(ts) != NOT {
        ok, i := Exp7(sc);
        return;
      }
      ghost var c0 := cells;
      i := Cnew(C_NOT);
      WithLink(c0, C_NOT);
      TlShorter(ts);
      Lgtok();
      ghost var ts1 := ts;
      ScopeWith(c0, Link(C_NOT, Nil), lvs, flvi, sc);
      var ei1;
      ok, ei1 := Exp6(sc);
      if !ok { return; }
      Csetfp(i, ei1);
      FirstChild(c0, C_NOT, TreeE(PExp6(ts1, sc, fns).val));
    }

    /** pexp7. */
    method Exp7(ghost sc: seq<string>) returns (ok: bool, i: nat)
      requires Scope(cells, lvs, flvi, sc)
      modifies this
      ensures var r := PExp7(old(ts), sc, fns);
        ok == r.Ok? && (ok ==> Built(old(cells), old(lvs), old(flvi), TreeE(r.val), r.rest, i))
      decreases Len(ts), 7
    {
      hide PExpr, PArgs, PPath, PItems, PFunc, PStmts, TreesEs, TreesItems, TreesDs, TreesSs, OptTree, TreeS,
        FuncTree, With, Top, Scope, LastKid, Cat, Size, Len, GetString, Hd, Tl, Sizes, Reads, ReadsRow;
      ok, i := false, 0;
      TlShorter(ts);
      match Hd(ts) {
        case FUNCTION =>
          Lgtok();
          ok, i := Function(sc);
        case LP => ok, i := Parens(sc);
        case LB => ok, i := TableCons(sc);
        case STRING(s) =>
          ok := true;
          i := Cstring(s);
          Lgtok();
        case NUMBER(n) =>
          ok := true;
          i := Cinteger(n);
          Lgtok();
        case ID(_) => ok, i := VarOrCall(sc);
        case _ =>
      }
    }

    /** The case of pexp7 for a parenthesis. */
    method Parens(ghost sc: seq<string>) returns (ok: bool, i: nat)
      requires Scope(cells, lvs, flvi, sc) && Hd(ts) == LP
      modifies this
      ensures var r := PExp7(old(ts), sc, fns);
        ok == r.Ok? && (ok ==> Built(old(cells), old(lvs), old(flvi), TreeE(r.val), r.rest, i))
      decreases Len(ts), 6
    {
      hide PExpr, PExp7, PStmts, TreeE, TreesSs, OptTree, TreeS, With, Top, SetFp, Scope, LastKid, Cat, Size, Len,
        GetString, Hd, Tl, Fresh, Sizes, Reads, ReadsRow;
      ParenRule(ts, sc, fns);
      ghost var c0 := cells;
      i := Cnew(C_PEXPR);
      WithLink(c0, C_PEXPR);
      TlShorter(ts);
      Lgtok();
      ghost var ts1 := ts;
      ScopeWith(c0, Link(C_PEXPR, Nil), lvs, flvi, sc);
      var ei1;
      ok, ei1 := Expr(sc);
      if !ok { return; }
      ok := Need(RP);
      if !ok { return; }
      Csetfp(i, ei1);
      FirstChild(c0, C_PEXPR, TreeE(PExpr(ts1, sc, fns).val));
    }

    /** The case of pexp7 for a variable, which may turn out to be a call. */
    method VarOrCall(ghost sc: seq<string>) returns (ok: bool, i: nat)
      requires Scope(cells, lvs, flvi, sc) && Hd(ts).ID?
      modifies this
      ensures var r := PExp7(old(ts), sc, fns);
        ok == r.Ok? && (ok ==> Built(old(cells), old(lvs), old(flvi), TreeE(r.val), r.rest, i))
      decreases Len(ts), 6
    {
      hide PExpr, PExp7, PArgs, PPath, PStmts, TreeE, TreesEs, TreesSs, OptTree, TreeS, With, Top, SetFp, SetNext,
        Scope, LastKid, Cat, Size, Len, GetString, Hd, Tl, Fresh, Sizes, Reads, ReadsRow;
      VarRule(ts, sc, fns);
      ghost var c0 := cells;
      TlShorter(ts);
      ok, i := VarPath(sc);
      if !ok { return; }
      ghost var v := Var(Hd(old(ts)).id, Find(sc, Hd(old(ts)).id), PPath(Tl(old(ts)), sc, fns).val);
      if Hd(ts) != LP { return; }
      var ei1 := i;
      i := Cnew(C_FCALL);
      Csetfp(i, ei1);
      Operator(c0, C_FCALL, TreeE(v));
      TlShorter(ts);
      Lgtok();
      ghost var ts1 := ts;
      ScopeWith(c0, Link(C_FCALL, One(TreeE(v))), lvs, flvi, sc);
      var ei2;
      ok, ei2 := Args(sc);
      if !ok { return; }
      Csetnext(ei1, ei2);
      ghost var args := Link(C_ARGS, TreesEs(PArgs(ts1, sc, fns).val));
      NextChild(c0, C_FCALL, One(TreeE(v)), args);
      CatOne(TreeE(v), args);
      CallTree(v, PArgs(ts1, sc, fns).val);
      ok := Need(RP);
    }

    /** pvar. */
    method VarPath(ghost sc: seq<string>) returns (ok: bool, vi: nat)
      requires Scope(cells, lvs, flvi, sc) && Hd(ts).ID?
      modifies this
      ensures var r := PPath(Tl(old(ts)), sc, fns);
        var x := Hd(old(ts)).id;
        ok == r.Ok? && (ok ==> Built(old(cells), old(lvs), old(flvi), TreeE(Var(x, Find(sc, x), r.val)), r.rest, vi))
      decreases Len(ts), 5
    {
      hide PExpr, PPath, PStmts, TreeE, TreesEs, TreesSs, OptTree, TreeS, With, Top, SetNext, Scope, LastKid, Cat,
        Size, Len, Left, Ahead, Behind, GetString, Hd, Tl, Sizes, Reads, ReadsRow;
      ghost var c0 := cells;
      ghost var x := Hd(ts).id;
      var ci0;
      ghost var kids;
      vi, ci0, kids := VarHead(sc);
      ghost var ct := if Find(sc, x).Some? then C_LVAR else C_GVAR;
      ghost var base := kids;
      ScopeWith(c0, Link(ct, kids), lvs, flvi, sc);
      TlShorter(ts);
      Lgtok();
      ghost var ts0 := ts;
      ghost var goal := Behind(base, GoalEs(PPath(ts, sc, fns)));
      LeftStart(base, GoalEs(PPath(ts, sc, fns)));
      BehindIs(base, GoalEs(PPath(ts, sc, fns)));
      while Hd(ts) == DOT || Hd(ts) == LB
        invariant kids.Cons? && cells == With(c0, Link(ct, kids)) && lvs == old(lvs) && flvi == old(flvi)
        invariant ci0 == LastKid(ct, kids, |c0|) && Len(ts) < Len(old(ts))
        invariant Left(goal, kids, GoalEs(PPath(ts, sc, fns)))
        invariant Scope(cells, lvs, flvi, sc)
        decreases Len(ts)
      {
        ghost var was := ts;
        LeftMeans(goal, kids, GoalEs(PPath(ts, sc, fns)));
        ghost var t;
        var ci1;
        ok, ci1, t := PathStep(sc);
        if !ok { return; }
        Csetnext(ci0, ci1);
        NextChild(c0, ct, kids, t);
        LeftMore(goal, kids, GoalEs(PPath(was, sc, fns)), t, GoalEs(PPath(ts, sc, fns)));
        kids := Cat(kids, One(t));
        ScopeWith(c0, Link(ct, kids), lvs, flvi, sc);
        ci0 := ci1;
      }
      ok := true;
      PathEnds(ts, sc, fns);
      LeftEnd(goal, kids, GoalEs(PPath(ts, sc, fns)));
      TopLink(c0, ct, kids);
      VarTree(x, Find(sc, x), PPath(ts0, sc, fns).val);
    }

    /** The start of pvar: the name, and the slot of a local. */
    method VarHead(ghost sc: seq<string>) returns (vi: nat, ci0: nat, ghost kids: Trees)
      requires Scope(cells, lvs, flvi, sc) && Hd(ts).ID?
      modifies this
      ensures var x := Hd(old(ts)).id;
        var ct := if Find(sc, x).Some? then C_LVAR else C_GVAR;
        && kids == VarKids(x, Find(sc, x))
        && cells == With(old(cells), Link(ct, kids)) && vi == |old(cells)| && ci0 == LastKid(ct, kids, vi)
      ensures lvs == old(lvs) && flvi == old(flvi) && ts == old(ts)
    {
      hide With, Top, SetFp, SetNext, SetType, Scope, LastKid, Cat, GetString, Hd, Fresh;
      ghost var c0 := cells;
      var x := Hd(ts).id;
      vi := Cnew(C_GVAR);
      WithLink(c0, C_GVAR);
      ghost var c1 := cells;
      ci0 := Cstring(x);
      Csetfp(vi, ci0);
      FirstChild(c0, C_GVAR, Text(x));
      kids := One(Text(x));
      ScopeWith(c0, Link(C_GVAR, kids), lvs, flvi, sc);
      ghost var c2 := cells;
      var k := flvi;
      while k < |lvs|
        invariant flvi <= k <= |lvs| && lvs == old(lvs) && flvi == old(flvi) && ts == old(ts) && cells == c2
        invariant forall j :: 0 <= j < k - flvi ==> sc[j] != x
      {
        NameOf(cells, lvs, flvi, sc, k - flvi);
        if GetString(cells, lvs[k].si) == x {
          FindFirst(sc, x, k - flvi);
          Csettype(vi, C_LVAR);
          Retyped(c0, C_GVAR, C_LVAR, kids);
          SameLast(C_GVAR, C_LVAR, kids, |c0|);
          var ci1 := Cinteger(lvs[k].vi);
          Csetnext(ci0, ci1);
          NextChild(c0, C_LVAR, kids, Number(lvs[k].vi));
          CatOne(Text(x), Number(lvs[k].vi));
          kids := Cons(Text(x), One(Number(lvs[k].vi)));
          ci0 := ci1;
          return;
        }
        k := k + 1;
      }
      FindNone(sc, x);
    }

    /** One round of the loop of pvar. */
    method PathStep(ghost sc: seq<string>) returns (ok: bool, ci1: nat, ghost t: Tree)
      requires Scope(cells, lvs, flvi, sc) && (Hd(ts) == DOT || Hd(ts) == LB)
      modifies this
      ensures !ok ==> PPath(old(ts), sc, fns).Fail?
      ensures ok ==> Len(ts) < Len(old(ts)) && lvs == old(lvs) && flvi == old(flvi)
      ensures ok ==> cells == With(old(cells), t) && ci1 == Top(old(cells), t)
      ensures ok ==> Ahead(GoalEs(PPath(old(ts), sc, fns)), t, GoalEs(PPath(ts, sc, fns)))
      decreases Len(ts), 4
    {
      hide PExpr, PPath, PStmts, TreeE, TreesEs, TreesSs, OptTree, TreeS, With, Top, Scope, LastKid, Cat, Size, Len,
        Ahead, GetString, Hd, Tl, Sizes, Reads, ReadsRow;
      t := Number(0);
      ghost var ts0 := ts;
      TlShorter(ts);
      TlShorter(Tl(ts));
      if Hd(ts) == DOT {
        DotRule(ts, sc, fns);
        Lgtok();
        ok := Hd(ts).ID?;
        ci1 := 0;
        if !ok { return; }
        ci1 := Cstring(Hd(ts).id);
        t := Text(Hd(ts).id);
        Lgtok();
      } else {
        IndexRule(ts, sc, fns);
        Lgtok();
        ghost var ts1 := ts;
        ok, ci1 := Expr(sc);
        if !ok { return; }
        t := TreeE(PExpr(ts1, sc, fns).val);
        TlShorter(ts);
        ok := Need(RB);
      }
    }

    /** ptcons. */
    method TableCons(ghost sc: seq<string>) returns (ok: bool, ti: nat)
      requires Scope(cells, lvs, flvi, sc) && Hd(ts) == LB
      modifies this
      ensures var r := PExp7(old(ts), sc, fns);
        ok == r.Ok? && (ok ==> Built(old(cells), old(lvs), old(flvi), TreeE(r.val), r.rest, ti))
      decreases Len(ts), 6
    {
      hide PExpr, PExp7, PItems, PStmts, TreeE, TreesItems, TreesSs, OptTree, TreeS, With, Top, SetFp, Scope, LastKid,
        Cat, Size, Len, Left, AheadTwo, GetString, Hd, Tl, Fresh, Sizes, Reads, ReadsRow;
      TableRule(ts, sc, fns);
      ghost var c0 := cells;
      ti := Cnew(C_TCONS);
      WithLink(c0, C_TCONS);
      TlShorter(ts);
      Lgtok();
      ghost var goal := GoalItems(PItems(ts, sc, fns));
      ItemsEnd(ts, sc, fns);
      if Hd(ts) == RB {
        Csetfp(ti, NULL);
        NoChild(c0, C_TCONS);
        Lgtok();
        return true, ti;
      }
      ghost var kids := Nil;
      var ei0, first := ti, true;
      LeftNone(goal);
      while Hd(ts) != RB
        invariant cells == With(c0, Link(C_TCONS, kids)) && lvs == old(lvs) && flvi == old(flvi)
        invariant first == kids.Nil? && (kids.Cons? ==> ei0 == LastKid(C_TCONS, kids, |c0|))
        invariant Len(ts) < Len(old(ts)) && Left(goal, kids, GoalItems(PItems(ts, sc, fns)))
        decreases Len(ts)
      {
        ghost var was := ts;
        LeftMeans(goal, kids, GoalItems(PItems(ts, sc, fns)));
        ghost var k, v;
        ok, ei0, k, v := ItemStep(sc, c0, kids, first, ti, ei0);
        first := false;
        if !ok { return; }
        LeftTwo(goal, kids, GoalItems(PItems(was, sc, fns)), k, v, GoalItems(PItems(ts, sc, fns)));
        kids := Cat(Cat(kids, One(k)), One(v));
      }
      ItemsEnd(ts, sc, fns);
      LeftEnd(goal, kids, GoalItems(PItems(ts, sc, fns)));
      Lgtok();
      ok := true;
      TopLink(c0, C_TCONS, kids);
    }

    /** A key, its value and the semicolon; the key is linked to what came before it. */
    method ItemStep(ghost sc: seq<string>, ghost c0: seq<Cell>, ghost kids: Trees, first: bool, ti: nat, last: nat)
      returns (ok: bool, ei0: nat, ghost k: Tree, ghost v: Tree)
      requires Scope(c0, lvs, flvi, sc) && Hd(ts) != RB
      requires cells == With(c0, Link(C_TCONS, kids)) && ti == |c0| && first == kids.Nil?
      requires kids.Cons? ==> last == LastKid(C_TCONS, kids, |c0|)
      modifies this
      ensures !ok ==> PItems(old(ts), sc, fns).Fail?
      ensures ok ==> Len(ts) < Len(old(ts)) && lvs == old(lvs) && flvi == old(flvi)
      ensures ok ==> cells == With(c0, Link(C_TCONS, Cat(Cat(kids, One(k)), One(v))))
      ensures ok ==> ei0 == LastKid(C_TCONS, Cat(Cat(kids, One(k)), One(v)), |c0|)
      ensures ok ==> AheadTwo(GoalItems(PItems(old(ts), sc, fns)), k, v, GoalItems(PItems(ts, sc, fns)))
      decreases Len(ts), 16
    {
      hide PExpr, PExpI, PItems, PStmts, TreeE, TreesItems, TreesSs, OptTree, TreeS, With, Top, SetNext, Scope,
        LastKid, Cat, Size, Len, AheadTwo, GetString, Hd, Tl, Sizes, Reads, ReadsRow;
      ItemRule(ts, sc, fns);
      k, v := Number(0), Number(0);
      ghost var ts0 := ts;
      ScopeWith(c0, Link(C_TCONS, kids), lvs, flvi, sc);
      var ei1;
      ok, ei0 := ExpI(0, sc);
      if !ok { return; }
      k := TreeE(PExpI(0, ts0, sc, fns).val);
      LinkKid(C_TCONS, c0, kids, k, first, ti, last, ei0);
      ScopeWith(c0, Link(C_TCONS, Cat(kids, One(k))), lvs, flvi, sc);
      TlShorter(ts);
      ok := Need(ASSIGN);
      if !ok { return; }
      ghost var ts1 := ts;
      ok, ei1 := Expr(sc);
      if !ok { return; }
      v := TreeE(PExpr(ts1, sc, fns).val);
      Csetnext(ei0, ei1);
      NextChild(c0, C_TCONS, Cat(kids, One(k)), v);
      ei0 := ei1;
      TlShorter(ts);
      ok := Need(SEMI);
    }

    /** Csetfp for the first child of a cell, Csetnext for the others. */
    method LinkKid(ghost ct: CType, ghost c0: seq<Cell>, ghost kids: Trees, ghost t: Tree, first: bool, top: nat,
                   last: nat, kid: nat)
      requires !After(ct) && (first ==> top == |c0|) && first == kids.Nil?
      requires (kids.Cons? ==> last == LastKid(ct, kids, |c0|))
      requires cells == With(With(c0, Link(ct, kids)), t) && kid == Top(With(c0, Link(ct, kids)), t)
      modifies this`cells
      ensures cells == With(c0, Link(ct, Cat(kids, One(t)))) && kid == LastKid(ct, Cat(kids, One(t)), |c0|)
      ensures forall l, f, sc :: Scope(old(cells), l, f, sc) ==> Scope(cells, l, f, sc)
    {
      hide *;
      ghost var was := cells;
      if first {
        forall l, f, sc | Scope(was, l, f, sc) ensures Scope(SetFp(was, top, kid), l, f, sc) {
          ScopeFp(c0, ct, t, kid, l, f, sc);
        }
        Csetfp(top, kid);
        FirstChild(c0, ct, t);
        CatNone(One(t));
      } else {
        forall l, f, sc | Scope(was, l, f, sc) ensures Scope(SetNext(was, last, kid), l, f, sc) {
          ScopeLinked(was, last, kid, l, f, sc);
        }
        Csetnext(last, kid);
        NextChild(c0, ct, kids, t);
      }
    }

    // ---- statements ----

    /** The statements of a block or a body up to the closing brace, each linked to the one before. */
    method Stmts(ghost ct: CType, ghost c0: seq<Cell>, ghost kids0: Trees, first0: bool, top: nat, last: nat,
                 ghost sc: seq<string>) returns (ok: bool)
      requires !After(ct) && cells == With(c0, Link(ct, kids0)) && Scope(cells, lvs, flvi, sc)
      requires first0 == kids0.Nil? && (kids0.Cons? ==> last == LastKid(ct, kids0, |c0|)) && (first0 ==> top == |c0|)
      modifies this
      ensures var r := PStmts(old(ts), sc, fns);
        ok == r.Ok? && (ok ==>
          ts == r.rest && cells == With(c0, Link(ct, Cat(kids0, TreesSs(r.val)))) && lvs == old(lvs)
          && flvi == old(flvi))
      decreases Len(ts), 32
    {
      hide PExpr, PStmts, PStmt, TreeE, TreesSs, OptTree, TreeS, With, Top, Scope, LastKid, Cat, Size, Len, Left,
        Ahead, GetString, Hd, Tl, Sizes, Reads, ReadsRow;
      ghost var kids := kids0;
      ghost var done: Trees := Nil;
      ghost var goal := GoalSs(PStmts(ts, sc, fns));
      LeftNone(goal);
      CatNil(kids0);
      var first, i0 := first0, last;
      while Hd(ts) != RCB
        invariant kids == Cat(kids0, done) && cells == With(c0, Link(ct, kids)) && lvs == old(lvs) && flvi == old(flvi)
        invariant first == kids.Nil? && (kids.Cons? ==> i0 == LastKid(ct, kids, |c0|)) && (first ==> top == |c0|)
        invariant Scope(cells, lvs, flvi, sc) && Len(ts) <= Len(old(ts))
        invariant Left(goal, done, GoalSs(PStmts(ts, sc, fns)))
        decreases Len(ts)
      {
        ghost var was, c1 := ts, cells;
        LeftMeans(goal, done, GoalSs(PStmts(ts, sc, fns)));
        StmtsRule(ts, sc, fns);
        var i1;
        ok, i1 := Statement(sc);
        if !ok { return; }
        ghost var t := TreeS(PStmt(was, sc, fns).val);
        ScopeWith(c1, t, lvs, flvi, sc);
        LinkKid(ct, c0, kids, t, first, top, i0, i1);
        LeftMore(goal, done, GoalSs(PStmts(was, sc, fns)), t, GoalSs(PStmts(ts, sc, fns)));
        CatAssoc(kids0, done, One(t));
        done := Cat(done, One(t));
        kids := Cat(kids, One(t));
        i0, first := i1, false;
      }
      ok := true;
      StmtsEnd(ts, sc, fns);
      LeftEnd(goal, done, GoalSs(PStmts(ts, sc, fns)));
      Lgtok();
    }

    /** pstmt. */
    method Statement(ghost sc: seq<string>) returns (ok: bool, si: nat)
      requires Scope(cells, lvs, flvi, sc)
      modifies this
      ensures var r := PStmt(old(ts), sc, fns);
        ok == r.Ok? && (ok ==> Built(old(cells), old(lvs), old(flvi), TreeS(r.val), r.rest, si))
      decreases Len(ts), 31
    {
      hide PExpr, PStmts, PStmt, TreeE, TreesSs, OptTree, TreeS, InnerTree, With, Top, SetFp, Scope, LastKid, Cat,
        Size, Len, GetString, Hd, Tl, Fresh, Sizes, Reads, ReadsRow;
      ghost var c0 := cells;
      si := Cnew(C_STMT);
      WithLink(c0, C_STMT);
      ScopeWith(c0, Link(C_STMT, Nil), lvs, flvi, sc);
      if Hd(ts) == SEMI {
        EmptyRule(ts, sc, fns);
        Csetfp(si, NULL);
        NoChild(c0, C_STMT);
        Lgtok();
        ok := true;
      } else if Hd(ts) == LCB {
        ok := Braces(c0, si, sc);
      } else {
        InnerRule(ts, sc, fns);
        var i0;
        ok, i0 := Inner(sc);
        if !ok { return; }
        Csetfp(si, i0);
        ghost var s := PStmt(old(ts), sc, fns).val;
        FirstChild(c0, C_STMT, InnerTree(s));
      }
    }

    /** pstmt for a block. */
    method Braces(ghost c0: seq<Cell>, si: nat, ghost sc: seq<string>) returns (ok: bool)
      requires Hd(ts) == LCB && cells == With(c0, Link(C_STMT, Nil)) && si == |c0| && Scope(cells, lvs, flvi, sc)
      modifies this
      ensures var r := PStmt(old(ts), sc, fns);
        ok == r.Ok? && (ok ==> Built(c0, old(lvs), old(flvi), TreeS(r.val), r.rest, si))
      decreases Len(ts), 30
    {
      hide PExpr, PStmts, PStmt, TreeE, TreesSs, OptTree, TreeS, With, Top, SetFp, Scope, LastKid, Cat, Size, Len,
        GetString, Hd, Tl, Sizes, Reads, ReadsRow;
      BlockRule(ts, sc, fns);
      TopLink(c0, C_STMT, Nil);
      TlShorter(ts);
      Lgtok();
      if Hd(ts) == RCB {
        StmtsEnd(ts, sc, fns);
        Csetfp(si, NULL);
        NoChild(c0, C_STMT);
        Lgtok();
        ok := true;
      } else {
        ghost var ts1 := ts;
        ok := Stmts(C_STMT, c0, Nil, true, si, si, sc);
        if !ok { return; }
        CatNone(TreesSs(PStmts(ts1, sc, fns).val));
        TopLink(c0, C_STMT, TreesSs(PStmts(ts1, sc, fns).val));
      }
    }

    /** The other cases of pstmt: the cell under the C_STMT cell. */
    method Inner(ghost sc: seq<string>) returns (ok: bool, i0: nat)
      requires Scope(cells, lvs, flvi, sc) && Hd(ts) != SEMI && Hd(ts) != LCB
      modifies this
      ensures var r := PStmt(old(ts), sc, fns);
        ok == r.Ok? && (ok ==> Built(old(cells), old(lvs), old(flvi), InnerTree(r.val), r.rest, i0))
      decreases Len(ts), 30
    {
      hide *;
      var t := Hd(ts);
      if t == IF {
        ok, i0 := IfSt(sc);
      } else if t == WHILE {
        ok, i0 := WhileSt(sc);
      } else if t == FOR {
        ok, i0 := ForSt(sc);
      } else {
        ok, i0 := Simple(sc);
      }
    }

    method Simple(ghost sc: seq<string>) returns (ok: bool, i0: nat)
      requires Scope(cells, lvs, flvi, sc) && Hd(ts) != SEMI && Hd(ts) != LCB
      requires Hd(ts) != IF && Hd(ts) != WHILE && Hd(ts) != FOR
      modifies this
      ensures var r := PStmt(old(ts), sc, fns);
        ok == r.Ok? && (ok ==> Built(old(cells), old(lvs), old(flvi), InnerTree(r.val), r.rest, i0))
      decreases Len(ts), 29
    {
      hide PExpr, PStmts, PStmt, TreeE, TreesSs, OptTree, TreeS, InnerTree, With, Top, Scope, LastKid, Cat, Size, Len,
        GetString, Hd, Tl, Sizes, Reads, ReadsRow;
      var t := Hd(ts);
      if t == BREAK {
        ok, i0 := JumpSt(C_BREAK, sc);
      } else if t == CONTINUE {
        ok, i0 := JumpSt(C_CONTINUE, sc);
      } else if t == RETURN {
        ok, i0 := ReturnSt(sc);
      } else {
        DoRule(ts, sc, fns);
        ok, i0 := Expr(sc);
        if !ok { return; }
        ok := Need(SEMI);
      }
    }

    /** pbreakst and pcontinuest. */
    method JumpSt(ct: CType, ghost sc: seq<string>) returns (ok: bool, bi: nat)
      requires (Hd(ts) == BREAK && ct == C_BREAK) || (Hd(ts) == CONTINUE && ct == C_CONTINUE)
      modifies this
      ensures var r := PStmt(old(ts), sc, fns);
        ok == r.Ok? && (ok ==> Built(old(cells), old(lvs), old(flvi), InnerTree(r.val), r.rest, bi))
    {
      hide PExpr, PStmts, PStmt, TreeE, TreesSs, OptTree, TreeS, InnerTree, With, Top, SetFp, Scope, LastKid, Cat,
        Size, Len, GetString, Hd, Tl, Fresh, Sizes, Reads, ReadsRow;
      JumpRule(ts, sc, fns);
      ghost var c0 := cells;
      bi := Cnew(ct);
      WithLink(c0, ct);
      Csetfp(bi, NULL);
      NoChild(c0, ct);
      Lgtok();
      ok := Need(SEMI);
    }

    /** preturnst. */
    method ReturnSt(ghost sc: seq<string>) returns (ok: bool, ri: nat)
      requires Scope(cells, lvs, flvi, sc) && Hd(ts) == RETURN
      modifies this
      ensures var r := PStmt(old(ts), sc, fns);
        ok == r.Ok? && (ok ==> Built(old(cells), old(lvs), old(flvi), InnerTree(r.val), r.rest, ri))
      decreases Len(ts), 28
    {
      hide PExpr, PStmts, PStmt, TreeE, TreesSs, OptTree, TreeS, InnerTree, With, Top, SetFp, Scope, LastKid, Cat,
        Size, Len, GetString, Hd, Tl, Fresh, Sizes, Reads, ReadsRow;
      ReturnRule(ts, sc, fns);
      ghost var c0 := cells;
      ri := Cnew(C_RETURN);
      WithLink(c0, C_RETURN);
      TlShorter(ts);
      Lgtok();
      if Hd(ts) == SEMI {
        Csetfp(ri, NULL);
        NoChild(c0, C_RETURN);
        ok := Need(SEMI);
        return;
      }
      ghost var ts1 := ts;
      ScopeWith(c0, Link(C_RETURN, Nil), lvs, flvi, sc);
      var ei;
      ok, ei := Expr(sc);
      if !ok { return; }
      Csetfp(ri, ei);
      FirstChild(c0, C_RETURN, TreeE(PExpr(ts1, sc, fns).val));
      ok := Need(SEMI);
    }

    /** pifst. */
    method IfSt(ghost sc: seq<string>) returns (ok: bool, isi: nat)
      requires Scope(cells, lvs, flvi, sc) && Hd(ts) == IF
      modifies this
      ensures var r := PStmt(old(ts), sc, fns);
        ok == r.Ok? && (ok ==> Built(old(cells), old(lvs), old(flvi), InnerTree(r.val), r.rest, isi))
      decreases Len(ts), 29
    {
      hide PExpr, PStmts, PStmt, PIf, TreeE, TreesSs, OptTree, TreeS, InnerTree, With, Top, SetFp, SetNext, Scope,
        LastKid, Cat, Size, Len, GetString, Hd, Tl, Fresh, Sizes, Reads, ReadsRow;
      IfRule(ts, sc, fns);
      IfParts(ts, sc, fns);
      ghost var c0 := cells;
      isi := Cnew(C_IF);
      WithLink(c0, C_IF);
      TlShorter(ts);
      Lgtok();
      TlShorter(ts);
      ok := Need(LP);
      if !ok { return; }
      ghost var ts1 := ts;
      ScopeWith(c0, Link(C_IF, Nil), lvs, flvi, sc);
      var ii, ti;
      ok, ii := Expr(sc);
      if !ok { return; }
      ghost var c := TreeE(PExpr(ts1, sc, fns).val);
      Csetfp(isi, ii);
      FirstChild(c0, C_IF, c);
      TlShorter(ts);
      ok := Need(RP);
      if !ok { return; }
      ghost var ts2 := ts;
      ScopeWith(c0, Link(C_IF, One(c)), lvs, flvi, sc);
      ok, ti := Statement(sc);
      if !ok { return; }
      ghost var t := TreeS(PStmt(ts2, sc, fns).val);
      Csetnext(ii, ti);
      NextChild(c0, C_IF, One(c), t);
      CatOne(c, t);
      if Hd(ts) == ELSE {
        ok := ElsePart(c0, c, t, ti, sc);
      }
    }

    method ElsePart(ghost c0: seq<Cell>, ghost c: Tree, ghost t: Tree, ti: nat, ghost sc: seq<string>)
      returns (ok: bool)
      requires Hd(ts) == ELSE && cells == With(c0, Link(C_IF, Cons(c, One(t))))
      requires ti == LastKid(C_IF, Cons(c, One(t)), |c0|) && Scope(c0, lvs, flvi, sc)
      modifies this
      ensures var r := PStmt(Tl(old(ts)), sc, fns);
        ok == r.Ok? && (ok ==>
          Built(c0, old(lvs), old(flvi), Link(C_IF, Cons(c, Cons(t, One(TreeS(r.val))))), r.rest, |c0|))
      decreases Len(ts), 29
    {
      hide PExpr, PStmts, PStmt, TreeE, TreesSs, OptTree, TreeS, With, Top, SetNext, Scope, LastKid, Cat, Size, Len,
        GetString, Hd, Tl, Sizes, Reads, ReadsRow;
      TlShorter(ts);
      Lgtok();
      ghost var ts3 := ts;
      ScopeWith(c0, Link(C_IF, Cons(c, One(t))), lvs, flvi, sc);
      var ei;
      ok, ei := Statement(sc);
      if !ok { return; }
      ghost var e := TreeS(PStmt(ts3, sc, fns).val);
      Csetnext(ti, ei);
      NextChild(c0, C_IF, Cons(c, One(t)), e);
      CatTwo(c, t, e);
      TopLink(c0, C_IF, Cons(c, Cons(t, One(e))));
    }

    /** pwhilest. */
    method WhileSt(ghost sc: seq<string>) returns (ok: bool, wi: nat)
      requires Scope(cells, lvs, flvi, sc) && Hd(ts) == WHILE
      modifies this
      ensures var r := PStmt(old(ts), sc, fns);
        ok == r.Ok? && (ok ==> Built(old(cells), old(lvs), old(flvi), InnerTree(r.val), r.rest, wi))
      decreases Len(ts), 29
    {
      hide PExpr, PStmts, PStmt, PWhile, TreeE, TreesSs, OptTree, TreeS, InnerTree, With, Top, SetFp, SetNext, Scope,
        LastKid, Cat, Size, Len, GetString, Hd, Tl, Fresh, Sizes, Reads, ReadsRow;
      WhileRule(ts, sc, fns);
      WhileParts(ts, sc, fns);
      ghost var c0 := cells;
      wi := Cnew(C_WHILE);
      WithLink(c0, C_WHILE);
      TlShorter(ts);
      Lgtok();
      TlShorter(ts);
      ok := Need(LP);
      if !ok { return; }
      ghost var ts1 := ts;
      ScopeWith(c0, Link(C_WHILE, Nil), lvs, flvi, sc);
      var ei, si;
      ok, ei := Expr(sc);
      if !ok { return; }
      ghost var c := TreeE(PExpr(ts1, sc, fns).val);
      Csetfp(wi, ei);
      FirstChild(c0, C_WHILE, c);
      TlShorter(ts);
      ok := Need(RP);
      if !ok { return; }
      ghost var ts2 := ts;
      ScopeWith(c0, Link(C_WHILE, One(c)), lvs, flvi, sc);
      ok, si := Statement(sc);
      if !ok { return; }
      ghost var t := TreeS(PStmt(ts2, sc, fns).val);
      Csetnext(ei, si);
      NextChild(c0, C_WHILE, One(c), t);
      CatOne(c, t);
    }

    /** An expression of a for header, or C_NOP. */
    method Opt(ghost sc: seq<string>) returns (ok: bool, i: nat)
      requires Scope(cells, lvs, flvi, sc)
      modifies this
      ensures var r := POpt(old(ts), sc, fns);
        ok == r.Ok? && (ok ==> Built(old(cells), old(lvs), old(flvi), OptTree(r.val), r.rest, i))
      decreases Len(ts), 21
    {
      hide PExpr, PStmts, TreeE, TreesSs, TreeS, With, Top, Scope, LastKid, Cat, Size, Len, GetString, Hd, Fresh,
        Sizes, Reads, ReadsRow;
      if Hd(ts) == SEMI {
        ghost var c0 := cells;
        i := Cnew(C_NOP);
        WithLink(c0, C_NOP);
        ok := true;
      } else {
        ok, i := Expr(sc);
      }
    }

    /** pforst. */
    method ForSt(ghost sc: seq<string>) returns (ok: bool, fi: nat)
      requires Scope(cells, lvs, flvi, sc) && Hd(ts) == FOR
      modifies this
      ensures var r := PStmt(old(ts), sc, fns);
        ok == r.Ok? && (ok ==> Built(old(cells), old(lvs), old(flvi), InnerTree(r.val), r.rest, fi))
      decreases Len(ts), 29
    {
      hide PExpr, PStmts, PStmt, PFor, POpt, TreeE, TreesSs, OptTree, TreeS, InnerTree, With, Top, SetFp, SetType,
        Scope, LastKid, Cat, Size, Len, GetString, Hd, Tl, Fresh, Sizes, Reads, ReadsRow;
      ForRule(ts, sc, fns);
      HeadRule(ts, sc, fns);
      ghost var c0 := cells;
      fi := Cnew(C_FOR);
      WithLink(c0, C_FOR);
      TlShorter(ts);
      Lgtok();
      TlShorter(ts);
      ok := Need(LP);
      if !ok { return; }
      ghost var ts1 := ts;
      ScopeWith(c0, Link(C_FOR, Nil), lvs, flvi, sc);
      var i0;
      ok, i0 := Opt(sc);
      if !ok { return; }
      ghost var ri := POpt(ts1, sc, fns);
      Csetfp(fi, i0);
      FirstChild(c0, C_FOR, OptTree(ri.val));
      if Hd(ts) == IN {
        Csettype(fi, C_FORIN);
        Retyped(c0, C_FOR, C_FORIN, One(OptTree(ri.val)));
        SameLast(C_FOR, C_FORIN, One(OptTree(ri.val)), |c0|);
        OptGiven(ts1, sc, fns);
        ForInRule(old(ts), sc, fns);
        ok := ForInRest(c0, ri.val.e, i0, sc);
      } else {
        ok := Need(SEMI);
        if !ok { return; }
        ForSemiRule(old(ts), sc, fns);
        ok := ForRest(c0, ri.val, i0, sc);
      }
    }

    /** pforst after `in`. */
    method ForInRest(ghost c0: seq<Cell>, ghost v: LeftySyntax.Expr, i: nat, ghost sc: seq<string>) returns (ok: bool)
      requires Hd(ts) == IN && cells == With(c0, Link(C_FORIN, One(TreeE(v))))
      requires i == LastKid(C_FORIN, One(TreeE(v)), |c0|) && Scope(c0, lvs, flvi, sc)
      modifies this
      ensures var rt := PExpr(Tl(old(ts)), sc, fns);
        ok == (rt.Ok? && Hd(rt.rest) == RP && PStmt(Tl(rt.rest), sc, fns).Ok?) && (ok ==>
          var rb := PStmt(Tl(rt.rest), sc, fns);
          Built(c0, old(lvs), old(flvi),
            Link(C_FORIN, Cons(TreeE(v), Cons(TreeE(rt.val), One(TreeS(rb.val))))), rb.rest,
            |c0|))
      decreases Len(ts), 29
    {
      hide PExpr, PStmts, PStmt, TreeE, TreesSs, OptTree, TreeS, With, Top, SetNext, Scope, LastKid, Cat, Size, Len,
        GetString, Hd, Tl, Sizes, Reads, ReadsRow;
      TlShorter(ts);
      Lgtok();
      ghost var ts1 := ts;
      ScopeWith(c0, Link(C_FORIN, One(TreeE(v))), lvs, flvi, sc);
      var i1, si;
      ok, i1 := Expr(sc);
      if !ok { return; }
      ghost var t := TreeE(PExpr(ts1, sc, fns).val);
      Csetnext(i, i1);
      NextChild(c0, C_FORIN, One(TreeE(v)), t);
      CatOne(TreeE(v), t);
      TlShorter(ts);
      ok := Need(RP);
      if !ok { return; }
      ghost var ts2 := ts;
      ScopeWith(c0, Link(C_FORIN, Cons(TreeE(v), One(t))), lvs, flvi, sc);
      ok, si := Statement(sc);
      if !ok { return; }
      ghost var b := TreeS(PStmt(ts2, sc, fns).val);
      Csetnext(i1, si);
      NextChild(c0, C_FORIN, Cons(TreeE(v), One(t)), b);
      CatTwo(TreeE(v), t, b);
      TopLink(c0, C_FORIN, Cons(TreeE(v), Cons(t, One(b))));
    }

    /** pforst after the first semicolon. */
    method ForRest(ghost c0: seq<Cell>, ghost o: OptExpr, i: nat, ghost sc: seq<string>) returns (ok: bool)
      requires cells == With(c0, Link(C_FOR, One(OptTree(o))))
      requires i == LastKid(C_FOR, One(OptTree(o)), |c0|) && Scope(c0, lvs, flvi, sc)
      modifies this
      ensures var rc := POpt(old(ts), sc, fns);
        ok == (rc.Ok? && Hd(rc.rest) == SEMI && POpt(Tl(rc.rest), sc, fns).Ok?
          && Hd(POpt(Tl(rc.rest), sc, fns).rest) == RP && PStmt(Tl(POpt(Tl(rc.rest), sc, fns).rest), sc, fns).Ok?)
        && (ok ==>
          var rs := POpt(Tl(rc.rest), sc, fns);
          var rb := PStmt(Tl(rs.rest), sc, fns);
          Built(c0, old(lvs), old(flvi), Link(C_FOR,
            Cons(OptTree(o), Cons(OptTree(rc.val), Cons(OptTree(rs.val), One(TreeS(rb.val)))))), rb.rest, |c0|))
      decreases Len(ts), 29
    {
      hide PExpr, PStmts, PStmt, POpt, TreeE, TreesSs, OptTree, TreeS, With, Top, SetNext, Scope, LastKid, Cat, Size,
        Len, GetString, Hd, Tl, Sizes, Reads, ReadsRow;
      ghost var ts1 := ts;
      ScopeWith(c0, Link(C_FOR, One(OptTree(o))), lvs, flvi, sc);
      var i1, i2, si;
      ok, i1 := Opt(sc);
      if !ok { return; }
      ghost var c := OptTree(POpt(ts1, sc, fns).val);
      Csetnext(i, i1);
      NextChild(c0, C_FOR, One(OptTree(o)), c);
      CatOne(OptTree(o), c);
      TlShorter(ts);
      ok := Need(SEMI);
      if !ok { return; }
      ghost var ts2 := ts;
      ghost var two := Cons(OptTree(o), One(c));
      ScopeWith(c0, Link(C_FOR, two), lvs, flvi, sc);
      ok, i2 := Opt(sc);
      if !ok { return; }
      ghost var s := OptTree(POpt(ts2, sc, fns).val);
      Csetnext(i1, i2);
      NextChild(c0, C_FOR, two, s);
      CatTwo(OptTree(o), c, s);
      TlShorter(ts);
      ok := Need(RP);
      if !ok { return; }
      ghost var ts3 := ts;
      ghost var three := Cons(OptTree(o), Cons(c, One(s)));
      ScopeWith(c0, Link(C_FOR, three), lvs, flvi, sc);
      ok, si := Statement(sc);
      if !ok { return; }
      ghost var b := TreeS(PStmt(ts3, sc, fns).val);
      Csetnext(i2, si);
      NextChild(c0, C_FOR, three, b);
      CatThree(OptTree(o), c, s, b);
      TopLink(c0, C_FOR, Cons(OptTree(o), Cons(c, Cons(s, One(b)))));
    }

    // ---- functions ----

    /** pfunc, after the keyword. */
    method Function(ghost sc: seq<string>) returns (ok: bool, fi: nat)
      requires Scope(cells, lvs, flvi, sc)
      modifies this
      ensures var r := PFunc(old(ts), fns);
        ok == r.Ok? && (ok ==> Built(old(cells), old(lvs), old(flvi), TreeE(r.val), r.rest, fi))
      decreases Len(ts), 30
    {
      hide PExpr, PDecl, PFunc, PStmts, TreeE, TreesSs, OptTree, TreeS, DeclTree, With, Top, Scope, LastKid, Cat,
        Size, Len, GetString, Hd, Tl, Sizes, Reads, ReadsRow;
      FuncHeadRule(ts, fns);
      ghost var c0 := cells;
      var owncbufi, ownflvi, ownllvi := |cells|, flvi, |lvs|;
      flvi := |lvs|;
      var li1, li2, di, flvn;
      ok, fi, li1, li2, di, flvn := Header();
      if !ok { return; }
      ok := AfterParams(c0, old(ts), owncbufi, li1, li2, di, flvn);
      if !ok { return; }
      flvi, lvs := ownflvi, lvs[..ownllvi];
    }

    /** pfunc from the parenthesis after the parameters on. */
    method AfterParams(ghost c0: seq<Cell>, ghost ts0: Toks, owncbufi: nat, li1: nat, li2: nat, di: nat, n: nat)
      returns (ok: bool)
      requires Hd(ts0) == LP && PDecl(Tl(ts0), []).Ok? && ts == PDecl(Tl(ts0), []).rest
      requires var params := PDecl(Tl(ts0), []).val;
        && cells == With(c0, Link(C_FUNCTION, Start(params))) && di == LastKid(C_FUNCTION, Start(params), |c0|)
        && Scope(cells, lvs, flvi, params) && n == |params|
      requires owncbufi == |c0| && li1 == |c0| + 1 && li2 == |c0| + 2
      modifies this
      ensures var r := PFunc(ts0, fns);
        ok == r.Ok? && (ok ==> ts == r.rest && cells == With(c0, TreeE(r.val)) && Top(c0, TreeE(r.val)) == |c0|)
      ensures ok ==> Keeps(old(lvs), lvs)
      decreases Len(ts), 45
    {
      hide *;
      ghost var params := PDecl(Tl(ts0), []).val;
      KeepsAll(lvs);
      FuncHeadRule(ts0, fns);
      TlShorter(ts);
      ok := Need(RP);
      if !ok { return; }
      TlShorter(ts);
      ghost var body;
      var flvn := n;
      if Hd(ts) == INTERNAL {
        FuncInternalRule(ts0, fns);
        ok, body := InternalBody(c0, params, di);
        if !ok { return; }
      } else {
        FuncCodeRule(ts0, fns);
        ok := Need(LCB);
        if !ok { return; }
        ghost var ts1 := ts;
        ok, flvn, body := CodeBody(c0, params, di, flvn);
        if !ok { return; }
        ghost var rd := PLocals(ts1, params);
        CodeTree(params, rd.val, PStmts(rd.rest, params + DeclNames(rd.val), fns).val);
      }
      Finish(c0, params, body, owncbufi, li1, li2, flvn);
    }

    /** The end of pfunc: the number of cells since the function cell, and the number of locals. */
    method Finish(ghost c0: seq<Cell>, ghost params: seq<string>, ghost body: Trees, owncbufi: nat,
                  li1: nat, li2: nat, flvn: nat)
      requires cells == With(c0, Link(C_FUNCTION, Cat(Start(params), body)))
      requires owncbufi == |c0| && li1 == |c0| + 1 && li2 == |c0| + 2
      modifies this`cells
      ensures cells == With(c0, FuncTree(params, flvn, body)) && Top(c0, FuncTree(params, flvn, body)) == |c0|
    {
      hide *;
      FuncCells(c0, params, body);
      Csetinteger(li1, |cells| - owncbufi);
      Csetinteger(li2, flvn);
      Numbered(c0, 0, 0, Cons(DeclTree(params), body), FuncSize(params, body), flvn);
      FuncTop(c0, params, flvn, body);
    }

    /** pfunc up to the parameters: the function cell, two numbers that are filled in at the end, and
        the declaration. */
    method Header() returns (ok: bool, fi: nat, li1: nat, li2: nat, di: nat, flvn: nat)
      requires flvi == |lvs|
      modifies this
      ensures var r := PDecl(Tl(old(ts)), []);
        ok == (Hd(old(ts)) == LP && r.Ok?) && (ok ==>
          && ts == r.rest && cells == With(old(cells), Link(C_FUNCTION, Start(r.val)))
          && fi == |old(cells)| && li1 == fi + 1 && li2 == fi + 2 && flvn == |r.val|
          && di == LastKid(C_FUNCTION, Start(r.val), fi)
          && Scope(cells, lvs, flvi, r.val) && flvi == old(flvi) && Keeps(old(lvs), lvs))
    {
      hide PDecl, DeclTree, With, Top, SetFp, SetNext, Scope, LastKid, Cat, Len, Hd, Tl, Fresh, Reads;
      ghost var c0 := cells;
      fi, li1, li2, di, flvn := |cells|, 0, 0, 0, 0;
      fi := Cnew(C_FUNCTION);
      WithLink(c0, C_FUNCTION);
      ok := Need(LP);
      if !ok { return; }
      ghost var ts1 := ts;
      li1 := Cinteger(0);
      Csetfp(fi, li1);
      FirstChild(c0, C_FUNCTION, Number(0));
      li2 := Cinteger(0);
      Csetnext(li1, li2);
      NextChild(c0, C_FUNCTION, One(Number(0)), Number(0));
      CatOne(Number(0), Number(0));
      NumberPlaces(c0);
      ghost var two := Cons(Number(0), One(Number(0)));
      NoScope(cells, lvs);
      ok, di, flvn := Decl(0, []);
      if !ok { return; }
      ghost var xs := PDecl(ts1, []).val;
      assert [] + xs == xs;
      ScopeLinked(cells, li2, di, lvs, flvi, xs);
      Csetnext(li2, di);
      NextChild(c0, C_FUNCTION, two, DeclTree(xs));
      StartIs(xs);
    }

    /** pfunc for an internal function. */
    method InternalBody(ghost c0: seq<Cell>, ghost params: seq<string>, di: nat) returns (ok: bool, ghost body: Trees)
      requires Hd(ts) == INTERNAL && cells == With(c0, Link(C_FUNCTION, Start(params)))
      requires di == LastKid(C_FUNCTION, Start(params), |c0|)
      modifies this
      ensures lvs == old(lvs) && flvi == old(flvi)
      ensures var t := Hd(Tl(old(ts)));
        && ok == (t.STRING? && Find(fns, t.s).Some?)
        && (ok ==> ts == Tl(Tl(old(ts))) && body == One(Link(C_INTERNAL, One(Number(Find(fns, t.s).value)))))
      ensures ok ==> cells == With(c0, Link(C_FUNCTION, Cat(Start(params), body)))
    {
      hide DeclTree, With, Top, SetFp, SetNext, Scope, LastKid, Cat, Len, GetString, Hd, Tl, Fresh;
      body := Nil;
      Lgtok();
      ok := Hd(ts).STRING?;
      if !ok { return; }
      var ifnum := Find(fns, Hd(ts).s);
      ok := ifnum.Some?;
      if !ok { return; }
      ghost var c1 := cells;
      var ifi := Cnew(C_INTERNAL);
      WithLink(c1, C_INTERNAL);
      var ifn := Cinteger(ifnum.value);
      Csetfp(ifi, ifn);
      FirstChild(c1, C_INTERNAL, Number(ifnum.value));
      Csetnext(di, ifi);
      ghost var t := Link(C_INTERNAL, One(Number(ifnum.value)));
      NextChild(c0, C_FUNCTION, Start(params), t);
      body := One(t);
      Lgtok();
    }

    /** pfunc for a body: local declarations, then statements up to the brace. */
    method CodeBody(ghost c0: seq<Cell>, ghost params: seq<string>, di: nat, n: nat)
      returns (ok: bool, flvn: nat, ghost body: Trees)
      requires cells == With(c0, Link(C_FUNCTION, Start(params))) && di == LastKid(C_FUNCTION, Start(params), |c0|)
      requires Scope(cells, lvs, flvi, params) && n == |params|
      modifies this
      ensures var rd := PLocals(old(ts), params);
        ok == (rd.Ok? && PStmts(rd.rest, params + DeclNames(rd.val), fns).Ok?) && (ok ==>
          var rs := PStmts(rd.rest, params + DeclNames(rd.val), fns);
          && ts == rs.rest && body == Cat(TreesDs(rd.val), TreesSs(rs.val)) && flvn == |params| + |DeclNames(rd.val)|
          && cells == With(c0, Link(C_FUNCTION, Cat(Start(params), body))))
      ensures ok ==> flvi == old(flvi) && Keeps(old(lvs), lvs)
      decreases Len(ts), 40
    {
      hide PLocals, PStmts, TreesDs, TreesSs, DeclTree, With, Scope, LastKid, Cat, Len;
      body := Nil;
      var i;
      ok, i, flvn := Locals(c0, params, di, n);
      if !ok { return; }
      ghost var rd := PLocals(old(ts), params);
      ghost var kids := Cat(Start(params), TreesDs(rd.val));
      ghost var names := params + DeclNames(rd.val);
      LocalsShorter(old(ts), params);
      ghost var ts1 := ts;
      ok := Stmts(C_FUNCTION, c0, kids, false, i, i, names);
      if !ok { return; }
      ghost var ss := PStmts(ts1, names, fns).val;
      body := Cat(TreesDs(rd.val), TreesSs(ss));
      CatAssoc(Start(params), TreesDs(rd.val), TreesSs(ss));
    }

    /** The loop of pfunc over local declarations. */
    method Locals(ghost c0: seq<Cell>, ghost params: seq<string>, di: nat, n: nat) returns (ok: bool, i: nat, flvn: nat)
      requires cells == With(c0, Link(C_FUNCTION, Start(params))) && di == LastKid(C_FUNCTION, Start(params), |c0|)
      requires Scope(cells, lvs, flvi, params) && n == |params|
      modifies this
      ensures var rd := PLocals(old(ts), params);
        ok == rd.Ok? && (ok ==>
          var kids := Cat(Start(params), TreesDs(rd.val));
          && ts == rd.rest && flvn == |params| + |DeclNames(rd.val)| && kids.Cons?
          && cells == With(c0, Link(C_FUNCTION, kids)) && i == LastKid(C_FUNCTION, kids, |c0|)
          && Scope(cells, lvs, flvi, params + DeclNames(rd.val)) && flvi == old(flvi) && Keeps(old(lvs), lvs))
    {
      hide PDecl, PLocals, TreesDs, DeclTree, With, Top, SetNext, Scope, LastKid, Cat, Len, Left, Ahead, Hd, Tl,
        Reads;
      i, flvn := di, n;
      ghost var kids := Start(params);
      ghost var sc := params;
      ghost var done: Trees := Nil;
      ghost var rd := PLocals(ts, params);
      ghost var goal := GoalDs(rd);
      LeftNone(goal);
      CatNil(Start(params));
      KeepsAll(lvs);
      while Hd(ts) == LOCAL
        invariant kids == Cat(Start(params), done) && kids.Cons?
        invariant cells == With(c0, Link(C_FUNCTION, kids)) && i == LastKid(C_FUNCTION, kids, |c0|)
        invariant Scope(cells, lvs, flvi, sc) && flvn == |sc| && flvi == old(flvi) && Keeps(old(lvs), lvs)
        invariant Left(goal, done, GoalDs(PLocals(ts, sc)))
        invariant rd.Ok? ==> PLocals(ts, sc).Ok? && params + DeclNames(rd.val) == sc + DeclNames(PLocals(ts, sc).val)
        decreases Len(ts)
      {
        ghost var was, sc1 := ts, sc;
        LeftMeans(goal, done, GoalDs(PLocals(ts, sc)));
        LocalsRule(ts, sc);
        TlShorter(ts);
        Lgtok();
        ghost var ts1, l1 := ts, lvs;
        var ldi;
        ok, ldi, flvn := Decl(flvn, sc);
        if !ok { return; }
        ghost var xs := PDecl(ts1, sc).val;
        ScopeLinked(cells, i, ldi, lvs, flvi, sc + xs);
        Csetnext(i, ldi);
        NextChild(c0, C_FUNCTION, kids, DeclTree(xs));
        i := ldi;
        TlShorter(ts);
        ok := Need(SEMI);
        if !ok { return; }
        sc := sc + xs;
        LeftMore(goal, done, GoalDs(PLocals(was, sc1)), DeclTree(xs), GoalDs(PLocals(ts, sc)));
        CatAssoc(Start(params), done, One(DeclTree(xs)));
        done := Cat(done, One(DeclTree(xs)));
        kids := Cat(kids, One(DeclTree(xs)));
        KeepsMore(old(lvs), l1, lvs);
        NamesMore(sc1, xs, if rd.Ok? then DeclNames(PLocals(ts, sc).val) else []);
      }
      ok := true;
      LocalsEnd(ts, sc);
      LeftEnd(goal, done, GoalDs(PLocals(ts, sc)));
      assert sc + [] == sc;
    }

    /** pdecl: a name per string cell, in the array and on the stack of locals. */
    method Decl(n: nat, ghost sc: seq<string>) returns (ok: bool, di: nat, flvn: nat)
      requires Scope(cells, lvs, flvi, sc) && n == |sc|
      modifies this
      ensures var r := PDecl(old(ts), sc);
        ok == r.Ok? && (ok ==>
          && ts == r.rest && cells == With(old(cells), DeclTree(r.val)) && di == Top(old(cells), DeclTree(r.val))
          && flvn == |sc + r.val| && Scope(cells, lvs, flvi, sc + r.val) && flvi == old(flvi) && Keeps(old(lvs), lvs))
    {
      hide PMoreDecl, DeclTree, Names, With, Top, SetFp, Scope, LastKid, Len, Hd, Tl, Fresh, Reads;
      ghost var c0, l0 := cells, lvs;
      KeepsAll(lvs);
      flvn := n;
      di := Cnew(C_DECL);
      WithLink(c0, C_DECL);
      ok := true;
      if !Hd(ts).ID? {
        Csetfp(di, NULL);
        NoChild(c0, C_DECL);
        NoNames();
        DeclIs(c0, []);
        ScopeWith(c0, Link(C_DECL, Nil), lvs, flvi, sc);
        assert sc + [] == sc;
        return;
      }
      ghost var x := Hd(ts).id;
      ScopeWith(c0, Link(C_DECL, Nil), lvs, flvi, sc);
      var si;
      ok, si := Name(flvn, sc);
      flvn := flvn + 1;
      if !ok { return; }
      ScopeFp(c0, C_DECL, Text(x), si, lvs, flvi, sc + [x]);
      Csetfp(di, si);
      FirstChild(c0, C_DECL, Text(x));
      OneName(x);
      DeclIs(c0, [x]);
      TlShorter(ts);
      Lgtok();
      if Hd(ts) != COMMA { return; }
      TlShorter(ts);
      Lgtok();
      ghost var ts1, l1 := ts, lvs;
      ok, flvn := MoreDecl(c0, x, si, flvn, sc);
      if !ok { return; }
      KeepsMore(l0, l1, lvs);
      ghost var ys := PMoreDecl(ts1, sc + [x]).val;
      DeclIs(c0, [x] + ys);
      assert sc + ([x] + ys) == sc + [x] + ys;
    }

    /** The loop of pdecl. */
    method MoreDecl(ghost c0: seq<Cell>, ghost x: string, si0: nat, n: nat, ghost sc: seq<string>)
      returns (ok: bool, flvn: nat)
      requires cells == With(c0, Link(C_DECL, Names([x]))) && si0 == LastKid(C_DECL, One(Text(x)), |c0|)
      requires Scope(cells, lvs, flvi, sc + [x]) && n == |sc| + 1
      modifies this
      ensures var r := PMoreDecl(old(ts), sc + [x]);
        ok == r.Ok? && (ok ==>
          && ts == r.rest && cells == With(c0, Link(C_DECL, Names([x] + r.val))) && flvn == |sc| + 1 + |r.val|
          && Scope(cells, lvs, flvi, sc + [x] + r.val) && flvi == old(flvi) && Keeps(old(lvs), lvs))
    {
      hide PExpr, PMoreDecl, PStmts, TreeE, TreesSs, OptTree, TreeS, DeclTree, Names, With, Top, Scope, LastKid, Cat,
        Size, Len, GetString, Hd, Tl, Sizes, Reads, ReadsRow;
      flvn := n;
      KeepsAll(lvs);
      OneName(x);
      var i := si0;
      ghost var ys: seq<string> := [];
      ghost var ts0, l0 := ts, lvs;
      RestStart(PMoreDecl(ts, sc + [x]));
      assert [x] + ys == [x] && sc + [x] + ys == sc + [x];
      while Hd(ts).ID?
        invariant cells == With(c0, Link(C_DECL, Names([x] + ys))) && Names([x] + ys).Cons?
        invariant i == LastKid(C_DECL, Names([x] + ys), |c0|) && flvn == |sc + [x] + ys|
        invariant Scope(cells, lvs, flvi, sc + [x] + ys) && flvi == old(flvi) && Keeps(l0, lvs)
        invariant Rest(PMoreDecl(ts0, sc + [x]), ys, PMoreDecl(ts, sc + [x] + ys))
        decreases Len(ts)
      {
        MoreDeclRule(ts, sc + [x] + ys);
        RestMeans(PMoreDecl(ts0, sc + [x]), ys, PMoreDecl(ts, sc + [x] + ys));
        ghost var y, was, l1 := Hd(ts).id, ts, lvs;
        ok, i, flvn := OneMore(c0, [x] + ys, i, flvn, sc + [x] + ys);
        if !ok { return; }
        KeepsMore(l0, l1, lvs);
        RestMore(PMoreDecl(ts0, sc + [x]), ys, PMoreDecl(was, sc + [x] + ys), y, PMoreDecl(ts, sc + [x] + ys + [y]));
        assert [x] + (ys + [y]) == [x] + ys + [y] && sc + [x] + (ys + [y]) == sc + [x] + ys + [y];
        ys := ys + [y];
      }
      ok := true;
      MoreDeclEnd(ts, sc + [x] + ys);
      RestEnd(PMoreDecl(ts0, sc + [x]), ys, PMoreDecl(ts, sc + [x] + ys));
    }

    /** One round of that loop; a comma has to be followed by a name. */
    method OneMore(ghost c0: seq<Cell>, ghost xs: seq<string>, i: nat, n: nat, ghost sc: seq<string>)
      returns (ok: bool, si: nat, flvn: nat)
      requires Hd(ts).ID? && cells == With(c0, Link(C_DECL, Names(xs))) && Names(xs).Cons?
      requires i == LastKid(C_DECL, Names(xs), |c0|) && Scope(cells, lvs, flvi, sc) && n == |sc|
      modifies this
      ensures var y := Hd(old(ts)).id;
        var ts1 := if Hd(Tl(old(ts))) == COMMA then Tl(Tl(old(ts))) else Tl(old(ts));
        ok == (y !in sc && (Hd(Tl(old(ts))) == COMMA ==> Hd(ts1).ID?)) && (ok ==>
          && ts == ts1 && cells == With(c0, Link(C_DECL, Names(xs + [y]))) && Names(xs + [y]).Cons?
          && si == LastKid(C_DECL, Names(xs + [y]), |c0|) && flvn == n + 1
          && Scope(cells, lvs, flvi, sc + [y]) && flvi == old(flvi) && Keeps(old(lvs), lvs) && Len(ts) < Len(old(ts)))
    {
      hide *;
      flvn := n;
      ghost var y := Hd(ts).id;
      ok, si := Name(flvn, sc);
      flvn := flvn + 1;
      if !ok { return; }
      TlShorter(ts);
      Lgtok();
      ScopeLinked(cells, i, si, lvs, flvi, sc + [y]);
      Csetnext(i, si);
      NextChild(c0, C_DECL, Names(xs), Text(y));
      MoreNames(xs, y);
      TlShorter(ts);
      if Hd(ts) == COMMA {
        Lgtok();
        ok := Hd(ts).ID?;
      }
    }

    /** A name for pdecl: its string, and addlv. */
    method Name(vi: nat, ghost sc: seq<string>) returns (ok: bool, si: nat)
      requires Hd(ts).ID? && Scope(cells, lvs, flvi, sc) && vi == |sc|
      modifies this
      ensures var x := Hd(old(ts)).id;
        && cells == With(old(cells), Text(x)) && si == Top(old(cells), Text(x))
        && ok == (x !in sc) && (ok ==> Scope(cells, lvs, flvi, sc + [x]))
      ensures ts == old(ts) && flvi == old(flvi) && Keeps(old(lvs), lvs)
    {
      hide *;
      ghost var c0 := cells;
      ghost var x := Hd(ts).id;
      si := Cstring(Hd(ts).id);
      ScopeWith(c0, Text(x), lvs, flvi, sc);
      StringNew(c0, x);
      ok := Addlv(si, vi, x, sc);
    }

    /** addlv: the names of the function so far must not hold the new one. */
    method Addlv(si: nat, vi: nat, ghost x: string, ghost sc: seq<string>) returns (ok: bool)
      requires Scope(cells, lvs, flvi, sc) && vi == |sc| && si < |cells| && StringAt(cells, si, x)
      modifies this`lvs
      ensures Keeps(old(lvs), lvs)
      ensures ok == (x !in sc)
      ensures ok ==> Scope(cells, lvs, flvi, sc + [x])
    {
      hide With, Top, Scope, GetString, StringAt, Hd;
      ghost var l0 := lvs;
      lvs := lvs + [Lv(si, vi)];
      KeepsOne(l0, Lv(si, vi));
      ScopeMore(cells, l0, flvi, sc, Lv(si, vi), x);
      ScopeMeans(cells, l0, flvi, sc);
      StringIsRead(cells, si, x);
      var i := |lvs| - 2;
      while i >= flvi
        invariant flvi - 1 <= i <= |lvs| - 2 && lvs == l0 + [Lv(si, vi)]
        invariant forall k :: i - flvi < k < |sc| ==> sc[k] != x
      {
        NameOf(cells, l0, flvi, sc, i - flvi);
        if GetString(cells, lvs[i].si) == GetString(cells, lvs[|lvs| - 1].si) {
          assert sc[i - flvi] == x;
          return false;
        }
        i := i - 1;
      }
      ok := true;
    }

    /** A comma and a further argument. */
    method ArgStep(ghost c0: seq<Cell>, ghost kids: Trees, ei0: nat, ghost sc: seq<string>)
      returns (ok: bool, ei1: nat, ghost t: Tree)
      requires Hd(ts) != RP && kids.Cons? && cells == With(c0, Link(C_ARGS, kids))
      requires ei0 == LastKid(C_ARGS, kids, |c0|) && Scope(c0, lvs, flvi, sc)
      modifies this
      ensures !ok ==> PMoreArgs(old(ts), sc, fns).Fail?
      ensures ok ==> Len(ts) < Len(old(ts)) && lvs == old(lvs) && flvi == old(flvi)
      ensures ok ==> cells == With(c0, Link(C_ARGS, Cat(kids, One(t))))
      ensures ok ==> ei1 == LastKid(C_ARGS, Cat(kids, One(t)), |c0|)
      ensures ok ==> Ahead(GoalEs(PMoreArgs(old(ts), sc, fns)), t, GoalEs(PMoreArgs(ts, sc, fns)))
      decreases Len(ts), 21
    {
      hide PExpr, PMoreArgs, PStmts, TreeE, TreesEs, TreesSs, OptTree, TreeS, With, Top, SetNext, Scope, LastKid, Cat,
        Size, Len, Ahead, GetString, Hd, Tl, Sizes, Reads, ReadsRow;
      t, ei1 := Number(0), 0;
      MoreArgsRule(ts, sc, fns);
      TlShorter(ts);
      ok := Need(COMMA);
      if !ok { return; }
      ok := Hd(ts) != RP;
      if !ok { return; }
      ghost var ts1 := ts;
      ScopeWith(c0, Link(C_ARGS, kids), lvs, flvi, sc);
      ok, ei1 := Expr(sc);
      if !ok { return; }
      Csetnext(ei0, ei1);
      t := TreeE(PExpr(ts1, sc, fns).val);
      NextChild(c0, C_ARGS, kids, t);
    }

    /** pargs. */
    method Args(ghost sc: seq<string>) returns (ok: bool, ai: nat)
      requires Scope(cells, lvs, flvi, sc)
      modifies this
      ensures var r := PArgs(old(ts), sc, fns);
        ok == r.Ok?
        && (ok ==> Built(old(cells), old(lvs), old(flvi), Link(C_ARGS, TreesEs(r.val)), r.rest, ai))
      decreases Len(ts), 22
    {
      hide PExpr, PArgs, PMoreArgs, PStmts, TreeE, TreesEs, TreesSs, OptTree, TreeS, With, Top, SetFp, Scope, LastKid,
        Cat, Size, Len, Left, Ahead, GetString, Hd, Fresh, Sizes, Reads, ReadsRow;
      ArgsRule(ts, sc, fns);
      ghost var c0 := cells;
      ai := Cnew(C_ARGS);
      WithLink(c0, C_ARGS);
      ScopeWith(c0, Link(C_ARGS, Nil), lvs, flvi, sc);
      if Hd(ts) == RP {
        Csetfp(ai, NULL);
        NoChild(c0, C_ARGS);
        return true, ai;
      }
      ghost var goal := GoalEs(PArgs(ts, sc, fns));
      var ei0;
      ok, ei0 := Expr(sc);
      if !ok { return; }
      Csetfp(ai, ei0);
      ghost var kids := One(TreeE(PExpr(old(ts), sc, fns).val));
      FirstChild(c0, C_ARGS, kids.head);
      LeftOne(goal, kids.head, GoalEs(PMoreArgs(ts, sc, fns)));
      while Hd(ts) != RP
        invariant kids.Cons? && cells == With(c0, Link(C_ARGS, kids)) && lvs == old(lvs) && flvi == old(flvi)
        invariant ei0 == LastKid(C_ARGS, kids, |c0|) && Len(ts) < Len(old(ts))
        invariant Left(goal, kids, GoalEs(PMoreArgs(ts, sc, fns)))
        decreases Len(ts)
      {
        ghost var was := ts;
        LeftMeans(goal, kids, GoalEs(PMoreArgs(ts, sc, fns)));
        ghost var t;
        ok, ei0, t := ArgStep(c0, kids, ei0, sc);
        if !ok { return; }
        LeftMore(goal, kids, GoalEs(PMoreArgs(was, sc, fns)), t, GoalEs(PMoreArgs(ts, sc, fns)));
        kids := Cat(kids, One(t));
      }
      ok := true;
      MoreArgsEnd(ts, sc, fns);
      LeftEnd(goal, kids, GoalEs(PMoreArgs(ts, sc, fns)));
      TopLink(c0, C_ARGS, kids);
    }
    // ---- units ----

    /** Punit: the code object of the next expression, or nothing at the end or after an error.  What
        its readers see at index 0 is the tree that the grammar gives. */
    method Unit() returns (code: Option<seq<Cell>>)
      modifies this
      ensures var r := PUnit(old(ts), fns);
        code.Some? == r.Ok? && (r.Ok? ==>
          var t := Link(C_CODE, One(TreeE(r.val)));
          ts == r.rest && code.value == Emit(t, 0, NULL) && Reads(code.value, 0, t))
    {
      hide PExpr, PStmts, TreeE, TreesSs, OptTree, TreeS, Emit, With, Top, SetFp, Scope, LastKid, Cat, Size, Len,
        GetString, Hd, Tl, Fresh, Sizes, Laid, Reads, ReadsRow, MovedAll;
      cells, lvs, flvi := [], [], 0;
      while Hd(ts) == SEMI
        invariant PUnit(old(ts), fns) == PUnit(ts, fns) && cells == [] && lvs == [] && flvi == 0
        decreases Len(ts)
      {
        TlShorter(ts);
        Lgtok();
      }
      if Hd(ts) == EOF { return None; }
      ghost var ts1 := ts;
      var ui := Cnew(C_CODE);
      WithLink([], C_CODE);
      NoScope(cells, lvs);
      var ok, ei := Expr([]);
      if !ok { return None; }
      Csetfp(ui, ei);
      ghost var e := PExpr(ts1, [], fns).val;
      FirstChild([], C_CODE, TreeE(e));
      UnitCells(e);
      var cs := Tcode(cells, 0, |cells|);
      UnitMoved(e);
      code := Some(cs);
    }
  }
}
