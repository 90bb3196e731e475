/** Steps by which a tree grows at the end of the cell array, the cells before it unchanged. */
module CodeBuild {
  import opened CodeCells
  import opened CodeTrees

  function Fresh(ct: CType): Cell {
    Node(ct, NULL, Fp(NULL))
  }

  function SetNum(cs: seq<Cell>, i: int, n: int): seq<Cell> {
    if 0 <= i < |cs| && cs[i].Node? then cs[i := cs[i].(u := Num(n))] else cs
  }

  function SetType(cs: seq<Cell>, i: int, ct: CType): seq<Cell> {
    if 0 <= i < |cs| && cs[i].Node? then cs[i := cs[i].(ct := ct)] else cs
  }

  /** c0, and behind it the cells of t. */
  function With(c0: seq<Cell>, t: Tree): seq<Cell> {
    c0 + Emit(t, |c0|, NULL)
  }

  /** The place of the top of t behind c0. */
  function Top(c0: seq<Cell>, t: Tree): nat {
    Root(t, |c0|)
  }

  lemma WithLink(c0: seq<Cell>, ct: CType)
    ensures c0 + [Fresh(ct)] == With(c0, Link(ct, Nil))
    ensures Top(c0, Link(ct, Nil)) == |c0|
  {
    assert Emits(Nil, |c0| + 1) == [];
  }

  lemma WithSize(c0: seq<Cell>, t: Tree)
    ensures |With(c0, t)| == |c0| + Size(t)
  {
  }

  /** An operator is allocated behind its first operand, and linked to it. */
  lemma Operator(c0: seq<Cell>, ct: CType, t: Tree)
    requires After(ct)
    ensures SetFp(With(c0, t) + [Fresh(ct)], |With(c0, t)|, Top(c0, t)) == With(c0, Link(ct, One(t)))
    ensures Top(c0, Link(ct, One(t))) == |With(c0, t)|
    ensures LastKid(ct, One(t), |c0|) == Top(c0, t)
  {
    hide Emit;
    FirstKid(ct, t, |c0|);
    var cs := With(c0, t);
    assert (cs + [Fresh(ct)])[|cs|] == Fresh(ct);
    assert SetFp(cs + [Fresh(ct)], |cs|, Top(c0, t)) == c0 + (Emit(t, |c0|, NULL) + [Node(ct, NULL, Fp(Top(c0, t)))]);
  }

  /** The first child of an empty cell. */
  lemma FirstChild(c0: seq<Cell>, ct: CType, t: Tree)
    requires !After(ct)
    ensures var c1 := With(c0, Link(ct, Nil));
      && SetFp(With(c1, t), |c0|, Top(c1, t)) == With(c0, Link(ct, One(t)))
      && LastKid(ct, One(t), |c0|) == Top(c1, t)
    ensures Top(c0, Link(ct, One(t))) == |c0|
  {
    hide Emit;
    WithLink(c0, ct);
    KidBehind(ct, t, |c0|);
    var c1 := With(c0, Link(ct, Nil));
    assert With(c1, t)[|c0|] == c1[|c0|] == Fresh(ct);
    assert SetFp(With(c1, t), |c0|, Top(c1, t)) == c0 + ([Node(ct, NULL, Fp(Top(c1, t)))] + Emit(t, |c0| + 1, NULL));
  }

  /** A further child. */
  lemma NextChild(c0: seq<Cell>, ct: CType, ts: Trees, t: Tree)
    requires ts.Cons?
    ensures var c1 := With(c0, Link(ct, ts));
      && SetNext(With(c1, t), LastKid(ct, ts, |c0|), Top(c1, t)) == With(c0, Link(ct, Cat(ts, One(t))))
      && LastKid(ct, Cat(ts, One(t)), |c0|) == Top(c1, t)
    ensures Top(c0, Link(ct, Cat(ts, One(t)))) == Top(c0, Link(ct, ts))
  {
    hide Emit, SetNext, LastKid, Cat, Size;
    KidLinked(ct, ts, t, |c0|);
    var c1 := With(c0, Link(ct, ts));
    var i := LastKid(ct, ts, |c0|);
    LastInside(ct, ts, |c0|);
    SetNextEnd(c0, Emit(Link(ct, ts), |c0|, NULL), i, Top(c1, t));
    SetNextStart(c1, Emit(t, |c1|, NULL), i, Top(c1, t));
    LastGrows(ct, ts, t, |c0|);
    SameRoot(ct, ts, t, |c0|);
  }

  lemma SameRoot(ct: CType, ts: Trees, t: Tree, lo: nat)
    requires ts.Cons?
    ensures Root(Link(ct, Cat(ts, One(t))), lo) == Root(Link(ct, ts), lo)
  {
  }

  lemma LastInside(ct: CType, ts: Trees, lo: nat)
    requires ts.Cons?
    ensures lo <= LastKid(ct, ts, lo) < lo + Size(Link(ct, ts))
  {
    SizeIs(ct, ts);
  }

  lemma LastGrows(ct: CType, ts: Trees, t: Tree, lo: nat)
    requires ts.Cons?
    ensures LastKid(ct, Cat(ts, One(t)), lo) == Root(t, lo + Size(Link(ct, ts)))
  {
    hide Size, Sizes, Root, Last;
    SizeIs(ct, ts);
    if !After(ct) {
      LastOfRow(ts, t, lo + 1);
    } else if ts.tail.Cons? {
      LastOfRow(ts.tail, t, lo + Size(ts.head) + 1);
    } else {
      LastOne(t, lo + Size(ts.head) + 1);
      assert Cat(ts, One(t)) == Cons(ts.head, One(t));
      NoSizes();
    }
  }

  lemma LastOne(t: Tree, lo: nat)
    ensures Last(One(t), lo) == Root(t, lo)
  {
  }

  lemma NoSizes()
    ensures Sizes(Nil) == 0
  {
  }

  lemma {:induction false} LastOfRow(ts: Trees, t: Tree, lo: nat)
    requires ts.Cons?
    ensures Cat(ts, One(t)).Cons? && Last(Cat(ts, One(t)), lo) == Root(t, lo + Sizes(ts))
    decreases ts
  {
    if ts.tail.Cons? { LastOfRow(ts.tail, t, lo + Size(ts.head)); }
  }

  lemma {:induction false} CatNil(ts: Trees)
    ensures Cat(ts, Nil) == ts
  {
    if ts.Cons? { CatNil(ts.tail); }
  }

  lemma {:induction false} CatMore(ts: Trees, t: Tree, us: Trees)
    ensures Cat(Cat(ts, One(t)), us) == Cat(ts, Cons(t, us))
  {
    if ts.Cons? { CatMore(ts.tail, t, us); }
  }

  /** A change of the kind of a cell that stands before its children. */
  lemma Retyped(c0: seq<Cell>, ct: CType, du: CType, ts: Trees)
    requires !After(ct) && !After(du)
    ensures SetType(With(c0, Link(ct, ts)), |c0|, du) == With(c0, Link(du, ts))
  {
    hide Emits;
    var a := [Node(ct, NULL, Fp(First(ts, |c0| + 1)))];
    assert With(c0, Link(ct, ts))[|c0|] == a[0];
    assert SetType(With(c0, Link(ct, ts)), |c0|, du) == c0 + ([a[0].(ct := du)] + Emits(ts, |c0| + 1));
  }

  /** The two numbers of a function are filled in when it is complete. */
  lemma Numbered(c0: seq<Cell>, a: int, b: int, rest: Trees, m: int, n: int)
    ensures SetNum(SetNum(With(c0, Link(C_FUNCTION, Cons(Number(a), Cons(Number(b), rest)))), |c0| + 1, m), |c0| + 2, n)
      == With(c0, Link(C_FUNCTION, Cons(Number(m), Cons(Number(n), rest))))
  {
    hide SetNum, Emit, Emits, First;
    var lo := |c0|;
    NumberedCells(lo, a, b, rest);
    NumberedCells(lo, m, n, rest);
    var c := Node(C_FUNCTION, NULL, Fp(lo + 1));
    var k := First(rest, lo + 3);
    var tail := Emits(rest, lo + 3);
    NumberOne(c0 + [c], Node(C_INTEGER, lo + 2, Num(a)), [Node(C_INTEGER, k, Num(b))] + tail, m);
    NumberOne(c0 + [c, Node(C_INTEGER, lo + 2, Num(m))], Node(C_INTEGER, k, Num(b)), tail, n);
    assert With(c0, Link(C_FUNCTION, Cons(Number(a), Cons(Number(b), rest))))
      == c0 + [c] + [Node(C_INTEGER, lo + 2, Num(a))] + ([Node(C_INTEGER, k, Num(b))] + tail);
    assert c0 + [c] + [Node(C_INTEGER, lo + 2, Num(m))] + ([Node(C_INTEGER, k, Num(b))] + tail)
      == c0 + [c, Node(C_INTEGER, lo + 2, Num(m))] + [Node(C_INTEGER, k, Num(b))] + tail;
    assert With(c0, Link(C_FUNCTION, Cons(Number(m), Cons(Number(n), rest))))
      == c0 + [c, Node(C_INTEGER, lo + 2, Num(m))] + [Node(C_INTEGER, k, Num(n))] + tail;
  }

  lemma NumberOne(a: seq<Cell>, c: Cell, b: seq<Cell>, n: int)
    requires c.Node?
    ensures SetNum(a + [c] + b, |a|, n) == a + [c.(u := Num(n))] + b
  {
    assert (a + [c] + b)[|a|] == c;
  }

  lemma NumberedCells(lo: nat, a: int, b: int, rest: Trees)
    ensures Emit(Link(C_FUNCTION, Cons(Number(a), Cons(Number(b), rest))), lo, NULL)
      == [Node(C_FUNCTION, NULL, Fp(lo + 1)), Node(C_INTEGER, lo + 2, Num(a)),
          Node(C_INTEGER, First(rest, lo + 3), Num(b))]
        + Emits(rest, lo + 3)
  {
    assert Emits(Cons(Number(b), rest), lo + 2)
      == [Node(C_INTEGER, First(rest, lo + 3), Num(b))] + Emits(rest, lo + 3);
    assert Emits(Cons(Number(a), Cons(Number(b), rest)), lo + 1)
      == [Node(C_INTEGER, lo + 2, Num(a))] + Emits(Cons(Number(b), rest), lo + 2);
  }

  // ---- the names of locals, which stay where they are ----

  datatype Lv = Lv(si: nat, vi: nat)

  /** lvp[flvi..llvi) holds the names sc, in slot order. */
  ghost predicate Scope(cells: seq<Cell>, lvs: seq<Lv>, flvi: nat, sc: seq<string>) {
    && flvi <= |lvs| && |sc| == |lvs| - flvi
    && forall k :: 0 <= k < |sc| ==> LvOk(cells, lvs[flvi + k], k, sc[k])
  }

  ghost predicate LvOk(cells: seq<Cell>, lv: Lv, k: nat, s: string) {
    lv.vi == k && lv.si < |cells| && StringAt(cells, lv.si, s)
  }

  lemma StringStays(c0: seq<Cell>, x: seq<Cell>, i: nat, s: string)
    requires StringAt(c0, i, s)
    ensures StringAt(c0 + x, i, s)
  {
    hide StringCells;
    assert (c0 + x)[i..i + StringSize(|s|)] == c0[i..i + StringSize(|s|)];
  }

  lemma ScopeStays(c0: seq<Cell>, x: seq<Cell>, lvs: seq<Lv>, flvi: nat, sc: seq<string>)
    requires Scope(c0, lvs, flvi, sc)
    ensures Scope(c0 + x, lvs, flvi, sc)
  {
    hide StringAt;
    forall k | 0 <= k < |sc| ensures LvOk(c0 + x, lvs[flvi + k], k, sc[k]) {
      assert LvOk(c0, lvs[flvi + k], k, sc[k]);
      StringStays(c0, x, lvs[flvi + k].si, sc[k]);
    }
  }

  lemma ScopeWith(c0: seq<Cell>, t: Tree, lvs: seq<Lv>, flvi: nat, sc: seq<string>)
    requires Scope(c0, lvs, flvi, sc)
    ensures Scope(With(c0, t), lvs, flvi, sc)
  {
    ScopeStays(c0, Emit(t, |c0|, NULL), lvs, flvi, sc);
  }

  /** A link from the first cell of a string does not change it. */
  lemma StringLinked(cs: seq<Cell>, j: nat, next: int, i: nat, s: string)
    requires StringAt(cs, i, s)
    ensures StringAt(SetNext(cs, j, next), i, s)
  {
    var n := StringSize(|s|);
    var ds := SetNext(cs, j, next);
    forall k | 0 <= k < n ensures ds[i..i + n][k] == StringCells(s, ds[i].next)[k] {
      assert cs[i..i + n][k] == StringCells(s, cs[i].next)[k];
    }
  }

  lemma StringLinkedFp(cs: seq<Cell>, j: nat, fp: int, i: nat, s: string)
    requires StringAt(cs, i, s) && j < |cs| && cs[j].Node? && cs[j].u.Fp?
    ensures StringAt(SetFp(cs, j, fp), i, s)
  {
    var n := StringSize(|s|);
    var ds := SetFp(cs, j, fp);
    forall k | 0 <= k < n ensures ds[i..i + n][k] == StringCells(s, ds[i].next)[k] {
      assert cs[i..i + n][k] == StringCells(s, cs[i].next)[k];
    }
  }
}
