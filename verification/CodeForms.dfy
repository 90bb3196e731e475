/** The cells of short lefty programs, written out: what cmd/lefty/parse.c leaves in the array of code.c for each form
    of the language.  I is a number, S a name of one letter and L any other cell, each with its next link and then
    its value or first link. */
module CodeForms {
  import opened Options
  import opened LeftySyntax
  import opened CodeCells
  import opened CodeTrees
  import LeftyGrammar
  import LeftyPrecedence
  import opened CodeReads
  import P = Parser

  function I(next: int, n: int): Cell { Node(C_INTEGER, next, Num(n)) }

  function L(ct: CType, next: int, fp: int): Cell { Node(ct, next, Fp(fp)) }

  function S(next: int, c: char): Cell {
    Node(C_STRING, next, Chars([Ch(c), Nul, Nul, Nul, Nul, Nul, Nul, Nul]))
  }

  // ---- one cell at a time ----

  lemma OneNumber(n: int, lo: nat, next: int)
    ensures Size(Number(n)) == 1 && Root(Number(n), lo) == lo && Emit(Number(n), lo, next) == [I(next, n)]
  {
  }

  lemma OneName(c: char, lo: nat, next: int)
    ensures Size(Text([c])) == 1 && Root(Text([c]), lo) == lo && Emit(Text([c]), lo, next) == [S(next, c)]
  {
    assert Bytes([c], 0, 8) == [Ch(c), Nul, Nul, Nul, Nul, Nul, Nul, Nul];
  }

  // A row of children: t with the others behind it, or by itself.

  lemma Then(t: Tree, rest: Trees, lo: nat)
    ensures Sizes(Cons(t, rest)) == Size(t) + Sizes(rest) && First(Cons(t, rest), lo) == Root(t, lo)
    ensures Emits(Cons(t, rest), lo) == Emit(t, lo, First(rest, lo + Size(t))) + Emits(rest, lo + Size(t))
  {
  }

  lemma NumberThen(n: int, rest: Trees, lo: nat)
    ensures Sizes(Cons(Number(n), rest)) == 1 + Sizes(rest) && First(Cons(Number(n), rest), lo) == lo
    ensures Emits(Cons(Number(n), rest), lo) == [I(First(rest, lo + 1), n)] + Emits(rest, lo + 1)
  {
  }

  lemma NameThen(c: char, rest: Trees, lo: nat)
    ensures Sizes(Cons(Text([c]), rest)) == 1 + Sizes(rest) && First(Cons(Text([c]), rest), lo) == lo
    ensures Emits(Cons(Text([c]), rest), lo) == [S(First(rest, lo + 1), c)] + Emits(rest, lo + 1)
  {
    OneName(c, lo, First(rest, lo + 1));
  }

  lemma Only(t: Tree, lo: nat)
    ensures Sizes(Cons(t, Nil)) == Size(t) && First(Cons(t, Nil), lo) == Root(t, lo)
    ensures Emits(Cons(t, Nil), lo) == Emit(t, lo, -1)
  {
  }

  lemma NumberOnly(n: int, lo: nat)
    ensures Sizes(Cons(Number(n), Nil)) == 1 && First(Cons(Number(n), Nil), lo) == lo
    ensures Emits(Cons(Number(n), Nil), lo) == [I(-1, n)]
  {
  }

  lemma NameOnly(c: char, lo: nat)
    ensures Sizes(Cons(Text([c]), Nil)) == 1 && First(Cons(Text([c]), Nil), lo) == lo
    ensures Emits(Cons(Text([c]), Nil), lo) == [S(-1, c)]
  {
    OneName(c, lo, -1);
  }

  // A cell with its children: most come before them, some behind the first.

  lemma Before(ct: CType, kids: Trees, lo: nat, next: int)
    requires !After(ct)
    ensures Size(Link(ct, kids)) == 1 + Sizes(kids) && Root(Link(ct, kids), lo) == lo
    ensures Emit(Link(ct, kids), lo, next) == [L(ct, next, First(kids, lo + 1))] + Emits(kids, lo + 1)
  {
  }

  lemma Behind(ct: CType, t: Tree, rest: Trees, lo: nat, next: int)
    requires After(ct)
    ensures var u, n := Link(ct, Cons(t, rest)), lo + Size(t);
      && Size(u) == 1 + Size(t) + Sizes(rest) && Root(u, lo) == n
      && Emit(u, lo, next) == Emit(t, lo, First(rest, n + 1)) + [L(ct, next, Root(t, lo))] + Emits(rest, n + 1)
  {
  }

  lemma Alone(ct: CType, lo: nat, next: int)
    ensures Size(Link(ct, Nil)) == 1 && Root(Link(ct, Nil), lo) == lo
    ensures Emit(Link(ct, Nil), lo, next) == [L(ct, next, -1)]
  {
  }

  lemma OverNumber(ct: CType, n: int, lo: nat, next: int)
    requires !After(ct)
    ensures var u := Link(ct, Cons(Number(n), Nil));
      Size(u) == 2 && Root(u, lo) == lo && Emit(u, lo, next) == [L(ct, next, lo + 1), I(-1, n)]
  {
    NumberOnly(n, lo + 1);
  }

  lemma OverName(ct: CType, c: char, lo: nat, next: int)
    requires !After(ct)
    ensures var u := Link(ct, Cons(Text([c]), Nil));
      Size(u) == 2 && Root(u, lo) == lo && Emit(u, lo, next) == [L(ct, next, lo + 1), S(-1, c)]
  {
    NameOnly(c, lo + 1);
  }

  /** The length of a function counts its own cell, its two numbers and its parameters. */
  lemma FunctionCells(p: char, nl: nat, body: Trees)
    ensures FuncTree([[p]], nl, body) == Link(C_FUNCTION, Cons(Number(5 + Sizes(body)), Cons(Number(nl),
      Cons(Link(C_DECL, Cons(Text([p]), Nil)), body))))
  {
    hide Size, Sizes, Root, First, Emit, Emits, StringCells;
    assert Names([[p]]) == Cons(Text([p]), Nil);
    OverName(C_DECL, p, 0, -1);
  }

  // ---- strings ----

  /** Eight characters stay in the first cell; the others and the final NUL go into the next one. */
  lemma LongString(next: int)
    ensures StringCells("identifier", next) == [
      Node(C_STRING, next, Chars([Ch('i'), Ch('d'), Ch('e'), Ch('n'), Ch('t'), Ch('i'), Ch('f'), Ch('i')])),
      Tail([Ch('e'), Ch('r'), Nul, Nul, Nul, Nul, Nul, Nul, Nul, Nul, Nul, Nul, Nul, Nul, Nul, Nul])]
  {
    var s := "identifier";
    assert StringSize(10) == 2;
    assert Bytes(s, 0, 8) == [Ch('i'), Ch('d'), Ch('e'), Ch('n'), Ch('t'), Ch('i'), Ch('f'), Ch('i')];
    assert Bytes(s, 8, 16) ==
      [Ch('e'), Ch('r'), Nul, Nul, Nul, Nul, Nul, Nul, Nul, Nul, Nul, Nul, Nul, Nul, Nul, Nul];
    assert Tails(s, 8, 1) == [Tail(Bytes(s, 8, 16))];
  }

  // ---- expressions and statements ----

  /** The cell of an operator comes behind its first operand: 1 op 2. */
  lemma Operator(op: BinOp)
    ensures Emit(TreeE(Bin(op, Int(1), Int(2))), 0, -1) == [I(2, 1), L(C_BIN(op), -1, 0), I(-1, 2)]
  {
    hide Emit, Emits, Size, Sizes, Root, First, StringCells;
    assert TreeE(Bin(op, Int(1), Int(2))) == Link(C_BIN(op), Cons(Number(1), Cons(Number(2), Nil)));
    OneNumber(1, 0, 2);
    NumberOnly(2, 2);
    Behind(C_BIN(op), Number(1), Cons(Number(2), Nil), 0, -1);
  }

  /** 1 + 2 * 3 */
  lemma Later()
    ensures Emit(TreeE(Bin(BPlus, Int(1), Bin(BMul, Int(2), Int(3)))), 0, -1) == [I(3, 1), L(C_BIN(BPlus), -1,
      0), I(4, 2), L(C_BIN(BMul), -1, 2), I(-1, 3)]
  {
    hide Emit, Emits, Size, Sizes, Root, First, StringCells;
    assert TreeE(Bin(BPlus, Int(1), Bin(BMul, Int(2), Int(3)))) == Link(C_BIN(BPlus), Cons(Number(1),
      Cons(Link(C_BIN(BMul), Cons(Number(2), Cons(Number(3), Nil))), Nil)));
    OneNumber(1, 0, 3);
    OneNumber(2, 2, 4);
    NumberOnly(3, 4);
    Behind(C_BIN(BMul), Number(2), Cons(Number(3), Nil), 2, -1);
    var t0 := Link(C_BIN(BMul), Cons(Number(2), Cons(Number(3), Nil)));
    Only(t0, 2);
    var r0 := Cons(t0, Nil);
    Behind(C_BIN(BPlus), Number(1), r0, 0, -1);
  }

  /** 1 - 2 - 3 */
  lemma Earlier()
    ensures Emit(TreeE(Bin(BMinus, Bin(BMinus, Int(1), Int(2)), Int(3))), 0, -1) == [I(2, 1), L(C_BIN(BMinus), 4,
      0), I(-1, 2), L(C_BIN(BMinus), -1, 1), I(-1, 3)]
  {
    hide Emit, Emits, Size, Sizes, Root, First, StringCells;
    assert TreeE(Bin(BMinus, Bin(BMinus, Int(1), Int(2)), Int(3))) == Link(C_BIN(BMinus),
      Cons(Link(C_BIN(BMinus), Cons(Number(1), Cons(Number(2), Nil))), Cons(Number(3), Nil)));
    OneNumber(1, 0, 2);
    NumberOnly(2, 2);
    Behind(C_BIN(BMinus), Number(1), Cons(Number(2), Nil), 0, 4);
    NumberOnly(3, 4);
    var t0 := Link(C_BIN(BMinus), Cons(Number(1), Cons(Number(2), Nil)));
    Behind(C_BIN(BMinus), t0, Cons(Number(3), Nil), 0, -1);
  }

  /** - 1 */
  lemma Negative()
    ensures Emit(TreeE(Uminus(Int(1))), 0, -1) == [L(C_UMINUS, -1, 1), I(-1, 1)]
  {
    hide Emit, Emits, Size, Sizes, Root, First, StringCells;
    assert TreeE(Uminus(Int(1))) == Link(C_UMINUS, Cons(Number(1), Nil));
    OverNumber(C_UMINUS, 1, 0, -1);
  }

  /** ! 1 */
  lemma Negated()
    ensures Emit(TreeE(Not(Int(1))), 0, -1) == [L(C_NOT, -1, 1), I(-1, 1)]
  {
    hide Emit, Emits, Size, Sizes, Root, First, StringCells;
    assert TreeE(Not(Int(1))) == Link(C_NOT, Cons(Number(1), Nil));
    OverNumber(C_NOT, 1, 0, -1);
  }

  /** (1) */
  lemma InParens()
    ensures Emit(TreeE(Paren(Int(1))), 0, -1) == [L(C_PEXPR, -1, 1), I(-1, 1)]
  {
    hide Emit, Emits, Size, Sizes, Root, First, StringCells;
    assert TreeE(Paren(Int(1))) == Link(C_PEXPR, Cons(Number(1), Nil));
    OverNumber(C_PEXPR, 1, 0, -1);
  }

  /** x = 1 */
  lemma Stored()
    ensures Emit(TreeE(Assign(Var("x", None, ENil), Int(1))), 0, -1) == [L(C_GVAR, 3, 1), S(-1, 'x'), L(C_ASSIGN,
      -1, 0), I(-1, 1)]
  {
    hide Emit, Emits, Size, Sizes, Root, First, StringCells;
    assert TreeE(Assign(Var("x", None, ENil), Int(1))) == Link(C_ASSIGN, Cons(Link(C_GVAR, Cons(Text("x"), Nil)),
      Cons(Number(1), Nil)));
    OverName(C_GVAR, 'x', 0, 3);
    NumberOnly(1, 3);
    Behind(C_ASSIGN, Link(C_GVAR, Cons(Text("x"), Nil)), Cons(Number(1), Nil), 0, -1);
  }

  /** x[1].y */
  lemma GlobalPath()
    ensures Emit(TreeE(Var("x", None, ECons(Int(1), ECons(Str("y"), ENil)))), 0, -1) == [L(C_GVAR, -1, 1), S(2,
      'x'), I(3, 1), S(-1, 'y')]
  {
    hide Emit, Emits, Size, Sizes, Root, First, StringCells;
    assert TreeE(Var("x", None, ECons(Int(1), ECons(Str("y"), ENil)))) == Link(C_GVAR, Cons(Text("x"),
      Cons(Number(1), Cons(Text("y"), Nil))));
    NameOnly('y', 3);
    NumberThen(1, Cons(Text("y"), Nil), 2);
    NameThen('x', Cons(Number(1), Cons(Text("y"), Nil)), 1);
    var r0 := Cons(Text("x"), Cons(Number(1), Cons(Text("y"), Nil)));
    Before(C_GVAR, r0, 0, -1);
  }

  /** x[1], where x is local 7. */
  lemma LocalPath()
    ensures Emit(TreeE(Var("x", Some(7), ECons(Int(1), ENil))), 0, -1) == [L(C_LVAR, -1, 1), S(2, 'x'), I(3, 7),
      I(-1, 1)]
  {
    hide Emit, Emits, Size, Sizes, Root, First, StringCells;
    assert TreeE(Var("x", Some(7), ECons(Int(1), ENil))) == Link(C_LVAR, Cons(Text("x"), Cons(Number(7),
      Cons(Number(1), Nil))));
    NumberOnly(1, 3);
    NumberThen(7, Cons(Number(1), Nil), 2);
    NameThen('x', Cons(Number(7), Cons(Number(1), Nil)), 1);
    var r0 := Cons(Text("x"), Cons(Number(7), Cons(Number(1), Nil)));
    Before(C_LVAR, r0, 0, -1);
  }

  /** f () */
  lemma NoArguments()
    ensures Emit(TreeE(Call(Var("f", None, ENil), ENil)), 0, -1) == [L(C_GVAR, 3, 1), S(-1, 'f'), L(C_FCALL, -1,
      0), L(C_ARGS, -1, -1)]
  {
    hide Emit, Emits, Size, Sizes, Root, First, StringCells;
    assert TreeE(Call(Var("f", None, ENil), ENil)) == Link(C_FCALL, Cons(Link(C_GVAR, Cons(Text("f"), Nil)),
      Cons(Link(C_ARGS, Nil), Nil)));
    OverName(C_GVAR, 'f', 0, 3);
    Alone(C_ARGS, 3, -1);
    Only(Link(C_ARGS, Nil), 3);
    Behind(C_FCALL, Link(C_GVAR, Cons(Text("f"), Nil)), Cons(Link(C_ARGS, Nil), Nil), 0, -1);
  }

  lemma TwoArgumentsTree()
    ensures TreeE(Call(Var("f", None, ENil), ECons(Int(1), ECons(Int(2), ENil)))) == Link(C_FCALL,
      Cons(Link(C_GVAR, Cons(Text("f"), Nil)), Cons(Link(C_ARGS, Cons(Number(1), Cons(Number(2), Nil))), Nil)))
  {
  }

  /** f (1, 2) */
  lemma TwoArguments()
    ensures Emit(TreeE(Call(Var("f", None, ENil), ECons(Int(1), ECons(Int(2), ENil)))), 0, -1) == [L(C_GVAR, 3,
      1), S(-1, 'f'), L(C_FCALL, -1, 0), L(C_ARGS, -1, 4), I(5, 1), I(-1, 2)]
  {
    hide Emit, Emits, Size, Sizes, Root, First, StringCells, TreeE, TreeS;
    TwoArgumentsTree();
    OverName(C_GVAR, 'f', 0, 3);
    NumberOnly(2, 5);
    NumberThen(1, Cons(Number(2), Nil), 4);
    Before(C_ARGS, Cons(Number(1), Cons(Number(2), Nil)), 3, -1);
    var t0 := Link(C_ARGS, Cons(Number(1), Cons(Number(2), Nil)));
    Only(t0, 3);
    var r0 := Cons(t0, Nil);
    Behind(C_FCALL, Link(C_GVAR, Cons(Text("f"), Nil)), r0, 0, -1);
  }

  lemma TableOfTwoTree()
    ensures TreeE(Tcons(ICons(Int(1), Int(2), ICons(Int(3), Int(4), INil)))) == Link(C_TCONS, Cons(Number(1),
      Cons(Number(2), Cons(Number(3), Cons(Number(4), Nil)))))
  {
  }

  /** [ 1 = 2; 3 = 4; ] */
  lemma TableOfTwo()
    ensures Emit(TreeE(Tcons(ICons(Int(1), Int(2), ICons(Int(3), Int(4), INil)))), 0, -1) == [L(C_TCONS, -1, 1),
      I(2, 1), I(3, 2), I(4, 3), I(-1, 4)]
  {
    hide Emit, Emits, Size, Sizes, Root, First, StringCells, TreeE, TreeS;
    TableOfTwoTree();
    NumberOnly(4, 4);
    NumberThen(3, Cons(Number(4), Nil), 3);
    NumberThen(2, Cons(Number(3), Cons(Number(4), Nil)), 2);
    var r0 := Cons(Number(2), Cons(Number(3), Cons(Number(4), Nil)));
    NumberThen(1, r0, 1);
    var r1 := Cons(Number(1), r0);
    Before(C_TCONS, r1, 0, -1);
  }

  lemma FunctionOfOneTree()
    ensures TreeE(Func(["p"], Code(DCons(["x"], DNil), SCons(Do(Int(1)), SNil)))) == Link(C_FUNCTION,
      Cons(Number(9), Cons(Number(2), Cons(Link(C_DECL, Cons(Text("p"), Nil)), Cons(Link(C_DECL, Cons(Text("x"),
      Nil)), Cons(Link(C_STMT, Cons(Number(1), Nil)), Nil))))))
  {
    hide Size, Sizes, Root, First, Emit, Emits, StringCells, FuncTree;
    var body := Cons(Link(C_DECL, Cons(Text("x"), Nil)), Cons(Link(C_STMT, Cons(Number(1), Nil)), Nil));
    OverName(C_DECL, 'x', 0, -1);
    OverNumber(C_STMT, 1, 0, -1);
    Only(Link(C_STMT, Cons(Number(1), Nil)), 0);
    Then(Link(C_DECL, Cons(Text("x"), Nil)), Cons(Link(C_STMT, Cons(Number(1), Nil)), Nil), 0);
    FunctionCells('p', 2, body);
    assert TreeE(Func(["p"], Code(DCons(["x"], DNil), SCons(Do(Int(1)), SNil)))) == FuncTree(["p"], 2, body);
  }

  /** function (p) { local x; 1; }: its length in cells, and the number of its locals. */
  lemma FunctionOfOne()
    ensures Emit(TreeE(Func(["p"], Code(DCons(["x"], DNil), SCons(Do(Int(1)), SNil)))), 0, -1) == [L(C_FUNCTION,
      -1, 1), I(2, 9), I(3, 2), L(C_DECL, 5, 4), S(-1, 'p'), L(C_DECL, 7, 6), S(-1, 'x'), L(C_STMT, -1, 8), I(-1,
      1)]
  {
    hide Emit, Emits, Size, Sizes, Root, First, StringCells, TreeE, TreeS;
    FunctionOfOneTree();
    OverNumber(C_STMT, 1, 7, -1);
    Only(Link(C_STMT, Cons(Number(1), Nil)), 7);
    OverName(C_DECL, 'x', 5, 7);
    var r0 := Cons(Link(C_STMT, Cons(Number(1), Nil)), Nil);
    Then(Link(C_DECL, Cons(Text("x"), Nil)), r0, 5);
    OverName(C_DECL, 'p', 3, 5);
    var r1 := Cons(Link(C_DECL, Cons(Text("x"), Nil)), r0);
    Then(Link(C_DECL, Cons(Text("p"), Nil)), r1, 3);
    var r2 := Cons(Link(C_DECL, Cons(Text("p"), Nil)), r1);
    NumberThen(2, r2, 2);
    var r3 := Cons(Number(2), r2);
    NumberThen(9, r3, 1);
    var r4 := Cons(Number(9), r3);
    Before(C_FUNCTION, r4, 0, -1);
  }

  lemma InternalOfOneTree()
    ensures TreeE(Func(["p"], Internal(7))) == Link(C_FUNCTION, Cons(Number(7), Cons(Number(1), Cons(Link(C_DECL,
      Cons(Text("p"), Nil)), Cons(Link(C_INTERNAL, Cons(Number(7), Nil)), Nil)))))
  {
    hide Size, Sizes, Root, First, Emit, Emits, StringCells, FuncTree;
    var body := Cons(Link(C_INTERNAL, Cons(Number(7), Nil)), Nil);
    OverNumber(C_INTERNAL, 7, 0, -1);
    Only(Link(C_INTERNAL, Cons(Number(7), Nil)), 0);
    FunctionCells('p', 1, body);
    assert TreeE(Func(["p"], Internal(7))) == FuncTree(["p"], 1, body);
  }

  /** function (p) internal "...", for internal function 7. */
  lemma InternalOfOne()
    ensures Emit(TreeE(Func(["p"], Internal(7))), 0, -1) == [L(C_FUNCTION, -1, 1), I(2, 7), I(3, 1), L(C_DECL, 5,
      4), S(-1, 'p'), L(C_INTERNAL, -1, 6), I(-1, 7)]
  {
    hide Emit, Emits, Size, Sizes, Root, First, StringCells, TreeE, TreeS;
    InternalOfOneTree();
    OverNumber(C_INTERNAL, 7, 5, -1);
    var t0 := Link(C_INTERNAL, Cons(Number(7), Nil));
    Only(t0, 5);
    OverName(C_DECL, 'p', 3, 5);
    var r0 := Cons(t0, Nil);
    Then(Link(C_DECL, Cons(Text("p"), Nil)), r0, 3);
    var r1 := Cons(Link(C_DECL, Cons(Text("p"), Nil)), r0);
    NumberThen(1, r1, 2);
    var r2 := Cons(Number(1), r1);
    NumberThen(7, r2, 1);
    var r3 := Cons(Number(7), r2);
    Before(C_FUNCTION, r3, 0, -1);
  }

  /** A semicolon. */
  lemma EmptyStatement()
    ensures Emit(TreeS(Empty), 0, -1) == [L(C_STMT, -1, -1)]
  {
    hide Emit, Emits, Size, Sizes, Root, First, StringCells;
    assert TreeS(Empty) == Link(C_STMT, Nil);
    Alone(C_STMT, 0, -1);
  }

  /** { 1; 2; } */
  lemma TwoInBlock()
    ensures Emit(TreeS(Block(Do(Int(1)), SCons(Do(Int(2)), SNil))), 0, -1) == [L(C_STMT, -1, 1), L(C_STMT, 3, 2),
      I(-1, 1), L(C_STMT, -1, 4), I(-1, 2)]
  {
    hide Emit, Emits, Size, Sizes, Root, First, StringCells;
    assert TreeS(Block(Do(Int(1)), SCons(Do(Int(2)), SNil))) == Link(C_STMT, Cons(Link(C_STMT, Cons(Number(1),
      Nil)), Cons(Link(C_STMT, Cons(Number(2), Nil)), Nil)));
    OverNumber(C_STMT, 2, 3, -1);
    Only(Link(C_STMT, Cons(Number(2), Nil)), 3);
    OverNumber(C_STMT, 1, 1, 3);
    var r0 := Cons(Link(C_STMT, Cons(Number(2), Nil)), Nil);
    Then(Link(C_STMT, Cons(Number(1), Nil)), r0, 1);
    var r1 := Cons(Link(C_STMT, Cons(Number(1), Nil)), r0);
    Before(C_STMT, r1, 0, -1);
  }

  lemma IfOnlyTree()
    ensures TreeS(If(Int(1), Do(Int(2)), NoStmt)) == Link(C_STMT, Cons(Link(C_IF, Cons(Number(1),
      Cons(Link(C_STMT, Cons(Number(2), Nil)), Nil))), Nil))
  {
  }

  /** if (1) 2; */
  lemma IfOnly()
    ensures Emit(TreeS(If(Int(1), Do(Int(2)), NoStmt)), 0, -1) == [L(C_STMT, -1, 1), L(C_IF, -1, 2), I(3, 1),
      L(C_STMT, -1, 4), I(-1, 2)]
  {
    hide Emit, Emits, Size, Sizes, Root, First, StringCells, TreeE, TreeS;
    IfOnlyTree();
    OverNumber(C_STMT, 2, 3, -1);
    Only(Link(C_STMT, Cons(Number(2), Nil)), 3);
    var r0 := Cons(Link(C_STMT, Cons(Number(2), Nil)), Nil);
    NumberThen(1, r0, 2);
    var r1 := Cons(Number(1), r0);
    Before(C_IF, r1, 1, -1);
    var t0 := Link(C_IF, r1);
    Only(t0, 1);
    var r2 := Cons(t0, Nil);
    Before(C_STMT, r2, 0, -1);
  }

  lemma IfElseTree()
    ensures TreeS(If(Int(1), Do(Int(2)), TheStmt(Do(Int(3))))) == Link(C_STMT, Cons(Link(C_IF, Cons(Number(1),
      Cons(Link(C_STMT, Cons(Number(2), Nil)), Cons(Link(C_STMT, Cons(Number(3), Nil)), Nil)))), Nil))
  {
  }

  /** if (1) 2; else 3; */
  lemma IfElse()
    ensures Emit(TreeS(If(Int(1), Do(Int(2)), TheStmt(Do(Int(3))))), 0, -1) == [L(C_STMT, -1, 1), L(C_IF, -1, 2),
      I(3, 1), L(C_STMT, 5, 4), I(-1, 2), L(C_STMT, -1, 6), I(-1, 3)]
  {
    hide Emit, Emits, Size, Sizes, Root, First, StringCells, TreeE, TreeS;
    IfElseTree();
    OverNumber(C_STMT, 3, 5, -1);
    Only(Link(C_STMT, Cons(Number(3), Nil)), 5);
    OverNumber(C_STMT, 2, 3, 5);
    var r0 := Cons(Link(C_STMT, Cons(Number(3), Nil)), Nil);
    Then(Link(C_STMT, Cons(Number(2), Nil)), r0, 3);
    var r1 := Cons(Link(C_STMT, Cons(Number(2), Nil)), r0);
    NumberThen(1, r1, 2);
    var r2 := Cons(Number(1), r1);
    Before(C_IF, r2, 1, -1);
    var t0 := Link(C_IF, r2);
    Only(t0, 1);
    var r3 := Cons(t0, Nil);
    Before(C_STMT, r3, 0, -1);
  }

  lemma WhileOneTree()
    ensures TreeS(While(Int(1), Do(Int(2)))) == Link(C_STMT, Cons(Link(C_WHILE, Cons(Number(1), Cons(Link(C_STMT,
      Cons(Number(2), Nil)), Nil))), Nil))
  {
  }

  /** while (1) 2; */
  lemma WhileOne()
    ensures Emit(TreeS(While(Int(1), Do(Int(2)))), 0, -1) == [L(C_STMT, -1, 1), L(C_WHILE, -1, 2), I(3, 1),
      L(C_STMT, -1, 4), I(-1, 2)]
  {
    hide Emit, Emits, Size, Sizes, Root, First, StringCells, TreeE, TreeS;
    WhileOneTree();
    OverNumber(C_STMT, 2, 3, -1);
    Only(Link(C_STMT, Cons(Number(2), Nil)), 3);
    var r0 := Cons(Link(C_STMT, Cons(Number(2), Nil)), Nil);
    NumberThen(1, r0, 2);
    var r1 := Cons(Number(1), r0);
    Before(C_WHILE, r1, 1, -1);
    var t0 := Link(C_WHILE, r1);
    Only(t0, 1);
    var r2 := Cons(t0, Nil);
    Before(C_STMT, r2, 0, -1);
  }

  lemma ForThreeTree()
    ensures TreeS(For(TheExpr(Int(1)), TheExpr(Int(2)), Int(3), Do(Int(4)))) == Link(C_STMT, Cons(Link(C_FOR,
      Cons(Number(1), Cons(Number(2), Cons(Number(3), Cons(Link(C_STMT, Cons(Number(4), Nil)), Nil))))), Nil))
  {
  }

  /** for (1; 2; 3) 4; */
  lemma ForThree()
    ensures Emit(TreeS(For(TheExpr(Int(1)), TheExpr(Int(2)), Int(3), Do(Int(4)))), 0, -1) == [L(C_STMT, -1, 1),
      L(C_FOR, -1, 2), I(3, 1), I(4, 2), I(5, 3), L(C_STMT, -1, 6), I(-1, 4)]
  {
    hide Emit, Emits, Size, Sizes, Root, First, StringCells, TreeE, TreeS;
    ForThreeTree();
    OverNumber(C_STMT, 4, 5, -1);
    Only(Link(C_STMT, Cons(Number(4), Nil)), 5);
    var r0 := Cons(Link(C_STMT, Cons(Number(4), Nil)), Nil);
    NumberThen(3, r0, 4);
    var r1 := Cons(Number(3), r0);
    NumberThen(2, r1, 3);
    var r2 := Cons(Number(2), r1);
    NumberThen(1, r2, 2);
    var r3 := Cons(Number(1), r2);
    Before(C_FOR, r3, 1, -1);
    var t0 := Link(C_FOR, r3);
    Only(t0, 1);
    var r4 := Cons(t0, Nil);
    Before(C_STMT, r4, 0, -1);
  }

  lemma ForOpenTree()
    ensures TreeS(For(NoExpr, NoExpr, Int(3), Do(Int(4)))) == Link(C_STMT, Cons(Link(C_FOR, Cons(Link(C_NOP,
      Nil), Cons(Link(C_NOP, Nil), Cons(Number(3), Cons(Link(C_STMT, Cons(Number(4), Nil)), Nil))))), Nil))
  {
  }

  /** for (;; 3) 4; */
  lemma ForOpen()
    ensures Emit(TreeS(For(NoExpr, NoExpr, Int(3), Do(Int(4)))), 0, -1) == [L(C_STMT, -1, 1), L(C_FOR, -1, 2),
      L(C_NOP, 3, -1), L(C_NOP, 4, -1), I(5, 3), L(C_STMT, -1, 6), I(-1, 4)]
  {
    hide Emit, Emits, Size, Sizes, Root, First, StringCells, TreeE, TreeS;
    ForOpenTree();
    OverNumber(C_STMT, 4, 5, -1);
    Only(Link(C_STMT, Cons(Number(4), Nil)), 5);
    var r0 := Cons(Link(C_STMT, Cons(Number(4), Nil)), Nil);
    NumberThen(3, r0, 4);
    Alone(C_NOP, 3, 4);
    var r1 := Cons(Number(3), r0);
    Then(Link(C_NOP, Nil), r1, 3);
    Alone(C_NOP, 2, 3);
    var r2 := Cons(Link(C_NOP, Nil), r1);
    Then(Link(C_NOP, Nil), r2, 2);
    var r3 := Cons(Link(C_NOP, Nil), r2);
    Before(C_FOR, r3, 1, -1);
    var t0 := Link(C_FOR, r3);
    Only(t0, 1);
    var r4 := Cons(t0, Nil);
    Before(C_STMT, r4, 0, -1);
  }

  lemma ForTableTree()
    ensures TreeS(ForIn(Var("x", None, ENil), Int(1), Do(Int(2)))) == Link(C_STMT, Cons(Link(C_FORIN,
      Cons(Link(C_GVAR, Cons(Text("x"), Nil)), Cons(Number(1), Cons(Link(C_STMT, Cons(Number(2), Nil)), Nil)))),
      Nil))
  {
  }

  /** for (x in 1) 2; */
  lemma ForTable()
    ensures Emit(TreeS(ForIn(Var("x", None, ENil), Int(1), Do(Int(2)))), 0, -1) == [L(C_STMT, -1, 1), L(C_FORIN,
      -1, 2), L(C_GVAR, 4, 3), S(-1, 'x'), I(5, 1), L(C_STMT, -1, 6), I(-1, 2)]
  {
    hide Emit, Emits, Size, Sizes, Root, First, StringCells, TreeE, TreeS;
    ForTableTree();
    OverNumber(C_STMT, 2, 5, -1);
    Only(Link(C_STMT, Cons(Number(2), Nil)), 5);
    var r0 := Cons(Link(C_STMT, Cons(Number(2), Nil)), Nil);
    NumberThen(1, r0, 4);
    OverName(C_GVAR, 'x', 2, 4);
    var r1 := Cons(Number(1), r0);
    Then(Link(C_GVAR, Cons(Text("x"), Nil)), r1, 2);
    var r2 := Cons(Link(C_GVAR, Cons(Text("x"), Nil)), r1);
    Before(C_FORIN, r2, 1, -1);
    var t0 := Link(C_FORIN, r2);
    Only(t0, 1);
    var r3 := Cons(t0, Nil);
    Before(C_STMT, r3, 0, -1);
  }

  /** break; */
  lemma BreakOnly()
    ensures Emit(TreeS(Break), 0, -1) == [L(C_STMT, -1, 1), L(C_BREAK, -1, -1)]
  {
    hide Emit, Emits, Size, Sizes, Root, First, StringCells;
    assert TreeS(Break) == Link(C_STMT, Cons(Link(C_BREAK, Nil), Nil));
    Alone(C_BREAK, 1, -1);
    Only(Link(C_BREAK, Nil), 1);
    Before(C_STMT, Cons(Link(C_BREAK, Nil), Nil), 0, -1);
  }

  /** continue; */
  lemma ContinueOnly()
    ensures Emit(TreeS(Continue), 0, -1) == [L(C_STMT, -1, 1), L(C_CONTINUE, -1, -1)]
  {
    hide Emit, Emits, Size, Sizes, Root, First, StringCells;
    assert TreeS(Continue) == Link(C_STMT, Cons(Link(C_CONTINUE, Nil), Nil));
    Alone(C_CONTINUE, 1, -1);
    Only(Link(C_CONTINUE, Nil), 1);
    Before(C_STMT, Cons(Link(C_CONTINUE, Nil), Nil), 0, -1);
  }

  /** return; */
  lemma ReturnOnly()
    ensures Emit(TreeS(Return(NoExpr)), 0, -1) == [L(C_STMT, -1, 1), L(C_RETURN, -1, -1)]
  {
    hide Emit, Emits, Size, Sizes, Root, First, StringCells;
    assert TreeS(Return(NoExpr)) == Link(C_STMT, Cons(Link(C_RETURN, Nil), Nil));
    Alone(C_RETURN, 1, -1);
    Only(Link(C_RETURN, Nil), 1);
    Before(C_STMT, Cons(Link(C_RETURN, Nil), Nil), 0, -1);
  }

  /** return 1; */
  lemma ReturnValue()
    ensures Emit(TreeS(Return(TheExpr(Int(1)))), 0, -1) == [L(C_STMT, -1, 1), L(C_RETURN, -1, 2), I(-1, 1)]
  {
    hide Emit, Emits, Size, Sizes, Root, First, StringCells;
    assert TreeS(Return(TheExpr(Int(1)))) == Link(C_STMT, Cons(Link(C_RETURN, Cons(Number(1), Nil)), Nil));
    OverNumber(C_RETURN, 1, 1, -1);
    Only(Link(C_RETURN, Cons(Number(1), Nil)), 1);
    var r0 := Cons(Link(C_RETURN, Cons(Number(1), Nil)), Nil);
    Before(C_STMT, r0, 0, -1);
  }

  // ---- from tokens to cells ----

  lemma SumUnit()
    ensures Emit(Link(C_CODE, One(TreeE(Bin(BPlus, Int(1), Bin(BMul, Int(2), Int(3)))))), 0, -1) ==
      [L(C_CODE, -1, 2), I(4, 1), L(C_BIN(BPlus), -1, 1), I(5, 2), L(C_BIN(BMul), -1, 3), I(-1, 3)]
  {
    hide Emit, Emits, Size, Sizes, Root, First, StringCells;
    var r := Cons(Number(3), Nil);
    var t := Link(C_BIN(BMul), Cons(Number(2), r));
    var u := Link(C_BIN(BPlus), Cons(Number(1), Cons(t, Nil)));
    assert TreeE(Bin(BPlus, Int(1), Bin(BMul, Int(2), Int(3)))) == u;
    NumberOnly(3, 5);
    OneNumber(2, 3, 5);
    Behind(C_BIN(BMul), Number(2), r, 3, -1);
    Only(t, 3);
    OneNumber(1, 1, 4);
    Behind(C_BIN(BPlus), Number(1), Cons(t, Nil), 1, -1);
    Only(u, 1);
    Before(C_CODE, Cons(u, Nil), 0, -1);
  }

  lemma SumParses(ts: Toks, fns: seq<string>)
    requires ts == TCons(NUMBER(1), TCons(PLUS, TCons(NUMBER(2), TCons(MUL, TCons(NUMBER(3), TNil)))))
    ensures LeftyGrammar.PUnit(ts, fns) == LeftyGrammar.Ok(Bin(BPlus, Int(1), Bin(BMul, Int(2), Int(3))), TNil)
  {
    hide LeftyGrammar.PUnit;
    var rows := LeftyPrecedence.ROWS;
    assert |rows| == 5 && |rows[3]| == 2 && |rows[4]| == 3;
    LeftyPrecedence.Numbers(3, 0, 4, 0, 1, 2, 3, fns);
  }

  /** The parser, on 1 + 2 * 3. */
  method ParseSum(fns: seq<string>) returns (code: Option<seq<Cell>>)
    ensures code ==
      Some([L(C_CODE, -1, 2), I(4, 1), L(C_BIN(BPlus), -1, 1), I(5, 2), L(C_BIN(BMul), -1, 3), I(-1, 3)])
  {
    hide LeftyGrammar.PUnit, Emit, TreeE, Reads;
    var ts := TCons(NUMBER(1), TCons(PLUS, TCons(NUMBER(2), TCons(MUL, TCons(NUMBER(3), TNil)))));
    SumParses(ts, fns);
    SumUnit();
    var reader := new P.Reader(fns, ts);
    code := reader.Unit();
  }
}
