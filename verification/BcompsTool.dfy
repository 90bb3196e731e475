/** The program of cmd/tools/bcomps.c in its own form, and what its blocks and cut marks mean. */
module BcompsTool {
  import opened Undirected
  import opened BlockTheory
  import opened BlockConnect
  import opened BcompsState
  import opened BcompsSteps
  import opened BcompsWalk
  import opened BcompsRoots
  import opened Bcomps

  // ---- the results, in terms of the graph alone ----

  /** The search is over: every node is reached and left. */
  ghost predicate Over(g: Graph, s: State) {
    Inv(g, s) && HeadsDone(s, {}) && s.path == [] && s.num.Keys == g.Keys
  }

  lemma OverComplete(g: Graph, s: State)
    requires Inv(g, s) && s.path == []
    ensures Closed(g, T(s)) && Bounded(T(s), s.count) && Blocks(s)
    ensures s.num.Keys == g.Keys ==> Complete(g, T(s))
  {
    SearchParts(g, s);
    hide Search, Blocks, LowOk, Bounded;
    forall w | w in s.num ensures LowOk(g, T(s), w) { assert Finished(s, w); }
  }

  lemma HeadHasBlock(g: Graph, s: State, r: Node) returns (i: nat)
    requires Over(g, s) && Head(T(s), r) && r in s.par
    ensures i < |s.blks| && s.blks[i] == Block(T(s), r) && i < |s.heads| && s.heads[i] == r
  {
    assert r in s.num by { ParReached(g, s, r); }
    assert Finished(s, r);
    i :| 0 <= i < |s.heads| && s.heads[i] == r;
    assert BlockAt(s, i);
  }

  lemma ParReached(g: Graph, s: State, r: Node)
    requires Search(g, s) && r in s.par
    ensures r in s.num
  {
  }

  /** Every edge that is no loop has both ends in a block. */
  lemma EdgesCovered(g: Graph, s: State, a: Node, b: Node) returns (i: nat)
    requires Over(g, s) && Nbr(g, a, b) && a != b
    ensures i < |s.blks| && a in s.blks[i] && b in s.blks[i]
  {
    OverComplete(g, s);
    var r := EdgeInBlock(g, T(s), a, b, s.count);
    i := HeadHasBlock(g, s, r);
  }

  /** Two blocks have at most one node in common. */
  lemma BlocksShareOne(g: Graph, s: State, i: nat, j: nat, x: Node, y: Node)
    requires Over(g, s) && i < j < |s.blks|
    requires x in s.blks[i] && x in s.blks[j] && y in s.blks[i] && y in s.blks[j]
    ensures x == y
  {
    SearchParts(g, s);
    assert BlockAt(s, i) && BlockAt(s, j);
    hide Search, Lows, HeadsDone, TreeOk, Comparable, PathOk, Block;
    BlocksMeetOnce(g, T(s), s.heads[i], s.heads[j], x, y);
  }

  /** A block stays connected when any one node is taken out of it. */
  lemma BlockBiconnected(g: Graph, s: State, i: nat, x: Node, y1: Node, y2: Node)
    requires Over(g, s) && i < |s.blks| && y1 in s.blks[i] && y2 in s.blks[i] && y1 != x && y2 != x
    ensures Joined(g, s.blks[i] - {x}, y1, y2)
  {
    OverComplete(g, s);
    assert BlockAt(s, i);
    BlockStaysConnected(g, T(s), s.heads[i], x, y1, y2, s.count);
  }

  /** The cut marks, read in the tree. */
  lemma CutMarks(g: Graph, s: State, u: Node)
    requires Over(g, s)
    ensures u in s.cut <==> exists c :: c in s.par && s.par[c] == u && Head(T(s), c)
  {
    if u in s.cut {
      var i :| 0 <= i < |s.heads| && s.heads[i] in s.par && s.par[s.heads[i]] == u;
      assert BlockAt(s, i);
    }
    if c :| c in s.par && s.par[c] == u && Head(T(s), c) {
      var i := HeadHasBlock(g, s, c);
    }
  }

  /** A node that the search did not start from is marked exactly when it is an articulation point. */
  lemma CutExact(g: Graph, s: State, u: Node)
    requires Over(g, s) && u in s.par
    ensures u in s.cut <==> Articulation(g, u)
  {
    OverComplete(g, s);
    CutMarks(g, s, u);
    NonRootCut(g, T(s), u, s.count);
  }

  /** A node that a search started from is marked when it has a neighbour. */
  lemma RootMark(g: Graph, s: State, u: Node)
    requires Over(g, s) && u in g && u !in s.par
    ensures u in s.cut <==> exists v :: Nbr(g, u, v) && v != u
  {
    OverComplete(g, s);
    CutMarks(g, s, u);
    hide Over, Closed, Bounded, Blocks;
    if c :| c in s.par && s.par[c] == u && Head(T(s), c) {
      ChildOf(g, T(s), c);
    }
    if v :| Nbr(g, u, v) && v != u {
      var c := RootChild(g, s, u, v);
      RootChildHead(g, T(s), c, s.count);
    }
  }

  lemma RootChild(g: Graph, s: State, u: Node, v: Node) returns (c: Node)
    requires Complete(g, T(s)) && u in g && u !in s.par && Nbr(g, u, v) && v != u
    ensures c in s.par && s.par[c] == u
  {
    EdgeNumbers(g, T(s), u, v);
    assert Closed(g, T(s));
    hide Complete, Closed, Nbr;
    if s.num[v] < s.num[u] {
      SeenAbove(g, T(s), u, v);
      RootOnTop(T(s), v, u);
    }
    SeenAbove(g, T(s), v, u);
    c := ChildAbove(T(s), u, v);
  }

  ghost predicate TwoChildrenOf(d: Tree, u: Node) {
    exists c1, c2 :: c1 != c2 && c1 in d.par && c2 in d.par && d.par[c1] == u && d.par[c2] == u
  }

  lemma RootCutAgain(g: Graph, s: State, u: Node)
    requires Complete(g, T(s)) && Bounded(T(s), s.count) && u in g && u !in s.par
    ensures Articulation(g, u) <==> TwoChildrenOf(T(s), u)
  {
    hide Articulation;
    RootCut(g, T(s), u, s.count);
  }

  lemma InReached(g: Graph, s: State, u: Node)
    requires Over(g, s)
    ensures forall r :: r in s.par && s.par[r] == u ==> u in s.num
  {
    SearchParts(g, s);
    hide Search, Lows, HeadsDone, Blocks;
  }

  // ---- the cut marks, in terms of the graph and of the order of its nodes ----

  ghost predicate HasOther(g: Graph, u: Node) {
    exists v :: Nbr(g, u, v) && v != u
  }

  /** The marked nodes are the articulation points, and the first node of every component that has an
      edge other than loops. */
  lemma CutFlags(g: Graph, s: State, nodes: seq<Node>, u: Node)
    requires Over(g, s) && RootsFirst(g, nodes, T(s)) && u in g
    ensures u in s.cut <==> Articulation(g, u) || (First(g, nodes, u) && HasOther(g, u))
  {
    OverComplete(g, s);
    RootIsFirst(g, s, nodes, u);
    hide Over, Articulation, First, RootsFirst;
    if u in s.par {
      CutExact(g, s, u);
    } else {
      RootMark(g, s, u);
      if Articulation(g, u) { CutHasOther(g, s, u); }
    }
  }

  lemma RootIsFirst(g: Graph, s: State, nodes: seq<Node>, u: Node)
    requires Over(g, s) && RootsFirst(g, nodes, T(s)) && u in g
    ensures u !in s.par <==> First(g, nodes, u)
  {
    hide Lows, Blocks, HeadsDone, First, RootsFirst;
    SearchParts(g, s);
    RootsAre(g, nodes, T(s), u);
  }

  lemma CutHasOther(g: Graph, s: State, u: Node)
    requires Complete(g, T(s)) && Bounded(T(s), s.count) && u in g && u !in s.par && Articulation(g, u)
    ensures HasOther(g, u)
  {
    hide Complete, Closed, Bounded, Articulation, TreeOk, Nbr;
    CompleteTree(g, T(s));
    RootCutAgain(g, s, u);
    var c :| c in s.par && s.par[c] == u;
    ChildOf(g, T(s), c);
    ChildIsNbr(g, T(s), c);
  }

  lemma ChildIsNbr(g: Graph, d: Tree, c: Node)
    requires TreeOk(g, d) && c in d.par
    ensures Nbr(g, d.par[c], c) && c != d.par[c]
  {
  }

  /** The marks are right everywhere exactly when the first node of every component with an edge
      other than loops is an articulation point. */
  lemma CutCorrect(g: Graph, s: State, nodes: seq<Node>)
    requires Over(g, s) && RootsFirst(g, nodes, T(s))
    ensures (forall u :: u in s.cut <==> u in g && Articulation(g, u)) <==>
      (forall u :: u in g && First(g, nodes, u) && HasOther(g, u) ==> Articulation(g, u))
  {
    forall u | u in g ensures u in s.cut <==> Articulation(g, u) || (First(g, nodes, u) && HasOther(g, u)) {
      CutFlags(g, s, nodes, u);
    }
    forall u | u in s.cut ensures u in g { CutReached(g, s, u); }
    hide Over, Articulation, First, RootsFirst, HasOther;
  }

  lemma CutReached(g: Graph, s: State, u: Node)
    requires Over(g, s) && u in s.cut
    ensures u in g
  {
    CutMarks(g, s, u);
    InReached(g, s, u);
  }

  // ---- the program ----

  /** A pointer to an edge. */
  datatype Link = Nil | At(e: Edge)

  /** The link that leads to the edges below index i. */
  function LinkTo(stk: seq<Edge>, i: nat): Link
    requires i <= |stk|
  {
    if i == 0 then Nil else At(stk[i - 1])
  }

  class Tool {
    const g: Graph
    var N: map<Node, nat>       // N(n); a node without an entry has N(n) == 0
    var Low: map<Node, nat>
    var Cut: set<Node>
    var count: nat
    var top: Link               // stp->stk
    var NEXT: map<Edge, Link>   // NEXT(e), where it was ever set
    var blks: seq<set<Node>>
    ghost var stk: seq<Edge>    // the edges on the linked list, top last
    ghost var par: map<Node, Node>
    ghost var path: seq<Node>
    ghost var heads: seq<Node>

    ghost function Abs(): State
      reads this
    {
      State(N, Low, par, path, count, Cut, blks, heads)
    }

    /** The links run through the edges of stk, and through these only. */
    ghost predicate Chained()
      reads this`top, this`NEXT, this`stk
    {
      && top == LinkTo(stk, |stk|)
      && forall i :: 0 <= i < |stk| ==> stk[i] in NEXT && NEXT[stk[i]] == LinkTo(stk, i)
    }

    constructor (g: Graph)
      requires GraphOk(g)
      ensures this.g == g && stk == [] && path == [] && N == map[] && Chained()
      ensures Inv(g, Abs()) && HeadsDone(Abs(), {})
    {
      this.g := g;
      N, Low, Cut, count, blks := map[], map[], {}, 0, [];
      top, NEXT, stk := Nil, map[], [];
      par, path, heads := map[], [], [];
    }

    method Push(e: Edge)
      requires Chained() && e !in stk
      modifies this`top, this`NEXT, this`stk
      ensures Chained() && stk == old(stk) + [e]
    {
      ghost var was := stk;
      NEXT := NEXT[e := top];
      top := At(e);
      stk := was + [e];
      forall i | 0 <= i < |stk| ensures stk[i] in NEXT && NEXT[stk[i]] == LinkTo(stk, i) {
        if i < |was| { assert stk[i] == was[i] && was[i] in was; }
      }
    }

    method Pop() returns (e: Edge)
      requires Chained() && stk != []
      modifies this`top, this`stk
      ensures Chained() && old(stk) == stk + [e]
    {
      assert NEXT[stk[|stk| - 1]] == LinkTo(stk, |stk| - 1);
      e := top.e;
      top := NEXT[e];
      stk := stk[..|stk| - 1];
    }

    /** mkBlock and the loop that fills the block with the ends of the edges down to e. */
    method MakeBlock(e: Edge, ghost rest: seq<Edge>, ghost t: seq<Edge>) returns (sg: set<Node>)
      requires Chained() && stk == rest + [e] + t && e !in t
      modifies this`top, this`stk
      ensures Chained() && stk == rest && sg == Ends([e] + t)
    {
      hide Chained, Ends;
      EndsNone();
      sg := {};
      var ep := Pop();
      sg := sg + {ep.head, ep.tail};
      ghost var n: nat := |t|;
      if t != [] { n := n - 1; }
      LastOf(rest, e, t);
      EndsCons(ep, []);
      assert if t == [] then [e] + t == [ep] + [] else t[n..] == [ep] + [];
      while ep != e
        invariant Chained() && n <= |t| && (ep == e ==> stk == rest && sg == Ends([e] + t))
        invariant ep != e ==> n < |t| && ep == t[n] && stk == rest + [e] + t[..n] && sg == Ends(t[n..])
        decreases if ep == e then 0 else n + 1
      {
        ep := Pop();
        LastOf(rest, e, t[..n]);
        EndsCons(ep, t[n..]);
        sg := sg + {ep.head, ep.tail};
        if n == 0 {
          assert t[n..] == t;
        } else {
          assert [t[n - 1]] + t[n..] == t[n - 1..];
          assert t[..n][..n - 1] == t[..n - 1];
          n := n - 1;
        }
      }
    }

    /** The first lines of dfs. */
    method Enter(u: Node)
      modifies this`count, this`Low, this`N, this`par, this`path
      ensures Abs() == Reach(old(Abs()), u)
    {
      count := count + 1;
      Low, N := Low[u := count], N[u := count];
      par := if path == [] then par else par[u := path[|path| - 1]];
      path := path + [u];
    }

    /** dfs; the ghost result is what the search leaves on the stack. */
    method Dfs(u: Node, parent: Parent) returns (ghost t: seq<Edge>)
      requires Inv(g, Abs()) && HeadsDone(Abs(), {}) && CanReach(g, Abs(), u) && EntryStack(Abs(), u, stk)
      requires parent == if path == [] then NoParent else From(path[|path| - 1])
      requires Chained()
      modifies this
      ensures Chained() && Walked(g, old(Abs()), Abs(), u, t) && stk == old(stk) + t && NoParentEdge(Abs(), u, t)
      decreases g.Keys - N.Keys, 0
    {
      hide Inv, HeadsDone, EntryStack, AtEdge, NoParentEdge, Walked, Chained, CanReach, GraphOk, Nbr;
      ghost var s0 := Abs();
      StartStep(g, s0, u, stk);
      Enter(u);
      t := [];
      var i := 0;
      while i < |g[u]|
        invariant i <= |g[u]| && AtEdge(g, s0, Abs(), u, i, t, stk) && stk == old(stk) + t
        invariant Chained() && s0.num.Keys + {u} <= N.Keys <= g.Keys
      {
        t := WalkEdge(s0, u, parent, i, old(stk), t);
        i := i + 1;
      }
      EndStep(g, s0, Abs(), u, t, stk);
      path := path[..|path| - 1];
    }

    /** One round of the loop of dfs, for the edge at index k. */
    method WalkEdge(ghost s0: State, u: Node, parent: Parent, k: nat, ghost rest: seq<Edge>, ghost t: seq<Edge>)
      returns (ghost t': seq<Edge>)
      requires u in g && k < |g[u]| && AtEdge(g, s0, Abs(), u, k, t, stk) && stk == rest + t
      requires parent == if s0.path == [] then NoParent else From(s0.path[|s0.path| - 1])
      requires Chained()
      modifies this
      ensures Chained() && AtEdge(g, s0, Abs(), u, k + 1, t', stk) && stk == rest + t'
      ensures old(N.Keys) <= N.Keys <= g.Keys
      decreases g.Keys - N.Keys, 2
    {
      hide Inv, HeadsDone, AtEdge, Chained;
      ghost var s := Abs();
      var e := g[u][k];
      var v := if e.head == u then e.tail else e.head;
      t' := t;
      AtFacts(g, s0, s, u, k, t, stk);
      if v == u {
        SkipStep(g, s0, s, u, k, t, stk);
      } else if v !in N {
        t' := Descend(s0, u, v, k, rest, t);
      } else if parent != From(v) {
        BackStep(g, s0, s, u, k, t, stk);
        if N[v] < Low[u] { Low := Low[u := N[v]]; }
        if N[v] < N[u] {
          Push(e);
          t' := t + [e];
        }
        assert s.low[u := s.low[u]] == s.low;
      } else {
        SkipStep(g, s0, s, u, k, t, stk);
      }
    }

    /** The branch of that loop for a node v that has no number yet. */
    method Descend(ghost s0: State, u: Node, v: Node, k: nat, ghost rest: seq<Edge>, ghost t: seq<Edge>)
      returns (ghost t': seq<Edge>)
      requires u in g && k < |g[u]| && AtEdge(g, s0, Abs(), u, k, t, stk) && stk == rest + t
      requires Chained() && v == Other(g[u][k], u) && v !in N
      modifies this
      ensures Chained() && AtEdge(g, s0, Abs(), u, k + 1, t', stk) && stk == rest + t'
      ensures old(N.Keys) <= N.Keys <= g.Keys
      decreases g.Keys - N.Keys, 1
    {
      hide Inv, HeadsDone, AtEdge, Walked, NoParentEdge, EntryStack, Ends, Chained, CanReach, GraphOk, Nbr;
      ghost var s := Abs();
      var e := g[u][k];
      AtFacts(g, s0, s, u, k, t, stk);
      DescendStep(g, s0, s, u, k, t, stk);
      ghost var stk1 := stk;
      Push(e);
      ghost var t2 := Dfs(v, From(u));
      ghost var s2 := Abs();
      AfterChild(g, s0, s, s2, u, k, t, t2, stk1);
      t' := if Low[v] >= N[u] then t else t + [e] + t2;
      AfterReturn(u, v, e, stk1, t2);
    }

    /** What the loop does when the search of v is over. */
    method AfterReturn(u: Node, v: Node, e: Edge, ghost rest: seq<Edge>, ghost t: seq<Edge>)
      requires u in Low && u in N && v in Low && v != u && v in par && par[v] == u
      requires Chained() && stk == rest + [e] + t && e !in t
      modifies this`Low, this`Cut, this`top, this`stk, this`blks, this`heads
      ensures Chained()
      ensures var s := old(Abs());
        var s3 := Lower(s, u, s.low[v]);
        if s.low[v] >= s.num[u] then Abs() == Close(s3, v, Ends([e] + t)) && stk == rest
        else Abs() == s3 && stk == rest + [e] + t
    {
      hide Ends, Chained;
      ghost var s := Abs();
      assert s.low[u := s.low[u]] == s.low;
      if Low[v] < Low[u] { Low := Low[u := Low[v]]; }
      if Low[v] >= N[u] {
        Cut := Cut + {u};
        var sg := MakeBlock(e, rest, t);
        blks, heads := blks + [sg], heads + [v];
      }
    }

    /** The first part of process: a search from every node that no search has reached. */
    method Process(nodes: seq<Node>)
      requires Inv(g, Abs()) && HeadsDone(Abs(), {}) && path == [] && stk == [] && N == map[]
      requires Chained() && forall n :: n in nodes <==> n in g
      modifies this
      ensures Chained() && Over(g, Abs()) && stk == [] && RootsFirst(g, nodes, T(Abs()))
      ensures forall u :: u in g ==> (u in Cut <==> Articulation(g, u) || (First(g, nodes, u) && HasOther(g, u)))
    {
      hide Inv, HeadsDone, Walked, Chained, RootsFirst, First, Articulation, HasOther;
      NoRoots(g, nodes, T(Abs()));
      var i := 0;
      while i < |nodes|
        invariant Chained() && RootsFirst(g, nodes, T(Abs()))
        invariant i <= |nodes| && Inv(g, Abs()) && HeadsDone(Abs(), {}) && path == [] && stk == []
        invariant forall j :: 0 <= j < i ==> nodes[j] in N
      {
        if nodes[i] !in N {
          ghost var s := Abs();
          ghost var t := Dfs(nodes[i], NoParent);
          RootAdded(g, nodes, i, s, Abs(), t);
          AfterRoot(g, s, Abs(), nodes[i], t);
        }
        i := i + 1;
      }
      ReachedInGraph(g, Abs());
      forall u | u in g ensures u in Cut <==> Articulation(g, u) || (First(g, nodes, u) && HasOther(g, u)) {
        CutFlags(g, Abs(), nodes, u);
      }
    }
  }

  /** On two nodes with one edge between them the first one is flagged, and it is no articulation point. */
  method TwoNodes() returns (cut: set<Node>)
    ensures GraphOk(PAIR) && 0 in cut && !Articulation(PAIR, 0)
  {
    PairWrong();
    var tool := new Tool(PAIR);
    tool.Process([0, 1]);
    cut := tool.Cut;
  }

  const PAIR: Graph := map[0 := [Edge(0, 0, 1)], 1 := [Edge(0, 0, 1)]]

  lemma PairWrong()
    ensures GraphOk(PAIR) && PAIR.Keys == {0, 1}
    ensures First(PAIR, [0, 1], 0) && HasOther(PAIR, 0) && !Articulation(PAIR, 0)
  {
    assert NodeOk(PAIR, 0) && NodeOk(PAIR, 1);
    assert Other(PAIR[0][0], 0) == 1;
    assert Nbr(PAIR, 0, 1);
    FirstIs(PAIR, [0, 1], 0, 0);
    forall a, b | a != 0 && b != 0 && Joined(PAIR, PAIR.Keys, a, b) ensures Joined(PAIR, PAIR.Keys - {0}, a, b) {
      assert a == 1 && b == 1;
      JoinedSelf(PAIR, PAIR.Keys - {0}, 1);
    }
  }

  lemma NoRoots(g: Graph, nodes: seq<Node>, d: Tree)
    requires d.num == map[]
    ensures RootsFirst(g, nodes, d)
  {
  }

  /** After the search from a root the stack is empty again: everything below it was in a block. */
  lemma AfterRoot(g: Graph, s0: State, s: State, u: Node, t: seq<Edge>)
    requires s0.path == [] && Walked(g, s0, s, u, t)
    ensures Inv(g, s) && HeadsDone(s, {}) && s.path == [] && t == []
    ensures forall x :: x in s0.num ==> x in s.num
    ensures u in s.num
  {
    OverComplete(g, s);
    assert u !in s.par && u in s.num && Extends(T(s0), T(s));
    hide Search, Lows, Blocks, Closed, Bounded, Grown;
    assert t != [] ==> Linked(g, T(s), u, t[0]);
    if t != [] { NothingLinked(g, s, u, t[0]); }
    NotHead(T(s), u);
    NotLate(s, u);
  }

  lemma NotHead(d: Tree, u: Node)
    requires u !in d.par
    ensures !Head(d, u)
  {
  }

  lemma NothingLinked(g: Graph, s: State, u: Node, f: Edge)
    requires Closed(g, T(s)) && Bounded(T(s), s.count) && u !in s.par && u in s.num
    ensures !Linked(g, T(s), u, f)
  {
    assert TreeOk(g, T(s)) && GraphOk(g);
    if w :| Owned(g, T(s), f, w) && Chain(T(s), u, w) {
      hide Closed, Bounded, TreeOk, GraphOk;
      ChainAnc(T(s), u, w);
      if w != u {
        var c := ChildAbove(T(s), u, w);
        ChainThrough(T(s), u, c, w);
        RootChildHead(g, T(s), c, s.count);
      } else {
        OwnedNbr(g, T(s), f, w);
        SeenAbove(g, T(s), w, Other(f, w));
        RootOnTop(T(s), Other(f, w), w);
      }
    }
  }

  lemma ReachedInGraph(g: Graph, s: State)
    requires Inv(g, s)
    ensures s.num.Keys <= g.Keys
  {
    SearchParts(g, s);
  }

  datatype Parent = NoParent | From(p: Node)

  /** What holds of the state and the stack between two rounds of the loop of dfs. */
  ghost predicate AtEdge(g: Graph, s0: State, s: State, u: Node, k: nat, t: seq<Edge>, stk: seq<Edge>) {
    Walking(g, s0, s, u, k, t) && AtNode(g, s, u, k, stk) && NoParentEdge(s, u, t)
  }

  lemma StartStep(g: Graph, s0: State, u: Node, stk: seq<Edge>)
    requires Inv(g, s0) && HeadsDone(s0, {}) && CanReach(g, s0, u) && EntryStack(s0, u, stk)
    ensures AtEdge(g, s0, Reach(s0, u), u, 0, [], stk) && u in g && u !in s0.num && s0.num.Keys <= g.Keys
  {
    hide Search, Lows, Blocks, HeadsDone, EntryStack, Walking, TreeOk, PathOk, Comparable, Bounded;
    SearchParts(g, s0);
    StartWalk(g, s0, u);
    StartStack(g, s0, u, stk);
  }

  lemma EndStep(g: Graph, s0: State, s: State, u: Node, t: seq<Edge>, stk: seq<Edge>)
    requires u in g && AtEdge(g, s0, s, u, |g[u]|, t, stk)
    ensures s.path != [] && Walked(g, s0, Leave(s), u, t) && NoParentEdge(Leave(s), u, t)
  {
    hide Walking, Walked, AtNode;
    EndWalk(g, s0, s, u, t);
  }

  lemma AtFacts(g: Graph, s0: State, s: State, u: Node, k: nat, t: seq<Edge>, stk: seq<Edge>)
    requires u in g && k < |g[u]| && AtEdge(g, s0, s, u, k, t, stk)
    ensures u in s.num && u in s.low && GraphOk(g) && s.num.Keys <= g.Keys
    ensures s.path != [] && s.path[|s.path| - 1] == u && (u in s.par <==> s0.path != [])
    ensures s0.path != [] ==> s.par[u] == s0.path[|s0.path| - 1]
    ensures forall v :: v in s.num ==> v in s.low
  {
    hide HeadsDone, Lows, Blocks, AtNode, NoParentEdge, ChainEdges, Grown, LowAttained;
    SearchParts(g, s);
  }

  lemma SkipStep(g: Graph, s0: State, s: State, u: Node, k: nat, t: seq<Edge>, stk: seq<Edge>)
    requires u in g && k < |g[u]| && AtEdge(g, s0, s, u, k, t, stk) && Other(g[u][k], u) in s.num
    requires Other(g[u][k], u) == u || (u in s.par && Other(g[u][k], u) == s.par[u])
    ensures AtEdge(g, s0, s, u, k + 1, t, stk)
  {
    hide Walking, AtNode;
    SkipEdge(g, s0, s, u, k, t);
    SkipStack(g, s, u, k, stk);
  }

  lemma BackStep(g: Graph, s0: State, s: State, u: Node, k: nat, t: seq<Edge>, stk: seq<Edge>)
    requires u in g && k < |g[u]| && AtEdge(g, s0, s, u, k, t, stk) && u in s.low
    requires var z := Other(g[u][k], u); z in s.num && z != u && !(u in s.par && s.par[u] == z)
    ensures u in s.num
    ensures var z := Other(g[u][k], u);
      var s' := Lower(s, u, s.num[z]);
      if s.num[z] < s.num[u]
      then g[u][k] !in stk && AtEdge(g, s0, s', u, k + 1, t + [g[u][k]], stk + [g[u][k]])
      else AtEdge(g, s0, s', u, k + 1, t, stk)
  {
    hide Walking, AtNode, NoParentEdge;
    AtFacts(g, s0, s, u, k, t, stk);
    var z := Other(g[u][k], u);
    BackEdge(g, s0, s, u, k, t);
    BackStack(g, s, u, k, stk, s.num[z], t);
    if s.num[z] < s.num[u] { PushedOnce(g, s, u, k, stk); }
  }

  lemma DescendStep(g: Graph, s0: State, s: State, u: Node, k: nat, t: seq<Edge>, stk: seq<Edge>)
    requires u in g && k < |g[u]| && AtEdge(g, s0, s, u, k, t, stk) && Other(g[u][k], u) !in s.num
    ensures g[u][k] !in stk && EntryStack(s, Other(g[u][k], u), stk + [g[u][k]])
    ensures CanReach(g, s, Other(g[u][k], u)) && Inv(g, s) && HeadsDone(s, {})
  {
    hide Inv, HeadsDone, AtNode, NoParentEdge, ChainEdges, Grown, LowPartial, EntryStack;
    AtFacts(g, s0, s, u, k, t, stk);
    PushedOnce(g, s, u, k, stk);
    DescendStack(g, s, u, k, stk);
  }

  /** The state and the stack after the search of a child, both when it starts a block and when
      it does not. */
  lemma AfterChild(g: Graph, s0: State, s: State, s2: State, u: Node, k: nat, t: seq<Edge>, t2: seq<Edge>,
    stk: seq<Edge>)
    requires u in g && k < |g[u]| && AtEdge(g, s0, s, u, k, t, stk) && Other(g[u][k], u) !in s.num
    requires Walked(g, s, s2, Other(g[u][k], u), t2) && NoParentEdge(s2, Other(g[u][k], u), t2)
    ensures var v := Other(g[u][k], u);
      && u in s2.num && u in s2.low && v in s2.low && v in s2.num && v != u && g[u][k] !in t2
      && s.num.Keys <= s2.num.Keys <= g.Keys && v in s2.par && s2.par[v] == u
      && var s3 := Lower(s2, u, s2.low[v]);
      if s2.low[v] >= s2.num[u]
      then AtEdge(g, s0, Close(s3, v, Ends([g[u][k]] + t2)), u, k + 1, t, stk)
      else AtEdge(g, s0, s3, u, k + 1, t + [g[u][k]] + t2, stk + [g[u][k]] + t2)
  {
    hide Walking, Walked, AtNode, TreeOk, Comparable, PathOk, Ends, Block, Head;
    var v := Other(g[u][k], u);
    assert Returned(g, s0, s, s2, u, k, t, t2);
    ReturnedFacts(g, s0, s, s2, u, k, t, t2);
    TreeEdge(g, s0, s, s2, u, k, t, t2);
    ReturnedBlock(g, s0, s, s2, u, k, t, t2);
    ReturnedStack(g, s0, s, s2, u, k, t, t2, stk);
    NotPushedTwice(g, s0, s, s2, u, k, t, t2);
    var s3 := Lower(s2, u, s2.low[v]);
    if s2.low[v] >= s2.num[u] {
      SameStack(g, s3, Close(s3, v, Block(T(s3), v)), u, k + 1, t, stk);
    }
  }

  lemma SameStack(g: Graph, s: State, s': State, u: Node, k: nat, t: seq<Edge>, stk: seq<Edge>)
    requires AtNode(g, s, u, k, stk) && NoParentEdge(s, u, t) && s'.num == s.num && s'.par == s.par
    ensures AtNode(g, s', u, k, stk) && NoParentEdge(s', u, t)
  {
  }

  lemma NotPushedTwice(g: Graph, s0: State, s: State, s2: State, u: Node, k: nat, t: seq<Edge>, t2: seq<Edge>)
    requires Returned(g, s0, s, s2, u, k, t, t2) && NoParentEdge(s2, Other(g[u][k], u), t2)
    ensures g[u][k] !in t2 && s.num.Keys <= s2.num.Keys <= g.Keys
  {
    hide Walking, HeadsDone, Lows, Blocks, ChainEdges;
    ReturnedFacts(g, s0, s, s2, u, k, t, t2);
    SearchParts(g, s2);
    TreeGraph(g, T(s2));
    EdgeDown(g, T(s2), u, k);
  }

  lemma LastOf(rest: seq<Edge>, e: Edge, t: seq<Edge>)
    ensures var s := rest + [e] + t;
      if t == [] then s[|s| - 1] == e && s[..|s| - 1] == rest
      else s[|s| - 1] == t[|t| - 1] && s[..|s| - 1] == rest + [e] + t[..|t| - 1]
  {
  }

  lemma EndsNone()
    ensures Ends([]) == {}
  {
  }

  lemma EndsCons(f: Edge, t: seq<Edge>)
    ensures Ends([f] + t) == {f.head, f.tail} + Ends(t)
  {
    forall x ensures x in Ends([f] + t) <==> x in {f.head, f.tail} + Ends(t) {
      var p := [f] + t;
      InEnds(p, x);
      InEnds(t, x);
      if i :| 0 <= i < |p| && Touches(p[i], x) { if i > 0 { assert p[i] == t[i - 1]; } }
      if i :| 0 <= i < |t| && Touches(t[i], x) { assert p[i + 1] == t[i]; }
      if x == f.head || x == f.tail { assert Touches(p[0], x); }
    }
  }
}
