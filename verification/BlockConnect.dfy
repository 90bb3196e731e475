/** The two classical theorems about low values: a block stays connected when any one of its nodes
    is removed, and the nodes above a block start are exactly the articulation points, roots with
    one child excepted. */
module BlockConnect {
  import opened Undirected
  import opened BlockTheory

  // ---- a block without one of its nodes ----

  lemma CompleteTree(g: Graph, d: Tree)
    requires Complete(g, d)
    ensures Closed(g, d) && TreeOk(g, d) && GraphOk(g) && g.Keys == d.num.Keys
  {
  }

  lemma ChildJoins(g: Graph, d: Tree, s: set<Node>, c: Node, z: Node)
    requires TreeOk(g, d) && c in d.par && c in s && d.par[c] in s && Joined(g, s, c, z)
    ensures Joined(g, s, d.par[c], z)
  {
    JoinedStep(g, s, d.par[c], c, z);
  }

  lemma ParentJoins(g: Graph, d: Tree, s: set<Node>, c: Node, z: Node)
    requires TreeOk(g, d) && c in d.par && c in s && d.par[c] in s && Joined(g, s, d.par[c], z)
    ensures Joined(g, s, c, z)
  {
    NbrSymmetric(g, d.par[c], c);
    JoinedStep(g, s, c, d.par[c], z);
  }

  /** From y, whose low value is above x, the block has a way around x. */
  lemma {:induction false} Escape(g: Graph, d: Tree, r: Node, y: Node, x: Node, top: nat) returns (z: Node)
    requires Complete(g, d) && Bounded(d, top) && Head(d, r) && Chain(d, r, y) && y in d.num && x in d.num
    requires d.low[y] < d.num[x] < d.num[y]
    ensures z in Block(d, r) && z in d.num && d.num[z] == d.low[y] && Joined(g, Block(d, r) - {x}, y, z)
    decreases top - d.num[y]
  {
    hide Complete, Closed, Bounded, TreeOk, Nbr, LowBelow, LowAttained, Joined;
    CompleteTree(g, d);
    ClosedAt(g, d, y);
    WithinBound(d, y, top);
    var s := Block(d, r) - {x};
    assert y in s;
    var down, w := LowSource(g, d, y);
    z := w;
    if !down {
      SeenAbove(g, d, y, z);
      forall v | v in d.num && Anc(d, r, v) ensures LowBelow(g, d, v) { ClosedAt(g, d, v); }
      TopInBlock(g, d, r, y, z, y);
      JoinedSelf(g, s, z);
      JoinedStep(g, s, y, z, z);
    } else {
      ChildOf(g, d, w);
      WithinBound(d, w, top);
      assert Chain(d, r, w);
      z := Escape(g, d, r, w, x, top);
      ChildJoins(g, d, s, w, z);
    }
  }

  /** Where the nodes of a block are led to when x is taken out of it. */
  function Anchor(d: Tree, r: Node, x: Node): Node
    requires r in d.par
  {
    if x == d.par[r] then r else d.par[r]
  }

  lemma {:induction false} ToAnchor(g: Graph, d: Tree, r: Node, y: Node, x: Node, top: nat)
    requires Complete(g, d) && Bounded(d, top) && Head(d, r) && y in Block(d, r) && y != x
    ensures Joined(g, Block(d, r) - {x}, y, Anchor(d, r, x))
    decreases Rank(d, y)
  {
    hide Complete, Closed, Bounded, TreeOk, Joined;
    CompleteTree(g, d);
    var s := Block(d, r) - {x};
    InBlockNum(g, d, r, y);
    ChildOf(g, d, r);
    if y == Anchor(d, r, x) {
      JoinedSelf(g, s, y);
    } else if y == r {
      JoinedSelf(g, s, d.par[r]);
      ParentJoins(g, d, s, r, d.par[r]);
    } else {
      var q := d.par[y];
      ChildOf(g, d, y);
      assert q in Block(d, r);
      if q != x {
        ToAnchor(g, d, r, q, x, top);
        ParentJoins(g, d, s, y, Anchor(d, r, x));
      } else {
        var z := Escape(g, d, r, y, x, top);
        ToAnchor(g, d, r, z, x, top);
        JoinedTrans(g, s, y, z, Anchor(d, r, x));
      }
    }
  }

  /** What is left of a block when any one node goes is still connected. */
  lemma BlockStaysConnected(g: Graph, d: Tree, r: Node, x: Node, y1: Node, y2: Node, top: nat)
    requires Complete(g, d) && Bounded(d, top) && Head(d, r)
    requires y1 in Block(d, r) && y2 in Block(d, r) && y1 != x && y2 != x
    ensures Joined(g, Block(d, r) - {x}, y1, y2)
  {
    ToAnchor(g, d, r, y1, x, top);
    ToAnchor(g, d, r, y2, x, top);
    JoinedSymmetric(g, Block(d, r) - {x}, y2, Anchor(d, r, x));
    JoinedTrans(g, Block(d, r) - {x}, y1, Anchor(d, r, x), y2);
  }

  // ---- articulation points ----

  /** Taking u out separates two nodes that are joined with it. */
  ghost predicate Articulation(g: Graph, u: Node) {
    exists a, b :: a != u && b != u && Joined(g, g.Keys, a, b) && !Joined(g, g.Keys - {u}, a, b)
  }

  ghost function Below(d: Tree, c: Node): set<Node> {
    set w | w in d.num && Anc(d, c, w)
  }

  /** Every edge out of the tree below a block start c goes to the parent of c. */
  lemma SubClosed(g: Graph, d: Tree, c: Node, x: Node, y: Node)
    requires Complete(g, d) && Head(d, c) && x in d.num && Anc(d, c, x) && Nbr(g, x, y) && y != d.par[c]
    ensures y in d.num && Anc(d, c, y)
  {
    hide Complete, Closed, TreeOk, Nbr, LowBelow, LowAttained, Joined;
    CompleteTree(g, d);
    ClosedAt(g, d, x);
    var u := d.par[c];
    if x != y {
      EdgeNumbers(g, d, x, y);
      ClosedAt(g, d, y);
      if d.num[x] < d.num[y] {
        SeenAbove(g, d, y, x);
        AncTrans(d, c, x, y);
      } else {
        SeenAbove(g, d, x, y);
        AncNum(d, c, x);
        if d.num[y] < d.num[c] {
          AboveHead(g, d, c, x, y);
        } else {
          AncLinear(d, c, y, x);
        }
      }
    }
  }

  /** An edge from below c to a node above c would pull the low value of c under its parent. */
  lemma AboveHead(g: Graph, d: Tree, c: Node, x: Node, y: Node)
    requires Complete(g, d) && c in d.par && c in d.num && x in d.num && y in d.num && Anc(d, c, x)
    requires Anc(d, y, x) && Nbr(g, x, y) && d.num[y] < d.num[c] && y != d.par[c]
    ensures !Head(d, c)
  {
    hide Complete, Closed, LowAttained, TreeOk;
    CompleteTree(g, d);
    ClosedAt(g, d, x);
    AncLinear(d, y, c, x);
    ChildOf(g, d, c);
    AncNum(d, y, d.par[c]);
    if x != c { AncNum(d, c, d.par[x]); }
    assert Seen(g, d, x, y);
    forall v | v in d.num && Anc(d, c, v) ensures LowBelow(g, d, v) { ClosedAt(g, d, v); }
    LowDown(g, d, c, x);
  }

  lemma BelowClosed(g: Graph, d: Tree, c: Node)
    requires Complete(g, d) && Head(d, c)
    ensures var s := g.Keys - {d.par[c]};
      forall x, y :: x in Below(d, c) && x in s && y in s && Nbr(g, x, y) ==> y in Below(d, c)
  {
    hide Nbr, Complete, Closed, TreeOk;
    CompleteTree(g, d);
    forall x, y | x in Below(d, c) && x in g.Keys - {d.par[c]} && y in g.Keys - {d.par[c]} && Nbr(g, x, y)
      ensures y in Below(d, c) {
      SubClosed(g, d, c, x, y);
    }
  }

  lemma HeadSeparates(g: Graph, d: Tree, c: Node, b: Node)
    requires Complete(g, d) && Head(d, c) && c in d.num && b in d.num && !Anc(d, c, b)
    ensures !Joined(g, g.Keys - {d.par[c]}, c, b)
  {
    hide Complete, Nbr;
    var s := g.Keys - {d.par[c]};
    if Joined(g, s, c, b) {
      var p :| IsWalk(g, s, p) && p[0] == c && p[|p| - 1] == b;
      BelowClosed(g, d, c);
      WalkStays(g, s, Below(d, c), p, |p| - 1);
    }
  }

  lemma {:induction false} EscapeUp(g: Graph, d: Tree, y: Node, u: Node, top: nat) returns (z: Node)
    requires Complete(g, d) && Bounded(d, top) && y in d.num && u in d.num && d.low[y] < d.num[u] < d.num[y]
    ensures z in d.num && Anc(d, z, y) && d.num[z] == d.low[y] && Joined(g, g.Keys - {u}, y, z)
    decreases top - d.num[y]
  {
    hide Complete, Closed, Bounded, TreeOk, Nbr, LowBelow, LowAttained, Joined;
    CompleteTree(g, d);
    ClosedAt(g, d, y);
    WithinBound(d, y, top);
    var s := g.Keys - {u};
    var down, w := LowSource(g, d, y);
    z := w;
    if !down {
      SeenAbove(g, d, y, z);
      JoinedSelf(g, s, z);
      JoinedStep(g, s, y, z, z);
    } else {
      ChildOf(g, d, w);
      ClosedAt(g, d, w);
      WithinBound(d, w, top);
      z := EscapeUp(g, d, w, u, top);
      ChildJoins(g, d, s, w, z);
      AncNum(d, z, w);
      AncLinear(d, z, y, w);
    }
  }

  function Root(d: Tree, w: Node): Node
    decreases Rank(d, w)
  {
    if HasUp(d, w) then Root(d, d.par[w]) else w
  }

  lemma {:induction false} SameRoot(d: Tree, a: Node, w: Node)
    requires Anc(d, a, w)
    ensures Root(d, a) == Root(d, w)
    decreases Rank(d, w)
  {
    if a != w { SameRoot(d, a, d.par[w]); }
  }

  lemma {:induction false} RootAbove(d: Tree, w: Node)
    ensures Anc(d, Root(d, w), w) && !HasUp(d, Root(d, w))
    decreases Rank(d, w)
  {
    if HasUp(d, w) { RootAbove(d, d.par[w]); }
  }

  /** Joined nodes are in one tree. */
  lemma JoinedSameRoot(g: Graph, d: Tree, a: Node, b: Node)
    requires Complete(g, d) && Joined(g, g.Keys, a, b)
    ensures a in g && b in g && Root(d, a) == Root(d, b)
  {
    hide Complete, Closed, Nbr;
    CompleteTree(g, d);
    var p :| IsWalk(g, g.Keys, p) && p[0] == a && p[|p| - 1] == b;
    var t := set w | w in g && Root(d, w) == Root(d, a);
    forall x, y | x in t && x in g && y in g && Nbr(g, x, y) ensures y in t {
      if x != y {
        EdgeNumbers(g, d, x, y);
        if d.num[x] < d.num[y] { SeenAbove(g, d, y, x); SameRoot(d, x, y); }
        else { SeenAbove(g, d, x, y); SameRoot(d, y, x); }
      }
    }
    WalkStays(g, g.Keys, t, p, |p| - 1);
  }

  /** Without a block start right below u, every other node still reaches the root of its tree. */
  lemma {:induction false} AroundNonCut(g: Graph, d: Tree, u: Node, w: Node, top: nat)
    requires Complete(g, d) && Bounded(d, top) && w in d.num && u in d.par && w != u
    requires forall c :: c in d.par && d.par[c] == u ==> !Head(d, c)
    ensures Joined(g, g.Keys - {u}, w, Root(d, w))
    decreases Rank(d, w)
  {
    hide Complete, Closed, Bounded, TreeOk, LowBelow, LowAttained, Joined;
    CompleteTree(g, d);
    ClosedAt(g, d, w);
    var s := g.Keys - {u};
    if !HasUp(d, w) {
      JoinedSelf(g, s, w);
    } else if d.par[w] != u {
      AroundNonCut(g, d, u, d.par[w], top);
      ParentJoins(g, d, s, w, Root(d, w));
    } else {
      assert !Head(d, w);
      var z := EscapeUp(g, d, w, u, top);
      AroundNonCut(g, d, u, z, top);
      SameRoot(d, z, w);
      JoinedTrans(g, s, w, z, Root(d, w));
    }
  }

  /** A node that is no root is an articulation point exactly when a block starts right below it. */
  lemma NonRootCut(g: Graph, d: Tree, u: Node, top: nat)
    requires Complete(g, d) && Bounded(d, top) && u in d.par
    ensures Articulation(g, u) <==> exists c :: c in d.par && d.par[c] == u && Head(d, c)
  {
    hide Complete, Closed, Bounded, TreeOk, Joined;
    CompleteTree(g, d);
    if c :| c in d.par && d.par[c] == u && Head(d, c) {
      CutBelow(g, d, u, c);
    } else if Articulation(g, u) {
      var a, b :| a != u && b != u && Joined(g, g.Keys, a, b) && !Joined(g, g.Keys - {u}, a, b);
      JoinedSameRoot(g, d, a, b);
      AroundNonCut(g, d, u, a, top);
      AroundNonCut(g, d, u, b, top);
      JoinedSymmetric(g, g.Keys - {u}, b, Root(d, b));
      JoinedTrans(g, g.Keys - {u}, a, Root(d, a), b);
    }
  }

  lemma CutBelow(g: Graph, d: Tree, u: Node, c: Node)
    requires Complete(g, d) && u in d.par && c in d.par && d.par[c] == u && Head(d, c)
    ensures Articulation(g, u)
  {
    var b := d.par[u];
    ChildOf(g, d, u);
    ChildOf(g, d, c);
    if Anc(d, c, b) { AncNum(d, c, b); }
    HeadSeparates(g, d, c, b);
    JoinedSelf(g, g.Keys, b);
    ParentJoins(g, d, g.Keys, u, b);
    ParentJoins(g, d, g.Keys, c, b);
  }

  lemma AncUp(d: Tree, a: Node, w: Node)
    ensures Anc(d, a, w) <==> a == w || (HasUp(d, w) && Anc(d, a, d.par[w]))
  {
  }

  lemma NumInGraph(g: Graph, d: Tree, v: Node)
    requires TreeOk(g, d) && v in d.num
    ensures v in g.Keys
  {
  }

  /** A tree path that does not meet u. */
  lemma {:induction false} UpPath(g: Graph, d: Tree, w: Node, a: Node, u: Node)
    requires TreeOk(g, d) && Anc(d, a, w) && w in d.num && u in d.num && a != u
    requires !Anc(d, u, w) || (a in d.num && d.num[u] < d.num[a])
    ensures Joined(g, g.Keys - {u}, w, a)
    decreases Rank(d, w)
  {
    hide Joined, TreeOk, Anc;
    NumInGraph(g, d, w);
    AncNum(d, a, w);
    AncUp(d, a, w);
    AncUp(d, u, w);
    if w == a {
      JoinedSelf(g, g.Keys - {u}, w);
    } else {
      AncNum(d, a, d.par[w]);
      AncUp(d, u, d.par[w]);
      assert d.par[w] != u;
      NumInGraph(g, d, d.par[w]);
      UpPath(g, d, d.par[w], a, u);
      ParentJoins(g, d, g.Keys - {u}, w, a);
    }
  }

  /** Every node below u is below a child of u. */
  lemma {:induction false} ChildAbove(d: Tree, u: Node, w: Node) returns (c: Node)
    requires Anc(d, u, w) && w != u
    ensures HasUp(d, c) && d.par[c] == u && Anc(d, c, w)
    decreases Rank(d, w)
  {
    if d.par[w] == u { c := w; } else { c := ChildAbove(d, u, d.par[w]); }
  }

  /** A root is an articulation point exactly when it has two children in the tree. */
  lemma RootCut(g: Graph, d: Tree, u: Node, top: nat)
    requires Complete(g, d) && Bounded(d, top) && u in d.num && u !in d.par
    ensures Articulation(g, u) <==>
      exists c1, c2 :: c1 != c2 && c1 in d.par && c2 in d.par && d.par[c1] == u && d.par[c2] == u
  {
    hide Complete, Closed, Bounded, TreeOk, Joined;
    CompleteTree(g, d);
    if c1, c2 :| c1 != c2 && c1 in d.par && c2 in d.par && d.par[c1] == u && d.par[c2] == u {
      TwoChildren(g, d, u, c1, c2, top);
    } else if Articulation(g, u) {
      var a, b :| a != u && b != u && Joined(g, g.Keys, a, b) && !Joined(g, g.Keys - {u}, a, b);
      JoinedSameRoot(g, d, a, b);
      OneChildJoins(g, d, u, a, b);
    }
  }

  /** All that hangs on a root starts blocks right below it. */
  lemma RootChildHead(g: Graph, d: Tree, c: Node, top: nat)
    requires Closed(g, d) && Bounded(d, top) && c in d.par && d.par[c] !in d.par
    ensures Head(d, c)
  {
    ClosedAt(g, d, c);
    ChildOf(g, d, c);
    var z := LowWitness(g, d, c, top);
    if z != c { RootOnTop(d, z, d.par[c]); }
  }

  lemma TwoChildren(g: Graph, d: Tree, u: Node, c1: Node, c2: Node, top: nat)
    requires Complete(g, d) && Bounded(d, top) && u in d.num && u !in d.par
    requires c1 != c2 && c1 in d.par && c2 in d.par && d.par[c1] == u && d.par[c2] == u
    ensures Articulation(g, u)
  {
    hide Complete, Closed, Bounded, TreeOk, Joined;
    CompleteTree(g, d);
    ChildOf(g, d, c1);
    ChildOf(g, d, c2);
    RootChildHead(g, d, c1, top);
    if Anc(d, c1, c2) { RootOnTop(d, c1, u); }
    HeadSeparates(g, d, c1, c2);
    JoinedSelf(g, g.Keys, c2);
    ChildJoins(g, d, g.Keys, c2, c2);
    ParentJoins(g, d, g.Keys, c1, c2);
  }

  lemma OneChildJoins(g: Graph, d: Tree, u: Node, a: Node, b: Node)
    requires Complete(g, d) && u in d.num && u !in d.par
    requires a in d.num && b in d.num && a != u && b != u && Root(d, a) == Root(d, b)
    requires forall c1, c2 :: c1 in d.par && c2 in d.par && d.par[c1] == u && d.par[c2] == u ==> c1 == c2
    ensures Joined(g, g.Keys - {u}, a, b)
  {
    hide Complete, Closed, TreeOk, Joined;
    CompleteTree(g, d);
    RootAbove(d, a);
    RootAbove(d, b);
    var t := Root(d, a);
    if t == u {
      var c := ChildAbove(d, u, a);
      var c' := ChildAbove(d, u, b);
      assert c == c';
      t := c;
    } else {
      if Anc(d, u, a) { SameRoot(d, u, a); }
      if Anc(d, u, b) { SameRoot(d, u, b); }
    }
    UpPath(g, d, a, t, u);
    UpPath(g, d, b, t, u);
    JoinedSymmetric(g, g.Keys - {u}, b, t);
    JoinedTrans(g, g.Keys - {u}, a, t, b);
  }
}
