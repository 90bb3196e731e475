/** Why the numbers that cmd/tools/bcomps.c computes give the biconnected components: facts about a
    depth-first tree with its preorder numbers and low values, with no program in sight. */
module BlockTheory {
  import opened Undirected

  /** `num` is N(n), `low` is Low(n), `par` the node a node was reached from. */
  datatype Tree = Tree(num: map<Node, nat>, low: map<Node, nat>, par: map<Node, Node>)

  predicate HasUp(d: Tree, b: Node) {
    b in d.par && b in d.num && d.par[b] in d.num && d.num[d.par[b]] < d.num[b]
  }

  function Rank(d: Tree, b: Node): nat {
    if b in d.num then d.num[b] else 0
  }

  /** a is b or above b in the tree. */
  predicate Anc(d: Tree, a: Node, b: Node)
    decreases Rank(d, b)
  {
    a == b || (HasUp(d, b) && Anc(d, a, d.par[b]))
  }

  /** r starts a block: nothing below it reaches above its parent. */
  predicate Head(d: Tree, r: Node) {
    r in d.par && r in d.low && d.par[r] in d.num && d.low[r] >= d.num[d.par[r]]
  }

  /** Going up from w, no block starts before r. */
  predicate Chain(d: Tree, r: Node, w: Node)
    decreases Rank(d, w)
  {
    w == r || (HasUp(d, w) && !Head(d, w) && Chain(d, r, d.par[w]))
  }

  ghost function Members(d: Tree, r: Node): set<Node> {
    set w | w in d.num && Chain(d, r, w)
  }

  /** The block that r starts: its parent, and the nodes linked to r. */
  ghost function Block(d: Tree, r: Node): set<Node>
    requires r in d.par
  {
    {d.par[r]} + Members(d, r)
  }

  ghost predicate TreeOk(g: Graph, d: Tree) {
    && GraphOk(g) && d.num.Keys <= g.Keys && d.low.Keys == d.num.Keys && d.par.Keys <= d.num.Keys
    && (forall v :: v in d.par ==> HasUp(d, v) && Nbr(g, d.par[v], v))
    && (forall u, v :: u in d.num && v in d.num && d.num[u] == d.num[v] ==> u == v)
  }

  /** z is joined to w by an edge that bcomps looks at: no loop, and not an edge to w's parent. */
  predicate Seen(g: Graph, d: Tree, w: Node, z: Node) {
    Nbr(g, w, z) && z != w && !(w in d.par && d.par[w] == z)
  }

  ghost predicate LowBelow(g: Graph, d: Tree, w: Node) {
    && w in d.low && w in d.num && d.low[w] <= d.num[w]
    && (forall z :: Seen(g, d, w, z) ==> z in d.num && d.low[w] <= d.num[z])
    && (forall c :: c in d.par && d.par[c] == w ==> c in d.low && d.low[w] <= d.low[c])
  }

  ghost predicate LowAttained(g: Graph, d: Tree, w: Node) {
    && w in d.low && w in d.num
    && (|| d.low[w] == d.num[w]
        || (exists z :: Seen(g, d, w, z) && z in d.num && d.low[w] == d.num[z])
        || (exists c :: c in d.par && d.par[c] == w && c in d.low && d.low[w] == d.low[c]))
  }

  ghost predicate LowOk(g: Graph, d: Tree, w: Node) {
    LowBelow(g, d, w) && LowAttained(g, d, w)
  }

  /** A depth-first tree has no cross edges. */
  ghost predicate Comparable(g: Graph, d: Tree) {
    forall a, b :: a in d.num && b in d.num && Nbr(g, a, b) && d.num[a] < d.num[b] ==> Anc(d, a, b)
  }

  /** A tree in which nothing is being searched. */
  ghost predicate Closed(g: Graph, d: Tree) {
    && TreeOk(g, d) && Comparable(g, d)
    && forall w {:trigger LowOk(g, d, w)} :: w in d.num ==> LowOk(g, d, w)
  }

  /** The tree of a finished search. */
  ghost predicate Complete(g: Graph, d: Tree) {
    Closed(g, d) && d.num.Keys == g.Keys
  }

  ghost predicate Bounded(d: Tree, top: nat) {
    forall x :: x in d.num ==> d.num[x] <= top
  }

  // ---- ancestors ----

  lemma {:induction false} AncNum(d: Tree, a: Node, b: Node)
    requires Anc(d, a, b) && b in d.num
    ensures a in d.num && d.num[a] <= d.num[b] && (d.num[a] == d.num[b] ==> a == b)
    decreases Rank(d, b)
  {
    if a != b { AncNum(d, a, d.par[b]); }
  }

  lemma {:induction false} AncTrans(d: Tree, a: Node, b: Node, c: Node)
    requires Anc(d, a, b) && Anc(d, b, c)
    ensures Anc(d, a, c)
    decreases Rank(d, c)
  {
    if b != c { AncTrans(d, a, b, d.par[c]); }
  }

  /** Two nodes above the same node are one above the other. */
  lemma {:induction false} AncLinear(d: Tree, a: Node, b: Node, w: Node)
    requires Anc(d, a, w) && Anc(d, b, w) && w in d.num && a in d.num && b in d.num && d.num[a] <= d.num[b]
    ensures Anc(d, a, b)
    decreases Rank(d, w)
  {
    if b != w {
      AncNum(d, b, d.par[w]);
      AncLinear(d, a, b, d.par[w]);
    }
  }

  lemma {:induction false} ChainAnc(d: Tree, r: Node, w: Node)
    requires Chain(d, r, w)
    ensures Anc(d, r, w)
    decreases Rank(d, w)
  {
    if w != r { ChainAnc(d, r, d.par[w]); }
  }

  /** Low values only grow on the way down. */
  lemma {:induction false} LowDown(g: Graph, d: Tree, v: Node, w: Node)
    requires TreeOk(g, d) && Anc(d, v, w) && w in d.num
    requires forall x :: x in d.num && Anc(d, v, x) ==> LowBelow(g, d, x)
    ensures v in d.low && d.low[v] <= d.low[w]
    decreases Rank(d, w)
  {
    if v != w {
      LowDown(g, d, v, d.par[w]);
      assert LowBelow(g, d, d.par[w]);
    } else {
      assert LowBelow(g, d, v);
    }
  }

  // ---- blocks ----

  /** The upper end of an edge lies in the block of its lower end, if the search below the block's
      start r is over. */
  lemma {:induction false} TopInBlock(g: Graph, d: Tree, r: Node, w: Node, a: Node, b: Node)
    requires TreeOk(g, d) && Head(d, r) && Chain(d, r, w) && w in d.num && b in d.num
    requires Anc(d, a, w) && a != w && Anc(d, w, b) && Nbr(g, b, a)
    requires forall x :: x in d.num && Anc(d, r, x) ==> LowBelow(g, d, x)
    ensures a in Block(d, r)
    decreases Rank(d, w)
  {
    AncNum(d, a, d.par[w]);
    ChainAnc(d, r, w);
    if d.par[w] == a {
      if w != r { assert Chain(d, r, a); }
    } else {
      AncNum(d, w, b);
      AncTrans(d, r, w, b);
      assert Seen(g, d, b, a) by {
        if b in d.par && d.par[b] == a && b != w {
          assert Anc(d, w, a);
          AncNum(d, w, a);
          assert false;
        }
      }
      assert LowBelow(g, d, b);
      forall x | x in d.num && Anc(d, w, x) ensures LowBelow(g, d, x) { AncTrans(d, r, w, x); }
      LowDown(g, d, w, b);
      assert !Head(d, w);
      AncStep(d, w, b);
      TopInBlock(g, d, r, d.par[w], a, b);
    }
  }

  lemma AncStep(d: Tree, w: Node, b: Node)
    requires HasUp(d, w) && Anc(d, w, b)
    ensures Anc(d, d.par[w], b)
  {
    assert Anc(d, d.par[w], w);
    AncTrans(d, d.par[w], w, b);
  }

  lemma ClosedAt(g: Graph, d: Tree, w: Node)
    requires Closed(g, d) && w in d.num
    ensures TreeOk(g, d) && LowOk(g, d, w) && w in g
  {
  }

  lemma SeenAbove(g: Graph, d: Tree, w: Node, z: Node)
    requires Closed(g, d) && w in d.num && Nbr(g, w, z) && z != w && z in d.num && d.num[z] <= d.num[w]
    ensures Anc(d, z, w) && d.num[z] < d.num[w]
  {
    NbrSymmetric(g, w, z);
  }

  lemma ChildOf(g: Graph, d: Tree, c: Node)
    requires TreeOk(g, d) && c in d.par
    ensures HasUp(d, c) && Anc(d, d.par[c], c)
  {
  }

  lemma WithinBound(d: Tree, x: Node, top: nat)
    requires x in d.num && Bounded(d, top)
    ensures d.num[x] <= top
  {
  }

  /** Where a low value comes from: the node itself, a seen node (down false), or a child. */
  lemma LowSource(g: Graph, d: Tree, w: Node) returns (down: bool, z: Node)
    requires LowAttained(g, d, w)
    ensures w in d.num && w in d.low
    ensures !down ==> z in d.num && d.low[w] == d.num[z] && (z == w || Seen(g, d, w, z))
    ensures down ==> z in d.par && d.par[z] == w && z in d.low && d.low[w] == d.low[z]
  {
    if d.low[w] == d.num[w] {
      down, z := false, w;
    } else if s :| Seen(g, d, w, s) && s in d.num && d.low[w] == d.num[s] {
      down, z := false, s;
    } else {
      down := true;
      z :| z in d.par && d.par[z] == w && z in d.low && d.low[w] == d.low[z];
    }
  }

  /** The low value of a node is the number of a node above it. */
  lemma {:induction false} LowWitness(g: Graph, d: Tree, w: Node, top: nat) returns (z: Node)
    requires Closed(g, d) && w in d.num && Bounded(d, top)
    ensures Anc(d, z, w) && z in d.num && d.low[w] == d.num[z]
    decreases top - d.num[w]
  {
    ClosedAt(g, d, w);
    hide Closed, Nbr, TreeOk, LowBelow, LowAttained, Bounded;
    WithinBound(d, w, top);
    LowBelowSelf(g, d, w);
    var down, s := LowSource(g, d, w);
    if !down {
      z := s;
      if s != w { SeenAbove(g, d, w, z); }
    } else {
      ChildOf(g, d, s);
      WithinBound(d, s, top);
      z := LowWitness(g, d, s, top);
      AncLinear(d, z, w, s);
    }
  }

  lemma LowBelowSelf(g: Graph, d: Tree, w: Node)
    requires LowBelow(g, d, w)
    ensures d.low[w] <= d.num[w]
  {
  }

  lemma RootOnTop(d: Tree, z: Node, p: Node)
    requires Anc(d, z, p) && p !in d.par
    ensures z == p
  {
  }

  /** Every node that has a parent is in exactly the block its chain leads up to. */
  lemma {:induction false} FindHead(g: Graph, d: Tree, w: Node, top: nat) returns (r: Node)
    requires Closed(g, d) && w in d.par && Bounded(d, top)
    ensures Head(d, r) && Chain(d, r, w)
    decreases Rank(d, w)
  {
    ClosedAt(g, d, w);
    ChildOf(g, d, w);
    hide Closed, Nbr, Bounded, TreeOk;
    if Head(d, w) {
      r := w;
    } else {
      var z := LowWitness(g, d, w, top);
      AncLinear(d, z, d.par[w], w);
      AncNum(d, z, d.par[w]);
      if d.par[w] !in d.par { RootOnTop(d, z, d.par[w]); }
      r := FindHead(g, d, d.par[w], top);
    }
  }

  lemma EdgeDownInBlock(g: Graph, d: Tree, a: Node, b: Node, top: nat) returns (r: Node)
    requires Closed(g, d) && Nbr(g, b, a) && b in d.num && a in d.num && d.num[a] < d.num[b]
    requires Bounded(d, top)
    ensures Head(d, r) && a in Block(d, r) && b in Block(d, r)
  {
    SeenAbove(g, d, b, a);
    ClosedAt(g, d, b);
    r := FindHead(g, d, b, top);
    forall x | x in d.num && Anc(d, r, x) ensures LowBelow(g, d, x) { ClosedAt(g, d, x); }
    hide Closed;
    TopInBlock(g, d, r, b, a, b);
  }

  lemma EdgeNumbers(g: Graph, d: Tree, a: Node, b: Node)
    requires Complete(g, d) && Nbr(g, a, b) && a != b
    ensures Nbr(g, b, a) && a in d.num && b in d.num && d.num[a] != d.num[b]
  {
    NbrSymmetric(g, a, b);
  }

  /** Every edge that is no loop has both ends in one block. */
  lemma EdgeInBlock(g: Graph, d: Tree, a: Node, b: Node, top: nat) returns (r: Node)
    requires Complete(g, d) && Nbr(g, a, b) && a != b && Bounded(d, top)
    ensures Head(d, r) && a in Block(d, r) && b in Block(d, r)
  {
    EdgeNumbers(g, d, a, b);
    assert Closed(g, d);
    hide Complete, Closed, Nbr, Bounded;
    if d.num[a] < d.num[b] {
      r := EdgeDownInBlock(g, d, a, b, top);
    } else {
      r := EdgeDownInBlock(g, d, b, a, top);
    }
  }

  lemma {:induction false} SameHead(d: Tree, r1: Node, r2: Node, w: Node)
    requires Head(d, r1) && Head(d, r2) && Chain(d, r1, w) && Chain(d, r2, w)
    ensures r1 == r2
    decreases Rank(d, w)
  {
    if w != r1 && w != r2 { SameHead(d, r1, r2, d.par[w]); }
  }

  /** Two blocks have at most one node in common. */
  lemma BlocksMeetOnce(g: Graph, d: Tree, r1: Node, r2: Node, x: Node, y: Node)
    requires TreeOk(g, d) && Head(d, r1) && Head(d, r2) && r1 != r2
    requires x in Block(d, r1) && x in Block(d, r2) && y in Block(d, r1) && y in Block(d, r2)
    ensures x == y
  {
    if Chain(d, r1, x) && Chain(d, r2, x) { SameHead(d, r1, r2, x); }
    if Chain(d, r1, y) && Chain(d, r2, y) { SameHead(d, r1, r2, y); }
    if x != y {
      InBlockNum(g, d, r1, x);
      InBlockNum(g, d, r2, x);
      InBlockNum(g, d, r1, y);
      InBlockNum(g, d, r2, y);
    }
  }

  lemma InBlockNum(g: Graph, d: Tree, r: Node, x: Node)
    requires TreeOk(g, d) && r in d.par && x in Block(d, r)
    ensures x in d.num && d.num[x] >= d.num[d.par[r]]
    ensures x != d.par[r] ==> Chain(d, r, x) && d.num[x] >= d.num[r]
  {
    if x != d.par[r] {
      ChainAnc(d, r, x);
      AncNum(d, r, x);
    }
  }
}
