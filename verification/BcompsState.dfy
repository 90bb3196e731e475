/** The state of the depth-first search of cmd/tools/bcomps.c and the invariant of its steps:
    reaching a node, lowering a low value, closing a block, leaving a node. */
module BcompsState {
  import opened Undirected
  import opened BlockTheory

  /** `path` is the list of the nodes being searched, the current one last; `heads` the nodes
      whose return closed a block, in step with `blks`. */
  datatype State = State(
    num: map<Node, nat>, low: map<Node, nat>, par: map<Node, Node>, path: seq<Node>,
    count: nat, cut: set<Node>, blks: seq<set<Node>>, heads: seq<Node>)

  function T(s: State): Tree {
    Tree(s.num, s.low, s.par)
  }

  predicate Finished(s: State, w: Node) {
    w in s.num && w !in s.path
  }

  ghost predicate PathOk(s: State) {
    && (forall i :: 0 <= i < |s.path| ==> s.path[i] in s.num)
    && (forall i, j :: 0 <= i < j < |s.path| ==> s.path[i] != s.path[j])
    && (s.path != [] ==> s.path[0] !in s.par)
    && (forall i :: 0 < i < |s.path| ==> s.path[i] in s.par && s.par[s.path[i]] == s.path[i - 1])
  }

  /** Whatever is reached while a node is searched is below it. */
  ghost predicate PathAbove(s: State) {
    forall a, w :: a in s.path && a in s.num && w in s.num && s.num[w] >= s.num[a] ==> Anc(T(s), a, w)
  }

  ghost predicate NbrsReached(g: Graph, s: State, w: Node) {
    forall z :: Nbr(g, w, z) ==> z in s.num
  }

  ghost predicate Search(g: Graph, s: State) {
    && TreeOk(g, T(s)) && Comparable(g, T(s)) && PathOk(s)
    && PathAbove(s)
    && Bounded(T(s), s.count)
    && (forall w :: Finished(s, w) ==> NbrsReached(g, s, w))
  }

  ghost predicate Lows(g: Graph, s: State) {
    forall w {:trigger LowOk(g, T(s), w)} :: Finished(s, w) ==> LowOk(g, T(s), w)
  }

  ghost predicate BlockAt(s: State, i: nat)
    requires |s.heads| == |s.blks| && i < |s.heads|
  {
    && Finished(s, s.heads[i]) && Head(T(s), s.heads[i])
    && s.blks[i] == Block(T(s), s.heads[i])
  }

  ghost predicate Blocks(s: State) {
    && |s.heads| == |s.blks|
    && (forall i :: 0 <= i < |s.heads| ==> BlockAt(s, i))
    && (forall i, j :: 0 <= i < j < |s.heads| ==> s.heads[i] != s.heads[j])
    && (forall u :: u in s.cut <==> exists i :: 0 <= i < |s.heads| && s.heads[i] in s.par && s.par[s.heads[i]] == u)
  }

  /** Every block start that the search has left, other than `late`, has its block. */
  ghost predicate HeadsDone(s: State, late: set<Node>) {
    forall c :: Finished(s, c) && Head(T(s), c) && c !in late ==> c in s.heads
  }

  ghost predicate Inv(g: Graph, s: State) {
    Search(g, s) && Lows(g, s) && Blocks(s)
  }

  // ---- the steps ----

  function Reach(s: State, u: Node): State {
    var c := s.count + 1;
    s.(count := c, num := s.num[u := c], low := s.low[u := c], path := s.path + [u],
       par := if s.path == [] then s.par else s.par[u := s.path[|s.path| - 1]])
  }

  function SetLow(s: State, u: Node, x: nat): State {
    s.(low := s.low[u := x])
  }

  function Leave(s: State): State
    requires s.path != []
  {
    s.(path := s.path[..|s.path| - 1])
  }

  function Close(s: State, v: Node, block: set<Node>): State
    requires v in s.par
  {
    s.(cut := s.cut + {s.par[v]}, blks := s.blks + [block], heads := s.heads + [v])
  }

  // ---- trees that agree ----

  /** e has all nodes of d, with the same numbers and parents. */
  ghost predicate Extends(d: Tree, e: Tree) {
    && (forall x :: x in d.num ==> x in e.num && e.num[x] == d.num[x])
    && (forall x :: x in d.num ==> (x in d.par <==> x in e.par))
    && (forall x :: x in d.num && x in d.par ==> e.par[x] == d.par[x] && d.par[x] in d.num)
  }

  lemma {:induction false} AncSame(d: Tree, e: Tree, a: Node, b: Node)
    requires Extends(d, e) && b in d.num
    ensures Anc(d, a, b) <==> Anc(e, a, b)
    decreases Rank(d, b)
  {
    if a != b && HasUp(d, b) { AncSame(d, e, a, d.par[b]); }
  }

  /** Chains down from r depend on the low values below r only. */
  lemma {:induction false} ChainSame(d: Tree, e: Tree, r: Node, w: Node)
    requires Extends(d, e) && w in d.num
    requires forall x :: x in d.num && x != r && Anc(d, r, x) ==> x in d.low && x in e.low && d.low[x] == e.low[x]
    ensures Chain(d, r, w) <==> Chain(e, r, w)
    decreases Rank(d, w)
  {
    if w != r && HasUp(d, w) {
      if Anc(d, r, w) {
        ChainSame(d, e, r, d.par[w]);
      } else {
        AncSame(d, e, r, w);
        if Chain(d, r, w) { ChainAnc(d, r, w); }
        if Chain(e, r, w) { ChainAnc(e, r, w); }
      }
    }
  }

  // ---- the path ----

  lemma {:induction false} PathChain(g: Graph, s: State, i: nat, j: nat)
    requires TreeOk(g, T(s)) && PathOk(s) && i <= j < |s.path|
    ensures Anc(T(s), s.path[i], s.path[j])
    decreases j
  {
    if i < j {
      PathChain(g, s, i, j - 1);
      PathStep(s, j);
      hide TreeOk, PathOk;
      ChildOf(g, T(s), s.path[j]);
    }
  }

  lemma PathStep(s: State, j: nat)
    requires PathOk(s) && 0 < j < |s.path|
    ensures s.path[j] in s.par && s.par[s.path[j]] == s.path[j - 1]
  {
  }

  /** The ancestors of a node on the path are on the path. */
  lemma {:induction false} PathUpClosed(s: State, a: Node, j: nat)
    requires PathOk(s) && j < |s.path| && Anc(T(s), a, s.path[j])
    ensures a in s.path
    decreases j
  {
    if a != s.path[j] && j > 0 { PathUpClosed(s, a, j - 1); }
  }

  /** A node that was left is not above a node that is still searched. */
  lemma FinishedNotAbove(s: State, r: Node, a: Node)
    requires PathOk(s) && Finished(s, r) && a in s.path
    ensures !Anc(T(s), r, a)
  {
    if Anc(T(s), r, a) {
      var j :| 0 <= j < |s.path| && s.path[j] == a;
      PathUpClosed(s, r, j);
    }
  }

  // ---- reaching a node ----

  /** u is new and joined to the node that is being searched, if there is one. */
  ghost predicate CanReach(g: Graph, s: State, u: Node) {
    u in g && u !in s.num && (s.path != [] ==> Nbr(g, s.path[|s.path| - 1], u))
  }

  lemma ReachExtends(g: Graph, s: State, u: Node)
    requires TreeOk(g, T(s)) && PathOk(s) && CanReach(g, s, u) && Bounded(T(s), s.count)
    ensures Extends(T(s), T(Reach(s, u))) && (s.path != [] ==> HasUp(T(Reach(s, u)), u))
  {
    hide TreeOk, PathOk, Bounded, Nbr;
    if s.path != [] {
      OnPath(s, |s.path| - 1);
      WithinBound(T(s), s.path[|s.path| - 1], s.count);
    }
    forall x | x in s.num && x in s.par ensures s.par[x] in s.num { ChildOf(g, T(s), x); }
  }

  /** Every reached neighbour of a new node is still being searched. */
  lemma NbrOnPath(g: Graph, s: State, u: Node, a: Node)
    requires Search(g, s) && u !in s.num && a in s.num && Nbr(g, u, a)
    ensures a in s.path
  {
    hide Comparable, PathAbove, PathOk, Nbr, Bounded;
    NbrSymmetric(g, u, a);
    assert Finished(s, a) ==> NbrsReached(g, s, a);
  }

  lemma PathAboveNew(g: Graph, s: State, u: Node, a: Node)
    requires TreeOk(g, T(s)) && PathOk(s) && CanReach(g, s, u) && Bounded(T(s), s.count) && a in s.path
    ensures Anc(T(Reach(s, u)), a, u)
  {
    hide TreeOk, PathOk, Nbr, Bounded;
    var i :| 0 <= i < |s.path| && s.path[i] == a;
    var top := |s.path| - 1;
    PathChain(g, s, i, top);
    ReachExtends(g, s, u);
    OnPath(s, top);
    AncSame(T(s), T(Reach(s, u)), a, s.path[top]);
  }

  lemma OnPath(s: State, i: nat)
    requires PathOk(s) && i < |s.path|
    ensures s.path[i] in s.num
  {
  }
}
