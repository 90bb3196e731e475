/** Where the searches of process in cmd/tools/bcomps.c start: at the first node of each component,
    in the order in which the nodes come. */
module BcompsRoots {
  import opened Undirected
  import opened BlockTheory
  import opened BlockConnect
  import opened BcompsState
  import opened BcompsWalk

  /** No node before u in the order is in the component of u. */
  ghost predicate FirstAt(g: Graph, nodes: seq<Node>, u: Node, i: nat) {
    i < |nodes| && nodes[i] == u && forall j :: 0 <= j < i ==> !Joined(g, g.Keys, nodes[j], u)
  }

  ghost predicate First(g: Graph, nodes: seq<Node>, u: Node) {
    exists i :: FirstAt(g, nodes, u, i)
  }

  /** Every root so far is the first node of its component. */
  ghost predicate RootsFirst(g: Graph, nodes: seq<Node>, d: Tree) {
    forall u :: u in d.num && u !in d.par ==> First(g, nodes, u)
  }

  /** A search that starts outside of what was reached starts in a component that was not reached. */
  lemma NotReached(g: Graph, s: State, a: Node, u: Node)
    requires Inv(g, s) && s.path == [] && a in s.num && u !in s.num
    ensures !Joined(g, g.Keys, a, u)
  {
    hide Lows, Blocks, TreeOk, Comparable, PathOk, PathAbove, Bounded, Nbr;
    if p :| IsWalk(g, g.Keys, p) && p[0] == a && p[|p| - 1] == u {
      forall x, y | x in s.num && Nbr(g, x, y) ensures y in s.num {
        assert Finished(s, x);
        assert NbrsReached(g, s, x);
      }
      WalkStays(g, g.Keys, s.num.Keys, p, |p| - 1);
    }
  }

  /** The search from nodes[i] adds one root, nodes[i] itself. */
  lemma RootAdded(g: Graph, nodes: seq<Node>, i: nat, s: State, s2: State, t: seq<Edge>)
    requires Inv(g, s) && s.path == [] && RootsFirst(g, nodes, T(s))
    requires i < |nodes| && nodes[i] !in s.num && forall j :: 0 <= j < i ==> nodes[j] in s.num
    requires Walked(g, s, s2, nodes[i], t)
    ensures RootsFirst(g, nodes, T(s2))
  {
    hide Inv, HeadsDone, ChainEdges, First;
    var u := nodes[i];
    forall j | 0 <= j < i ensures !Joined(g, g.Keys, nodes[j], u) { NotReached(g, s, nodes[j], u); }
    assert First(g, nodes, u) by { FirstIs(g, nodes, u, i); }
    forall w | w in s2.num && w !in s2.par ensures First(g, nodes, w) {
      if w !in s.num {
        assert Anc(T(s2), u, w);
        RootOnTop(T(s2), u, w);
      }
    }
  }

  lemma FirstIs(g: Graph, nodes: seq<Node>, u: Node, i: nat)
    requires i < |nodes| && nodes[i] == u && forall j :: 0 <= j < i ==> !Joined(g, g.Keys, nodes[j], u)
    ensures First(g, nodes, u)
  {
    assert FirstAt(g, nodes, u, i);
  }

  lemma {:induction false} RootJoined(g: Graph, d: Tree, w: Node)
    requires TreeOk(g, d) && w in d.num
    ensures Root(d, w) in d.num && Root(d, w) !in d.par && Joined(g, g.Keys, w, Root(d, w))
    decreases Rank(d, w)
  {
    if HasUp(d, w) {
      RootJoined(g, d, d.par[w]);
      hide TreeOk, Joined;
      NumInGraph(g, d, w);
      NumInGraph(g, d, d.par[w]);
      ParentJoins(g, d, g.Keys, w, Root(d, w));
    } else {
      JoinedSelf(g, g.Keys, w);
    }
  }

  /** Two first nodes of one component are one node. */
  lemma FirstOnce(g: Graph, nodes: seq<Node>, u: Node, v: Node)
    requires GraphOk(g) && First(g, nodes, u) && First(g, nodes, v) && Joined(g, g.Keys, u, v)
    ensures u == v
  {
    hide Joined, GraphOk;
    JoinedSymmetric(g, g.Keys, u, v);
    var i :| FirstAt(g, nodes, u, i);
    var k :| FirstAt(g, nodes, v, k);
  }

  /** The roots are exactly the first nodes of their components. */
  lemma RootsAre(g: Graph, nodes: seq<Node>, d: Tree, u: Node)
    requires TreeOk(g, d) && RootsFirst(g, nodes, d) && u in d.num
    ensures u !in d.par <==> First(g, nodes, u)
  {
    RootJoined(g, d, u);
    hide Joined, First;
    if First(g, nodes, u) { FirstOnce(g, nodes, u, Root(d, u)); }
  }
}
