/** An undirected multigraph as the cgraph library presents it to cmd/tools/bcomps.c and
    cmd/tools/ccomps.c, and paths in it. */
module Undirected {

  type Node = nat

  datatype Edge = Edge(id: nat, tail: Node, head: Node)

  /** For every node the edges at it, in the order in which agfstedge and agnxtedge give them. */
  type Graph = map<Node, seq<Edge>>

  /** The end of e that is not u; a loop leads back to u. */
  function Other(e: Edge, u: Node): Node {
    if e.head == u then e.tail else e.head
  }

  ghost predicate GraphOk(g: Graph) {
    forall u :: u in g ==> NodeOk(g, u)
  }

  ghost predicate NodeOk(g: Graph, u: Node)
    requires u in g
  {
    && (forall i :: 0 <= i < |g[u]| ==> EdgeOk(g, u, g[u][i]))
    && (forall i, j :: 0 <= i < j < |g[u]| ==> g[u][i] != g[u][j])
  }

  ghost predicate EdgeOk(g: Graph, u: Node, e: Edge) {
    (e.tail == u || e.head == u) && Other(e, u) in g && e in g[Other(e, u)]
  }

  predicate Nbr(g: Graph, u: Node, v: Node) {
    u in g && exists i :: 0 <= i < |g[u]| && Other(g[u][i], u) == v
  }

  lemma NbrSymmetric(g: Graph, u: Node, v: Node)
    requires GraphOk(g) && Nbr(g, u, v)
    ensures Nbr(g, v, u)
  {
    var i :| 0 <= i < |g[u]| && Other(g[u][i], u) == v;
    assert NodeOk(g, u);
    assert EdgeOk(g, u, g[u][i]);
    var j :| 0 <= j < |g[v]| && g[v][j] == g[u][i];
  }

  /** A walk inside the node set s. */
  ghost predicate IsWalk(g: Graph, s: set<Node>, p: seq<Node>) {
    && p != [] && (forall i :: 0 <= i < |p| ==> p[i] in s)
    && forall i :: 0 <= i < |p| - 1 ==> Nbr(g, p[i], p[i + 1])
  }

  ghost predicate Joined(g: Graph, s: set<Node>, a: Node, b: Node) {
    exists p :: IsWalk(g, s, p) && p[0] == a && p[|p| - 1] == b
  }

  lemma JoinedSelf(g: Graph, s: set<Node>, a: Node)
    requires a in s
    ensures Joined(g, s, a, a)
  {
    assert IsWalk(g, s, [a]);
  }

  lemma JoinedTrans(g: Graph, s: set<Node>, a: Node, b: Node, c: Node)
    requires Joined(g, s, a, b) && Joined(g, s, b, c)
    ensures Joined(g, s, a, c)
  {
    var p :| IsWalk(g, s, p) && p[0] == a && p[|p| - 1] == b;
    var q :| IsWalk(g, s, q) && q[0] == b && q[|q| - 1] == c;
    var r := p + q[1..];
    forall i | 0 <= i < |r| - 1 ensures Nbr(g, r[i], r[i + 1]) {
      if i < |p| - 1 {
        assert r[i] == p[i] && r[i + 1] == p[i + 1];
      } else {
        assert r[i] == q[i - (|p| - 1)] && r[i + 1] == q[i - (|p| - 1) + 1];
      }
    }
    assert IsWalk(g, s, r);
  }

  lemma JoinedStep(g: Graph, s: set<Node>, a: Node, b: Node, c: Node)
    requires a in s && b in s && Nbr(g, a, b) && Joined(g, s, b, c)
    ensures Joined(g, s, a, c)
  {
    assert IsWalk(g, s, [a, b]);
    assert [a, b][0] == a && [a, b][1] == b;
    JoinedTrans(g, s, a, b, c);
  }

  lemma JoinedSymmetric(g: Graph, s: set<Node>, a: Node, b: Node)
    requires GraphOk(g) && Joined(g, s, a, b)
    ensures Joined(g, s, b, a)
  {
    var p :| IsWalk(g, s, p) && p[0] == a && p[|p| - 1] == b;
    var r := seq(|p|, i requires 0 <= i < |p| => p[|p| - 1 - i]);
    forall i | 0 <= i < |r| - 1 ensures Nbr(g, r[i], r[i + 1]) {
      assert Nbr(g, p[|p| - 2 - i], p[|p| - 2 - i + 1]);
      NbrSymmetric(g, r[i + 1], r[i]);
    }
    assert IsWalk(g, s, r);
  }

  /** A property that no edge inside s leaves holds along a whole walk. */
  lemma {:induction false} WalkStays(g: Graph, s: set<Node>, t: set<Node>, p: seq<Node>, n: nat)
    requires IsWalk(g, s, p) && n < |p| && p[0] in t
    requires forall x, y :: x in t && x in s && y in s && Nbr(g, x, y) ==> y in t
    ensures p[n] in t
  {
    if n > 0 {
      WalkStays(g, s, t, p, n - 1);
      assert Nbr(g, p[n - 1], p[n - 1 + 1]);
    }
  }
}
