/** cmd/tools/bcomps.c: the search that collects the biconnected components of a graph. */
module Bcomps {
  import opened Undirected
  import opened BlockTheory
  import opened BcompsState
  import opened BcompsSteps
  import opened BcompsWalk

  // ---- the return from a child, put together ----

  lemma ReturnedTree(g: Graph, s0: State, s: State, s2: State, u: Node, k: nat, t: seq<Edge>, t2: seq<Edge>)
    requires Returned(g, s0, s, s2, u, k, t, t2)
    ensures var v := Other(g[u][k], u);
      GrownTree(T(s), T(s2), u, v) && ChainEdges(g, T(s), u, t) && ChainEdges(g, T(s2), v, t2)
  {
    ReturnedFacts(g, s0, s, s2, u, k, t, t2);
    hide Inv, HeadsDone, ChainEdges, Comparable, PathOk, LowPartial, Nbr, GraphOk;
    ChildOf(g, T(s2), Other(g[u][k], u));
  }

  lemma EdgeDown(g: Graph, d: Tree, u: Node, k: nat)
    requires GraphOk(g) && u in g && k < |g[u]| && u in d.num && Other(g[u][k], u) in d.num
    requires d.num[u] < d.num[Other(g[u][k], u)]
    ensures var v, e := Other(g[u][k], u), g[u][k];
      Owned(g, d, e, v) && Other(e, v) == u && Joins(e, v, u)
  {
    assert NodeOk(g, u);
    assert EdgeOk(g, u, g[u][k]);
  }

  /** The edges on the stack after the search of a child, before a block is taken off it. */
  lemma ReturnedEdges(g: Graph, s0: State, s: State, s2: State, u: Node, k: nat, t: seq<Edge>, t2: seq<Edge>)
    requires Returned(g, s0, s, s2, u, k, t, t2) && u in s2.low && Other(g[u][k], u) in s2.low
    ensures var v := Other(g[u][k], u);
      var s3 := Lower(s2, u, s2.low[v]);
      if Head(T(s3), v) then ChainEdges(g, T(s3), u, t) else ChainEdges(g, T(s3), u, t + [g[u][k]] + t2)
  {
    hide Walking, Walked, ChainEdges, GrownTree, TreeOk, Comparable, PathOk;
    var v := Other(g[u][k], u);
    var s3 := Lower(s2, u, s2.low[v]);
    ReturnedFacts(g, s0, s, s2, u, k, t, t2);
    ReturnedTree(g, s0, s, s2, u, k, t, t2);
    TreeGraph(g, T(s2));
    EdgeDown(g, T(s2), u, k);
    if Head(T(s2), v) {
      ChildStartsBlock(g, T(s), T(s2), u, v, t);
      LowerChains(g, s2, u, s3.low[u], t);
    } else {
      ChildJoinsChain(g, T(s), T(s2), u, v, t, g[u][k], t2);
      LowerChains(g, s2, u, s3.low[u], t + [g[u][k]] + t2);
    }
  }

  lemma TreeGraph(g: Graph, d: Tree)
    requires TreeOk(g, d)
    ensures GraphOk(g)
  {
  }

  /** The nodes of the edges popped when v starts a block. */
  lemma ReturnedBlock(g: Graph, s0: State, s: State, s2: State, u: Node, k: nat, t: seq<Edge>, t2: seq<Edge>)
    requires Returned(g, s0, s, s2, u, k, t, t2) && u in s2.low && Other(g[u][k], u) in s2.low
    ensures var v := Other(g[u][k], u);
      var s3 := Lower(s2, u, s2.low[v]);
      Head(T(s3), v) ==> Ends([g[u][k]] + t2) == Block(T(s3), v)
  {
    hide Walking, ChainEdges, TreeOk, Comparable, PathOk, Nbr, Search, Blocks, HeadsDone, Grown, LowBelow, Small, Anc;
    var v := Other(g[u][k], u);
    var s3 := Lower(s2, u, s2.low[v]);
    ReturnedFacts(g, s0, s, s2, u, k, t, t2);
    if Head(T(s3), v) {
      TreeGraph(g, T(s2));
      EdgeDown(g, T(s2), u, k);
      forall x | x in s2.num && Anc(T(s2), v, x) ensures LowBelow(g, T(s2), x) {
        BelowFinished(s2, v, x);
        assert LowOk(g, T(s2), x);
      }
      EndsAreBlock(g, T(s2), v, g[u][k], t2);
      SetLowExtends(g, s2, u, s3.low[u]);
      MembersFrame(s2, s3, v);
    }
  }

  /** The walk of u goes on after the search of its neighbour v. */
  lemma TreeEdge(g: Graph, s0: State, s: State, s2: State, u: Node, k: nat, t: seq<Edge>, t2: seq<Edge>)
    requires Returned(g, s0, s, s2, u, k, t, t2) && u in s2.low && Other(g[u][k], u) in s2.low
    ensures var v := Other(g[u][k], u);
      var s3 := Lower(s2, u, s2.low[v]);
      && v in s3.par && (Head(T(s3), v) <==> s2.low[v] >= s2.num[u])
      && if Head(T(s3), v)
         then Walking(g, s0, Close(s3, v, Block(T(s3), v)), u, k + 1, t)
         else Walking(g, s0, s3, u, k + 1, t + [g[u][k]] + t2)
  {
    hide ChainEdges, TreeOk, Comparable, PathOk, Nbr, Search, Lows, Blocks, HeadsDone, Grown, LowPartial, Block;
    var v := Other(g[u][k], u);
    var s3 := Lower(s2, u, s2.low[v]);
    ReturnedFacts(g, s0, s, s2, u, k, t, t2);
    ReturnedLow(g, s0, s, s2, u, k, t, t2);
    ReturnedEdges(g, s0, s, s2, u, k, t, t2);
    ReturnedGrown(g, s0, s, s2, u, v);
    SetLowKeeps(g, s2, u, s3.low[u]);
    SetLowExtends(g, s2, u, s3.low[u]);
    LowerGrown(s0, s2, u, s3.low[u]);
    LowIs(g, s0, s, s2, u, k, t, t2);
    if Head(T(s3), v) {
      CloseKeeps(g, s3, v);
      CloseSame(g, s0, s3, u, v, k + 1);
    } else {
      NotLate(s3, v);
    }
  }

  lemma LowIs(g: Graph, s0: State, s: State, s2: State, u: Node, k: nat, t: seq<Edge>, t2: seq<Edge>)
    requires Returned(g, s0, s, s2, u, k, t, t2) && u in s2.low && Other(g[u][k], u) in s2.low
    ensures var v := Other(g[u][k], u);
      && u in s2.num && v in s2.par && Finished(s2, v)
      && (Head(T(Lower(s2, u, s2.low[v])), v) <==> s2.low[v] >= s2.num[u])
  {
    hide Walking, ChainEdges, Inv, HeadsDone, Grown;
    ReturnedFacts(g, s0, s, s2, u, k, t, t2);
  }

  lemma NotLate(s: State, v: Node)
    requires HeadsDone(s, {v}) && !Head(T(s), v)
    ensures HeadsDone(s, {})
  {
  }

  lemma CloseSame(g: Graph, s0: State, s: State, u: Node, v: Node, k: nat)
    requires Grown(s0, s, u) && LowPartial(g, s, u, k) && v in s.par
    ensures var t := Close(s, v, Block(T(s), v)); Grown(s0, t, u) && LowPartial(g, t, u, k) && T(t) == T(s)
  {
    hide LowAttained, Block;
    var t := Close(s, v, Block(T(s), v));
    assert T(t) == T(s);
    forall i | 0 <= i < k ensures SeenAt(g, t, u, i) { assert SeenAt(g, s, u, i); }
  }

  // ---- the stack ----

  ghost predicate SeenStack(s: State, stk: seq<Edge>) {
    forall f :: f in stk ==> f.tail in s.num && f.head in s.num
  }

  /** What the stack holds when the search of u starts: no edge at u but the one that led there. */
  ghost predicate EntryStack(s: State, u: Node, stk: seq<Edge>) {
    forall f :: f in stk ==>
      && (f.tail == u || f.tail in s.num) && (f.head == u || f.head in s.num)
      && (Touches(f, u) ==> s.path != [] && Joins(f, u, s.path[|s.path| - 1]))
  }

  /** The edges at u that the stack holds when the loop is at index k. */
  ghost predicate AtNode(g: Graph, s: State, u: Node, k: nat, stk: seq<Edge>) {
    && u in s.num && u in g && k <= |g[u]| && SeenStack(s, stk)
    && forall f :: f in stk && Touches(f, u) ==>
         || (u in s.par && Joins(f, u, s.par[u]))
         || (Other(f, u) in s.num && s.num[Other(f, u)] > s.num[u])
         || f in g[u][..k]
  }

  ghost predicate NoParentEdge(s: State, u: Node, t: seq<Edge>) {
    forall f :: f in t ==> !(u in s.par && Joins(f, u, s.par[u]))
  }

  /** An edge is pushed at most once, so linking it into the stack destroys no other link. */
  lemma PushedOnce(g: Graph, s: State, u: Node, k: nat, stk: seq<Edge>)
    requires GraphOk(g) && u in g && k < |g[u]| && AtNode(g, s, u, k, stk)
    requires var z := Other(g[u][k], u);
      z !in s.num || (z != u && s.num[z] < s.num[u] && !(u in s.par && s.par[u] == z))
    ensures g[u][k] !in stk
  {
    assert NodeOk(g, u);
    assert EdgeOk(g, u, g[u][k]);
  }

  lemma StartStack(g: Graph, s0: State, u: Node, stk: seq<Edge>)
    requires EntryStack(s0, u, stk) && u in g && TreeOk(g, T(s0)) && u !in s0.num
    ensures AtNode(g, Reach(s0, u), u, 0, stk)
  {
    hide TreeOk;
    NotYetChild(g, s0, u);
  }

  lemma SkipStack(g: Graph, s: State, u: Node, k: nat, stk: seq<Edge>)
    requires AtNode(g, s, u, k, stk) && k < |g[u]|
    ensures AtNode(g, s, u, k + 1, stk)
  {
    assert forall f :: f in g[u][..k] ==> f in g[u][..k + 1];
  }

  lemma BackStack(g: Graph, s: State, u: Node, k: nat, stk: seq<Edge>, x: nat, t: seq<Edge>)
    requires GraphOk(g) && AtNode(g, s, u, k, stk) && k < |g[u]| && u in s.low && NoParentEdge(s, u, t)
    requires var z := Other(g[u][k], u); z in s.num && !(u in s.par && s.par[u] == z) && z != u
    ensures var s' := Lower(s, u, x);
      && AtNode(g, s', u, k + 1, stk) && AtNode(g, s', u, k + 1, stk + [g[u][k]])
      && NoParentEdge(s', u, t) && NoParentEdge(s', u, t + [g[u][k]])
  {
    SkipStack(g, s, u, k, stk);
    assert NodeOk(g, u);
    assert EdgeOk(g, u, g[u][k]);
    assert g[u][k] == g[u][..k + 1][k];
  }

  lemma DescendStack(g: Graph, s: State, u: Node, k: nat, stk: seq<Edge>)
    requires GraphOk(g) && AtNode(g, s, u, k, stk) && k < |g[u]| && Other(g[u][k], u) !in s.num
    requires s.path != [] && s.path[|s.path| - 1] == u
    ensures EntryStack(s, Other(g[u][k], u), stk + [g[u][k]])
    ensures Nbr(g, u, Other(g[u][k], u)) && Other(g[u][k], u) in g
  {
    assert NodeOk(g, u);
    assert EdgeOk(g, u, g[u][k]);
  }

  /** An edge that the search of v pushed leads at u, v's parent, to a node with a larger number. */
  ghost predicate LeadsDown(s: State, u: Node, f: Edge) {
    && u in s.num && f.tail in s.num && f.head in s.num
    && (Touches(f, u) ==> s.num[Other(f, u)] > s.num[u])
    && (u in s.par ==> !Joins(f, u, s.par[u]))
  }

  lemma LinkedAbove(g: Graph, s: State, u: Node, v: Node, f: Edge)
    requires TreeOk(g, T(s)) && Linked(g, T(s), v, f) && v in s.num && u in s.num && s.num[u] < s.num[v]
    ensures LeadsDown(s, u, f)
  {
    TreeGraph(g, T(s));
    if u in s.par { ChildOf(g, T(s), u); }
    hide TreeOk, GraphOk, Nbr;
    var w :| Owned(g, T(s), f, w) && Chain(T(s), v, w);
    OwnedNbr(g, T(s), f, w);
    ChainAnc(T(s), v, w);
    AncNum(T(s), v, w);
    hide Anc, Chain;
  }

  lemma PushedBelow(g: Graph, s: State, u: Node, v: Node, t: seq<Edge>)
    requires TreeOk(g, T(s)) && ChainEdges(g, T(s), v, t) && v in s.num && u in s.num && s.num[u] < s.num[v]
    ensures forall f :: f in t ==> LeadsDown(s, u, f)
  {
    forall f | f in t ensures LeadsDown(s, u, f) {
      var i :| 0 <= i < |t| && t[i] == f;
      assert Linked(g, T(s), v, t[i]);
      hide TreeOk, ChainEdges, LeadsDown, Linked;
      LinkedAbove(g, s, u, v, f);
    }
  }

  lemma ReturnedStack(g: Graph, s0: State, s: State, s2: State, u: Node, k: nat, t: seq<Edge>, t2: seq<Edge>,
                      stk: seq<Edge>)
    requires Returned(g, s0, s, s2, u, k, t, t2) && u in s2.low && Other(g[u][k], u) in s2.low
    requires AtNode(g, s, u, k, stk) && NoParentEdge(s, u, t)
    ensures var s3 := Lower(s2, u, s2.low[Other(g[u][k], u)]);
      && AtNode(g, s3, u, k + 1, stk + [g[u][k]] + t2) && AtNode(g, s3, u, k + 1, stk)
      && NoParentEdge(s3, u, t + [g[u][k]] + t2) && NoParentEdge(s3, u, t)
  {
    var v := Other(g[u][k], u);
    hide Walking, ChainEdges, TreeOk, Comparable, PathOk, AtNode, Grown, GrownTree, LeadsDown, NoParentEdge, Inv,
      HeadsDone;
    ReturnedFacts(g, s0, s, s2, u, k, t, t2);
    ReturnedTree(g, s0, s, s2, u, k, t, t2);
    TreeGraph(g, T(s2));
    EdgeDown(g, T(s2), u, k);
    PushedBelow(g, s2, u, v, t2);
    if u in s.par { ChildOf(g, T(s), u); }
    SkipStack(g, s, u, k, stk);
    KeptStack(g, s, Lower(s2, u, s2.low[v]), u, k + 1, stk);
    JoinedStack(g, s, s2, u, v, k, t, t2, stk);
  }

  lemma JoinedStack(g: Graph, s: State, s2: State, u: Node, v: Node, k: nat, t: seq<Edge>, t2: seq<Edge>,
    stk: seq<Edge>)
    requires u in g && k < |g[u]| && v == Other(g[u][k], u) && u in s2.low && v in s2.low && v in s2.num
    requires AtNode(g, Lower(s2, u, s2.low[v]), u, k + 1, stk) && NoParentEdge(s, u, t) && v !in s.num && u in s.num
    requires Joins(g[u][k], v, u) && u in s2.num && s2.num[u] < s2.num[v]
    requires (u in s.par <==> u in s2.par) && (u in s.par ==> s.par[u] == s2.par[u] && s.par[u] in s.num)
    requires forall f :: f in t2 ==> LeadsDown(s2, u, f)
    ensures var s3 := Lower(s2, u, s2.low[v]);
      && AtNode(g, s3, u, k + 1, stk + [g[u][k]] + t2)
      && NoParentEdge(s3, u, t + [g[u][k]] + t2) && NoParentEdge(s3, u, t)
  {
    assert g[u][k] == g[u][..k + 1][k];
  }

  lemma KeptStack(g: Graph, s: State, s3: State, u: Node, k: nat, stk: seq<Edge>)
    requires AtNode(g, s, u, k, stk) && Extends(T(s), T(s3))
    ensures AtNode(g, s3, u, k, stk)
  {
  }
}
