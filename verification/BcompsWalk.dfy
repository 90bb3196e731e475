/** The edge stack of cmd/tools/bcomps.c, and what each round of the loop of dfs keeps. */
module BcompsWalk {
  import opened Undirected
  import opened BlockTheory
  import opened BcompsState
  import opened BcompsSteps

  predicate Touches(f: Edge, u: Node) {
    f.tail == u || f.head == u
  }

  predicate Joins(f: Edge, a: Node, b: Node) {
    (f.tail == a && f.head == b) || (f.tail == b && f.head == a)
  }

  /** w is the lower end of f. */
  ghost predicate Owned(g: Graph, d: Tree, f: Edge, w: Node) {
    w in d.num && w in g && f in g[w] && Other(f, w) in d.num && d.num[Other(f, w)] < d.num[w]
  }

  ghost predicate Linked(g: Graph, d: Tree, r: Node, f: Edge) {
    exists w :: Owned(g, d, f, w) && Chain(d, r, w)
  }

  predicate HasEdgeUp(t: seq<Edge>, d: Tree, w: Node) {
    w in d.par && exists i :: 0 <= i < |t| && Joins(t[i], w, d.par[w])
  }

  /** The edges t are edges of nodes linked to r, and hold for each such node one edge up. */
  ghost predicate ChainEdges(g: Graph, d: Tree, r: Node, t: seq<Edge>) {
    && (forall i :: 0 <= i < |t| ==> Linked(g, d, r, t[i]))
    && (forall w :: w in d.num && w != r && Chain(d, r, w) ==> HasEdgeUp(t, d, w))
  }

  ghost function Ends(t: seq<Edge>): set<Node> {
    (set f | f in t :: f.tail) + (set f | f in t :: f.head)
  }

  lemma InEnds(t: seq<Edge>, x: Node)
    ensures x in Ends(t) <==> exists i :: 0 <= i < |t| && Touches(t[i], x)
  {
    if x in Ends(t) {
      if f :| f in t && f.tail == x {
        var i :| 0 <= i < |t| && t[i] == f;
      } else {
        var f :| f in t && f.head == x;
        var i :| 0 <= i < |t| && t[i] == f;
      }
    }
    if i :| 0 <= i < |t| && Touches(t[i], x) {
      assert t[i] in t;
    }
  }

  lemma OwnedNbr(g: Graph, d: Tree, f: Edge, w: Node)
    requires GraphOk(g) && Owned(g, d, f, w)
    ensures Nbr(g, w, Other(f, w)) && Nbr(g, Other(f, w), w) && Joins(f, w, Other(f, w))
  {
    var i :| 0 <= i < |g[w]| && g[w][i] == f;
    assert NodeOk(g, w);
    assert EdgeOk(g, w, g[w][i]);
    NbrSymmetric(g, w, Other(f, w));
  }

  lemma EndInBlock(g: Graph, d: Tree, v: Node, e: Edge, t: seq<Edge>, i: nat)
    requires TreeOk(g, d) && Comparable(g, d) && Head(d, v) && v in d.num && Joins(e, v, d.par[v])
    requires ChainEdges(g, d, v, t) && forall x :: x in d.num && Anc(d, v, x) ==> LowBelow(g, d, x)
    requires i < |[e] + t|
    ensures ([e] + t)[i].tail in Block(d, v) && ([e] + t)[i].head in Block(d, v)
  {
    hide TreeOk, Comparable, Nbr, LowBelow, Anc;
    if i > 0 {
      assert Linked(g, d, v, t[i - 1]);
      var w :| Owned(g, d, t[i - 1], w) && Chain(d, v, w);
      LinkedInBlock(g, d, v, t[i - 1], w);
    }
  }

  lemma BlockInEnds(g: Graph, d: Tree, v: Node, e: Edge, t: seq<Edge>, x: Node)
    requires v in d.par && Joins(e, v, d.par[v]) && ChainEdges(g, d, v, t) && x in Block(d, v)
    ensures exists i :: 0 <= i < |[e] + t| && Touches(([e] + t)[i], x)
  {
    var p := [e] + t;
    if x == v || x == d.par[v] {
      assert Touches(p[0], x);
    } else {
      assert HasEdgeUp(t, d, x);
      var i :| 0 <= i < |t| && Joins(t[i], x, d.par[x]);
      assert Touches(p[i + 1], x);
    }
  }

  /** The edges popped for the block that starts at v span exactly that block. */
  lemma EndsAreBlock(g: Graph, d: Tree, v: Node, e: Edge, t: seq<Edge>)
    requires TreeOk(g, d) && Comparable(g, d) && Head(d, v) && v in d.num && Joins(e, v, d.par[v])
    requires ChainEdges(g, d, v, t) && forall x :: x in d.num && Anc(d, v, x) ==> LowBelow(g, d, x)
    ensures Ends([e] + t) == Block(d, v)
  {
    hide TreeOk, Comparable, LowBelow, Ends, Block, ChainEdges, Anc;
    var p := [e] + t;
    forall x ensures x in Ends(p) <==> x in Block(d, v) {
      InEnds(p, x);
      if x in Ends(p) {
        var i :| 0 <= i < |p| && Touches(p[i], x);
        EndInBlock(g, d, v, e, t, i);
      }
      if x in Block(d, v) { BlockInEnds(g, d, v, e, t, x); }
    }
  }

  lemma LinkedInBlock(g: Graph, d: Tree, v: Node, f: Edge, w: Node)
    requires TreeOk(g, d) && Comparable(g, d) && Head(d, v) && Owned(g, d, f, w) && Chain(d, v, w)
    requires forall x :: x in d.num && Anc(d, v, x) ==> LowBelow(g, d, x)
    ensures f.tail in Block(d, v) && f.head in Block(d, v)
  {
    OwnedNbr(g, d, f, w);
    assert Anc(d, Other(f, w), w);
    hide TreeOk, Comparable, Nbr, LowBelow;
    TopInBlock(g, d, v, w, Other(f, w), w);
  }

  // ---- the walk of one node ----

  /** s follows s0 inside the search of u: what was reached before is untouched, except for u. */
  ghost predicate Grown(s0: State, s: State, u: Node) {
    && Extends(T(s0), T(s)) && s0.count <= s.count
    && (forall x :: x in s0.num && x in s0.low ==> x in s.low && s.low[x] == s0.low[x])
    && (forall w :: w in s.num && w !in s0.num ==> Anc(T(s), u, w) && s.num[w] > s0.count)
  }

  /** The low value of u after the first k entries of its list. */
  ghost predicate LowPartial(g: Graph, s: State, u: Node, k: nat) {
    && u in g && k <= |g[u]| && u in s.num && u in s.low && s.low[u] <= s.num[u]
    && (forall i :: 0 <= i < k ==> SeenAt(g, s, u, i))
    && (forall c :: c in s.par && s.par[c] == u ==> c in s.low && s.low[u] <= s.low[c])
    && LowAttained(g, T(s), u)
  }

  ghost predicate SeenAt(g: Graph, s: State, u: Node, i: nat)
    requires u in g && i < |g[u]| && u in s.low
  {
    var z := Other(g[u][i], u);
    z in s.num && (z != u && !(u in s.par && s.par[u] == z) ==> s.low[u] <= s.num[z])
  }

  lemma LowComplete(g: Graph, s: State, u: Node)
    requires u in g && LowPartial(g, s, u, |g[u]|)
    ensures LowOk(g, T(s), u) && NbrsReached(g, s, u)
  {
    hide LowAttained;
    forall z | Nbr(g, u, z) ensures z in s.num && (Seen(g, T(s), u, z) ==> s.low[u] <= s.num[z]) {
      var i :| 0 <= i < |g[u]| && Other(g[u][i], u) == z;
      assert SeenAt(g, s, u, i);
    }
  }

  ghost predicate Walking(g: Graph, s0: State, s: State, u: Node, k: nat, t: seq<Edge>) {
    && Inv(g, s) && HeadsDone(s, {}) && u !in s0.num && s.path == s0.path + [u] && Grown(s0, s, u)
    && LowPartial(g, s, u, k) && ChainEdges(g, T(s), u, t)
    && (u in s.par <==> s0.path != []) && (s0.path != [] ==> s.par[u] == s0.path[|s0.path| - 1])
  }

  /** The search of u is over; v stands for u in the caller. */
  ghost predicate Walked(g: Graph, s0: State, s: State, u: Node, t: seq<Edge>) {
    && Inv(g, s) && HeadsDone(s, {u}) && u !in s.heads && u !in s0.num && s.path == s0.path && Finished(s, u)
    && Grown(s0, s, u) && ChainEdges(g, T(s), u, t)
    && (u in s.par <==> s0.path != []) && (s0.path != [] ==> s.par[u] == s0.path[|s0.path| - 1])
  }

  lemma StartWalk(g: Graph, s0: State, u: Node)
    requires Inv(g, s0) && HeadsDone(s0, {}) && CanReach(g, s0, u)
    ensures Walking(g, s0, Reach(s0, u), u, 0, [])
  {
    hide Search, Lows, Blocks, HeadsDone, Grown, TreeOk, Comparable, PathOk, LowPartial, Bounded;
    ReachKeeps(g, s0, u);
    SearchParts(g, s0);
    NotYetChild(g, s0, u);
    StartGrown(g, s0, u);
    StartLow(g, s0, u);
    StartChains(g, s0, u);
  }

  lemma StartChains(g: Graph, s0: State, u: Node)
    requires Bounded(T(s0), s0.count) && u !in s0.num
    ensures ChainEdges(g, T(Reach(s0, u)), u, [])
  {
    hide Bounded;
    var s := Reach(s0, u);
    forall w | w in s.num && w != u ensures !Chain(T(s), u, w) {
      if Chain(T(s), u, w) {
        ChainAnc(T(s), u, w);
        AncNum(T(s), u, w);
      }
      WithinBound(T(s0), w, s0.count);
    }
  }

  lemma StartGrown(g: Graph, s0: State, u: Node)
    requires TreeOk(g, T(s0)) && PathOk(s0) && CanReach(g, s0, u) && Bounded(T(s0), s0.count)
    ensures Grown(s0, Reach(s0, u), u)
  {
    ReachExtends(g, s0, u);
  }

  lemma StartLow(g: Graph, s0: State, u: Node)
    requires TreeOk(g, T(s0)) && PathOk(s0) && u !in s0.num && u in g
    ensures LowPartial(g, Reach(s0, u), u, 0)
  {
    var s := Reach(s0, u);
    hide TreeOk, PathOk;
    NotYetChild(g, s0, u);
    if s0.path != [] { OnPath(s0, |s0.path| - 1); }
    forall c | c in s.par && s.par[c] == u ensures false {
      if c != u { ChildOf(g, T(s0), c); }
    }
  }

  lemma EndWalk(g: Graph, s0: State, s: State, u: Node, t: seq<Edge>)
    requires u in g && Walking(g, s0, s, u, |g[u]|, t)
    ensures s.path != [] && Walked(g, s0, Leave(s), u, t)
  {
    LowComplete(g, s, u);
    NotHeadYet(s, u);
    hide Search, Lows, Blocks, HeadsDone, LowOk, LowPartial, ChainEdges, Grown;
    LeaveKeeps(g, s);
    assert Leave(s).path == s0.path;
    SameGrown(s0, s, u);
  }

  lemma NotHeadYet(s: State, u: Node)
    requires Blocks(s) && u in s.path
    ensures u !in s.heads
  {
    forall i | 0 <= i < |s.heads| ensures s.heads[i] != u { assert BlockAt(s, i); }
  }

  lemma SameGrown(s0: State, s: State, u: Node)
    requires Grown(s0, s, u) && s.path != []
    ensures Grown(s0, Leave(s), u)
  {
    assert T(Leave(s)) == T(s);
  }

  // ---- one round of the loop ----

  /** A loop, or an edge to the parent: nothing changes. */
  lemma SkipEdge(g: Graph, s0: State, s: State, u: Node, k: nat, t: seq<Edge>)
    requires u in g && k < |g[u]| && Walking(g, s0, s, u, k, t)
    requires Other(g[u][k], u) in s.num
    requires Other(g[u][k], u) == u || (u in s.par && Other(g[u][k], u) == s.par[u])
    ensures Walking(g, s0, s, u, k + 1, t)
  {
    hide Inv, HeadsDone, Grown, LowAttained, ChainEdges;
    assert SeenAt(g, s, u, k);
  }

  /** The smaller of the low value of u and x. */
  function Lower(s: State, u: Node, x: nat): State
    requires u in s.low
  {
    SetLow(s, u, if s.low[u] <= x then s.low[u] else x)
  }

  lemma LowerChains(g: Graph, s: State, u: Node, x: nat, t: seq<Edge>)
    requires TreeOk(g, T(s)) && u in s.num && u in s.low && ChainEdges(g, T(s), u, t)
    ensures ChainEdges(g, T(SetLow(s, u, x)), u, t)
  {
    var d, e := T(s), T(SetLow(s, u, x));
    SameTree(g, s, u, x);
    forall w | w in d.num ensures Chain(d, u, w) <==> Chain(e, u, w) { ChainSame(d, e, u, w); }
    hide TreeOk, Chain;
    forall i | 0 <= i < |t| ensures Linked(g, e, u, t[i]) {
      var w :| Owned(g, d, t[i], w) && Chain(d, u, w);
      assert Owned(g, e, t[i], w);
    }
    forall w | w in e.num && w != u && Chain(e, u, w) ensures HasEdgeUp(t, e, w) {
      assert HasEdgeUp(t, d, w);
    }
  }

  lemma SameTree(g: Graph, s: State, u: Node, x: nat)
    requires TreeOk(g, T(s)) && u in s.low
    ensures Extends(T(s), T(SetLow(s, u, x)))
    ensures forall v :: v in s.num && v != u ==>
      v in s.low && v in SetLow(s, u, x).low && s.low[v] == SetLow(s, u, x).low[v]
  {
    hide Nbr, GraphOk;
  }

  /** An edge to a reached node other than the parent: the low value of u may go down. */
  lemma BackLow(g: Graph, s: State, u: Node, k: nat)
    requires u in g && k < |g[u]| && LowPartial(g, s, u, k)
    requires var z := Other(g[u][k], u); z in s.num && z != u && !(u in s.par && s.par[u] == z)
    requires TreeOk(g, T(s))
    ensures LowPartial(g, Lower(s, u, s.num[Other(g[u][k], u)]), u, k + 1)
  {
    hide TreeOk;
    var z := Other(g[u][k], u);
    var t := Lower(s, u, s.num[z]);
    forall i | 0 <= i < k + 1 ensures SeenAt(g, t, u, i) {
      if i < k { assert SeenAt(g, s, u, i); }
    }
    forall c | c in t.par && t.par[c] == u ensures c in t.low && t.low[u] <= t.low[c] {
      ChildOf(g, T(s), c);
    }
    forall c | c in s.par && s.par[c] == u ensures c != u { ChildOf(g, T(s), c); }
    AttainedLower(g, s, u, z);
  }

  lemma AttainedLower(g: Graph, s: State, u: Node, z: Node)
    requires LowAttained(g, T(s), u) && Seen(g, T(s), u, z) && z in s.num
    requires forall c :: c in s.par && s.par[c] == u ==> c != u
    ensures LowAttained(g, T(Lower(s, u, s.num[z])), u)
  {
    var t := Lower(s, u, s.num[z]);
    assert Seen(g, T(t), u, z);
    if t.low[u] == s.low[u] {
      var down, y := LowSource(g, T(s), u);
      if down { assert t.low[y] == s.low[y]; }
      else if y != u { assert Seen(g, T(t), u, y); }
    }
  }

  lemma LowerGrown(s0: State, s: State, u: Node, x: nat)
    requires Grown(s0, s, u) && u !in s0.num && u in s.low && Extends(T(s), T(SetLow(s, u, x)))
    ensures Grown(s0, SetLow(s, u, x), u)
  {
    var t := SetLow(s, u, x);
    forall w | w in t.num && w !in s0.num ensures Anc(T(t), u, w) && t.num[w] > s0.count {
      AncSame(T(s), T(t), u, w);
    }
  }

  lemma BackEdge(g: Graph, s0: State, s: State, u: Node, k: nat, t: seq<Edge>)
    requires u in g && k < |g[u]| && Walking(g, s0, s, u, k, t)
    requires var z := Other(g[u][k], u); z in s.num && z != u && !(u in s.par && s.par[u] == z)
    ensures Walking(g, s0, Lower(s, u, s.num[Other(g[u][k], u)]), u, k + 1, t)
    ensures s.num[Other(g[u][k], u)] < s.num[u] ==>
      Walking(g, s0, Lower(s, u, s.num[Other(g[u][k], u)]), u, k + 1, t + [g[u][k]])
  {
    hide Search, Lows, Blocks, HeadsDone, Grown, ChainEdges, TreeOk, LowPartial, PathOk, GraphOk, Comparable, Bounded,
      Nbr, Small, Extends;
    SearchParts(g, s);
    assert u in s.path by { assert s.path[|s0.path|] == u; }
    PartialSelf(g, s, u, k);
    var z := Other(g[u][k], u);
    var t' := Lower(s, u, s.num[z]);
    SetLowKeeps(g, s, u, t'.low[u]);
    BackLow(g, s, u, k);
    SameTree(g, s, u, t'.low[u]);
    LowerGrown(s0, s, u, t'.low[u]);
    LowerChains(g, s, u, t'.low[u], t);
    if s.num[z] < s.num[u] {
      OneMore(g, T(t'), u, t, g[u][k]);
    }
  }

  lemma PartialSelf(g: Graph, s: State, u: Node, k: nat)
    requires LowPartial(g, s, u, k)
    ensures u in s.num && u in s.low
  {
  }

  lemma OneMore(g: Graph, d: Tree, u: Node, t: seq<Edge>, e: Edge)
    requires ChainEdges(g, d, u, t) && Owned(g, d, e, u)
    ensures ChainEdges(g, d, u, t + [e])
  {
    var p := t + [e];
    forall i | 0 <= i < |p| ensures Linked(g, d, u, p[i]) {
      if i < |t| { assert p[i] == t[i]; }
    }
    forall w | w in d.num && w != u && Chain(d, u, w) ensures HasEdgeUp(p, d, w) {
      var i :| 0 <= i < |t| && Joins(t[i], w, d.par[w]);
      assert p[i] == t[i];
    }
  }

  // ---- after the search of a child ----

  /** s2 is the state when the search of v, reached from u in s by the edge e, is over. */
  ghost predicate Returned(g: Graph, s0: State, s: State, s2: State, u: Node, k: nat, t: seq<Edge>, t2: seq<Edge>) {
    && u in g && k < |g[u]| && Walking(g, s0, s, u, k, t) && Other(g[u][k], u) !in s.num
    && Walked(g, s, s2, Other(g[u][k], u), t2)
  }

  lemma ReturnedFacts(g: Graph, s0: State, s: State, s2: State, u: Node, k: nat, t: seq<Edge>, t2: seq<Edge>)
    requires Returned(g, s0, s, s2, u, k, t, t2)
    ensures var v := Other(g[u][k], u);
      && u in s.num && u in s.low && u in s2.num && s2.num[u] == s.num[u] && s.num[u] <= s.count
      && u in s2.low && s2.low[u] == s.low[u] && (u in s.par <==> u in s2.par) && (u in s.par ==> s.par[u] == s2.par[u])
      && v in s2.num && v in s2.low && s2.num[v] > s.count && s2.low[v] <= s2.num[v]
      && v in s2.par && s2.par[v] == u && v != u && Extends(T(s), T(s2)) && u in s2.path
      && TreeOk(g, T(s2)) && PathOk(s2) && Comparable(g, T(s2)) && TreeOk(g, T(s))
  {
    var v := Other(g[u][k], u);
    SearchParts(g, s);
    SearchParts(g, s2);
    assert s.path[|s0.path|] == u;
    hide Search, Blocks, HeadsDone, TreeOk, Comparable, PathOk, ChainEdges;
    WithinBound(T(s), u, s.count);
    assert LowOk(g, T(s2), v);
  }

  /** Nothing that the search of v reached hangs on u, but for v. */
  lemma OnlyChild(g: Graph, s: State, s2: State, u: Node, v: Node, c: Node)
    requires Grown(s, s2, v) && u in s2.num && v in s2.num && s2.num[u] < s2.num[v]
    requires c in s2.num && c !in s.num && c in s2.par && s2.par[c] == u
    ensures c == v
  {
    if c != v { AncNum(T(s2), v, u); }
  }

  lemma ReturnedLow(g: Graph, s0: State, s: State, s2: State, u: Node, k: nat, t: seq<Edge>, t2: seq<Edge>)
    requires Returned(g, s0, s, s2, u, k, t, t2)
    requires u in s2.low && Other(g[u][k], u) in s2.low
    ensures LowPartial(g, Lower(s2, u, s2.low[Other(g[u][k], u)]), u, k + 1)
  {
    hide TreeOk, Comparable, PathOk, Inv, HeadsDone, ChainEdges;
    var v := Other(g[u][k], u);
    ReturnedFacts(g, s0, s, s2, u, k, t, t2);
    PartialReturned(g, s, s2, u, v, k);
  }

  lemma PartialReturned(g: Graph, s: State, s2: State, u: Node, v: Node, k: nat)
    requires LowPartial(g, s, u, k) && Grown(s, s2, v) && TreeOk(g, T(s)) && TreeOk(g, T(s2))
    requires k < |g[u]| && v == Other(g[u][k], u)
    requires v in s2.par && s2.par[v] == u && v in s2.low && u in s2.low && v != u && v in s2.num
    requires u in s2.num && s2.low[u] == s.low[u] && s2.num[u] == s.num[u] < s2.num[v]
    requires s2.low[v] <= s2.num[v]
    requires (u in s.par <==> u in s2.par) && (u in s.par ==> s.par[u] == s2.par[u])
    ensures LowPartial(g, Lower(s2, u, s2.low[v]), u, k + 1)
  {
    hide TreeOk, LowAttained;
    var s3 := Lower(s2, u, s2.low[v]);
    forall i | 0 <= i < k + 1 ensures SeenAt(g, s3, u, i) {
      if i < k { assert SeenAt(g, s, u, i); }
    }
    forall c | c in s3.par && s3.par[c] == u ensures c in s3.low && s3.low[u] <= s3.low[c] {
      ChildOf(g, T(s2), c);
      if c !in s.num { OnlyChild(g, s, s2, u, v, c); }
    }
    ReturnedAttained(g, s, s2, u, v);
  }

  lemma ReturnedAttained(g: Graph, s: State, s2: State, u: Node, v: Node)
    requires LowAttained(g, T(s), u) && Grown(s, s2, v) && TreeOk(g, T(s)) && TreeOk(g, T(s2))
    requires v in s2.par && s2.par[v] == u && v in s2.low && u in s2.low && v != u
    requires u in s.num && u in s2.num && s2.low[u] == s.low[u]
    requires (u in s.par <==> u in s2.par) && (u in s.par ==> s.par[u] == s2.par[u])
    ensures LowAttained(g, T(Lower(s2, u, s2.low[v])), u)
  {
    hide TreeOk;
    var s3 := Lower(s2, u, s2.low[v]);
    if s3.low[u] == s.low[u] {
      var down, y := LowSource(g, T(s), u);
      if down {
        ChildOf(g, T(s), y);
        assert s3.low[y] == s.low[y];
      } else if y != u {
        assert Seen(g, T(s3), u, y);
      }
    } else {
      assert s3.low[v] == s3.low[u];
    }
  }

  lemma ReturnedGrown(g: Graph, s0: State, s: State, s2: State, u: Node, v: Node)
    requires Grown(s0, s, u) && Grown(s, s2, v) && u in s.num && u !in s0.num
    requires v in s2.par && s2.par[v] == u && HasUp(T(s2), v)
    ensures Grown(s0, s2, u)
  {
    forall w | w in s2.num && w !in s0.num ensures Anc(T(s2), u, w) && s2.num[w] > s0.count {
      if w in s.num {
        AncSame(T(s), T(s2), u, w);
      } else {
        assert Anc(T(s2), u, v);
        AncTrans(T(s2), u, v, w);
      }
    }
  }

  /** A chain from u that goes below its child v is a chain from v, and v starts no block. */
  lemma {:induction false} ChainThrough(d: Tree, u: Node, v: Node, w: Node)
    requires Chain(d, u, w) && Anc(d, v, w) && HasUp(d, v) && d.par[v] == u && w in d.num
    ensures Chain(d, v, w) && !Head(d, v)
    decreases Rank(d, w)
  {
    AncNum(d, v, w);
    if w != v { ChainThrough(d, u, v, d.par[w]); }
  }

  lemma {:induction false} ChainOver(d: Tree, u: Node, v: Node, w: Node)
    requires Chain(d, v, w) && HasUp(d, v) && d.par[v] == u && !Head(d, v)
    ensures Chain(d, u, w)
    decreases Rank(d, w)
  {
    if w != v { ChainOver(d, u, v, d.par[w]); }
  }

  /** d2 is the tree d grown below v, a new child of u. */
  ghost predicate GrownTree(d: Tree, d2: Tree, u: Node, v: Node) {
    && Extends(d, d2) && u in d.num && v !in d.num && HasUp(d2, v) && d2.par[v] == u && d.low.Keys == d.num.Keys
    && (forall x :: x in d.num && x in d.low ==> x in d2.low && d2.low[x] == d.low[x])
    && (forall w :: w in d2.num && w !in d.num ==> Anc(d2, v, w))
  }

  lemma OldChain(d: Tree, d2: Tree, u: Node, v: Node, w: Node)
    requires GrownTree(d, d2, u, v) && w in d.num
    ensures Chain(d, u, w) <==> Chain(d2, u, w)
  {
    ChainSame(d, d2, u, w);
  }

  lemma NewChain(d: Tree, d2: Tree, u: Node, v: Node, w: Node)
    requires GrownTree(d, d2, u, v) && w in d2.num && w !in d.num && Chain(d2, u, w)
    ensures Chain(d2, v, w) && !Head(d2, v)
  {
    ChainThrough(d2, u, v, w);
  }

  lemma OldLinked(g: Graph, d: Tree, d2: Tree, u: Node, v: Node, f: Edge)
    requires GrownTree(d, d2, u, v) && Linked(g, d, u, f)
    ensures Linked(g, d2, u, f)
  {
    var w :| Owned(g, d, f, w) && Chain(d, u, w);
    OldChain(d, d2, u, v, w);
    assert Owned(g, d2, f, w);
  }

  lemma OldEdgeUp(d: Tree, d2: Tree, u: Node, v: Node, t: seq<Edge>, w: Node)
    requires GrownTree(d, d2, u, v) && HasEdgeUp(t, d, w) && w in d.num
    ensures HasEdgeUp(t, d2, w)
  {
  }

  lemma ChildStartsBlock(g: Graph, d: Tree, d2: Tree, u: Node, v: Node, t: seq<Edge>)
    requires GrownTree(d, d2, u, v) && ChainEdges(g, d, u, t) && Head(d2, v)
    ensures ChainEdges(g, d2, u, t)
  {
    hide GrownTree, Head;
    forall i | 0 <= i < |t| ensures Linked(g, d2, u, t[i]) { OldLinked(g, d, d2, u, v, t[i]); }
    forall w | w in d2.num && w != u && Chain(d2, u, w) ensures HasEdgeUp(t, d2, w) {
      if w !in d.num { NewChain(d, d2, u, v, w); }
      OldChain(d, d2, u, v, w);
      OldEdgeUp(d, d2, u, v, t, w);
    }
  }

  lemma Concat3(t: seq<Edge>, e: Edge, t2: seq<Edge>, i: nat)
    requires i < |t + [e] + t2|
    ensures (t + [e] + t2)[i] == if i < |t| then t[i] else if i == |t| then e else t2[i - |t| - 1]
  {
  }

  lemma ChildJoinsChain(g: Graph, d: Tree, d2: Tree, u: Node, v: Node, t: seq<Edge>, e: Edge, t2: seq<Edge>)
    requires GrownTree(d, d2, u, v) && ChainEdges(g, d, u, t) && ChainEdges(g, d2, v, t2) && !Head(d2, v)
    requires Owned(g, d2, e, v) && Other(e, v) == u && Joins(e, v, u)
    ensures ChainEdges(g, d2, u, t + [e] + t2)
  {
    var p := t + [e] + t2;
    forall i | 0 <= i < |p| ensures Linked(g, d2, u, p[i]) {
      Concat3(t, e, t2, i);
      if i < |t| {
        OldLinked(g, d, d2, u, v, t[i]);
      } else if i > |t| {
        assert Linked(g, d2, v, t2[i - |t| - 1]);
        var w :| Owned(g, d2, p[i], w) && Chain(d2, v, w);
        ChainOver(d2, u, v, w);
      } else {
        ChainOver(d2, u, v, v);
      }
    }
    forall w | w in d2.num && w != u && Chain(d2, u, w) ensures HasEdgeUp(p, d2, w) {
      if w in d.num {
        OldChain(d, d2, u, v, w);
        var i :| 0 <= i < |t| && Joins(t[i], w, d.par[w]);
        assert p[i] == t[i];
      } else if w == v {
        assert p[|t|] == e;
      } else {
        NewChain(d, d2, u, v, w);
        var i :| 0 <= i < |t2| && Joins(t2[i], w, d2.par[w]);
        assert p[|t| + 1 + i] == t2[i];
      }
    }
  }
}
