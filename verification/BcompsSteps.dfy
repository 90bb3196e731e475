/** Each step of the search of cmd/tools/bcomps.c keeps the invariant of `BcompsState`. */
module BcompsSteps {
  import opened Undirected
  import opened BlockTheory
  import opened BcompsState

  // ---- what a step leaves alone ----

  /** t follows s by a step that changes nothing at the nodes that were left, and whose new nodes
      are on the path. */
  ghost predicate Small(s: State, t: State) {
    && Extends(T(s), T(t))
    && (forall x :: Finished(s, x) ==> Finished(t, x) && x in s.low && x in t.low && t.low[x] == s.low[x])
    && (forall x :: x in t.num && x !in s.num ==> x in t.path)
  }

  lemma BelowFinished(s: State, r: Node, x: Node)
    requires PathOk(s) && Finished(s, r) && x in s.num && Anc(T(s), r, x)
    ensures Finished(s, x)
  {
    if x in s.path { FinishedNotAbove(s, r, x); }
  }

  lemma MembersFrame(s: State, t: State, r: Node)
    requires Small(s, t) && PathOk(s) && PathOk(t) && Finished(s, r)
    ensures Members(T(s), r) == Members(T(t), r)
  {
    hide PathOk;
    forall x | x in s.num && x != r && Anc(T(s), r, x) ensures x in s.low && x in t.low && s.low[x] == t.low[x] {
      BelowFinished(s, r, x);
    }
    forall w ensures w in Members(T(s), r) <==> w in Members(T(t), r) {
      if w in s.num {
        ChainSame(T(s), T(t), r, w);
      } else if w in Members(T(t), r) {
        ChainAnc(T(t), r, w);
        FinishedNotAbove(t, r, w);
      }
    }
  }

  lemma BlocksFrame(g: Graph, s: State, t: State)
    requires Small(s, t) && PathOk(s) && PathOk(t) && Blocks(s)
    requires t.heads == s.heads && t.blks == s.blks && t.cut == s.cut
    ensures Blocks(t)
  {
    hide PathOk;
    forall i | 0 <= i < |t.heads| ensures BlockAt(t, i) {
      assert BlockAt(s, i);
      MembersFrame(s, t, s.heads[i]);
    }
    forall i | 0 <= i < |t.heads|
      ensures t.heads[i] in s.par && t.heads[i] in t.par && t.par[t.heads[i]] == s.par[t.heads[i]] {
      assert BlockAt(s, i);
    }
  }

  lemma HeadsFrame(s: State, t: State, late: set<Node>)
    requires Small(s, t) && HeadsDone(s, late) && t.heads == s.heads
    requires forall x :: Finished(t, x) ==> Finished(s, x)
    ensures HeadsDone(t, late)
  {
    forall c | Finished(t, c) && Head(T(t), c) && c !in late ensures c in t.heads {
      assert Finished(s, c) && Head(T(s), c);
    }
  }

  /** A low value stays right if the tree below the node and its neighbours stay as they are. */
  lemma LowFrame(g: Graph, s: State, t: State, w: Node)
    requires Small(s, t) && LowOk(g, T(s), w) && Finished(s, w)
    requires forall c :: c in t.par && c in t.num && t.par[c] == w ==> c in s.num && Finished(s, c)
    requires t.par.Keys <= t.num.Keys && s.par.Keys <= s.num.Keys && PathOk(s)
    ensures LowOk(g, T(t), w)
  {
    hide PathOk, Nbr;
    forall z ensures Seen(g, T(t), w, z) <==> Seen(g, T(s), w, z) {}
    assert LowBelow(g, T(t), w);
    var down, z := LowSource(g, T(s), w);
    if down {
      assert Anc(T(s), w, z) || !HasUp(T(s), z);
      assert z in t.par && t.par[z] == w;
    }
  }

  // ---- reaching a node ----

  lemma ReachSmall(g: Graph, s: State, u: Node)
    requires TreeOk(g, T(s)) && PathOk(s) && CanReach(g, s, u) && Bounded(T(s), s.count)
    ensures Small(s, Reach(s, u))
  {
    hide PathOk, Nbr, Bounded, GraphOk;
    ReachExtends(g, s, u);
  }

  lemma ReachPath(s: State, u: Node)
    requires PathOk(s) && u !in s.num && (u in s.par ==> u in s.num)
    ensures PathOk(Reach(s, u))
  {
    var t := Reach(s, u);
    forall i | 0 < i < |t.path| ensures t.path[i] in t.par && t.par[t.path[i]] == t.path[i - 1] {
      if i < |s.path| { PathStep(s, i); }
    }
  }

  lemma ReachTree(g: Graph, s: State, u: Node)
    requires TreeOk(g, T(s)) && PathOk(s) && CanReach(g, s, u) && Bounded(T(s), s.count)
    ensures TreeOk(g, T(Reach(s, u))) && Bounded(T(Reach(s, u)), Reach(s, u).count)
  {
    hide Nbr, GraphOk;
    ReachExtends(g, s, u);
    var d, e := T(s), T(Reach(s, u));
    if s.path != [] { OnPath(s, |s.path| - 1); }
    forall v | v in e.par ensures HasUp(e, v) && Nbr(g, e.par[v], v) {
      if v != u { ChildOf(g, d, v); }
    }
  }

  lemma ReachComparable(g: Graph, s: State, u: Node)
    requires Search(g, s) && CanReach(g, s, u)
    ensures Comparable(g, T(Reach(s, u)))
  {
    hide Nbr, PathAbove, NbrsReached, TreeOk, PathOk, Bounded;
    var d, e := T(s), T(Reach(s, u));
    ReachExtends(g, s, u);
    forall a, b | a in e.num && b in e.num && Nbr(g, a, b) && e.num[a] < e.num[b] ensures Anc(e, a, b) {
      if b == u {
        SearchGraph(g, s);
        NbrSymmetric(g, a, b);
        NbrOnPath(g, s, u, a);
        PathAboveNew(g, s, u, a);
      } else if a != u {
        AncSame(d, e, a, b);
      } else {
        WithinBound(d, b, s.count);
      }
    }
  }

  lemma SearchGraph(g: Graph, s: State)
    requires Search(g, s)
    ensures GraphOk(g)
  {
  }

  lemma ReachPathAbove(g: Graph, s: State, u: Node)
    requires Search(g, s) && CanReach(g, s, u)
    ensures PathAbove(Reach(s, u))
  {
    hide Nbr, Comparable, NbrsReached, TreeOk, PathOk, Bounded;
    var t := Reach(s, u);
    ReachExtends(g, s, u);
    forall a, w | a in t.path && a in t.num && w in t.num && t.num[w] >= t.num[a] ensures Anc(T(t), a, w) {
      if a == u {
        if w != u { WithinBound(T(s), w, s.count); }
      } else {
        assert a in s.path;
        if w == u {
          PathAboveNew(g, s, u, a);
        } else {
          PathInNum(s, a);
          AncSame(T(s), T(t), a, w);
        }
      }
    }
  }

  lemma PathInNum(s: State, a: Node)
    requires PathOk(s) && a in s.path
    ensures a in s.num
  {
  }

  /** A new node gets the next number and goes under the node that is being searched. */
  lemma ReachKeeps(g: Graph, s: State, u: Node)
    requires Inv(g, s) && HeadsDone(s, {}) && CanReach(g, s, u)
    ensures Inv(g, Reach(s, u)) && HeadsDone(Reach(s, u), {}) && Small(s, Reach(s, u))
  {
    hide Nbr, Comparable, PathAbove, TreeOk, PathOk, Bounded, Small, LowOk, HeadsDone, BlockAt;
    var t := Reach(s, u);
    ReachSmall(g, s, u);
    NotYetChild(g, s, u);
    ReachPath(s, u);
    ReachTree(g, s, u);
    ReachComparable(g, s, u);
    ReachPathAbove(g, s, u);
    forall w | Finished(t, w) ensures NbrsReached(g, t, w) && LowOk(g, T(t), w) {
      assert Finished(s, w) by { PathOfReach(s, u, w); }
      assert NbrsReached(g, s, w);
      ReachLow(g, s, u, w);
    }
    BlocksFrame(g, s, t);
    forall w | Finished(t, w) ensures Finished(s, w) { PathOfReach(s, u, w); }
    HeadsFrame(s, t, {});
  }

  lemma PathOfReach(s: State, u: Node, w: Node)
    ensures Finished(Reach(s, u), w) ==> Finished(s, w)
  {
    assert s.path + [u] == Reach(s, u).path;
    assert u in Reach(s, u).path by { assert Reach(s, u).path[|s.path|] == u; }
    assert w in s.path ==> w in Reach(s, u).path;
  }

  lemma NotYetChild(g: Graph, s: State, u: Node)
    requires TreeOk(g, T(s)) && u !in s.num
    ensures u !in s.par
  {
  }

  lemma ReachLow(g: Graph, s: State, u: Node, w: Node)
    requires TreeOk(g, T(s)) && TreeOk(g, T(Reach(s, u))) && Small(s, Reach(s, u)) && PathOk(s)
    requires Finished(s, w) && LowOk(g, T(s), w) && u !in s.num
    ensures LowOk(g, T(Reach(s, u)), w)
  {
    hide LowOk, Nbr, GraphOk;
    var t := Reach(s, u);
    forall c | c in t.par && c in t.num && t.par[c] == w ensures c in s.num && Finished(s, c) {
      assert c != u;
      ChildOf(g, T(s), c);
      BelowFinished(s, w, c);
    }
    LowFrame(g, s, t, w);
  }

  // ---- lowering a low value, leaving a node, closing a block ----

  lemma SameTreeAnc(s: State, t: State, a: Node, b: Node)
    requires Extends(T(s), T(t)) && b in s.num && Anc(T(s), a, b)
    ensures Anc(T(t), a, b)
  {
    AncSame(T(s), T(t), a, b);
  }

  lemma SetLowExtends(g: Graph, s: State, u: Node, x: nat)
    requires TreeOk(g, T(s)) && u in s.path && PathOk(s)
    ensures Small(s, SetLow(s, u, x)) && TreeOk(g, T(SetLow(s, u, x))) && PathOk(SetLow(s, u, x))
    ensures Extends(T(s), T(SetLow(s, u, x)))
  {
    hide Nbr, GraphOk;
    PathInNum(s, u);
  }

  lemma SetLowSearch(g: Graph, s: State, u: Node, x: nat)
    requires Search(g, s) && u in s.path
    ensures Search(g, SetLow(s, u, x))
  {
    hide Nbr, TreeOk, PathOk, Bounded;
    var t := SetLow(s, u, x);
    SetLowExtends(g, s, u, x);
    forall a, b | a in t.num && b in t.num && Nbr(g, a, b) && t.num[a] < t.num[b] ensures Anc(T(t), a, b) {
      SameTreeAnc(s, t, a, b);
    }
    forall a, w | a in t.path && a in t.num && w in t.num && t.num[w] >= t.num[a] ensures Anc(T(t), a, w) {
      SameTreeAnc(s, t, a, w);
    }
    assert Bounded(T(t), t.count) by { BoundedSame(T(s), T(t), s.count); }
    forall w | Finished(t, w) ensures NbrsReached(g, t, w) {
      assert Finished(s, w) && NbrsReached(g, s, w);
    }
  }

  lemma BoundedSame(d: Tree, e: Tree, n: nat)
    requires Bounded(d, n) && e.num == d.num
    ensures Bounded(e, n)
  {
  }

  lemma SetLowKeeps(g: Graph, s: State, u: Node, x: nat)
    requires Inv(g, s) && u in s.path
    ensures Inv(g, SetLow(s, u, x)) && Small(s, SetLow(s, u, x))
    ensures forall late :: HeadsDone(s, late) ==> HeadsDone(SetLow(s, u, x), late)
  {
    hide Search, LowOk, BlockAt, TreeOk, PathOk, HeadsDone, Small;
    SearchParts(g, s);
    var t := SetLow(s, u, x);
    SetLowExtends(g, s, u, x);
    SetLowSearch(g, s, u, x);
    forall w | Finished(t, w) ensures LowOk(g, T(t), w) {
      assert Finished(s, w);
      OtherLow(g, s, u, x, w);
    }
    BlocksFrame(g, s, t);
    forall late | HeadsDone(s, late) ensures HeadsDone(t, late) { HeadsFrame(s, t, late); }
  }

  lemma SearchParts(g: Graph, s: State)
    requires Search(g, s)
    ensures TreeOk(g, T(s)) && PathOk(s) && GraphOk(g) && Bounded(T(s), s.count) && s.num.Keys <= g.Keys
    ensures Comparable(g, T(s))
  {
  }

  lemma OtherLow(g: Graph, s: State, u: Node, x: nat, w: Node)
    requires TreeOk(g, T(s)) && PathOk(s) && u in s.path && Finished(s, w) && LowOk(g, T(s), w)
    ensures LowOk(g, T(SetLow(s, u, x)), w)
  {
    hide LowOk, Nbr, GraphOk;
    var t := SetLow(s, u, x);
    SetLowExtends(g, s, u, x);
    forall c | c in t.par && c in t.num && t.par[c] == w ensures c in s.num && Finished(s, c) {
      ChildOf(g, T(s), c);
      BelowFinished(s, w, c);
    }
    LowFrame(g, s, t, w);
  }

  /** The current node is left when its low value is final and its neighbours are reached. */
  lemma LeaveKeeps(g: Graph, s: State)
    requires Inv(g, s) && HeadsDone(s, {}) && s.path != []
    requires var u := s.path[|s.path| - 1]; LowOk(g, T(s), u) && NbrsReached(g, s, u)
    ensures var u := s.path[|s.path| - 1];
      Inv(g, Leave(s)) && HeadsDone(Leave(s), {u}) && Finished(Leave(s), u)
  {
    hide Nbr, Comparable, TreeOk, LowOk, Bounded, Head;
    var t, u := Leave(s), s.path[|s.path| - 1];
    assert s.path == t.path + [u];
    forall w | Finished(t, w) ensures Finished(s, w) || w == u {}
    assert PathOk(t);
    assert u in s.num && u !in t.path;
    forall w | Finished(t, w) ensures NbrsReached(g, t, w) {
      if w != u { assert NbrsReached(g, s, w); }
    }
    assert forall i :: 0 <= i < |s.heads| ==> BlockAt(s, i) ==> BlockAt(t, i);
  }

  lemma SearchSame(g: Graph, s: State, t: State)
    requires Search(g, s) && T(t) == T(s) && t.path == s.path && t.count == s.count
    ensures Search(g, t)
  {
    hide TreeOk, Comparable, Nbr;
    forall w | Finished(t, w) ensures NbrsReached(g, t, w) { assert NbrsReached(g, s, w); }
  }

  /** A block start that was left gets its block, and its parent the cut mark. */
  lemma CloseKeeps(g: Graph, s: State, v: Node)
    requires Inv(g, s) && HeadsDone(s, {v}) && Finished(s, v) && Head(T(s), v) && v in s.par && v !in s.heads
    ensures Inv(g, Close(s, v, Block(T(s), v))) && HeadsDone(Close(s, v, Block(T(s), v)), {})
  {
    hide Search, LowOk, Block, Head;
    var t := Close(s, v, Block(T(s), v));
    SearchSame(g, s, t);
    forall i | 0 <= i < |t.heads| ensures BlockAt(t, i) {
      if i < |s.heads| { assert BlockAt(s, i); }
    }
    forall u ensures u in t.cut <==>
      exists i :: 0 <= i < |t.heads| && t.heads[i] in t.par && t.par[t.heads[i]] == u {
      if u == s.par[v] { assert t.heads[|s.heads|] == v; }
      if u in s.cut {
        var i :| 0 <= i < |s.heads| && s.heads[i] in s.par && s.par[s.heads[i]] == u;
        assert t.heads[i] == s.heads[i];
      }
    }
    forall c | Finished(t, c) && Head(T(t), c) ensures c in t.heads {
      if c == v { assert t.heads[|s.heads|] == v; }
      else { assert c in s.heads; }
    }
  }
}
