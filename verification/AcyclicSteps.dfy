/** The steps of cmd/tools/acyclic.c on values: entering a node, reversing an edge that closes a
    cycle, leaving a node; and the invariant that each of them keeps. */
module AcyclicSteps {
  import opened Options
  import opened Digraph

  /** `fin` lists the finished nodes in the order in which they finished, `stack` the nodes that
      are being walked, and `cyc` says that some edge was found to close a cycle. */
  datatype State = State(
    out: Out, nextId: nat, mark: set<Node>, onstack: set<Node>,
    fin: seq<Node>, stack: seq<Node>, cyc: bool)

  function RemoveAt(s: seq<Edge>, k: nat): seq<Edge>
    requires k < |s|
  {
    s[..k] + s[k + 1..]
  }

  /** The test before addRevEdge: in a strict graph any edge back will do, otherwise only one with
      the same key, and an edge without a key is always reversed. */
  predicate NeedsReverse(out: Out, strict: bool, e: Edge)
    requires e.head in out
  {
    if strict then !HasEdge(out, e.head, e.tail)
    else e.key.None? || forall i :: 0 <= i < |out[e.head]| ==>
      !(out[e.head][i].head == e.tail && out[e.head][i].key == e.key)
  }

  function Mirror(e: Edge, id: nat): Edge {
    Edge(id, e.head, e.tail, e.key)
  }

  /** addRevEdge: the new edge has the same key and goes to the end of its tail's list. */
  function AddReverse(s: State, e: Edge): State
    requires e.head in s.out
  {
    s.(out := s.out[e.head := s.out[e.head] + [Mirror(e, s.nextId)]], nextId := s.nextId + 1)
  }

  function DeleteAt(s: State, t: Node, k: nat): State
    requires t in s.out && k < |s.out[t]|
  {
    s.(out := s.out[t := RemoveAt(s.out[t], k)], cyc := true)
  }

  function ReverseAt(s: State, strict: bool, t: Node, k: nat): State
    requires t in s.out && k < |s.out[t]| && s.out[t][k].head in s.out && s.out[t][k].head != t
  {
    var e := s.out[t][k];
    DeleteAt(if NeedsReverse(s.out, strict, e) then AddReverse(s, e) else s, t, k)
  }

  function Enter(s: State, t: Node): State {
    s.(mark := s.mark + {t}, onstack := s.onstack + {t}, stack := s.stack + [t])
  }

  function Top(s: State): Node
    requires s.stack != []
  {
    s.stack[|s.stack| - 1]
  }

  function Leave(s: State): State
    requires s.stack != []
  {
    var t := Top(s);
    s.(onstack := s.onstack - {t}, stack := s.stack[..|s.stack| - 1], fin := s.fin + [t])
  }

  // ---- the invariant ----

  ghost predicate Colors(s: State) {
    && s.mark <= s.out.Keys && s.onstack <= s.mark
    && (forall i, j :: 0 <= i < j < |s.stack| ==> s.stack[i] != s.stack[j])
    && (forall n :: n in s.stack <==> n in s.onstack)
    && (forall n :: n in s.fin <==> n in s.mark && n !in s.onstack)
  }

  /** x stands above a on the stack. */
  ghost predicate Above(s: State, a: Node, x: Node) {
    exists i, j :: 0 <= i < j < |s.stack| && s.stack[i] == a && s.stack[j] == x
  }

  /** An edge that the original graph does not have leads to a finished node or up the stack, so
      no walk ever descends along it and none is ever reversed again. */
  ghost predicate NewEdgesLate(s: State, orig: Out) {
    forall n, i :: n in s.out && 0 <= i < |s.out[n]| && s.out[n][i] !in EdgeSet(orig) ==>
      s.out[n][i].head in s.fin || Above(s, n, s.out[n][i].head)
  }

  ghost predicate SameAdjacency(out: Out, orig: Out) {
    forall u, v :: Adjacent(out, u, v) <==> Adjacent(orig, u, v)
  }

  ghost predicate Reverses(e: Edge, d: Edge) {
    d.tail == e.head && d.head == e.tail && d.key == e.key
  }

  /** Every edge is an original one or the mirror of an original one that is gone. */
  ghost predicate Accounted(out: Out, orig: Out) {
    forall e :: e in EdgeSet(out) && e !in EdgeSet(orig) ==>
      exists d :: d in EdgeSet(orig) && d !in EdgeSet(out) && Reverses(e, d)
  }

  /** Until the first edge is reversed the graph is the original one and the stack a path in it. */
  ghost predicate Reported(s: State, orig: Out) {
    if s.cyc then Cyclic(orig) else s.out == orig && IsPath(orig, s.stack)
  }

  ghost predicate Inv(s: State, orig: Out) {
    && s.out.Keys == orig.Keys && WellFormed(s.out, s.nextId) && WellFormed(orig, s.nextId)
    && Colors(s) && Ordered(s.out, s.fin) && NewEdgesLate(s, orig)
    && SameAdjacency(s.out, orig) && Accounted(s.out, orig) && Reported(s, orig)
    && |EdgeSet(s.out)| <= |EdgeSet(orig)|
  }

  lemma InitialInv(orig: Out, nextId: nat)
    requires WellFormed(orig, nextId)
    ensures Inv(State(orig, nextId, {}, {}, [], [], false), orig)
  {
  }

  lemma EnterKeeps(s: State, orig: Out, t: Node)
    requires Inv(s, orig) && t in s.out && t !in s.mark
    requires !s.cyc && s.stack != [] ==> HasEdge(orig, s.stack[|s.stack| - 1], t)
    ensures Inv(Enter(s, t), orig)
  {
    hide SameAdjacency, Accounted, EdgeSet, WellFormed;
    var u := Enter(s, t);
    forall n, i | n in u.out && 0 <= i < |u.out[n]| && u.out[n][i] !in EdgeSet(orig)
      ensures u.out[n][i].head in u.fin || Above(u, n, u.out[n][i].head) {
      if Above(s, n, s.out[n][i].head) {
        var a, b :| 0 <= a < b < |s.stack| && s.stack[a] == n && s.stack[b] == s.out[n][i].head;
        assert u.stack[a] == n && u.stack[b] == s.out[n][i].head;
      }
    }
    assert forall k :: 0 <= k < |s.fin| ==> ListOrdered(s.out, s.fin, k) ==> ListOrdered(u.out, u.fin, k);
  }

  lemma LeaveOrdered(s: State, t: Node)
    requires Ordered(s.out, s.fin) && t in s.out
    requires forall i :: 0 <= i < |s.out[t]| ==> Settled(s.out[t][i], s.fin)
    ensures Ordered(s.out, s.fin + [t])
  {
    var fin := s.fin + [t];
    assert fin[..|s.fin|] == s.fin;
    forall k | 0 <= k < |fin| ensures ListOrdered(s.out, fin, k) {
      if k < |s.fin| {
        assert ListOrdered(s.out, s.fin, k) && fin[..k] == s.fin[..k];
      }
    }
  }

  lemma LeaveNewEdges(s: State, orig: Out)
    requires NewEdgesLate(s, orig) && s.stack != []
    ensures NewEdgesLate(Leave(s), orig)
  {
    hide EdgeSet;
    var u := Leave(s);
    forall n, i | n in u.out && 0 <= i < |u.out[n]| && u.out[n][i] !in EdgeSet(orig)
      ensures u.out[n][i].head in u.fin || Above(u, n, u.out[n][i].head) {
      var x := s.out[n][i].head;
      if x !in u.fin {
        var a, b :| 0 <= a < b < |s.stack| && s.stack[a] == n && s.stack[b] == x;
        assert b < |u.stack| && u.stack[a] == n && u.stack[b] == x;
      }
    }
  }

  lemma LeaveColors(s: State)
    requires Colors(s) && s.stack != []
    ensures Colors(Leave(s))
  {
    var u := Leave(s);
    assert s.stack == u.stack + [Top(s)];
  }

  /** A node is left when all its edges lead to finished nodes. */
  lemma LeaveKeeps(s: State, orig: Out)
    requires Inv(s, orig) && s.stack != []
    requires Top(s) in s.out && forall i :: 0 <= i < |s.out[Top(s)]| ==> Settled(s.out[Top(s)][i], s.fin)
    ensures Inv(Leave(s), orig)
  {
    hide SameAdjacency, Accounted, EdgeSet, WellFormed, Ordered, Colors, NewEdgesLate, HasEdge;
    LeaveColors(s);
    LeaveNewEdges(s, orig);
    LeaveOrdered(s, Top(s));
  }

  // ---- reversing an edge ----

  /** The edge at index k of the node on top of the stack leads to another node of the stack. */
  ghost predicate BackEdge(s: State, orig: Out, k: nat) {
    && Inv(s, orig) && s.stack != []
    && var t := Top(s);
      t in s.out && k < |s.out[t]| && s.out[t][k].head != t && s.out[t][k].head in s.onstack
  }

  lemma NothingAboveTop(s: State, x: Node)
    requires Colors(s) && s.stack != []
    ensures !Above(s, Top(s), x)
  {
  }

  /** Only original edges are ever reversed. */
  lemma BackEdgeOriginal(s: State, orig: Out, k: nat)
    requires BackEdge(s, orig, k)
    ensures s.out[Top(s)][k] in EdgeSet(orig) && Above(s, s.out[Top(s)][k].head, Top(s))
    ensures s.out[Top(s)][k].head in s.out && s.out[Top(s)][k].tail == Top(s)
  {
    hide SameAdjacency, Accounted, EdgeSet, Ordered;
    var t := Top(s);
    var h := s.out[t][k].head;
    assert ListOk(s.out, t, s.nextId);
    var j :| 0 <= j < |s.stack| && s.stack[j] == h;
    NothingAboveTop(s, h);
  }

  lemma InEdgeSet(out: Out, nextId: nat, d: Edge)
    requires WellFormed(out, nextId)
    ensures d in EdgeSet(out) <==> d.tail in out && d in out[d.tail]
    ensures d in EdgeSet(out) ==> d.id < nextId
  {
    if d in EdgeSet(out) {
      var n, i :| n in out && 0 <= i < |out[n]| && d == out[n][i];
      assert ListOk(out, n, nextId);
    }
  }

  lemma AddReverseEdges(s: State, e: Edge)
    requires WellFormed(s.out, s.nextId) && e.head in s.out && e.tail in s.out
    ensures var u, m := AddReverse(s, e), Mirror(e, s.nextId);
      WellFormed(u.out, u.nextId) && m !in EdgeSet(s.out) && EdgeSet(u.out) == EdgeSet(s.out) + {m}
  {
    var u, m := AddReverse(s, e), Mirror(e, s.nextId);
    forall n | n in u.out ensures ListOk(u.out, n, u.nextId) { assert ListOk(s.out, n, s.nextId); }
    hide EdgeSet;
    forall d ensures d in EdgeSet(u.out) <==> d in EdgeSet(s.out) + {m} {
      InEdgeSet(u.out, u.nextId, d);
      InEdgeSet(s.out, s.nextId, d);
    }
    InEdgeSet(s.out, s.nextId, m);
  }

  lemma DeleteEdges(s: State, t: Node, k: nat)
    requires WellFormed(s.out, s.nextId) && t in s.out && k < |s.out[t]|
    ensures var u, e := DeleteAt(s, t, k), s.out[t][k];
      WellFormed(u.out, u.nextId) && e in EdgeSet(s.out) && EdgeSet(u.out) == EdgeSet(s.out) - {e}
  {
    var u, e := DeleteAt(s, t, k), s.out[t][k];
    assert ListOk(s.out, t, s.nextId);
    forall n | n in u.out ensures ListOk(u.out, n, u.nextId) { assert ListOk(s.out, n, s.nextId); }
    hide EdgeSet;
    forall d ensures d in EdgeSet(u.out) <==> d in EdgeSet(s.out) - {e} {
      InEdgeSet(u.out, u.nextId, d);
      InEdgeSet(s.out, s.nextId, d);
      RemovedAt(s.out[t], k, d);
    }
    InEdgeSet(s.out, s.nextId, e);
  }

  lemma RemovedAt(q: seq<Edge>, k: nat, d: Edge)
    requires k < |q| && forall i, j :: 0 <= i < j < |q| ==> q[i] != q[j]
    ensures d in RemoveAt(q, k) <==> d in q && d != q[k]
  {
    var r := RemoveAt(q, k);
    if d in q && d != q[k] {
      var i :| 0 <= i < |q| && q[i] == d;
      assert r[if i < k then i else i - 1] == d;
    }
    if d in r {
      var i :| 0 <= i < |r| && r[i] == d;
      assert q[if i < k then i else i + 1] == d;
    }
  }

  /** What the step does to the edges: e goes, and its mirror comes if it was needed. */
  lemma ReverseEdges(s: State, strict: bool, t: Node, k: nat)
    requires WellFormed(s.out, s.nextId)
    requires t in s.out && k < |s.out[t]| && s.out[t][k].head in s.out && s.out[t][k].head != t
    ensures var u, e := ReverseAt(s, strict, t, k), s.out[t][k];
      var m := Mirror(e, s.nextId);
      && WellFormed(u.out, u.nextId) && u.nextId >= s.nextId
      && e in EdgeSet(s.out) && m !in EdgeSet(s.out) && e.tail == t
      && EdgeSet(u.out) == if NeedsReverse(s.out, strict, e) then EdgeSet(s.out) + {m} - {e} else EdgeSet(s.out) - {e}
  {
    hide EdgeSet, NeedsReverse;
    var e := s.out[t][k];
    assert ListOk(s.out, t, s.nextId);
    AddReverseEdges(s, e);
    DeleteEdges(if NeedsReverse(s.out, strict, e) then AddReverse(s, e) else s, t, k);
    InEdgeSet(s.out, s.nextId, e);
  }

  lemma ByEdgeSet(out: Out, nextId: nat, u: Node, v: Node)
    requires WellFormed(out, nextId)
    ensures HasEdge(out, u, v) <==> exists d :: d in EdgeSet(out) && d.tail == u && d.head == v
  {
    hide EdgeSet;
    if HasEdge(out, u, v) {
      var i :| 0 <= i < |out[u]| && out[u][i].head == v;
      assert ListOk(out, u, nextId);
      InEdgeSet(out, nextId, out[u][i]);
    }
    if d :| d in EdgeSet(out) && d.tail == u && d.head == v {
      InEdgeSet(out, nextId, d);
      var i :| 0 <= i < |out[u]| && out[u][i] == d;
    }
  }

  /** The test before addRevEdge leaves an edge out only if one is there already. */
  lemma NotNeeded(s: State, strict: bool, e: Edge)
    requires e.head in s.out && !NeedsReverse(s.out, strict, e)
    ensures HasEdge(s.out, e.head, e.tail)
  {
  }

  lemma ReverseAdjacency(s: State, strict: bool, t: Node, k: nat)
    requires WellFormed(s.out, s.nextId)
    requires t in s.out && k < |s.out[t]| && s.out[t][k].head in s.out && s.out[t][k].head != t
    ensures SameAdjacency(ReverseAt(s, strict, t, k).out, s.out)
  {
    hide EdgeSet, NeedsReverse, HasEdge, ReverseAt;
    var u, e := ReverseAt(s, strict, t, k), s.out[t][k];
    var m := Mirror(e, s.nextId);
    ReverseEdges(s, strict, t, k);
    if !NeedsReverse(s.out, strict, e) { NotNeeded(s, strict, e); }
    forall a, b ensures Adjacent(u.out, a, b) <==> Adjacent(s.out, a, b) {
      ByEdgeSet(u.out, u.nextId, a, b);
      ByEdgeSet(u.out, u.nextId, b, a);
      ByEdgeSet(s.out, s.nextId, a, b);
      ByEdgeSet(s.out, s.nextId, b, a);
      ByEdgeSet(s.out, s.nextId, e.head, e.tail);
      assert forall d :: d in EdgeSet(u.out) ==> d in EdgeSet(s.out) || d == m;
      assert forall d :: d in EdgeSet(s.out) && d != e ==> d in EdgeSet(u.out);
      assert exists d :: d in EdgeSet(u.out) && d.tail == e.head && d.head == e.tail by {
        if NeedsReverse(s.out, strict, e) {
          assert m in EdgeSet(u.out);
        }
      }
    }
  }

  /** The cycle that the back edge closes: the stack from its head up to the top, and back. */
  lemma CycleOnStack(out: Out, stack: seq<Node>, h: Node)
    requires IsPath(out, stack) && stack != [] && h in stack && h != stack[|stack| - 1]
    requires HasEdge(out, stack[|stack| - 1], h)
    ensures Cyclic(out)
  {
    var j :| 0 <= j < |stack| && stack[j] == h;
    var p := stack[j..] + [h];
    forall i | 0 <= i < |p| - 1 ensures p[i] != p[i + 1] && HasEdge(out, p[i], p[i + 1]) {
      if i < |stack| - j - 1 { assert p[i] == stack[j + i] && p[i + 1] == stack[j + i + 1]; }
    }
    assert IsCycle(out, p);
  }

  lemma ReverseAccounted(s: State, orig: Out, strict: bool, t: Node, k: nat)
    requires WellFormed(s.out, s.nextId) && WellFormed(orig, s.nextId) && Accounted(s.out, orig)
    requires t in s.out && k < |s.out[t]| && s.out[t][k].head in s.out && s.out[t][k].head != t
    requires s.out[t][k] in EdgeSet(orig)
    ensures Accounted(ReverseAt(s, strict, t, k).out, orig)
  {
    hide EdgeSet, NeedsReverse, ReverseAt;
    var u, e := ReverseAt(s, strict, t, k), s.out[t][k];
    var m := Mirror(e, s.nextId);
    ReverseEdges(s, strict, t, k);
    InEdgeSet(orig, s.nextId, m);
    assert m.tail != t;
    forall d | d in EdgeSet(u.out) && d !in EdgeSet(orig)
      ensures exists c :: c in EdgeSet(orig) && c !in EdgeSet(u.out) && Reverses(d, c) {
      if d == m {
        assert e !in EdgeSet(u.out) && Reverses(m, e);
      } else {
        var c :| c in EdgeSet(orig) && c !in EdgeSet(s.out) && Reverses(d, c);
        assert c !in EdgeSet(u.out);
      }
    }
  }

  lemma ReverseCount(s: State, strict: bool, t: Node, k: nat)
    requires WellFormed(s.out, s.nextId)
    requires t in s.out && k < |s.out[t]| && s.out[t][k].head in s.out && s.out[t][k].head != t
    ensures |EdgeSet(ReverseAt(s, strict, t, k).out)| <= |EdgeSet(s.out)|
  {
    hide EdgeSet, NeedsReverse, ReverseAt;
    ReverseEdges(s, strict, t, k);
    var e := s.out[t][k];
    assert |EdgeSet(s.out) - {e}| == |EdgeSet(s.out)| - 1;
    if NeedsReverse(s.out, strict, e) {
      var m := Mirror(e, s.nextId);
      assert EdgeSet(s.out) + {m} - {e} == EdgeSet(s.out) - {e} + {m} || m == e;
    }
  }

  lemma ReverseOrdered(s: State, strict: bool, t: Node, k: nat)
    requires t in s.out && k < |s.out[t]| && s.out[t][k].head in s.out && s.out[t][k].head != t
    requires Ordered(s.out, s.fin) && t !in s.fin && s.out[t][k].head !in s.fin
    ensures Ordered(ReverseAt(s, strict, t, k).out, s.fin)
  {
    hide NeedsReverse;
    var u := ReverseAt(s, strict, t, k);
    forall i | 0 <= i < |s.fin| ensures ListOrdered(u.out, s.fin, i) {
      assert ListOrdered(s.out, s.fin, i);
      assert s.fin[i] in s.fin;
    }
  }

  lemma ReverseNewEdges(s: State, orig: Out, strict: bool, t: Node, k: nat)
    requires WellFormed(s.out, s.nextId) && NewEdgesLate(s, orig)
    requires t in s.out && k < |s.out[t]| && s.out[t][k].head in s.out && s.out[t][k].head != t
    requires Above(s, s.out[t][k].head, t)
    ensures NewEdgesLate(ReverseAt(s, strict, t, k), orig)
  {
    hide NeedsReverse, EdgeSet;
    var u, e := ReverseAt(s, strict, t, k), s.out[t][k];
    assert ListOk(s.out, t, s.nextId);
    forall n, i | n in u.out && 0 <= i < |u.out[n]| && u.out[n][i] !in EdgeSet(orig)
      ensures u.out[n][i].head in u.fin || Above(u, n, u.out[n][i].head) {
      if n == t {
        assert u.out[t][i] == s.out[t][if i < k then i else i + 1];
      } else if i < |s.out[n]| {
        assert u.out[n][i] == s.out[n][i];
      }
      assert forall x :: Above(s, n, x) ==> Above(u, n, x);
    }
  }

  /** Reversing the edge keeps the invariant, and the cycle it closes is reported. */
  lemma ReverseKeeps(s: State, orig: Out, strict: bool, k: nat)
    requires BackEdge(s, orig, k)
    ensures s.out[Top(s)][k].head in s.out
    ensures Inv(ReverseAt(s, strict, Top(s), k), orig)
  {
    hide EdgeSet, NeedsReverse, Accounted, NewEdgesLate, Ordered, SameAdjacency, WellFormed, Above;
    BackEdgeOriginal(s, orig, k);
    ReverseParts(s, orig, strict, k);
    BackEdgeReported(s, orig, k);
  }

  lemma BackEdgeReported(s: State, orig: Out, k: nat)
    requires BackEdge(s, orig, k)
    ensures Cyclic(orig)
  {
    hide EdgeSet, Accounted, NewEdgesLate, Ordered, SameAdjacency, WellFormed;
    if !s.cyc {
      assert HasEdge(orig, Top(s), s.out[Top(s)][k].head);
      CycleOnStack(orig, s.stack, s.out[Top(s)][k].head);
    }
  }

  lemma ReverseParts(s: State, orig: Out, strict: bool, k: nat)
    requires BackEdge(s, orig, k) && s.out[Top(s)][k].head in s.out
    requires s.out[Top(s)][k] in EdgeSet(orig) && Above(s, s.out[Top(s)][k].head, Top(s))
    ensures var u := ReverseAt(s, strict, Top(s), k);
      && WellFormed(u.out, u.nextId) && WellFormed(orig, u.nextId) && u.out.Keys == orig.Keys
      && Ordered(u.out, u.fin) && NewEdgesLate(u, orig)
      && SameAdjacency(u.out, orig) && Accounted(u.out, orig)
      && |EdgeSet(u.out)| <= |EdgeSet(orig)|
  {
    hide EdgeSet, NeedsReverse, Adjacent, Accounted, NewEdgesLate, Ordered;
    var t := Top(s);
    var u := ReverseAt(s, strict, t, k);
    ReverseEdges(s, strict, t, k);
    assert t in s.stack;
    ReverseOrdered(s, strict, t, k);
    ReverseNewEdges(s, orig, strict, t, k);
    ReverseAdjacency(s, strict, t, k);
    assert SameAdjacency(u.out, orig);
    ReverseAccounted(s, orig, strict, t, k);
    ReverseCount(s, strict, t, k);
    forall n | n in orig ensures ListOk(orig, n, u.nextId) { assert ListOk(orig, n, s.nextId); }
  }

  // ---- which edges go, and which come for them ----

  /** b goes back from the head of d to its tail; in a graph that is not strict it has the key of d too. */
  predicate Backs(b: Edge, d: Edge, strict: bool) {
    b.tail == d.head && b.head == d.tail && (strict || b.key == d.key)
  }

  /** `mirror` gives some of the edges that are gone an edge of their own, and these are all the new edges.  An
      edge without one has a key or the graph is strict, and another edge goes back for it.  One with its own has
      it because no other does, or because it has no key. */
  ghost predicate Replaced(out: Out, orig: Out, strict: bool, mirror: map<Edge, Edge>) {
    && mirror.Keys <= EdgeSet(orig) - EdgeSet(out) && mirror.Values == EdgeSet(out) - EdgeSet(orig)
    && (forall c, d :: c in mirror && d in mirror && mirror[c] == mirror[d] ==> c == d)
    && (forall d :: d in mirror ==> Reverses(mirror[d], d))
    && (forall d :: d in EdgeSet(orig) - EdgeSet(out) && d !in mirror ==>
      (strict || d.key.Some?) && exists b :: b in EdgeSet(out) && Backs(b, d, strict))
    && (forall d, b :: d in mirror && b in EdgeSet(out) && Backs(b, d, strict) && b != mirror[d] ==>
      !strict && d.key.None?)
  }

  /** The edge leads to a finished node or up the stack. */
  ghost predicate Late(s: State, e: Edge) {
    e.head in s.fin || Above(s, e.tail, e.head)
  }

  /** The edges that go back for others are not reversed any more. */
  ghost predicate BacksLate(s: State, orig: Out, strict: bool, mirror: map<Edge, Edge>) {
    forall d :: d in EdgeSet(orig) - EdgeSet(s.out) && d !in mirror ==>
      exists b :: b in EdgeSet(s.out) && Backs(b, d, strict) && Late(s, b)
  }

  ghost predicate Exact(s: State, orig: Out, strict: bool, mirror: map<Edge, Edge>) {
    Replaced(s.out, orig, strict, mirror) && BacksLate(s, orig, strict, mirror)
  }

  lemma InitialExact(orig: Out, nextId: nat, strict: bool)
    ensures Exact(State(orig, nextId, {}, {}, [], [], false), orig, strict, map[])
  {
    hide EdgeSet;
  }

  lemma EnterExact(s: State, orig: Out, t: Node, strict: bool, mirror: map<Edge, Edge>)
    requires Exact(s, orig, strict, mirror)
    ensures Exact(Enter(s, t), orig, strict, mirror)
  {
    hide EdgeSet, Replaced, Above, Backs;
    var u := Enter(s, t);
    forall e | Late(s, e) ensures Late(u, e) { AboveEnter(s, t, e); }
  }

  lemma AboveEnter(s: State, t: Node, e: Edge)
    ensures Above(s, e.tail, e.head) ==> Above(Enter(s, t), e.tail, e.head)
  {
    if Above(s, e.tail, e.head) {
      var i, j :| 0 <= i < j < |s.stack| && s.stack[i] == e.tail && s.stack[j] == e.head;
      assert Enter(s, t).stack[i] == e.tail && Enter(s, t).stack[j] == e.head;
    }
  }

  lemma LeaveExact(s: State, orig: Out, strict: bool, mirror: map<Edge, Edge>)
    requires Exact(s, orig, strict, mirror) && s.stack != []
    ensures Exact(Leave(s), orig, strict, mirror)
  {
    hide EdgeSet, Replaced, Above, Backs;
    var u := Leave(s);
    forall e | Late(s, e) ensures Late(u, e) { AboveLeave(s, e); }
  }

  lemma AboveLeave(s: State, e: Edge)
    requires s.stack != []
    ensures Above(s, e.tail, e.head) ==> Above(Leave(s), e.tail, e.head) || e.head == Top(s)
  {
    if Above(s, e.tail, e.head) && e.head != Top(s) {
      var i, j :| 0 <= i < j < |s.stack| && s.stack[i] == e.tail && s.stack[j] == e.head;
      assert Leave(s).stack[i] == e.tail && Leave(s).stack[j] == e.head;
    }
  }

  /** The mirror map after the edge e is reversed. */
  function Mirrors(s: State, strict: bool, e: Edge, mirror: map<Edge, Edge>): map<Edge, Edge>
    requires e.head in s.out
  {
    if NeedsReverse(s.out, strict, e) then mirror[e := Mirror(e, s.nextId)] else mirror
  }

  lemma NeedsMeans(out: Out, nextId: nat, strict: bool, e: Edge)
    requires WellFormed(out, nextId) && e.head in out
    ensures NeedsReverse(out, strict, e) <==>
      (!strict && e.key.None?) || forall b :: b in EdgeSet(out) ==> !Backs(b, e, strict)
  {
    hide EdgeSet;
    if forall b :: b in EdgeSet(out) ==> !Backs(b, e, strict) {
      forall i | 0 <= i < |out[e.head]| ensures !Backs(out[e.head][i], e, strict) && out[e.head][i].tail == e.head {
        assert ListOk(out, e.head, nextId);
        InEdgeSet(out, nextId, out[e.head][i]);
      }
    } else {
      var b :| b in EdgeSet(out) && Backs(b, e, strict);
      InEdgeSet(out, nextId, b);
      var i :| 0 <= i < |out[e.head]| && out[e.head][i] == b;
    }
  }

  lemma AddValue(mirror: map<Edge, Edge>, e: Edge, m: Edge)
    requires e !in mirror
    ensures mirror[e := m].Values == mirror.Values + {m} && mirror[e := m].Keys == mirror.Keys + {e}
  {
    var n := mirror[e := m];
    forall x | x in mirror.Values + {m} ensures x in n.Values {
      if x == m {
        assert n[e] == m;
      } else {
        var d :| d in mirror && mirror[d] == x;
        assert n[d] == x;
      }
    }
    forall x | x in n.Values ensures x in mirror.Values + {m} {
      var d :| d in n && n[d] == x;
      if d != e { assert mirror[d] == x; }
    }
  }

  /** The steps on the edge sets alone: e goes, and gets the new edge m. */
  lemma MirrorAdded(a: Out, b: Out, orig: Out, strict: bool, mirror: map<Edge, Edge>, e: Edge, m: Edge)
    requires Replaced(a, orig, strict, mirror) && EdgeSet(b) == EdgeSet(a) + {m} - {e}
    requires e in EdgeSet(orig) && e in EdgeSet(a) && m !in EdgeSet(orig) && m !in EdgeSet(a) && Reverses(m, e)
    requires (!strict && e.key.None?) || forall c :: c in EdgeSet(a) ==> !Backs(c, e, strict)
    requires forall d :: d in EdgeSet(orig) - EdgeSet(a) && d !in mirror ==>
      exists c :: c in EdgeSet(a) && Backs(c, d, strict) && c != e
    ensures Replaced(b, orig, strict, mirror[e := m])
  {
    hide EdgeSet;
    AddValue(mirror, e, m);
    var n := mirror[e := m];
    assert forall d :: d in mirror ==> mirror[d] in mirror.Values;
    forall d, c | d in n && c in EdgeSet(b) && Backs(c, d, strict) && c != n[d] ensures !strict && d.key.None? {
      if d in mirror && c == m {
        assert Backs(mirror[d], d, strict) && (Backs(mirror[d], e, strict) <==> Backs(m, d, strict));
      }
    }
    forall d | d in EdgeSet(orig) - EdgeSet(b) && d !in n
      ensures (strict || d.key.Some?) && exists c :: c in EdgeSet(b) && Backs(c, d, strict) {
      var c :| c in EdgeSet(a) && Backs(c, d, strict) && c != e;
      assert c in EdgeSet(b);
    }
  }

  lemma OnlyGone(a: Out, b: Out, orig: Out, strict: bool, mirror: map<Edge, Edge>, e: Edge)
    requires Replaced(a, orig, strict, mirror) && EdgeSet(b) == EdgeSet(a) - {e}
    requires e in EdgeSet(orig) && e in EdgeSet(a) && (strict || e.key.Some?)
    requires exists c :: c in EdgeSet(a) && Backs(c, e, strict) && c != e
    requires forall d :: d in EdgeSet(orig) - EdgeSet(a) && d !in mirror ==>
      exists c :: c in EdgeSet(a) && Backs(c, d, strict) && c != e
    ensures Replaced(b, orig, strict, mirror)
  {
    hide EdgeSet;
    forall d | d in EdgeSet(orig) - EdgeSet(b) && d !in mirror
      ensures (strict || d.key.Some?) && exists c :: c in EdgeSet(b) && Backs(c, d, strict) {
      var c :| c in EdgeSet(a) && Backs(c, d, strict) && c != e;
      assert c in EdgeSet(b);
    }
  }

  lemma ReverseReplaced(s: State, orig: Out, strict: bool, t: Node, k: nat, mirror: map<Edge, Edge>)
    requires WellFormed(s.out, s.nextId) && WellFormed(orig, s.nextId) && Replaced(s.out, orig, strict, mirror)
    requires BacksLate(s, orig, strict, mirror)
    requires t in s.out && k < |s.out[t]| && s.out[t][k].head in s.out && s.out[t][k].head != t
    requires s.out[t][k] in EdgeSet(orig) && !Late(s, s.out[t][k])
    ensures var u := ReverseAt(s, strict, t, k);
      Replaced(u.out, orig, strict, Mirrors(s, strict, s.out[t][k], mirror))
  {
    hide EdgeSet, NeedsReverse, ReverseAt, Late, Replaced;
    var u, e := ReverseAt(s, strict, t, k), s.out[t][k];
    var m := Mirror(e, s.nextId);
    ReverseEdges(s, strict, t, k);
    NeedsMeans(s.out, s.nextId, strict, e);
    InEdgeSet(orig, s.nextId, m);
    if NeedsReverse(s.out, strict, e) {
      MirrorAdded(s.out, u.out, orig, strict, mirror, e, m);
    } else {
      OnlyGone(s.out, u.out, orig, strict, mirror, e);
    }
  }

  lemma ReverseBacksLate(s: State, orig: Out, strict: bool, t: Node, k: nat, mirror: map<Edge, Edge>)
    requires WellFormed(s.out, s.nextId) && BacksLate(s, orig, strict, mirror)
    requires t in s.out && k < |s.out[t]| && s.out[t][k].head in s.out && s.out[t][k].head != t
    requires Above(s, s.out[t][k].head, t) && !Late(s, s.out[t][k])
    ensures BacksLate(ReverseAt(s, strict, t, k), orig, strict, Mirrors(s, strict, s.out[t][k], mirror))
  {
    hide EdgeSet, NeedsReverse, ReverseAt;
    var u, e := ReverseAt(s, strict, t, k), s.out[t][k];
    var mirror1 := Mirrors(s, strict, e, mirror);
    ReverseEdges(s, strict, t, k);
    NeedsMeans(s.out, s.nextId, strict, e);
    SameWalk(s, strict, t, k);
    hide Above;
    forall d | d in EdgeSet(orig) - EdgeSet(u.out) && d !in mirror1
      ensures exists b :: b in EdgeSet(u.out) && Backs(b, d, strict) && Late(u, b) {
      if d == e {
        var b :| b in EdgeSet(s.out) && Backs(b, e, strict);
        assert b in EdgeSet(u.out) && Late(u, b);
      } else {
        var b :| b in EdgeSet(s.out) && Backs(b, d, strict) && Late(s, b);
        assert b in EdgeSet(u.out) && Late(u, b);
      }
    }
  }

  lemma SameWalk(s: State, strict: bool, t: Node, k: nat)
    requires t in s.out && k < |s.out[t]| && s.out[t][k].head in s.out && s.out[t][k].head != t
    ensures var u := ReverseAt(s, strict, t, k); u.stack == s.stack && u.fin == s.fin
    ensures forall a, x :: Above(ReverseAt(s, strict, t, k), a, x) <==> Above(s, a, x)
  {
  }

  /** Reversing an edge keeps the account of what came for what. */
  lemma ReverseExact(s: State, orig: Out, strict: bool, k: nat, mirror: map<Edge, Edge>)
    requires BackEdge(s, orig, k) && Exact(s, orig, strict, mirror)
    ensures s.out[Top(s)][k].head in s.out
    ensures Exact(ReverseAt(s, strict, Top(s), k), orig, strict, Mirrors(s, strict, s.out[Top(s)][k], mirror))
  {
    hide EdgeSet, NeedsReverse, NewEdgesLate, Ordered, SameAdjacency, WellFormed, Above, Accounted, Replaced, BacksLate,
      ReverseAt, Mirrors, Reported;
    BackEdgeOriginal(s, orig, k);
    NothingAboveTop(s, s.out[Top(s)][k].head);
    assert !Late(s, s.out[Top(s)][k]);
    ReverseReplaced(s, orig, strict, Top(s), k, mirror);
    ReverseBacksLate(s, orig, strict, Top(s), k, mirror);
  }

  /** Where every edge that is gone has an edge of its own there are as many edges as before. */
  lemma SameCount(out: Out, orig: Out, mirror: map<Edge, Edge>)
    requires Replaced(out, orig, false, mirror) && forall d :: d in EdgeSet(orig) ==> d.key.None?
    ensures |EdgeSet(out)| == |EdgeSet(orig)|
  {
    hide EdgeSet;
    var a, b := EdgeSet(orig), EdgeSet(out);
    assert mirror.Keys == a - b;
    SameSize(mirror);
    assert |a - b| == |a| - |a * b| by { assert a == (a - b) + a * b; }
    assert |b - a| == |b| - |a * b| by { assert b == (b - a) + a * b; }
  }

  lemma ExactReplaced(s: State, orig: Out, strict: bool, mirror: map<Edge, Edge>)
    requires Exact(s, orig, strict, mirror)
    ensures Replaced(s.out, orig, strict, mirror)
    ensures !strict && (forall d :: d in EdgeSet(orig) ==> d.key.None?) ==> |EdgeSet(s.out)| == |EdgeSet(orig)|
  {
    hide EdgeSet, Replaced;
    if !strict && forall d :: d in EdgeSet(orig) ==> d.key.None? { SameCount(s.out, orig, mirror); }
  }

  lemma {:induction false} SameSize(m: map<Edge, Edge>)
    requires forall c, d :: c in m && d in m && m[c] == m[d] ==> c == d
    ensures |m.Keys| == |m.Values|
    decreases |m|
  {
    if m == map[] {
      assert m.Values == {};
    } else {
      var c :| c in m;
      var n := m - {c};
      AddValue(n, c, m[c]);
      assert n[c := m[c]] == m;
      SameSize(n);
      assert m[c] !in n.Values;
    }
  }
}
