/** cmd/tools/acyclic.c: the depth-first walk that reverses, while it walks, every edge that closes
    a cycle, and the loop over all nodes that starts it. */
module Acyclic {
  import opened Options
  import opened Digraph
  import opened AcyclicSteps

  /** What a walk below the walking nodes does to one of their lists: it only appends, and the
      heads of the new edges are finished, or are the node t that is still walked. */
  ghost predicate OnlyAppended(s0: State, s: State, a: Node, t: Option<Node>) {
    && a in s0.out && a in s.out && s0.out[a] <= s.out[a]
    && forall i :: |s0.out[a]| <= i < |s.out[a]| ==>
         s.out[a][i].head in s.fin || t == Some(s.out[a][i].head)
  }

  /** s follows s0 inside the walk of a node that the stack of s0 does not hold. */
  ghost predicate Follows(s0: State, s: State, t: Option<Node>) {
    && s0.mark <= s.mark && s0.fin <= s.fin && (s0.cyc ==> s.cyc)
    && forall a :: a in s0.stack ==> OnlyAppended(s0, s, a, t)
  }

  lemma FollowsTrans(s0: State, s1: State, s2: State, t: Node)
    requires Follows(s0, s1, Some(t)) && Follows(s1, s2, None)
    requires forall a :: a in s0.stack ==> a in s1.stack
    ensures Follows(s0, s2, Some(t))
  {
    forall a | a in s0.stack ensures OnlyAppended(s0, s2, a, Some(t)) {
      assert OnlyAppended(s0, s1, a, Some(t)) && OnlyAppended(s1, s2, a, None);
      forall i | |s0.out[a]| <= i < |s2.out[a]|
        ensures s2.out[a][i].head in s2.fin || Some(t) == Some(s2.out[a][i].head) {
        if i < |s1.out[a]| { assert s2.out[a][i] == s1.out[a][i]; }
      }
    }
  }

  /** Reversing an edge of the node t on top appends at most an edge to t. */
  lemma FollowsReverse(s0: State, s: State, orig: Out, strict: bool, k: nat)
    requires BackEdge(s, orig, k) && s.out[Top(s)][k].head in s.out && s.out[Top(s)][k].tail == Top(s)
    requires Follows(s0, s, Some(Top(s))) && Top(s) !in s0.stack
    ensures Follows(s0, ReverseAt(s, strict, Top(s), k), Some(Top(s)))
  {
    hide NeedsReverse, Inv;
    var t := Top(s);
    var u := ReverseAt(s, strict, t, k);
    forall a | a in s0.stack ensures OnlyAppended(s0, u, a, Some(t)) {
      assert OnlyAppended(s0, s, a, Some(t));
    }
  }

  /** The edges of t before index k have been walked. */
  ghost predicate Walked(s: State, t: Node, k: nat) {
    t in s.out && k <= |s.out[t]| && forall i :: 0 <= i < k ==> Settled(s.out[t][i], s.fin)
  }

  /** Inside the walk of t, with e, at index k of its list, the edge to look at next. */
  ghost predicate Walking(s0: State, s: State, orig: Out, t: Node, e: Option<Edge>, k: nat) {
    && Inv(s, orig) && Follows(s0, s, Some(t)) && t !in s0.stack && t !in s0.onstack
    && s.stack == s0.stack + [t] && s.onstack == s0.onstack + {t} && s0.mark + {t} <= s.mark
    && Walked(s, t, k)
    && (if e.Some? then k < |s.out[t]| && s.out[t][k] == e.value else k == |s.out[t]|)
  }

  function IndexOf(q: seq<Edge>, e: Edge): (k: nat)
    requires e in q
    ensures k < |q| && q[k] == e
  {
    if q[0] == e then 0 else 1 + IndexOf(q[1..], e)
  }

  /** agnxtout: the edge after e in the list of its tail. */
  function NextOut(q: seq<Edge>, e: Edge): Option<Edge>
    requires e in q
  {
    var k := IndexOf(q, e);
    if k + 1 < |q| then Some(q[k + 1]) else None
  }

  lemma IndexUnique(out: Out, nextId: nat, t: Node, k: nat)
    requires WellFormed(out, nextId) && t in out && k < |out[t]|
    ensures IndexOf(out[t], out[t][k]) == k
  {
    assert ListOk(out, t, nextId);
  }

  class Tool {
    const strict: bool
    ghost const orig: Out
    var out: Out
    var nextId: nat
    var mark: set<Node>
    var onstack: set<Node>
    ghost var fin: seq<Node>
    ghost var stack: seq<Node>
    ghost var cyc: bool
    ghost var mirror: map<Edge, Edge>    // the edges that are gone, each with the one added for it

    ghost predicate Accounts()
      reads this
    {
      Exact(Abs(), orig, strict, mirror)
    }

    ghost function Abs(): State
      reads this
    {
      State(out, nextId, mark, onstack, fin, stack, cyc)
    }

    constructor (strict: bool, g: Out, nextId: nat)
      requires WellFormed(g, nextId)
      ensures Inv(Abs(), orig) && orig == g && this.strict == strict
      ensures out == g && mark == {} && stack == [] && !cyc && Accounts()
    {
      this.strict, out, orig, this.nextId := strict, g, g, nextId;
      mark, onstack, fin, stack, cyc, mirror := {}, {}, [], [], false, map[];
      new;
      InitialInv(orig, nextId);
      InitialExact(orig, nextId, strict);
    }

    /** The body of the inner test of dfs: addRevEdge, if it is needed, and agdelete. */
    method Reverse(e: Edge, ghost k: nat)
      requires BackEdge(Abs(), orig, k) && e == out[Top(Abs())][k] && Accounts()
      modifies this`out, this`nextId, this`cyc, this`mirror
      ensures old(e.head in out)
      ensures Abs() == ReverseAt(old(Abs()), strict, Top(old(Abs())), k) && Inv(Abs(), orig) && Accounts()
    {
      hide Inv, EdgeSet, Above, NeedsReverse, RemoveAt, IndexOf, Exact;
      ReverseKeeps(Abs(), orig, strict, k);
      ReverseExact(Abs(), orig, strict, k, mirror);
      mirror := Mirrors(Abs(), strict, e, mirror);
      BackEdgeOriginal(Abs(), orig, k);
      IndexIn(Abs(), orig, k);
      if NeedsReverse(out, strict, e) {
        out := out[e.head := out[e.head] + [Edge(nextId, e.head, e.tail, e.key)]];
        nextId := nextId + 1;
      }
      out := out[e.tail := RemoveAt(out[e.tail], IndexOf(out[e.tail], e))];
      cyc := true;
    }

    /** dfs: enter t, walk its list, leave it. */
    method Dfs(t: Node, hasCycle0: bool) returns (hasCycle: bool)
      requires Inv(Abs(), orig) && t in out && t !in mark && Accounts()
      requires !cyc && stack != [] ==> HasEdge(orig, stack[|stack| - 1], t)
      modifies this
      ensures Inv(Abs(), orig) && Follows(old(Abs()), Abs(), None) && Accounts()
      ensures stack == old(stack) && onstack == old(onstack) && t in fin && t in mark
      ensures hasCycle0 || (cyc && !old(cyc)) ==> hasCycle
      ensures hasCycle ==> hasCycle0 || cyc
      decreases orig.Keys - mark, 0
    {
      hide Inv, Follows, HasEdge, Walking, Exact;
      ghost var s0 := Abs();
      hasCycle := hasCycle0;
      StartWalk(s0, orig, t);
      EnterExact(s0, orig, t, strict, mirror);
      mark, onstack := mark + {t}, onstack + {t};
      stack := stack + [t];
      var e: Option<Edge> := if out[t] == [] then None else Some(out[t][0]);
      ghost var k: nat := 0;
      while e.Some?
        invariant Walking(s0, Abs(), orig, t, e, k) && Open(s0, mark, orig, t) && Accounts()
        invariant t in out && k <= |out[t]|
        invariant hasCycle0 || (cyc && !s0.cyc) ==> hasCycle
        invariant hasCycle ==> hasCycle0 || cyc
        decreases orig.Keys - mark, |out[t]| - k
      {
        hasCycle, e, k := WalkEdge(s0, t, e.value, k, hasCycle);
      }
      EndWalk(s0, Abs(), orig, t, k);
      LeaveExact(Abs(), orig, strict, mirror);
      onstack := onstack - {t};
      stack, fin := stack[..|stack| - 1], fin + [t];
    }

    /** One round of the loop of dfs; f is the edge for the next round, saved before the work. */
    method WalkEdge(ghost s0: State, t: Node, e: Edge, ghost k: nat, hasCycle0: bool)
      returns (hasCycle: bool, f: Option<Edge>, ghost n: nat)
      requires Walking(s0, Abs(), orig, t, Some(e), k) && Accounts()
      modifies this
      ensures Walking(s0, Abs(), orig, t, f, n) && Open(s0, mark, orig, t) && Accounts()
      ensures t in out && n <= |out[t]|
      ensures hasCycle0 || (cyc && !old(cyc)) ==> hasCycle
      ensures hasCycle ==> hasCycle0 || cyc
      ensures old(mark) <= mark && (old(cyc) ==> cyc)
      ensures mark == old(mark) ==> |out[t]| - n < old(|out[t]|) - k
      decreases orig.Keys - mark, 1
    {
      hide Inv, ReverseAt, Follows, HasEdge, IndexOf, BackEdge, Exact;
      ghost var s := Abs();
      AtEdge(s, orig, t, k);
      f := NextOut(out[t], e);
      var h := e.head;
      hasCycle, n := hasCycle0, k;
      if e.tail == h {
        n := k + 1;
      } else if h in onstack {
        FollowsReverse(s0, s, orig, strict, k);
        AfterReverse(s, orig, strict, k);
        Reverse(e, k);
        hasCycle := true;
      } else if h !in mark {
        hasCycle := Dfs(h, hasCycle0);
        AfterDescend(s0, s, Abs(), t, k);
        n := if f.Some? then k + 1 else |out[t]|;
      } else {
        n := k + 1;
      }
      WalkingOpen(s0, Abs(), orig, t, f, n);
    }

    /** The loop over the nodes in main; the result is the exit status of the program. */
    method Run(nodes: seq<Node>) returns (rv: bool)
      requires Inv(Abs(), orig) && stack == [] && mark == {} && !cyc && Accounts()
      requires forall n :: n in nodes <==> n in orig
      modifies this
      ensures !Cyclic(out)
      ensures rv <==> Cyclic(orig)
      ensures SameAdjacency(out, orig) && Accounted(out, orig) && |EdgeSet(out)| <= |EdgeSet(orig)|
      ensures Replaced(out, orig, strict, mirror)
      ensures !strict && (forall d :: d in EdgeSet(orig) ==> d.key.None?) ==> |EdgeSet(out)| == |EdgeSet(orig)|
      ensures !rv ==> out == orig
    {
      hide Inv, Follows, Exact, Replaced;
      rv := false;
      OnStackMarked(Abs(), orig);
      var i := 0;
      while i < |nodes|
        invariant i <= |nodes| && Inv(Abs(), orig) && stack == [] && rv == cyc && out.Keys == orig.Keys
        invariant Accounts()
        invariant forall j :: 0 <= j < i ==> nodes[j] in mark
      {
        if nodes[i] !in mark {
          ghost var s := Abs();
          var r := Dfs(nodes[i], false);
          rv := rv || r;
          FollowsMarks(s, Abs());
          OnStackMarked(Abs(), orig);
        }
        i := i + 1;
      }
      AllDone(Abs(), orig, nodes);
      ExactReplaced(Abs(), orig, strict, mirror);
    }
  }

  lemma IndexIn(s: State, orig: Out, k: nat)
    requires BackEdge(s, orig, k) && s.out[Top(s)][k].head in s.out && s.out[Top(s)][k].tail == Top(s)
    ensures IndexOf(s.out[Top(s)], s.out[Top(s)][k]) == k
  {
    IndexUnique(s.out, s.nextId, Top(s), k);
  }

  /** The marks inside the walk of t, which are what the recursion's measure counts. */
  ghost predicate Open(s0: State, mark: set<Node>, orig: Out, t: Node) {
    t in mark && s0.mark <= mark <= orig.Keys
  }

  lemma WalkingOpen(s0: State, s: State, orig: Out, t: Node, e: Option<Edge>, k: nat)
    requires Walking(s0, s, orig, t, e, k)
    ensures Open(s0, s.mark, orig, t) && t in s.out
  {
  }

  lemma StartWalk(s: State, orig: Out, t: Node)
    requires Inv(s, orig) && t in s.out && t !in s.mark
    requires !s.cyc && s.stack != [] ==> HasEdge(orig, s.stack[|s.stack| - 1], t)
    ensures var e := if s.out[t] == [] then None else Some(s.out[t][0]);
      Walking(s, Enter(s, t), orig, t, e, 0) && Open(s, s.mark + {t}, orig, t) && t in orig
  {
    hide Inv, Follows, HasEdge;
    OnStackMarked(s, orig);
    EnterKeeps(s, orig, t);
    FollowsEnter(s, orig, t);
  }

  lemma EndWalk(s0: State, s: State, orig: Out, t: Node, k: nat)
    requires Walking(s0, s, orig, t, None, k)
    ensures s.stack != [] && Top(s) == t
    ensures var u := Leave(s);
      && Inv(u, orig) && Follows(s0, u, None) && u.stack == s0.stack && u.onstack == s0.onstack
      && t in u.fin && t in u.mark
  {
    hide Inv, Follows;
    OnStackMarked(s, orig);
    LeaveKeeps(s, orig);
    FollowsLeave(s0, s, t);
    OnStackMarked(Leave(s), orig);
  }

  lemma FollowsEnter(s: State, orig: Out, t: Node)
    requires Inv(s, orig) && t in s.out
    ensures Follows(s, Enter(s, t), Some(t))
  {
    assert forall a :: a in s.stack ==> a in s.out;
  }

  lemma FollowsLeave(s0: State, s: State, t: Node)
    requires Follows(s0, s, Some(t)) && s.stack != [] && Top(s) == t
    ensures Follows(s0, Leave(s), None)
  {
    forall a | a in s0.stack ensures OnlyAppended(s0, Leave(s), a, None) {
      assert OnlyAppended(s0, s, a, Some(t));
    }
  }

  lemma FollowsMarks(s0: State, s: State)
    requires Follows(s0, s, None)
    ensures s0.mark <= s.mark && (s0.cyc ==> s.cyc)
  {
  }

  /** What holds of the edge that the loop is about to look at. */
  lemma AtEdge(s: State, orig: Out, t: Node, k: nat)
    requires Inv(s, orig) && s.stack != [] && Top(s) == t && t in s.out && k < |s.out[t]|
    ensures var e := s.out[t][k];
      && s.out.Keys == orig.Keys
      && e.tail == t && e.head in s.out && e in s.out[t] && IndexOf(s.out[t], e) == k
      && (e.head != t && e.head in s.onstack ==> BackEdge(s, orig, k))
      && (e.head in s.mark && e.head !in s.onstack ==> Settled(e, s.fin))
      && (!s.cyc ==> HasEdge(orig, t, e.head))
  {
    hide SameAdjacency, Accounted, EdgeSet, Ordered, NewEdgesLate;
    assert ListOk(s.out, t, s.nextId);
    IndexUnique(s.out, s.nextId, t, k);
  }

  /** The saved next edge is still there, at the index of the edge that went. */
  lemma AfterReverse(s: State, orig: Out, strict: bool, k: nat)
    requires BackEdge(s, orig, k) && s.out[Top(s)][k].head in s.out && Walked(s, Top(s), k)
    ensures var t, u := Top(s), ReverseAt(s, strict, Top(s), k);
      && Walked(u, t, k) && |u.out[t]| == |s.out[t]| - 1 && u.stack == s.stack && u.fin == s.fin
      && u.onstack == s.onstack && u.mark == s.mark && u.cyc && Top(u) == t
      && forall i :: k + 1 <= i < |s.out[t]| ==> u.out[t][i - 1] == s.out[t][i]
  {
    hide Inv, NeedsReverse;
  }

  /** After the walk of the head of the edge at k, that edge is settled, and so are all edges the
      walk appended; the saved next edge is where it was. */
  lemma AfterDescend(s0: State, s: State, u: State, t: Node, k: nat)
    requires Follows(s0, s, Some(t)) && Follows(s, u, None) && s.stack == s0.stack + [t]
    requires Walked(s, t, k) && k < |s.out[t]| && s.out[t][k].head in u.fin
    ensures Follows(s0, u, Some(t)) && s.mark <= u.mark && (s.cyc ==> u.cyc)
    ensures Walked(u, t, k + 1) && s.out[t] <= u.out[t]
    ensures k + 1 == |s.out[t]| ==> Walked(u, t, |u.out[t]|)
  {
    FollowsTrans(s0, s, u, t);
    assert t == s.stack[|s0.stack|];
    assert OnlyAppended(s, u, t, None);
  }

  lemma OnStackMarked(s: State, orig: Out)
    requires Inv(s, orig)
    ensures s.onstack <= s.mark <= s.out.Keys == orig.Keys && (forall n :: n in s.stack <==> n in s.onstack)
    ensures forall n :: n in s.fin ==> n in s.mark
  {
  }

  lemma AllDone(s: State, orig: Out, nodes: seq<Node>)
    requires Inv(s, orig) && s.stack == [] && forall n :: n in nodes <==> n in orig
    requires forall j :: 0 <= j < |nodes| ==> nodes[j] in s.mark
    ensures !Cyclic(s.out) && (s.cyc <==> Cyclic(orig)) && (!s.cyc ==> s.out == orig)
    ensures SameAdjacency(s.out, orig) && Accounted(s.out, orig) && |EdgeSet(s.out)| <= |EdgeSet(orig)|
  {
    hide SameAdjacency, Accounted, EdgeSet, NewEdgesLate, Cyclic, Ordered, WellFormed;
    forall n | n in s.out ensures n in s.fin {
      var j :| 0 <= j < |nodes| && nodes[j] == n;
    }
    OrderedAcyclic(s.out, s.nextId, s.fin);
  }
}
