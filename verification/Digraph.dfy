/** A directed graph as the cgraph library presents it to cmd/tools/acyclic.c: every node has an
    ordered list of out-edges, and a new edge goes to the end of its tail's list. */
module Digraph {
  import opened Options

  type Node = nat

  /** `id` is the identity of the edge object, `key` its name, if it has one. */
  datatype Edge = Edge(id: nat, tail: Node, head: Node, key: Option<string>)

  type Out = map<Node, seq<Edge>>

  ghost predicate WellFormed(out: Out, nextId: nat) {
    forall n :: n in out ==> ListOk(out, n, nextId)
  }

  ghost predicate ListOk(out: Out, n: Node, nextId: nat)
    requires n in out
  {
    && (forall i :: 0 <= i < |out[n]| ==> out[n][i].tail == n && out[n][i].head in out && out[n][i].id < nextId)
    && (forall i, j :: 0 <= i < j < |out[n]| ==> out[n][i] != out[n][j])
  }

  predicate HasEdge(out: Out, u: Node, v: Node) {
    u in out && exists i :: 0 <= i < |out[u]| && out[u][i].head == v
  }

  predicate Adjacent(out: Out, u: Node, v: Node) {
    HasEdge(out, u, v) || HasEdge(out, v, u)
  }

  ghost function EdgeSet(out: Out): set<Edge> {
    set n, i | n in out && 0 <= i < |out[n]| :: out[n][i]
  }

  /** A path along edges that are not self-loops. */
  ghost predicate IsPath(out: Out, p: seq<Node>) {
    forall i :: 0 <= i < |p| - 1 ==> p[i] != p[i + 1] && HasEdge(out, p[i], p[i + 1])
  }

  /** A directed cycle through at least two nodes. */
  ghost predicate IsCycle(out: Out, p: seq<Node>) {
    |p| >= 2 && p[0] == p[|p| - 1] && IsPath(out, p)
  }

  ghost predicate Cyclic(out: Out) {
    exists p :: IsCycle(out, p)
  }

  /** Every edge that is not a self-loop leads to a node that comes earlier in the order. */
  ghost predicate Ordered(out: Out, fin: seq<Node>) {
    forall k :: 0 <= k < |fin| ==> ListOrdered(out, fin, k)
  }

  ghost predicate ListOrdered(out: Out, fin: seq<Node>, k: nat)
    requires k < |fin|
  {
    fin[k] in out && forall i :: 0 <= i < |out[fin[k]]| ==> Settled(out[fin[k]][i], fin[..k])
  }

  predicate Settled(e: Edge, done: seq<Node>) {
    e.head == e.tail || e.head in done
  }

  /** An order of all nodes rules out every cycle. */
  lemma OrderedAcyclic(out: Out, nextId: nat, fin: seq<Node>)
    requires WellFormed(out, nextId) && Ordered(out, fin) && forall n :: n in out ==> n in fin
    ensures !Cyclic(out)
  {
    if Cyclic(out) {
      var p :| IsCycle(out, p);
      assert HasEdge(out, p[0], p[1]);
      var k :| 0 <= k < |fin| && fin[k] == p[0];
      NoCycleFrom(out, nextId, fin, p, k);
    }
  }

  /** A path that starts at position k of the order ends, after n > 0 edges, at an earlier one. */
  lemma {:induction false} PathDescends(out: Out, nextId: nat, fin: seq<Node>, p: seq<Node>, k: nat, n: nat)
      returns (j: nat)
    requires WellFormed(out, nextId) && Ordered(out, fin) && IsPath(out, p)
    requires 0 < n < |p| && k < |fin| && fin[k] == p[0]
    ensures j < k && fin[j] == p[n]
  {
    var m := k;
    if n > 1 { m := PathDescends(out, nextId, fin, p, k, n - 1); }
    assert HasEdge(out, p[n - 1], p[n - 1 + 1]);
    var i :| 0 <= i < |out[p[n - 1]]| && out[p[n - 1]][i].head == p[n];
    assert ListOrdered(out, fin, m);
    assert Settled(out[fin[m]][i], fin[..m]);
    assert ListOk(out, p[n - 1], nextId);
    j :| 0 <= j < m && fin[..m][j] == p[n];
  }

  /** On a cycle the descent never stops, which no position of the order allows. */
  lemma {:induction false} NoCycleFrom(out: Out, nextId: nat, fin: seq<Node>, p: seq<Node>, k: nat)
    requires WellFormed(out, nextId) && Ordered(out, fin) && IsCycle(out, p)
    requires k < |fin| && fin[k] == p[0]
    ensures false
    decreases k
  {
    var j := PathDescends(out, nextId, fin, p, k, |p| - 1);
    NoCycleFrom(out, nextId, fin, p, j);
  }
}
