/** cmd/tools/ccomps.c: a stack in chained blocks, and the connected components found with it. */
module Ccomps {
  import opened Undirected

  const SMALLBUF := 1024
  const BIGBUF := 1000000

  /** blk_t. */
  class Blk {
    const data: array<Node>
    const prev: Blk?
    var next: Blk?

    constructor (n: nat, prev: Blk?)
      ensures data.Length == n && this.prev == prev && next == null && fresh(data)
    {
      data := new Node[n];
      this.prev := prev;
      next := null;
    }
  }

  /** The place of the first cell of block i in the whole stack. */
  function Off(i: nat): nat {
    if i == 0 then 0 else SMALLBUF + (i - 1) * BIGBUF
  }

  function Room(i: nat): nat {
    if i == 0 then SMALLBUF else BIGBUF
  }

  lemma Offsets(i: nat, k: nat)
    requires i < k
    ensures Off(i) + Room(i) <= Off(k)
  {
  }

  /** stk_t; the ghost fields are the chain of blocks, which the C code holds by its links, and the
      unbounded stack that it stands for. */
  class Stk {
    const fstblk: Blk
    var curblk: Blk
    var curp: nat
    ghost var chain: seq<Blk>
    ghost var cur: nat
    ghost var contents: seq<Node>
    ghost var Repr: set<object>

    ghost predicate Valid()
      reads this, Repr
      ensures Valid() ==> this in Repr
    {
      && this in Repr && (forall b: Blk :: b in chain ==> b in Repr && b.data in Repr)
      && cur < |chain| && chain[0] == fstblk && chain[cur] == curblk && curp <= Room(cur)
      && (forall i :: 0 <= i < |chain| ==> LinkOk(i))
      && (forall i, j :: 0 <= i < j < |chain| ==> chain[i] != chain[j] && chain[i].data != chain[j].data)
      && |contents| == Off(cur) + curp
      && (forall i :: 0 <= i <= cur ==> DataOk(i))
    }

    ghost predicate LinkOk(i: nat)
      requires i < |chain|
      reads this, chain
    {
      && chain[i].data.Length == Room(i)
      && chain[i].prev == (if i == 0 then null else chain[i - 1])
      && chain[i].next == (if i == |chain| - 1 then null else chain[i + 1])
    }

    /** Block i holds its part of the contents. */
    ghost predicate DataOk(i: nat)
      requires i < |chain|
      reads this, chain[i].data
    {
      forall j :: 0 <= j < chain[i].data.Length && Off(i) + j < |contents| ==> chain[i].data[j] == contents[Off(i) + j]
    }

    /** initStk. */
    constructor ()
      ensures Valid() && contents == [] && fresh(Repr)
    {
      var b := new Blk(SMALLBUF, null);
      fstblk, curblk, curp := b, b, 0;
      chain, cur, contents := [b], 0, [];
      Repr := {this, b, b.data};
    }

    method Push(n: Node)
      requires Valid()
      modifies Repr
      ensures Valid() && fresh(Repr - old(Repr))
      ensures contents == old(contents) + [n]
    {
      assert LinkOk(cur) && curblk in chain;
      if curp == curblk.data.Length {
        if curblk.next == null {
          NewBlock();
        }
        Advance();
      }
      assert curblk in chain;
      Put(n);
    }

    /** On to the next block, which is empty. */
    method Advance()
      requires Valid() && curp == curblk.data.Length && curblk.next != null
      modifies this
      ensures Valid() && Repr == old(Repr) && contents == old(contents) && curp < curblk.data.Length
    {
      assert LinkOk(cur);
      assert LinkOk(cur + 1);
      curblk := curblk.next;
      curp := 0;
      cur := cur + 1;
      forall i | 0 <= i < |chain| ensures LinkOk(i) { assert old(LinkOk(i)); }
      forall i | 0 <= i <= cur ensures DataOk(i) {
        if i < cur { assert old(DataOk(i)); }
      }
    }

    /** The last block is full: a further one behind it. */
    method NewBlock()
      requires Valid() && curblk.next == null
      modifies this, curblk
      ensures Valid() && curblk.next != null && contents == old(contents) && cur == old(cur) && curp == old(curp)
      ensures |chain| == |old(chain)| + 1 && chain[..|old(chain)|] == old(chain)
      ensures fresh(Repr - old(Repr))
    {
      assert LinkOk(cur);
      var bp := new Blk(BIGBUF, curblk);
      curblk.next := bp;
      chain := chain + [bp];
      Repr := Repr + {bp, bp.data};
      forall i | 0 <= i < |chain| ensures LinkOk(i) {
        if i < |chain| - 1 { assert old(LinkOk(i)); }
      }
      forall i | 0 <= i <= cur ensures DataOk(i) { assert old(DataOk(i)); }
    }

    method Put(n: Node)
      requires Valid() && curp < curblk.data.Length
      modifies this, curblk.data
      ensures Valid() && Repr == old(Repr) && contents == old(contents) + [n]
    {
      assert LinkOk(cur);
      curblk.data[curp] := n;
      curp := curp + 1;
      contents := contents + [n];
      forall i | 0 <= i < |chain| ensures LinkOk(i) { assert old(LinkOk(i)); }
      forall i | 0 <= i <= cur ensures DataOk(i) {
        assert old(DataOk(i)) && LinkOk(i);
        if i < cur { Offsets(i, cur); }
      }
    }

    method Pop() returns (r: Node, some: bool)
      requires Valid()
      modifies this
      ensures Valid() && Repr == old(Repr)
      ensures some == (old(contents) != [])
      ensures if some then old(contents) == contents + [r] else contents == []
    {
      r, some := 0, false;
      assert LinkOk(cur);
      if curp == 0 {
        assert chain[0] == fstblk && (cur > 0 ==> chain[0] != chain[cur]);
        if curblk == fstblk {
          return;
        }
        Back();
      }
      r := Take();
      some := true;
    }

    /** Back to the block before, which is full. */
    method Back()
      requires Valid() && curp == 0 && cur > 0
      modifies this
      ensures Valid() && Repr == old(Repr) && contents == old(contents) && curp > 0
    {
      assert LinkOk(cur) && LinkOk(cur - 1);
      curblk := curblk.prev;
      cur := cur - 1;
      curp := curblk.data.Length;
      forall i | 0 <= i < |chain| ensures LinkOk(i) { assert old(LinkOk(i)); }
      forall i | 0 <= i <= cur ensures DataOk(i) { assert old(DataOk(i)); }
    }

    /** The entry below the top of a block. */
    method Take() returns (r: Node)
      requires Valid() && curp > 0
      modifies this
      ensures Valid() && Repr == old(Repr) && old(contents) == contents + [r]
    {
      assert LinkOk(cur) && DataOk(cur);
      curp := curp - 1;
      r := curblk.data[curp];
      contents := contents[..|contents| - 1];
      forall i | 0 <= i < |chain| ensures LinkOk(i) { assert old(LinkOk(i)); }
      forall i | 0 <= i <= cur ensures DataOk(i) { assert old(DataOk(i)); }
    }
  }

  // ---- components ----

  /** The nodes that n is connected with. */
  ghost function Component(g: Graph, n: Node): set<Node> {
    set v | v in g && Joined(g, g.Keys, n, v)
  }

  /** No edge joins a marked node with an unmarked one. */
  ghost predicate Closed(g: Graph, mark: map<Node, int>) {
    forall u, v :: u in mark && v in mark && Nbr(g, u, v) && mark[u] != 0 ==> mark[v] != 0
  }

  /** Between two pops: `out` was popped, `st` is pushed and marked -1, both reached from root; all
      neighbours of the popped nodes are marked. */
  ghost predicate Search(g: Graph, m0: map<Node, int>, m: map<Node, int>, st: seq<Node>, out: set<Node>, root: Node) {
    && Marks(g, m0, m, st, out)
    && (forall v :: v in out || v in st ==> Joined(g, g.Keys, root, v))
    && (forall u, v :: u in out && v in g && Nbr(g, u, v) ==> m[v] != 0)
    && (root in out || root in st)
  }

  ghost predicate Marks(g: Graph, m0: map<Node, int>, m: map<Node, int>, st: seq<Node>, out: set<Node>) {
    && m.Keys == g.Keys && m0.Keys == g.Keys && out <= g.Keys && (forall v :: v in st ==> v in g && v !in out)
    && (forall i, j :: 0 <= i < j < |st| ==> st[i] != st[j])
    && (forall v :: v in out || v in st ==> m0[v] == 0)
    && (forall v :: v in g ==> m[v] == if v in out then 1 else if v in st then -1 else m0[v])
  }

  /** While the edges of the popped node n are looked at, i of them so far. */
  ghost predicate Scanning(g: Graph, m0: map<Node, int>, m: map<Node, int>, st: seq<Node>, out: set<Node>, root: Node,
                           n: Node, i: nat)
    requires n in g && i <= |g[n]|
  {
    && Marks(g, m0, m, st, out) && n in out
    && (forall v :: v in out || v in st ==> Joined(g, g.Keys, root, v))
    && (forall u, v :: u in out && u != n && v in g && Nbr(g, u, v) ==> m[v] != 0)
    && (forall k :: 0 <= k < i ==> Other(g[n][k], n) in g && m[Other(g[n][k], n)] != 0)
    && (root in out || root in st)
  }

  lemma PopScans(g: Graph, m0: map<Node, int>, m: map<Node, int>, st: seq<Node>, out: set<Node>, root: Node, n: Node)
    requires Search(g, m0, m, st + [n], out, root)
    ensures n in g && n !in out && Scanning(g, m0, m[n := 1], st, out + {n}, root, n, 0)
  {
    var s := st + [n];
    assert s[|s| - 1] == n && n in s;
    forall v | v in st ensures v in s && v != n {
      var i :| 0 <= i < |st| && st[i] == v;
      assert s[i] == v;
    }
    assert forall v :: v in s <==> v in st || v == n;
    forall i, j | 0 <= i < j < |st| ensures st[i] != st[j] { assert s[i] != s[j]; }
  }

  /** One edge: its other end is pushed unless it is marked. */
  lemma EdgeScans(g: Graph, m0: map<Node, int>, m: map<Node, int>, st: seq<Node>, out: set<Node>, root: Node, n: Node,
                  i: nat)
    requires GraphOk(g) && n in g && i < |g[n]| && Scanning(g, m0, m, st, out, root, n, i)
    ensures var w := Other(g[n][i], n);
      && w in g
      && (m[w] != 0 ==> Scanning(g, m0, m, st, out, root, n, i + 1))
      && (m[w] == 0 ==> Scanning(g, m0, m[w := -1], st + [w], out, root, n, i + 1))
  {
    hide Joined, Nbr, Marks, NodeOk;
    var w := Other(g[n][i], n);
    EdgeEnd(g, n, i);
    MarksKeys(g, m0, m, st, out);
    if m[w] == 0 {
      JoinedSelf(g, g.Keys, w);
      JoinedStep(g, g.Keys, n, w, w);
      JoinedTrans(g, g.Keys, root, n, w);
      MarkPush(g, m0, m, st, out, w);
    }
  }

  lemma EdgeEnd(g: Graph, n: Node, i: nat)
    requires GraphOk(g) && n in g && i < |g[n]|
    ensures Other(g[n][i], n) in g && Nbr(g, n, Other(g[n][i], n))
  {
    assert NodeOk(g, n);
    assert EdgeOk(g, n, g[n][i]);
  }

  lemma MarksKeys(g: Graph, m0: map<Node, int>, m: map<Node, int>, st: seq<Node>, out: set<Node>)
    requires Marks(g, m0, m, st, out)
    ensures m.Keys == g.Keys && out <= g.Keys
  {
  }

  lemma MarkPush(g: Graph, m0: map<Node, int>, m: map<Node, int>, st: seq<Node>, out: set<Node>, w: Node)
    requires Marks(g, m0, m, st, out) && w in g && m[w] == 0
    ensures Marks(g, m0, m[w := -1], st + [w], out)
    ensures forall v :: v in st + [w] <==> v in st || v == w
  {
  }

  lemma ScanEnds(g: Graph, m0: map<Node, int>, m: map<Node, int>, st: seq<Node>, out: set<Node>, root: Node, n: Node)
    requires n in g && Scanning(g, m0, m, st, out, root, n, |g[n]|)
    ensures Search(g, m0, m, st, out, root)
  {
    forall v | v in g && Nbr(g, n, v) ensures m[v] != 0 {
      var k :| 0 <= k < |g[n]| && Other(g[n][k], n) == v;
    }
  }

  /** With nothing left on the stack the popped nodes are the component. */
  lemma SearchEnds(g: Graph, m0: map<Node, int>, m: map<Node, int>, out: set<Node>, root: Node)
    requires GraphOk(g) && Search(g, m0, m, [], out, root) && Closed(g, m0)
    ensures out == Component(g, root) && Closed(g, m)
  {
    forall u, v | u in out && v in g && Nbr(g, u, v) ensures v in out {
      NbrSymmetric(g, u, v);
    }
    forall v | v in Component(g, root) ensures v in out {
      var p :| IsWalk(g, g.Keys, p) && p[0] == root && p[|p| - 1] == v;
      WalkStays(g, g.Keys, out, p, |p| - 1);
    }
    forall u, v | u in m && v in m && Nbr(g, u, v) && m[u] != 0 ensures m[v] != 0 {}
  }

  lemma SearchStarts(g: Graph, m0: map<Node, int>, root: Node)
    requires m0.Keys == g.Keys && root in g && m0[root] == 0
    ensures Search(g, m0, m0[root := -1], [root], {}, root)
  {
    JoinedSelf(g, g.Keys, root);
  }

  class Tool {
    const g: Graph
    const stk: Stk
    var mark: map<Node, int>

    ghost predicate Ready()
      reads this, stk, stk.Repr
    {
      stk.Valid() && GraphOk(g) && mark.Keys == g.Keys
    }

    constructor (g: Graph)
      requires GraphOk(g)
      ensures Ready() && this.g == g && stk.contents == [] && fresh(stk.Repr) && this !in stk.Repr
      ensures forall v :: v in g ==> mark[v] == 0
    {
      this.g := g;
      stk := new Stk();
      mark := map v | v in g :: 0;
    }

    /** push, which also marks the node. */
    method Push(n: Node)
      requires Ready() && n in g && this !in stk.Repr
      modifies this, stk.Repr
      ensures Ready() && this !in stk.Repr && fresh(stk.Repr - old(stk.Repr))
      ensures stk.contents == old(stk.contents) + [n] && mark == old(mark)[n := -1]
    {
      mark := mark[n := -1];
      stk.Push(n);
    }

    /** dfs: the component of a node that is not marked yet, and its size. */
    method Dfs(root: Node) returns (out: set<Node>, cnt: nat)
      requires Ready() && this !in stk.Repr && stk.contents == [] && root in g && mark[root] == 0 && Closed(g, mark)
      modifies this, stk.Repr
      ensures Ready() && this !in stk.Repr && fresh(stk.Repr - old(stk.Repr)) && stk.contents == []
      ensures out == Component(g, root) && cnt == |out| && Closed(g, mark)
      ensures forall v :: v in g ==> mark[v] == if v in out then 1 else old(mark)[v]
    {
      hide Closed, GraphOk, Search, Stk.Valid;
      ghost var m0 := mark;
      out, cnt := {}, 0;
      SearchStarts(g, m0, root);
      Push(root);
      assert stk.contents == [root];
      while true
        invariant Ready() && this !in stk.Repr && fresh(stk.Repr - old(stk.Repr))
        invariant Search(g, m0, mark, stk.contents, out, root) && cnt == |out| && out <= g.Keys
        decreases |g.Keys - out|
      {
        var n, some := stk.Pop();
        if !some { break; }
        SearchPops(g, m0, mark, stk.contents, out, root, n);
        cnt := cnt + 1;
        Visit(n, out, m0, root);
        out := out + {n};
      }
      SearchEnds(g, m0, mark, out, root);
      SearchMarks(g, m0, mark, out, root);
    }

    /** dfs between two pops. */
    method Visit(n: Node, ghost out: set<Node>, ghost m0: map<Node, int>, ghost root: Node)
      requires Ready() && this !in stk.Repr && Search(g, m0, mark, stk.contents + [n], out, root)
      modifies this, stk.Repr
      ensures Ready() && this !in stk.Repr && fresh(stk.Repr - old(stk.Repr))
      ensures Search(g, m0, mark, stk.contents, out + {n}, root)
    {
      hide GraphOk, Search, Scanning, Stk.Valid;
      PopScans(g, m0, mark, stk.contents, out, root, n);
      mark := mark[n := 1];
      ScanEdges(n, out + {n}, m0, root);
    }

    /** The loop of dfs over the edges of the popped node. */
    method ScanEdges(n: Node, ghost out: set<Node>, ghost m0: map<Node, int>, ghost root: Node)
      requires Ready() && this !in stk.Repr && n in g && Scanning(g, m0, mark, stk.contents, out, root, n, 0)
      modifies this, stk.Repr
      ensures Ready() && this !in stk.Repr && fresh(stk.Repr - old(stk.Repr))
      ensures Search(g, m0, mark, stk.contents, out, root)
    {
      hide GraphOk, Search, Scanning, Stk.Valid;
      var i := 0;
      while i < |g[n]|
        invariant i <= |g[n]| && Ready() && this !in stk.Repr && fresh(stk.Repr - old(stk.Repr))
        invariant Scanning(g, m0, mark, stk.contents, out, root, n, i)
      {
        EdgeScans(g, m0, mark, stk.contents, out, root, n, i);
        var other := Other(g[n][i], n);
        if mark[other] == 0 {
          Push(other);
        }
        i := i + 1;
      }
      ScanEnds(g, m0, mark, stk.contents, out, root, n);
    }

    /** The loop of process over all nodes; it returns whether there is more than one component. */
    method Process(nodes: seq<Node>) returns (comps: seq<set<Node>>, many: bool)
      requires Ready() && this !in stk.Repr && stk.contents == []
      requires (forall v :: v in nodes <==> v in g) && forall v :: v in g ==> mark[v] == 0
      modifies this, stk.Repr
      ensures forall i, v :: 0 <= i < |comps| && v in comps[i] ==> v in g && comps[i] == Component(g, v)
      ensures forall v :: v in g ==> exists i :: 0 <= i < |comps| && v in comps[i]
      ensures forall i, j :: 0 <= i < j < |comps| ==> comps[i] !! comps[j]
      ensures many <==> exists u, v :: u in g && v in g && !Joined(g, g.Keys, u, v)
    {
      hide Closed, GraphOk, Component, Found, Stk.Valid;
      comps := [];
      AllOpen(g, mark);
      NoneYet(g, mark, nodes);
      for k := 0 to |nodes|
        invariant Ready() && this !in stk.Repr && fresh(stk.Repr - old(stk.Repr)) && stk.contents == []
        invariant Closed(g, mark) && Found(g, mark, comps) && forall i :: 0 <= i < k ==> mark[nodes[i]] != 0
      {
        var n := nodes[k];
        if mark[n] == 0 {
          ghost var m0 := mark;
          var out, cnt := Dfs(n);
          JoinedSelf(g, g.Keys, n);
          InComponent(g, n, n);
          OneMore(g, m0, mark, comps, n);
          comps := comps + [out];
        }
        assert forall i :: 0 <= i < k ==> nodes[i] in nodes && nodes[i] in g;
      }
      many := |comps| > 1;
      AllFound(g, mark, comps);
    }
  }

  lemma SearchPops(g: Graph, m0: map<Node, int>, m: map<Node, int>, st: seq<Node>, out: set<Node>, root: Node, n: Node)
    requires Search(g, m0, m, st + [n], out, root)
    ensures out + {n} <= g.Keys && |out + {n}| == |out| + 1 && |g.Keys - (out + {n})| < |g.Keys - out|
  {
    assert (st + [n])[|st|] == n;
    OutGrows(g.Keys, out, n);
  }

  lemma OutGrows(keys: set<Node>, out: set<Node>, n: Node)
    requires n in keys && n !in out && out <= keys
    ensures |out + {n}| == |out| + 1 && |keys - (out + {n})| < |keys - out|
  {
    assert keys - (out + {n}) == keys - out - {n};
  }

  lemma SearchMarks(g: Graph, m0: map<Node, int>, m: map<Node, int>, out: set<Node>, root: Node)
    requires Search(g, m0, m, [], out, root)
    ensures forall v :: v in g ==> m[v] == if v in out then 1 else m0[v]
  {
  }

  /** The components found so far hold exactly the marked nodes, each in one. */
  ghost predicate Found(g: Graph, m: map<Node, int>, comps: seq<set<Node>>) {
    && m.Keys == g.Keys
    && (forall i, v :: 0 <= i < |comps| && v in comps[i] ==> v in g && comps[i] == Component(g, v) && m[v] != 0)
    && (forall v :: v in g && m[v] != 0 ==> exists i :: 0 <= i < |comps| && v in comps[i])
    && (forall i, j :: 0 <= i < j < |comps| ==> comps[i] !! comps[j])
    && (forall i :: 0 <= i < |comps| ==> comps[i] != {})
  }

  lemma AllOpen(g: Graph, m: map<Node, int>)
    requires forall v :: v in m ==> m[v] == 0
    ensures Closed(g, m)
  {
  }

  lemma NoneYet(g: Graph, m: map<Node, int>, nodes: seq<Node>)
    requires m.Keys == g.Keys && forall v :: v in g ==> m[v] == 0
    ensures Found(g, m, [])
  {
  }

  lemma InComponent(g: Graph, u: Node, v: Node)
    ensures v in Component(g, u) <==> v in g && Joined(g, g.Keys, u, v)
  {
  }

  /** All nodes of a component have the same component. */
  lemma SameComponent(g: Graph, n: Node, v: Node)
    requires GraphOk(g) && v in Component(g, n)
    ensures Component(g, v) == Component(g, n)
  {
    JoinedSymmetric(g, g.Keys, n, v);
    forall w | w in Component(g, v) ensures w in Component(g, n) { JoinedTrans(g, g.Keys, n, v, w); }
    forall w | w in Component(g, n) ensures w in Component(g, v) { JoinedTrans(g, g.Keys, v, n, w); }
  }

  lemma Meet(g: Graph, m: map<Node, int>, comps: seq<set<Node>>, n: Node, i: nat, v: Node)
    requires GraphOk(g) && Found(g, m, comps) && i < |comps| && v in comps[i] && v in Component(g, n) && n in g
    ensures m[n] != 0
  {
    SameComponent(g, n, v);
    JoinedSelf(g, g.Keys, n);
    assert n in comps[i];
  }

  lemma OneMore(g: Graph, m0: map<Node, int>, m: map<Node, int>, comps: seq<set<Node>>, n: Node)
    requires GraphOk(g) && Found(g, m0, comps) && n in g && m0[n] == 0 && m.Keys == g.Keys
    requires forall v :: v in g ==> m[v] == if v in Component(g, n) then 1 else m0[v]
    ensures Found(g, m, comps + [Component(g, n)])
  {
    hide Component, Joined;
    var out := Component(g, n);
    InComponent(g, n, n);
    JoinedSelf(g, g.Keys, n);
    forall i | 0 <= i < |comps| ensures comps[i] !! out {
      if v :| v in comps[i] && v in out { Meet(g, m0, comps, n, i, v); }
    }
    forall v | v in out ensures v in g && out == Component(g, v) {
      InComponent(g, n, v);
      SameComponent(g, n, v);
    }
    var all := comps + [out];
    forall v | v in g && m[v] != 0 ensures exists i :: 0 <= i < |all| && v in all[i] {
      if v in out {
        assert v in all[|comps|];
      } else {
        var i :| 0 <= i < |comps| && v in comps[i];
        assert v in all[i];
      }
    }
  }

  lemma AllFound(g: Graph, m: map<Node, int>, comps: seq<set<Node>>)
    requires Found(g, m, comps) && forall v :: v in g ==> m[v] != 0
    ensures |comps| > 1 <==> exists u, v :: u in g && v in g && !Joined(g, g.Keys, u, v)
    ensures forall i, v :: 0 <= i < |comps| && v in comps[i] ==> v in g && comps[i] == Component(g, v)
    ensures forall v :: v in g ==> exists i :: 0 <= i < |comps| && v in comps[i]
    ensures forall i, j :: 0 <= i < j < |comps| ==> comps[i] !! comps[j]
  {
    hide Component, Joined;
    if |comps| > 1 {
      var u :| u in comps[0];
      var v :| v in comps[1];
      assert v !in Component(g, u);
      InComponent(g, u, v);
    }
    if u, v :| u in g && v in g && !Joined(g, g.Keys, u, v) {
      var i :| 0 <= i < |comps| && u in comps[i];
      var j :| 0 <= j < |comps| && v in comps[j];
      InComponent(g, u, v);
      assert v !in comps[i];
    }
  }
}
