/** Tcopy of cmd/lefty/tbl.c in place, with the collections that its allocations start. */
module TableCopier {
  import C = Collector
  import R = CollectorRuns
  import X = CollectorExact
  import K = CollectorCopy
  import S = CollectorShallow
  import opened Table
  import opened TableOps
  import opened TableCopy

  // ---- tables and what the collector sees of them ----

  /** The collector sees the entries of each table in the order of its buckets. */
  ghost predicate Tied(h: Heap, o: map<Ref, C.Obj>) {
    && (forall p :: p in h <==> p in o && o[p].Table?)
    && forall p :: p in h ==> o[p] == ObjOf(h[p])
  }

  ghost function ObjOf(t: Tab): C.Obj {
    C.Obj.Table(Kvs(Flat(t.ls)))
  }

  lemma EntryPoints(t: Tab, b: nat, i: nat)
    requires b < |t.ls| && i < |Kv(t.ls[b])|
    ensures var e := Kv(t.ls[b])[i];
      && R.InEntries(ObjOf(t), e.ko) && R.InEntries(ObjOf(t), e.vo)
      && (e.ko.At? ==> R.Points(ObjOf(t), e.ko.p)) && (e.vo.At? ==> R.Points(ObjOf(t), e.vo.p))
  {
    hide Flat;
    FlatAt(t.ls, b, i);
    var x, e := |Flat(t.ls[..b])| + i, Kv(t.ls[b])[i];
    assert Kvs(Flat(t.ls))[x] == C.Kv(e.ko, e.vo);
    if e.ko.At? { assert R.KvHas(ObjOf(t).kvs[x], e.ko.p); }
    if e.vo.At? { assert R.KvHas(ObjOf(t).kvs[x], e.vo.p); }
  }

  /** At the start g the tables of the source are in use, with these entries. */
  ghost predicate InUse(s: Source, g: C.State) {
    && (forall f :: f in s.src ==> R.Reachable(g, f) && f in g.objs && g.objs[f] == ObjOf(s.src[f]))
    && forall p :: p in s.scal ==> R.Reachable(g, p)
  }

  lemma {:induction false} TableInUse(h: Heap, g: C.State, root: Ref, f: Ref, n: nat)
    requires Tied(h, g.objs) && root in h && R.Reachable(g, root) && ReachIn(h, root, f, n)
    ensures R.Reachable(g, f) && f in h
    decreases n
  {
    hide R.Reachable, ObjOf, HasVo;
    if n > 0 {
      var p :| ReachIn(h, root, p, n - 1) && p in h && f in h && HasVo(h[p], C.At(f));
      TableInUse(h, g, root, p, n - 1);
      ValueInUse(h, g, p, C.At(f));
    }
  }

  lemma ValueInUse(h: Heap, g: C.State, f: Ref, v: Ptr)
    requires Tied(h, g.objs) && f in h && R.Reachable(g, f) && HasVo(h[f], v) && v.At?
    ensures R.Reachable(g, v.p)
  {
    hide R.Reachable, ObjOf;
    var b, i :| 0 <= b < |h[f].ls| && 0 <= i < |Kv(h[f].ls[b])| && Kv(h[f].ls[b])[i].vo == v;
    EntryPoints(h[f], b, i);
    R.ReachStep(g, f, v.p);
  }

  lemma SourceInUse(h: Heap, g: C.State, root: Ref)
    requires Tied(h, g.objs) && root in h && R.Reachable(g, root)
    ensures InUse(SourceOf(h, root), g)
  {
    var s := SourceOf(h, root);
    hide R.Reachable, ObjOf, ReachIn;
    forall f | f in s.src ensures R.Reachable(g, f) {
      var n: nat :| ReachIn(h, root, f, n);
      TableInUse(h, g, root, f, n);
    }
    forall p | p in s.scal ensures R.Reachable(g, p) {
      var f :| f in s.src && p in Values(s.src[f]) && p !in s.src;
      var b, j :| 0 <= b < |s.src[f].ls| && 0 <= j < |Kv(s.src[f].ls[b])| && Kv(s.src[f].ls[b])[j].vo == C.At(p);
      assert HasVo(h[f], C.At(p));
      ValueInUse(h, g, f, C.At(p));
    }
  }

  /** Key and value of an entry of the source are in use. */
  lemma EntryInUse(s: Source, g: C.State, f: Ref, b: nat, i: nat)
    requires InUse(s, g) && f in s.src && b < |s.src[f].ls| && i < |Kv(s.src[f].ls[b])|
    ensures var e := Kv(s.src[f].ls[b])[i];
      (e.ko.At? ==> R.Reachable(g, e.ko.p)) && (e.vo.At? ==> R.Reachable(g, e.vo.p))
  {
    hide R.Reachable, ObjOf;
    var e := Kv(s.src[f].ls[b])[i];
    EntryPoints(s.src[f], b, i);
    if e.ko.At? { R.ReachStep(g, f, e.ko.p); }
    if e.vo.At? { R.ReachStep(g, f, e.vo.p); }
  }

  // ---- what a step does to the tie ----

  /** The tables that are still allocated. */
  function Rest(h: Heap, u: map<Ref, C.Obj>): Heap {
    map p | p in h && p in u :: h[p]
  }

  lemma TiedFrees(h: Heap, o: map<Ref, C.Obj>, u: map<Ref, C.Obj>)
    requires Tied(h, o) && forall p :: p in u ==> p in o && u[p] == o[p]
    ensures Tied(Rest(h, u), u)
  {
    hide ObjOf;
  }

  lemma {:induction false} FlatEmpty(ls: seq<List>)
    requires forall b :: 0 <= b < |ls| ==> Kv(ls[b]) == []
    ensures Flat(ls) == []
  {
    if ls != [] { FlatEmpty(ls[..|ls| - 1]); }
  }

  lemma TiedNew(h: Heap, o: map<Ref, C.Obj>, to: Ref, t: Tab)
    requires Tied(h, o) && forall b :: 0 <= b < |t.ls| ==> Kv(t.ls[b]) == []
    ensures Tied(h[to := t], o[to := C.Obj.Table([])])
  {
    FlatEmpty(t.ls);
  }

  /** A further entry in bucket i, with nothing in the buckets after it. */
  lemma FlatAppend(ls: seq<List>, i: nat, e: Entry)
    requires i < |ls| && ls[i].List? && forall b :: i < b < |ls| ==> Kv(ls[b]) == []
    ensures Flat(ls[i := List(ls[i].n, ls[i].kv + [e])]) == Flat(ls) + [e]
  {
    hide Flat;
    var ms := ls[i := List(ls[i].n, ls[i].kv + [e])];
    FlatCut(ls, i);
    FlatCut(ms, i);
    assert ms[..i] == ls[..i] && ms[i + 1..] == ls[i + 1..];
    FlatEmpty(ls[i + 1..]);
  }

  lemma TiedAppend(h: Heap, o: map<Ref, C.Obj>, to: Ref, i: nat, e: Entry)
    requires Tied(h, o) && to in h && i < |h[to].ls| && h[to].ls[i].List?
    requires forall b :: i < b < |h[to].ls| ==> Kv(h[to].ls[b]) == []
    ensures to in o && o[to].Table?
    ensures var l := h[to].ls[i];
      var t := h[to].(ls := h[to].ls[i := List(l.n, l.kv + [e])]);
      Tied(h[to := t], o[to := C.Obj.Table(o[to].kvs + [C.Kv(e.ko, e.vo)])])
  {
    hide Flat;
    FlatAppend(h[to].ls, i, e);
    assert Kvs(Flat(h[to].ls) + [e]) == Kvs(Flat(h[to].ls)) + [C.Kv(e.ko, e.vo)];
  }

  lemma LaterEmpty(src: Heap, m: map<Ref, Ref>, t: Tab, c: Tab, i: nat, k: nat)
    requires PartImage(src, m, t, c, i, k)
    ensures |c.ls| == |t.ls| && forall b :: i < b < |c.ls| ==> Kv(c.ls[b]) == []
  {
    forall b | i < b < |c.ls| ensures Kv(c.ls[b]) == [] { assert ListImage(src, m, t.ls[b], c.ls[b], 0); }
  }

  /** A table of the source holds a null value. */
  ghost predicate HasNull(s: Source) {
    exists f :: f in s.src && HasVo(s.src[f], C.Null)
  }

  /** Nested tables hold no tables, but for the one that is copied and themselves. */
  ghost predicate Shallow(s: Source) {
    forall f, v :: f in s.src && f != s.root && v in s.src && HasVo(s.src[f], C.At(v)) ==> v == s.root || v == f
  }

  lemma KeysGrow(m: map<Ref, Ref>, n: map<Ref, Ref>, d: set<Ref>)
    requires Extends(m, n)
    ensures |d - n.Keys| <= |d - m.Keys|
  {
    assert d - n.Keys <= d - m.Keys;
    if d - n.Keys != d - m.Keys { SetShrinks(d - n.Keys, d - m.Keys); }
  }

  lemma SetShrinks(a: set<Ref>, b: set<Ref>)
    requires a < b
    ensures |a| < |b|
  {
    var x :| x in b - a;
    assert |b - a| > 0 && b == a + (b - a);
  }

  lemma FreeRef(d: set<Ref>)
    ensures exists p: Ref :: p !in d
  {
    var n := Above(d);
    assert n !in d;
  }

  ghost function Above(d: set<Ref>): (n: Ref)
    ensures forall p :: p in d ==> p < n
    decreases |d|
  {
    if d == {} then 0
    else
      var x :| x in d;
      var n := Above(d - {x});
      assert forall p :: p in d ==> p == x || p in d - {x};
      if x < n then n else x + 1
  }

  /** Source and copies survive a collection. */
  lemma Survivors(s: Source, g: C.State, u: C.State, ks: seq<Ref>, t: State)
    requires K.Making(g, u, ks, {}) && InUse(s, g) && t.copies.Values == K.Elems(ks)
    ensures Left(s, t, Rest(t.tabs, u.objs)) && (forall p :: p in s.scal ==> p in u.objs)
    ensures forall p :: p in Rest(t.tabs, u.objs) ==> p in u.objs
  {
    hide R.Reachable, ObjOf, X.Lax;
    forall f | f in t.copies ensures t.copies[f] in u.objs {
      assert t.copies[f] in t.copies.Values;
      assert X.IsTable(u, t.copies[f]);
    }
  }

  lemma NewTied(h: Heap, o: map<Ref, C.Obj>, u: map<Ref, C.Obj>, to: Ref)
    requires Tied(h, o) && forall p :: p in u ==> p in o && u[p] == o[p]
    ensures Tied(Rest(h, u)[to := Tab(0, [])], u[to := C.Obj.Table([])])
  {
    hide Tied, Rest;
    TiedFrees(h, o, u);
    TiedNew(Rest(h, u), u, to, Tab(0, []));
  }

  lemma NewElem(ks: seq<Ref>, m: map<Ref, Ref>, fm: Ref, to: Ref, u: C.State, g: C.State)
    requires m.Values == K.Elems(ks) && C.Distinct(ks) && fm !in m && K.Making(g, u, ks, {}) && to !in u.objs
    ensures m[fm := to].Values == K.Elems(ks + [to]) && C.Distinct(ks + [to])
  {
    forall k | k in ks ensures k != to { assert X.IsTable(u, k); }
    var n := m[fm := to];
    forall p | p in m.Values + {to} ensures p in n.Values {
      if p == to { assert n[fm] == to; } else { var f :| f in m && m[f] == p; assert n[f] == p; }
    }
    assert n.Values == m.Values + {to};
  }

  /** All that was in use is as it was, and is none of the new tables. */
  ghost predicate Spared(was: C.State, now: C.State, made: set<Ref>) {
    forall p :: R.Reachable(was, p) ==>
      p in was.objs && p in now.objs && now.objs[p] == was.objs[p] && p !in made
  }

  /** An allocation that finds a free cell starts no cycle. */
  lemma PrepareQuiet(c: C.State, r: C.Refill)
    ensures r.Cell? && !c.on ==> !C.Prepare(c, r).on
  {
  }

  lemma QuietTidy(c: C.State, ks: set<Ref>)
    requires !c.on
    ensures X.Tidy(c, ks)
  {
  }

  // ---- shallow sources ----

  /** While the root of a shallow source is copied: its copy is right above it on the mark stack, every
      finished copy is stored in that copy, but for w, and w may be stored there too. */
  ghost predicate Front(s: Source, c: C.State, m: map<Ref, Ref>, w: Ptr) {
    && s.root in m && S.Paired(c, s.root, m[s.root])
    && (forall f :: f in m ==>
      m[f] == m[s.root] || R.InEntries(c.objs[m[s.root]], C.At(m[f])) || w == C.At(m[f]))
    && C.Live(c, w) && (R.WasScanned(c, m[s.root]) ==> C.MarkedPtr(c, w))
  }

  /** While a nested table is copied: nothing has changed since g1 and m0 but the entries of its copy, which
      is not scanned. */
  ghost predicate Alone(c: C.State, m: map<Ref, Ref>, fm: Ref, g1: C.State, m0: map<Ref, Ref>)
    requires fm in m
  {
    && C.Inv(c) && !R.WasScanned(c, m[fm]) && m == m0 && X.IsTable(c, m[fm])
    && c == g1.(objs := g1.objs[m[fm] := c.objs[m[fm]]])
  }

  ghost predicate Neat(s: Source, c: C.State, m: map<Ref, Ref>, fm: Ref, g1: C.State, m0: map<Ref, Ref>, w: Ptr) {
    Shallow(s) ==> s.root in m && fm in m && if fm == s.root then Front(s, c, m, w) else Alone(c, m, fm, g1, m0)
  }

  /** The copy of fm is allocated, but not marked yet. */
  ghost predicate NeatStart(s: Source, c: C.State, m: map<Ref, Ref>, fm: Ref, to: Ref) {
    Shallow(s) ==> (
      && s.root in m && fm in m && m[fm] == to
      && if fm == s.root then S.Paired(C.Push(c, C.At(to)), fm, to) && m == map[fm := to]
         else C.Inv(c) && !R.WasScanned(c, to))
  }

  lemma KnownPtr(s: Source, c: C.State, m: map<Ref, Ref>, v: Ptr, w: Ptr)
    requires Front(s, c, m, v)
    requires w == C.At(m[s.root]) || R.InEntries(c.objs[s.root], w) || R.InEntries(c.objs[m[s.root]], w)
    ensures C.Live(c, w) && (R.WasScanned(c, m[s.root]) ==> C.MarkedPtr(c, w))
  {
    S.PairedMeans(c, s.root, m[s.root]);
    hide C.Inv, S.Paired, R.InEntries, R.WasScanned;
    S.KnownMarked(c, s.root, m[s.root], w);
  }

  lemma NeatKnown(s: Source, c: C.State, m: map<Ref, Ref>, fm: Ref, g1: C.State, m0: map<Ref, Ref>, p: Ref)
    requires Neat(s, c, m, fm, g1, m0, C.Null) && p in m
    ensures Neat(s, c, m, fm, g1, m0, C.At(m[p]))
  {
    if Shallow(s) && fm == s.root {
      KnownPtr(s, c, m, C.Null, C.At(m[p]));
    }
  }

  lemma ValueEntry(s: Source, g: C.State, c: C.State, ks: seq<Ref>, loose: set<Ref>, fm: Ref, v: Ptr)
    requires K.Making(g, c, ks, loose) && InUse(s, g) && fm in s.src && HasVo(s.src[fm], v)
    ensures fm in c.objs && c.objs[fm] == ObjOf(s.src[fm]) && R.InEntries(c.objs[fm], v)
  {
    hide X.Lax, R.Reachable, ObjOf;
    var b, i :| 0 <= b < |s.src[fm].ls| && 0 <= i < |Kv(s.src[fm].ls[b])| && Kv(s.src[fm].ls[b])[i].vo == v;
    EntryPoints(s.src[fm], b, i);
  }

  lemma KeyEntry(s: Source, g: C.State, c: C.State, ks: seq<Ref>, loose: set<Ref>, fm: Ref, b: nat, i: nat)
    requires K.Making(g, c, ks, loose) && InUse(s, g) && fm in s.src && b < |s.src[fm].ls| && i < |Kv(s.src[fm].ls[b])|
    ensures fm in c.objs && R.InEntries(c.objs[fm], Kv(s.src[fm].ls[b])[i].ko)
  {
    hide X.Lax, R.Reachable, ObjOf;
    EntryPoints(s.src[fm], b, i);
  }

  lemma NeatShared(s: Source, g: C.State, c: C.State, m: map<Ref, Ref>, ks: seq<Ref>, fm: Ref, g1: C.State,
      m0: map<Ref, Ref>, v: Ptr)
    requires Neat(s, c, m, fm, g1, m0, C.Null) && K.Making(g, c, ks, {}) && InUse(s, g)
    requires fm in s.src && HasVo(s.src[fm], v)
    ensures Neat(s, c, m, fm, g1, m0, v)
  {
    hide K.Making, InUse, HasVo, R.InEntries, S.Paired;
    ValueEntry(s, g, c, ks, {}, fm, v);
    if Shallow(s) && fm == s.root {
      KnownPtr(s, c, m, C.Null, v);
    }
  }

  lemma NeatNew(s: Source, c: C.State, m: map<Ref, Ref>, fm: Ref, g1: C.State, m0: map<Ref, Ref>, v: Ref)
    requires Neat(s, c, m, fm, g1, m0, C.Null) && fm in s.src && v in s.src && HasVo(s.src[fm], C.At(v)) && v !in m
    ensures Shallow(s) ==> fm == s.root
  {
    hide HasVo, Front, Alone;
  }

  /** The copy of a nested table is allocated while the root is copied. */
  lemma NestedStarts(s: Source, c: C.State, m: map<Ref, Ref>, in_: Ref, g1: C.State, m0: map<Ref, Ref>, fm: Ref,
      to: Ref, r: C.Refill)
    requires Neat(s, c, m, in_, g1, m0, C.Null) && (Shallow(s) ==> in_ == s.root) && fm !in m
    requires to !in C.Prepare(c, r).objs
    ensures NeatStart(s, C.Alloc(c, to, C.Obj.Table([]), r), m[fm := to], fm, to) && (Shallow(s) ==> fm != s.root)
  {
    hide Shallow, S.Paired, C.Inv;
    if Shallow(s) { S.NestedBorn(c, s.root, m[s.root], to, r); }
  }

  /** The copy of the root is allocated. */
  lemma RootStarts(s: Source, c: C.State, fm: Ref, to: Ref, r: C.Refill)
    requires C.Inv(c) && X.IsTable(c, fm) && |c.marks| > 0 && c.marks[|c.marks| - 1] == C.At(fm) && s.root == fm
    requires to !in C.Prepare(c, r).objs
    ensures NeatStart(s, C.Alloc(c, to, C.Obj.Table([]), r), map[fm := to], fm, to)
  {
    hide Shallow, S.Paired, C.Inv, C.Prepare;
    S.StartPaired(c, fm, to, r);
  }

  /** It is finished. */
  lemma NestedEnds(s: Source, c: C.State, m: map<Ref, Ref>, in_: Ref, g1: C.State, m0: map<Ref, Ref>, fm: Ref, to: Ref,
      r: C.Refill, d: C.State, n: map<Ref, Ref>)
    requires Neat(s, c, m, in_, g1, m0, C.Null) && (Shallow(s) ==> in_ == s.root) && fm !in m
    requires to !in C.Prepare(c, r).objs
    requires var b := C.Alloc(c, to, C.Obj.Table([]), r);
      Shallow(s) ==> C.Inv(d) && n == m[fm := to] && to in d.objs && d == b.(objs := b.objs[to := d.objs[to]])
    ensures Neat(s, d, n, in_, g1, m0, C.At(to))
  {
    hide Shallow, S.Paired, C.Inv, R.InEntries, C.Prepare;
    if Shallow(s) {
      var b := C.Alloc(c, to, C.Obj.Table([]), r);
      S.NestedBorn(c, s.root, m[s.root], to, r);
      S.NestedDone(c, b, d, s.root, m[s.root], to);
    }
  }

  lemma NeatPushed(s: Source, c: C.State, m: map<Ref, Ref>, fm: Ref, to: Ref)
    requires NeatStart(s, c, m, fm, to) && X.IsTable(c, to) && C.Push(c, C.At(to)) == c.(marks := c.marks + [C.At(to)])
    ensures var d := C.Push(c, C.At(to)); Neat(s, d, m, fm, d, m, C.Null)
  {
    hide Shallow, S.Paired, C.Inv;
    var d := C.Push(c, C.At(to));
    if Shallow(s) && fm != s.root {
      R.PushKeeps(c, C.At(to));
      assert d.objs[to := d.objs[to]] == d.objs;
    }
  }

  lemma NeatPopped(s: Source, c: C.State, m: map<Ref, Ref>, fm: Ref, g1: C.State, m0: map<Ref, Ref>, k: nat)
    requires Neat(s, c, m, fm, g1, m0, C.Null) && k < |c.marks| && fm in m
    ensures Shallow(s) ==> C.Inv(C.Pop(c, k)) && (fm != s.root ==> m[fm] in c.objs && m == m0)
    ensures Shallow(s) && fm != s.root ==> c == g1.(objs := g1.objs[m[fm] := c.objs[m[fm]]])
  {
    hide Shallow, S.Paired, C.Inv;
    if Shallow(s) {
      if fm == s.root { S.PairedMeans(c, s.root, m[s.root]); }
      R.PopKeeps(c, k);
    }
  }

  /** An entry is stored. */
  lemma NeatStored(s: Source, g: C.State, c: C.State, m: map<Ref, Ref>, ks: seq<Ref>, loose: set<Ref>, fm: Ref,
      g1: C.State, m0: map<Ref, Ref>, e: Entry, w: Ptr, i: nat, j: nat)
    requires Neat(s, c, m, fm, g1, m0, w) && K.Making(g, c, ks, loose) && InUse(s, g) && fm in m
    requires fm in s.src && i < |s.src[fm].ls| && j < |Kv(s.src[fm].ls[i])| && e == Kv(s.src[fm].ls[i])[j]
    requires X.IsTable(c, m[fm]) && C.KvLive(c, C.Kv(e.ko, w))
    ensures Neat(s, K.Append(c, m[fm], C.Kv(e.ko, w)), m, fm, g1, m0, C.Null)
  {
    hide K.Making, InUse, Shallow, R.InEntries, S.Paired, C.Inv, R.WasScanned;
    var to, kv := m[fm], C.Kv(e.ko, w);
    if Shallow(s) && fm == s.root {
      KeyEntry(s, g, c, ks, loose, fm, i, j);
      KnownPtr(s, c, m, w, e.ko);
      S.EntryPaired(c, fm, to, kv);
      forall x | R.InEntries(c.objs[to], x) ensures R.InEntries(K.Append(c, to, kv).objs[to], x) {
        EntryStays(c.objs[to].kvs, kv, x);
      }
      LastEntry(c.objs[to].kvs, kv);
    } else if Shallow(s) {
      S.AppendKeeps(c, to, kv);
      ScannedAppend(c, to, kv);
    }
  }

  lemma EntryStays(kvs: seq<C.Kv>, kv: C.Kv, x: Ptr)
    requires R.InEntries(C.Obj.Table(kvs), x)
    ensures R.InEntries(C.Obj.Table(kvs + [kv]), x)
  {
    var i :| 0 <= i < |kvs| && (kvs[i].ko == x || kvs[i].vo == x);
    assert (kvs + [kv])[i] == kvs[i];
  }

  lemma LastEntry(kvs: seq<C.Kv>, kv: C.Kv)
    ensures R.InEntries(C.Obj.Table(kvs + [kv]), kv.vo)
  {
    assert (kvs + [kv])[|kvs|] == kv;
  }

  lemma ScannedAppend(c: C.State, to: Ref, kv: C.Kv)
    requires X.IsTable(c, to)
    ensures R.WasScanned(K.Append(c, to, kv), to) <==> R.WasScanned(c, to)
  {
  }

  // ---- the copier ----

  class Copier {
    var tabs: Heap
    var copies: map<Ref, Ref>    // mapinsert and mapfind
    var gc: C.State              // the collector of mem.c
    const cells: bool            // every new table finds a free cell
    ghost var ks: seq<Ref>       // the copies in the order of their birth

    ghost function Abs(): State
      reads this
    {
      State(tabs, copies)
    }

    ghost predicate Linked(s: Source, g: C.State)
      reads this
    {
      Tied(tabs, gc.objs) && InUse(s, g) && copies.Values == K.Elems(ks) && C.Distinct(ks)
    }

    /** What holds while copies are made from the state g on. */
    ghost predicate Busy(s: Source, g: C.State, loose: set<Ref>, open: set<Ref>)
      reads this
    {
      Inv(s, Abs()) && AllDone(s.src, Abs(), open) && K.Making(g, gc, ks, loose) && Linked(s, g)
    }

    /** Mnew of a table, with the collection that it starts, and mapinsert. */
    method NewCopy(fm: Ref, ghost s: Source, ghost g: C.State, ghost open: set<Ref>) returns (to: Ref, refill: C.Refill)
      requires Busy(s, g, {}, open) && fm in s.src && fm !in copies
      modifies this
      ensures Busy(s, g, {to}, open + {fm}) && copies == old(copies)[fm := to] && ks == old(ks) + [to]
      ensures KeptBut(old(Abs()), Abs(), {}) && |s.src.Keys - copies.Keys| < |s.src.Keys - old(copies).Keys|
      ensures to !in C.Prepare(old(gc), refill).objs && gc == C.Alloc(old(gc), to, C.Obj.Table([]), refill)
      ensures gc.marks == old(gc).marks && to in gc.objs && gc.objs[to] == C.Obj.Table([])
      ensures cells && !old(gc).on ==> !gc.on
    {
      hide Inv, AllDone, K.Making, InUse, C.Prepare, C.Distinct, Tied, Rest, Left;
      var k: nat := *;
      refill := C.Cell(k);
      if !cells { refill := *; }
      K.PrepareMaking(g, gc, ks, refill);
      PrepareQuiet(gc, refill);
      var u := C.Prepare(gc, refill);
      FreeRef(u.objs.Keys);
      to :| to !in u.objs;
      var h := Rest(tabs, u.objs);
      Survivors(s, g, u, ks, Abs());
      FreshKeeps(s, Abs(), h, fm, to, open);
      SetShrinks(s.src.Keys - Fresh(Abs(), h, fm, to).copies.Keys, s.src.Keys - copies.Keys);
      K.BornKeeps(g, u, ks, to);
      NewTied(tabs, gc.objs, u.objs, to);
      NewElem(ks, copies, fm, to, u, g);
      gc := C.Place(u, to, C.Obj.Table([]));
      tabs, copies := h[to := Tab(0, [])], copies[fm := to];
      ks := ks + [to];
    }

    /** The switch of reccopytable on the type of a value that table fm holds. */
    method CopyValue(vo: Ptr, ghost fm: Ref, ghost s: Source, ghost g: C.State, ghost open: set<Ref>,
        ghost g1: C.State, ghost m0: map<Ref, Ref>)
      returns (w: Ptr, ok: bool, ghost loose: set<Ref>)
      requires Busy(s, g, {}, open) && VoClosed(s, vo) && (vo.At? ==> R.Reachable(g, vo.p))
      requires fm in s.src && HasVo(s.src[fm], vo) && Neat(s, gc, copies, fm, g1, m0, C.Null)
      modifies this
      ensures ok ==> Neat(s, gc, copies, fm, g1, m0, w) && (cells && !old(gc).on ==> !gc.on)
      ensures ok ==> vo.At? && Busy(s, g, loose, open) && KeptBut(old(Abs()), Abs(), {}) && old(ks) <= ks
      ensures ok ==> K.PtrOk(g, ks, w) && VoImage(s.src, copies, vo, w) && gc.marks == old(gc).marks
      ensures ok ==> Born(old(ks), ks, w, loose)
      ensures !ok ==> HasNull(s)
      decreases |s.src.Keys - copies.Keys|, 1
    {
      hide *;
      w, ok, loose := vo, true, {};
      KeptSame(Abs(), ks, w);
      if vo.Null? {
        ok := false;
        NullHere(s, fm);
      } else {
        ValueTyped(this, s, g, open, vo);
        if vo.p in tabs {
          if vo.p in copies {
            w := C.At(copies[vo.p]);
            KeptSame(Abs(), ks, w);
            NeatKnown(s, gc, copies, fm, g1, m0, vo.p);
          } else {
            ghost var k1 := ks;
            NeatNew(s, gc, copies, fm, g1, m0, vo.p);
            w, ok := CopyTable(vo.p, fm, s, g, open, g1, m0);
            if ok {
              loose := {w.p};
              ValueNew(s, g, copies, ks, k1, vo, w);
            }
          }
        } else {
          BusyMeans(this, s, g, {}, open);
          NeatShared(s, g, gc, copies, ks, fm, g1, m0, vo);
        }
      }
    }

    /** A table that was not copied yet. */
    method CopyTable(fm: Ref, ghost in_: Ref, ghost s: Source, ghost g: C.State, ghost open: set<Ref>,
        ghost g1: C.State, ghost m0: map<Ref, Ref>)
      returns (w: Ptr, ok: bool)
      requires Busy(s, g, {}, open) && fm in s.src && fm !in copies
      requires Neat(s, gc, copies, in_, g1, m0, C.Null) && (Shallow(s) ==> in_ == s.root)
      modifies this
      ensures ok ==> Neat(s, gc, copies, in_, g1, m0, w) && (cells && !old(gc).on ==> !gc.on)
      ensures ok ==> w.At? && Busy(s, g, {w.p}, open) && KeptBut(old(Abs()), Abs(), {}) && old(ks) <= ks
      ensures ok ==> fm in copies && copies[fm] == w.p && w.p in ks && gc.marks == old(gc).marks
      ensures ok ==> |old(ks)| < |ks| && ks[|old(ks)|] == w.p
      ensures !ok ==> HasNull(s)
      decreases |s.src.Keys - copies.Keys|, 0
    {
      hide Busy, R.Reachable, HasVo, C.Alloc, C.Prepare, KeptBut, HasNull, Neat, NeatStart, Shallow, C.Inv;
      ghost var t0, s0 := Abs(), gc;
      var too, refill := NewCopy(fm, s, g, open);
      ghost var t1, k1, s1 := Abs(), ks, gc;
      assert ks[|ks| - 1] == too;
      NestedStarts(s, s0, t0.copies, in_, g1, m0, fm, too, refill);
      ok := RecCopy(fm, too, s, g, open, |ks| - 1);
      w := C.At(too);
      if ok {
        NestedEnds(s, s0, t0.copies, in_, g1, m0, fm, too, refill, gc, copies);
        FreshKept(t0, t1, Abs(), fm);
        assert ks[|k1| - 1] == k1[|k1| - 1];
      }
    }

    /** The copy of fm is filled: buckets before i are done, and k entries of bucket i. */
    ghost predicate Filling(s: Source, g: C.State, t0: State, fm: Ref, open: set<Ref>, i: nat, k: nat)
      reads this
    {
      Copying(s, t0, Abs(), fm, open, i, k) && K.Making(g, gc, ks, {}) && Linked(s, g)
    }

    /** reccopytable. */
    method RecCopy(fm: Ref, to: Ref, ghost s: Source, ghost g: C.State, ghost open: set<Ref>, ghost h: nat)
      returns (ok: bool)
      requires Busy(s, g, {to}, open + {fm}) && fm in copies && copies[fm] == to && h < |ks| && ks[h] == to
      requires to in gc.objs && gc.objs[to] == C.Obj.Table([]) && NeatStart(s, gc, copies, fm, to)
      modifies this
      ensures ok && Shallow(s) ==> C.Inv(gc) && (fm != s.root ==> copies == old(copies) && to in gc.objs)
      ensures ok && Shallow(s) && fm != s.root ==> gc == old(gc).(objs := old(gc).objs[to := gc.objs[to]])
      ensures ok ==> (cells && !old(gc).on ==> !gc.on)
      ensures ok ==> Busy(s, g, {to}, open) && KeptBut(old(Abs()), Abs(), {fm}) && old(ks) <= ks
      ensures ok ==> gc.marks == old(gc).marks && fm in copies && copies[fm] == to
      ensures !ok ==> HasNull(s)
      decreases |s.src.Keys - copies.Keys|, 3
    {
      hide *;
      ghost var t0, marks := Abs(), gc.marks;
      ghost var bound := |s.src.Keys - copies.Keys|;
      var m := |gc.marks|;
      SourceHere(this, s, g, {to}, open + {fm}, fm);
      var ls := tabs[fm].ls;
      StartCopy(fm, to, s, g, open);
      ghost var g1, m0 := gc, copies;
      var i := 0;
      ok := true;
      while i < |ls|
        invariant Neat(s, gc, copies, fm, g1, m0, C.Null) && (cells && !g1.on ==> !gc.on)
        invariant i <= |ls| && Filling(s, g, t0, fm, open, i, 0) && gc.marks == marks + [C.At(to)] && old(ks) <= ks
        invariant fm in copies && copies[fm] == to && |s.src.Keys - copies.Keys| <= bound
      {
        var j := 0;
        while j < |Kv(ls[i])|
          invariant Neat(s, gc, copies, fm, g1, m0, C.Null) && (cells && !g1.on ==> !gc.on)
          invariant j <= |Kv(ls[i])| && Filling(s, g, t0, fm, open, i, j)
          invariant gc.marks == marks + [C.At(to)] && old(ks) <= ks
          invariant fm in copies && copies[fm] == to && |s.src.Keys - copies.Keys| <= bound
        {
          ok := CopyEntry(fm, to, i, j, Kv(ls[i])[j], s, g, t0, open, h, g1, m0);
          if !ok { return; }
          j := j + 1;
        }
        NextBucket(this, s, g, t0, fm, open, i);
        i := i + 1;
      }
      EndCopy(fm, to, m, s, g, t0, open, marks, g1, m0);
    }

    /** The lists of the copy, and its mark. */
    method StartCopy(fm: Ref, to: Ref, ghost s: Source, ghost g: C.State, ghost open: set<Ref>)
      requires Busy(s, g, {to}, open + {fm}) && fm in copies && copies[fm] == to && fm in tabs && fm in s.src
      requires to in gc.objs && gc.objs[to] == C.Obj.Table([]) && NeatStart(s, gc, copies, fm, to)
      modifies this`tabs, this`gc
      ensures Neat(s, gc, copies, fm, gc, copies, C.Null) && gc == old(gc).(marks := old(gc).marks + [C.At(to)])
      ensures Filling(s, g, old(Abs()), fm, open, 0, 0) && gc.marks == old(gc).marks + [C.At(to)]
    {
      hide K.Making, Inv, AllDone, Copying, InUse, C.Distinct, Tied, NeatStart, Neat;
      InvMeans(s, Abs(), fm);
      var fmtp := tabs[fm];
      var totp := Tab(fmtp.n, seq(|fmtp.ls|, b requires 0 <= b < |fmtp.ls| => Bare(fmtp.ls[b])));
      CopyStarts(s, Abs(), fm, totp, open);
      TiedNew(tabs, gc.objs, to, totp);
      assert gc.objs[to := C.Obj.Table([])] == gc.objs;
      K.PushMaking(g, gc, ks, to);
      tabs := tabs[to := totp];
      gc := C.Push(gc, C.At(to));
      NeatPushed(s, old(gc), copies, fm, to);
    }

    /** Entry j of bucket i. */
    method CopyEntry(fm: Ref, to: Ref, i: nat, j: nat, e: Entry, ghost s: Source, ghost g: C.State, ghost t0: State,
        ghost open: set<Ref>, ghost h: nat, ghost g1: C.State, ghost m0: map<Ref, Ref>)
      returns (ok: bool)
      requires Filling(s, g, t0, fm, open, i, j) && fm in copies && copies[fm] == to && h < |ks| && ks[h] == to
      requires Neat(s, gc, copies, fm, g1, m0, C.Null)
      requires fm in s.src && i < |s.src[fm].ls| && j < |Kv(s.src[fm].ls[i])| && e == Kv(s.src[fm].ls[i])[j]
      modifies this
      ensures ok ==> Neat(s, gc, copies, fm, g1, m0, C.Null) && (cells && !old(gc).on ==> !gc.on)
      ensures ok ==> Filling(s, g, t0, fm, open, i, j + 1) && gc.marks == old(gc).marks && old(ks) <= ks
      ensures ok ==> fm in copies && copies[fm] == to && |s.src.Keys - copies.Keys| <= |s.src.Keys - old(copies).Keys|
      ensures !ok ==> HasNull(s)
      decreases |s.src.Keys - copies.Keys|, 2
    {
      hide Busy, Filling, Copying, KeptBut, HasNull, HasVo, R.Reachable, VoClosed, VoImage, K.PtrOk, Born, Closed,
        InUse, Neat;
      ghost var t1, k1 := Abs(), ks;
      FillingMeans(this, s, g, t0, fm, open, i, j);
      EntryRead(s, g, fm, i, j);
      ghost var loose;
      var w;
      w, ok, loose := CopyValue(e.vo, fm, s, g, open + {fm}, g1, m0);
      if ok {
        StillHere(t1, Abs(), s, fm);
        KeyOk(g, ks, e.ko);
        Store(fm, to, i, j, e, w, s, g, t0, t1, open, h, loose, k1, g1, m0);
      }
    }

    /** tokvp->vo, and the count of the list. */
    method Store(fm: Ref, to: Ref, i: nat, j: nat, e: Entry, w: Ptr, ghost s: Source, ghost g: C.State, ghost t0: State,
        ghost t1: State, ghost open: set<Ref>, ghost h: nat, ghost loose: set<Ref>, ghost k1: seq<Ref>,
        ghost g1: C.State, ghost m0: map<Ref, Ref>)
      requires Neat(s, gc, copies, fm, g1, m0, w)
      requires Busy(s, g, loose, open + {fm}) && fm in copies && copies[fm] == to && h < |k1| && k1[h] == to && k1 <= ks
      requires Copying(s, t0, t1, fm, open, i, j) && KeptBut(t1, Abs(), {}) && Born(k1, ks, w, loose)
      requires fm in s.src && i < |s.src[fm].ls| && j < |Kv(s.src[fm].ls[i])| && e == Kv(s.src[fm].ls[i])[j]
      requires e.vo.At? && VoImage(s.src, copies, e.vo, w) && K.PtrOk(g, ks, w) && K.PtrOk(g, ks, e.ko)
      modifies this`tabs, this`gc
      ensures Neat(s, gc, copies, fm, g1, m0, C.Null) && gc.on == old(gc).on
      ensures Filling(s, g, t0, fm, open, i, j + 1) && gc.marks == old(gc).marks
    {
      hide K.Making, Inv, AllDone, Copying, InUse, Tied, KeptBut, K.PtrOk, VoImage, PartImage, Neat;
      var kv := C.Kv(e.ko, w);
      CopyMoved(s, t0, t1, Abs(), fm, open, i, j);
      LaterEmpty(s.src, copies, s.src[fm], tabs[to], i, j);
      CopyMoves(s, t0, t1, Abs(), fm, open, i, j, w);
      TiedAppend(tabs, gc.objs, to, i, e.(vo := w));
      LooseLater(k1, ks, w, loose, h);
      K.AppendMaking(g, gc, ks, loose, h, kv);
      K.KvOkLive(g, gc, ks, loose, kv);
      var totp := tabs[to];
      tabs := tabs[to := totp.(ls := totp.ls[i := List(totp.ls[i].n, totp.ls[i].kv + [e.(vo := w)])])];
      gc := K.Append(gc, to, kv);
      NeatStored(s, g, old(gc), copies, ks, loose, fm, g1, m0, e, w, i, j);
    }

    /** The mark of the finished copy is taken off. */
    method EndCopy(fm: Ref, to: Ref, m: nat, ghost s: Source, ghost g: C.State, ghost t0: State, ghost open: set<Ref>,
        ghost marks: seq<Ptr>, ghost g1: C.State, ghost m0: map<Ref, Ref>)
      requires fm in s.src && Filling(s, g, t0, fm, open, |s.src[fm].ls|, 0) && gc.marks == marks + [C.At(to)]
      requires m == |marks| && g.marks <= marks && Neat(s, gc, copies, fm, g1, m0, C.Null)
      requires fm in copies && copies[fm] == to
      modifies this`gc
      ensures gc == old(gc).(marks := marks)
      ensures Shallow(s) ==> C.Inv(gc) && (fm != s.root ==> to in gc.objs && copies == m0)
      ensures Shallow(s) && fm != s.root ==> gc == g1.(marks := marks, objs := g1.objs[to := gc.objs[to]])
      ensures Busy(s, g, {to}, open) && KeptBut(t0, Abs(), {fm}) && gc.marks == marks
    {
      hide K.Making, Inv, AllDone, Copying, InUse, C.Distinct, Tied, KeptBut, Neat, C.Inv, Shallow;
      CopyEnds(s, t0, Abs(), fm, open);
      assert gc.marks[..m] == marks;
      K.PopMaking(g, gc, ks, to);
      NeatPopped(s, gc, copies, fm, g1, m0, m);
      gc := C.Pop(gc, m);
    }

    /** Tcopy.  It reads a field of NULL, and fails, exactly if the value is null or one of the tables that
        can be reached holds a null value. */
    method Tcopy(fmvo: Ptr) returns (tovo: Ptr, ok: bool, ghost m: map<Ref, Ref>)
      requires C.Inv(gc) && Tied(tabs, gc.objs) && C.Live(gc, fmvo)
      modifies this
      ensures !ok <==> fmvo.Null? || (fmvo.p in old(tabs) && HasNull(SourceOf(old(tabs), fmvo.p)))
      ensures ok && fmvo.p !in old(tabs) ==> tovo == fmvo && gc == old(gc) && tabs == old(tabs)
      ensures ok && fmvo.p in old(tabs) ==> tovo.At? && fmvo.p in m && m[fmvo.p] == tovo.p
      ensures ok && fmvo.p in old(tabs) ==> Copied(SourceOf(old(tabs), fmvo.p), tabs, m)
      ensures ok && fmvo.p in old(tabs) ==> Tied(tabs, gc.objs) && gc.marks == old(gc).marks && X.Lax(gc, m.Values)
      ensures ok && fmvo.p in old(tabs) ==> Spared(old(gc), gc, m.Values)
      ensures ok && fmvo.p in old(tabs) ==> (C.Inv(gc) <==> X.Tidy(gc, m.Values)) && (C.Inv(gc) <==> X.Safe(gc))
      ensures ok && cells && !old(gc).on ==> C.Inv(gc)
      ensures ok && fmvo.p in old(tabs) && Shallow(SourceOf(old(tabs), fmvo.p)) ==> C.Inv(gc)
    {
      hide HasNull, SourceOf, C.Inv, Tied, X.Lax, X.Tidy, X.Safe, Copied, Spared, Shallow;
      m := map[];
      tovo, ok := fmvo, !fmvo.Null?;
      if ok && fmvo.p in tabs {
        tovo, ok, m := CopyRoot(fmvo.p);
        if ok {
          X.SafeIff(gc, m.Values);
          if !gc.on { QuietTidy(gc, m.Values); }
        }
      }
    }

    method CopyRoot(fm: Ref) returns (tovo: Ptr, ok: bool, ghost m: map<Ref, Ref>)
      requires C.Inv(gc) && Tied(tabs, gc.objs) && fm in tabs
      modifies this
      ensures !ok <==> HasNull(SourceOf(old(tabs), fm))
      ensures ok ==> tovo.At? && fm in m && m[fm] == tovo.p && Copied(SourceOf(old(tabs), fm), tabs, m)
      ensures ok ==> Tied(tabs, gc.objs) && gc.marks == old(gc).marks && X.Lax(gc, m.Values)
      ensures ok ==> Spared(old(gc), gc, m.Values) && (cells && !old(gc).on ==> !gc.on)
      ensures ok && Shallow(SourceOf(old(tabs), fm)) ==> C.Inv(gc)
    {
      hide *;
      m := map[];
      tovo, ok := C.Null, false;
      ghost var was, s := gc, SourceOf(tabs, fm);
      ghost var g := StartRoot(fm);
      var to, refill := NewCopy(fm, s, g, {});
      RootStarts(s, g, fm, to, refill);
      FirstCopy(ks, to);
      ok := RecCopy(fm, to, s, g, {}, 0);
      if ok {
        EndRoot(fm, to, s, was, g);
        tovo, m := C.At(to), copies;
      }
    }

    /** Tcopy marks the table to copy, and empties the map. */
    method StartRoot(fm: Ref) returns (ghost g: C.State)
      requires C.Inv(gc) && Tied(tabs, gc.objs) && fm in tabs
      modifies this`gc, this`copies, this`ks
      ensures Busy(SourceOf(tabs, fm), g, {}, {}) && SourceOf(tabs, fm).root == fm
      ensures fm in SourceOf(tabs, fm).src && copies == map[] && ks == []
      ensures g == gc == C.Push(old(gc), C.At(fm)) && gc.marks == old(gc).marks + [C.At(fm)]
      ensures C.Inv(gc) && X.IsTable(gc, fm) && gc.on == old(gc).on
    {
      hide Busy, SourceOf, C.Inv, C.Push, Tied, InUse, Closed;
      CopyReady(tabs, gc, fm);
      SourceRoot(tabs, fm);
      gc := C.Push(gc, C.At(fm));
      copies, ks := map[], [];
      g := gc;
      BusyStarts(this, SourceOf(tabs, fm), g);
    }

    /** Its mark is taken off again. */
    method EndRoot(fm: Ref, to: Ref, ghost s: Source, ghost was: C.State, ghost g: C.State)
      requires Busy(s, g, {to}, {}) && fm in copies && s.root == fm && gc.marks == g.marks
      requires g == C.Push(was, C.At(fm)) && g.marks == was.marks + [C.At(fm)]
      modifies this`gc
      ensures Copied(s, tabs, copies) && !HasNull(s)
      ensures Tied(tabs, gc.objs) && gc.marks == was.marks && X.Lax(gc, copies.Values) && Spared(was, gc, copies.Values)
      ensures gc.on == old(gc).on && (C.Inv(old(gc)) ==> C.Inv(gc))
    {
      hide Busy, HasNull, C.Inv, C.Push, Tied, X.Lax, Copied, Spared, InUse, Closed, Inv, AllDone, K.Making;
      BusyMeans(this, s, g, {to}, {});
      EndCopied(s, Abs());
      NoNull(s, tabs, copies);
      SparedOver(was, gc, g, ks, {to}, fm);
      LaxOver(gc, g, ks, {to}, |was.marks|);
      assert g.marks[..|was.marks|] == was.marks;
      if C.Inv(gc) { R.PopKeeps(gc, |gc.marks| - 1); }
      gc := C.Pop(gc, |gc.marks| - 1);
    }
  }

  /** The mark of the source, and the source. */
  lemma CopyReady(h: Heap, s: C.State, fm: Ref)
    requires C.Inv(s) && Tied(h, s.objs) && fm in h
    ensures var g := C.Push(s, C.At(fm));
      && C.Inv(g) && g.marks == s.marks + [C.At(fm)] && Tied(h, g.objs) && InUse(SourceOf(h, fm), g)
      && X.IsTable(g, fm) && g.on == s.on
    ensures var src := SourceOf(h, fm);
      Closed(src) && fm in src.src && h.Keys !! src.scal && forall p :: p in src.src ==> p in h && src.src[p] == h[p]
  {
    R.PushKeeps(s, C.At(fm));
    var g := C.Push(s, C.At(fm));
    assert g.marks[|s.marks|] == C.At(fm);
    R.RootReachable(g, fm);
    SourceClosed(h, fm);
    hide C.Inv, R.Reachable, SourceOf, C.Push;
    SourceInUse(h, g, fm);
    SourceRoot(h, fm);
  }

  lemma SourceRoot(h: Heap, fm: Ref)
    ensures SourceOf(h, fm).root == fm
  {
  }

  lemma BusyStarts(c: Copier, s: Source, g: C.State)
    requires c.gc == g && C.Inv(g) && Tied(c.tabs, g.objs) && InUse(s, g) && Closed(s) && c.tabs.Keys !! s.scal
    requires c.copies == map[] && c.ks == [] && forall p :: p in s.src ==> p in c.tabs && c.tabs[p] == s.src[p]
    ensures c.Busy(s, g, {}, {})
  {
    hide C.Inv, InUse, Closed, Tied, K.Making;
    K.MakingStarts(g);
    StartInv(s, c.Abs());
  }

  lemma FirstCopy(ks: seq<Ref>, to: Ref)
    requires ks == [] + [to]
    ensures |ks| == 1 && ks[0] == to
  {
  }

  lemma LaxOver(s: C.State, g: C.State, ks: seq<Ref>, loose: set<Ref>, m: nat)
    requires K.Making(g, s, ks, loose)
    ensures X.Lax(C.Pop(s, m), K.Elems(ks))
  {
    hide X.Lax, R.Reachable;
    K.LaxPop(s, K.Elems(ks), m);
  }

  lemma SparedOver(was: C.State, now: C.State, g: C.State, ks: seq<Ref>, loose: set<Ref>, fm: Ref)
    requires K.Making(g, now, ks, loose) && g == C.Push(was, C.At(fm)) && g.marks == was.marks + [C.At(fm)]
    ensures forall m: int :: Spared(was, C.Pop(now, m), K.Elems(ks))
  {
    assert g.objs == was.objs;
    hide X.Lax, R.Reachable, C.Push;
    forall p | R.Reachable(was, p) ensures R.Reachable(g, p) { R.MoreRootsReach(was, g, p); }
  }

  lemma NoNull(s: Source, h: Heap, m: map<Ref, Ref>)
    requires Copied(s, h, m)
    ensures !HasNull(s)
  {
    hide Closed;
    forall f, b, j | f in s.src && 0 <= b < |s.src[f].ls| && 0 <= j < |Kv(s.src[f].ls[b])|
      ensures Kv(s.src[f].ls[b])[j].vo.At?
    {
      var t, c := s.src[f], h[m[f]];
      assert ListImage(s.src, m, t.ls[b], c.ls[b], |Kv(t.ls[b])|);
      assert EntryImage(s.src, m, t.ls[b].kv[j], c.ls[b].kv[j]);
    }
  }

  lemma SourceHere(c: Copier, s: Source, g: C.State, loose: set<Ref>, open: set<Ref>, fm: Ref)
    requires c.Busy(s, g, loose, open) && fm in c.copies
    ensures fm in s.src && fm in c.tabs && c.tabs[fm] == s.src[fm] && g.marks <= c.gc.marks
  {
    hide AllDone, R.Reachable, InUse, Closed, X.Lax;
  }

  lemma FillingMeans(c: Copier, s: Source, g: C.State, t0: State, fm: Ref, open: set<Ref>, i: nat, k: nat)
    requires c.Filling(s, g, t0, fm, open, i, k)
    ensures c.Busy(s, g, {}, open + {fm}) && fm in s.src && fm in c.copies && c.copies[fm] in c.tabs
    ensures Closed(s) && InUse(s, g) && Copying(s, t0, c.Abs(), fm, open, i, k)
  {
    hide K.Making, InUse, Tied;
    CopyingMeans(s, t0, c.Abs(), fm, open, i, k);
  }

  /** Entry j of bucket i may be read: it is of the source. */
  lemma EntryRead(s: Source, g: C.State, fm: Ref, i: nat, j: nat)
    requires Closed(s) && InUse(s, g) && fm in s.src && i < |s.src[fm].ls| && j < |Kv(s.src[fm].ls[i])|
    ensures var e := Kv(s.src[fm].ls[i])[j];
      && VoClosed(s, e.vo) && HasVo(s.src[fm], e.vo)
      && (e.ko.At? ==> R.Reachable(g, e.ko.p)) && (e.vo.At? ==> R.Reachable(g, e.vo.p))
  {
    hide Closed, InUse;
    EntryClosed(s, fm, i, j);
    EntryInUse(s, g, fm, i, j);
  }

  lemma NextBucket(c: Copier, s: Source, g: C.State, t0: State, fm: Ref, open: set<Ref>, i: nat)
    requires fm in s.src && i < |s.src[fm].ls| && c.Filling(s, g, t0, fm, open, i, |Kv(s.src[fm].ls[i])|)
    ensures c.Filling(s, g, t0, fm, open, i + 1, 0)
  {
    hide K.Making, Copying, InUse, Tied;
    CopyingNext(s, t0, c.Abs(), fm, open, i);
  }

  /** The new copy in w, if there is one, is younger than those before. */
  ghost predicate Born(was: seq<Ref>, ks: seq<Ref>, w: Ptr, loose: set<Ref>) {
    forall c :: c in loose ==> w == C.At(c) && |was| < |ks| && ks[|was|] == c
  }

  lemma BusyMeans(c: Copier, s: Source, g: C.State, loose: set<Ref>, open: set<Ref>)
    requires c.Busy(s, g, loose, open)
    ensures Inv(s, c.Abs()) && InUse(s, g) && c.copies.Values == K.Elems(c.ks) && C.Distinct(c.ks)
    ensures Tied(c.tabs, c.gc.objs) && K.Making(g, c.gc, c.ks, loose) && AllDone(s.src, c.Abs(), open)
  {
  }

  /** The copy that was made changes no copy that was there before it. */
  lemma FreshKept(t: State, u: State, v: State, fm: Ref)
    requires KeptBut(t, u, {}) && KeptBut(u, v, {fm}) && fm !in t.copies
    ensures KeptBut(t, v, {})
  {
  }

  lemma StillHere(t: State, u: State, s: Source, fm: Ref)
    requires KeptBut(t, u, {}) && fm in t.copies
    ensures fm in u.copies && u.copies[fm] == t.copies[fm]
    ensures |s.src.Keys - u.copies.Keys| <= |s.src.Keys - t.copies.Keys|
  {
    KeysGrow(t.copies, u.copies, s.src.Keys);
  }

  lemma LooseLater(was: seq<Ref>, ks: seq<Ref>, w: Ptr, loose: set<Ref>, h: nat)
    requires C.Distinct(ks) && Born(was, ks, w, loose) && h < |was|
    ensures forall i :: 0 <= i < |ks| && ks[i] in loose ==> h < i
    ensures forall c :: c in loose ==> w == C.At(c)
  {
    forall i | 0 <= i < |ks| && ks[i] in loose ensures h < i {
      if i != |was| { assert ks[i] == ks[|was|]; }
    }
  }

  lemma NullHere(s: Source, fm: Ref)
    requires fm in s.src && HasVo(s.src[fm], C.Null)
    ensures HasNull(s)
  {
  }

  lemma KeptSame(t: State, ks: seq<Ref>, w: Ptr)
    ensures KeptBut(t, t, {}) && Born(ks, ks, w, {})
  {
  }

  /** A value that is no table is shared; a table that has a copy becomes that copy. */
  lemma ValueTyped(c: Copier, s: Source, g: C.State, open: set<Ref>, v: Ptr)
    requires c.Busy(s, g, {}, open) && VoClosed(s, v) && v.At? && R.Reachable(g, v.p)
    ensures v.p in c.tabs <==> v.p in s.src
    ensures v.p !in c.tabs ==> K.PtrOk(g, c.ks, v) && VoImage(s.src, c.copies, v, v)
    ensures v.p in c.tabs && v.p in c.copies ==>
      K.PtrOk(g, c.ks, C.At(c.copies[v.p])) && VoImage(s.src, c.copies, v, C.At(c.copies[v.p]))
  {
    hide AllDone, K.Making, Tied, InUse, R.Reachable, Closed;
    if v.p in c.copies { assert c.copies[v.p] in c.copies.Values; }
  }

  lemma ValueNew(s: Source, g: C.State, m: map<Ref, Ref>, ks: seq<Ref>, was: seq<Ref>, v: Ptr, w: Ptr)
    requires v.At? && w.At? && v.p in s.src && v.p in m && m[v.p] == w.p && w.p in ks
    requires |was| < |ks| && ks[|was|] == w.p
    ensures VoImage(s.src, m, v, w) && K.PtrOk(g, ks, w) && Born(was, ks, w, {w.p})
  {
  }

  lemma KeyOk(g: C.State, ks: seq<Ref>, x: Ptr)
    requires x.At? ==> R.Reachable(g, x.p)
    ensures K.PtrOk(g, ks, x)
  {
  }
}
