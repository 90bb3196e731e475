/** The deep copy of cmd/lefty/tbl.c and the collector.

    reccopytable stores keys and values without shading them, and each table that it allocates may start
    or carry on a collection.  While the copy is made nothing that is in use is lost, whatever the
    collector does (`CollectKeeps`).  Afterwards a copy may hold unmarked objects though it was scanned
    already; `CollectorExact.SafeIff` says what that means. */
module CollectorCopy {
  import opened Collector
  import opened CollectorRuns
  import opened CollectorExact

  function Elems(ks: seq<Ref>): set<Ref> {
    set k | k in ks
  }

  /** A pointer that a copy may hold. */
  ghost predicate PtrOk(g: State, ks: seq<Ref>, x: Ptr) {
    x.At? ==> Reachable(g, x.p) || x.p in ks
  }

  ghost predicate KvOk(g: State, ks: seq<Ref>, kv: Kv) {
    PtrOk(g, ks, kv.ko) && PtrOk(g, ks, kv.vo)
  }

  /** All that was in use when the copy began is as it was. */
  ghost predicate SourceOk(g: State, s: State, ks: seq<Ref>) {
    forall q :: Reachable(g, q) ==> q in g.objs && q in s.objs && s.objs[q] == g.objs[q] && q !in ks
  }

  ghost predicate CopiesOk(g: State, s: State, ks: seq<Ref>) {
    forall k :: k in ks ==> IsTable(s, k) && forall i :: 0 <= i < |s.objs[k].kvs| ==> KvOk(g, ks, s.objs[k].kvs[i])
  }

  /** Copy i is held by an older one, and this entry was not stored behind the back of the collector. */
  ghost predicate HasParent(s: State, ks: seq<Ref>, i: nat)
    requires i < |ks|
  {
    exists h: nat :: h < i && Edge(s, ks[h], ks[i]) && (WasScanned(s, ks[h]) ==> Marked(s, ks[i]))
  }

  /** Every copy is on the mark stack or has a parent, but for the one in `loose`, on its way into the
      table it is to be stored in. */
  ghost predicate CopiesHeld(s: State, ks: seq<Ref>, loose: set<Ref>) {
    && (forall i :: 0 <= i < |ks| ==> ks[i] in loose || At(ks[i]) in s.marks || HasParent(s, ks, i))
    && (s.on ==> forall k :: k in loose ==> Marked(s, k))
  }

  /** The state while the copies ks, in the order of their birth, are made; g is the state at the start. */
  ghost predicate Making(g: State, s: State, ks: seq<Ref>, loose: set<Ref>) {
    && Lax(s, Elems(ks)) && g.marks <= s.marks
    && SourceOk(g, s, ks) && CopiesOk(g, s, ks) && CopiesHeld(s, ks, loose)
  }

  // ---- shading and the tables without their entries ----

  /** t follows s by shading, scanning and nothing else. */
  ghost predicate Onward(s: State, t: State) {
    && t.objs == s.objs && t.marks == s.marks && t.on && (s.on ==> forall p :: Marked(s, p) ==> Marked(t, p))
  }

  lemma {:induction false} BlankShades(s: State, ks: set<Ref>, kvs: seq<Kv>, n: nat)
    requires n <= |kvs|
    ensures ShadeKvs(Blank(s, ks), kvs, n) == Blank(ShadeKvs(s, kvs, n), ks)
  {
    hide Blank;
    if n > 0 {
      BlankShades(s, ks, kvs, n - 1);
      BlankShade(ShadeKvs(s, kvs, n - 1), ks, kvs[n - 1].ko);
      BlankShade(Shade(ShadeKvs(s, kvs, n - 1), kvs[n - 1].ko), ks, kvs[n - 1].vo);
    }
  }

  lemma BlankShade(s: State, ks: set<Ref>, x: Ptr)
    ensures Shade(Blank(s, ks), x) == Blank(Shade(s, x), ks)
  {
  }

  lemma {:induction false} BlankMarks(s: State, ks: set<Ref>, ms: seq<Ptr>, n: nat)
    requires n <= |ms|
    ensures ShadeMarks(Blank(s, ks), ms, n) == Blank(ShadeMarks(s, ms, n), ks)
  {
    hide Blank;
    if n > 0 {
      BlankMarks(s, ks, ms, n - 1);
      BlankShade(ShadeMarks(s, ms, n - 1), ks, ms[n - 1]);
    }
  }

  lemma BlankBegins(s: State, ks: set<Ref>)
    ensures Begin(Blank(s, ks)) == Blank(Begin(s), ks)
  {
    assert Flip(Blank(s, ks)) == Blank(Flip(s), ks);
    BlankMarks(Flip(s), ks, s.marks, |s.marks|);
  }

  lemma BlankMeans(s: State, ks: set<Ref>)
    ensures var b := Blank(s, ks);
      && b == s.(objs := b.objs) && b.objs.Keys == s.objs.Keys
      && (forall p :: Marked(b, p) <==> Marked(s, p))
      && forall p :: p in s.objs ==> b.objs[p] == if p in ks then Table([]) else s.objs[p]
  {
  }

  lemma LaxMeans(s: State, ks: set<Ref>)
    requires Lax(s, ks)
    ensures var b := Blank(s, ks); Core(b) && (s.on ==> RootsMarked(b))
    ensures forall p :: p in s.objs ==> KidsLive(s, s.objs[p])
    ensures forall k :: k in ks ==> IsTable(s, k)
    ensures forall i :: 0 <= i < |s.marks| ==> Live(s, s.marks[i]) && (s.on ==> MarkedPtr(s, s.marks[i]))
  {
    var b := Blank(s, ks);
    forall p | p in s.objs ensures KidsLive(s, s.objs[p]) {
      if p in ks { assert IsTable(s, p); } else { SameKids(s, ks, s.objs[p]); assert KidsLive(b, b.objs[p]); }
    }
    forall k | k in ks ensures IsTable(s, k) {}
    forall i | 0 <= i < |s.marks| ensures Live(s, s.marks[i]) && (s.on ==> MarkedPtr(s, s.marks[i])) {
      assert Live(b, b.marks[i]);
      if s.on { assert MarkedPtr(b, b.marks[i]); }
    }
  }

  lemma LaxFrom(s: State, ks: set<Ref>)
    requires Core(Blank(s, ks)) && (s.on ==> RootsMarked(Blank(s, ks)))
    requires forall k :: k in ks ==> IsTable(s, k) && KidsLive(s, s.objs[k])
    ensures Lax(s, ks)
  {
  }

  /** The scan index moves over a table whose entries are marked. */
  lemma Advanced(s: State, ks: set<Ref>)
    requires Core(Blank(s, ks)) && RootsMarked(Blank(s, ks)) && s.on && s.scan < |s.cur|
    requires s.cur[s.scan] in s.objs && KidsMarked(s, s.objs[s.cur[s.scan]])
    requires forall k :: k in ks ==> IsTable(s, k) && KidsLive(s, s.objs[k])
    ensures Lax(s.(scan := s.scan + 1), ks)
  {
    var b, t := Blank(s, ks), s.(scan := s.scan + 1);
    assert Blank(t, ks) == b.(scan := s.scan + 1);
    BlankMeans(s, ks);
    SameKids(s, ks, s.objs[s.cur[s.scan]]);
    assert Clean(b, b.cur[b.scan]);
    AdvanceKeeps(b);
    assert forall x: Ptr :: MarkedPtr(Blank(t, ks), x) <==> MarkedPtr(b, x);
    assert forall o: Obj :: KidsLive(t, o) <==> KidsLive(s, o) by {
      assert forall kv: Kv :: KvLive(t, kv) <==> KvLive(s, kv);
    }
    forall k | k in ks ensures IsTable(t, k) { assert IsTable(s, k); }
    hide Core;
    LaxFrom(t, ks);
  }

  lemma EntriesShaded(s: State, ks: set<Ref>, p: Ref)
    requires Lax(s, ks) && s.on && IsTable(s, p)
    ensures var u := ShadeKvs(s, s.objs[p].kvs, |s.objs[p].kvs|);
      && Core(Blank(u, ks)) && RootsMarked(Blank(u, ks)) && Onward(s, u) && u.scan == s.scan && s.cur <= u.cur
      && KidsMarked(u, s.objs[p])
  {
    var b, o := Blank(s, ks), s.objs[p];
    LaxMeans(s, ks);
    BlankMeans(s, ks);
    SameKids(s, ks, o);
    hide Core, Lax, Blank, RootsMarked, ShadeKvs, Marked;
    ShadeKvsKeeps(b, o.kvs, |o.kvs|);
    BlankShades(s, ks, o.kvs, |o.kvs|);
    var u := ShadeKvs(s, o.kvs, |o.kvs|);
    BlankMeans(u, ks);
    GrewKeepsRoots(b, Blank(u, ks));
    SameKids(u, ks, o);
    ShadeKvsSame(s, o.kvs, |o.kvs|);
  }

  lemma {:induction false} ShadeKvsSame(s: State, kvs: seq<Kv>, n: nat)
    requires n <= |kvs|
    ensures var u := ShadeKvs(s, kvs, n); u.objs == s.objs && u.marks == s.marks && u.on == s.on && u.scan == s.scan
  {
    if n > 0 { ShadeKvsSame(s, kvs, n - 1); }
  }

  /** What the scan of the next object shades. */
  function Shaded(s: State, p: Ref): State {
    if IsTable(s, p) then ShadeKvs(s, s.objs[p].kvs, |s.objs[p].kvs|) else s
  }

  lemma NextShaded(s: State, ks: set<Ref>)
    requires Lax(s, ks) && s.on && s.scan < |s.cur|
    ensures var p, u := s.cur[s.scan], Shaded(s, s.cur[s.scan]);
      && Core(Blank(u, ks)) && RootsMarked(Blank(u, ks)) && Onward(s, u) && u.scan == s.scan && s.cur <= u.cur
      && u.scan < |u.cur| && u.cur[u.scan] == p
      && p in s.objs && KidsMarked(u, s.objs[p]) && ScanOne(s) == u.(scan := u.scan + 1)
  {
    var p := s.cur[s.scan];
    LaxMeans(s, ks);
    LaxQueue(s, ks);
    assert p in s.cur && p in s.objs;
    hide Core, Lax, Blank, RootsMarked, ShadeKvs, Marked;
    if s.objs[p].Table? { EntriesShaded(s, ks, p); }
  }

  /** One scan step keeps all but the entries of the copies in order. */
  lemma LaxScans(s: State, ks: set<Ref>)
    requires Lax(s, ks) && s.on && s.scan < |s.cur|
    ensures Lax(ScanOne(s), ks) && Onward(s, ScanOne(s)) && s.cur[s.scan] in s.objs
    ensures ScanOne(s).scan == s.scan + 1 && s.cur <= ScanOne(s).cur
    ensures KidsMarked(ScanOne(s), s.objs[s.cur[s.scan]])
  {
    var p := s.cur[s.scan];
    hide *;
    NextShaded(s, ks);
    var u := Shaded(s, p);
    OnwardObjs(s, u, ks);
    Advanced(u, ks);
    SameMarked(u, u.(scan := u.scan + 1));
    OnwardScan(s, u);
  }

  lemma OnwardObjs(s: State, u: State, ks: set<Ref>)
    requires Lax(s, ks) && Onward(s, u)
    ensures u.on && u.objs == s.objs && forall k :: k in ks ==> IsTable(u, k) && KidsLive(u, u.objs[k])
  {
    SameLive(s, u);
    hide Inv, Blank, KidsLive, Marked;
    forall k | k in ks ensures IsTable(u, k) && KidsLive(u, u.objs[k]) { assert IsTable(s, k); }
  }

  lemma OnwardScan(s: State, u: State)
    requires Onward(s, u)
    ensures Onward(s, u.(scan := u.scan + 1))
  {
    SameMarked(u, u.(scan := u.scan + 1));
    hide Marked;
  }

  lemma SameLive(s: State, t: State)
    requires t.objs == s.objs
    ensures forall o: Obj :: KidsLive(t, o) <==> KidsLive(s, o)
  {
    assert forall kv: Kv :: KvLive(t, kv) <==> KvLive(s, kv);
  }

  lemma SameMarked(s: State, t: State)
    requires t.area == s.area && t.a0 == s.a0
    ensures forall p :: Marked(t, p) <==> Marked(s, p)
    ensures forall o: Obj :: KidsMarked(t, o) <==> KidsMarked(s, o)
  {
    assert forall kv: Kv :: KvMarked(t, kv) <==> KvMarked(s, kv);
  }

  // ---- a collection while copies are made ----

  lemma HeldScans(s: State, t: State, ks: seq<Ref>)
    requires CopiesHeld(s, ks, {}) && s.on && Onward(s, t) && s.scan < |s.cur| && t.scan == s.scan + 1 && s.cur <= t.cur
    requires s.cur[s.scan] in s.objs && KidsMarked(t, s.objs[s.cur[s.scan]])
    ensures CopiesHeld(t, ks, {})
  {
    forall i | 0 <= i < |ks| && At(ks[i]) !in t.marks ensures HasParent(t, ks, i) {
      assert HasParent(s, ks, i);
      var h: nat :| h < i && Edge(s, ks[h], ks[i]) && (WasScanned(s, ks[h]) ==> Marked(s, ks[i]));
      assert Edge(t, ks[h], ks[i]);
      if WasScanned(t, ks[h]) {
        var x :| 0 <= x < t.scan && t.cur[..t.scan][x] == ks[h];
        if x < s.scan {
          assert s.cur[..s.scan][x] == ks[h];
        } else {
          PointsMarked(t, s.objs[ks[h]], ks[i]);
        }
      }
    }
  }

  lemma PointsMarked(s: State, o: Obj, q: Ref)
    requires Points(o, q) && KidsMarked(s, o)
    ensures Marked(s, q)
  {
    var x :| 0 <= x < |o.kvs| && KvHas(o.kvs[x], q);
    assert KvMarked(s, o.kvs[x]);
  }

  lemma MakingScans(g: State, s: State, ks: seq<Ref>)
    requires Making(g, s, ks, {}) && s.on && s.scan < |s.cur|
    ensures Making(g, ScanOne(s), ks, {}) && Onward(s, ScanOne(s)) && ScanOne(s).scan == s.scan + 1
    ensures s.cur <= ScanOne(s).cur
  {
    hide Lax, Marked;
    LaxScans(s, Elems(ks));
    HeldScans(s, ScanOne(s), ks);
  }

  lemma {:induction false} MakingScanUpTo(g: State, s: State, ks: seq<Ref>, k: nat)
    requires Making(g, s, ks, {}) && s.on && s.scan <= |s.cur|
    ensures var t := ScanUpTo(s, k); Making(g, t, ks, {}) && Onward(s, t) && t.scan <= |t.cur|
    decreases k
  {
    hide Making, ScanOne, Marked;
    if k != 0 && s.scan < |s.cur| {
      MakingScans(g, s, ks);
      MakingScanUpTo(g, ScanOne(s), ks, k - 1);
    }
  }

  lemma LaxBegins(s: State, ks: set<Ref>)
    requires Lax(s, ks) && !s.on
    ensures Lax(Begin(s), ks)
  {
    var b, t := Blank(s, ks), Begin(s);
    LaxMeans(s, ks);
    BlankBegins(s, ks);
    BlankMeans(t, ks);
    hide Core, Blank, Begin, RootsMarked;
    BeginKeeps(b);
    BeginSame(s);
    SameLive(s, t);
    assert forall k :: k in ks ==> IsTable(t, k) by { assert forall k :: k in ks ==> IsTable(s, k); }
    LaxFrom(t, ks);
  }

  lemma MakingBegins(g: State, s: State, ks: seq<Ref>)
    requires Making(g, s, ks, {}) && !s.on
    ensures var t := Begin(s); Making(g, t, ks, {}) && Onward(s, t) && t.scan == 0
  {
    var t := Begin(s);
    LaxBegins(s, Elems(ks));
    BeginSame(s);
    hide Lax, Begin;
    forall i | 0 <= i < |ks| && At(ks[i]) !in t.marks ensures HasParent(t, ks, i) {
      assert HasParent(s, ks, i);
      var h: nat :| h < i && Edge(s, ks[h], ks[i]);
      assert Edge(t, ks[h], ks[i]) && !WasScanned(t, ks[h]);
    }
  }

  lemma BeginSame(s: State)
    ensures var t := Begin(s); t.objs == s.objs && t.marks == s.marks && t.on && t.scan == 0
  {
    ShadeMarksSame(Flip(s), s.marks, |s.marks|);
  }

  lemma {:induction false} ShadeMarksSame(s: State, ms: seq<Ptr>, n: nat)
    requires n <= |ms|
    ensures var u := ShadeMarks(s, ms, n); u.objs == s.objs && u.marks == s.marks && u.on == s.on && u.scan == s.scan
  {
    if n > 0 { ShadeMarksSame(s, ms, n - 1); }
  }

  // ---- the end of a cycle ----

  /** A marked object that is no copy has marked entries once all is scanned. */
  lemma CleanThere(s: State, ks: set<Ref>, p: Ref)
    requires Lax(s, ks) && s.on && s.scan == |s.cur| && Marked(s, p) && p !in ks
    ensures p in s.objs && KidsMarked(s, s.objs[p])
  {
    var b := Blank(s, ks);
    BlankMeans(s, ks);
    LaxQueue(s, ks);
    var i :| 0 <= i < |s.cur| && s.cur[i] == p;
    assert Clean(b, b.cur[i]);
    SameKids(s, ks, s.objs[p]);
  }

  lemma {:induction false} SourceMarked(g: State, s: State, ks: seq<Ref>, q: Ref, n: nat)
    requires Making(g, s, ks, {}) && s.on && s.scan == |s.cur| && ReachIn(g, q, n)
    ensures Marked(s, q)
    decreases n
  {
    hide Lax, Marked;
    if n == 0 {
      LaxMeans(s, Elems(ks));
      var i :| 0 <= i < |g.marks| && g.marks[i] == At(q);
      assert s.marks[i] == At(q) && MarkedPtr(s, s.marks[i]);
      MarkedMeans(s, q);
    } else {
      var p :| ReachIn(g, p, n - 1) && Edge(g, p, q);
      SourceMarked(g, s, ks, p, n - 1);
      assert Reachable(g, p);
      CleanThere(s, Elems(ks), p);
      PointsMarked(s, s.objs[p], q);
    }
  }

  lemma MarkedMeans(s: State, q: Ref)
    ensures MarkedPtr(s, At(q)) <==> Marked(s, q)
  {
  }

  lemma {:induction false} CopyMarked(g: State, s: State, ks: seq<Ref>, i: nat)
    requires Making(g, s, ks, {}) && s.on && s.scan == |s.cur| && i < |ks|
    ensures Marked(s, ks[i])
    decreases i
  {
    LaxQueue(s, Elems(ks));
    if At(ks[i]) in s.marks {
      LaxMeans(s, Elems(ks));
      var x :| 0 <= x < |s.marks| && s.marks[x] == At(ks[i]);
      assert MarkedPtr(s, s.marks[x]);
    } else {
      assert HasParent(s, ks, i);
      var h: nat :| h < i && Edge(s, ks[h], ks[i]) && (WasScanned(s, ks[h]) ==> Marked(s, ks[i]));
      CopyMarked(g, s, ks, h);
      assert s.cur[..s.scan] == s.cur;
    }
  }

  lemma PtrMarked(g: State, s: State, ks: seq<Ref>, x: Ptr)
    requires Making(g, s, ks, {}) && s.on && s.scan == |s.cur| && PtrOk(g, ks, x)
    ensures MarkedPtr(s, x)
  {
    if x.At? {
      if Reachable(g, x.p) {
        var n: nat :| ReachIn(g, x.p, n);
        SourceMarked(g, s, ks, x.p, n);
      } else {
        var i :| 0 <= i < |ks| && ks[i] == x.p;
        CopyMarked(g, s, ks, i);
      }
    }
  }

  lemma {:induction false} ReachedMarked(g: State, s: State, ks: seq<Ref>, q: Ref, n: nat)
    requires Making(g, s, ks, {}) && s.on && s.scan == |s.cur| && ReachIn(s, q, n)
    ensures Marked(s, q)
    decreases n
  {
    if n == 0 {
      LaxMeans(s, Elems(ks));
      var i :| 0 <= i < |s.marks| && s.marks[i] == At(q);
      assert MarkedPtr(s, s.marks[i]);
    } else {
      var p :| ReachIn(s, p, n - 1) && Edge(s, p, q);
      ReachedMarked(g, s, ks, p, n - 1);
      if p in ks {
        var i :| 0 <= i < |s.objs[p].kvs| && KvHas(s.objs[p].kvs[i], q);
        assert KvOk(g, ks, s.objs[p].kvs[i]);
        PtrMarked(g, s, ks, At(q));
      } else {
        CleanThere(s, Elems(ks), p);
        PointsMarked(s, s.objs[p], q);
      }
    }
  }

  lemma BlankSweeps(s: State, ks: set<Ref>)
    ensures Sweep(Blank(s, ks)) == Blank(Sweep(s), ks)
  {
    var a, b := Sweep(Blank(s, ks)), Blank(Sweep(s), ks);
    assert a.objs == b.objs && a.area == b.area;
  }

  lemma LaxSweeps(s: State, ks: set<Ref>)
    requires Lax(s, ks) && s.on && s.scan == |s.cur|
    requires forall k :: k in ks ==> Marked(s, k) && KidsMarked(s, s.objs[k])
    ensures Lax(Sweep(s), ks)
  {
    var b, t := Blank(s, ks), Sweep(s);
    LaxMeans(s, ks);
    BlankSweeps(s, ks);
    hide Core, Blank, RootsMarked;
    SweepKeeps(b) by { BlankMeans(s, ks); }
    forall k | k in ks ensures IsTable(t, k) && KidsLive(t, t.objs[k]) {
      assert IsTable(s, k) && KidsLive(s, s.objs[k]);
      forall i | 0 <= i < |t.objs[k].kvs| ensures KvLive(t, t.objs[k].kvs[i]) {
        assert KvMarked(s, s.objs[k].kvs[i]) && KvLive(s, s.objs[k].kvs[i]);
      }
    }
  }

  lemma CopyKidsMarked(g: State, s: State, ks: seq<Ref>, k: Ref)
    requires Making(g, s, ks, {}) && s.on && s.scan == |s.cur| && k in ks
    ensures k in s.objs && Marked(s, k) && KidsMarked(s, s.objs[k])
  {
    var i :| 0 <= i < |ks| && ks[i] == k;
    CopyMarked(g, s, ks, i);
    assert IsTable(s, k);
    forall x | 0 <= x < |s.objs[k].kvs| ensures KvMarked(s, s.objs[k].kvs[x]) {
      assert KvOk(g, ks, s.objs[k].kvs[x]);
      PtrMarked(g, s, ks, s.objs[k].kvs[x].ko);
      PtrMarked(g, s, ks, s.objs[k].kvs[x].vo);
    }
  }

  lemma MakingSweeps(g: State, s: State, ks: seq<Ref>)
    requires Making(g, s, ks, {}) && s.on && s.scan == |s.cur|
    ensures Making(g, Sweep(s), ks, {})
  {
    var t := Sweep(s);
    hide Lax;
    forall k | k in ks ensures k in s.objs && Marked(s, k) && KidsMarked(s, s.objs[k]) { CopyKidsMarked(g, s, ks, k); }
    LaxSweeps(s, Elems(ks));
    forall q | Reachable(g, q) ensures q in t.objs {
      var n: nat :| ReachIn(g, q, n);
      SourceMarked(g, s, ks, q, n);
    }
    forall i | 0 <= i < |ks| && At(ks[i]) !in t.marks ensures HasParent(t, ks, i) {
      assert HasParent(s, ks, i);
      var h: nat :| h < i && Edge(s, ks[h], ks[i]);
      assert ks[h] in ks && Edge(t, ks[h], ks[i]);
    }
    forall k | k in ks ensures IsTable(t, k) && t.objs[k] == s.objs[k] { assert IsTable(s, k); }
  }

  lemma MakingScanned(g: State, s: State, ks: seq<Ref>, amount: Amount)
    requires Making(g, s, ks, {})
    ensures var u := Scanned(s, amount); Making(g, u, ks, {}) && Onward(s, u) && u.scan <= |u.cur|
  {
    hide Making, Begin, ScanUpTo;
    var t := if s.on then s else Begin(s);
    if s.on { MakingQueue(g, s, ks); } else { MakingBegins(g, s, ks); }
    MakingScanUpTo(g, t, ks, if amount.Full? then |t.objs| else amount.k);
  }

  lemma MakingQueue(g: State, s: State, ks: seq<Ref>)
    requires Making(g, s, ks, {})
    ensures s.on ==> s.scan <= |s.cur|
  {
    LaxQueue(s, Elems(ks));
  }

  /** Whatever a collection does while copies are made, it loses nothing that is in use, nor the source,
      nor any of the copies. */
  lemma CollectKeeps(g: State, s: State, ks: seq<Ref>, amount: Amount)
    requires Making(g, s, ks, {})
    ensures var t := Dogc(s, amount);
      && Making(g, t, ks, {}) && t.marks == s.marks
      && (forall q :: Reachable(s, q) ==> q in t.objs)
      && (forall p :: p in t.objs ==> p in s.objs && t.objs[p] == s.objs[p])
  {
    hide Making, Scanned;
    MakingScanned(g, s, ks, amount);
    var u := Scanned(s, amount);
    if u.scan == |u.cur| { MakingSweeps(g, u, ks); }
    forall q | Reachable(s, q) ensures q in Dogc(s, amount).objs {
      var n: nat :| ReachIn(s, q, n);
      SameReach(s, u, q, n);
      MakingLive(g, s, ks, q, n);
      if u.scan == |u.cur| { ReachedMarked(g, u, ks, q, n); }
    }
  }

  lemma {:induction false} MakingLive(g: State, s: State, ks: seq<Ref>, q: Ref, n: nat)
    requires Making(g, s, ks, {}) && ReachIn(s, q, n)
    ensures q in s.objs
    decreases n
  {
    LaxMeans(s, Elems(ks));
    if n == 0 {
      var i :| 0 <= i < |s.marks| && s.marks[i] == At(q);
      assert Live(s, s.marks[i]);
    } else {
      var p :| ReachIn(s, p, n - 1) && Edge(s, p, q);
      assert KidsLive(s, s.objs[p]);
      var i :| 0 <= i < |s.objs[p].kvs| && KvHas(s.objs[p].kvs[i], q);
      assert KvLive(s, s.objs[p].kvs[i]);
    }
  }

  // ---- the steps of a copy ----

  /** The collection that an allocation may start. */
  lemma PrepareMaking(g: State, s: State, ks: seq<Ref>, r: Refill)
    requires Making(g, s, ks, {})
    ensures var t := Prepare(s, r);
      && Making(g, t, ks, {}) && t.marks == s.marks
      && (forall q :: Reachable(s, q) ==> q in t.objs)
      && (forall p :: p in t.objs ==> p in s.objs && t.objs[p] == s.objs[p])
  {
    hide Making, Dogc;
    forall q | Reachable(s, q) ensures q in s.objs {
      var n: nat :| ReachIn(s, q, n);
      MakingLive(g, s, ks, q, n);
    }
    match r
    case Cell(k) => if s.on { CollectKeeps(g, s, ks, Steps(k)); }
    case Buffer(amount) => CollectKeeps(g, s, ks, amount);
  }

  lemma BlankPlace(s: State, ks: set<Ref>, n: Ref)
    requires n !in s.objs
    ensures Place(Blank(s, ks), n, Table([])) == Blank(Place(s, n, Table([])), ks + {n})
  {
    assert Place(Blank(s, ks), n, Table([])).objs == Blank(Place(s, n, Table([])), ks + {n}).objs;
  }

  lemma LaxPlace(s: State, ks: set<Ref>, n: Ref)
    requires Lax(s, ks) && n !in s.objs
    ensures Lax(Place(s, n, Table([])), ks + {n}) && Marked(Place(s, n, Table([])), n)
  {
    var b, t := Blank(s, ks), Place(s, n, Table([]));
    LaxMeans(s, ks);
    BlankPlace(s, ks, n);
    BlankMeans(s, ks);
    hide Core, Blank, RootsMarked;
    PlaceKeeps(b, n, Table([]));
    hide Inv;
    forall k | k in ks + {n} ensures IsTable(t, k) && KidsLive(t, t.objs[k]) {
      if k != n {
        assert IsTable(s, k) && KidsLive(s, s.objs[k]);
        forall i | 0 <= i < |t.objs[k].kvs| ensures KvLive(t, t.objs[k].kvs[i]) { assert KvLive(s, s.objs[k].kvs[i]); }
      }
    }
  }

  /** The copies stay held where entries, marks and scanned tables are as before, but for those in what. */
  lemma HeldMoves(s: State, t: State, ks: seq<Ref>, loose: set<Ref>, now: set<Ref>)
    requires CopiesHeld(s, ks, loose)
    requires forall p, q {:trigger Edge(s, p, q)} :: p in ks && Edge(s, p, q) ==> Edge(t, p, q)
    requires forall p {:trigger WasScanned(t, p)} :: WasScanned(t, p) ==> WasScanned(s, p)
    requires forall p {:trigger Marked(s, p)} :: Marked(s, p) ==> Marked(t, p)
    requires forall i :: 0 <= i < |ks| && (ks[i] in loose || At(ks[i]) in s.marks) ==>
      ks[i] in now || At(ks[i]) in t.marks || HasParent(t, ks, i)
    requires t.on ==> forall k :: k in now ==> Marked(t, k)
    ensures CopiesHeld(t, ks, now)
  {
    hide Edge, WasScanned, Marked;
    forall i | 0 <= i < |ks| && ks[i] !in loose && At(ks[i]) !in s.marks ensures HasParent(t, ks, i) {
      assert HasParent(s, ks, i);
      var h: nat :| h < i && Edge(s, ks[h], ks[i]) && (WasScanned(s, ks[h]) ==> Marked(s, ks[i]));
      assert ks[h] in ks && Edge(t, ks[h], ks[i]);
    }
  }

  /** Mnew of a new copy. */
  lemma BornKeeps(g: State, s: State, ks: seq<Ref>, n: Ref)
    requires Making(g, s, ks, {}) && n !in s.objs
    ensures Making(g, Place(s, n, Table([])), ks + [n], {n})
  {
    var t := Place(s, n, Table([]));
    assert Elems(ks + [n]) == Elems(ks) + {n};
    LaxPlace(s, Elems(ks), n);
    ScannedSame(s, t, n, Elems(ks));
    BornOk(g, s, ks, n);
    EdgesStay(s, t, ks);
    hide Lax, Marked, WasScanned, CopiesHeld, CopiesOk, Edge, HasParent;
    HeldMoves(s, t, ks, {}, {n});
    HeldBorn(t, ks, n);
  }

  lemma BornOk(g: State, s: State, ks: seq<Ref>, n: Ref)
    requires SourceOk(g, s, ks) && CopiesOk(g, s, ks) && n !in s.objs
    ensures SourceOk(g, Place(s, n, Table([])), ks + [n]) && CopiesOk(g, Place(s, n, Table([])), ks + [n])
  {
    var t := Place(s, n, Table([]));
    hide Reachable;
    forall k | k in ks + [n]
      ensures IsTable(t, k) && forall i :: 0 <= i < |t.objs[k].kvs| ==> KvOk(g, ks + [n], t.objs[k].kvs[i])
    {
      if k != n {
        assert k in ks && IsTable(s, k);
        forall i | 0 <= i < |t.objs[k].kvs| ensures KvOk(g, ks + [n], t.objs[k].kvs[i]) {
          assert KvOk(g, ks, s.objs[k].kvs[i]);
        }
      }
    }
  }

  lemma HeldBorn(t: State, ks: seq<Ref>, n: Ref)
    requires CopiesHeld(t, ks, {n})
    ensures CopiesHeld(t, ks + [n], {n})
  {
    var ls := ks + [n];
    hide Edge, WasScanned, Marked;
    forall i | 0 <= i < |ls| && ls[i] != n && At(ls[i]) !in t.marks ensures HasParent(t, ls, i) {
      assert HasParent(t, ks, i);
      var h: nat :| h < i && Edge(t, ks[h], ks[i]) && (WasScanned(t, ks[h]) ==> Marked(t, ks[i]));
      assert ls[h] == ks[h];
    }
  }

  lemma EdgesStay(s: State, t: State, ks: seq<Ref>)
    requires forall k :: k in ks ==> k in s.objs ==> k in t.objs && t.objs[k] == s.objs[k]
    ensures forall p, q {:trigger Edge(s, p, q)} :: p in ks && Edge(s, p, q) ==> Edge(t, p, q)
  {
  }

  lemma ScannedSame(s: State, t: State, n: Ref, ks: set<Ref>)
    requires Lax(s, ks) && n !in s.objs && t == Place(s, n, Table([]))
    ensures forall p :: WasScanned(t, p) <==> WasScanned(s, p)
    ensures forall p :: Marked(s, p) ==> Marked(t, p)
    ensures forall p :: Marked(t, p) ==> Marked(s, p) || p == n
  {
    LaxQueue(s, ks);
    if s.on { assert t.cur[..t.scan] == s.cur[..s.scan]; }
  }

  lemma LaxPush(s: State, ks: set<Ref>, x: Ptr)
    requires Lax(s, ks) && Live(s, x)
    ensures Lax(Push(s, x), ks) && Push(s, x).objs == s.objs && Push(s, x).marks == s.marks + [x]
  {
    var b, t := Blank(s, ks), Push(s, x);
    LaxMeans(s, ks);
    BlankMeans(s, ks);
    assert Push(b, x) == Blank(t, ks);
    hide Core, Blank;
    PushKeeps(b, x);
    SameLive(s, t);
    assert forall k :: k in ks ==> IsTable(t, k) by { assert forall k :: k in ks ==> IsTable(s, k); }
  }

  /** The new table is pushed; it was marked at its birth. */
  lemma PushMaking(g: State, s: State, ks: seq<Ref>, n: Ref)
    requires Making(g, s, ks, {n}) && n in s.objs
    ensures Making(g, Push(s, At(n)), ks, {}) && Push(s, At(n)) == s.(marks := s.marks + [At(n)])
  {
    var t := Push(s, At(n));
    LaxPush(s, Elems(ks), At(n));
    assert t == s.(marks := s.marks + [At(n)]);
    assert t.marks[|s.marks|] == At(n);
    EdgesStay(s, t, ks);
    hide Lax, HasParent, Edge;
    HeldMoves(s, t, ks, {n}, {});
  }

  /** One more entry, stored as reccopytable does it. */
  function Append(s: State, t: Ref, kv: Kv): State
    requires IsTable(s, t)
  {
    Store(s, t, s.objs[t].kvs + [kv])
  }

  lemma LaxAppend(s: State, ks: set<Ref>, k: Ref, kv: Kv)
    requires Lax(s, ks) && k in ks && IsTable(s, k) && KvLive(s, kv)
    ensures Lax(Append(s, k, kv), ks)
  {
    var t := Append(s, k, kv);
    LaxMeans(s, ks);
    assert Blank(t, ks) == Blank(s, ks) by { assert Blank(t, ks).objs == Blank(s, ks).objs; }
    hide Core, Blank;
    forall c | c in ks ensures IsTable(t, c) && KidsLive(t, t.objs[c]) {
      assert IsTable(s, c) && KidsLive(s, s.objs[c]);
      forall i | 0 <= i < |t.objs[c].kvs| ensures KvLive(t, t.objs[c].kvs[i]) {
        if c != k || i < |s.objs[c].kvs| { assert KvLive(s, s.objs[c].kvs[i]); }
      }
    }
  }

  lemma KvOkLive(g: State, s: State, ks: seq<Ref>, loose: set<Ref>, kv: Kv)
    requires Making(g, s, ks, loose) && KvOk(g, ks, kv)
    ensures KvLive(s, kv)
  {
    forall p | p in ks ensures p in s.objs { assert IsTable(s, p); }
  }

  /** An entry is stored in copy h; a copy that was finished just before is held by it. */
  lemma AppendMaking(g: State, s: State, ks: seq<Ref>, loose: set<Ref>, h: nat, kv: Kv)
    requires Making(g, s, ks, loose) && h < |ks| && KvOk(g, ks, kv) && (forall c :: c in loose ==> kv.vo == At(c))
    requires forall i :: 0 <= i < |ks| && ks[i] in loose ==> h < i
    ensures IsTable(s, ks[h]) && Making(g, Append(s, ks[h], kv), ks, {})
  {
    var k := ks[h];
    assert k in ks && IsTable(s, k);
    var t := Append(s, k, kv);
    KvOkLive(g, s, ks, loose, kv);
    LaxAppend(s, Elems(ks), k, kv);
    AppendOk(g, s, ks, k, kv);
    forall p, q | p in ks && Edge(s, p, q) ensures Edge(t, p, q) { EdgeStays(s, k, kv, p, q); }
    hide Lax;
    forall i | 0 <= i < |ks| && ks[i] in loose ensures HasParent(t, ks, i) {
      assert KvHas(t.objs[k].kvs[|s.objs[k].kvs|], ks[i]);
      assert Edge(t, ks[h], ks[i]);
    }
    hide HasParent, Edge;
    HeldMoves(s, t, ks, loose, {});
  }

  lemma AppendOk(g: State, s: State, ks: seq<Ref>, k: Ref, kv: Kv)
    requires SourceOk(g, s, ks) && CopiesOk(g, s, ks) && k in ks && IsTable(s, k) && KvOk(g, ks, kv)
    ensures SourceOk(g, Append(s, k, kv), ks) && CopiesOk(g, Append(s, k, kv), ks)
  {
    var t := Append(s, k, kv);
    hide Reachable;
    forall c | c in ks
      ensures IsTable(t, c) && forall i :: 0 <= i < |t.objs[c].kvs| ==> KvOk(g, ks, t.objs[c].kvs[i])
    {
      assert IsTable(s, c);
      forall i | 0 <= i < |t.objs[c].kvs| ensures KvOk(g, ks, t.objs[c].kvs[i]) {
        if c != k || i < |s.objs[c].kvs| { assert KvOk(g, ks, s.objs[c].kvs[i]); }
      }
    }
  }

  lemma EdgeStays(s: State, k: Ref, kv: Kv, p: Ref, q: Ref)
    requires IsTable(s, k) && Edge(s, p, q)
    ensures Edge(Append(s, k, kv), p, q)
  {
    var t := Append(s, k, kv);
    var i :| 0 <= i < |s.objs[p].kvs| && KvHas(s.objs[p].kvs[i], q);
    assert t.objs[p].kvs[i] == s.objs[p].kvs[i];
  }

  lemma LaxPop(s: State, ks: set<Ref>, m: int)
    requires Lax(s, ks)
    ensures Lax(Pop(s, m), ks)
  {
    var b, t := Blank(s, ks), Pop(s, m);
    LaxMeans(s, ks);
    assert Pop(b, m) == Blank(t, ks);
    hide Core, Blank;
    PopKeeps(b, m);
    SameLive(s, t);
    assert forall k :: k in ks ==> IsTable(t, k) by { assert forall k :: k in ks ==> IsTable(s, k); }
  }

  /** The mark of a finished copy is taken off. */
  lemma PopMaking(g: State, s: State, ks: seq<Ref>, n: Ref)
    requires Making(g, s, ks, {}) && |s.marks| > 0 && s.marks[|s.marks| - 1] == At(n)
    requires g.marks <= s.marks[..|s.marks| - 1]
    ensures Making(g, Pop(s, |s.marks| - 1), ks, {n}) && Pop(s, |s.marks| - 1) == s.(marks := s.marks[..|s.marks| - 1])
  {
    var t := Pop(s, |s.marks| - 1);
    LaxPop(s, Elems(ks), |s.marks| - 1);
    LaxMeans(s, Elems(ks));
    assert MarkedPtr(s, s.marks[|s.marks| - 1]) || !s.on;
    hide Lax, CopiesHeld;
    HeldPops(s, t, ks, n);
  }

  lemma HeldPops(s: State, t: State, ks: seq<Ref>, n: Ref)
    requires CopiesHeld(s, ks, {}) && s.marks == t.marks + [At(n)] && t == s.(marks := t.marks)
    requires s.on ==> Marked(s, n)
    ensures CopiesHeld(t, ks, {n})
  {
    EdgesStay(s, t, ks);
    hide HasParent, Edge;
    HeldMoves(s, t, ks, {}, {n});
  }

  /** Before the first allocation. */
  lemma MakingStarts(s: State)
    requires Inv(s)
    ensures Making(s, s, [], {})
  {
    assert Blank(s, Elems([])) == s by { assert Blank(s, Elems([])).objs == s.objs; }
    forall q | Reachable(s, q) ensures q in s.objs {
      var n: nat :| ReachIn(s, q, n);
      ReachIsLive(s, q, n);
    }
  }
}
