/** What every run of the collector and its mutator keeps.

    A run is any interleaving of allocations, mark-stack operations, table updates and collection
    steps of any size.  The main results: nothing reachable from the mark stack is ever freed
    (`GcSafe`, `RunKeeps`), everything unreachable when a cycle starts is freed when it ends
    (`GarbageFreed`), allocation bounds the length of a cycle (`CycleBound`), and two full
    collections leave exactly the reachable objects (`TwoFullCollections`). */
module CollectorRuns {
  import opened Collector

  // ---- reachability from the mark stack ----

  predicate KvHas(kv: Kv, q: Ref) {
    kv.ko == At(q) || kv.vo == At(q)
  }

  ghost predicate Points(o: Obj, q: Ref) {
    o.Table? && exists i :: 0 <= i < |o.kvs| && KvHas(o.kvs[i], q)
  }

  ghost predicate Edge(s: State, p: Ref, q: Ref) {
    p in s.objs && Points(s.objs[p], q)
  }

  /** q is reached from a mark-stack entry by n table entries. */
  ghost predicate ReachIn(s: State, q: Ref, n: nat)
    decreases n
  {
    if n == 0 then At(q) in s.marks
    else exists p :: ReachIn(s, p, n - 1) && Edge(s, p, q)
  }

  ghost predicate Reachable(s: State, q: Ref) {
    exists n: nat :: ReachIn(s, q, n)
  }

  lemma ReachStep(s: State, p: Ref, q: Ref)
    requires Reachable(s, p) && Edge(s, p, q)
    ensures Reachable(s, q)
  {
    var n: nat :| ReachIn(s, p, n);
    assert ReachIn(s, q, n + 1);
  }

  lemma {:induction false} ReachIsLive(s: State, q: Ref, n: nat)
    requires Core(s) && ReachIn(s, q, n)
    ensures q in s.objs
    decreases n
  {
    if n > 0 {
      var p :| ReachIn(s, p, n - 1) && Edge(s, p, q);
      ReachIsLive(s, p, n - 1);
      assert KidsLive(s, s.objs[p]);
      var i :| 0 <= i < |s.objs[p].kvs| && KvHas(s.objs[p].kvs[i], q);
      assert KvLive(s, s.objs[p].kvs[i]);
    }
  }

  // ---- one collection ----

  lemma {:induction false} ReachIsMarked(s: State, q: Ref, n: nat)
    requires Inv(s) && s.on && s.scan == |s.cur| && ReachIn(s, q, n)
    ensures Marked(s, q)
    decreases n
  {
    if n > 0 {
      var p :| ReachIn(s, p, n - 1) && Edge(s, p, q);
      ReachIsMarked(s, p, n - 1);
      var j :| 0 <= j < |s.cur| && s.cur[j] == p;
      assert Clean(s, s.cur[j]);
      var i :| 0 <= i < |s.objs[p].kvs| && KvHas(s.objs[p].kvs[i], q);
      assert KvMarked(s, s.objs[p].kvs[i]);
    } else {
      var i :| 0 <= i < |s.marks| && s.marks[i] == At(q);
      assert MarkedPtr(s, s.marks[i]);
    }
  }

  lemma SweepKeeps(s: State)
    requires Inv(s) && s.on && s.scan == |s.cur|
    ensures Inv(Sweep(s)) && !Sweep(s).on
    ensures forall p :: p in Sweep(s).objs <==> Marked(s, p)
  {
    var t := Sweep(s);
    forall p | p in t.objs ensures KidsLive(t, t.objs[p]) {
      var j :| 0 <= j < |s.cur| && s.cur[j] == p;
      assert Clean(s, s.cur[j]);
      if t.objs[p].Table? {
        forall i | 0 <= i < |t.objs[p].kvs| ensures KvLive(t, t.objs[p].kvs[i]) {
          assert KvMarked(s, s.objs[p].kvs[i]);
        }
      }
    }
    forall i | 0 <= i < |t.marks| ensures Live(t, t.marks[i]) {
      assert MarkedPtr(s, s.marks[i]);
    }
  }

  lemma GrewKeepsRoots(s: State, t: State)
    requires Grew(s, t) && RootsMarked(s)
    ensures RootsMarked(t)
  {
    forall i | 0 <= i < |t.marks| ensures MarkedPtr(t, t.marks[i]) {
      assert MarkedPtr(s, s.marks[i]);
    }
  }

  lemma {:induction false} SeqFitsSet(q: seq<Ref>, d: set<Ref>)
    requires Distinct(q) && forall i :: 0 <= i < |q| ==> q[i] in d
    ensures |q| <= |d|
  {
    if q != [] {
      var n := |q| - 1;
      assert forall i :: 0 <= i < n ==> q[..n][i] == q[i];
      SeqFitsSet(q[..n], d - {q[n]});
    }
  }

  /** The queue never holds more entries than there are live objects. */
  lemma QueueFits(s: State)
    requires Core(s)
    ensures |s.cur| <= |s.objs| && (s.on ==> s.scan <= |s.objs|)
  {
    assert forall i :: 0 <= i < |s.cur| ==> s.cur[i] in s.cur;
    SeqFitsSet(s.cur, s.objs.Keys);
  }

  lemma ScannedKeeps(s: State, amount: Amount)
    requires Inv(s)
    ensures var u := Scanned(s, amount);
      Inv(u) && u.on && u.objs == s.objs && u.marks == s.marks && u.scan <= |u.cur|
    ensures amount.Full? ==> Scanned(s, amount).scan == |Scanned(s, amount).cur|
  {
    BeginKeeps(s);
    var t := if s.on then s else Begin(s);
    var u := Scanned(s, amount);
    assert t.scan <= |t.cur|;
    ScanUpToKeeps(t, if amount.Full? then |t.objs| else amount.k);
    GrewKeepsRoots(t, u);
    QueueFits(u);
  }

  /** One call of Mdogc, whole or incremental: the invariant holds again, no object reachable
      from the mark stack is freed, and the survivors are untouched. */
  lemma GcSafe(s: State, amount: Amount)
    requires Inv(s)
    ensures var t := Dogc(s, amount);
      && Inv(t) && t.marks == s.marks
      && (forall q :: Reachable(s, q) ==> q in t.objs)
      && (forall p :: p in t.objs ==> p in s.objs && t.objs[p] == s.objs[p])
    ensures amount.Full? ==> !Dogc(s, amount).on
  {
    ScannedKeeps(s, amount);
    var u := Scanned(s, amount);
    var t := Dogc(s, amount);
    if u.scan == |u.cur| { SweepKeeps(u); }
    forall q | Reachable(s, q) ensures q in t.objs {
      var n: nat :| ReachIn(s, q, n);
      SameReach(s, u, q, n);
      ReachIsLive(s, q, n);
      if u.scan == |u.cur| { ReachIsMarked(u, q, n); }
    }
  }

  lemma {:induction false} SameReach(s: State, t: State, q: Ref, n: nat)
    requires t.marks == s.marks && t.objs == s.objs && ReachIn(s, q, n)
    ensures ReachIn(t, q, n)
    decreases n
  {
    if n > 0 {
      var p :| ReachIn(s, p, n - 1) && Edge(s, p, q);
      SameReach(s, t, p, n - 1);
      assert Edge(t, p, q);
    }
  }

  // ---- the mutator ----

  /** The key of an insertion: an object the caller gives (Tinso), one that `insert` allocates, or
      none because an equal key is already there. */
  datatype Key = Given(ko: Ptr) | Fresh(p: Ref, refill: Refill) | Present

  datatype Op =
    | OpAlloc(p: Ref, o: Obj, refill: Refill)
    | OpPush(x: Ptr)
    | OpPop(h: int)
    | OpReset(m: nat, x: Ptr)
    | OpInsert(t: Ref, key: Key, vo: Ptr, kvs: seq<Kv>)
    | OpDelete(t: Ref, kvs: seq<Kv>)
    | OpGc(amount: Amount)

  /** The pointer x was in the table's entries. */
  ghost predicate InEntries(o: Obj, x: Ptr) {
    o.Table? && exists i :: 0 <= i < |o.kvs| && (o.kvs[i].ko == x || o.kvs[i].vo == x)
  }

  ghost predicate Allowed(o: Obj, extra: set<Ptr>, x: Ptr) {
    x == Null || x in extra || InEntries(o, x)
  }

  /** The new entries are built from the old ones and the pointers in `extra` only.  This covers
      an append, an overwrite, a removal and the reordering done by a rehash. */
  ghost predicate BuiltFrom(o: Obj, extra: set<Ptr>, kvs: seq<Kv>) {
    forall i :: 0 <= i < |kvs| ==> Allowed(o, extra, kvs[i].ko) && Allowed(o, extra, kvs[i].vo)
  }

  /** The pushes of Tinso and its siblings. */
  function Guarded(s: State, t: Ref, key: Key, vo: Ptr): State {
    var s1 := Push(s, At(t));
    var s2 := if key.Given? then Push(s1, key.ko) else s1;
    if vo.At? then Push(s2, vo) else s2
  }

  function WithKey(s: State, t: Ref, key: Key, vo: Ptr): State
  {
    var g := Guarded(s, t, key, vo);
    if key.Fresh? then Alloc(g, key.p, Scalar, key.refill) else g
  }

  function KeyPtr(key: Key): Ptr {
    match key case Given(ko) => ko case Fresh(p, _) => At(p) case Present => Null
  }

  /** The pointers an operation names are to live objects, and a new object gets a free address. */
  ghost predicate Enabled(s: State, op: Op)
  {
    match op
    case OpAlloc(p, o, r) => (o == Scalar || o == Table([])) && p !in Prepare(s, r).objs
    case OpPush(x) => Live(s, x)
    case OpPop(_) => true
    case OpReset(m, x) => m < |s.marks| && Live(s, x)
    case OpInsert(t, key, vo, kvs) =>
      && t in s.objs && s.objs[t].Table? && Live(s, vo)
      && (key.Given? ==> Live(s, key.ko))
      && (key.Fresh? ==> key.p !in Prepare(Guarded(s, t, key, vo), key.refill).objs)
      && BuiltFrom(s.objs[t], {KeyPtr(key), vo}, kvs)
    case OpDelete(t, kvs) => t in s.objs && s.objs[t].Table? && BuiltFrom(s.objs[t], {}, kvs)
    case OpGc(_) => true
  }

  function Step(s: State, op: Op): State {
    match op
    case OpAlloc(p, o, r) => Alloc(s, p, o, r)
    case OpPush(x) => Push(s, x)
    case OpPop(m) => Pop(s, m)
    case OpReset(m, x) => if m < |s.marks| then Reset(s, m, x) else s
    case OpInsert(t, key, vo, kvs) => Pop(Store(WithKey(s, t, key, vo), t, kvs), |s.marks|)
    case OpDelete(t, kvs) => Store(s, t, kvs)
    case OpGc(amount) => Dogc(s, amount)
  }

  lemma PushKeeps(s: State, x: Ptr)
    requires Inv(s) && Live(s, x)
    ensures Inv(Push(s, x)) && Push(s, x).marks == s.marks + [x] && Push(s, x).objs == s.objs
  {
    var t := s.(marks := s.marks + [x]);
    forall p | p in t.objs ensures KidsLive(t, t.objs[p]) { assert KidsLive(s, s.objs[p]); }
    if s.on {
      forall i | 0 <= i < t.scan ensures Clean(t, t.cur[i]) { assert Clean(s, s.cur[i]); }
    }
    assert Core(t);
    if s.on {
      ShadeKeeps(t, x);
      forall i | 0 <= i < |t.marks| ensures MarkedPtr(Shade(t, x), t.marks[i]) {
        if i < |s.marks| { assert MarkedPtr(s, s.marks[i]); }
      }
    }
  }

  lemma PopKeeps(s: State, m: int)
    requires Inv(s)
    ensures Inv(Pop(s, m))
  {
    var t := Pop(s, m);
    forall p | p in t.objs ensures KidsLive(t, t.objs[p]) { assert KidsLive(s, s.objs[p]); }
    if s.on {
      forall i | 0 <= i < t.scan ensures Clean(t, t.cur[i]) { assert Clean(s, s.cur[i]); }
      forall i | 0 <= i < |t.marks| ensures MarkedPtr(t, t.marks[i]) { assert MarkedPtr(s, s.marks[i]); }
    }
  }

  lemma ResetKeeps(s: State, m: nat, x: Ptr)
    requires Inv(s) && m < |s.marks| && Live(s, x)
    ensures Inv(Reset(s, m, x))
  {
    var t := s.(marks := s.marks[m := x]);
    forall p | p in t.objs ensures KidsLive(t, t.objs[p]) { assert KidsLive(s, s.objs[p]); }
    if s.on {
      forall i | 0 <= i < t.scan ensures Clean(t, t.cur[i]) { assert Clean(s, s.cur[i]); }
    }
    assert Core(t);
    if s.on {
      ShadeKeeps(t, x);
      forall i | 0 <= i < |t.marks| ensures MarkedPtr(Shade(t, x), t.marks[i]) {
        if i != m { assert MarkedPtr(s, s.marks[i]); }
      }
    }
  }

  lemma PrepareKeeps(s: State, r: Refill)
    requires Inv(s)
    ensures var t := Prepare(s, r);
      && Inv(t) && t.marks == s.marks
      && (forall q :: Reachable(s, q) ==> q in t.objs)
      && (forall p :: p in t.objs ==> p in s.objs && t.objs[p] == s.objs[p])
  {
    forall q | Reachable(s, q) ensures q in s.objs {
      var n: nat :| ReachIn(s, q, n);
      ReachIsLive(s, q, n);
    }
    match r
    case Cell(k) => if s.on { GcSafe(s, Steps(k)); }
    case Buffer(amount) => GcSafe(s, amount);
  }

  /** A new object starts out marked, so it survives the cycle it is born in. */
  lemma PlaceKeeps(s: State, p: Ref, o: Obj)
    requires Inv(s) && p !in s.objs && (o == Scalar || o == Table([]))
    ensures Inv(Place(s, p, o)) && Marked(Place(s, p, o), p)
  {
    var t := Place(s, p, o);
    assert p !in s.cur;
    assert forall q :: Marked(t, q) <==> Marked(s, q) || q == p;
    forall q | q in t.objs ensures KidsLive(t, t.objs[q]) {
      if q != p {
        assert KidsLive(s, s.objs[q]);
        if s.objs[q].Table? {
          forall i | 0 <= i < |t.objs[q].kvs| ensures KvLive(t, t.objs[q].kvs[i]) {
            assert KvLive(s, s.objs[q].kvs[i]);
          }
        }
      }
    }
    if s.on {
      forall i | 0 <= i < t.scan ensures Clean(t, t.cur[i]) {
        assert Clean(s, s.cur[i]) && s.cur[i] != p;
        assert s.cur[i] in s.cur;
        if t.objs[t.cur[i]].Table? {
          forall j | 0 <= j < |t.objs[t.cur[i]].kvs| ensures KvMarked(t, t.objs[t.cur[i]].kvs[j]) {
            assert KvMarked(s, s.objs[s.cur[i]].kvs[j]);
          }
        }
      }
      forall i | 0 <= i < |t.marks| ensures MarkedPtr(t, t.marks[i]) { assert MarkedPtr(s, s.marks[i]); }
    }
    forall i | 0 <= i < |t.marks| ensures Live(t, t.marks[i]) { assert Live(s, s.marks[i]); }
  }

  /** Table t was already scanned in the cycle that is on. */
  predicate WasScanned(s: State, t: Ref) {
    s.on && s.scan <= |s.cur| && t in s.cur[..s.scan]
  }

  /** A store that shades nothing (as the ones in reccopytable) keeps the invariant exactly when
      the table was not scanned yet, or all that it now holds is marked. */
  lemma BareStore(s: State, t: Ref, kvs: seq<Kv>)
    requires Inv(s) && t in s.objs && KidsLive(s, Table(kvs))
    ensures Inv(Store(s, t, kvs)) <==> !WasScanned(s, t) || KidsMarked(s, Table(kvs))
  {
    var u := Store(s, t, kvs);
    forall p ensures Marked(u, p) <==> Marked(s, p) {}
    forall kv: Kv ensures KvLive(u, kv) <==> KvLive(s, kv) {}
    forall kv: Kv ensures KvMarked(u, kv) <==> KvMarked(s, kv) {}
    if !WasScanned(s, t) || KidsMarked(s, Table(kvs)) {
      forall p | p in u.objs ensures KidsLive(u, u.objs[p]) { assert KidsLive(s, s.objs[p]); }
      if s.on {
        forall i | 0 <= i < u.scan ensures Clean(u, u.cur[i]) {
          assert s.cur[i] == s.cur[..s.scan][i];
          assert Clean(s, s.cur[i]);
        }
      }
      forall i | 0 <= i < |u.marks| ensures Live(u, u.marks[i]) { assert Live(s, s.marks[i]); }
      if s.on {
        forall i | 0 <= i < |u.marks| ensures MarkedPtr(u, u.marks[i]) { assert MarkedPtr(s, s.marks[i]); }
      }
    } else {
      var i :| 0 <= i < s.scan && s.cur[..s.scan][i] == t;
      assert !Clean(u, u.cur[i]);
    }
  }

  /** A store of old entries and of pointers on the mark stack always keeps it. */
  lemma RootedStoreKeeps(s: State, t: Ref, extra: set<Ptr>, kvs: seq<Kv>)
    requires Inv(s) && t in s.objs && BuiltFrom(s.objs[t], extra, kvs)
    requires forall x :: x in extra ==> Live(s, x) && (s.on ==> MarkedPtr(s, x))
    ensures Inv(Store(s, t, kvs))
  {
    var o := s.objs[t];
    assert KidsLive(s, o);
    forall i | 0 <= i < |kvs| ensures KvLive(s, kvs[i]) {
      assert Allowed(o, extra, kvs[i].ko) && Allowed(o, extra, kvs[i].vo);
      EntryLive(s, o, extra, kvs[i].ko);
      EntryLive(s, o, extra, kvs[i].vo);
    }
    if WasScanned(s, t) {
      var j :| 0 <= j < s.scan && s.cur[..s.scan][j] == t;
      assert Clean(s, s.cur[j]);
      forall i | 0 <= i < |kvs| ensures KvMarked(s, kvs[i]) {
        assert Allowed(o, extra, kvs[i].ko) && Allowed(o, extra, kvs[i].vo);
        EntryMarked(s, o, extra, kvs[i].ko);
        EntryMarked(s, o, extra, kvs[i].vo);
      }
    }
    BareStore(s, t, kvs);
  }

  lemma EntryLive(s: State, o: Obj, extra: set<Ptr>, x: Ptr)
    requires KidsLive(s, o) && Allowed(o, extra, x) && forall y :: y in extra ==> Live(s, y)
    ensures Live(s, x)
  {
    if x != Null && x !in extra {
      var i :| 0 <= i < |o.kvs| && (o.kvs[i].ko == x || o.kvs[i].vo == x);
      assert KvLive(s, o.kvs[i]);
    }
  }

  lemma EntryMarked(s: State, o: Obj, extra: set<Ptr>, x: Ptr)
    requires KidsMarked(s, o) && Allowed(o, extra, x) && forall y :: y in extra ==> MarkedPtr(s, y)
    ensures MarkedPtr(s, x)
  {
    if x != Null && x !in extra {
      var i :| 0 <= i < |o.kvs| && (o.kvs[i].ko == x || o.kvs[i].vo == x);
      assert KvMarked(s, o.kvs[i]);
    }
  }

  lemma MoreRootsReach(s: State, t: State, q: Ref)
    requires t.objs == s.objs && Reachable(s, q)
    requires forall x :: x in s.marks ==> x in t.marks
    ensures Reachable(t, q)
  {
    var n: nat :| ReachIn(s, q, n);
    MoreRootsReachIn(s, t, q, n);
  }

  lemma {:induction false} MoreRootsReachIn(s: State, t: State, q: Ref, n: nat)
    requires t.objs == s.objs && ReachIn(s, q, n)
    requires forall x :: x in s.marks ==> x in t.marks
    ensures ReachIn(t, q, n)
    decreases n
  {
    if n > 0 {
      var p :| ReachIn(s, p, n - 1) && Edge(s, p, q);
      MoreRootsReachIn(s, t, p, n - 1);
      assert Edge(t, p, q);
    }
  }

  lemma RootReachable(s: State, q: Ref)
    requires At(q) in s.marks
    ensures Reachable(s, q)
  {
    assert ReachIn(s, q, 0);
  }

  lemma GuardedKeeps(s: State, t: Ref, key: Key, vo: Ptr)
    requires Inv(s) && t in s.objs && Live(s, vo) && (key.Given? ==> Live(s, key.ko))
    ensures var g := Guarded(s, t, key, vo);
      && Inv(g) && g.objs == s.objs && s.marks <= g.marks && At(t) in g.marks
      && (key.Given? ==> key.ko in g.marks) && (vo.At? ==> vo in g.marks)
  {
    PushKeeps(s, At(t));
    var s1 := Push(s, At(t));
    assert s1.marks[|s.marks|] == At(t);
    if key.Given? { PushKeeps(s1, key.ko); }
    var s2 := if key.Given? then Push(s1, key.ko) else s1;
    assert key.Given? ==> s2.marks[|s1.marks|] == key.ko;
    assert s2.marks[|s.marks|] == At(t);
    if vo.At? { PushKeeps(s2, vo); }
    var g := Guarded(s, t, key, vo);
    assert vo.At? ==> g.marks[|s2.marks|] == vo;
    assert g.marks[|s.marks|] == At(t);
    assert key.Given? ==> g.marks[|s1.marks|] == key.ko;
  }

  lemma KeyKeeps(g: State, key: Key)
    requires Inv(g) && (key.Fresh? ==> key.p !in Prepare(g, key.refill).objs)
    ensures var w := if key.Fresh? then Alloc(g, key.p, Scalar, key.refill) else g;
      && Inv(w) && w.marks == g.marks && (key.Fresh? ==> key.p in w.objs && Marked(w, key.p))
      && (forall q :: Reachable(g, q) ==> q in g.objs && q in w.objs && w.objs[q] == g.objs[q])
  {
    hide Core, RootsMarked;
    forall q | Reachable(g, q) ensures q in g.objs {
      var n: nat :| ReachIn(g, q, n);
      ReachIsLive(g, q, n);
    }
    if key.Fresh? {
      PrepareKeeps(g, key.refill);
      PlaceKeeps(Prepare(g, key.refill), key.p, Scalar);
    }
  }

  lemma WithKeyKeeps(s: State, t: Ref, key: Key, vo: Ptr)
    requires Inv(s) && t in s.objs && Live(s, vo) && (key.Given? ==> Live(s, key.ko))
    requires key.Fresh? ==> key.p !in Prepare(Guarded(s, t, key, vo), key.refill).objs
    ensures var w := WithKey(s, t, key, vo);
      && Inv(w) && s.marks <= w.marks && t in w.objs && w.objs[t] == s.objs[t]
      && Live(w, KeyPtr(key)) && (w.on ==> MarkedPtr(w, KeyPtr(key)))
      && Live(w, vo) && (w.on ==> MarkedPtr(w, vo))
      && (forall q :: Reachable(s, q) ==> q in w.objs && q in s.objs && w.objs[q] == s.objs[q])
  {
    hide Core, RootsMarked, Prepare, Place;
    GuardedKeeps(s, t, key, vo);
    var g := Guarded(s, t, key, vo);
    var w := WithKey(s, t, key, vo);
    RootReachable(g, t);
    KeyKeeps(g, key);
    OnStack(w, vo);
    if key.Given? { OnStack(w, key.ko); }
    forall q | Reachable(s, q) ensures Reachable(g, q) { MoreRootsReach(s, g, q); }
  }

  lemma OnStack(s: State, x: Ptr)
    requires Inv(s) && (x == Null || x in s.marks)
    ensures Live(s, x) && (s.on ==> MarkedPtr(s, x))
  {
    if x in s.marks {
      var i :| 0 <= i < |s.marks| && s.marks[i] == x;
      assert Live(s, s.marks[i]);
      if s.on { assert MarkedPtr(s, s.marks[i]); }
    }
  }

  /** The table whose entries an operation replaces. */
  predicate Updates(op: Op, q: Ref) {
    (op.OpInsert? || op.OpDelete?) && op.t == q
  }

  /** Any operation, with whatever collection work it does on the way, keeps the invariant, and
      frees or changes no object reachable before it, except for the table it updates. */
  lemma StepKeeps(s: State, op: Op)
    requires Inv(s) && Enabled(s, op)
    ensures Inv(Step(s, op))
    ensures forall q :: Reachable(s, q) ==>
      q in s.objs && q in Step(s, op).objs && (Step(s, op).objs[q] == s.objs[q] || Updates(op, q))
  {
    hide Core, RootsMarked, BuiltFrom;
    forall q | Reachable(s, q) ensures q in s.objs {
      var n: nat :| ReachIn(s, q, n);
      ReachIsLive(s, q, n);
    }
    match op
    case OpAlloc(p, o, r) => PrepareKeeps(s, r); PlaceKeeps(Prepare(s, r), p, o);
    case OpPush(x) => PushKeeps(s, x);
    case OpPop(m) => PopKeeps(s, m);
    case OpReset(m, x) => ResetKeeps(s, m, x); assert Reset(s, m, x).objs == s.objs;
    case OpInsert(t, key, vo, kvs) =>
      WithKeyKeeps(s, t, key, vo);
      var w := WithKey(s, t, key, vo);
      RootedStoreKeeps(w, t, {KeyPtr(key), vo}, kvs);
      PopKeeps(Store(w, t, kvs), |s.marks|);
    case OpDelete(t, kvs) => RootedStoreKeeps(s, t, {}, kvs);
    case OpGc(amount) => GcSafe(s, amount);
  }

  // ---- runs ----

  function Run(s: State, ops: seq<Op>): State
    decreases |ops|
  {
    if ops == [] then s else Run(Step(s, ops[0]), ops[1..])
  }

  ghost predicate AllEnabled(s: State, ops: seq<Op>)
    decreases |ops|
  {
    ops == [] || (Enabled(s, ops[0]) && AllEnabled(Step(s, ops[0]), ops[1..]))
  }

  /** Safety over every run: from the initial state no run, however collection steps and mutator
      operations interleave, reaches a state where a reachable object is gone. */
  lemma {:induction false} RunKeeps(s: State, ops: seq<Op>)
    requires Inv(s) && AllEnabled(s, ops)
    ensures Inv(Run(s, ops))
    ensures forall q :: Reachable(Run(s, ops), q) ==> q in Run(s, ops).objs
    decreases |ops|
  {
    if ops == [] {
      forall q | Reachable(s, q) ensures q in s.objs {
        var n: nat :| ReachIn(s, q, n);
        ReachIsLive(s, q, n);
      }
    } else {
      StepKeeps(s, ops[0]);
      RunKeeps(Step(s, ops[0]), ops[1..]);
    }
  }

  lemma InitialInv()
    ensures Inv(INITIAL)
  {
  }
}
