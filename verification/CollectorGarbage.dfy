/** Completeness and progress of the collector: garbage does not outlive the cycle that finds it,
    a cycle ends after a bounded number of allocations, and two full collections leave exactly
    the reachable objects. */
module CollectorGarbage {
  import opened Collector
  import opened CollectorRuns

  ghost predicate PtrAvoids(x: Ptr, g: set<Ref>) {
    x.At? ==> x.p !in g
  }

  ghost predicate KvAvoids(kv: Kv, g: set<Ref>) {
    PtrAvoids(kv.ko, g) && PtrAvoids(kv.vo, g)
  }

  ghost predicate KidsAvoid(o: Obj, g: set<Ref>) {
    o.Table? ==> forall i :: 0 <= i < |o.kvs| ==> KvAvoids(o.kvs[i], g)
  }

  /** Nothing outside g points into g, and nothing in g is marked. */
  ghost predicate Sealed(s: State, g: set<Ref>) {
    && g <= s.objs.Keys
    && (forall i :: 0 <= i < |s.marks| ==> PtrAvoids(s.marks[i], g))
    && (forall p {:trigger KidsAvoid(s.objs[p], g)} :: p in s.objs && p !in g ==> KidsAvoid(s.objs[p], g))
    && (forall p :: p in g ==> !Marked(s, p))
  }

  /** The mutator names no object of g. */
  ghost predicate Avoids(op: Op, g: set<Ref>) {
    match op
    case OpPush(x) => PtrAvoids(x, g)
    case OpReset(_, x) => PtrAvoids(x, g)
    case OpInsert(t, key, vo, _) => t !in g && PtrAvoids(vo, g) && (key.Given? ==> PtrAvoids(key.ko, g))
    case OpDelete(t, _) => t !in g
    case _ => true
  }

  ghost function Garbage(s: State): set<Ref> {
    set p | p in s.objs && !Reachable(s, p)
  }

  lemma ShadeSealed(s: State, x: Ptr, g: set<Ref>)
    requires Sealed(s, g) && PtrAvoids(x, g)
    ensures Sealed(Shade(s, x), g)
  {
    var t := Shade(s, x);
    forall p | p in t.objs && p !in g ensures KidsAvoid(t.objs[p], g) { assert KidsAvoid(s.objs[p], g); }
    forall p | p in g ensures !Marked(t, p) { assert !Marked(s, p); }
  }

  lemma {:induction false} ShadeMarksSealed(s: State, ms: seq<Ptr>, n: nat, g: set<Ref>)
    requires Sealed(s, g) && n <= |ms| && forall i :: 0 <= i < |ms| ==> PtrAvoids(ms[i], g)
    ensures Sealed(ShadeMarks(s, ms, n), g)
  {
    if n > 0 {
      ShadeMarksSealed(s, ms, n - 1, g);
      ShadeSealed(ShadeMarks(s, ms, n - 1), ms[n - 1], g);
    }
  }

  lemma {:induction false} ShadeKvsSealed(s: State, kvs: seq<Kv>, n: nat, g: set<Ref>)
    requires Sealed(s, g) && n <= |kvs| && forall i :: 0 <= i < |kvs| ==> KvAvoids(kvs[i], g)
    ensures Sealed(ShadeKvs(s, kvs, n), g)
  {
    if n > 0 {
      ShadeKvsSealed(s, kvs, n - 1, g);
      var t := ShadeKvs(s, kvs, n - 1);
      assert KvAvoids(kvs[n - 1], g);
      ShadeSealed(t, kvs[n - 1].ko, g);
      ShadeSealed(Shade(t, kvs[n - 1].ko), kvs[n - 1].vo, g);
    }
  }

  lemma ScanOneSealed(s: State, g: set<Ref>)
    requires Core(s) && s.on && s.scan < |s.cur| && Sealed(s, g)
    ensures Sealed(ScanOne(s), g)
  {
    var p := s.cur[s.scan];
    assert p in s.cur;
    assert Marked(s, p) && p !in g;
    assert KidsAvoid(s.objs[p], g);
    var t := s;
    if s.objs[p].Table? {
      ShadeKvsSealed(s, s.objs[p].kvs, |s.objs[p].kvs|, g);
      t := ShadeKvs(s, s.objs[p].kvs, |s.objs[p].kvs|);
    }
    var u := t.(scan := t.scan + 1);
    forall p | p in u.objs && p !in g ensures KidsAvoid(u.objs[p], g) { assert KidsAvoid(t.objs[p], g); }
    forall p | p in g ensures !Marked(u, p) { assert !Marked(t, p); }
  }

  lemma {:induction false} ScanUpToSealed(s: State, k: nat, g: set<Ref>)
    requires Core(s) && s.on && Sealed(s, g)
    ensures Sealed(ScanUpTo(s, k), g)
    decreases k
  {
    if k != 0 && s.scan < |s.cur| {
      ScanOneSealed(s, g);
      ScanOneKeeps(s);
      ScanUpToSealed(ScanOne(s), k - 1, g);
    }
  }

  /** A call of Mdogc inside the cycle keeps g sealed, or ends the cycle and frees all of g. */
  lemma GcSealed(s: State, amount: Amount, g: set<Ref>)
    requires Inv(s) && s.on && Sealed(s, g)
    ensures var t := Dogc(s, amount); if t.on then Sealed(t, g) else t.objs.Keys !! g
  {
    ScannedKeeps(s, amount);
    ScanUpToSealed(s, if amount.Full? then |s.objs| else amount.k, g);
    var u := Scanned(s, amount);
    if u.scan == |u.cur| {
      SweepKeeps(u);
      forall p | p in Sweep(u).objs ensures p !in g { assert Marked(u, p); }
    }
  }

  lemma BeginSealed(s: State)
    requires Inv(s) && !s.on
    ensures Sealed(Begin(s), Garbage(s))
  {
    var g, t := Garbage(s), Flip(s);
    BeginKeeps(s);
    forall i | 0 <= i < |t.marks| ensures PtrAvoids(t.marks[i], g) {
      if t.marks[i].At? { RootReachable(s, t.marks[i].p); }
    }
    forall p | p in t.objs && p !in g ensures KidsAvoid(t.objs[p], g) {
      var o := t.objs[p];
      if o.Table? {
        forall i | 0 <= i < |o.kvs| ensures KvAvoids(o.kvs[i], g) {
          if o.kvs[i].ko.At? { KidReachable(s, p, i, o.kvs[i].ko.p); }
          if o.kvs[i].vo.At? { KidReachable(s, p, i, o.kvs[i].vo.p); }
        }
      }
    }
    forall p | p in g ensures !Marked(t, p) { assert Marked(s, p); }
    ShadeMarksSealed(t, s.marks, |s.marks|, g);
  }

  lemma KidReachable(s: State, p: Ref, i: nat, q: Ref)
    requires p in s.objs && s.objs[p].Table? && i < |s.objs[p].kvs| && KvHas(s.objs[p].kvs[i], q)
    requires Reachable(s, p)
    ensures Reachable(s, q)
  {
    assert Edge(s, p, q);
    ReachStep(s, p, q);
  }

  /** An operation that leaves the cycle on keeps g sealed, if the mutator has no pointer into g. */
  lemma StepSealed(s: State, op: Op, g: set<Ref>)
    requires Inv(s) && Enabled(s, op) && s.on && Sealed(s, g) && Avoids(op, g) && Step(s, op).on
    ensures Sealed(Step(s, op), g)
  {
    match op
    case OpAlloc(p, o, r) => AllocSealed(s, p, o, r, g);
    case OpPush(x) => PushSealed(s, x, g);
    case OpPop(m) => PopSealed(s, m, g);
    case OpReset(m, x) =>
      var t := s.(marks := s.marks[m := x]);
      forall p | p in t.objs && p !in g ensures KidsAvoid(t.objs[p], g) { assert KidsAvoid(s.objs[p], g); }
      forall p | p in g ensures !Marked(t, p) { assert !Marked(s, p); }
      ShadeSealed(t, x, g);
    case OpInsert(t, key, vo, kvs) => InsertSealed(s, t, key, vo, kvs, g);
    case OpDelete(t, kvs) => StoreSealed(s, t, {}, kvs, g);
    case OpGc(amount) => GcSealed(s, amount, g);
  }

  lemma PushSealed(s: State, x: Ptr, g: set<Ref>)
    requires Sealed(s, g) && PtrAvoids(x, g) && s.on
    ensures Sealed(Push(s, x), g)
  {
    var t := s.(marks := s.marks + [x]);
    forall p | p in t.objs && p !in g ensures KidsAvoid(t.objs[p], g) { assert KidsAvoid(s.objs[p], g); }
    forall p | p in g ensures !Marked(t, p) { assert !Marked(s, p); }
    ShadeSealed(t, x, g);
  }

  lemma PopSealed(s: State, m: int, g: set<Ref>)
    requires Sealed(s, g)
    ensures Sealed(Pop(s, m), g)
  {
    var t := Pop(s, m);
    forall p | p in t.objs && p !in g ensures KidsAvoid(t.objs[p], g) { assert KidsAvoid(s.objs[p], g); }
    forall p | p in g ensures !Marked(t, p) { assert !Marked(s, p); }
  }

  lemma AllocSealed(s: State, p: Ref, o: Obj, r: Refill, g: set<Ref>)
    requires Inv(s) && s.on && Sealed(s, g) && (o == Scalar || o == Table([]))
    requires p !in Prepare(s, r).objs && Alloc(s, p, o, r).on
    ensures Sealed(Alloc(s, p, o, r), g)
  {
    match r {
      case Cell(k) => GcSealed(s, Steps(k), g);
      case Buffer(amount) => GcSealed(s, amount, g);
    }
    var t, u := Prepare(s, r), Alloc(s, p, o, r);
    forall q | q in u.objs && q !in g ensures KidsAvoid(u.objs[q], g) {
      if q != p { assert KidsAvoid(t.objs[q], g); }
    }
    forall q | q in g ensures !Marked(u, q) { assert !Marked(t, q); }
  }

  lemma StoreSealed(s: State, t: Ref, extra: set<Ptr>, kvs: seq<Kv>, g: set<Ref>)
    requires Sealed(s, g) && t in s.objs && t !in g && BuiltFrom(s.objs[t], extra, kvs)
    requires forall x :: x in extra ==> PtrAvoids(x, g)
    ensures Sealed(Store(s, t, kvs), g)
  {
    var u := Store(s, t, kvs);
    assert KidsAvoid(s.objs[t], g);
    forall i | 0 <= i < |kvs| ensures KvAvoids(kvs[i], g) {
      assert Allowed(s.objs[t], extra, kvs[i].ko) && Allowed(s.objs[t], extra, kvs[i].vo);
      EntryAvoids(s.objs[t], extra, kvs[i].ko, g);
      EntryAvoids(s.objs[t], extra, kvs[i].vo, g);
    }
    forall p | p in u.objs && p !in g ensures KidsAvoid(u.objs[p], g) {
      if p != t { assert KidsAvoid(s.objs[p], g); }
    }
    forall p | p in g ensures !Marked(u, p) { assert !Marked(s, p); }
  }

  lemma EntryAvoids(o: Obj, extra: set<Ptr>, x: Ptr, g: set<Ref>)
    requires KidsAvoid(o, g) && Allowed(o, extra, x) && forall y :: y in extra ==> PtrAvoids(y, g)
    ensures PtrAvoids(x, g)
  {
    if x != Null && x !in extra {
      var i :| 0 <= i < |o.kvs| && (o.kvs[i].ko == x || o.kvs[i].vo == x);
      assert KvAvoids(o.kvs[i], g);
    }
  }

  lemma GuardedSealed(s: State, t: Ref, key: Key, vo: Ptr, g: set<Ref>)
    requires s.on && Sealed(s, g) && t !in g && PtrAvoids(vo, g) && (key.Given? ==> PtrAvoids(key.ko, g))
    ensures Sealed(Guarded(s, t, key, vo), g) && Guarded(s, t, key, vo).on
  {
    PushSealed(s, At(t), g);
    var s1 := Push(s, At(t));
    if key.Given? { PushSealed(s1, key.ko, g); }
    var s2 := if key.Given? then Push(s1, key.ko) else s1;
    if vo.At? { PushSealed(s2, vo, g); }
  }

  lemma WithKeySealed(s: State, t: Ref, key: Key, vo: Ptr, g: set<Ref>)
    requires var h := Guarded(s, t, key, vo);
      Inv(h) && h.on && Sealed(h, g) && (key.Fresh? ==> key.p !in Prepare(h, key.refill).objs)
    requires key.Given? ==> PtrAvoids(key.ko, g)
    requires WithKey(s, t, key, vo).on
    ensures Sealed(WithKey(s, t, key, vo), g) && PtrAvoids(KeyPtr(key), g)
  {
    var h := Guarded(s, t, key, vo);
    if key.Fresh? {
      AllocSealed(h, key.p, Scalar, key.refill, g);
      FreshAvoids(h, key.p, key.refill, g);
    }
  }

  lemma StorePopSealed(w: State, t: Ref, extra: set<Ptr>, kvs: seq<Kv>, m: int, g: set<Ref>)
    requires Sealed(w, g) && t in w.objs && t !in g && BuiltFrom(w.objs[t], extra, kvs)
    requires forall x :: x in extra ==> PtrAvoids(x, g)
    ensures Sealed(Pop(Store(w, t, kvs), m), g)
  {
    StoreSealed(w, t, extra, kvs, g);
    PopSealed(Store(w, t, kvs), m, g);
  }

  lemma KeySealed(s: State, t: Ref, key: Key, vo: Ptr, kvs: seq<Kv>, g: set<Ref>)
    requires Inv(s) && s.on && Sealed(s, g) && Enabled(s, OpInsert(t, key, vo, kvs))
    requires t !in g && PtrAvoids(vo, g) && (key.Given? ==> PtrAvoids(key.ko, g))
    requires WithKey(s, t, key, vo).on
    ensures Sealed(WithKey(s, t, key, vo), g) && PtrAvoids(KeyPtr(key), g)
  {
    GuardedSealed(s, t, key, vo, g);
    GuardedKeeps(s, t, key, vo);
    WithKeySealed(s, t, key, vo, g);
  }

  lemma InsertSealed(s: State, t: Ref, key: Key, vo: Ptr, kvs: seq<Kv>, g: set<Ref>)
    requires Inv(s) && s.on && Sealed(s, g) && Enabled(s, OpInsert(t, key, vo, kvs))
    requires t !in g && PtrAvoids(vo, g) && (key.Given? ==> PtrAvoids(key.ko, g))
    requires WithKey(s, t, key, vo).on
    ensures Sealed(Pop(Store(WithKey(s, t, key, vo), t, kvs), |s.marks|), g)
  {
    KeySealed(s, t, key, vo, kvs, g);
    WithKeyKeeps(s, t, key, vo);
    StorePopSealed(WithKey(s, t, key, vo), t, {KeyPtr(key), vo}, kvs, |s.marks|, g);
  }

  lemma FreshAvoids(s: State, p: Ref, r: Refill, g: set<Ref>)
    requires Inv(s) && s.on && Sealed(s, g) && Prepare(s, r).on && p !in Prepare(s, r).objs
    ensures p !in g
  {
    match r {
      case Cell(k) => GcSealed(s, Steps(k), g);
      case Buffer(amount) => GcSealed(s, amount, g);
    }
  }

  // ---- whole cycles ----

  /** The cycle that is on in s is still on after every operation. */
  predicate StaysOn(s: State, ops: seq<Op>)
    decreases |ops|
  {
    s.on && (ops == [] || StaysOn(Step(s, ops[0]), ops[1..]))
  }

  lemma {:induction false} RunSealed(s: State, ops: seq<Op>, g: set<Ref>)
    requires Inv(s) && AllEnabled(s, ops) && StaysOn(s, ops) && Sealed(s, g)
    requires forall i :: 0 <= i < |ops| ==> Avoids(ops[i], g)
    ensures Inv(Run(s, ops)) && Run(s, ops).on && Sealed(Run(s, ops), g)
    decreases |ops|
  {
    if ops != [] {
      assert Avoids(ops[0], g);
      var t := Step(s, ops[0]);
      assert t.on by { assert StaysOn(t, ops[1..]); }
      StepSealed(s, ops[0], g);
      StepKeeps(s, ops[0]);
      RunSealed(t, ops[1..], g);
    }
  }

  /** Completeness: an object unreachable when a cycle starts is freed when that cycle ends,
      whatever the mutator (which has no pointer to it) does in between. */
  lemma GarbageFreed(s: State, first: Amount, ops: seq<Op>, last: Amount)
    requires Inv(s) && !s.on
    requires forall i :: 0 <= i < |ops| ==> Avoids(ops[i], Garbage(s))
    requires var t := Dogc(s, first);
      t.on ==> AllEnabled(t, ops) && StaysOn(t, ops) && !Dogc(Run(t, ops), last).on
    ensures var t := Dogc(s, first);
      (if t.on then Dogc(Run(t, ops), last) else t).objs.Keys !! Garbage(s)
  {
    var g := Garbage(s);
    BeginKeeps(s);
    BeginSealed(s);
    GcSealed(Begin(s), first, g);
    GcSafe(s, first);
    var t := Dogc(s, first);
    if t.on {
      RunSealed(t, ops, g);
      GcSealed(Run(t, ops), last, g);
    }
  }

  /** Two full collections in a row leave exactly the reachable objects, unchanged, whatever state
      (cycle on or off, garbage already marked or not) the first one found. */
  lemma TwoFullCollections(s: State)
    requires Inv(s)
    ensures var t := Dogc(Dogc(s, Full), Full);
      && Inv(t) && !t.on && t.marks == s.marks
      && (forall q :: q in t.objs <==> Reachable(s, q))
      && (forall q :: q in t.objs ==> q in s.objs && t.objs[q] == s.objs[q])
  {
    GcSafe(s, Full);
    var u := Dogc(s, Full);
    GcSafe(u, Full);
    GarbageFreed(u, Full, [], Full);
    var t := Dogc(u, Full);
    forall q | q in t.objs ensures Reachable(s, q) {
      assert q in u.objs && q !in Garbage(u);
      var n: nat :| ReachIn(u, q, n);
      FewerObjsReach(u, s, q, n);
    }
    forall q | Reachable(s, q) ensures q in t.objs {
      var n: nat :| ReachIn(s, q, n);
      StillReach(s, u, q, n);
    }
  }

  lemma {:induction false} FewerObjsReach(s: State, t: State, q: Ref, n: nat)
    requires t.marks == s.marks && ReachIn(s, q, n)
    requires forall p :: p in s.objs ==> p in t.objs && t.objs[p] == s.objs[p]
    ensures ReachIn(t, q, n)
    decreases n
  {
    if n > 0 {
      var p :| ReachIn(s, p, n - 1) && Edge(s, p, q);
      FewerObjsReach(s, t, p, n - 1);
      assert Edge(t, p, q);
    }
  }

  lemma {:induction false} StillReach(s: State, t: State, q: Ref, n: nat)
    requires t.marks == s.marks && ReachIn(s, q, n)
    requires forall p :: Reachable(s, p) ==> p in t.objs
    requires forall p :: p in t.objs ==> p in s.objs && t.objs[p] == s.objs[p]
    ensures ReachIn(t, q, n)
    decreases n
  {
    if n > 0 {
      var p :| ReachIn(s, p, n - 1) && Edge(s, p, q);
      StillReach(s, t, p, n - 1);
      assert Reachable(s, p);
      assert Edge(t, p, q);
    }
  }

  // ---- progress ----

  /** The live objects the cycle has not scanned yet. */
  function Left(s: State): int {
    |s.objs| - s.scan
  }

  function Allocates(op: Op): nat {
    if op.OpAlloc? || (op.OpInsert? && op.key.Fresh?) then 1 else 0
  }

  function CountAllocs(ops: seq<Op>): nat {
    if ops == [] then 0 else Allocates(ops[0]) + CountAllocs(ops[1..])
  }

  predicate RefillSteps(r: Refill, k: nat) {
    match r case Cell(n) => n >= k case Buffer(Steps(n)) => n >= k case Buffer(Full) => true
  }

  /** Every collection step an allocation makes scans at least k objects, if there are as many. */
  predicate AtLeast(op: Op, k: nat) {
    match op
    case OpAlloc(_, _, r) => RefillSteps(r, k)
    case OpInsert(_, Fresh(_, r), _, _) => RefillSteps(r, k)
    case _ => true
  }

  lemma PrepareLeft(s: State, r: Refill, k: nat)
    requires Inv(s) && s.on && RefillSteps(r, k) && Prepare(s, r).on
    ensures Left(Prepare(s, r)) <= Left(s) - k
  {
    var amount := match r case Cell(n) => Steps(n) case Buffer(a) => a;
    ScannedKeeps(s, amount);
    ScanUpToKeeps(s, if amount.Full? then |s.objs| else amount.k);
  }

  lemma StorePopLeft(w: State, t: Ref, kvs: seq<Kv>, m: int)
    requires t in w.objs
    ensures Left(Pop(Store(w, t, kvs), m)) == Left(w)
  {
    SameSize(Store(w, t, kvs).objs, w.objs);
  }

  lemma WithKeyLeft(s: State, t: Ref, key: Key, vo: Ptr, k: nat)
    requires Inv(Guarded(s, t, key, vo)) && s.on && Guarded(s, t, key, vo).objs == s.objs
    requires key.Fresh? ==> RefillSteps(key.refill, k)
    requires key.Fresh? ==> key.p !in Prepare(Guarded(s, t, key, vo), key.refill).objs
    requires WithKey(s, t, key, vo).on
    ensures Left(WithKey(s, t, key, vo)) <= Left(s) - (if key.Fresh? then k - 1 else 0)
  {
    hide Core, RootsMarked;
    if key.Fresh? { PrepareLeft(Guarded(s, t, key, vo), key.refill, k); }
  }

  lemma InsertLeft(s: State, t: Ref, key: Key, vo: Ptr, kvs: seq<Kv>, k: nat)
    requires Inv(s) && s.on && Enabled(s, OpInsert(t, key, vo, kvs))
    requires AtLeast(OpInsert(t, key, vo, kvs), k) && WithKey(s, t, key, vo).on
    ensures Left(Pop(Store(WithKey(s, t, key, vo), t, kvs), |s.marks|))
      <= Left(s) - (if key.Fresh? then k - 1 else 0)
  {
    GuardedKeeps(s, t, key, vo);
    WithKeyKeeps(s, t, key, vo);
    WithKeyLeft(s, t, key, vo, k);
    StorePopLeft(WithKey(s, t, key, vo), t, kvs, |s.marks|);
  }

  lemma StepLeft(s: State, op: Op, k: nat)
    requires Inv(s) && Enabled(s, op) && s.on && Step(s, op).on && AtLeast(op, k)
    ensures Left(Step(s, op)) <= Left(s) - (if Allocates(op) == 1 then k - 1 else 0)
  {
    match op {
      case OpAlloc(p, o, r) => PrepareLeft(s, r, k);
      case OpInsert(t, key, vo, kvs) => InsertLeft(s, t, key, vo, kvs, k);
      case OpDelete(t, kvs) => SameSize(Store(s, t, kvs).objs, s.objs);
      case OpGc(amount) =>
        ScannedKeeps(s, amount);
        ScanUpToKeeps(s, if amount.Full? then |s.objs| else amount.k);
      case OpPush(_) =>
      case OpPop(_) =>
      case OpReset(_, _) =>
    }
  }

  lemma SameSize(a: map<Ref, Obj>, b: map<Ref, Obj>)
    requires a.Keys == b.Keys
    ensures |a| == |b|
  {
    assert |a| == |a.Keys| && |b| == |b.Keys|;
  }

  /** A cycle ends although the mutator keeps adding objects: while it is on, each allocation
      brings its end nearer by the steps it makes less the one object it adds. */
  lemma {:induction false} CycleBound(s: State, ops: seq<Op>, k: nat)
    requires Inv(s) && AllEnabled(s, ops) && StaysOn(s, ops)
    requires k >= 1 && forall i :: 0 <= i < |ops| ==> AtLeast(ops[i], k)
    ensures CountAllocs(ops) * (k - 1) <= Left(s)
    decreases |ops|
  {
    hide Core, RootsMarked, Enabled, Step;
    if ops == [] {
      QueueFits(s);
    } else {
      assert AtLeast(ops[0], k);
      var t := Step(s, ops[0]);
      StepKeeps(s, ops[0]);
      StepLeft(s, ops[0], k);
      CycleBound(t, ops[1..], k);
      OneMore(CountAllocs(ops[1..]), k - 1);
    }
  }

  lemma OneMore(n: int, c: int)
    ensures (1 + n) * c == c + n * c
  {
  }
}
