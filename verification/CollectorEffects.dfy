/** What each operation of cmd/lefty/mem.c leaves on the mark stack, in the objects and in the scan, said
    without the functions of `Collector`; and what a mark therefore holds. */
module CollectorEffects {
  import opened Collector
  import opened CollectorRuns
  import opened CollectorGarbage
  import opened CollectorExact

  /** The mark stack: one more mark, fewer marks, a mark with another object, or as it was. */
  lemma StepMarks(s: State, op: Op)
    requires Inv(s) && Enabled(s, op)
    ensures Step(s, op).marks == match op
      case OpPush(x) => s.marks + [x]
      case OpPop(h) => if 0 <= h < |s.marks| then s.marks[..h] else s.marks
      case OpReset(m, x) => s.marks[m := x]
      case _ => s.marks
  {
    hide Core, BuiltFrom, Prepare, Dogc;
    match op
    case OpAlloc(p, o, r) => PrepareKeeps(s, r);
    case OpPush(x) =>
    case OpPop(h) =>
    case OpReset(m, x) =>
    case OpInsert(t, key, vo, kvs) =>
      WithKeyKeeps(s, t, key, vo);
      GuardedLonger(s, t, key, vo);
    case OpDelete(t, kvs) =>
    case OpGc(amount) => GcSafe(s, amount);
  }

  lemma GuardedLonger(s: State, t: Ref, key: Key, vo: Ptr)
    requires Inv(s) && t in s.objs && Live(s, vo) && (key.Given? ==> Live(s, key.ko))
    requires key.Fresh? ==> key.p !in Prepare(Guarded(s, t, key, vo), key.refill).objs
    ensures |WithKey(s, t, key, vo).marks| > |s.marks|
  {
    hide Core, Prepare;
    GuardedKeeps(s, t, key, vo);
    var g := Guarded(s, t, key, vo);
    assert |g.marks| > |s.marks| by { hide *; GuardedSize(s, t, key, vo); }
    if key.Fresh? { PrepareKeeps(g, key.refill); }
  }

  lemma GuardedSize(s: State, t: Ref, key: Key, vo: Ptr)
    ensures |Guarded(s, t, key, vo).marks| > |s.marks|
  {
    hide Core, Marked;
  }

  /** The table of an update holds the new entries, and a new object is what was asked for. */
  lemma StepStores(s: State, op: Op)
    requires Inv(s) && Enabled(s, op)
    ensures var u := Step(s, op);
      match op
      case OpAlloc(p, o, _) => p in u.objs && u.objs[p] == o && !Reachable(s, p)
      case OpInsert(t, key, _, kvs) => t in u.objs && u.objs[t] == Table(kvs)
      case OpDelete(t, kvs) => u.objs == s.objs[t := Table(kvs)]
      case OpGc(_) => u.objs.Keys <= s.objs.Keys
      case _ => u.objs == s.objs
  {
    hide Core, BuiltFrom, Prepare, Dogc, WithKey;
    match op
    case OpAlloc(p, o, r) => PrepareKeeps(s, r);
    case OpPush(x) => PushKeeps(s, x);
    case OpPop(h) =>
    case OpReset(m, x) =>
    case OpInsert(t, key, vo, kvs) =>
    case OpDelete(t, kvs) =>
    case OpGc(amount) => GcSafe(s, amount);
  }

  /** When an allocation collects: always if a buffer has to be carved, and else only while a cycle is on.
      A full collection between cycles leaves exactly the reachable objects and the new one. */
  lemma AllocCollects(s: State, p: Ref, o: Obj, r: Refill)
    requires Inv(s) && Enabled(s, OpAlloc(p, o, r)) && !s.on
    ensures var u := Step(s, OpAlloc(p, o, r));
      && (r.Cell? ==> u.objs == s.objs[p := o] && !u.on)
      && (r == Buffer(Full) ==> !u.on && forall q :: q in u.objs <==> Reachable(s, q) || q == p)
      && (r.Buffer? && r.amount.Steps? ==> u.on || forall q :: q in u.objs <==> Reachable(s, q) || q == p)
  {
    hide Core, Dogc, Reachable;
    match r
    case Cell(k) =>
    case Buffer(amount) =>
      GcSafe(s, amount);
      var t := Dogc(s, amount);
      if !t.on {
        BetweenCycles(s, amount);
      }
  }

  lemma BetweenCycles(s: State, amount: Amount)
    requires Inv(s) && !s.on && !Dogc(s, amount).on
    ensures forall q :: q in Dogc(s, amount).objs <==> Reachable(s, q)
  {
    hide Core, Dogc, Reachable;
    GcSafe(s, amount);
    GarbageFreed(s, amount, [], amount);
    var t := Dogc(s, amount);
    forall q | q in t.objs ensures Reachable(s, q) { assert q in s.objs && q !in Garbage(s); }
  }

  /** How far one call of Mdogc scans: a full one ends the cycle, and an incremental one that does not has
      scanned just k objects more. */
  lemma CollectExtent(s: State, amount: Amount)
    requires Inv(s)
    ensures var t := Dogc(s, amount);
      && (amount.Full? ==> !t.on)
      && (t.on ==> amount.Steps? && t.scan == (if s.on then s.scan else 0) + amount.k && t.scan < |t.cur|)
      && (!t.on ==> t.scan == |t.cur|)
  {
    hide Core, RootsMarked;
    ScannedKeeps(s, amount);
    BeginKeeps(s);
    var b := if s.on then s else Begin(s);
    assert Core(b) && b.on && b.scan <= |b.cur| by { CoreScan(b); }
    ScanUpToKeeps(b, if amount.Full? then |b.objs| else amount.k);
  }

  lemma CoreScan(s: State)
    requires Inv(s)
    ensures Core(s) && (s.on ==> s.scan <= |s.cur|)
  {
  }

  // ---- what a mark holds ----

  /** No operation updates p. */
  predicate Untouched(ops: seq<Op>, p: Ref) {
    forall i :: 0 <= i < |ops| ==> !Updates(ops[i], p)
  }

  /** While mark m is left alone, the object it holds stays allocated and reachable, and as it is. */
  lemma {:induction false} MarkHolds(s: State, ops: seq<Op>, m: nat, p: Ref)
    requires Inv(s) && m < |s.marks| && s.marks[m] == At(p) && AllEnabled(s, ops) && Spares(s, ops, {m})
    ensures var u := Run(s, ops);
      && m < |u.marks| && u.marks[m] == At(p) && Reachable(u, p) && p in u.objs && p in s.objs
      && (Untouched(ops, p) ==> u.objs[p] == s.objs[p])
    decreases |ops|
  {
    hide Inv, Enabled, Step, Reachable;
    RootReachable(s, p);
    if ops == [] {
      RunKeeps(s, ops);
    } else {
      var t := Step(s, ops[0]);
      StepKeeps(s, ops[0]);
      assert m in {m} && SameMarks(s, t, {m});
      MarkHolds(t, ops[1..], m, p);
      if Untouched(ops, p) {
        forall i | 0 <= i < |ops[1..]| ensures !Updates(ops[1..][i], p) { assert ops[1..][i] == ops[i + 1]; }
        assert Untouched(ops[1..], p) && !Updates(ops[0], p);
      }
    }
  }

  /** An object that the program puts in mark m is reachable at once, and in use until the mark is given
      up, whatever else the program and the collector do. */
  lemma ResetHolds(s: State, m: nat, p: Ref, ops: seq<Op>)
    requires Inv(s) && Enabled(s, OpReset(m, At(p)))
    ensures var t := Step(s, OpReset(m, At(p)));
      && Reachable(t, p) && p in t.objs
      && (AllEnabled(t, ops) && Spares(t, ops, {m}) ==>
        var u := Run(t, ops);
        Reachable(u, p) && p in u.objs && (Untouched(ops, p) ==> u.objs[p] == s.objs[p]))
  {
    StepMarks(s, OpReset(m, At(p)));
    StepStores(s, OpReset(m, At(p)));
    StepKeeps(s, OpReset(m, At(p)));
    assert m < |s.marks| && p in s.objs;
    hide Inv, Enabled, Step, Reachable, Run, AllEnabled, Spares;
    var t := Step(s, OpReset(m, At(p)));
    RootReachable(t, p) by { assert t.marks[m] == At(p); }
    if AllEnabled(t, ops) && Spares(t, ops, {m}) { MarkHolds(t, ops, m, p); }
  }

  /** The same for an object that the program pushes. */
  lemma PushHolds(s: State, p: Ref, ops: seq<Op>)
    requires Inv(s) && Enabled(s, OpPush(At(p)))
    ensures var t := Step(s, OpPush(At(p)));
      && Reachable(t, p) && p in t.objs
      && (AllEnabled(t, ops) && Spares(t, ops, {|s.marks|}) ==>
        var u := Run(t, ops);
        Reachable(u, p) && p in u.objs && (Untouched(ops, p) ==> u.objs[p] == s.objs[p]))
  {
    StepMarks(s, OpPush(At(p)));
    StepStores(s, OpPush(At(p)));
    StepKeeps(s, OpPush(At(p)));
    assert p in s.objs;
    hide Inv, Enabled, Step, Reachable, Run, AllEnabled, Spares;
    var t := Step(s, OpPush(At(p)));
    RootReachable(t, p) by { assert t.marks[|s.marks|] == At(p); }
    if AllEnabled(t, ops) && Spares(t, ops, {|s.marks|}) { MarkHolds(t, ops, |s.marks|, p); }
  }

  /** A mark that is overwritten or popped holds nothing any more: after two full collections just what the
      other marks reach is left. */
  lemma ReleasedFreed(s: State, op: Op, marks: seq<Ptr>)
    requires Inv(s) && Enabled(s, op)
    requires match op
      case OpPop(h) => marks == if 0 <= h < |s.marks| then s.marks[..h] else s.marks
      case OpReset(m, x) => marks == s.marks[m := x]
      case _ => false
    ensures var u := Run(s, [op, OpGc(Full), OpGc(Full)]);
      forall q :: q in u.objs <==> Reachable(s.(marks := marks), q)
  {
    StepMarks(s, op);
    StepStores(s, op);
    StepKeeps(s, op);
    var t := Step(s, op);
    TwoFullCollections(t);
    hide Inv, Enabled, Step, Dogc;
    var ops := [op, OpGc(Full), OpGc(Full)];
    assert ops[1..] == [OpGc(Full), OpGc(Full)] && ops[1..][1..] == [OpGc(Full)] && ops[1..][1..][1..] == [];
    CollectTwice(t, {});
    var s1 := s.(marks := marks);
    forall q ensures Reachable(t, q) <==> Reachable(s1, q) {
      if n: nat :| ReachIn(t, q, n) { SameReach(t, s1, q, n); }
      if n: nat :| ReachIn(s1, q, n) { SameReach(s1, t, q, n); }
    }
  }
}
