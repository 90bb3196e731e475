/** A run of the collector of cmd/lefty/mem.c in which a deep copy, made while a collection is going on, is
    left in a state from which an object that is in use can be freed.

    The marks are those of Tinit and Einit and of Tcopy, and every scan takes the four steps that gcsteps
    starts with.  The table f of the root holds two tables and, behind them, a string of its own. */
module CollectorLoss {
  import opened Collector
  import opened CollectorRuns
  import opened CollectorExact
  import opened CollectorCopy
  import opened CollectorShallow

  // ---- runs with the stores of reccopytable ----

  datatype CopyOp = Does(op: Op) | Bare(t: Ref, kv: Kv)

  ghost predicate CopyEnabled(s: State, op: CopyOp) {
    match op
    case Does(o) => Enabled(s, o)
    case Bare(t, kv) => IsTable(s, t) && KvLive(s, kv)
  }

  function CopyStep(s: State, op: CopyOp): State {
    match op
    case Does(o) => Step(s, o)
    case Bare(t, kv) => if IsTable(s, t) then Append(s, t, kv) else s
  }

  function CopyRun(s: State, ops: seq<CopyOp>): State
    decreases |ops|
  {
    if ops == [] then s else CopyRun(CopyStep(s, ops[0]), ops[1..])
  }

  ghost predicate AllCopyEnabled(s: State, ops: seq<CopyOp>)
    decreases |ops|
  {
    ops == [] || (CopyEnabled(s, ops[0]) && AllCopyEnabled(CopyStep(s, ops[0]), ops[1..]))
  }

  ghost predicate Leads(s: State, op: CopyOp, t: State) {
    CopyEnabled(s, op) && CopyStep(s, op) == t
  }

  ghost predicate IsTrace(ss: seq<State>, ops: seq<CopyOp>) {
    |ss| == |ops| + 1 && forall i :: 0 <= i < |ops| ==> Leads(ss[i], ops[i], ss[i + 1])
  }

  lemma {:induction false} TraceRuns(ss: seq<State>, ops: seq<CopyOp>)
    requires IsTrace(ss, ops)
    ensures AllCopyEnabled(ss[0], ops) && CopyRun(ss[0], ops) == ss[|ops|]
    decreases |ops|
  {
    if ops != [] {
      assert Leads(ss[0], ops[0], ss[0 + 1]);
      TraceRuns(ss[1..], ops[1..]);
    }
  }

  /** The invariant is kept along a trace whose unshaded stores do no harm. */
  lemma {:induction false} TraceInv(ss: seq<State>, ops: seq<CopyOp>, n: nat)
    requires IsTrace(ss, ops) && Inv(ss[0]) && n <= |ops|
    requires forall i :: 0 <= i < n && ops[i].Bare? && WasScanned(ss[i], ops[i].t) ==> KvMarked(ss[i], ops[i].kv)
    ensures Inv(ss[n])
  {
    if n > 0 {
      TraceInv(ss, ops, n - 1);
      assert Leads(ss[n - 1], ops[n - 1], ss[n - 1 + 1]);
      match ops[n - 1]
      case Does(o) => StepKeeps(ss[n - 1], o);
      case Bare(t, kv) => AppendKeeps(ss[n - 1], t, kv);
    }
  }

  lemma {:induction false} Compose(s: State, a: seq<CopyOp>, b: seq<CopyOp>)
    ensures CopyRun(s, a + b) == CopyRun(CopyRun(s, a), b)
    ensures AllCopyEnabled(s, a + b) <==> AllCopyEnabled(s, a) && AllCopyEnabled(CopyRun(s, a), b)
    decreases |a|
  {
    if a == [] {
      assert a + b == b;
    } else {
      assert (a + b)[0] == a[0] && (a + b)[1..] == a[1..] + b;
      Compose(CopyStep(s, a[0]), a[1..], b);
    }
  }

  // ---- the objects ----

  const EMPTY := Table([])

  // 0 and 1 are Ttrue and Tfalse.  The root table 2 holds table 3 under "null" (4), as Einit makes it, and table
  // 5 under the string 6.  Table 5 holds the tables 7 and 8 under the same two strings, and the string 9
  // under itself.

  const R0 := Table([Kv(At(4), At(3)), Kv(At(6), At(5))])
  const F0 := Table([Kv(At(4), At(7)), Kv(At(6), At(8)), Kv(At(9), At(9))])

  const ROOT: seq<CopyOp> := [
    Does(OpAlloc(0, Scalar, Cell(4))), Does(OpPush(At(0))), Does(OpAlloc(1, Scalar, Cell(4))), Does(OpPush(At(1))),
    Does(OpAlloc(2, EMPTY, Cell(4))), Does(OpPush(At(2))), Does(OpAlloc(3, EMPTY, Cell(4))),
    Does(OpInsert(2, Fresh(4, Cell(4)), At(3), [Kv(At(4), At(3))]))]

  const ROOTED := State(
    map[0 := Scalar, 1 := Scalar, 2 := Table([Kv(At(4), At(3))]), 3 := EMPTY, 4 := Scalar],
    map[0 := 1, 1 := 1, 2 := 1, 3 := 1, 4 := 1], [At(0), At(1), At(2)], [0, 1, 2, 3, 4], 0, [], 1, 2, false)

  /** The objects are numbered below n, none is marked but those in the queue, and no cycle is on. */
  ghost predicate Rest(s: State, n: nat, ms: seq<Ptr>, cur: seq<Ref>) {
    && !s.on && s.a0 == 1 && s.a1 == 2 && s.marks == ms && s.cur == cur && s.scan == 0 && s.prev == []
    && (forall p: Ref :: p in s.objs <==> p < n)
    && (forall p: Ref :: p in s.area <==> p < n) && (forall p: Ref :: p < n ==> s.area[p] == 1)
  }

  lemma RootedIs()
    ensures Rest(ROOTED, 5, [At(0), At(1), At(2)], [0, 1, 2, 3, 4])
    ensures ROOTED.objs[2] == Table([Kv(At(4), At(3))]) && ROOTED.objs[3] == EMPTY
    ensures ROOTED.objs[0] == ROOTED.objs[1] == ROOTED.objs[4] == Scalar
  {
    forall p: Ref ensures p in ROOTED.objs <==> p < 5 {}
  }

  const NESTED: seq<CopyOp> := [
    Does(OpAlloc(5, EMPTY, Cell(4))), Does(OpInsert(2, Fresh(6, Cell(4)), At(5), R0.kvs)),
    Does(OpAlloc(7, EMPTY, Cell(4))), Does(OpInsert(5, Given(At(4)), At(7), [Kv(At(4), At(7))]))]

  const HALF := State(
    ROOTED.objs[2 := R0][5 := Table([Kv(At(4), At(7))])][6 := Scalar][7 := EMPTY],
    ROOTED.area[5 := 1][6 := 1][7 := 1], ROOTED.marks, [0, 1, 2, 3, 4, 5, 6, 7], 0, [], 1, 2, false)

  lemma HalfIs()
    ensures Rest(HALF, 8, [At(0), At(1), At(2)], [0, 1, 2, 3, 4, 5, 6, 7])
    ensures HALF.objs[2] == R0 && HALF.objs[3] == HALF.objs[7] == EMPTY && HALF.objs[5] == Table([Kv(At(4), At(7))])
    ensures HALF.objs[0] == HALF.objs[1] == HALF.objs[4] == HALF.objs[6] == Scalar
  {
    RootedIs();
    hide ROOTED;
  }

  const FILLED: seq<CopyOp> := [
    Does(OpAlloc(8, EMPTY, Cell(4))), Does(OpInsert(5, Given(At(6)), At(8), F0.kvs[..2])),
    Does(OpAlloc(9, Scalar, Cell(4))), Does(OpInsert(5, Given(At(9)), At(9), F0.kvs))]

  const BUILT := State(
    HALF.objs[5 := F0][8 := EMPTY][9 := Scalar], HALF.area[8 := 1][9 := 1], HALF.marks,
    [0, 1, 2, 3, 4, 5, 6, 7, 8, 9], 0, [], 1, 2, false)

  lemma BuiltIs()
    ensures Rest(BUILT, 10, [At(0), At(1), At(2)], [0, 1, 2, 3, 4, 5, 6, 7, 8, 9])
    ensures BUILT.objs[2] == R0 && BUILT.objs[3] == BUILT.objs[7] == BUILT.objs[8] == EMPTY && BUILT.objs[5] == F0
    ensures BUILT.objs[0] == BUILT.objs[1] == BUILT.objs[4] == BUILT.objs[6] == BUILT.objs[9] == Scalar
  {
    HalfIs();
    hide HALF;
  }

  // Tcopy of the root: 10 to 14 are the copies of 2, 3, 5, 7 and 8.  Up to the copy of 5 there are free cells.

  const COPY: seq<CopyOp> := [
    Does(OpPush(At(2))), Does(OpAlloc(10, EMPTY, Cell(4))), Does(OpPush(At(10))),
    Does(OpAlloc(11, EMPTY, Cell(4))), Does(OpPush(At(11))), Does(OpPop(5)), Bare(10, Kv(At(4), At(11))),
    Does(OpAlloc(12, EMPTY, Cell(4))), Does(OpPush(At(12)))]

  const READY := State(
    BUILT.objs[10 := Table([Kv(At(4), At(11))])][11 := EMPTY][12 := EMPTY], BUILT.area[10 := 1][11 := 1][12 := 1],
    [At(0), At(1), At(2), At(2), At(10), At(12)], [0, 1, 2, 3, 4, 5, 6, 7, 8, 9, 10, 11, 12], 0, [], 1, 2, false)

  lemma ReadyIs()
    ensures Rest(READY, 13, [At(0), At(1), At(2), At(2), At(10), At(12)],
      [0, 1, 2, 3, 4, 5, 6, 7, 8, 9, 10, 11, 12])
    ensures READY.objs[2] == R0 && READY.objs[5] == F0 && READY.objs[10] == Table([Kv(At(4), At(11))])
    ensures READY.objs[3] == READY.objs[7] == READY.objs[8] == READY.objs[11] == READY.objs[12] == EMPTY
    ensures READY.objs[0] == READY.objs[1] == READY.objs[4] == READY.objs[6] == READY.objs[9] == Scalar
  {
    BuiltIs();
    hide BUILT;
  }

  // For the copy of 7 a buffer has to be carved, so a cycle starts: 0, 1, 2 and 10 are scanned.

  const FIRST: seq<CopyOp> := [
    Does(OpAlloc(13, EMPTY, Buffer(Steps(4)))), Does(OpPush(At(13))), Does(OpPop(6)), Bare(12, Kv(At(4), At(13)))]

  /** One more object in the queue. */
  function Queue(s: State, p: Ref): State {
    s.(cur := s.cur + [p], area := s.area[p := s.a0])
  }

  const QUEUED := Queue(Queue(Queue(Queue(Queue(Flip(READY), 0), 1), 2), 10), 12)
  const ROOTSCANNED := Queue(Queue(Queue(Queue(QUEUED.(scan := 2), 4), 3), 6), 5).(scan := 3)
  const SCANNED1 := Queue(ROOTSCANNED, 11).(scan := 4)

  const BORN1 := Place(SCANNED1, 13, EMPTY)
  const STORED1 := BORN1.(objs := BORN1.objs[12 := Table([Kv(At(4), At(13))])])

  // For the copy of 8 there is a cell: 12, 4, 3 and 6 are scanned, and table 5 is next.

  const SECOND: seq<CopyOp> := [
    Does(OpAlloc(14, EMPTY, Cell(4))), Does(OpPush(At(14))), Does(OpPop(6)), Bare(12, Kv(At(6), At(14)))]

  const SCANNED2 := STORED1.(scan := 8)
  const BORN2 := Place(SCANNED2, 14, EMPTY)
  const STORED2 := BORN2.(objs := BORN2.objs[12 := Table([Kv(At(4), At(13)), Kv(At(6), At(14))])])

  // The string 9 is stored in the copy 12, and the copy is finished.

  const LAST: seq<CopyOp> := [
    Bare(12, Kv(At(9), At(9))), Does(OpPop(5)), Bare(10, Kv(At(6), At(12))), Does(OpPop(4)), Does(OpPop(3))]

  // ---- the legs of the run ----

  /** An insertion while the collector is off: the marks it sets are taken off again. */
  lemma InsertOff(s: State, t: Ref, ko: Ptr, vo: Ptr, kvs: seq<Kv>)
    requires !s.on && vo.At? && |s.marks| > 0 && IsTable(s, t) && Live(s, vo) && Live(s, ko)
    requires BuiltFrom(s.objs[t], {ko, vo}, kvs)
    ensures Leads(s, Does(OpInsert(t, Given(ko), vo, kvs)), Store(s, t, kvs))
  {
    var w := WithKey(s, t, Given(ko), vo);
    assert w == s.(marks := s.marks + [At(t)] + [ko] + [vo]);
    assert w.marks[..|s.marks|] == s.marks;
  }

  /** The same with a key that the insertion makes. */
  lemma InsertFreshOff(s: State, t: Ref, p: Ref, vo: Ptr, kvs: seq<Kv>)
    requires !s.on && vo.At? && |s.marks| > 0 && IsTable(s, t) && Live(s, vo) && p !in s.objs
    requires BuiltFrom(s.objs[t], {At(p), vo}, kvs)
    ensures Leads(s, Does(OpInsert(t, Fresh(p, Cell(4)), vo, kvs)), Store(Place(s, p, Scalar), t, kvs))
  {
    var g := Guarded(s, t, Fresh(p, Cell(4)), vo);
    assert g == s.(marks := s.marks + [At(t)] + [vo]);
    var w := WithKey(s, t, Fresh(p, Cell(4)), vo);
    assert w == Place(g, p, Scalar);
    assert w.marks[..|s.marks|] == s.marks;
  }

  lemma AllocOff(s: State, p: Ref, o: Obj)
    requires !s.on && p !in s.objs && (o == Scalar || o == EMPTY)
    ensures Leads(s, Does(OpAlloc(p, o, Cell(4))), Place(s, p, o))
  {
  }

  lemma PushLeads(s: State, x: Ptr)
    requires Live(s, x) && MarkedPtr(s, x)
    ensures Leads(s, Does(OpPush(x)), s.(marks := s.marks + [x]))
  {
  }

  lemma BareLeads(s: State, t: Ref, kv: Kv)
    requires IsTable(s, t) && KvLive(s, kv)
    ensures Leads(s, Bare(t, kv), Append(s, t, kv))
  {
  }

  lemma PopLeads(s: State, m: int)
    ensures Leads(s, Does(OpPop(m)), Pop(s, m))
  {
  }

  lemma NewEntry(kvs: seq<Kv>, ko: Ptr, vo: Ptr)
    ensures BuiltFrom(Table(kvs), {ko, vo}, kvs + [Kv(ko, vo)])
  {
    var es := kvs + [Kv(ko, vo)];
    forall i | 0 <= i < |es|
      ensures Allowed(Table(kvs), {ko, vo}, es[i].ko) && Allowed(Table(kvs), {ko, vo}, es[i].vo)
    {
      if i < |kvs| { assert es[i] == kvs[i]; }
    }
  }

  lemma RootRuns()
    ensures AllCopyEnabled(INITIAL, ROOT) && CopyRun(INITIAL, ROOT) == ROOTED
  {
    hide Leads, AllCopyEnabled, CopyRun, BuiltFrom;
    var s1 := Place(INITIAL, 0, Scalar);
    AllocOff(INITIAL, 0, Scalar);
    var s2 := s1.(marks := [At(0)]);
    PushLeads(s1, At(0));
    var s3 := Place(s2, 1, Scalar);
    AllocOff(s2, 1, Scalar);
    var s4 := s3.(marks := [At(0), At(1)]);
    PushLeads(s3, At(1));
    var s5 := Place(s4, 2, EMPTY);
    AllocOff(s4, 2, EMPTY);
    var s6 := s5.(marks := [At(0), At(1), At(2)]);
    PushLeads(s5, At(2));
    var s7 := Place(s6, 3, EMPTY);
    AllocOff(s6, 3, EMPTY);
    NewEntry([], At(4), At(3));
    assert [] + [Kv(At(4), At(3))] == [Kv(At(4), At(3))];
    InsertFreshOff(s7, 2, 4, At(3), [Kv(At(4), At(3))]);
    assert Store(Place(s7, 4, Scalar), 2, [Kv(At(4), At(3))]) == ROOTED;
    assert s1.marks + [At(0)] == s2.marks && s3.marks + [At(1)] == s4.marks && s5.marks + [At(2)] == s6.marks;
    var ss := [INITIAL, s1, s2, s3, s4, s5, s6, s7, ROOTED];
    assert IsTrace(ss, ROOT);
    TraceRuns(ss, ROOT);
  }

  lemma NestedRuns()
    ensures AllCopyEnabled(ROOTED, NESTED) && CopyRun(ROOTED, NESTED) == HALF
  {
    RootedIs();
    hide Leads, AllCopyEnabled, CopyRun, BuiltFrom, ROOTED;
    var s1 := Place(ROOTED, 5, EMPTY);
    AllocOff(ROOTED, 5, EMPTY);
    NewEntry([Kv(At(4), At(3))], At(6), At(5));
    assert [Kv(At(4), At(3))] + [Kv(At(6), At(5))] == R0.kvs;
    InsertFreshOff(s1, 2, 6, At(5), R0.kvs);
    var s2 := Store(Place(s1, 6, Scalar), 2, R0.kvs);
    var s3 := Place(s2, 7, EMPTY);
    AllocOff(s2, 7, EMPTY);
    NewEntry([], At(4), At(7));
    assert [] + [Kv(At(4), At(7))] == [Kv(At(4), At(7))];
    InsertOff(s3, 5, At(4), At(7), [Kv(At(4), At(7))]);
    assert Store(s3, 5, [Kv(At(4), At(7))]) == HALF;
    var ss := [ROOTED, s1, s2, s3, HALF];
    assert IsTrace(ss, NESTED);
    TraceRuns(ss, NESTED);
  }

  lemma FilledRuns()
    ensures AllCopyEnabled(HALF, FILLED) && CopyRun(HALF, FILLED) == BUILT
  {
    HalfIs();
    hide Leads, AllCopyEnabled, CopyRun, BuiltFrom, HALF;
    var s1 := Place(HALF, 8, EMPTY);
    AllocOff(HALF, 8, EMPTY);
    NewEntry([Kv(At(4), At(7))], At(6), At(8));
    assert [Kv(At(4), At(7))] + [Kv(At(6), At(8))] == F0.kvs[..2];
    InsertOff(s1, 5, At(6), At(8), F0.kvs[..2]);
    var s2 := Store(s1, 5, F0.kvs[..2]);
    var s3 := Place(s2, 9, Scalar);
    AllocOff(s2, 9, Scalar);
    NewEntry(F0.kvs[..2], At(9), At(9));
    assert F0.kvs[..2] + [Kv(At(9), At(9))] == F0.kvs;
    InsertOff(s3, 5, At(9), At(9), F0.kvs);
    assert Store(s3, 5, F0.kvs) == BUILT;
    var ss := [HALF, s1, s2, s3, BUILT];
    assert IsTrace(ss, FILLED);
    TraceRuns(ss, FILLED);
  }

  lemma CopyRuns()
    ensures AllCopyEnabled(BUILT, COPY) && CopyRun(BUILT, COPY) == READY
  {
    BuiltIs();
    hide Leads, AllCopyEnabled, CopyRun, BUILT;
    var s1 := BUILT.(marks := [At(0), At(1), At(2), At(2)]);
    PushLeads(BUILT, At(2));
    var s2 := Place(s1, 10, EMPTY);
    AllocOff(s1, 10, EMPTY);
    var s3 := s2.(marks := [At(0), At(1), At(2), At(2), At(10)]);
    PushLeads(s2, At(10));
    var s4 := Place(s3, 11, EMPTY);
    AllocOff(s3, 11, EMPTY);
    var s5 := s4.(marks := s4.marks + [At(11)]);
    PushLeads(s4, At(11));
    PopLeads(s5, 5);
    assert Pop(s5, 5) == s4;
    var s7 := Append(s4, 10, Kv(At(4), At(11)));
    BareLeads(s4, 10, Kv(At(4), At(11)));
    var s8 := Place(s7, 12, EMPTY);
    AllocOff(s7, 12, EMPTY);
    PushLeads(s8, At(12));
    assert s8.marks + [At(12)] == READY.marks;
    assert s7.objs[10].kvs == [Kv(At(4), At(11))];
    assert s8.objs == READY.objs;
    assert s8.(marks := READY.marks) == READY;
    assert BUILT.marks + [At(2)] == s1.marks && s2.marks + [At(10)] == s3.marks;
    var ss := [BUILT, s1, s2, s3, s4, s5, s4, s7, s8, READY];
    assert IsTrace(ss, COPY);
    TraceRuns(ss, COPY);
  }

  // ---- the two scans ----

  lemma MarkShaded(s: State, ms: seq<Ptr>, n: nat)
    requires n < |ms|
    ensures ShadeMarks(s, ms, n + 1) == Shade(ShadeMarks(s, ms, n), ms[n]) && ShadeMarks(s, ms, 0) == s
  {
  }

  lemma ScanMore(s: State, k: nat)
    requires s.scan < |s.cur|
    ensures ScanUpTo(s, k + 1) == ScanUpTo(ScanOne(s), k)
    ensures ScanUpTo(s, 0) == s && ScanUpTo(ScanOne(s), 0) == ScanOne(s)
  {
  }

  lemma ScanPlain(s: State)
    requires s.scan < |s.cur| && s.cur[s.scan] in s.objs
    requires s.objs[s.cur[s.scan]] == Scalar || s.objs[s.cur[s.scan]] == EMPTY
    ensures ScanOne(s) == s.(scan := s.scan + 1)
  {
  }

  lemma ShadeNew(s: State, p: Ref)
    requires p in s.area && s.area[p] != s.a0
    ensures Shade(s, At(p)) == Queue(s, p)
  {
  }

  lemma ShadeOld(s: State, p: Ref)
    requires Marked(s, p)
    ensures Shade(s, At(p)) == s
  {
  }

  /** The marks 0, 1, 2, 2, 10, 12 are shaded. */
  lemma MarksShaded()
    ensures Begin(READY) == QUEUED
  {
    ReadyIs();
    hide ShadeMarks, Shade, READY;
    var f := Flip(READY);
    var b1 := Queue(f, 0);
    var b2 := Queue(b1, 1);
    var b3 := Queue(b2, 2);
    var b4 := Queue(b3, 10);
    ShadeNew(f, 0);
    ShadeNew(b1, 1);
    ShadeNew(b2, 2);
    ShadeOld(b3, 2);
    ShadeNew(b3, 10);
    ShadeNew(b4, 12);
    hide Queue, Flip;
    MarkShaded(f, READY.marks, 0);
    MarkShaded(f, READY.marks, 1);
    MarkShaded(f, READY.marks, 2);
    MarkShaded(f, READY.marks, 3);
    MarkShaded(f, READY.marks, 4);
    MarkShaded(f, READY.marks, 5);
  }

  /** The queue and the area bytes after the marks were shaded. */
  lemma QueuedIs()
    ensures QUEUED.cur == [0, 1, 2, 10, 12] && QUEUED.scan == 0 && QUEUED.on && QUEUED.a0 == 2
    ensures QUEUED.objs == READY.objs
    ensures forall p: Ref :: p in QUEUED.area <==> 0 <= p <= 12
    ensures forall p: Ref :: 3 <= p <= 9 || p == 11 ==> QUEUED.area[p] == 1
    ensures forall p: Ref :: 0 <= p < 3 || p == 10 || p == 12 ==> QUEUED.area[p] == 2
  {
    ReadyIs();
    hide READY;
  }

  lemma ScanEntries(s: State, kvs: seq<Kv>)
    requires s.scan < |s.cur| && s.cur[s.scan] in s.objs && s.objs[s.cur[s.scan]] == Table(kvs)
    ensures ScanOne(s) == ShadeKvs(s, kvs, |kvs|).(scan := s.scan + 1)
  {
    ShadeKvsSame(s, kvs, |kvs|);
  }

  lemma ShadeTwo(s: State, a: Kv, b: Kv)
    ensures ShadeKvs(s, [a, b], 2) == ShadeKv(ShadeKv(s, a), b)
    ensures ShadeKvs(s, [a], 1) == ShadeKv(s, a)
  {
    hide ShadeKv;
    assert ShadeKvs(s, [a, b], 0) == s && ShadeKvs(s, [a], 0) == s;
    assert ShadeKvs(s, [a, b], 1) == ShadeKv(s, a);
  }

  lemma FourShaded(s: State)
    requires forall p: Ref :: 3 <= p <= 6 ==> p in s.area && s.area[p] != s.a0
    ensures ShadeKv(ShadeKv(s, Kv(At(4), At(3))), Kv(At(6), At(5))) == Queue(Queue(Queue(Queue(s, 4), 3), 6), 5)
  {
    hide Shade;
    ShadeNew(s, 4);
    ShadeNew(Queue(s, 4), 3);
    ShadeNew(Queue(Queue(s, 4), 3), 6);
    ShadeNew(Queue(Queue(Queue(s, 4), 3), 6), 5);
  }

  lemma RootScanned()
    ensures ScanOne(QUEUED.(scan := 2)) == ROOTSCANNED
  {
    var s := QUEUED.(scan := 2);
    QueuedIs();
    ReadyIs();
    hide ShadeKv, ScanOne, ShadeKvs, READY, QUEUED, Queue;
    ScanEntries(s, R0.kvs);
    ShadeTwo(s, Kv(At(4), At(3)), Kv(At(6), At(5)));
    assert R0.kvs == [Kv(At(4), At(3)), Kv(At(6), At(5))];
    FourShaded(s);
  }

  lemma RootScannedIs()
    ensures ROOTSCANNED.cur == [0, 1, 2, 10, 12, 4, 3, 6, 5] && ROOTSCANNED.scan == 3 && ROOTSCANNED.on
    ensures ROOTSCANNED.a0 == 2 && ROOTSCANNED.objs == READY.objs
    ensures forall p: Ref :: p in ROOTSCANNED.area <==> 0 <= p <= 12
    ensures forall p: Ref :: 7 <= p <= 9 || p == 11 ==> ROOTSCANNED.area[p] == 1
    ensures forall p: Ref :: 0 <= p < 7 || p == 10 || p == 12 ==> ROOTSCANNED.area[p] == 2
  {
    QueuedIs();
    hide QUEUED, READY;
  }

  lemma CopyScanned()
    ensures ScanOne(ROOTSCANNED) == SCANNED1
  {
    var s := ROOTSCANNED;
    RootScannedIs();
    ReadyIs();
    hide Shade, ScanOne, ShadeKvs, READY, QUEUED, ROOTSCANNED;
    ScanEntries(s, [Kv(At(4), At(11))]);
    ShadeTwo(s, Kv(At(4), At(11)), Kv(At(4), At(11)));
    ShadeOld(s, 4);
    ShadeNew(s, 11);
  }

  lemma ScannedIs()
    ensures SCANNED1.cur == [0, 1, 2, 10, 12, 4, 3, 6, 5, 11] && SCANNED1.scan == 4 && SCANNED1.on && SCANNED1.a0 == 2
    ensures forall p: Ref :: p in SCANNED1.area <==> 0 <= p <= 12
    ensures forall p: Ref :: 7 <= p <= 9 ==> SCANNED1.area[p] == 1
    ensures forall p: Ref :: 0 <= p < 7 || 10 <= p <= 12 ==> SCANNED1.area[p] == 2
    ensures SCANNED1.objs == READY.objs && SCANNED1.marks == READY.marks
  {
    RootScannedIs();
    SameHeld();
    hide ROOTSCANNED, READY;
  }

  lemma SameHeld()
    ensures ROOTSCANNED.marks == READY.marks
  {
    hide READY;
  }

  /** The state after the first scan and the birth of 13. */
  lemma StoredIs()
    ensures STORED1.cur == [0, 1, 2, 10, 12, 4, 3, 6, 5, 11, 13] && STORED1.scan == 4 && STORED1.on && STORED1.a0 == 2
    ensures forall p: Ref :: p in STORED1.area <==> 0 <= p <= 13
    ensures forall p: Ref :: 7 <= p <= 9 ==> STORED1.area[p] == 1
    ensures forall p: Ref :: 0 <= p < 7 || 10 <= p <= 13 ==> STORED1.area[p] == 2
    ensures forall p: Ref :: p in STORED1.objs <==> 0 <= p <= 13
    ensures STORED1.objs[12] == Table([Kv(At(4), At(13))]) && STORED1.objs[3] == EMPTY
    ensures STORED1.objs[4] == STORED1.objs[6] == Scalar && STORED1.objs[10].Table?
    ensures STORED1.marks == [At(0), At(1), At(2), At(2), At(10), At(12)]
  {
    ScannedIs();
    ReadyIs();
    hide SCANNED1, READY;
  }

  /** 0, 1, 2 and 10 are scanned. */
  lemma FirstScan()
    ensures ScanUpTo(QUEUED, 4) == SCANNED1
  {
    RootScanned();
    CopyScanned();
    QueuedIs();
    ReadyIs();
    RootScannedIs();
    hide ScanOne, Queue, QUEUED, READY, ROOTSCANNED, SCANNED1;
    ScanPlain(QUEUED);
    ScanPlain(QUEUED.(scan := 1));
    ScanMore(QUEUED, 3);
    ScanMore(QUEUED.(scan := 1), 2);
    ScanMore(QUEUED.(scan := 2), 1);
    ScanMore(ROOTSCANNED, 0);
  }

  /** 12, 4, 3 and 6 are scanned. */
  lemma SecondScan()
    ensures ScanUpTo(STORED1, 4) == SCANNED2
  {
    var s := STORED1;
    StoredIs();
    hide ScanOne, Shade, ShadeKvs, Queue, STORED1;
    ScanEntries(s, [Kv(At(4), At(13))]);
    ShadeTwo(s, Kv(At(4), At(13)), Kv(At(4), At(13)));
    ShadeOld(s, 4);
    ShadeOld(s, 13);
    assert ScanOne(s) == s.(scan := 5);
    ScanPlain(s.(scan := 5));
    ScanPlain(s.(scan := 6));
    ScanPlain(s.(scan := 7));
    ScanMore(s, 3);
    ScanMore(s.(scan := 5), 2);
    ScanMore(s.(scan := 6), 1);
    ScanMore(s.(scan := 7), 0);
  }

  lemma FirstRuns()
    ensures AllCopyEnabled(READY, FIRST) && CopyRun(READY, FIRST) == STORED1
    ensures Inv(READY) ==> Inv(STORED1)
  {
    MarksShaded();
    FirstScan();
    ReadyIs();
    ScannedIs();
    QueuedIs();
    hide Leads, AllCopyEnabled, CopyRun, Begin, ScanUpTo, Inv, READY, QUEUED, SCANNED1;
    assert Dogc(READY, Steps(4)) == SCANNED1;
    BufferLeads(READY, 13, 4);
    var s2 := BORN1.(marks := BORN1.marks + [At(13)]);
    PushLeads(BORN1, At(13));
    PopLeads(s2, 6);
    assert Pop(s2, 6) == BORN1;
    BareLeads(BORN1, 12, Kv(At(4), At(13)));
    assert [] + [Kv(At(4), At(13))] == [Kv(At(4), At(13))];
    assert Append(BORN1, 12, Kv(At(4), At(13))) == STORED1;
    var ss := [READY, BORN1, s2, BORN1, STORED1];
    assert IsTrace(ss, FIRST);
    TraceRuns(ss, FIRST);
    assert !WasScanned(BORN1, 12);
    if Inv(READY) { TraceInv(ss, FIRST, 4); }
  }

  lemma BufferLeads(s: State, p: Ref, k: nat)
    requires p !in Dogc(s, Steps(k)).objs
    ensures Leads(s, Does(OpAlloc(p, EMPTY, Buffer(Steps(k)))), Place(Dogc(s, Steps(k)), p, EMPTY))
    ensures s.on ==> Leads(s, Does(OpAlloc(p, EMPTY, Cell(k))), Place(Dogc(s, Steps(k)), p, EMPTY))
  {
  }

  lemma SecondRuns()
    ensures AllCopyEnabled(STORED1, SECOND) && CopyRun(STORED1, SECOND) == STORED2
    ensures Inv(STORED1) ==> Inv(STORED2)
  {
    SecondScan();
    StoredIs();
    hide Leads, AllCopyEnabled, CopyRun, Begin, ScanUpTo, Inv, STORED1;
    assert Dogc(STORED1, Steps(4)) == SCANNED2;
    BufferLeads(STORED1, 14, 4);
    var s2 := BORN2.(marks := BORN2.marks + [At(14)]);
    PushLeads(BORN2, At(14));
    PopLeads(s2, 6);
    assert Pop(s2, 6) == BORN2;
    BareLeads(BORN2, 12, Kv(At(6), At(14)));
    assert BORN2.objs[12].kvs + [Kv(At(6), At(14))] == [Kv(At(4), At(13)), Kv(At(6), At(14))];
    assert Append(BORN2, 12, Kv(At(6), At(14))) == STORED2;
    var ss := [STORED1, BORN2, s2, BORN2, STORED2];
    assert IsTrace(ss, SECOND);
    TraceRuns(ss, SECOND);
    assert KvMarked(BORN2, Kv(At(6), At(14)));
    if Inv(STORED1) { TraceInv(ss, SECOND, 4); }
  }

  // ---- the loss ----

  lemma FinishedIs()
    ensures STORED2.cur == [0, 1, 2, 10, 12, 4, 3, 6, 5, 11, 13, 14] && STORED2.scan == 8 && STORED2.on
    ensures !Marked(STORED2, 9) && STORED2.marks == [At(0), At(1), At(2), At(2), At(10), At(12)]
    ensures forall p: Ref :: p in STORED2.objs <==> 0 <= p <= 14
    ensures IsTable(STORED2, 10) && IsTable(STORED2, 12)
    ensures STORED2.objs[12].kvs == [Kv(At(4), At(13)), Kv(At(6), At(14))]
  {
    StoredIs();
    hide STORED1;
  }

  /** The string is stored unmarked in a table that was scanned, and the copy ends. */
  lemma LastRuns()
    requires Inv(STORED2)
    ensures AllCopyEnabled(STORED2, LAST)
    ensures Lax(CopyRun(STORED2, LAST), {10, 12}) && !Tidy(CopyRun(STORED2, LAST), {10, 12})
    ensures CopyRun(STORED2, LAST).marks == [At(0), At(1), At(2)]
  {
    FinishedIs();
    hide Leads, AllCopyEnabled, CopyRun, Inv, Lax, Tidy, STORED2;
    var s, k9, k12 := STORED2, Kv(At(9), At(9)), Kv(At(6), At(12));
    InvIsLax(s, {10, 12});
    var s1 := Append(s, 12, k9);
    BareLeads(s, 12, k9);
    LaxAppend(s, {10, 12}, 12, k9);
    var s2 := Pop(s1, 5);
    PopLeads(s1, 5);
    LaxPop(s1, {10, 12}, 5);
    var s3 := Append(s2, 10, k12);
    BareLeads(s2, 10, k12);
    LaxAppend(s2, {10, 12}, 10, k12);
    var s4 := Pop(s3, 4);
    PopLeads(s3, 4);
    LaxPop(s3, {10, 12}, 4);
    var s5 := Pop(s4, 3);
    PopLeads(s4, 3);
    LaxPop(s4, {10, 12}, 3);
    NotTidy(s, s5);
    var ss := [s, s1, s2, s3, s4, s5];
    assert IsTrace(ss, LAST);
    TraceRuns(ss, LAST);
  }

  lemma NotTidy(s: State, t: State)
    requires s.on && s.scan == 8 && s.cur == [0, 1, 2, 10, 12, 4, 3, 6, 5, 11, 13, 14] && !Marked(s, 9)
    requires t.on && t.scan == s.scan && t.cur == s.cur && t.area == s.area && t.a0 == s.a0
    requires IsTable(t, 12) && |t.objs[12].kvs| == 3 && t.objs[12].kvs[2] == Kv(At(9), At(9))
    ensures !Tidy(t, {10, 12})
  {
    assert t.cur[..t.scan][4] == 12;
    assert WasScanned(t, 12);
    assert !KvMarked(t, t.objs[12].kvs[2]);
  }

  lemma PrefixInv()
    ensures Inv(READY)
  {
    InitialInv();
    RootRuns();
    NestedRuns();
    FilledRuns();
    CopyRuns();
    hide Inv, AllCopyEnabled, CopyRun;
    OffInv(INITIAL, ROOT);
    OffInv(ROOTED, NESTED);
    OffInv(HALF, FILLED);
    OffInv(BUILT, COPY);
  }

  /** The step starts no cycle. */
  predicate Calm(op: CopyOp) {
    op.Does? ==> match op.op
      case OpAlloc(_, _, r) => r.Cell?
      case OpInsert(_, Fresh(_, r), _, _) => r.Cell?
      case OpGc(_) => false
      case _ => true
  }

  lemma CalmOff(s: State, op: CopyOp)
    requires !s.on && Calm(op)
    ensures !CopyStep(s, op).on
  {
  }

  /** While no cycle is on and none is begun, no store does harm. */
  lemma {:induction false} OffInv(s: State, ops: seq<CopyOp>)
    requires Inv(s) && !s.on && AllCopyEnabled(s, ops) && forall i :: 0 <= i < |ops| ==> Calm(ops[i])
    ensures Inv(CopyRun(s, ops))
    decreases |ops|
  {
    if ops != [] {
      hide Inv;
      CalmOff(s, ops[0]);
      if ops[0].Does? { StepKeeps(s, ops[0].op); } else { AppendKeeps(s, ops[0].t, ops[0].kv); }
      OffInv(CopyStep(s, ops[0]), ops[1..]);
    }
  }

  /** The run from the initial state: every step is one that the program can take.  After it the copy is
      finished, and the program can go on so that an object which is reached from the mark stack is gone. */
  lemma CopyLoses()
    ensures var ops := ROOT + NESTED + FILLED + COPY + FIRST + SECOND + LAST;
      AllCopyEnabled(INITIAL, ops) && !Safe(CopyRun(INITIAL, ops))
  {
    PrefixInv();
    RootRuns();
    NestedRuns();
    FilledRuns();
    CopyRuns();
    FirstRuns();
    SecondRuns();
    LastRuns();
    hide AllCopyEnabled, CopyRun, Inv, Lax, Tidy, Safe;
    Compose(INITIAL, ROOT, NESTED);
    Compose(INITIAL, ROOT + NESTED, FILLED);
    Compose(INITIAL, ROOT + NESTED + FILLED, COPY);
    Compose(INITIAL, ROOT + NESTED + FILLED + COPY, FIRST);
    Compose(INITIAL, ROOT + NESTED + FILLED + COPY + FIRST, SECOND);
    Compose(INITIAL, ROOT + NESTED + FILLED + COPY + FIRST + SECOND, LAST);
    SafeIff(CopyRun(STORED2, LAST), {10, 12});
  }
}
