/** How much the invariant of the collector is worth: where a scanned table holds something unmarked, the
    program can go on so that an object in use is freed (`SafeIff`); and an object that is on no mark
    that stays can be lost in any evaluation (`HeldIff`). */
module CollectorExact {
  import opened Collector
  import opened CollectorRuns
  import opened CollectorGarbage

  // ---- runs ----

  lemma {:induction false} RunAppend(s: State, a: seq<Op>, b: seq<Op>)
    ensures Run(s, a + b) == Run(Run(s, a), b)
    ensures AllEnabled(s, a + b) <==> AllEnabled(s, a) && AllEnabled(Run(s, a), b)
    decreases |a|
  {
    hide Enabled, Step;
    if a == [] {
      assert a + b == b;
    } else {
      assert (a + b)[0] == a[0] && (a + b)[1..] == a[1..] + b;
      RunAppend(Step(s, a[0]), a[1..], b);
    }
  }

  lemma OneStep(s: State, op: Op)
    ensures Run(s, [op]) == Step(s, op) && (AllEnabled(s, [op]) <==> Enabled(s, op))
  {
    hide Enabled, Step;
    assert [op][1..] == [];
  }

  predicate IsTable(s: State, t: Ref) {
    t in s.objs && s.objs[t].Table?
  }

  /** The program empties the tables ts. */
  function Clears(ts: seq<Ref>): seq<Op> {
    seq(|ts|, i requires 0 <= i < |ts| => OpDelete(ts[i], []))
  }

  /** u is s with the tables ts empty. */
  ghost predicate Cleared(s: State, ts: seq<Ref>, u: State) {
    && u == s.(objs := u.objs) && u.objs.Keys == s.objs.Keys
    && forall p :: p in s.objs ==> u.objs[p] == if p in ts then Table([]) else s.objs[p]
  }

  lemma {:induction false} ClearsRun(s: State, ts: seq<Ref>)
    requires forall i :: 0 <= i < |ts| ==> IsTable(s, ts[i])
    ensures AllEnabled(s, Clears(ts)) && Cleared(s, ts, Run(s, Clears(ts)))
    decreases |ts|
  {
    if ts == [] {
      assert s == s.(objs := s.objs);
    } else {
      var u := Store(s, ts[0], []);
      assert Clears(ts)[0] == OpDelete(ts[0], []) && Clears(ts)[1..] == Clears(ts[1..]);
      assert BuiltFrom(s.objs[ts[0]], {}, []);
      assert IsTable(s, ts[0]);
      assert Step(s, Clears(ts)[0]) == u && Enabled(s, Clears(ts)[0]);
      forall i | 0 <= i < |ts[1..]| ensures IsTable(u, ts[1..][i]) { assert IsTable(s, ts[i + 1]); }
      ClearsRun(u, ts[1..]);
    }
  }

  lemma Listed(d: set<Ref>) returns (ts: seq<Ref>)
    ensures forall p :: p in ts <==> p in d
    decreases |d|
  {
    ts := [];
    if d != {} {
      var x :| x in d;
      var rest := Listed(d - {x});
      ts := [x] + rest;
    }
  }

  /** Nothing that is reached is ever lost, however the program goes on. */
  ghost predicate Safe(s: State) {
    forall ops :: Keeps(s, ops)
  }

  ghost predicate Keeps(s: State, ops: seq<Op>) {
    AllEnabled(s, ops) ==> forall q :: Reachable(Run(s, ops), q) ==> q in Run(s, ops).objs
  }

  // ---- tables that were filled without shading ----

  /** The tables ks without their entries. */
  function Blank(s: State, ks: set<Ref>): State {
    s.(objs := map p | p in s.objs :: if p in ks then Table([]) else s.objs[p])
  }

  /** The invariant but for what scanned tables among ks hold. */
  ghost predicate Lax(s: State, ks: set<Ref>) {
    && Inv(Blank(s, ks))
    && forall k {:trigger IsTable(s, k)} :: k in ks ==> IsTable(s, k) && KidsLive(s, s.objs[k])
  }

  /** Every table among ks that was scanned holds marked objects only. */
  ghost predicate Tidy(s: State, ks: set<Ref>) {
    forall k {:trigger WasScanned(s, k)} :: k in ks && WasScanned(s, k) && k in s.objs ==> KidsMarked(s, s.objs[k])
  }

  lemma LaxIsInv(s: State, ks: set<Ref>)
    requires Lax(s, ks)
    ensures Inv(s) <==> Tidy(s, ks)
  {
    var b := Blank(s, ks);
    forall p | p in s.objs ensures KidsLive(s, s.objs[p]) {
      if p in ks { assert IsTable(s, p); } else { SameKids(s, ks, s.objs[p]); assert KidsLive(b, b.objs[p]); }
    }
    assert forall p :: Marked(s, p) <==> Marked(b, p);
    forall i | 0 <= i < |s.marks| ensures Live(s, s.marks[i]) { assert Live(b, b.marks[i]); }
    if s.on {
      forall i | 0 <= i < |s.marks| ensures MarkedPtr(s, s.marks[i]) { assert MarkedPtr(b, b.marks[i]); }
    }
    if Tidy(s, ks) {
      if s.on {
        forall i | 0 <= i < s.scan ensures Clean(s, s.cur[i]) {
          assert Clean(b, b.cur[i]);
          assert s.cur[..s.scan][i] == s.cur[i];
          if s.cur[i] in ks { assert WasScanned(s, s.cur[i]); } else { SameKids(s, ks, s.objs[s.cur[i]]); }
        }
      }
      assert Inv(s);
    }
    if Inv(s) {
      forall k | k in ks && WasScanned(s, k) && k in s.objs ensures KidsMarked(s, s.objs[k]) {
        var i :| 0 <= i < s.scan && s.cur[..s.scan][i] == k;
        assert Clean(s, s.cur[i]);
      }
    }
  }

  /** The invariant does not depend on the entries of single tables being there. */
  lemma InvIsLax(s: State, ks: set<Ref>)
    requires Inv(s) && forall k :: k in ks ==> IsTable(s, k)
    ensures Lax(s, ks)
  {
    var b := Blank(s, ks);
    assert b.objs.Keys == s.objs.Keys;
    forall p | p in b.objs ensures KidsLive(b, b.objs[p]) {
      assert KidsLive(s, s.objs[p]);
      SameKids(s, ks, s.objs[p]);
    }
    forall i | 0 <= i < |s.marks| ensures Live(b, b.marks[i]) { assert Live(s, s.marks[i]); }
    if s.on {
      forall i | 0 <= i < s.scan ensures Clean(b, b.cur[i]) {
        assert Clean(s, s.cur[i]);
        SameKids(s, ks, s.objs[s.cur[i]]);
      }
      forall i | 0 <= i < |s.marks| ensures MarkedPtr(b, b.marks[i]) { assert MarkedPtr(s, s.marks[i]); }
    }
    forall k | k in ks ensures IsTable(s, k) && KidsLive(s, s.objs[k]) { assert KidsLive(s, s.objs[k]); }
  }

  lemma SameKids(s: State, ks: set<Ref>, o: Obj)
    ensures KidsLive(Blank(s, ks), o) <==> KidsLive(s, o)
    ensures KidsMarked(Blank(s, ks), o) <==> KidsMarked(s, o)
  {
    var b := Blank(s, ks);
    assert forall kv: Kv :: KvLive(b, kv) <==> KvLive(s, kv);
    assert forall kv: Kv :: KvMarked(b, kv) <==> KvMarked(s, kv);
  }

  // ---- a scanned table with an unmarked entry ----

  /** What is still queued has no entries. */
  ghost predicate Dry(s: State) {
    forall j :: s.scan <= j < |s.cur| ==> s.cur[j] in s.objs && (s.objs[s.cur[j]].Table? ==> s.objs[s.cur[j]].kvs == [])
  }

  lemma {:induction false} DryScan(s: State, n: nat)
    requires Dry(s) && s.scan <= |s.cur| && |s.cur| - s.scan <= n
    ensures ScanUpTo(s, n) == s.(scan := |s.cur|)
    decreases n
  {
    if s.scan < |s.cur| {
      assert s.cur[s.scan] in s.objs;
      assert ScanOne(s) == s.(scan := s.scan + 1);
      DryScan(ScanOne(s), n - 1);
    }
  }

  /** A full collection of such a state frees just what is unmarked. */
  lemma DryCollect(s: State)
    requires s.on && Dry(s) && s.scan <= |s.cur| <= |s.objs|
    ensures var t := Dogc(s, Full);
      && t.marks == s.marks && (forall p :: p in t.objs <==> p in s.objs && Marked(s, p))
      && forall p :: p in t.objs ==> t.objs[p] == s.objs[p]
  {
    DryScan(s, |s.objs|);
  }

  lemma UnmarkedEntry(s: State, ks: set<Ref>) returns (k: Ref, q: Ref)
    requires Lax(s, ks) && !Tidy(s, ks)
    ensures k in ks && WasScanned(s, k) && k in s.objs && InEntries(s.objs[k], At(q)) && !Marked(s, q) && q in s.objs
  {
    k :| k in ks && WasScanned(s, k) && k in s.objs && !KidsMarked(s, s.objs[k]);
    var i :| 0 <= i < |s.objs[k].kvs| && !KvMarked(s, s.objs[k].kvs[i]);
    var kv := s.objs[k].kvs[i];
    q := if MarkedPtr(s, kv.ko) then kv.vo.p else kv.ko.p;
    assert IsTable(s, k);
    assert KvLive(s, kv);
  }

  /** Facts of Lax that the queue needs. */
  lemma LaxQueue(s: State, ks: set<Ref>)
    requires Lax(s, ks)
    ensures s.on ==> s.scan <= |s.cur| <= |s.objs|
    ensures Distinct(s.cur) && forall p :: p in s.cur <==> Marked(s, p)
    ensures forall p :: Marked(s, p) ==> p in s.objs
  {
    var b := Blank(s, ks);
    QueueFits(b);
    assert b.objs.Keys == s.objs.Keys;
    assert forall p :: Marked(s, p) <==> Marked(b, p);
  }

  /** Hold the table k, empty the tables ts, and collect. */
  function Losing(k: Ref, ts: seq<Ref>): seq<Op> {
    [OpPush(At(k))] + Clears(ts) + [OpGc(Full)]
  }

  lemma LosingRun(s: State, k: Ref, ts: seq<Ref>) returns (u: State)
    requires Marked(s, k) && k in s.objs && forall i :: 0 <= i < |ts| ==> IsTable(s, ts[i])
    ensures Cleared(s.(marks := s.marks + [At(k)]), ts, u)
    ensures AllEnabled(s, Losing(k, ts)) && Run(s, Losing(k, ts)) == Dogc(u, Full)
  {
    hide Dogc, Run, AllEnabled, Cleared;
    var s1 := s.(marks := s.marks + [At(k)]);
    OneStep(s, OpPush(At(k)));
    assert Step(s, OpPush(At(k))) == s1;
    forall j | 0 <= j < |ts| ensures IsTable(s1, ts[j]) { assert IsTable(s, ts[j]); }
    ClearsRun(s1, ts);
    u := Run(s1, Clears(ts));
    OneStep(u, OpGc(Full));
    RunAppend(s, [OpPush(At(k))], Clears(ts));
    RunAppend(s, [OpPush(At(k))] + Clears(ts), [OpGc(Full)]);
  }

  /** The program can lose what an unmarked entry of a scanned table points to. */
  lemma Loses(s: State, ks: set<Ref>) returns (ops: seq<Op>)
    requires Lax(s, ks) && !Tidy(s, ks)
    ensures AllEnabled(s, ops) && exists q :: Reachable(Run(s, ops), q) && q !in Run(s, ops).objs
  {
    var k, q := UnmarkedEntry(s, ks);
    LaxQueue(s, ks);
    var i :| 0 <= i < s.scan && s.cur[..s.scan][i] == k;
    assert s.cur[i] in s.cur;
    var ts := Listed(set p | p in s.cur[s.scan..] && IsTable(s, p));
    hide Lax, Tidy, Run, AllEnabled, Dogc, Reachable, InEntries;
    forall j | 0 <= j < |ts| ensures IsTable(s, ts[j]) { assert ts[j] in ts; }
    var u := LosingRun(s, k, ts);
    ops := Losing(k, ts);
    NotLater(s, i);
    ClearedDry(s, s.(marks := s.marks + [At(k)]), u, ts);
    DryCollect(u);
    LostThere(s, u, k, q);
  }

  lemma LostThere(s: State, u: State, k: Ref, q: Ref)
    requires u.marks == s.marks + [At(k)] && k in s.objs && InEntries(s.objs[k], At(q)) && !Marked(u, q) && Marked(u, k)
    requires k in u.objs && u.objs[k] == s.objs[k]
    requires var t := Dogc(u, Full);
      && t.marks == u.marks && (forall p :: p in t.objs <==> p in u.objs && Marked(u, p))
      && forall p :: p in t.objs ==> t.objs[p] == u.objs[p]
    ensures Reachable(Dogc(u, Full), q) && q !in Dogc(u, Full).objs
  {
    hide Dogc, InEntries;
    var t := Dogc(u, Full);
    RootReachable(t, k) by { assert t.marks[|s.marks|] == At(k); }
    EntryPoints(s.objs[k], q);
    assert Edge(t, k, q);
    ReachStep(t, k, q);
  }

  lemma EntryPoints(o: Obj, q: Ref)
    requires InEntries(o, At(q))
    ensures Points(o, q)
  {
    var i :| 0 <= i < |o.kvs| && (o.kvs[i].ko == At(q) || o.kvs[i].vo == At(q));
    assert KvHas(o.kvs[i], q);
  }

  lemma NotLater(s: State, i: nat)
    requires i < s.scan <= |s.cur| && Distinct(s.cur)
    ensures s.cur[i] !in s.cur[s.scan..]
  {
  }

  lemma ClearedDry(s: State, s1: State, s2: State, ts: seq<Ref>)
    requires s.on && s.scan <= |s.cur| <= |s.objs| && forall p :: p in s.cur ==> p in s.objs
    requires forall p :: p in ts <==> p in s.cur[s.scan..] && IsTable(s, p)
    requires s1.objs == s.objs && s1.cur == s.cur && s1.scan == s.scan && s1.on && Cleared(s1, ts, s2)
    ensures s2.on && Dry(s2) && s2.scan <= |s2.cur| <= |s2.objs|
  {
    forall j | s2.scan <= j < |s2.cur|
      ensures s2.cur[j] in s2.objs && (s2.objs[s2.cur[j]].Table? ==> s2.objs[s2.cur[j]].kvs == [])
    {
      assert s.cur[j] == s.cur[s.scan..][j - s.scan] && s.cur[j] in s.cur;
    }
    assert |s2.objs| == |s2.objs.Keys| && |s.objs| == |s.objs.Keys|;
  }

  /** The state is safe for every continuation exactly when the full invariant holds. */
  lemma SafeIff(s: State, ks: set<Ref>)
    requires Lax(s, ks)
    ensures Safe(s) <==> Inv(s)
    ensures Safe(s) <==> Tidy(s, ks)
  {
    LaxIsInv(s, ks);
    if Inv(s) {
      forall ops ensures Keeps(s, ops) { if AllEnabled(s, ops) { RunKeeps(s, ops); } }
    } else {
      var ops := Loses(s, ks);
      assert !Keeps(s, ops);
    }
  }

  // ---- objects that an evaluation holds ----

  /** The evaluation leaves the marks `fixed` as they are, after every step. */
  ghost predicate Spares(s: State, ops: seq<Op>, fixed: set<nat>)
    decreases |ops|
  {
    ops == [] || (SameMarks(s, Step(s, ops[0]), fixed) && Spares(Step(s, ops[0]), ops[1..], fixed))
  }

  ghost predicate SameMarks(s: State, t: State, fixed: set<nat>) {
    forall i :: i in fixed ==> i < |s.marks| && i < |t.marks| && t.marks[i] == s.marks[i]
  }

  ghost predicate Held(s: State, fixed: set<nat>, p: Ref) {
    exists i :: i in fixed && i < |s.marks| && s.marks[i] == At(p)
  }

  ghost predicate StaysIn(s: State, ops: seq<Op>, fixed: set<nat>, p: Ref) {
    AllEnabled(s, ops) && Spares(s, ops, fixed) ==> p in Run(s, ops).objs
  }

  lemma {:induction false} HeldStays(s: State, ops: seq<Op>, fixed: set<nat>, p: Ref)
    requires Inv(s) && Held(s, fixed, p)
    ensures StaysIn(s, ops, fixed, p)
    decreases |ops|
  {
    hide Inv, Enabled, Step;
    RootReachable(s, p);
    if AllEnabled(s, ops) && Spares(s, ops, fixed) {
      if ops == [] {
        RunKeeps(s, ops);
      } else {
        StepKeeps(s, ops[0]);
        HeldStays(Step(s, ops[0]), ops[1..], fixed, p);
      }
    }
  }

  /** The program gives new values to the marks js. */
  function Resets(js: seq<nat>): seq<Op> {
    seq(|js|, i requires 0 <= i < |js| => OpReset(js[i], Null))
  }

  /** t is s with null pointers for the marks js. */
  ghost predicate ResetAt(s: State, js: seq<nat>, t: State) {
    && Inv(t) && t.objs == s.objs && |t.marks| == |s.marks|
    && forall i :: 0 <= i < |s.marks| ==> t.marks[i] == if i in js then Null else s.marks[i]
  }

  ghost predicate MayReset(s: State, js: seq<nat>, fixed: set<nat>) {
    (forall i :: i in fixed ==> i < |s.marks|) && forall x :: 0 <= x < |js| ==> js[x] < |s.marks| && js[x] !in fixed
  }

  lemma {:induction false} ResetsRun(s: State, js: seq<nat>, fixed: set<nat>)
    requires Inv(s) && MayReset(s, js, fixed)
    ensures AllEnabled(s, Resets(js)) && Spares(s, Resets(js), fixed) && ResetAt(s, js, Run(s, Resets(js)))
    decreases |js|
  {
    if js == [] {
      hide Inv;
    } else {
      var u, rest := Reset(s, js[0], Null), js[1..];
      ResetStep(s, js[0]);
      hide Inv, Enabled, Step, Reset, Run, AllEnabled, Spares, ResetAt;
      FirstStep(s, OpReset(js[0], Null), Resets(rest), fixed);
      assert Resets(js) == [OpReset(js[0], Null)] + Resets(rest);
      ResetsRun(u, rest, fixed);
      ResetMore(s, js, u, Run(u, Resets(rest)));
    }
  }

  lemma ResetMore(s: State, js: seq<nat>, u: State, t: State)
    requires |js| > 0 && js[0] < |s.marks| && u.objs == s.objs && u.marks == s.marks[js[0] := Null]
    requires ResetAt(u, js[1..], t)
    ensures ResetAt(s, js, t)
  {
    hide Inv;
    assert js == [js[0]] + js[1..];
  }

  lemma ResetStep(s: State, m: nat)
    requires Inv(s) && m < |s.marks|
    ensures var t := Reset(s, m, Null);
      Inv(t) && t.objs == s.objs && t.marks == s.marks[m := Null] && Step(s, OpReset(m, Null)) == t
    ensures Enabled(s, OpReset(m, Null))
  {
    ResetKeeps(s, m, Null);
    hide Inv;
  }

  lemma FirstStep(s: State, op: Op, ops: seq<Op>, fixed: set<nat>)
    requires Enabled(s, op) && SameMarks(s, Step(s, op), fixed)
    ensures var t := Step(s, op);
      && Run(s, [op] + ops) == Run(t, ops) && (AllEnabled(t, ops) ==> AllEnabled(s, [op] + ops))
      && (Spares(t, ops, fixed) ==> Spares(s, [op] + ops, fixed))
  {
    hide Enabled, Step;
    assert ([op] + ops)[0] == op && ([op] + ops)[1..] == ops;
  }

  lemma {:induction false} SparesAppend(s: State, a: seq<Op>, b: seq<Op>, fixed: set<nat>)
    ensures Spares(s, a + b, fixed) <==> Spares(s, a, fixed) && Spares(Run(s, a), b, fixed)
    decreases |a|
  {
    hide Step;
    if a == [] {
      assert a + b == b;
    } else {
      assert (a + b)[0] == a[0] && (a + b)[1..] == a[1..] + b;
      SparesAppend(Step(s, a[0]), a[1..], b, fixed);
    }
  }

  lemma {:induction false} ClearsSpare(s: State, ts: seq<Ref>, fixed: set<nat>)
    requires (forall i :: 0 <= i < |ts| ==> IsTable(s, ts[i])) && forall i :: i in fixed ==> i < |s.marks|
    ensures Spares(s, Clears(ts), fixed)
    decreases |ts|
  {
    if ts != [] {
      var u := Store(s, ts[0], []);
      assert Clears(ts)[0] == OpDelete(ts[0], []) && Clears(ts)[1..] == Clears(ts[1..]);
      assert Step(s, Clears(ts)[0]) == u;
      forall i | 0 <= i < |ts[1..]| ensures IsTable(u, ts[1..][i]) { assert IsTable(s, ts[i + 1]); }
      ClearsSpare(u, ts[1..], fixed);
    }
  }

  lemma CollectTwice(s: State, fixed: set<nat>)
    requires Inv(s) && forall i :: i in fixed ==> i < |s.marks|
    ensures var ops, t := [OpGc(Full), OpGc(Full)], Run(s, [OpGc(Full), OpGc(Full)]);
      AllEnabled(s, ops) && Spares(s, ops, fixed) && forall q :: q in t.objs <==> Reachable(s, q)
  {
    hide Inv, Dogc;
    TwoFullCollections(s);
    GcSafe(s, Full);
    GcSafe(Dogc(s, Full), Full);
    var ops := [OpGc(Full), OpGc(Full)];
    assert ops[1..] == [OpGc(Full)] && ops[1..][1..] == [];
    OneStep(Dogc(s, Full), OpGc(Full));
  }

  /** Nothing but the marks is reached where all tables are empty. */
  lemma {:induction false} OnlyMarks(s: State, q: Ref)
    requires Reachable(s, q) && forall p :: IsTable(s, p) ==> s.objs[p].kvs == []
    ensures At(q) in s.marks
  {
    var n: nat :| ReachIn(s, q, n);
    if n > 0 {
      var p :| ReachIn(s, p, n - 1) && Edge(s, p, q);
      assert IsTable(s, p);
    }
  }

  /** Give other values to all marks that are not fixed, empty all tables, and collect twice. */
  lemma DropAll(s: State, fixed: set<nat>, p: Ref) returns (ops: seq<Op>)
    requires Inv(s) && !Held(s, fixed, p) && forall i :: i in fixed ==> i < |s.marks|
    ensures !StaysIn(s, ops, fixed, p)
  {
    var js := Listed(set i: nat | i < |s.marks| && i !in fixed);
    assert forall x :: 0 <= x < |js| ==> js[x] in js;
    ResetsRun(s, js, fixed);
    var s1 := Run(s, Resets(js));
    var ts := Listed(set t | t in s1.objs && IsTable(s1, t));
    forall t ensures t in ts <==> IsTable(s1, t) {}
    hide Inv, Run, AllEnabled, Spares, Reachable, ResetAt;
    ops := Resets(js) + (Clears(ts) + [OpGc(Full), OpGc(Full)]);
    RunAppend(s, Resets(js), Clears(ts) + [OpGc(Full), OpGc(Full)]);
    SparesAppend(s, Resets(js), Clears(ts) + [OpGc(Full), OpGc(Full)], fixed);
    OffStack(s, s1, js, fixed, p);
    ClearAll(s1, ts, fixed, p);
  }

  lemma OffStack(s: State, t: State, js: seq<nat>, fixed: set<nat>, p: Ref)
    requires ResetAt(s, js, t) && (forall j :: 0 <= j < |s.marks| && j !in fixed ==> j in js) && !Held(s, fixed, p)
    ensures Inv(t) && At(p) !in t.marks && |t.marks| == |s.marks|
  {
    hide Inv;
  }

  /** Empty all tables, and collect twice: what is on no mark is gone. */
  lemma ClearAll(s: State, ts: seq<Ref>, fixed: set<nat>, p: Ref)
    requires Inv(s) && At(p) !in s.marks && (forall i :: i in fixed ==> i < |s.marks|)
    requires forall t :: t in ts <==> IsTable(s, t)
    ensures var ops := Clears(ts) + [OpGc(Full), OpGc(Full)];
      AllEnabled(s, ops) && Spares(s, ops, fixed) && p !in Run(s, ops).objs
  {
    forall j | 0 <= j < |ts| ensures IsTable(s, ts[j]) { assert ts[j] in ts; }
    hide Inv, Run, AllEnabled, Spares, Reachable;
    ClearsRun(s, ts);
    ClearsSpare(s, ts, fixed);
    RunKeeps(s, Clears(ts));
    var u := Run(s, Clears(ts));
    CollectTwice(u, fixed);
    RunAppend(s, Clears(ts), [OpGc(Full), OpGc(Full)]);
    SparesAppend(s, Clears(ts), [OpGc(Full), OpGc(Full)], fixed);
    EmptyTables(s, ts, u);
    if Reachable(u, p) { OnlyMarks(u, p); }
  }

  lemma EmptyTables(s: State, ts: seq<Ref>, u: State)
    requires Cleared(s, ts, u) && forall t :: t in ts <==> IsTable(s, t)
    ensures forall p :: IsTable(u, p) ==> u.objs[p].kvs == []
  {
    forall p | IsTable(u, p) ensures u.objs[p].kvs == [] {
      if p !in ts { assert IsTable(s, p); }
    }
  }

  /** An object stays allocated through every evaluation that leaves the marks `fixed` alone exactly when
      one of these marks holds it. */
  lemma HeldIff(s: State, fixed: set<nat>, p: Ref)
    requires Inv(s) && forall i :: i in fixed ==> i < |s.marks|
    ensures (forall ops :: StaysIn(s, ops, fixed, p)) <==> Held(s, fixed, p)
  {
    if Held(s, fixed, p) {
      forall ops ensures StaysIn(s, ops, fixed, p) { HeldStays(s, ops, fixed, p); }
    } else {
      var ops := DropAll(s, fixed, p);
    }
  }
}
