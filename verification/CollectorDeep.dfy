/** When a deep copy of cmd/lefty/tbl.c is not safe: if a cycle begins at an allocation in the middle of a nested
    table, an entry behind it that nothing else shares can be lost. */
module CollectorDeep {
  import opened Collector
  import opened CollectorRuns
  import opened CollectorExact
  import opened CollectorCopy

  /** The start of a cycle queues nothing but marks. */
  lemma {:induction false} OnlyMarksQueued(s: State, ms: seq<Ptr>, n: nat)
    requires n <= |ms|
    ensures forall p :: p in ShadeMarks(s, ms, n).cur ==> p in s.cur || At(p) in ms[..n]
  {
    if n > 0 {
      OnlyMarksQueued(s, ms, n - 1);
      assert ms[..n - 1] == ms[..n][..n - 1] && ms[n - 1] in ms[..n];
      forall p | p in ShadeMarks(s, ms, n).cur ensures p in s.cur || At(p) in ms[..n] {
        if p in ShadeMarks(s, ms, n - 1).cur && At(p) in ms[..n - 1] { assert At(p) in ms[..n]; }
      }
    }
  }

  /** x is held by one of the first k objects in the queue. */
  ghost predicate HeldBy(s: State, k: nat, q: Ref) {
    exists i :: 0 <= i < k && i < |s.cur| && s.cur[i] in s.objs && InEntries(s.objs[s.cur[i]], At(q))
  }

  lemma {:induction false} ShadedEntry(s: State, kvs: seq<Kv>, n: nat, q: Ref)
    requires n <= |kvs| && Marked(ShadeKvs(s, kvs, n), q)
    ensures Marked(s, q) || InEntries(Table(kvs), At(q))
  {
    if n > 0 {
      var t := ShadeKvs(s, kvs, n - 1);
      if Marked(t, q) {
        ShadedEntry(s, kvs, n - 1, q);
      } else {
        assert kvs[n - 1].ko == At(q) || kvs[n - 1].vo == At(q);
      }
    }
  }

  /** What k scan steps mark was marked before, or is an entry of what they scan. */
  lemma {:induction false} MarkedByScan(s: State, k: nat, q: Ref)
    requires s.scan + k <= |s.cur| && Marked(ScanUpTo(s, k), q)
    ensures Marked(s, q) || HeldBy(s, s.scan + k, q)
    decreases k
  {
    if k > 0 {
      var t := ScanOne(s);
      ScanGrows(s);
      MarkedByScan(t, k - 1, q);
      if !Marked(s, q) {
        if Marked(t, q) {
          var p := s.cur[s.scan];
          assert p in s.objs && s.objs[p].Table?;
          ShadedEntry(s, s.objs[p].kvs, |s.objs[p].kvs|, q);
          assert HeldBy(s, s.scan + k, q);
        } else {
          var i :| 0 <= i < t.scan + (k - 1) && i < |t.cur| && t.cur[i] in t.objs && InEntries(t.objs[t.cur[i]], At(q));
          assert s.cur[i] == t.cur[i];
        }
      }
    }
  }

  lemma ScanGrows(s: State)
    requires s.scan < |s.cur|
    ensures var t := ScanOne(s); s.cur <= t.cur && t.objs == s.objs && t.scan == s.scan + 1
  {
    var p := s.cur[s.scan];
    if p in s.objs && s.objs[p].Table? {
      ShadeKvsSame(s, s.objs[p].kvs, |s.objs[p].kvs|);
      QueueGrows(s, s.objs[p].kvs, |s.objs[p].kvs|);
    }
  }

  lemma {:induction false} QueueGrows(s: State, kvs: seq<Kv>, n: nat)
    requires n <= |kvs|
    ensures s.cur <= ShadeKvs(s, kvs, n).cur
  {
    if n > 0 { QueueGrows(s, kvs, n - 1); }
  }

  lemma {:induction false} StepsTaken(s: State, k: nat)
    requires s.scan + k <= |s.cur|
    ensures var t := ScanUpTo(s, k); t.scan == s.scan + k && s.cur <= t.cur && t.objs == s.objs && t.on == s.on
    decreases k
  {
    if k > 0 {
      ScanGrows(s);
      OnStays(s);
      StepsTaken(ScanOne(s), k - 1);
    }
  }

  lemma OnStays(s: State)
    requires s.scan < |s.cur|
    ensures ScanOne(s).on == s.on
  {
    var p := s.cur[s.scan];
    if p in s.objs && s.objs[p].Table? { ShadeKvsSame(s, s.objs[p].kvs, |s.objs[p].kvs|); }
  }

  /** The object q is on no mark, and no marked table holds it. */
  ghost predicate Unshared(s: State, q: Ref) {
    At(q) !in s.marks && forall t :: At(t) in s.marks && t in s.objs ==> !InEntries(s.objs[t], At(q))
  }

  /** The object f is on no mark, but a marked table holds it. */
  ghost predicate OneBelow(s: State, f: Ref) {
    At(f) !in s.marks && exists t :: At(t) in s.marks && t in s.objs && InEntries(s.objs[t], At(f))
  }

  /** What is scanned has marked entries afterwards. */
  lemma {:induction false} EntriesMarked(s: State, ks: set<Ref>, k: nat, i: nat)
    requires Lax(s, ks) && s.on && s.scan <= i < s.scan + k <= |s.cur|
    ensures s.cur[i] in s.objs && KidsMarked(ScanUpTo(s, k), s.objs[s.cur[i]])
    decreases k
  {
    hide *;
    var t := ScanOne(s);
    OneScanned(s, ks, k, i);
    if i == s.scan {
      StillMarked(t, ks, k - 1, s.objs[s.cur[i]]);
    } else {
      EntriesMarked(t, ks, k - 1, i);
    }
  }

  lemma OneScanned(s: State, ks: set<Ref>, k: nat, i: nat)
    requires Lax(s, ks) && s.on && s.scan <= i < s.scan + k <= |s.cur|
    ensures var t := ScanOne(s);
      && Lax(t, ks) && t.on && t.scan == s.scan + 1 && t.objs == s.objs && |s.cur| <= |t.cur| && t.cur[i] == s.cur[i]
      && ScanUpTo(s, k) == ScanUpTo(t, k - 1)
    ensures i == s.scan ==> s.cur[i] in s.objs && KidsMarked(ScanOne(s), s.objs[s.cur[i]])
  {
    LaxScans(s, ks);
    hide Lax, ScanOne, KidsMarked, Marked;
  }

  lemma {:induction false} StillMarked(s: State, ks: set<Ref>, k: nat, o: Obj)
    requires Lax(s, ks) && s.on && s.scan + k <= |s.cur| && KidsMarked(s, o)
    ensures KidsMarked(ScanUpTo(s, k), o)
    decreases k
  {
    hide Lax, ScanOne, Marked;
    if k > 0 {
      LaxScans(s, ks);
      OnwardKids(s, ScanOne(s), o);
      StillMarked(ScanOne(s), ks, k - 1, o);
    }
  }

  lemma OnwardKids(s: State, t: State, o: Obj)
    requires s.on && Onward(s, t) && KidsMarked(s, o)
    ensures KidsMarked(t, o)
  {
    hide Marked;
    if o.Table? {
      forall i | 0 <= i < |o.kvs| ensures KvMarked(t, o.kvs[i]) { assert KvMarked(s, o.kvs[i]); }
    }
  }

  lemma EntryMarked(s: State, o: Obj, q: Ref)
    requires KidsMarked(s, o) && InEntries(o, At(q))
    ensures Marked(s, q)
  {
    var i :| 0 <= i < |o.kvs| && (o.kvs[i].ko == At(q) || o.kvs[i].vo == At(q));
    assert KvMarked(s, o.kvs[i]);
  }

  /** The queue at the start of a cycle: the objects on the mark stack. */
  lemma FirstQueue(s: State, ks: set<Ref>)
    requires Lax(s, ks) && !s.on
    ensures var b := Begin(s);
      && Lax(b, ks) && b.on && b.scan == 0 && b.objs == s.objs && b.marks == s.marks
      && (forall p :: p in b.cur <==> At(p) in s.marks) && (forall p :: p in b.cur <==> Marked(b, p))
  {
    LaxBegins(s, ks);
    BeginSame(s);
    var b := Begin(s);
    LaxMeans(b, ks);
    LaxQueue(b, ks);
    OnlyMarksQueued(Flip(s), s.marks, |s.marks|);
    assert s.marks[..|s.marks|] == s.marks;
    hide Lax, Begin;
    forall p | At(p) in s.marks ensures p in b.cur {
      var i :| 0 <= i < |s.marks| && s.marks[i] == At(p);
      assert MarkedPtr(b, b.marks[i]);
    }
  }

  /** With as many steps as there are objects on the mark stack, exactly these are scanned. */
  lemma MarksScanned(s: State, ks: set<Ref>, n: Ref, f: Ref, q: Ref) returns (k: nat)
    requires Lax(s, ks) && !s.on && At(n) in s.marks && OneBelow(s, f) && Unshared(s, q)
    ensures var t := Dogc(s, Steps(k));
      t.on && t.objs == s.objs && WasScanned(t, n) && !Marked(t, q) && t.scan <= |t.cur|
  {
    FirstQueue(s, ks);
    var b := Begin(s);
    k := |b.cur|;
    var t := ScanUpTo(b, k);
    hide Lax, Begin, Marked, ScanUpTo, InEntries, KidsMarked;
    StepsTaken(b, k);
    forall i | 0 <= i < k ensures t.cur[i] == b.cur[i] && At(b.cur[i]) in s.marks { assert b.cur[i] in b.cur; }
    if Marked(t, q) {
      MarkedByScan(b, k, q);
    }
    var i :| 0 <= i < k && b.cur[i] == n;
    assert t.cur[..t.scan][i] == n;
    var r :| At(r) in s.marks && r in s.objs && InEntries(s.objs[r], At(f));
    var j :| 0 <= j < k && b.cur[j] == r;
    EntriesMarked(b, ks, k, j);
    EntryMarked(t, s.objs[r], f);
    MoreQueued(b, t, ks, k, f);
  }

  lemma MoreQueued(b: State, t: State, ks: set<Ref>, k: nat, f: Ref)
    requires Lax(b, ks) && b.on && b.scan == 0 && k == |b.cur| && t == ScanUpTo(b, k) && Marked(t, f) && f !in b.cur
    requires b.cur <= t.cur
    ensures k < |t.cur|
  {
    LaxMeans(b, ks);
    BlankScans(b, ks, k);
    LaxQueue(t, ks);
  }

  lemma {:induction false} BlankScans(s: State, ks: set<Ref>, k: nat)
    requires Lax(s, ks) && s.on && s.scan + k <= |s.cur|
    ensures Lax(ScanUpTo(s, k), ks)
    decreases k
  {
    hide Lax, ScanOne;
    if k > 0 {
      LaxScans(s, ks);
      BlankScans(ScanOne(s), ks, k - 1);
    }
  }

  // ---- the loss ----

  /** From the birth of the copy p of an empty table on: it is finished and stored in n under k1, and the
      value q is stored under k2. */
  function StoredBehind(t: State, p: Ref, n: Ref, k1: Ptr, k2: Ptr, q: Ref): State
    requires IsTable(t, n) && n != p
  {
    var u := Push(Place(t, p, Table([])), At(p));
    Append(Append(Pop(u, |t.marks|), n, Kv(k1, At(p))), n, Kv(k2, At(q)))
  }

  lemma BehindKeeps(g: State, t: State, ks: seq<Ref>, h: nat, q: Ref, p: Ref, k1: Ptr, k2: Ptr)
    requires Making(g, t, ks, {}) && h < |ks| && p !in t.objs && Reachable(g, q) && PtrOk(g, ks, k1) && PtrOk(g, ks, k2)
    ensures IsTable(t, ks[h]) && ks[h] != p && Making(g, StoredBehind(t, p, ks[h], k1, k2, q), ks + [p], {})
  {
    var n, ls := ks[h], ks + [p];
    MakingTables(g, t, ks, h);
    hide Making, Reachable, PtrOk, KvOk, Edge;
    BornKeeps(g, t, ks, p);
    var t1 := Place(t, p, Table([]));
    PushMaking(g, t1, ls, p);
    var t2 := Push(t1, At(p));
    assert t2.marks[..|t.marks|] == t.marks;
    PopMaking(g, t2, ls, p);
    var t3 := Pop(t2, |t.marks|);
    assert ls[h] == n;
    BornLast(g, t, ks, p);
    BothOk(g, ks, p, k1, k2, q);
    AppendMaking(g, t3, ls, {p}, h, Kv(k1, At(p)));
    AppendMaking(g, Append(t3, n, Kv(k1, At(p))), ls, {}, h, Kv(k2, At(q)));
  }

  lemma MakingTables(g: State, t: State, ks: seq<Ref>, h: nat)
    requires Making(g, t, ks, {}) && h < |ks|
    ensures IsTable(t, ks[h]) && g.marks <= t.marks
  {
    assert ks[h] in ks;
  }

  lemma BothOk(g: State, ks: seq<Ref>, p: Ref, k1: Ptr, k2: Ptr, q: Ref)
    requires Reachable(g, q) && PtrOk(g, ks, k1) && PtrOk(g, ks, k2)
    ensures KvOk(g, ks + [p], Kv(k1, At(p))) && KvOk(g, ks + [p], Kv(k2, At(q)))
  {
    hide Reachable;
    assert (ks + [p])[|ks|] == p;
  }

  /** A copy is made while the collector is off.  The mark of copy n is on the stack, so its table, f, is being
      copied; f is on no mark, and neither is q, nor is q an entry of a marked table.  If f holds a table
      that was not copied yet, and then q, there is a number of scan steps with which q can be lost. */
  lemma DeepLoses(g: State, s: State, ks: seq<Ref>, h: nat, f: Ref, q: Ref, p: Ref, k1: Ptr, k2: Ptr)
    returns (k: nat)
    requires Making(g, s, ks, {}) && !s.on && h < |ks| && At(ks[h]) in s.marks
    requires OneBelow(s, f) && Unshared(s, q) && Reachable(g, q)
    requires PtrOk(g, ks, k1) && PtrOk(g, ks, k2) && p !in s.objs
    ensures var t := Prepare(s, Buffer(Steps(k)));
      && IsTable(t, ks[h]) && ks[h] != p
      && Making(g, StoredBehind(t, p, ks[h], k1, k2, q), ks + [p], {})
      && !Safe(StoredBehind(t, p, ks[h], k1, k2, q))
  {
    var n := ks[h];
    SourceLives(g, s, ks, q);
    MakingLax(g, s, ks);
    hide Making, Reachable, Lax, PtrOk, OneBelow, Unshared, Safe, StoredBehind, Dogc;
    k := MarksScanned(s, Elems(ks), n, f, q);
    var t := Prepare(s, Buffer(Steps(k)));
    PrepareMaking(g, s, ks, Buffer(Steps(k)));
    BehindKeeps(g, t, ks, h, q, p, k1, k2);
    var u := StoredBehind(t, p, n, k1, k2, q);
    LeftUntidy(t, p, n, k1, k2, q, Elems(ks + [p]), ks);
    MakingLax(g, u, ks + [p]);
    SafeIff(u, Elems(ks + [p]));
  }

  lemma SourceLives(g: State, s: State, ks: seq<Ref>, q: Ref)
    requires Making(g, s, ks, {}) && Reachable(g, q)
    ensures q in s.objs
  {
  }

  lemma BornLast(g: State, t: State, ks: seq<Ref>, p: Ref)
    requires Making(g, t, ks, {}) && p !in t.objs
    ensures forall i :: 0 <= i < |ks + [p]| && (ks + [p])[i] in {p} ==> i == |ks|
  {
    forall i | 0 <= i < |ks| ensures ks[i] != p { assert ks[i] in ks && IsTable(t, ks[i]); }
    assert (ks + [p])[|ks|] == p;
  }

  lemma MakingLax(g: State, s: State, ks: seq<Ref>)
    requires Making(g, s, ks, {})
    ensures Lax(s, Elems(ks))
  {
  }

  lemma LeftUntidy(t: State, p: Ref, n: Ref, k1: Ptr, k2: Ptr, q: Ref, ks: set<Ref>, was: seq<Ref>)
    requires t.on && t.scan <= |t.cur| && WasScanned(t, n) && !Marked(t, q) && q != p && IsTable(t, n) && n != p
    requires n in was && ks == Elems(was + [p])
    ensures !Tidy(StoredBehind(t, p, n, k1, k2, q), ks)
  {
    var u := StoredBehind(t, p, n, k1, k2, q);
    assert u.cur == t.cur + [p] && u.cur[..u.scan] == t.cur[..t.scan];
    assert WasScanned(u, n);
    var i := |t.objs[n].kvs| + 1;
    assert u.objs[n].kvs[i] == Kv(k2, At(q));
    assert !KvMarked(u, u.objs[n].kvs[i]);
    assert n in was + [p];
  }
}
