/** The deep copy of a table whose nested tables hold no further tables (cmd/lefty/tbl.c): the invariant of the
    collector holds throughout, in whatever state the collector is and whatever it does at each allocation. */
module CollectorShallow {
  import opened Collector
  import opened CollectorRuns
  import opened CollectorExact
  import opened CollectorCopy

  lemma ScannedIsClean(s: State, t: Ref)
    requires Inv(s) && WasScanned(s, t)
    ensures t in s.objs && KidsMarked(s, s.objs[t])
  {
    var j :| 0 <= j < s.scan && s.cur[..s.scan][j] == t;
    assert Clean(s, s.cur[j]);
  }

  /** Wherever b is queued, a is queued before it. */
  ghost predicate QueuedBefore(s: State, a: Ref, b: Ref) {
    forall j :: 0 <= j < |s.cur| && s.cur[j] == b ==> a in s.cur[..j]
  }

  lemma GrewKeepsOrder(s: State, t: State, a: Ref, b: Ref)
    requires s.cur <= t.cur && Distinct(t.cur) && QueuedBefore(s, a, b) && b in s.cur
    ensures QueuedBefore(t, a, b)
  {
    var i :| 0 <= i < |s.cur| && s.cur[i] == b;
    assert t.cur[i] == s.cur[i] && s.cur[..i] == t.cur[..i];
  }

  /** A table that was scanned is not scanned later than those queued before it. */
  lemma ScannedBefore(s: State, a: Ref, b: Ref)
    requires QueuedBefore(s, a, b) && WasScanned(s, b)
    ensures WasScanned(s, a)
  {
    var j :| 0 <= j < s.scan && s.cur[..s.scan][j] == b;
    var i :| 0 <= i < j && s.cur[..j][i] == a;
    assert s.cur[..s.scan][i] == a;
  }

  /** The start of a cycle queues the mark stack in order. */
  lemma {:induction false} MarksInOrder(s: State, n: nat, m: nat, a: Ref, b: Ref)
    requires Core(s) && s.cur == [] && n <= |s.marks| && m + 1 < |s.marks|
    requires s.marks[m] == At(a) && At(b) !in s.marks[..m + 1]
    ensures var t := ShadeMarks(s, s.marks, n);
      && Core(t) && Grew(s, t) && QueuedBefore(t, a, b) && (n <= m + 1 ==> b !in t.cur)
  {
    hide Core;
    ShadeMarksKeeps(s, s.marks, n) by { MarksLive(s); }
    if n > 0 {
      MarksInOrder(s, n - 1, m, a, b);
      var t, x := ShadeMarks(s, s.marks, n - 1), s.marks[n - 1];
      ShadeMarksKeeps(s, s.marks, n - 1) by { MarksLive(s); }
      if n <= m + 1 {
        assert s.marks[..m + 1][n - 1] == x;
      } else {
        QueueIsMarked(t);
        QueueIsMarked(Shade(t, x));
        assert MarkedPtr(t, s.marks[m]);
        ShadeOrder(t, x, a, b);
      }
    }
  }

  lemma MarksLive(s: State)
    requires Core(s)
    ensures forall i :: 0 <= i < |s.marks| ==> Live(s, s.marks[i])
  {
  }

  lemma QueueIsMarked(s: State)
    requires Core(s)
    ensures Distinct(s.cur) && forall p :: p in s.cur <==> Marked(s, p)
  {
  }

  lemma ShadeOrder(s: State, x: Ptr, a: Ref, b: Ref)
    requires QueuedBefore(s, a, b) && a in s.cur
    ensures QueuedBefore(Shade(s, x), a, b)
  {
    var t := Shade(s, x);
    forall j | 0 <= j < |t.cur| && t.cur[j] == b ensures a in t.cur[..j] {
      if j < |s.cur| { assert t.cur[..j] == s.cur[..j]; } else { assert t.cur[..j] == s.cur; }
    }
  }

  /** Table `from` is being copied to `to`: both are on the mark stack, one above the other. */
  ghost predicate Paired(s: State, from: Ref, to: Ref) {
    && Inv(s) && IsTable(s, from) && IsTable(s, to) && from != to && |s.marks| >= 2
    && s.marks[|s.marks| - 2] == At(from) && s.marks[|s.marks| - 1] == At(to)
    && At(to) !in s.marks[..|s.marks| - 1]
    && (s.on ==> QueuedBefore(s, from, to))
  }

  /** A collection during the copy keeps the source ahead of the copy in the queue. */
  lemma CollectKeepsOrder(s: State, amount: Amount, from: Ref, to: Ref)
    requires Paired(s, from, to)
    ensures Dogc(s, amount).on ==> QueuedBefore(Dogc(s, amount), from, to)
  {
    var t := if s.on then s else Begin(s);
    var k := if amount.Full? then |t.objs| else amount.k;
    assert Inv(s);
    hide Inv, Core;
    assert Core(t) && t.on && t.scan <= |t.cur| && QueuedBefore(t, from, to) && to in t.cur by {
      if s.on { OnFacts(s, to); } else { BeginOrder(s, from, to); }
    }
    var u := ScanUpTo(t, k);
    ScanUpToKeeps(t, k);
    QueueIsMarked(u);
    GrewKeepsOrder(t, u, from, to);
  }

  lemma OnFacts(s: State, to: Ref)
    requires Inv(s) && s.on && At(to) in s.marks
    ensures Core(s) && s.scan <= |s.cur| && to in s.cur
  {
    var i :| 0 <= i < |s.marks| && s.marks[i] == At(to);
    assert MarkedPtr(s, s.marks[i]);
  }

  lemma BeginOrder(s: State, from: Ref, to: Ref)
    requires Paired(s, from, to) && !s.on
    ensures var t := Begin(s);
      Core(t) && t.on && t.scan <= |t.cur| && QueuedBefore(t, from, to) && to in t.cur
  {
    var m := |s.marks| - 2;
    assert Inv(s);
    hide Inv, Core;
    FlipCore(s);
    MarksInOrder(Flip(s), |s.marks|, m, from, to);
    ShadeMarksKeeps(Flip(s), s.marks, |s.marks|) by { MarksLive(Flip(s)); }
    var t := Begin(s);
    assert MarkedPtr(t, s.marks[m + 1]);
    QueueIsMarked(t);
  }

  lemma FlipCore(s: State)
    requires Inv(s) && !s.on
    ensures Core(Flip(s))
  {
    var t := Flip(s);
    assert forall p :: p in t.objs ==> t.area[p] == t.a1;
    forall p | p in t.objs ensures KidsLive(t, t.objs[p]) { assert KidsLive(s, s.objs[p]); }
  }

  lemma AppendKeeps(s: State, t: Ref, kv: Kv)
    requires Inv(s) && IsTable(s, t) && KvLive(s, kv) && (WasScanned(s, t) ==> KvMarked(s, kv))
    ensures Inv(Append(s, t, kv))
  {
    var kvs := s.objs[t].kvs + [kv];
    assert KidsLive(s, s.objs[t]);
    assert KidsLive(s, Table(kvs));
    if WasScanned(s, t) { ScannedIsClean(s, t); }
    hide Inv;
    BareStore(s, t, kvs);
  }

  /** A key or scalar of the source, or a copy that was made before. */
  ghost predicate Known(s: State, from: Ref, to: Ref, x: Ptr)
    requires IsTable(s, from) && IsTable(s, to)
  {
    x == Null || InEntries(s.objs[from], x) || x == At(to) || InEntries(s.objs[to], x)
  }

  lemma KnownReached(s: State, from: Ref, to: Ref, x: Ptr)
    requires Paired(s, from, to) && Known(s, from, to, x)
    ensures x.At? ==> Reachable(s, x.p)
  {
    RootReachable(s, from);
    RootReachable(s, to);
    if x.At? {
      if InEntries(s.objs[from], x) { EntryReached(s, from, x.p); }
      if InEntries(s.objs[to], x) { EntryReached(s, to, x.p); }
    }
  }

  lemma EntryReached(s: State, t: Ref, q: Ref)
    requires IsTable(s, t) && Reachable(s, t) && InEntries(s.objs[t], At(q))
    ensures Reachable(s, q)
  {
    var o := s.objs[t];
    var i :| 0 <= i < |o.kvs| && (o.kvs[i].ko == At(q) || o.kvs[i].vo == At(q));
    assert KvHas(o.kvs[i], q);
    assert Edge(s, t, q);
    ReachStep(s, t, q);
  }

  lemma ReachedLive(s: State, q: Ref)
    requires Inv(s) && Reachable(s, q)
    ensures q in s.objs
  {
    var n: nat :| ReachIn(s, q, n);
    ReachIsLive(s, q, n);
  }

  /** Once the copy is scanned, so is the source, and all that is known is marked. */
  lemma KnownMarked(s: State, from: Ref, to: Ref, x: Ptr)
    requires Paired(s, from, to) && Known(s, from, to, x)
    ensures Live(s, x) && (WasScanned(s, to) ==> MarkedPtr(s, x))
  {
    KnownReached(s, from, to, x);
    if x.At? { ReachedLive(s, x.p); }
    if WasScanned(s, to) && x.At? {
      ScannedBefore(s, from, to);
      ScannedIsClean(s, from);
      ScannedIsClean(s, to);
      OnStackMarked(s, to);
      if x == At(to) {
      } else {
        var t := if InEntries(s.objs[from], x) then from else to;
        var i :| 0 <= i < |s.objs[t].kvs| && (s.objs[t].kvs[i].ko == x || s.objs[t].kvs[i].vo == x);
        assert KvMarked(s, s.objs[t].kvs[i]);
      }
    }
  }

  lemma OnStackMarked(s: State, p: Ref)
    requires Inv(s) && s.on && At(p) in s.marks
    ensures Marked(s, p)
  {
    var i :| 0 <= i < |s.marks| && s.marks[i] == At(p);
    assert MarkedPtr(s, s.marks[i]);
  }

  lemma PrepareOrder(s: State, refill: Refill, from: Ref, to: Ref)
    requires Paired(s, from, to)
    ensures Prepare(s, refill).on ==> QueuedBefore(Prepare(s, refill), from, to)
  {
    match refill
    case Cell(k) => CollectKeepsOrder(s, Steps(k), from, to);
    case Buffer(amount) => CollectKeepsOrder(s, amount, from, to);
  }

  lemma PlaceOrder(s: State, n: Ref, from: Ref, to: Ref)
    requires n != to && (s.on ==> QueuedBefore(s, from, to))
    ensures s.on ==> QueuedBefore(Place(s, n, Table([])), from, to)
  {
    var t := Place(s, n, Table([]));
    if s.on {
      forall j | 0 <= j < |t.cur| && t.cur[j] == to ensures from in t.cur[..j] {
        assert t.cur[..j] == s.cur[..j];
      }
    }
  }

  lemma NotYetScanned(s: State, n: Ref)
    requires Inv(s) && n !in s.objs
    ensures !WasScanned(Place(s, n, Table([])), n)
  {
    var t := Place(s, n, Table([]));
    QueuedLive(s);
    assert t.on ==> t.scan <= |s.cur| && t.cur[..t.scan] == s.cur[..s.scan];
  }

  lemma QueuedLive(s: State)
    requires Inv(s)
    ensures forall i :: 0 <= i < |s.cur| ==> s.cur[i] in s.objs
  {
    forall i | 0 <= i < |s.cur| ensures s.cur[i] in s.objs { assert s.cur[i] in s.cur && Marked(s, s.cur[i]); }
  }

  lemma SameOrder(s: State, t: State, a: Ref, b: Ref)
    requires t.cur == s.cur
    ensures QueuedBefore(t, a, b) <==> QueuedBefore(s, a, b)
  {
  }

  /** A table that is allocated while a cycle is on is queued behind all marked ones. */
  lemma LastInQueue(s: State, n: Ref, a: Ref)
    requires Inv(s) && n !in s.objs && At(a) in s.marks
    ensures s.on ==> QueuedBefore(Place(s, n, Table([])), a, n)
  {
    var t := Place(s, n, Table([]));
    if s.on {
      OnFacts(s, a);
      QueuedLive(s);
      forall j | 0 <= j < |t.cur| && t.cur[j] == n ensures a in t.cur[..j] { assert t.cur[..j] == s.cur; }
    }
  }

  lemma NotOnStack(s: State, n: Ref)
    requires Inv(s) && n !in s.objs
    ensures At(n) !in s.marks
  {
    MarksLive(s);
  }

  lemma PushMarked(s: State, x: Ptr)
    requires MarkedPtr(s, x)
    ensures Push(s, x) == s.(marks := s.marks + [x])
  {
  }

  // ---- the steps of the copy ----

  /** The copy is allocated and marked, above the mark of its source. */
  lemma StartPaired(s: State, from: Ref, to: Ref, r: Refill)
    requires Inv(s) && IsTable(s, from) && |s.marks| > 0 && s.marks[|s.marks| - 1] == At(from)
    requires to !in Prepare(s, r).objs
    ensures var t := Push(Place(Prepare(s, r), to, Table([])), At(to));
      Paired(t, from, to) && t.marks == s.marks + [At(to)]
  {
    hide Inv, Reachable, Prepare, QueuedBefore;
    RootReachable(s, from);
    PrepareKeeps(s, r);
    var u := Prepare(s, r);
    var v := Place(u, to, Table([]));
    PlaceKeeps(u, to, Table([]));
    LastInQueue(u, to, from);
    NotOnStack(u, to);
    PushKeeps(v, At(to));
    PushMarked(v, At(to));
    SameOrder(v, Push(v, At(to)), from, to);
  }

  lemma PairedMeans(s: State, from: Ref, to: Ref)
    requires Paired(s, from, to)
    ensures Inv(s) && IsTable(s, from) && IsTable(s, to) && from != to
    ensures At(from) in s.marks && At(to) in s.marks
  {
    assert s.marks[|s.marks| - 2] == At(from) && s.marks[|s.marks| - 1] == At(to);
  }

  /** The copy of a nested table is allocated. */
  lemma NestedBorn(s: State, from: Ref, to: Ref, n: Ref, r: Refill)
    requires Paired(s, from, to) && n !in Prepare(s, r).objs
    ensures var t := Place(Prepare(s, r), n, Table([]));
      && Inv(t) && t.marks == s.marks && IsTable(t, n) && !WasScanned(t, n) && Marked(t, n)
      && (t.on ==> QueuedBefore(t, from, to)) && n != from && n != to
      && IsTable(t, from) && t.objs[from] == s.objs[from] && IsTable(t, to) && t.objs[to] == s.objs[to]
  {
    var u := Prepare(s, r);
    PairedMeans(s, from, to);
    RootReachable(s, from);
    RootReachable(s, to);
    PrepareKeeps(s, r);
    PrepareOrder(s, r, from, to);
    PlaceKeeps(u, n, Table([]));
    hide Inv, Reachable, Prepare, QueuedBefore, Paired;
    NotYetScanned(u, n);
    PlaceOrder(u, n, from, to);
  }

  /** The nested copy is complete and no longer marked; nothing else has changed. */
  lemma NestedDone(s: State, t: State, u: State, from: Ref, to: Ref, n: Ref)
    requires Paired(s, from, to) && t.marks == s.marks && (t.on ==> QueuedBefore(t, from, to)) && n != from && n != to
    requires IsTable(t, from) && IsTable(t, to) && n in u.objs && u == t.(objs := t.objs[n := u.objs[n]]) && Inv(u)
    ensures Paired(u, from, to)
  {
    hide Inv;
    SameOrder(t, u, from, to);
  }

  /** An entry of which all that the collector asks for is known. */
  lemma EntryPaired(s: State, from: Ref, to: Ref, kv: Kv)
    requires Paired(s, from, to) && KvLive(s, kv) && (WasScanned(s, to) ==> KvMarked(s, kv))
    ensures Paired(Append(s, to, kv), from, to)
  {
    PairedMeans(s, from, to);
    hide Inv, WasScanned;
    AppendKeeps(s, to, kv);
    SameOrder(s, Append(s, to, kv), from, to);
  }
}
