/** The incremental collector of cmd/lefty/mem.c as a state machine on values.

    A state holds the live objects, their area bytes, the explicit mark stack, the two object
    queues and the scan position.  Every operation of the C file is a function from state to
    state; `CollectorHeap.dfy` proves the loops that work in place equal to these functions. */
module Collector {

  type Ref = nat

  /** A C pointer to an object. */
  datatype Ptr = Null | At(p: Ref)

  /** One `Tkv_t`: the key and value pointers a table entry holds. */
  datatype Kv = Kv(ko: Ptr, vo: Ptr)

  /** `Mhaspointers` is true of tables only; the entries stand in scan order. */
  datatype Obj = Scalar | Table(kvs: seq<Kv>)

  datatype State = State(
    objs: map<Ref, Obj>,     // the objects that are allocated and not freed
    area: map<Ref, int>,     // their area bytes
    marks: seq<Ptr>,         // markarray[0..marki)
    cur: seq<Ref>,           // otarray[0][0..oti)
    scan: nat,               // otj
    prev: seq<Ref>,          // otarray[1][0..prevoti)
    a0: int,                 // otarea[0]
    a1: int,                 // otarea[1]
    on: bool)                // Mgcstate == M_GCON

  const INITIAL := State(map[], map[], [], [], 0, [], 1, 2, false)

  predicate Marked(s: State, p: Ref) {
    p in s.area && s.area[p] == s.a0
  }

  predicate MarkedPtr(s: State, x: Ptr) {
    x.At? ==> Marked(s, x.p)
  }

  predicate Live(s: State, x: Ptr) {
    x.At? ==> x.p in s.objs
  }

  predicate KvLive(s: State, kv: Kv) {
    Live(s, kv.ko) && Live(s, kv.vo)
  }

  predicate KvMarked(s: State, kv: Kv) {
    MarkedPtr(s, kv.ko) && MarkedPtr(s, kv.vo)
  }

  // ---- the operations of mem.c ----

  /** Mmkcurr: queue an object and give it the current area, unless it already has it. */
  function Shade(s: State, x: Ptr): State {
    if x.Null? || x.p !in s.area || s.area[x.p] == s.a0 then s
    else s.(cur := s.cur + [x.p], area := s.area[x.p := s.a0])
  }

  function ShadeMarks(s: State, ms: seq<Ptr>, n: nat): State
    requires n <= |ms|
  {
    if n == 0 then s else Shade(ShadeMarks(s, ms, n - 1), ms[n - 1])
  }

  /** Tgchelper: shade the key and the value of each entry in turn. */
  function ShadeKvs(s: State, kvs: seq<Kv>, n: nat): State
    requires n <= |kvs|
  {
    if n == 0 then s else ShadeKv(ShadeKvs(s, kvs, n - 1), kvs[n - 1])
  }

  function ShadeKv(s: State, kv: Kv): State {
    Shade(Shade(s, kv.ko), kv.vo)
  }

  function ScanOne(s: State): State
    requires s.scan < |s.cur|
  {
    var p := s.cur[s.scan];
    var t := if p in s.objs && s.objs[p].Table? then ShadeKvs(s, s.objs[p].kvs, |s.objs[p].kvs|) else s;
    t.(scan := t.scan + 1)
  }

  /** The scan loop: at most `k` objects, or until the queue is used up. */
  function ScanUpTo(s: State, k: nat): State
    decreases k
  {
    if k == 0 || s.scan >= |s.cur| then s else ScanUpTo(ScanOne(s), k - 1)
  }

  /** The start of a cycle: swap queues and areas, then shade the mark stack. */
  function Flip(s: State): State {
    s.(cur := [], prev := s.cur, scan := 0, a0 := s.a1, a1 := s.a0, on := true)
  }

  function Begin(s: State): State {
    ShadeMarks(Flip(s), s.marks, |s.marks|)
  }

  /** The end of a cycle: everything still in the old area is freed. */
  function Sweep(s: State): State {
    s.(objs := map p | p in s.objs && Marked(s, p) :: s.objs[p],
       area := map p | p in s.area && Marked(s, p) :: s.area[p],
       on := false)
  }

  datatype Amount = Full | Steps(k: nat)

  /** Mdogc up to the point where it decides whether the cycle is over.  No queue is longer than
      the number of live objects (`CollectorRuns.QueueFits`), so that many steps are a full scan. */
  function Scanned(s: State, amount: Amount): State {
    var t := if s.on then s else Begin(s);
    ScanUpTo(t, if amount.Full? then |t.objs| else amount.k)
  }

  function Dogc(s: State, amount: Amount): State {
    var u := Scanned(s, amount);
    if u.scan < |u.cur| then u else Sweep(u)
  }

  function Push(s: State, x: Ptr): State {
    var t := s.(marks := s.marks + [x]);
    if s.on then Shade(t, x) else t
  }

  /** Mpopmark: an index out of range only prints a warning. */
  function Pop(s: State, m: int): State {
    if 0 <= m < |s.marks| then s.(marks := s.marks[..m]) else s
  }

  /** Mresetmark; the C code does not check the index. */
  function Reset(s: State, m: nat, x: Ptr): State
    requires m < |s.marks|
  {
    var t := s.(marks := s.marks[m := x]);
    if s.on then Shade(t, x) else t
  }

  /** Which collection Mnew runs first: none unless a cycle is on, when the free list has a cell;
      an incremental or a full one when a buffer had to be carved. */
  datatype Refill = Cell(k: nat) | Buffer(amount: Amount)

  function Prepare(s: State, r: Refill): State
  {
    match r
    case Cell(k) => if s.on then Dogc(s, Steps(k)) else s
    case Buffer(amount) => Dogc(s, amount)
  }

  function Place(s: State, p: Ref, o: Obj): State {
    s.(objs := s.objs[p := o], area := s.area[p := s.a0], cur := s.cur + [p])
  }

  /** Mnew: collect, take a cell, and queue it as already marked. */
  function Alloc(s: State, p: Ref, o: Obj, r: Refill): State
  {
    Place(Prepare(s, r), p, o)
  }

  function Store(s: State, t: Ref, kvs: seq<Kv>): State {
    s.(objs := s.objs[t := Table(kvs)])
  }

  // ---- the invariant ----

  ghost predicate Distinct(q: seq<Ref>) {
    forall i, j :: 0 <= i < j < |q| ==> q[i] != q[j]
  }

  ghost predicate KidsLive(s: State, o: Obj) {
    o.Table? ==> forall i :: 0 <= i < |o.kvs| ==> KvLive(s, o.kvs[i])
  }

  ghost predicate KidsMarked(s: State, o: Obj) {
    o.Table? ==> forall i :: 0 <= i < |o.kvs| ==> KvMarked(s, o.kvs[i])
  }

  /** A live object whose entries hold marked objects only. */
  ghost predicate Clean(s: State, p: Ref) {
    p in s.objs && KidsMarked(s, s.objs[p])
  }

  /** Both queues list the live objects exactly as the area bytes say, and no pointer dangles. */
  ghost predicate Core(s: State) {
    && s.a0 != s.a1 && s.area.Keys == s.objs.Keys
    && Distinct(s.cur)
    && (forall p :: p in s.cur <==> Marked(s, p))
    && (forall p {:trigger KidsLive(s, s.objs[p])} :: p in s.objs ==> KidsLive(s, s.objs[p]))
    && (forall i :: 0 <= i < |s.marks| ==> Live(s, s.marks[i]))
    && (s.on ==> OnPart(s))
    && (!s.on ==> forall p :: p in s.objs ==> Marked(s, p))
  }

  ghost predicate OnPart(s: State) {
    && Distinct(s.prev)
    && (forall p :: p in s.prev ==> p in s.objs)
    && (forall p :: p in s.area && !Marked(s, p) ==> p in s.prev && s.area[p] == s.a1)
    && s.scan <= |s.cur|
    && (forall i :: 0 <= i < s.scan ==> Clean(s, s.cur[i]))
  }

  /** While a cycle is on, the mark stack holds marked objects only. */
  ghost predicate RootsMarked(s: State) {
    forall i :: 0 <= i < |s.marks| ==> MarkedPtr(s, s.marks[i])
  }

  ghost predicate Inv(s: State) {
    Core(s) && (s.on ==> RootsMarked(s))
  }

  /** t follows s by shading only. */
  ghost predicate Grew(s: State, t: State) {
    && t.objs == s.objs && t.marks == s.marks && t.prev == s.prev && t.on == s.on
    && t.a0 == s.a0 && t.a1 == s.a1
    && s.cur <= t.cur
    && (forall p :: Marked(s, p) ==> Marked(t, p))
  }

  lemma ShadeKeeps(s: State, x: Ptr)
    requires Core(s) && Live(s, x)
    ensures Core(Shade(s, x)) && Grew(s, Shade(s, x)) && MarkedPtr(Shade(s, x), x)
    ensures Shade(s, x).scan == s.scan
  {
    var t := Shade(s, x);
    if t != s {
      assert t.cur == s.cur + [x.p] && x.p !in s.cur;
      assert Distinct(t.cur) by {
        forall i, j | 0 <= i < j < |t.cur| ensures t.cur[i] != t.cur[j] {
          assert t.cur[i] == s.cur[i] && s.cur[i] in s.cur;
        }
      }
      assert forall p :: Marked(t, p) <==> Marked(s, p) || p == x.p;
      assert forall p :: p in t.cur <==> p in s.cur || p == x.p;
      if s.on {
        forall i | 0 <= i < t.scan ensures Clean(t, t.cur[i]) {
          assert t.cur[i] == s.cur[i];
          assert Clean(s, s.cur[i]);
        }
      }
      forall p | p in t.objs ensures KidsLive(t, t.objs[p]) { assert KidsLive(s, s.objs[p]); }
    }
  }

  lemma {:induction false} ShadeMarksKeeps(s: State, ms: seq<Ptr>, n: nat)
    requires n <= |ms|
    requires Core(s) && forall i :: 0 <= i < |ms| ==> Live(s, ms[i])
    ensures var t := ShadeMarks(s, ms, n);
      Core(t) && Grew(s, t) && t.scan == s.scan && forall i :: 0 <= i < n ==> MarkedPtr(t, ms[i])
  {
    hide Core, Marked, Shade;
    if n > 0 {
      ShadeMarksKeeps(s, ms, n - 1);
      ShadeKeeps(ShadeMarks(s, ms, n - 1), ms[n - 1]);
    }
  }

  lemma ShadeKvKeeps(s: State, kv: Kv)
    requires Core(s) && KvLive(s, kv)
    ensures Core(ShadeKv(s, kv)) && Grew(s, ShadeKv(s, kv)) && KvMarked(ShadeKv(s, kv), kv)
    ensures ShadeKv(s, kv).scan == s.scan
  {
    ShadeKeeps(s, kv.ko);
    ShadeKeeps(Shade(s, kv.ko), kv.vo);
  }

  lemma {:induction false} ShadeKvsKeeps(s: State, kvs: seq<Kv>, n: nat)
    requires n <= |kvs|
    requires Core(s) && forall i :: 0 <= i < |kvs| ==> KvLive(s, kvs[i])
    ensures var t := ShadeKvs(s, kvs, n);
      Core(t) && Grew(s, t) && t.scan == s.scan && forall i :: 0 <= i < n ==> KvMarked(t, kvs[i])
  {
    hide Core, Marked, ShadeKv;
    if n > 0 {
      ShadeKvsKeeps(s, kvs, n - 1);
      var t := ShadeKvs(s, kvs, n - 1);
      assert KvLive(t, kvs[n - 1]) by { assert KvLive(s, kvs[n - 1]); }
      ShadeKvKeeps(t, kvs[n - 1]);
    }
  }

  lemma QueuedIsLive(s: State, i: nat)
    requires Core(s) && i < |s.cur|
    ensures s.cur[i] in s.objs && KidsLive(s, s.objs[s.cur[i]])
  {
    assert s.cur[i] in s.cur;
    assert Marked(s, s.cur[i]);
  }

  lemma ScanOneKeeps(s: State)
    requires Core(s) && s.on && s.scan < |s.cur|
    ensures s.cur[s.scan] in s.objs
    ensures Core(ScanOne(s)) && Grew(s, ScanOne(s)) && ScanOne(s).scan == s.scan + 1
  {
    hide Core;
    QueuedIsLive(s, s.scan);
    var p := s.cur[s.scan];
    var o := s.objs[p];
    if o.Table? {
      ShadeKvsKeeps(s, o.kvs, |o.kvs|);
      var t := ShadeKvs(s, o.kvs, |o.kvs|);
      assert t.cur[s.scan] == p;
      AdvanceKeeps(t);
    } else {
      AdvanceKeeps(s);
    }
  }

  lemma AdvanceKeeps(s: State)
    requires Core(s) && s.on && s.scan < |s.cur|
    requires Clean(s, s.cur[s.scan])
    ensures Core(s.(scan := s.scan + 1))
  {
    var t := s.(scan := s.scan + 1);
    forall i | 0 <= i < t.scan ensures Clean(t, t.cur[i]) {
      assert t.cur[i] in t.cur;
      assert Clean(s, s.cur[i]);
      assert forall q :: Marked(s, q) ==> Marked(t, q);
    }
    forall p | p in t.objs ensures KidsLive(t, t.objs[p]) { assert KidsLive(s, s.objs[p]); }
  }

  lemma {:induction false} ScanUpToKeeps(s: State, k: nat)
    requires Core(s) && s.on && s.scan <= |s.cur|
    ensures var t := ScanUpTo(s, k);
      && Core(t) && Grew(s, t) && s.scan <= t.scan <= |t.cur|
      && (t.scan == |t.cur| || t.scan == s.scan + k)
    decreases k
  {
    hide Core;
    if k != 0 && s.scan < |s.cur| {
      ScanOneKeeps(s);
      ScanUpToKeeps(ScanOne(s), k - 1);
    }
  }

  lemma BeginKeeps(s: State)
    requires Core(s)
    ensures !s.on ==> Inv(Begin(s)) && Grew(Flip(s), Begin(s)) && Begin(s).scan == 0
  {
    if !s.on {
      var t := Flip(s);
      assert Core(t) by {
        assert forall p :: p in t.objs ==> t.area[p] == t.a1;
        forall p | p in t.objs ensures KidsLive(t, t.objs[p]) { assert KidsLive(s, s.objs[p]); }
      }
      ShadeMarksKeeps(t, s.marks, |s.marks|);
    }
  }
}
