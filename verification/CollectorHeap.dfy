/** The collector of cmd/lefty/mem.c in its own form: global tables and counters that the
    functions update in place, proved equal to the operations of `Collector`. */
module CollectorHeap {
  import opened Collector
  import opened CollectorRuns

  /** The state when the sweep loop has gone through the first n entries of the old queue. */
  ghost function Freed(s: State, n: nat): State
    requires n <= |s.prev|
  {
    s.(objs := map p | p in s.objs && (Marked(s, p) || p !in s.prev[..n]) :: s.objs[p],
       area := map p | p in s.area && (Marked(s, p) || p !in s.prev[..n]) :: s.area[p])
  }

  lemma FreedNone(s: State)
    ensures Freed(s, 0) == s
  {
    assert Freed(s, 0).objs == s.objs && Freed(s, 0).area == s.area;
  }

  lemma FreedOne(s: State, n: nat)
    requires Inv(s) && s.on && n < |s.prev|
    ensures var t, p := Freed(s, n), s.prev[n];
      && t.prev == s.prev && t.a1 == s.a1
      && p in t.area && Freed(s, n + 1) ==
           if t.area[p] == t.a1 then t.(objs := t.objs - {p}, area := t.area - {p}) else t
  {
    var t, p, u := Freed(s, n), s.prev[n], Freed(s, n + 1);
    assert s.prev[..n + 1] == s.prev[..n] + [p];
    assert p in s.prev && p !in s.prev[..n];
    if t.area[p] == t.a1 {
      assert u.objs == t.objs - {p} && u.area == t.area - {p};
    } else {
      assert Marked(s, p);
      assert u.objs == t.objs && u.area == t.area;
    }
  }

  lemma FreedAll(s: State)
    requires Inv(s) && s.on
    ensures Freed(s, |s.prev|).(on := false) == Sweep(s)
  {
    var t := Freed(s, |s.prev|);
    assert s.prev[..|s.prev|] == s.prev;
    assert t.objs == Sweep(s).objs && t.area == Sweep(s).area;
  }

  lemma MarksLive(s: State)
    requires Inv(s)
    ensures s.objs.Keys == s.area.Keys && forall i :: 0 <= i < |s.marks| ==> Live(s, s.marks[i])
  {
  }

  lemma SameKeys(s: State)
    requires Core(s)
    ensures s.objs.Keys == s.area.Keys
  {
  }

  class Heap {
    var objs: map<Ref, Obj>
    var area: map<Ref, int>
    var markarray: seq<Ptr>
    var otarray0: seq<Ref>
    var otj: nat
    var otarray1: seq<Ref>
    var otarea0: int
    var otarea1: int
    var gcon: bool

    ghost function Abs(): State
      reads this
    {
      State(objs, area, markarray, otarray0, otj, otarray1, otarea0, otarea1, gcon)
    }

    /** Minit */
    constructor ()
      ensures Abs() == INITIAL && Inv(Abs())
    {
      objs, area, markarray := map[], map[], [];
      otarray0, otj, otarray1 := [], 0, [];
      otarea0, otarea1, gcon := 1, 2, false;
    }

    method Mmkcurr(x: Ptr)
      requires objs.Keys == area.Keys && Live(Abs(), x)
      modifies this`otarray0, this`area
      ensures Abs() == Shade(old(Abs()), x) && objs.Keys == area.Keys
    {
      if x.Null? || area[x.p] == otarea0 { return; }
      otarray0 := otarray0 + [x.p];
      area := area[x.p := otarea0];
    }

    method Mpushmark(x: Ptr) returns (m: nat)
      requires Inv(Abs()) && Live(Abs(), x)
      modifies this
      ensures Inv(Abs()) && Abs() == Push(old(Abs()), x)
      ensures m == |old(markarray)| && markarray == old(markarray) + [x] && objs == old(objs)
    {
      PushKeeps(Abs(), x);
      markarray := markarray + [x];
      if gcon { Mmkcurr(x); }
      m := |markarray| - 1;
    }

    method Mpopmark(m: int)
      requires Inv(Abs())
      modifies this`markarray
      ensures Inv(Abs()) && Abs() == Pop(old(Abs()), m)
      ensures markarray == if 0 <= m < |old(markarray)| then old(markarray)[..m] else old(markarray)
    {
      PopKeeps(Abs(), m);
      if 0 <= m < |markarray| { markarray := markarray[..m]; }
    }

    method Mresetmark(m: nat, x: Ptr)
      requires Inv(Abs()) && m < |markarray| && Live(Abs(), x)
      modifies this
      ensures Inv(Abs()) && Abs() == Reset(old(Abs()), m, x)
      ensures markarray == old(markarray)[m := x] && objs == old(objs)
    {
      ResetKeeps(Abs(), m, x);
      markarray := markarray[m := x];
      if gcon { Mmkcurr(x); }
    }

    /** Tgchelper */
    method Tgchelper(p: Ref)
      requires p in objs && objs[p].Table? && objs.Keys == area.Keys && KidsLive(Abs(), objs[p])
      modifies this`otarray0, this`area
      ensures Abs() == ShadeKvs(old(Abs()), objs[p].kvs, |objs[p].kvs|)
    {
      ghost var s := Abs();
      var kvs := objs[p].kvs;
      var j := 0;
      while j < |kvs|
        invariant j <= |kvs| && objs.Keys == area.Keys
        invariant Abs() == ShadeKvs(s, kvs, j)
      {
        assert KvLive(s, kvs[j]);
        Mmkcurr(kvs[j].ko);
        Mmkcurr(kvs[j].vo);
        j := j + 1;
      }
    }

    /** One round of the scan loops of Mdogc. */
    method ScanNext()
      requires Core(Abs()) && gcon && otj < |otarray0|
      modifies this
      ensures Core(Abs()) && Abs() == ScanOne(old(Abs()))
      ensures objs == old(objs) && gcon && otj == old(otj) + 1 <= |otarray0|
    {
      hide Core, ShadeKvs, KidsLive;
      ghost var s := Abs();
      QueuedIsLive(s, otj);
      SameKeys(s);
      ScanOneKeeps(s);
      var p := otarray0[otj];
      if objs[p].Table? { Tgchelper(p); }
      otj := otj + 1;
    }

    /** The start of Mdogc: swap the areas and queues and shade the mark stack. */
    method StartCycle()
      requires Inv(Abs()) && !gcon
      modifies this
      ensures Abs() == Begin(old(Abs()))
    {
      hide Inv, Core, Shade;
      ghost var s := Abs();
      MarksLive(s);
      gcon := true;
      otarray0, otarray1 := otarray1, otarray0;
      otarea0, otarea1 := otarea1, otarea0;
      otarray0, otj := [], 0;
      var i := 0;
      while i < |markarray|
        invariant i <= |markarray| && objs.Keys == area.Keys && objs == old(objs)
        invariant markarray == old(markarray)
        invariant Abs() == ShadeMarks(Flip(s), s.marks, i)
      {
        Mmkcurr(markarray[i]);
        i := i + 1;
      }
    }

    /** The end of Mdogc: free what the queue of the last cycle lists and this one left unmarked. */
    method FreeUnmarked()
      requires Inv(Abs()) && gcon
      modifies this
      ensures Abs() == Sweep(old(Abs()))
    {
      hide Inv, Freed, Sweep;
      ghost var s := Abs();
      FreedNone(s);
      var i := 0;
      while i < |otarray1|
        invariant i <= |otarray1| == |s.prev| && Inv(s) && s.on
        invariant Abs() == Freed(s, i)
      {
        var p := otarray1[i];
        FreedOne(s, i);
        if area[p] == otarea1 {
          objs, area := objs - {p}, area - {p};
        }
        i := i + 1;
      }
      FreedAll(s);
      gcon := false;
    }

    method Mdogc(amount: Amount)
      requires Inv(Abs())
      modifies this
      ensures Inv(Abs()) && Abs() == Dogc(old(Abs()), amount)
      ensures markarray == old(markarray) && (amount.Full? ==> !gcon) && (!gcon ==> otj == |otarray0|)
      ensures forall q :: Reachable(old(Abs()), q) ==> q in objs && q in old(objs) && objs[q] == old(objs)[q]
    {
      ghost var s := Abs();
      GcSafe(s, amount);
      ScannedKeeps(s, amount);
      BeginKeeps(s);
      if !gcon { StartCycle(); }
      ghost var t := Abs();
      if amount.Full? {
        ScanAll();
      } else {
        ScanSome(amount.k);
        if otj < |otarray0| { return; }
      }
      FreeUnmarked();
    }

    method ScanAll()
      requires Core(Abs()) && gcon && otj <= |otarray0|
      modifies this
      ensures Core(Abs()) && Abs() == ScanUpTo(old(Abs()), |old(objs)|) && otj == |otarray0|
    {
      hide Core, ScanOne;
      ghost var s := Abs();
      ghost var n := |objs|;
      QueueFits(Abs());
      while otj != |otarray0|
        invariant Core(Abs()) && gcon && objs == s.objs && otj <= |otarray0|
        invariant 0 <= n <= |objs| && |objs| - otj <= n
        invariant ScanUpTo(Abs(), n) == ScanUpTo(s, |s.objs|)
        decreases |objs| - otj
      {
        QueueFits(Abs());
        ScanNext();
        QueueFits(Abs());
        n := n - 1;
      }
    }

    method ScanSome(gcsteps: nat)
      requires Core(Abs()) && gcon && otj <= |otarray0|
      modifies this
      ensures Core(Abs()) && Abs() == ScanUpTo(old(Abs()), gcsteps) && otj <= |otarray0|
    {
      hide Core, ScanOne;
      ghost var s := Abs();
      var i := 0;
      while i < gcsteps && otj != |otarray0|
        invariant Core(Abs()) && gcon && i <= gcsteps && otj <= |otarray0|
        invariant ScanUpTo(Abs(), gcsteps - i) == ScanUpTo(s, gcsteps)
      {
        ScanNext();
        i := i + 1;
      }
    }

    /** Mnew, for the free cell p and the collection work r that the free lists call for. */
    method Mnew(p: Ref, o: Obj, r: Refill)
      requires Inv(Abs()) && Enabled(Abs(), OpAlloc(p, o, r))
      modifies this
      ensures Inv(Abs()) && Abs() == Alloc(old(Abs()), p, o, r) && Marked(Abs(), p)
      ensures p in objs && objs[p] == o && markarray == old(markarray)
      ensures r.Cell? && !old(gcon) ==> objs == old(objs)[p := o] && !gcon
    {
      PrepareKeeps(Abs(), r);
      PlaceKeeps(Prepare(Abs(), r), p, o);
      match r {
        case Cell(k) => if gcon { Mdogc(Steps(k)); }
        case Buffer(amount) => Mdogc(amount);
      }
      objs := objs[p := o];
      otarray0 := otarray0 + [p];
      area := area[p := otarea0];
    }
  }
}
