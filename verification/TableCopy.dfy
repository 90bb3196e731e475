/** What Tcopy of cmd/lefty/tbl.c makes: a deep copy that keeps sharing and cycles.  `Copier.dfy` has the
    code that makes it. */
module TableCopy {
  import C = Collector
  import opened Table

  type Ref = C.Ref

  datatype Tab = Tab(n: nat, ls: seq<List>)

  type Heap = map<Ref, Tab>

  // ---- the shape of a copy ----

  /** What a copied value is: a table becomes its copy, anything else stays the same object. */
  predicate VoImage(src: Heap, m: map<Ref, Ref>, v: Ptr, w: Ptr) {
    if v.At? && v.p in src then v.p in m && w == C.At(m[v.p]) else w == v
  }

  /** An entry with a null value cannot be copied: its type is read. */
  predicate EntryImage(src: Heap, m: map<Ref, Ref>, e: Entry, f: Entry) {
    e.vo.At? && f.ko == e.ko && f.key == e.key && VoImage(src, m, e.vo, f.vo)
  }

  /** The first k entries of a list are copied, into a list with as much room. */
  ghost predicate ListImage(src: Heap, m: map<Ref, Ref>, l: List, c: List, k: nat) {
    && (l.NoList? <==> c.NoList?)
    && (l.List? ==> c.n == l.n && |c.kv| == k <= |l.kv|)
    && (l.List? ==> forall j :: 0 <= j < k ==> EntryImage(src, m, l.kv[j], c.kv[j]))
  }

  /** Buckets before i are copied, and k entries of bucket i. */
  ghost predicate PartImage(src: Heap, m: map<Ref, Ref>, t: Tab, c: Tab, i: nat, k: nat) {
    && c.n == t.n && |c.ls| == |t.ls|
    && forall b :: 0 <= b < |t.ls| ==>
      ListImage(src, m, t.ls[b], c.ls[b], if b < i then |Kv(t.ls[b])| else if b == i then k else 0)
  }

  ghost predicate Image(src: Heap, m: map<Ref, Ref>, t: Tab, c: Tab) {
    PartImage(src, m, t, c, |t.ls|, 0)
  }

  ghost predicate Extends(m: map<Ref, Ref>, n: map<Ref, Ref>) {
    forall f :: f in m ==> f in n && n[f] == m[f]
  }

  lemma PartGrows(src: Heap, m: map<Ref, Ref>, n: map<Ref, Ref>, t: Tab, c: Tab, i: nat, k: nat)
    requires PartImage(src, m, t, c, i, k) && Extends(m, n)
    ensures PartImage(src, n, t, c, i, k)
  {
    forall b | 0 <= b < |t.ls|
      ensures ListImage(src, n, t.ls[b], c.ls[b], if b < i then |Kv(t.ls[b])| else if b == i then k else 0)
    {
      assert ListImage(src, m, t.ls[b], c.ls[b], if b < i then |Kv(t.ls[b])| else if b == i then k else 0);
    }
  }

  /** One more entry. */
  lemma PartEntry(src: Heap, m: map<Ref, Ref>, t: Tab, c: Tab, i: nat, k: nat, f: Entry)
    requires PartImage(src, m, t, c, i, k) && i < |t.ls| && t.ls[i].List? && k < |t.ls[i].kv|
    requires EntryImage(src, m, t.ls[i].kv[k], f)
    ensures c.ls[i].List?
    ensures PartImage(src, m, t, c.(ls := c.ls[i := List(c.ls[i].n, c.ls[i].kv + [f])]), i, k + 1)
  {
    assert ListImage(src, m, t.ls[i], c.ls[i], k);
    var d := c.(ls := c.ls[i := List(c.ls[i].n, c.ls[i].kv + [f])]);
    forall b | 0 <= b < |t.ls|
      ensures ListImage(src, m, t.ls[b], d.ls[b], if b < i then |Kv(t.ls[b])| else if b == i then k + 1 else 0)
    {
      assert ListImage(src, m, t.ls[b], c.ls[b], if b < i then |Kv(t.ls[b])| else if b == i then k else 0);
    }
  }

  /** On to the next bucket. */
  lemma PartBucket(src: Heap, m: map<Ref, Ref>, t: Tab, c: Tab, i: nat)
    requires i < |t.ls| && PartImage(src, m, t, c, i, |Kv(t.ls[i])|)
    ensures PartImage(src, m, t, c, i + 1, 0)
  {
    forall b | 0 <= b < |t.ls|
      ensures ListImage(src, m, t.ls[b], c.ls[b], if b < i + 1 then |Kv(t.ls[b])| else 0)
    {
      assert ListImage(src, m, t.ls[b], c.ls[b], if b < i then |Kv(t.ls[b])| else if b == i then |Kv(t.ls[i])| else 0);
    }
  }

  /** The table before the copying loop: as many buckets, each with its room but no entry. */
  function Bare(l: List): List {
    if l.NoList? then NoList else List(l.n, [])
  }

  // ---- what may be copied ----

  ghost predicate HasVo(t: Tab, v: Ptr) {
    exists b, j :: 0 <= b < |t.ls| && 0 <= j < |Kv(t.ls[b])| && Kv(t.ls[b])[j].vo == v
  }

  /** The source: the tables that can be got to from the root, and the other objects that they hold. */
  datatype Source = Source(src: Heap, root: Ref, scal: set<Ref>)

  ghost predicate Closed(s: Source) {
    && s.root in s.src && s.src.Keys !! s.scal
    && forall f :: f in s.src ==> Reach(s.src, s.root, f) && TabClosed(s, s.src[f])
  }

  ghost predicate TabClosed(s: Source, t: Tab) {
    forall b, j :: 0 <= b < |t.ls| && 0 <= j < |Kv(t.ls[b])| ==> VoClosed(s, Kv(t.ls[b])[j].vo)
  }

  ghost predicate VoClosed(s: Source, v: Ptr) {
    v.At? ==> v.p in s.src || v.p in s.scal
  }

  ghost predicate ReachIn(src: Heap, root: Ref, f: Ref, n: nat)
    decreases n
  {
    if n == 0 then f == root
    else exists g :: ReachIn(src, root, g, n - 1) && g in src && f in src && HasVo(src[g], C.At(f))
  }

  /** The table f can be got to from the root. */
  ghost predicate Reach(src: Heap, root: Ref, f: Ref) {
    exists n: nat :: ReachIn(src, root, f, n)
  }

  lemma ReachMore(src: Heap, root: Ref, g: Ref, f: Ref)
    requires Reach(src, root, g) && g in src && f in src && HasVo(src[g], C.At(f))
    ensures Reach(src, root, f)
  {
    var n: nat :| ReachIn(src, root, g, n);
    assert ReachIn(src, root, f, n + 1);
  }

  lemma {:induction false} ReachHere(h: Heap, src: Heap, root: Ref, f: Ref, n: nat)
    requires ReachIn(h, root, f, n) && root in h
    requires src == map p | p in h && Reach(h, root, p) :: h[p]
    ensures f in src && ReachIn(src, root, f, n)
    decreases n
  {
    assert Reach(h, root, f);
    hide HasVo;
    if n > 0 {
      var g :| ReachIn(h, root, g, n - 1) && g in h && f in h && HasVo(h[g], C.At(f));
      ReachHere(h, src, root, g, n - 1);
    }
  }

  function Values(t: Tab): set<Ref> {
    set b, j | 0 <= b < |t.ls| && 0 <= j < |Kv(t.ls[b])| && Kv(t.ls[b])[j].vo.At? :: Kv(t.ls[b])[j].vo.p
  }

  /** What Tcopy of a table is to copy. */
  ghost function SourceOf(h: Heap, root: Ref): Source {
    var src := map p | p in h && Reach(h, root, p) :: h[p];
    Source(src, root, set f, p | f in src && p in Values(src[f]) && p !in src :: p)
  }

  lemma SourceClosed(h: Heap, root: Ref)
    requires root in h
    ensures var s := SourceOf(h, root);
      Closed(s) && s.scal !! h.Keys && forall p :: p in s.src ==> p in h && s.src[p] == h[p]
  {
    var s := SourceOf(h, root);
    assert ReachIn(h, root, root, 0);
    hide ReachIn;
    forall f | f in s.src ensures Reach(s.src, root, f) && TabClosed(s, s.src[f]) {
      var n: nat :| ReachIn(h, root, f, n);
      ReachHere(h, s.src, root, f, n);
      forall b, j | 0 <= b < |s.src[f].ls| && 0 <= j < |Kv(s.src[f].ls[b])|
        ensures VoClosed(s, Kv(s.src[f].ls[b])[j].vo)
      {
        var v := Kv(s.src[f].ls[b])[j].vo;
        if v.At? { assert v.p in Values(s.src[f]); }
      }
    }
    forall p | p in s.scal ensures p !in h {
      var f :| f in s.src && p in Values(s.src[f]) && p !in s.src;
      var b, j :| 0 <= b < |s.src[f].ls| && 0 <= j < |Kv(s.src[f].ls[b])| && Kv(s.src[f].ls[b])[j].vo == C.At(p);
      assert HasVo(h[f], C.At(p));
      if p in h { ReachMore(h, root, f, p); }
    }
  }

  // ---- the state while copying ----

  datatype State = State(tabs: Heap, copies: map<Ref, Ref>)

  /** The source is as it was; each copied table has a new table of its own. */
  ghost predicate Inv(s: Source, t: State) {
    && Closed(s) && t.copies.Keys <= s.src.Keys && t.tabs.Keys !! s.scal
    && (forall p :: p in s.src ==> p in t.tabs && t.tabs[p] == s.src[p])
    && (forall f :: f in t.copies ==> t.copies[f] in t.tabs && t.copies[f] !in s.src)
    && (forall f, g :: f in t.copies && g in t.copies && t.copies[f] == t.copies[g] ==> f == g)
  }

  /** Every copied table but those in `open` is finished. */
  ghost predicate AllDone(src: Heap, t: State, open: set<Ref>) {
    forall f :: f in t.copies && f !in open ==>
      f in src && t.copies[f] in t.tabs && Image(src, t.copies, src[f], t.tabs[t.copies[f]])
  }

  /** The copies that were there are as they were, but for that of x. */
  ghost predicate KeptBut(t: State, u: State, x: set<Ref>) {
    && Extends(t.copies, u.copies)
    && forall f :: f in t.copies && f !in x && t.copies[f] in t.tabs ==>
      t.copies[f] in u.tabs && u.tabs[t.copies[f]] == t.tabs[t.copies[f]]
  }

  /** The tables that are left after a collection. */
  ghost predicate Left(s: Source, t: State, h: Heap) {
    && (forall p :: p in h ==> p in t.tabs && h[p] == t.tabs[p])
    && (forall p :: p in s.src && p in t.tabs ==> p in h)
    && (forall f :: f in t.copies && t.copies[f] in t.tabs ==> t.copies[f] in h)
  }

  /** Mnew of a table, which may free others, and mapinsert. */
  function Fresh(t: State, h: Heap, fm: Ref, to: Ref): State {
    State(h[to := Tab(0, [])], t.copies[fm := to])
  }

  lemma FreshKeeps(s: Source, t: State, h: Heap, fm: Ref, to: Ref, open: set<Ref>)
    requires Inv(s, t) && AllDone(s.src, t, open) && fm in s.src && fm !in t.copies
    requires Left(s, t, h) && to !in h && to !in s.scal
    ensures var u := Fresh(t, h, fm, to);
      && Inv(s, u) && AllDone(s.src, u, open + {fm}) && KeptBut(t, u, {})
      && s.src.Keys - u.copies.Keys < s.src.Keys - t.copies.Keys
  {
    hide Inv, AllDone;
    FreshInv(s, t, h, fm, to);
    FreshDone(s, t, h, fm, to, open);
    assert fm in s.src.Keys - t.copies.Keys && fm !in s.src.Keys - Fresh(t, h, fm, to).copies.Keys;
  }

  lemma FreshInv(s: Source, t: State, h: Heap, fm: Ref, to: Ref)
    requires Inv(s, t) && fm in s.src && fm !in t.copies && Left(s, t, h) && to !in h && to !in s.scal
    ensures Inv(s, Fresh(t, h, fm, to)) && KeptBut(t, Fresh(t, h, fm, to), {})
  {
    hide Closed;
    FreshParts(s, t, h, fm, to);
    var u := Fresh(t, h, fm, to);
    hide Left;
    forall f, g | f in u.copies && g in u.copies && u.copies[f] == u.copies[g] ensures f == g {
      if f != fm && g != fm { assert t.copies[f] == t.copies[g]; }
    }
  }

  lemma FreshParts(s: Source, t: State, h: Heap, fm: Ref, to: Ref)
    requires Inv(s, t) && fm !in t.copies && Left(s, t, h) && to !in h
    ensures forall f :: f in t.copies ==> t.copies[f] in h && t.copies[f] != to && h[t.copies[f]] == t.tabs[t.copies[f]]
    ensures forall p :: p in s.src ==> p in h && p != to && h[p] == s.src[p]
    ensures forall p :: p in h ==> p in t.tabs
  {
    hide Closed;
  }

  lemma FreshDone(s: Source, t: State, h: Heap, fm: Ref, to: Ref, open: set<Ref>)
    requires Inv(s, t) && AllDone(s.src, t, open) && fm !in t.copies && Left(s, t, h) && to !in h
    ensures AllDone(s.src, Fresh(t, h, fm, to), open + {fm})
  {
    hide Image, Closed;
    var u := Fresh(t, h, fm, to);
    forall f | f in u.copies && f !in open + {fm}
      ensures f in s.src && u.copies[f] in u.tabs && Image(s.src, u.copies, s.src[f], u.tabs[u.copies[f]])
    {
      assert t.copies[f] in h;
      ImageGrows(s.src, t.copies, u.copies, s.src[f], t.tabs[t.copies[f]]);
    }
  }

  lemma ImageGrows(src: Heap, m: map<Ref, Ref>, n: map<Ref, Ref>, t: Tab, c: Tab)
    requires Image(src, m, t, c) && Extends(m, n)
    ensures Image(src, n, t, c)
  {
    PartGrows(src, m, n, t, c, |t.ls|, 0);
  }

  /** A store into the copy of fm. */
  lemma StoreKeeps(s: Source, t: State, fm: Ref, c: Tab, open: set<Ref>)
    requires Inv(s, t) && fm in t.copies && fm in open && AllDone(s.src, t, open)
    ensures var u := t.(tabs := t.tabs[t.copies[fm] := c]);
      Inv(s, u) && AllDone(s.src, u, open) && KeptBut(t, u, {fm})
  {
    hide Image, TabClosed, Reach;
  }

  lemma KeptTrans(t: State, u: State, v: State, x: set<Ref>)
    requires KeptBut(t, u, x) && KeptBut(u, v, x)
    ensures KeptBut(t, v, x)
  {
  }

  lemma KeptMore(t: State, u: State, x: set<Ref>, y: set<Ref>)
    requires KeptBut(t, u, x) && x <= y
    ensures KeptBut(t, u, y)
  {
  }

  /** reccopytable(fm, to) has copied the buckets before i and k entries of bucket i. */
  ghost predicate Copying(s: Source, t0: State, t: State, fm: Ref, open: set<Ref>, i: nat, k: nat) {
    && Inv(s, t) && AllDone(s.src, t, open + {fm}) && KeptBut(t0, t, {fm})
    && fm in t0.copies && fm in s.src && t.copies[fm] in t.tabs
    && PartImage(s.src, t.copies, s.src[fm], t.tabs[t.copies[fm]], i, k)
  }

  lemma CopyStarts(s: Source, t: State, fm: Ref, c: Tab, open: set<Ref>)
    requires Inv(s, t) && fm in t.copies && fm in s.src && AllDone(s.src, t, open + {fm})
    requires c.n == s.src[fm].n && |c.ls| == |s.src[fm].ls|
    requires forall b :: 0 <= b < |c.ls| ==> c.ls[b] == Bare(s.src[fm].ls[b])
    ensures Copying(s, t, t.(tabs := t.tabs[t.copies[fm] := c]), fm, open, 0, 0)
  {
    hide Inv, AllDone;
    StoreKeeps(s, t, fm, c, open + {fm});
  }

  /** One entry: the value was copied, then the entry is stored. */
  lemma CopyMoves(s: Source, t0: State, t: State, u: State, fm: Ref, open: set<Ref>, i: nat, k: nat, w: Ptr)
    requires Copying(s, t0, t, fm, open, i, k) && i < |s.src[fm].ls| && k < |Kv(s.src[fm].ls[i])|
    requires Inv(s, u) && AllDone(s.src, u, open + {fm}) && KeptBut(t, u, {})
    requires var v := Kv(s.src[fm].ls[i])[k].vo; v.At? && VoImage(s.src, u.copies, v, w)
    ensures var to := u.copies[fm];
      && to in u.tabs && i < |u.tabs[to].ls| && u.tabs[to].ls[i].List?
      && var l, e := u.tabs[to].ls[i], Kv(s.src[fm].ls[i])[k].(vo := w);
      Copying(s, t0, u.(tabs := u.tabs[to := u.tabs[to].(ls := u.tabs[to].ls[i := List(l.n, l.kv + [e])])]), fm,
        open, i, k + 1)
  {
    CopyMoved(s, t0, t, u, fm, open, i, k);
    hide Inv, AllDone, PartImage, KeptBut;
    var to := u.copies[fm];
    PartHas(s.src, u.copies, s.src[fm], u.tabs[to], i, k);
    var e := Kv(s.src[fm].ls[i])[k].(vo := w);
    PartEntry(s.src, u.copies, s.src[fm], u.tabs[to], i, k, e);
    var l := u.tabs[to].ls[i];
    var c := u.tabs[to].(ls := u.tabs[to].ls[i := List(l.n, l.kv + [e])]);
    StoreKeeps(s, u, fm, c, open + {fm});
    KeptTrans(t0, u, u.(tabs := u.tabs[to := c]), {fm});
  }

  /** The copy of the value has not touched the copy in the making. */
  lemma CopyMoved(s: Source, t0: State, t: State, u: State, fm: Ref, open: set<Ref>, i: nat, k: nat)
    requires Copying(s, t0, t, fm, open, i, k) && KeptBut(t, u, {})
    ensures fm in u.copies && u.copies[fm] in u.tabs && KeptBut(t0, u, {fm})
    ensures PartImage(s.src, u.copies, s.src[fm], u.tabs[u.copies[fm]], i, k)
  {
    hide Inv, AllDone, PartImage;
    PartGrows(s.src, t.copies, u.copies, s.src[fm], t.tabs[t.copies[fm]], i, k);
    KeptMore(t, u, {}, {fm});
    KeptTrans(t0, t, u, {fm});
  }

  lemma PartHas(src: Heap, m: map<Ref, Ref>, t: Tab, c: Tab, i: nat, k: nat)
    requires PartImage(src, m, t, c, i, k) && i < |t.ls| && k < |Kv(t.ls[i])|
    ensures i < |c.ls| && c.ls[i].List?
  {
    assert ListImage(src, m, t.ls[i], c.ls[i], k);
  }

  lemma CopyEnds(s: Source, t0: State, t: State, fm: Ref, open: set<Ref>)
    requires fm in s.src && Copying(s, t0, t, fm, open, |s.src[fm].ls|, 0)
    ensures Inv(s, t) && AllDone(s.src, t, open) && KeptBut(t0, t, {fm})
  {
    hide Inv, PartImage, KeptBut;
  }

  lemma CopyingMeans(s: Source, t0: State, t: State, fm: Ref, open: set<Ref>, i: nat, k: nat)
    requires Copying(s, t0, t, fm, open, i, k)
    ensures Inv(s, t) && AllDone(s.src, t, open + {fm}) && fm in t.copies && t.copies[fm] == t0.copies[fm]
    ensures fm in s.src && t.copies[fm] in t.tabs && Extends(t0.copies, t.copies)
  {
    hide Inv, AllDone, PartImage;
  }

  lemma CopyingNext(s: Source, t0: State, t: State, fm: Ref, open: set<Ref>, i: nat)
    requires fm in s.src && i < |s.src[fm].ls| && Copying(s, t0, t, fm, open, i, |Kv(s.src[fm].ls[i])|)
    ensures Copying(s, t0, t, fm, open, i + 1, 0)
  {
    hide Inv, AllDone, PartImage;
    PartBucket(s.src, t.copies, s.src[fm], t.tabs[t.copies[fm]], i);
  }

  lemma InvMeans(s: Source, t: State, fm: Ref)
    requires Inv(s, t) && fm in t.copies
    ensures fm in s.src && fm in t.tabs && t.tabs[fm] == s.src[fm] && t.copies[fm] in t.tabs && t.copies[fm] !in s.src
  {
  }

  /** What a table of the source holds is in the source. */
  lemma EntryClosed(s: Source, fm: Ref, i: nat, k: nat)
    requires Closed(s) && fm in s.src && i < |s.src[fm].ls| && k < |Kv(s.src[fm].ls[i])|
    ensures var v := Kv(s.src[fm].ls[i])[k].vo; VoClosed(s, v) && HasVo(s.src[fm], v)
  {
    assert TabClosed(s, s.src[fm]);
  }

  lemma StartInv(s: Source, t: State)
    requires Closed(s) && t.tabs.Keys !! s.scal && t.copies == map[]
    requires forall p :: p in s.src ==> p in t.tabs && t.tabs[p] == s.src[p]
    ensures Inv(s, t) && AllDone(s.src, t, {})
  {
  }

  // ---- what a copy is ----

  /** The map m leads from exactly the tables that can be reached to new tables of their own, and each
      new table is the image of the old one; these are as they were. */
  ghost predicate Copied(s: Source, tabs: Heap, m: map<Ref, Ref>) {
    && Closed(s) && tabs.Keys !! s.scal && m.Keys == s.src.Keys
    && (forall p :: p in s.src ==> p in tabs && tabs[p] == s.src[p])
    && (forall f :: f in m ==> m[f] in tabs && m[f] !in s.src)
    && (forall f, g :: f in m && g in m && m[f] == m[g] ==> f == g)
    && (forall f :: f in m ==> Image(s.src, m, s.src[f], tabs[m[f]]))
  }

  /** The tables in an image are mapped. */
  lemma ImageHas(src: Heap, m: map<Ref, Ref>, t: Tab, c: Tab, g: Ref)
    requires Image(src, m, t, c) && g in src && HasVo(t, C.At(g))
    ensures g in m
  {
    var b, j :| 0 <= b < |t.ls| && 0 <= j < |Kv(t.ls[b])| && Kv(t.ls[b])[j].vo == C.At(g);
    assert ListImage(src, m, t.ls[b], c.ls[b], |Kv(t.ls[b])|);
    assert EntryImage(src, m, t.ls[b].kv[j], c.ls[b].kv[j]);
  }

  lemma {:induction false} AllReached(s: Source, t: State, f: Ref, n: nat)
    requires Inv(s, t) && AllDone(s.src, t, {}) && s.root in t.copies && ReachIn(s.src, s.root, f, n)
    ensures f in t.copies
    decreases n
  {
    hide Image, TabClosed, Reach, HasVo;
    if n > 0 {
      var g :| ReachIn(s.src, s.root, g, n - 1) && g in s.src && f in s.src && HasVo(s.src[g], C.At(f));
      AllReached(s, t, g, n - 1);
      ImageHas(s.src, t.copies, s.src[g], t.tabs[t.copies[g]], f);
    }
  }

  lemma EndCopied(s: Source, t: State)
    requires Inv(s, t) && AllDone(s.src, t, {}) && s.root in t.copies
    ensures Copied(s, t.tabs, t.copies)
  {
    hide Image, TabClosed;
    forall f | f in s.src ensures f in t.copies {
      assert Reach(s.src, s.root, f);
      var n: nat :| ReachIn(s.src, s.root, f, n);
      AllReached(s, t, f, n);
    }
  }

  // ---- the copy seen through keys ----

  lemma {:induction false} FlatImage(src: Heap, m: map<Ref, Ref>, ls: seq<List>, cs: seq<List>)
    requires |ls| == |cs| && forall b :: 0 <= b < |ls| ==> ListImage(src, m, ls[b], cs[b], |Kv(ls[b])|)
    ensures |Flat(ls)| == |Flat(cs)|
    ensures forall i :: 0 <= i < |Flat(ls)| ==> EntryImage(src, m, Flat(ls)[i], Flat(cs)[i])
  {
    if ls != [] {
      var n := |ls| - 1;
      FlatImage(src, m, ls[..n], cs[..n]);
      assert ListImage(src, m, ls[n], cs[n], |Kv(ls[n])|);
    }
  }

  lemma {:induction false} MapImage(src: Heap, m: map<Ref, Ref>, es: seq<Entry>, fs: seq<Entry>, x: Name)
    requires |es| == |fs| && forall i :: 0 <= i < |es| ==> EntryImage(src, m, es[i], fs[i])
    ensures x in MapOf(es) <==> x in MapOf(fs)
    ensures x in MapOf(es) ==> VoImage(src, m, MapOf(es)[x], MapOf(fs)[x])
  {
    if es != [] {
      var n := |es| - 1;
      assert EntryImage(src, m, es[n], fs[n]);
      forall i | 0 <= i < n ensures EntryImage(src, m, es[..n][i], fs[..n][i]) {
        assert EntryImage(src, m, es[i], fs[i]);
      }
      MapImage(src, m, es[..n], fs[..n], x);
    }
  }

  /** A key finds in the copy of a table the copy of what it finds in the table. */
  lemma CopyFinds(src: Heap, m: map<Ref, Ref>, t: Tab, c: Tab, x: Name)
    requires Image(src, m, t, c)
    ensures x in MapOf(Flat(t.ls)) <==> x in MapOf(Flat(c.ls))
    ensures x in MapOf(Flat(t.ls)) ==> VoImage(src, m, MapOf(Flat(t.ls))[x], MapOf(Flat(c.ls))[x])
  {
    forall b | 0 <= b < |t.ls| ensures ListImage(src, m, t.ls[b], c.ls[b], |Kv(t.ls[b])|) {}
    FlatImage(src, m, t.ls, c.ls);
    MapImage(src, m, Flat(t.ls), Flat(c.ls), x);
  }

  /** The buckets of the copy are as good as those of the table. */
  lemma CopyOk(src: Heap, m: map<Ref, Ref>, t: Tab, c: Tab)
    requires Image(src, m, t, c) && TableOk(t.ls, t.n)
    ensures TableOk(c.ls, c.n)
  {
    hide Index;
    forall b | 0 <= b < |t.ls|
      ensures ListImage(src, m, t.ls[b], c.ls[b], |Kv(t.ls[b])|) && ListOk(c.ls[b], b, |c.ls|)
    {
      assert ListImage(src, m, t.ls[b], c.ls[b], |Kv(t.ls[b])|);
      assert ListOk(t.ls[b], b, |t.ls|);
      forall j | 0 <= j < |Kv(c.ls[b])| ensures Kv(c.ls[b])[j].key == Kv(t.ls[b])[j].key {
        assert EntryImage(src, m, Kv(t.ls[b])[j], Kv(c.ls[b])[j]);
      }
    }
    FlatImage(src, m, t.ls, c.ls);
  }

  /** What a chain of keys leads to, with a table at every key but the last. */
  function Follow(h: Heap, v: Ptr, path: seq<Name>): Ptr
    decreases |path|
  {
    if path == [] then v
    else if v.At? && v.p in h && path[0] in MapOf(Flat(h[v.p].ls)) then
      Follow(h, MapOf(Flat(h[v.p].ls))[path[0]], path[1..])
    else C.Null
  }

  lemma ValueClosed(s: Source, t: Tab, x: Name)
    requires TabClosed(s, t) && x in MapOf(Flat(t.ls))
    ensures VoClosed(s, MapOf(Flat(t.ls))[x]) && HasVo(t, MapOf(Flat(t.ls))[x])
  {
    MapFrom(Flat(t.ls), x);
    var i :| 0 <= i < |Flat(t.ls)| && Flat(t.ls)[i].vo == MapOf(Flat(t.ls))[x];
    FlatFrom(t.ls, i);
  }

  lemma {:induction false} MapFrom(es: seq<Entry>, x: Name)
    requires x in MapOf(es)
    ensures exists i :: 0 <= i < |es| && es[i].vo == MapOf(es)[x]
  {
    var n := |es| - 1;
    if NameOf(es[n].key) == x {
      assert es[n].vo == MapOf(es)[x];
    } else {
      MapFrom(es[..n], x);
      var i :| 0 <= i < n && es[..n][i].vo == MapOf(es)[x];
      assert es[i].vo == MapOf(es)[x];
    }
  }

  lemma {:induction false} FlatFrom(ls: seq<List>, i: nat)
    requires i < |Flat(ls)|
    ensures exists b, j :: 0 <= b < |ls| && 0 <= j < |Kv(ls[b])| && Kv(ls[b])[j] == Flat(ls)[i]
  {
    var n := |ls| - 1;
    if i < |Flat(ls[..n])| {
      FlatFrom(ls[..n], i);
      var b, j :| 0 <= b < n && 0 <= j < |Kv(ls[..n][b])| && Kv(ls[..n][b])[j] == Flat(ls)[i];
      assert Kv(ls[b])[j] == Flat(ls)[i];
    } else {
      assert Kv(ls[n])[i - |Flat(ls[..n])|] == Flat(ls)[i];
    }
  }

  /** Every chain of keys leads in the copy to the copy of what it leads to in the source. */
  lemma {:induction false} PathsCopied(s: Source, tabs: Heap, m: map<Ref, Ref>, f: Ref, path: seq<Name>)
    requires Copied(s, tabs, m) && f in m
    ensures VoImage(s.src, m, Follow(s.src, C.At(f), path), Follow(tabs, C.At(m[f]), path))
    ensures VoClosed(s, Follow(s.src, C.At(f), path))
    decreases |path|
  {
    hide Reach, HasVo, MapOf, Flat, Image, TabClosed;
    if path != [] {
      CopyFinds(s.src, m, s.src[f], tabs[m[f]], path[0]);
      if path[0] in MapOf(Flat(s.src[f].ls)) {
        var v := MapOf(Flat(s.src[f].ls))[path[0]];
        ValueClosed(s, s.src[f], path[0]);
        if v.At? && v.p in s.src {
          PathsCopied(s, tabs, m, v.p, path[1..]);
        } else if v.At? {
          assert v.p in s.scal && v.p !in tabs;
        }
      }
    }
  }

  /** Two chains of keys meet in one table of the copy exactly when they meet in the source: sharing
      and cycles are the same. */
  lemma SharingKept(s: Source, tabs: Heap, m: map<Ref, Ref>, p: seq<Name>, q: seq<Name>)
    requires Copied(s, tabs, m) && s.root in m
    ensures var a, b := Follow(s.src, C.At(s.root), p), Follow(s.src, C.At(s.root), q);
      var c, d := Follow(tabs, C.At(m[s.root]), p), Follow(tabs, C.At(m[s.root]), q);
      (a == b <==> c == d) && !(c.At? && c.p in s.src)
  {
    hide Reach, Image, TabClosed, Follow;
    PathsCopied(s, tabs, m, s.root, p);
    PathsCopied(s, tabs, m, s.root, q);
  }
}
