/** The loops that run over a batch of held pages: protect, write, return to the clean FIFOs,
    unlock. A page that the write leaves out keeps the structure intact and loses only its block. */
module Batches {
  import opened Params
  import opened Fifo
  import opened Placement
  import opened Lifecycle
  import opened Invariant
  import opened Coherence
  import opened Moves
  import opened Steps
  import opened Exactness
  import opened WriteBack
  import opened ListOrder

  // ---- blocks that are lost ------------------------------------------------------------------

  /** What is coherent with a memory is coherent with any part of it. */
  lemma Forget(s: State, mem: Memory, lost: set<Key>)
    requires Inv(s, mem)
    ensures Inv(s, mem - lost)
  {
    Recall(s, mem);
    forall p | 0 <= p < |s.pages| ensures PageCoherent(s.pages[p], s.disk, mem - lost) {
      assert PageCoherent(s.pages[p], s.disk, mem);
    }
    Establish(s, mem - lost);
  }

  /** Leaving a block out of a write keeps everything but that block. */
  lemma KeepDropBlock(s: State, mem: Memory, p: PageId)
    requires Inv(s, mem) && Enabled(s, DropBlock(p)) && KeyOf(s.pages[p]) !in mem
    ensures Inv(DoDropBlock(s, p), mem)
  {
    Local(s, p);
    InPlace(s, p, Written(s, p).pages[p]);
    DropExact(s, mem, p);
  }

  // ---- one change to every page of a batch ---------------------------------------------------

  /** The first n pages of the batch have been changed by f, and no other page. */
  ghost predicate Swept(old_: seq<Page>, pages: seq<Page>, b: seq<PageId>, n: nat, f: Page -> Page) {
    && |pages| == |old_| && n <= |b|
    && (forall i :: 0 <= i < n && b[i] < |pages| ==> pages[b[i]] == f(old_[b[i]]))
    && (forall p :: 0 <= p < |pages| && p !in b[..n] ==> pages[p] == old_[p])
  }

  lemma SweepNext(old_: seq<Page>, pages: seq<Page>, b: seq<PageId>, n: nat, f: Page -> Page)
    requires Swept(old_, pages, b, n, f) && n < |b| && NoDup(b) && b[n] < |pages|
    ensures pages[b[n]] == old_[b[n]]
    ensures Swept(old_, pages[b[n] := f(pages[b[n]])], b, n + 1, f)
  {
    assert b[n] !in b[..n];
    assert b[..n + 1] == b[..n] + [b[n]];
  }

  ghost predicate AllIn(s: State, b: seq<PageId>, f: Phase) {
    forall i :: 0 <= i < |b| ==> InPhase(s, b[i], f)
  }

  /** A batch as the write-back code holds it: distinct pages, all at point f. */
  ghost predicate Held(s: State, mem: Memory, b: seq<PageId>, f: Phase) {
    Inv(s, mem) && NoDup(b) && AllIn(s, b, f)
  }

  // ---- page tables ---------------------------------------------------------------------------

  /** The page tables once the pages in `gone` are mapped read-only, everything else as it was. */
  function ReadOnlyFor(maps: set<Mapping>, gone: seq<PageId>): set<Mapping> {
    set m | m in maps :: if m.page in gone then m.(writable := false) else m
  }

  /** x or its writable form is a mapping of a page in `gone`, or x of another page. */
  predicate MappedFor(maps: set<Mapping>, gone: seq<PageId>, x: Mapping) {
    if x.page in gone then !x.writable && (x in maps || x.(writable := true) in maps) else x in maps
  }

  /** The mappings of the pages in `gone` are all still there, and none is writable; those of other pages
      are the same. */
  lemma ReadOnlyHas(maps: set<Mapping>, gone: seq<PageId>, x: Mapping)
    ensures x in ReadOnlyFor(maps, gone) <==> MappedFor(maps, gone, x)
    ensures x.page in gone ==> (x in ReadOnlyFor(maps, gone) <==>
                                !x.writable && (x in maps || x.(writable := true) in maps))
    ensures x.page !in gone ==> (x in ReadOnlyFor(maps, gone) <==> x in maps)
  {
    if MappedFor(maps, gone, x) {
      var m := if x in maps then x else x.(writable := true);
      assert m in maps && x == if m.page in gone then m.(writable := false) else m;
    }
  }

  lemma ReadOnlyMore(maps: set<Mapping>, a: seq<PageId>, b: seq<PageId>)
    ensures ReadOnlyFor(ReadOnlyFor(maps, a), b) == ReadOnlyFor(maps, a + b)
  {
    var c := a + b;
    forall x ensures x in ReadOnlyFor(ReadOnlyFor(maps, a), b) <==> x in ReadOnlyFor(maps, c) {
      ReadOnlyHas(maps, a, x);
      ReadOnlyHas(maps, a, x.(writable := true));
      ReadOnlyHas(ReadOnlyFor(maps, a), b, x);
      ReadOnlyHas(maps, c, x);
    }
  }

  lemma ReadOnlyOne(maps: set<Mapping>, p: PageId)
    ensures WriteProtect(maps, p) == ReadOnlyFor(maps, [p])
  {
  }

  lemma ReadOnlyNone(maps: set<Mapping>)
    ensures ReadOnlyFor(maps, []) == maps
  {
    forall x ensures x in ReadOnlyFor(maps, []) <==> x in maps { ReadOnlyHas(maps, [], x); }
  }

  /** Nothing changes where nothing was writable. */
  lemma ReadOnlyAlready(maps: set<Mapping>, gone: seq<PageId>)
    requires forall m :: m in maps && m.page in gone ==> !m.writable
    ensures ReadOnlyFor(maps, gone) == maps
  {
    forall x ensures x in ReadOnlyFor(maps, gone) <==> x in maps { ReadOnlyHas(maps, gone, x); }
  }

  // ---- protect -------------------------------------------------------------------------------

  function Protected(r: Page): Page { r.(phase := EvProtected) }

  lemma ProtectOne(s: State, p: PageId)
    requires InPhase(s, p, EvOut)
    ensures Enabled(s, Protect(p)) && DoProtect(s, p).pages == s.pages[p := Protected(s.pages[p])]
    ensures DoProtect(s, p) == s.(pages := DoProtect(s, p).pages, maps := WriteProtect(s.maps, p))
  {
  }

  /** clear_mappings over the evictor's batch. */
  method ProtectAll(s0: State, b: seq<PageId>, ghost mem: Memory) returns (s: State)
    requires Held(s0, mem, b, EvOut)
    ensures Inv(s, mem) && Swept(s0.pages, s.pages, b, |b|, Protected)
    ensures s == s0.(pages := s.pages, maps := ReadOnlyFor(s0.maps, b))
  {
    s := s0;
    ReadOnlyNone(s0.maps);
    for n := 0 to |b|
      invariant Inv(s, mem) && Swept(s0.pages, s.pages, b, n, Protected)
      invariant s == s0.(pages := s.pages, maps := ReadOnlyFor(s0.maps, b[..n]))
    {
      SweepNext(s0.pages, s.pages, b, n, Protected);
      assert InPhase(s0, b[n], EvOut);
      ProtectOne(s, b[n]);
      KeepProtect(s, mem, b[n]);
      ReadOnlyNext(s0.maps, b, n);
      s := DoProtect(s, b[n]);
    }
    assert b[..|b|] == b;
  }

  lemma ReadOnlyNext(maps: set<Mapping>, b: seq<PageId>, n: nat)
    requires n < |b|
    ensures WriteProtect(ReadOnlyFor(maps, b[..n]), b[n]) == ReadOnlyFor(maps, b[..n + 1])
  {
    ReadOnlyOne(ReadOnlyFor(maps, b[..n]), b[n]);
    ReadOnlyMore(maps, b[..n], [b[n]]);
    assert b[..n] + [b[n]] == b[..n + 1];
  }

  // ---- return to the clean FIFOs and unlock --------------------------------------------------

  function Cleaned(r: Page): Page { r.(buf := BI_CLEAN, dirty := false, phase := Settled) }

  lemma EnterOne(s: State, mem: Memory, p: PageId)
    requires Inv(s, mem) && InPhase(s, p, EvWritten)
    ensures Enabled(s, EvEnter(p)) && DoEvEnter(s, p).pages == s.pages[p := Cleaned(s.pages[p])]
    ensures DoEvEnter(s, p) == s.(pages := DoEvEnter(s, p).pages, clean := DoEvEnter(s, p).clean)
    ensures var q := s.pages[p].index % 32;
            && |s.clean| == 32 == |DoEvEnter(s, p).clean|
            && DoEvEnter(s, p).clean == s.clean[q := DoEvEnter(s, p).clean[q]]
            && DoEvEnter(s, p).clean[q].items == s.clean[q].items + [p]
  {
    NeverFull(s);
  }

  /** insert_page_fifo_buffer_t over the batch. */
  method EnterAll(s0: State, b: seq<PageId>, ghost mem: Memory) returns (s: State)
    requires Held(s0, mem, b, EvWritten)
    ensures Inv(s, mem) && Swept(s0.pages, s.pages, b, |b|, Cleaned)
    ensures s == s0.(pages := s.pages, clean := s.clean) && TailGains(s0.clean, s.clean, s0.pages, b)
  {
    s := s0;
    for n := 0 to |b|
      invariant Inv(s, mem) && Swept(s0.pages, s.pages, b, n, Cleaned)
      invariant s == s0.(pages := s.pages, clean := s.clean) && TailGains(s0.clean, s.clean, s0.pages, b[..n])
    {
      SweepNext(s0.pages, s.pages, b, n, Cleaned);
      assert InPhase(s0, b[n], EvWritten);
      EnterNext(s0, s, mem, b, n);
      s := DoEvEnter(s, b[n]);
    }
    assert b[..|b|] == b;
  }

  lemma EnterNext(s0: State, s: State, mem: Memory, b: seq<PageId>, n: nat)
    requires Inv(s, mem) && n < |b| && InPhase(s, b[n], EvWritten) && b[n] < |s0.pages| && |s0.clean| == NUM_QUEUES
    requires s.pages[b[n]] == s0.pages[b[n]] && TailGains(s0.clean, s.clean, s0.pages, b[..n])
    ensures Enabled(s, EvEnter(b[n])) && Inv(DoEvEnter(s, b[n]), mem)
    ensures var s' := DoEvEnter(s, b[n]);
            && s'.pages == s.pages[b[n] := Cleaned(s.pages[b[n]])] && s' == s.(pages := s'.pages, clean := s'.clean)
            && TailGains(s0.clean, s'.clean, s0.pages, b[..n + 1])
  {
    EnterOne(s, mem, b[n]);
    KeepEvEnter(s, mem, b[n]);
    TailGainsNext(s0.clean, s.clean, DoEvEnter(s, b[n]).clean, s0.pages, b[..n], b[n]);
    assert b[..n] + [b[n]] == b[..n + 1];
  }

  function Unlocked(r: Page): Page { r.(locked := false, phase := Idle) }

  method UnlockAll(s0: State, b: seq<PageId>, ghost mem: Memory) returns (s: State)
    requires Held(s0, mem, b, Settled)
    ensures Inv(s, mem) && Swept(s0.pages, s.pages, b, |b|, Unlocked)
    ensures s == s0.(pages := s.pages)
  {
    s := s0;
    for n := 0 to |b|
      invariant Inv(s, mem) && Swept(s0.pages, s.pages, b, n, Unlocked) && s == s0.(pages := s.pages)
    {
      SweepNext(s0.pages, s.pages, b, n, Unlocked);
      assert InPhase(s0, b[n], Settled);
      KeepUnlock(s, mem, b[n]);
      s := DoUnlock(s, b[n]);
    }
  }

  // ---- write ---------------------------------------------------------------------------------

  predicate Known(s: State, b: seq<PageId>) { forall i :: 0 <= i < |b| ==> b[i] < |s.pages| }

  function Offsets(s: State, b: seq<PageId>): (offs: seq<nat>)
    requires Known(s, b)
    ensures |offs| == |b| && forall i :: 0 <= i < |b| ==> offs[i] == s.pages[b[i]].index
  {
    seq(|b|, i requires 0 <= i < |b| => s.pages[b[i]].index)
  }

  function Copies(s: State, b: seq<PageId>): (data: seq<Data>)
    requires Known(s, b)
    ensures |data| == |b| && forall i :: 0 <= i < |b| ==> data[i] == s.pages[b[i]].data
  {
    seq(|b|, i requires 0 <= i < |b| => s.pages[b[i]].data)
  }

  /** The blocks of a batch that no request covers: the ends of its runs of more than 256 pages. */
  ghost function LeftOut(d: nat, offs: seq<nat>): set<Key> {
    set j: nat | j < |offs| && !Kept(offs, j) :: Key(d, offs[j])
  }

  lemma NothingLost(d: nat, offs: seq<nat>)
    ensures NoLongRun(offs) ==> LeftOut(d, offs) == {}
  {
    AllKeptExact(offs);
  }

  /** The offsets are in order and the pages are of one pvd. */
  ghost predicate Writable(s: State, b: seq<PageId>, d: nat) {
    && Known(s, b) && InOrder(Offsets(s, b))
    && forall i :: 0 <= i < |b| ==> s.pages[b[i]].pvd == d
  }

  function Wrote(r: Page): Page { r.(phase := if r.phase.EvProtected? then EvWritten else Settled) }

  lemma ReachedOnce(disk: map<Key, Data>, a: map<Key, Data>, b: map<Key, Data>, d: nat, offs: seq<nat>,
                    data: seq<Data>, done: set<nat>)
    requires |data| == |offs| && Reached(disk, a, d, offs, data, done) && Reached(disk, b, d, offs, data, done)
    ensures a == b
  {
    forall k: Key ensures (k in a <==> k in b) && (k in a && k in b ==> a[k] == b[k]) {
      if k.dev == d && k.off in offs {
        var j :| 0 <= j < |offs| && offs[j] == k.off;
        assert k == Key(d, offs[j]);
        assert PageReached(disk, a, k, data[j], j in done) && PageReached(disk, b, k, data[j], j in done);
      } else {
        assert BlockKept(disk, a, d, offs, k) && BlockKept(disk, b, d, offs, k);
      }
    }
  }

  /** One page of the batch, written or left out. */
  function WriteOne(s: State, p: PageId, kept: bool): State
    requires Enabled(s, WriteBlock(p))
  {
    if kept then DoWriteBlock(s, p) else DoDropBlock(s, p)
  }

  lemma KeepWriteOne(s: State, mem: Memory, p: PageId, kept: bool)
    requires Inv(s, mem) && Enabled(s, WriteBlock(p)) && (!kept ==> KeyOf(s.pages[p]) !in mem)
    ensures Inv(WriteOne(s, p, kept), mem)
    ensures WriteOne(s, p, kept).pages == s.pages[p := Wrote(s.pages[p])]
    ensures WriteOne(s, p, kept) == s.(pages := s.pages[p := Wrote(s.pages[p])], disk := WriteOne(s, p, kept).disk)
    ensures WriteOne(s, p, kept).disk == if kept then s.disk[KeyOf(s.pages[p]) := s.pages[p].data] else s.disk
  {
    if kept { KeepWriteBlock(s, mem, p); } else { KeepDropBlock(s, mem, p); }
  }

  ghost function KeptBelow(offs: seq<nat>, n: nat): set<nat> {
    set j: nat | j < n && j < |offs| && Kept(offs, j)
  }

  lemma AllKept(offs: seq<nat>)
    ensures KeptBelow(offs, |offs|) == CoveredPages(offs)
  {
    forall j: nat | j < |offs| ensures Kept(offs, j) <==> j in CoveredPages(offs) {
      Coalesce.CoveredExact(offs, j);
    }
  }

  lemma ReachKept(disk: map<Key, Data>, disk': map<Key, Data>, d: nat, offs: seq<nat>, data: seq<Data>, n: nat,
                  more: map<Key, Data>)
    requires |data| == |offs| && InOrder(offs) && n < |offs|
    requires Reached(disk, disk', d, offs, data, KeptBelow(offs, n))
    requires more == if Kept(offs, n) then disk'[Key(d, offs[n]) := data[n]] else disk'
    ensures Reached(disk, more, d, offs, data, KeptBelow(offs, n + 1))
  {
    KeptNext(offs, n);
    if Kept(offs, n) {
      ReachOne(disk, disk', d, offs, data, KeptBelow(offs, n), n, offs[n], KeptBelow(offs, n + 1));
    }
  }

  lemma KeptNext(offs: seq<nat>, n: nat)
    requires n < |offs|
    ensures KeptBelow(offs, n + 1) == KeptBelow(offs, n) + if Kept(offs, n) then {n} else {}
  {
  }

  /** The state after the first n pages of the batch have been dealt with one by one. */
  ghost predicate Writing(s0: State, g: State, mem: Memory, b: seq<PageId>, d: nat, offs: seq<nat>, data: seq<Data>,
                          n: nat)
    requires |data| == |offs|
  {
    && Inv(g, mem) && g == s0.(pages := g.pages, disk := g.disk) && Swept(s0.pages, g.pages, b, n, Wrote)
    && Reached(s0.disk, g.disk, d, offs, data, KeptBelow(offs, n))
  }

  lemma WritingNext(s0: State, g: State, mem: Memory, b: seq<PageId>, d: nat, f: Phase, n: nat) returns (g': State)
    requires NoDup(b) && AllIn(s0, b, f) && (f.EvProtected? || f.FsClean?) && Writable(s0, b, d) && n < |b|
    requires mem.Keys !! LeftOut(d, Offsets(s0, b))
    requires Writing(s0, g, mem, b, d, Offsets(s0, b), Copies(s0, b), n)
    ensures Writing(s0, g', mem, b, d, Offsets(s0, b), Copies(s0, b), n + 1)
  {
    var offs, data, p := Offsets(s0, b), Copies(s0, b), b[n];
    SweepNext(s0.pages, g.pages, b, n, Wrote);
    assert InPhase(s0, p, f);
    assert !Kept(offs, n) ==> Key(d, offs[n]) in LeftOut(d, offs);
    KeepWriteOne(g, mem, p, Kept(offs, n));
    g' := WriteOne(g, p, Kept(offs, n));
    ReachKept(s0.disk, g.disk, d, offs, data, n, g'.disk);
  }

  lemma {:induction false} WritingAll(s0: State, mem: Memory, b: seq<PageId>, d: nat, f: Phase, n: nat)
      returns (g: State)
    requires Held(s0, mem, b, f) && (f.EvProtected? || f.FsClean?) && Writable(s0, b, d) && n <= |b|
    requires mem.Keys !! LeftOut(d, Offsets(s0, b))
    ensures Writing(s0, g, mem, b, d, Offsets(s0, b), Copies(s0, b), n)
  {
    if n == 0 {
      g := s0;
    } else {
      g := WritingAll(s0, mem, b, d, f, n - 1);
      g := WritingNext(s0, g, mem, b, d, f, n - 1);
    }
  }

  /** The write of a batch: the covered pages are on the device, each in its own block, and the
      cache agrees with every block but those left out. */
  method WriteAll(s0: State, b: seq<PageId>, d: nat, ghost f: Phase, ghost mem: Memory) returns (s: State)
    requires Held(s0, mem, b, f) && (f.EvProtected? || f.FsClean?) && Writable(s0, b, d)
    ensures Inv(s, mem - LeftOut(d, Offsets(s0, b))) && Swept(s0.pages, s.pages, b, |b|, Wrote)
    ensures Reached(s0.disk, s.disk, d, Offsets(s0, b), Copies(s0, b), CoveredPages(Offsets(s0, b)))
    ensures s == s0.(pages := s.pages, disk := s.disk)
  {
    var offs, data := Offsets(s0, b), Copies(s0, b);
    var disk := WriteBatch(s0.disk, d, offs, data);
    s := s0.(disk := disk);
    for n := 0 to |b|
      invariant s == s0.(pages := s.pages, disk := disk) && Swept(s0.pages, s.pages, b, n, Wrote)
    {
      SweepNext(s0.pages, s.pages, b, n, Wrote);
      s := Written(s, b[n]);
    }
    Forget(s0, mem, LeftOut(d, offs));
    ghost var g := WritingAll(s0, mem - LeftOut(d, offs), b, d, f, |b|);
    AllKept(offs);
    ReachedOnce(s0.disk, disk, g.disk, d, offs, data, CoveredPages(offs));
    SweptOnce(s0.pages, s.pages, g.pages, b, Wrote);
  }

  lemma SweptOnce(old_: seq<Page>, x: seq<Page>, y: seq<Page>, b: seq<PageId>, f: Page -> Page)
    requires Swept(old_, x, b, |b|, f) && Swept(old_, y, b, |b|, f)
    ensures x == y
  {
    assert b[..|b|] == b;
    forall p | 0 <= p < |x| ensures x[p] == y[p] {
      if p in b {
        var i :| 0 <= i < |b| && b[i] == p;
        assert x[b[i]] == f(old_[b[i]]);
      }
    }
  }
}
