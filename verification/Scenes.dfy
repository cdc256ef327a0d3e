/** Two histories that the code allows, played from the initial state of a machine with one CPU:
    a mkwrite granted on a page of another device, and a load that misses a store. All blocks in
    them are at offset 0, so one clean FIFO, one dirty FIFO and one shard take part. */
module Scenes {
  import opened Params
  import opened Fifo
  import opened Placement
  import opened Lifecycle
  import opened Invariant
  import opened Theorems
  import opened Guarantees
  import opened Exactness
  import opened Runs

  datatype Scene = Scene(
    pages: seq<Page>, free: seq<PageId>, clean: seq<PageId>, dirty: seq<PageId>,
    rdx: map<Key, PageId>, tree: map<Key, PageId>, maps: set<Mapping>)

  /** The part of the state that plays. */
  predicate Looks(s: State, m: Scene) {
    && Shape(s) && |s.free| == 1 && s.pages == m.pages && s.free[0] == m.free
    && s.clean[0] == Queue(m.clean, |m.clean|, |m.pages| + 1)
    && s.dirty[0] == Queue(m.dirty, |m.dirty|, |m.pages| + 1)
    && s.rdx[0] == m.rdx && s.trees[0] == m.tree && s.maps == m.maps
    && s.disk == map[] && s.files == {1} && s.unlinking == {}
    && |m.clean| <= |m.pages| && |m.dirty| <= |m.pages|
  }

  function With(m: Scene, p: PageId, r: Page): Scene
    requires p < |m.pages|
  {
    m.(pages := m.pages[p := r])
  }

  lemma WithTwice(m: Scene, p: PageId, r: Page, r': Page)
    requires p < |m.pages|
    ensures With(With(m, p, r), p, r') == With(m, p, r')
  {
  }

  /** One scene after the other. */
  lemma Then(a: State, ma: Memory, r: seq<Step>, b: State, mb: Memory, q: seq<Step>, c: State, mc: Memory,
             run: seq<Step>)
    requires Via(a, ma, r, b, mb) && Via(b, mb, q, c, mc) && run == r + q
    ensures Via(a, ma, run, c, mc)
  {
    ViaOn(a, ma, r, b, mb, q, c, mc);
  }

  // ---- single steps --------------------------------------------------------------------------

  lemma PlayPop(s: State, mem: Memory, m: Scene, p: PageId, d: nat) returns (s': State)
    requires Looks(s, m) && p < |m.pages| && m.free != [] && m.free[0] == p
    ensures Via(s, mem, [Pop(0, d, 0)], s', mem)
    ensures Looks(s', With(m, p, m.pages[p].(cpuid := 0, phase := Popped(d, 0))).(free := m.free[1..]))
  {
    s' := DoPop(s, 0, d, 0);
    ViaOne(s, mem, Pop(0, d, 0));
  }

  lemma PlayPrepare(s: State, mem: Memory, m: Scene, p: PageId, d: nat) returns (s': State)
    requires Looks(s, m) && p < |m.pages| && m.pages[p].phase == Popped(d, 0)
    ensures Via(s, mem, [Prepare(p)], s', mem)
    ensures Looks(s', With(m, p,
                           m.pages[p].(index := 0, pvd := d, valid := false, dirty := false, buf := BI_NONE,
                                       phase := Prepared)))
  {
    s' := DoPrepare(s, p);
    ViaOne(s, mem, Prepare(p));
  }

  lemma PlayPublish(s: State, mem: Memory, m: Scene, p: PageId) returns (s': State)
    requires Looks(s, m) && p < |m.pages| && m.pages[p].phase == Prepared
    ensures Via(s, mem, [Publish(p)], s', mem)
    ensures Looks(s', With(m, p, m.pages[p].(inUse := true, locked := true, phase := Fresh)))
  {
    s' := DoPublish(s, p);
    ViaOne(s, mem, Publish(p));
  }

  lemma PlayInsert(s: State, mem: Memory, m: Scene, p: PageId, k: Key) returns (s': State)
    requires Looks(s, m) && p < |m.pages| && m.pages[p].phase == Fresh && KeyOf(m.pages[p]) == k && k.off == 0
             && k !in m.rdx
    ensures Via(s, mem, [IndexInsert(p)], s', mem)
    ensures Looks(s', With(m, p, m.pages[p].(phase := Indexed)).(rdx := m.rdx[k := p]))
  {
    s' := DoIndexInsert(s, p);
    ViaOne(s, mem, IndexInsert(p));
  }

  lemma PlayEnter(s: State, mem: Memory, m: Scene, p: PageId) returns (s': State)
    requires Looks(s, m) && p < |m.pages| && m.pages[p].phase == Indexed && m.pages[p].index == 0
             && |m.clean| < |m.pages|
    ensures Via(s, mem, [EnterClean(p)], s', mem)
    ensures Looks(s', With(m, p, m.pages[p].(phase := Filling, buf := BI_CLEAN)).(clean := m.clean + [p]))
  {
    s' := DoEnterClean(s, p);
    ViaOne(s, mem, EnterClean(p));
  }

  /** Blank pages hold 0, and so does every block of the device. */
  lemma PlayRead(s: State, mem: Memory, m: Scene, p: PageId) returns (s': State)
    requires Looks(s, m) && p < |m.pages| && m.pages[p].phase == Filling && m.pages[p].data == 0
    ensures Via(s, mem, [ReadIn(p)], s', mem)
    ensures Looks(s', With(m, p, m.pages[p].(valid := true, phase := Settled)))
  {
    s' := DoReadIn(s, p);
    ViaOne(s, mem, ReadIn(p));
  }

  lemma PlayUnlock(s: State, mem: Memory, m: Scene, p: PageId) returns (s': State)
    requires Looks(s, m) && p < |m.pages| && m.pages[p].phase == Settled
    ensures Via(s, mem, [Unlock(p)], s', mem)
    ensures Looks(s', With(m, p, m.pages[p].(locked := false, phase := Idle)))
  {
    s' := DoUnlock(s, p);
    ViaOne(s, mem, Unlock(p));
  }

  lemma PlayHit(s: State, mem: Memory, m: Scene, p: PageId, k: Key) returns (s': State)
    requires Looks(s, m) && p < |m.pages| && m.pages[p].inUse && !m.pages[p].locked && k.off == 0 && k in m.rdx
             && m.rdx[k] == p
    ensures Via(s, mem, [Hit(k)], s', mem)
    ensures Looks(s', With(m, p, m.pages[p].(locked := true, phase := Settled)))
  {
    s' := DoHit(s, k);
    ViaOne(s, mem, Hit(k));
  }

  lemma PlayMap(s: State, mem: Memory, m: Scene, p: PageId, vma: nat) returns (s': State)
    requires Looks(s, m) && p < |m.pages| && m.pages[p].phase == Settled
    ensures Via(s, mem, [MapPage(p, vma)], s', mem)
    ensures Looks(s', m.(maps := m.maps + {Mapping(vma, KeyOf(m.pages[p]), p, false)}))
  {
    s' := DoMapPage(s, p, vma);
    ViaOne(s, mem, MapPage(p, vma));
  }

  lemma PlayGrant(s: State, mem: Memory, m: Scene, x: Mapping) returns (s': State)
    requires Looks(s, m) && x in m.maps && x.page < |m.pages| && m.pages[x.page].phase == Settled
             && m.pages[x.page].dirty
    ensures Via(s, mem, [GrantWrite(x)], s', mem)
    ensures Looks(s', m.(maps := m.maps - {x} + {x.(writable := true)}))
  {
    s' := DoGrantWrite(s, x);
    ViaOne(s, mem, GrantWrite(x));
  }

  lemma PlayStore(s: State, mem: Memory, m: Scene, x: Mapping, v: Data) returns (s': State)
    requires Looks(s, m) && x in m.maps && x.writable && x.page < |m.pages|
    ensures Via(s, mem, [Store(x, v)], s', mem[x.key := v])
    ensures Looks(s', With(m, x.page, m.pages[x.page].(data := v)))
  {
    s' := DoStore(s, x, v);
    ViaOne(s, mem, Store(x, v));
  }

  lemma PlayDequeue(s: State, mem: Memory, m: Scene, p: PageId) returns (s': State)
    requires Looks(s, m) && p < |m.pages| && m.pages[p].inUse && !m.pages[p].locked && m.clean != [] && m.clean[0] == p
    ensures Via(s, mem, [PgDequeue(0)], s', mem)
    ensures Looks(s', With(m, p, m.pages[p].(locked := true, buf := BI_NONE, phase := PgOut)).(clean := m.clean[1..]))
  {
    s' := DoPgDequeue(s, 0);
    ViaOne(s, mem, PgDequeue(0));
  }

  lemma PlayUnindex(s: State, mem: Memory, m: Scene, p: PageId, k: Key) returns (s': State)
    requires Looks(s, m) && p < |m.pages| && m.pages[p].phase == PgOut && KeyOf(m.pages[p]) == k && k.off == 0
    ensures Via(s, mem, [PgUnindex(p)], s', mem)
    ensures Looks(s', With(m, p, m.pages[p].(phase := PgUnindexed)).(rdx := m.rdx - {k}))
  {
    s' := DoPgUnindex(s, p);
    ViaOne(s, mem, PgUnindex(p));
  }

  function Unmapped(m: Scene, p: PageId): Scene { m.(maps := set x | x in m.maps && x.page != p) }

  lemma PlayUnmap(s: State, mem: Memory, m: Scene, p: PageId) returns (s': State)
    requires Looks(s, m) && p < |m.pages| && m.pages[p].phase == PgUnindexed
    ensures Via(s, mem, [PgUnmap(p)], s', mem)
    ensures Looks(s', Unmapped(With(m, p, m.pages[p].(phase := PgUnmapped)), p))
  {
    s' := DoPgUnmap(s, p);
    ViaOne(s, mem, PgUnmap(p));
  }

  lemma PlayStart(s: State, mem: Memory, m: Scene, p: PageId) returns (s': State)
    requires Looks(s, m) && p < |m.pages| && m.pages[p].phase == PgUnmapped
    ensures Via(s, mem, [FreeStart(p)], s', mem)
    ensures Looks(s', With(m, p, m.pages[p].(inUse := false, phase := Freeing)))
  {
    s' := DoFreeStart(s, p);
    ViaOne(s, mem, FreeStart(p));
  }

  function ResetPage(r: Page): Page {
    r.(index := 0, pvd := NULL_PVD, valid := false, dirty := false, buf := BI_NONE, cpuid := 0, locked := false,
       phase := Detached(r.cpuid))
  }

  lemma PlayReset(s: State, mem: Memory, m: Scene, p: PageId) returns (s': State)
    requires Looks(s, m) && p < |m.pages| && m.pages[p].phase == Freeing
    ensures Via(s, mem, [FreeReset(p)], s', mem) && Looks(s', With(m, p, ResetPage(m.pages[p])))
  {
    s' := DoFreeReset(s, p);
    ViaOne(s, mem, FreeReset(p));
  }

  lemma PlayLink(s: State, mem: Memory, m: Scene, p: PageId) returns (s': State)
    requires Looks(s, m) && p < |m.pages| && m.pages[p].phase == Detached(0)
    ensures Via(s, mem, [FreeLink(p)], s', mem)
    ensures Looks(s', With(m, p, m.pages[p].(phase := OnFreeList)).(free := m.free + [p]))
  {
    s' := DoFreeLink(s, p);
    ViaOne(s, mem, FreeLink(p));
  }

  lemma PlayMkLock(s: State, mem: Memory, m: Scene, p: PageId, d: nat) returns (s': State)
    requires Looks(s, m) && p < |m.pages| && m.pages[p].inUse && !m.pages[p].locked && !m.pages[p].dirty
    requires m.pages[p].index == 0 && m.pages[p].pvd == d
    ensures Via(s, mem, [MkLock(p, d, 0)], s', mem)
    ensures Looks(s', With(m, p, m.pages[p].(locked := true, dirty := true, phase := MkMarked(d))))
  {
    s' := DoMkLock(s, p, d, 0);
    ViaOne(s, mem, MkLock(p, d, 0));
  }

  lemma PlayMkTree(s: State, mem: Memory, m: Scene, p: PageId, d: nat) returns (s': State)
    requires Looks(s, m) && p < |m.pages| && m.pages[p].phase == MkMarked(d) && m.pages[p].index == 0
             && Key(d, 0) !in m.tree
    ensures Via(s, mem, [MkTree(p)], s', mem)
    ensures Looks(s', With(m, p, m.pages[p].(phase := MkInTree)).(tree := m.tree[Key(d, 0) := p]))
  {
    s' := DoMkTree(s, p);
    ViaOne(s, mem, MkTree(p));
  }

  lemma PlayMkLeave(s: State, mem: Memory, m: Scene, p: PageId) returns (s': State)
    requires Looks(s, m) && p < |m.pages| && m.pages[p].phase == MkInTree && m.pages[p].index == 0 && m.clean == [p]
    ensures Via(s, mem, [MkLeave(p)], s', mem)
    ensures Looks(s', With(m, p, m.pages[p].(buf := BI_NONE, phase := MkLoose)).(clean := []))
  {
    s' := DoMkLeave(s, p);
    ViaOne(s, mem, MkLeave(p));
  }

  lemma PlayMkEnter(s: State, mem: Memory, m: Scene, p: PageId) returns (s': State)
    requires Looks(s, m) && p < |m.pages| && m.pages[p].phase == MkLoose && m.pages[p].index == 0
             && |m.dirty| < |m.pages|
    ensures Via(s, mem, [MkEnter(p)], s', mem)
    ensures Looks(s', With(m, p, m.pages[p].(buf := BI_DIRTY, phase := Settled)).(dirty := m.dirty + [p]))
  {
    s' := DoMkEnter(s, p);
    ViaOne(s, mem, MkEnter(p));
  }

  // ---- a fault -------------------------------------------------------------------------------

  predicate Blank(r: Page) { BlankPage(r) && r.data == 0 }

  /** A clean page of block (d, 0) at rest in the cache. */
  predicate Resting(r: Page, d: nat) {
    && r.index == 0 && r.pvd == d && r.inUse && !r.locked && r.valid && !r.dirty && r.buf == BI_CLEAN
    && r.phase == Idle && r.cpuid == 0 && r.data == 0 && !r.probed
  }

  /** A page just allocated for block (d, 0). */
  predicate Allocated(r: Page, d: nat) {
    && r.index == 0 && r.pvd == d && r.inUse && r.locked && !r.valid && !r.dirty && r.buf == BI_NONE
    && r.phase == Fresh && r.cpuid == 0 && r.data == 0 && !r.probed
  }

  lemma SceneAllocate(s: State, mem: Memory, m: Scene, p: PageId, d: nat) returns (s': State, r: Page)
    requires Looks(s, m) && p < |m.pages| && m.free != [] && m.free[0] == p && Blank(m.pages[p])
    ensures Via(s, mem, [Pop(0, d, 0), Prepare(p), Publish(p)], s', mem) && Allocated(r, d)
    ensures Looks(s', With(m, p, r).(free := m.free[1..]))
  {
    var n := m.(free := m.free[1..]);
    var s1, r1 := ScenePop(s, mem, m, p, d);
    s' := PlayPublish(s1, mem, With(n, p, r1), p);
    r := r1.(inUse := true, locked := true, phase := Fresh);
    WithTwice(n, p, r1, r);
    FreshIs(m.pages[p], d, r1, r);
    Then(s, mem, [Pop(0, d, 0), Prepare(p)], s1, mem, [Publish(p)], s', mem, [Pop(0, d, 0), Prepare(p), Publish(p)]);
  }

  lemma FreshIs(b: Page, d: nat, r1: Page, r: Page)
    requires Blank(b) && r == r1.(inUse := true, locked := true, phase := Fresh)
    requires r1 ==
             b.(cpuid := 0, index := 0, pvd := d, valid := false, dirty := false, buf := BI_NONE, phase := Prepared)
    ensures Allocated(r, d)
  {
  }

  lemma ScenePop(s: State, mem: Memory, m: Scene, p: PageId, d: nat) returns (s': State, r: Page)
    requires Looks(s, m) && p < |m.pages| && m.free != [] && m.free[0] == p
    ensures Via(s, mem, [Pop(0, d, 0), Prepare(p)], s', mem)
    ensures r == m.pages[p].(cpuid := 0, index := 0, pvd := d, valid := false, dirty := false, buf := BI_NONE,
                             phase := Prepared)
    ensures Looks(s', With(m.(free := m.free[1..]), p, r))
  {
    var n := m.(free := m.free[1..]);
    var s1 := PlayPop(s, mem, m, p, d);
    var r1 := m.pages[p].(cpuid := 0, phase := Popped(d, 0));
    s' := PlayPrepare(s1, mem, With(n, p, r1), p, d);
    r := r1.(index := 0, pvd := d, valid := false, dirty := false, buf := BI_NONE, phase := Prepared);
    WithTwice(n, p, r1, r);
    Then(s, mem, [Pop(0, d, 0)], s1, mem, [Prepare(p)], s', mem, [Pop(0, d, 0), Prepare(p)]);
  }

  /** With the page in the index and in the clean FIFO. */
  function Cached(m: Scene, p: PageId, d: nat): Scene { m.(clean := m.clean + [p], rdx := m.rdx[Key(d, 0) := p]) }

  lemma SceneIndex(s: State, mem: Memory, m: Scene, p: PageId, d: nat) returns (s': State, r: Page)
    requires Looks(s, m) && p < |m.pages| && Allocated(m.pages[p], d) && Key(d, 0) !in m.rdx && |m.clean| < |m.pages|
    ensures Via(s, mem, [IndexInsert(p), EnterClean(p)], s', mem) && r == m.pages[p].(phase := Filling, buf := BI_CLEAN)
    ensures Looks(s', With(Cached(m, p, d), p, r))
  {
    var s1 := PlayInsert(s, mem, m, p, Key(d, 0));
    var r1 := m.pages[p].(phase := Indexed);
    var n := m.(rdx := m.rdx[Key(d, 0) := p]);
    s' := PlayEnter(s1, mem, With(n, p, r1), p);
    r := r1.(phase := Filling, buf := BI_CLEAN);
    WithTwice(n, p, r1, r);
    Then(s, mem, [IndexInsert(p)], s1, mem, [EnterClean(p)], s', mem, [IndexInsert(p), EnterClean(p)]);
  }

  lemma SceneRead(s: State, mem: Memory, m: Scene, p: PageId) returns (s': State, r: Page)
    requires Looks(s, m) && p < |m.pages| && m.pages[p].phase == Filling && m.pages[p].data == 0
    ensures Via(s, mem, [ReadIn(p), Unlock(p)], s', mem)
            && r == m.pages[p].(valid := true, locked := false, phase := Idle)
    ensures Looks(s', With(m, p, r))
  {
    var s1 := PlayRead(s, mem, m, p);
    var r1 := m.pages[p].(valid := true, phase := Settled);
    s' := PlayUnlock(s1, mem, With(m, p, r1), p);
    r := r1.(locked := false, phase := Idle);
    WithTwice(m, p, r1, r);
    Then(s, mem, [ReadIn(p)], s1, mem, [Unlock(p)], s', mem, [ReadIn(p), Unlock(p)]);
  }

  lemma SceneFill(s: State, mem: Memory, m: Scene, p: PageId, d: nat) returns (s': State, r: Page)
    requires Looks(s, m) && p < |m.pages| && Allocated(m.pages[p], d) && Key(d, 0) !in m.rdx && |m.clean| < |m.pages|
    ensures Via(s, mem, [IndexInsert(p), EnterClean(p), ReadIn(p), Unlock(p)], s', mem) && Resting(r, d)
    ensures Looks(s', With(Cached(m, p, d), p, r))
  {
    var n := Cached(m, p, d);
    var s1, r1 := SceneIndex(s, mem, m, p, d);
    s', r := SceneRead(s1, mem, With(n, p, r1), p);
    WithTwice(n, p, r1, r);
    Then(s, mem, [IndexInsert(p), EnterClean(p)], s1, mem, [ReadIn(p), Unlock(p)], s', mem,
         [IndexInsert(p), EnterClean(p), ReadIn(p), Unlock(p)]);
  }

  lemma MissIs(p: PageId, d: nat)
    ensures Miss(p, 0, Key(d, 0)) == [Pop(0, d, 0), Prepare(p), Publish(p)]
            + [IndexInsert(p), EnterClean(p), ReadIn(p), Unlock(p)]
  {
  }

  /** A whole miss. */
  lemma SceneMiss(s: State, mem: Memory, m: Scene, p: PageId, d: nat) returns (s': State, r: Page)
    requires Looks(s, m) && p < |m.pages| && m.free != [] && m.free[0] == p && Blank(m.pages[p])
    requires Key(d, 0) !in m.rdx && |m.clean| < |m.pages|
    ensures Via(s, mem, Miss(p, 0, Key(d, 0)), s', mem) && Resting(r, d)
    ensures Looks(s', With(Cached(m.(free := m.free[1..]), p, d), p, r))
  {
    var n := m.(free := m.free[1..]);
    var s1, r1 := SceneAllocate(s, mem, m, p, d);
    s', r := SceneFill(s1, mem, With(n, p, r1), p, d);
    WithTwice(Cached(n, p, d), p, r1, r);
    ViaOn(s, mem, [Pop(0, d, 0), Prepare(p), Publish(p)], s1, mem,
          [IndexInsert(p), EnterClean(p), ReadIn(p), Unlock(p)], s', mem);
    MissIs(p, d);
  }

  // ---- a read through a VMA ------------------------------------------------------------------

  /** A hit that maps the page read-only. */
  function Look(p: PageId, k: Key, vma: nat): seq<Step> { [Hit(k), MapPage(p, vma), Unlock(p)] }

  lemma SceneLook(s: State, mem: Memory, m: Scene, p: PageId, d: nat, vma: nat) returns (s': State)
    requires Looks(s, m) && p < |m.pages| && Resting(m.pages[p], d) && Key(d, 0) in m.rdx && m.rdx[Key(d, 0)] == p
    ensures Via(s, mem, Look(p, Key(d, 0), vma), s', mem)
    ensures Looks(s', m.(maps := m.maps + {Mapping(vma, Key(d, 0), p, false)}))
  {
    var k := Key(d, 0);
    var n := m.(maps := m.maps + {Mapping(vma, k, p, false)});
    var s1 := PlayHit(s, mem, m, p, k);
    var r := m.pages[p].(locked := true, phase := Settled);
    var s2 := PlayMap(s1, mem, With(m, p, r), p, vma);
    s' := PlayUnlock(s2, mem, With(n, p, r), p);
    WithTwice(n, p, r, m.pages[p]);
    assert With(n, p, m.pages[p]) == n;
    Then(s, mem, [Hit(k)], s1, mem, [MapPage(p, vma)], s2, mem, [Hit(k), MapPage(p, vma)]);
    Then(s, mem, [Hit(k), MapPage(p, vma)], s2, mem, [Unlock(p)], s', mem, Look(p, k, vma));
  }

  // ---- a purge -------------------------------------------------------------------------------

  lemma ScenePurge(s: State, mem: Memory, m: Scene, p: PageId, k: Key) returns (s': State, r: Page)
    requires Looks(s, m) && p < |m.pages| && m.clean != [] && m.clean[0] == p && k.off == 0
    requires m.pages[p].inUse && !m.pages[p].locked && KeyOf(m.pages[p]) == k
    ensures Via(s, mem, [PgDequeue(0), PgUnindex(p)], s', mem)
    ensures r == m.pages[p].(locked := true, buf := BI_NONE, phase := PgUnindexed)
    ensures Looks(s', With(m.(clean := m.clean[1..], rdx := m.rdx - {k}), p, r))
  {
    var n := m.(clean := m.clean[1..]);
    var r1 := m.pages[p].(locked := true, buf := BI_NONE, phase := PgOut);
    var s1 := PlayDequeue(s, mem, m, p);
    s' := PlayUnindex(s1, mem, With(n, p, r1), p, k);
    r := r1.(phase := PgUnindexed);
    WithTwice(n.(rdx := m.rdx - {k}), p, r1, r);
    Then(s, mem, [PgDequeue(0)], s1, mem, [PgUnindex(p)], s', mem, [PgDequeue(0), PgUnindex(p)]);
  }

  lemma SceneUnmap(s: State, mem: Memory, m: Scene, p: PageId) returns (s': State, r: Page)
    requires Looks(s, m) && p < |m.pages| && m.pages[p].phase == PgUnindexed
    ensures Via(s, mem, [PgUnmap(p), FreeStart(p)], s', mem) && r == m.pages[p].(inUse := false, phase := Freeing)
    ensures Looks(s', With(Unmapped(m, p), p, r))
  {
    var s1 := PlayUnmap(s, mem, m, p);
    var r1 := m.pages[p].(phase := PgUnmapped);
    s' := PlayStart(s1, mem, With(Unmapped(m, p), p, r1), p);
    r := r1.(inUse := false, phase := Freeing);
    WithTwice(Unmapped(m, p), p, r1, r);
    Then(s, mem, [PgUnmap(p)], s1, mem, [FreeStart(p)], s', mem, [PgUnmap(p), FreeStart(p)]);
  }

  lemma SceneReset(s: State, mem: Memory, m: Scene, p: PageId) returns (s': State, r: Page)
    requires Looks(s, m) && p < |m.pages| && m.pages[p].phase == Freeing && m.pages[p].cpuid == 0
    requires m.pages[p].data == 0 && !m.pages[p].probed && !m.pages[p].inUse
    ensures Via(s, mem, [FreeReset(p), FreeLink(p)], s', mem) && Blank(r)
    ensures Looks(s', With(m.(free := m.free + [p]), p, r))
  {
    var s1 := PlayReset(s, mem, m, p);
    var r1 := ResetPage(m.pages[p]);
    s' := PlayLink(s1, mem, With(m, p, r1), p);
    r := r1.(phase := OnFreeList);
    WithTwice(m.(free := m.free + [p]), p, r1, r);
    Then(s, mem, [FreeReset(p)], s1, mem, [FreeLink(p)], s', mem, [FreeReset(p), FreeLink(p)]);
  }

  /** The rest of a purge: unmapped and freed. */
  function Release(p: PageId): seq<Step> { [PgUnmap(p), FreeStart(p), FreeReset(p), FreeLink(p)] }

  lemma SceneFree(s: State, mem: Memory, m: Scene, p: PageId) returns (s': State, r: Page)
    requires Looks(s, m) && p < |m.pages| && m.pages[p].phase == PgUnindexed && m.pages[p].cpuid == 0
    requires m.pages[p].data == 0 && !m.pages[p].probed
    ensures Via(s, mem, Release(p), s', mem) && Blank(r)
    ensures Looks(s', With(Unmapped(m.(free := m.free + [p]), p), p, r))
  {
    var s1, r1 := SceneUnmap(s, mem, m, p);
    s', r := SceneReset(s1, mem, With(Unmapped(m, p), p, r1), p);
    WithTwice(Unmapped(m.(free := m.free + [p]), p), p, r1, r);
    Then(s, mem, [PgUnmap(p), FreeStart(p)], s1, mem, [FreeReset(p), FreeLink(p)], s', mem, Release(p));
  }

  // ---- the initial state ---------------------------------------------------------------------

  const BLANK := Page(0, NULL_PVD, false, false, false, false, BI_NONE, 0, 0, OnFreeList, false)

  function Pages(n: nat): seq<PageId> { seq(n, (i: nat) => i) }

  /** One CPU, n blank pages, nothing in the cache; device 1 is a file. */
  function Start(n: nat): State {
    State(seq(n, _ => BLANK), seq(n, _ => 0), [Pages(n)],
          seq(NUM_QUEUES, _ => Queue([], 0, n + 1)), seq(EVICTOR_THREADS, _ => Queue([], 0, n + 1)),
          [map[]], [map[]], seq(EVICTOR_THREADS, _ => Empty), {}, map[], {}, {1}, {})
  }

  function Opening(n: nat): Scene { Scene(seq(n, _ => BLANK), Pages(n), [], [], map[], map[], {}) }

  lemma StartInit(n: nat)
    ensures Init(Start(n)) && InitialMemory(Start(n), map[Key(1, 0) := 0]) && InitialMemory(Start(n), map[])
    ensures Looks(Start(n), Opening(n))
  {
    var s := Start(n);
    assert FreshLists(s, n) by {
      forall c, i | 0 <= c < 1 && 0 <= i < n
        ensures 0 <= c * n + i < n && s.free[c][i] == c * n + i && s.home[c * n + i] == c
      {
        assert c == 0;
      }
    }
    assert |s.pages| == |s.free| * n;
  }

  /** Up to the moment at which a VMA of device 1 has mapped page 0 for reading its block 0: a store
      through it traps, and the mkwrite that begins there carries page 0 with it. */
  function Trap(vma: nat): seq<Step> { Miss(0, 0, Key(1, 0)) + Look(0, Key(1, 0), vma) }

  /** The scene after that, on a cache of n pages. */
  function Trapped(n: nat, vma: nat, r: Page): Scene
    requires n > 0
  {
    With(Opening(n), 0, r).(free := Pages(n)[1..], clean := [0], rdx := map[Key(1, 0) := 0],
                            maps := {Mapping(vma, Key(1, 0), 0, false)})
  }

  lemma SceneTrap(n: nat, mem: Memory, vma: nat) returns (s': State, r: Page)
    requires n > 0
    ensures Via(Start(n), mem, Trap(vma), s', mem) && Resting(r, 1) && Looks(s', Trapped(n, vma, r))
  {
    StartInit(n);
    var m := Opening(n);
    var s1;
    s1, r := SceneMiss(Start(n), mem, m, 0, 1);
    var m1 := With(Cached(m.(free := m.free[1..]), 0, 1), 0, r);
    s' := SceneLook(s1, mem, m1, 0, 1, vma);
    Then(Start(n), mem, Miss(0, 0, Key(1, 0)), s1, mem, Look(0, Key(1, 0), vma), s', mem, Trap(vma));
    TrappedIs(n, vma, r);
  }

  lemma TrappedIs(n: nat, vma: nat, r: Page)
    requires n > 0
    ensures var m := Opening(n);
            var m1 := With(Cached(m.(free := m.free[1..]), 0, 1), 0, r);
            m1.(maps := m1.maps + {Mapping(vma, Key(1, 0), 0, false)}) == Trapped(n, vma, r)
  {
  }

  // ---- the mkwrite that finds another device's page ------------------------------------------

  /** The page is purged, freed and used again, for block 0 of device 2. */
  function Reuse(): seq<Step> { [PgDequeue(0), PgUnindex(0)] + Release(0) + Miss(0, 0, Key(2, 0)) }

  lemma SceneReuse(s: State, mem: Memory, m: Scene) returns (s': State, r: Page)
    requires Looks(s, m) && 0 < |m.pages| && Resting(m.pages[0], 1) && m.clean == [0] && m.free == []
    requires m.rdx == map[Key(1, 0) := 0]
    ensures Via(s, mem, Reuse(), s', mem) && Resting(r, 2) && s'.pages == m.pages[0 := r]
  {
    var a, c := [PgDequeue(0), PgUnindex(0)], Miss(0, 0, Key(2, 0));
    var s1, r1 := ScenePurge(s, mem, m, 0, Key(1, 0));
    var m1 := m.(clean := m.clean[1..], rdx := m.rdx - {Key(1, 0)});
    assert m1.rdx == map[] && m1.clean == [];
    var s2, r2 := SceneFree(s1, mem, With(m1, 0, r1), 0);
    var m2 := Unmapped(m1.(free := m1.free + [0]), 0);
    WithTwice(m2, 0, r1, r2);
    s', r := SceneMiss(s2, mem, With(m2, 0, r2), 0, 2);
    WithTwice(m2, 0, r2, r);
    Then(s, mem, a, s1, mem, Release(0), s2, mem, a + Release(0));
    Then(s, mem, a + Release(0), s2, mem, c, s', mem, Reuse());
  }

  /** A history of a one-page cache. A VMA of device 1 maps page 0 for reading its block 0 and stores
      to it, so a mkwrite for (1, 0) begins with page 0; before it gets the lock, the page is purged,
      freed and used again for block 0 of device 2. The mkwrite compares only the offset, is granted,
      and leaves a dirty page that no tree of its own device holds. */
  lemma ForeignMkwrite(vma: nat) returns (trapped: State, reused: State)
    ensures Init(Start(1)) && Via(Start(1), map[], Trap(vma), trapped, map[])
    ensures Mapping(vma, Key(1, 0), 0, false) in trapped.maps && Via(trapped, map[], Reuse(), reused, map[])
    ensures |reused.pages| == 1 && TryLock(reused.pages[0], Some(0)) == 0 && reused.pages[0].pvd == 2
    ensures Legal(reused, Mkwrite(reused, 0, 1, 0))
    ensures var s := After(reused, Mkwrite(reused, 0, 1, 0));
            && |s.pages| == 1 && |s.hands| == EVICTOR_THREADS
            && s.pages[0].dirty && s.pages[0].phase == Idle && !DirtyPlace(s, 0)
  {
    StartInit(1);
    InitHolds(Start(1), map[]);
    var r;
    trapped, r := SceneTrap(1, map[], vma);
    reused, r := SceneReuse(trapped, map[], Trapped(1, vma, r));
    assert Leads(Start(1), map[], trapped, map[]) && Leads(trapped, map[], reused, map[]);
    LeadsKeeps(Start(1), map[], trapped, map[]);
    LeadsKeeps(trapped, map[], reused, map[]);
    MkwriteExact(reused, 0, 1, 0);
  }

  // ---- a write through a VMA -----------------------------------------------------------------

  lemma SceneMark(s: State, mem: Memory, m: Scene, p: PageId, d: nat) returns (s': State, r: Page)
    requires Looks(s, m) && p < |m.pages| && Resting(m.pages[p], d) && Key(d, 0) !in m.tree
    ensures Via(s, mem, [MkLock(p, d, 0), MkTree(p)], s', mem)
    ensures r == m.pages[p].(locked := true, dirty := true, phase := MkInTree)
    ensures Looks(s', With(m.(tree := m.tree[Key(d, 0) := p]), p, r))
  {
    var s1 := PlayMkLock(s, mem, m, p, d);
    var r1 := m.pages[p].(locked := true, dirty := true, phase := MkMarked(d));
    s' := PlayMkTree(s1, mem, With(m, p, r1), p, d);
    r := r1.(phase := MkInTree);
    WithTwice(m.(tree := m.tree[Key(d, 0) := p]), p, r1, r);
    Then(s, mem, [MkLock(p, d, 0)], s1, mem, [MkTree(p)], s', mem, [MkLock(p, d, 0), MkTree(p)]);
  }

  lemma SceneMove(s: State, mem: Memory, m: Scene, p: PageId) returns (s': State, r: Page)
    requires Looks(s, m) && p < |m.pages| && m.pages[p].phase == MkInTree && m.pages[p].index == 0
    requires m.clean == [p] && m.dirty == []
    ensures Via(s, mem, [MkLeave(p), MkEnter(p)], s', mem) && r == m.pages[p].(buf := BI_DIRTY, phase := Settled)
    ensures Looks(s', With(m.(clean := [], dirty := [p]), p, r))
  {
    var s1 := PlayMkLeave(s, mem, m, p);
    var r1 := m.pages[p].(buf := BI_NONE, phase := MkLoose);
    s' := PlayMkEnter(s1, mem, With(m.(clean := []), p, r1), p);
    r := r1.(buf := BI_DIRTY, phase := Settled);
    WithTwice(m.(clean := [], dirty := [p]), p, r1, r);
    assert m.dirty + [p] == [p];
    Then(s, mem, [MkLeave(p)], s1, mem, [MkEnter(p)], s', mem, [MkLeave(p), MkEnter(p)]);
  }

  /** The mkwrite of a read-only mapping, the grant and the store. */
  function Write(p: PageId, x: Mapping, v: Data): seq<Step> {
    [MkLock(p, x.key.dev, 0), MkTree(p)] + [MkLeave(p), MkEnter(p)] + [GrantWrite(x), Unlock(p)]
      + [Store(x.(writable := true), v)]
  }

  lemma SceneGrant(s: State, mem: Memory, m: Scene, p: PageId, x: Mapping) returns (s': State, r: Page)
    requires Looks(s, m) && p < |m.pages| && m.pages[p].phase == Settled && m.pages[p].dirty && x in m.maps
             && x.page == p
    ensures Via(s, mem, [GrantWrite(x), Unlock(p)], s', mem) && r == m.pages[p].(locked := false, phase := Idle)
    ensures Looks(s', With(m.(maps := m.maps - {x} + {x.(writable := true)}), p, r))
  {
    var s1 := PlayGrant(s, mem, m, x);
    s' := PlayUnlock(s1, mem, m.(maps := m.maps - {x} + {x.(writable := true)}), p);
    r := m.pages[p].(locked := false, phase := Idle);
    Then(s, mem, [GrantWrite(x)], s1, mem, [Unlock(p)], s', mem, [GrantWrite(x), Unlock(p)]);
  }

  lemma SceneDirty(s: State, mem: Memory, m: Scene, p: PageId, d: nat) returns (s': State, r: Page)
    requires Looks(s, m) && p < |m.pages| && Resting(m.pages[p], d) && Key(d, 0) !in m.tree && m.clean == [p]
             && m.dirty == []
    ensures Via(s, mem, [MkLock(p, d, 0), MkTree(p)] + [MkLeave(p), MkEnter(p)], s', mem)
    ensures r == m.pages[p].(locked := true, dirty := true, buf := BI_DIRTY, phase := Settled)
    ensures Looks(s', With(m.(tree := m.tree[Key(d, 0) := p], clean := [], dirty := [p]), p, r))
  {
    var s1, r1 := SceneMark(s, mem, m, p, d);
    s', r := SceneMove(s1, mem, With(m.(tree := m.tree[Key(d, 0) := p]), p, r1), p);
    WithTwice(m.(tree := m.tree[Key(d, 0) := p], clean := [], dirty := [p]), p, r1, r);
    ViaOn(s, mem, [MkLock(p, d, 0), MkTree(p)], s1, mem, [MkLeave(p), MkEnter(p)], s', mem);
  }

  lemma SceneWrite(s: State, mem: Memory, m: Scene, p: PageId, x: Mapping, v: Data) returns (s': State)
    requires Looks(s, m) && p < |m.pages| && Resting(m.pages[p], x.key.dev) && x.key.off == 0 && x.page == p
             && x in m.maps
    requires x.key !in m.tree && m.clean == [p] && m.dirty == []
    ensures Via(s, mem, Write(p, x, v), s', mem[x.key := v])
    ensures |s'.pages| == |m.pages| && forall i :: 0 <= i < |m.pages| && i != p ==> s'.pages[i] == m.pages[i]
    ensures s'.maps == m.maps - {x} + {x.(writable := true)}
  {
    var d := x.key.dev;
    var n := m.(tree := m.tree[Key(d, 0) := p], clean := [], dirty := [p]);
    var g := n.(maps := m.maps - {x} + {x.(writable := true)});
    var a := [MkLock(p, d, 0), MkTree(p)] + [MkLeave(p), MkEnter(p)];
    var s1, r1 := SceneDirty(s, mem, m, p, d);
    var s2, r2 := SceneGrant(s1, mem, With(n, p, r1), p, x);
    WithTwice(g, p, r1, r2);
    s' := PlayStore(s2, mem, With(g, p, r2), x.(writable := true), v);
    ViaOn(s, mem, a, s1, mem, [GrantWrite(x), Unlock(p)], s2, mem);
    ViaOn(s, mem, a + [GrantWrite(x), Unlock(p)], s2, mem, [Store(x.(writable := true), v)], s', mem[x.key := v]);
  }

  // ---- the load that misses a store ----------------------------------------------------------

  /** The page is taken off the index; before its purge unmaps it, the block is faulted in again into
      page 1, mapped by another VMA, and stored to. */
  function Rewrite(vma: nat, v: Data): seq<Step> {
    [PgDequeue(0), PgUnindex(0)] + Miss(1, 0, Key(1, 0)) + Look(1, Key(1, 0), vma)
      + Write(1, Mapping(vma, Key(1, 0), 1, false), v)
  }

  lemma SceneAgain(s: State, mem: Memory, m: Scene, vma: nat) returns (s': State, r: Page, m': Scene)
    requires Looks(s, m) && |m.pages| == 2 && Resting(m.pages[0], 1) && Blank(m.pages[1]) && m.free == [1]
    requires m.clean == [0] && m.rdx == map[Key(1, 0) := 0] && m.tree == map[] && m.dirty == []
    ensures Via(s, mem, [PgDequeue(0), PgUnindex(0)] + Miss(1, 0, Key(1, 0)) + Look(1, Key(1, 0), vma), s', mem)
    ensures Looks(s', m') && |m'.pages| == 2 && Resting(m'.pages[1], 1) && m'.pages[0].data == 0
            && m'.pages[0].phase == PgUnindexed
    ensures m'.clean == [1] && m'.dirty == [] && m'.tree == map[]
            && m'.maps == m.maps + {Mapping(vma, Key(1, 0), 1, false)}
  {
    var k := Key(1, 0);
    var a := [PgDequeue(0), PgUnindex(0)];
    var s1, r1 := ScenePurge(s, mem, m, 0, Key(1, 0));
    var m1 := With(m.(clean := m.clean[1..], rdx := m.rdx - {k}), 0, r1);
    assert m1.rdx == map[] && m1.clean == [];
    var s2;
    s2, r := SceneMiss(s1, mem, m1, 1, 1);
    var m2 := With(Cached(m1.(free := m1.free[1..]), 1, 1), 1, r);
    s' := SceneLook(s2, mem, m2, 1, 1, vma);
    m' := m2.(maps := m2.maps + {Mapping(vma, k, 1, false)});
    ViaOn(s, mem, a, s1, mem, Miss(1, 0, k), s2, mem);
    ViaOn(s, mem, a + Miss(1, 0, k), s2, mem, Look(1, k, vma), s', mem);
  }

  /** Block 0 of device 1 holds 0 at the start. */
  const ZERO: Memory := map[Key(1, 0) := 0]

  /** A history of a two-page cache in which a load does not see the last store: VMA `old_` still maps
      page 0, which holds 0, while the last store to its block left v. */
  lemma StaleLoad(old_: nat, vma: nat, v: Data) returns (trapped: State, s: State)
    requires v != 0
    ensures Init(Start(2)) && InitialMemory(Start(2), ZERO)
    ensures Via(Start(2), ZERO, Trap(old_), trapped, ZERO)
    ensures Via(trapped, ZERO, Rewrite(vma, v), s, ZERO[Key(1, 0) := v])
    ensures Mapping(old_, Key(1, 0), 0, false) in s.maps && |s.pages| == 2
    ensures s.pages[0].phase == PgUnindexed && s.pages[0].data != ZERO[Key(1, 0) := v][Key(1, 0)]
  {
    StartInit(2);
    var r;
    trapped, r := SceneTrap(2, ZERO, old_);
    SecondPage(old_, r);
    s := SceneRewrite(trapped, ZERO, Trapped(2, old_, r), old_, vma, v);
  }

  /** Page 0 cached and mapped by `vma`, page 1 free. */
  predicate Poised(m: Scene, vma: nat) {
    && |m.pages| == 2 && Resting(m.pages[0], 1) && Blank(m.pages[1]) && m.free == [1] && m.clean == [0]
    && m.rdx == map[Key(1, 0) := 0] && m.tree == map[] && m.dirty == [] && m.maps == {Mapping(vma, Key(1, 0), 0, false)}
  }

  lemma SecondPage(vma: nat, r: Page)
    requires Resting(r, 1)
    ensures Poised(Trapped(2, vma, r), vma)
  {
  }

  lemma SceneRewrite(s: State, mem: Memory, m: Scene, old_: nat, vma: nat, v: Data) returns (s': State)
    requires Looks(s, m) && Poised(m, old_)
    ensures Via(s, mem, Rewrite(vma, v), s', mem[Key(1, 0) := v])
    ensures |s'.pages| == 2 && s'.pages[0].data == 0 && s'.pages[0].phase == PgUnindexed
    ensures Mapping(old_, Key(1, 0), 0, false) in s'.maps
  {
    var k, x := Key(1, 0), Mapping(vma, Key(1, 0), 1, false);
    var s1, r1, m1 := SceneAgain(s, mem, m, vma);
    s' := SceneWrite(s1, mem, m1, 1, x, v);
    ViaOn(s, mem, [PgDequeue(0), PgUnindex(0)] + Miss(1, 0, k) + Look(1, k, vma), s1, mem,
          Write(1, x, v), s', mem[k := v]);
  }
}
