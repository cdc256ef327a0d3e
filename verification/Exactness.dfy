/** Where the code departs from the protocol, the exact condition under which it does not; and
    what a page fault and its races come to. */
module Exactness {
  import opened Params
  import opened Fifo
  import opened Placement
  import opened Lifecycle
  import opened Invariant
  import opened Coherence
  import opened Moves
  import opened Steps
  import opened Theorems
  import opened Guarantees

  // ---- a block that coalescing leaves out ----------------------------------------------------

  /** Leaving a page out of the write is harmless if and only if the device already holds what
      the page holds, or nothing defined was ever stored there. */
  lemma DropExact(s: State, mem: Memory, p: PageId)
    requires Inv(s, mem) && Enabled(s, DropBlock(p))
    ensures Coherent(DoDropBlock(s, p), mem) <==>
              (KeyOf(s.pages[p]) in mem ==> Block(s.disk, KeyOf(s.pages[p])) == s.pages[p].data)
  {
    var s', k := DoDropBlock(s, p), KeyOf(s.pages[p]);
    Local(s, p);
    Recall(s, mem);
    assert PageCoherent(s.pages[p], s.disk, mem);
    if Coherent(s', mem) {
      Recall(s', mem);
      assert PageCoherent(s'.pages[p], s'.disk, mem);
    }
    if k in mem ==> Block(s.disk, k) == s.pages[p].data {
      forall x | 0 <= x < |s'.pages| ensures PageCoherent(s'.pages[x], s'.disk, mem) {
        assert PageCoherent(s.pages[x], s.disk, mem);
      }
      forall x | 0 <= x < |s'.pages| && Loaded(s'.pages[x].phase) ensures Readable(s', KeyOf(s'.pages[x])) {
        assert Loaded(s.pages[x].phase);
      }
      Establish(s', mem);
    }
  }

  // ---- a write-back that does not protect ----------------------------------------------------

  /** The release callbacks: the page goes on to the write as if it had been protected. */
  function Unprotected(s: State, p: PageId): State
    requires p < |s.pages|
  {
    WithPage(s, p, s.pages[p].(phase := FsProtected))
  }

  /** Doing without the protection keeps the invariant if and only if the page has no writable mapping. */
  lemma SkipExact(s: State, mem: Memory, p: PageId)
    requires Inv(s, mem) && InPhase(s, p, FsOut)
    ensures Inv(Unprotected(s, p), mem) <==> NoWritable(s, p)
  {
    if NoWritable(s, p) { KeepSkipProtect(s, mem, p); }
    if Inv(Unprotected(s, p), mem) {
      assert Holds(PageTables, Unprotected(s, p));
      forall m | m in s.maps && m.page == p ensures !m.writable {
        assert MappingOk(Unprotected(s, p).pages, m);
      }
    }
  }

  // ---- mkwrite on a page that changed hands --------------------------------------------------

  /** One attempt of perma_page_mkwrite by a VMA of pvd `d` for offset `o` on page `p`: no step at all
      when it gives up, or finds the page locked and waits to try again. */
  function Mkwrite(s: State, p: PageId, d: nat, o: nat): seq<Step>
    requires p < |s.pages|
  {
    if TryLock(s.pages[p], Some(o)) != 0 then []
    else if s.pages[p].dirty then [MkLock(p, d, o), Unlock(p)]
    else [MkLock(p, d, o), MkTree(p), MkLeave(p), MkEnter(p), Unlock(p)]
  }

  /** A granted mkwrite leaves the page dirty and where a dirty page belongs if and only if the
      page was dirty already or is a page of the VMA's own pvd. */
  lemma MkwriteExact(s: State, p: PageId, d: nat, o: nat)
    requires Structure(s) && p < |s.pages| && TryLock(s.pages[p], Some(o)) == 0
    ensures Legal(s, Mkwrite(s, p, d, o))
    ensures var s' := After(s, Mkwrite(s, p, d, o));
            && |s'.pages| == |s.pages| && |s'.hands| == EVICTOR_THREADS
            && s'.pages[p].dirty && s'.pages[p].phase == Idle && KeyOf(s'.pages[p]) == KeyOf(s.pages[p])
            && (DirtyPlace(s', p) <==> s.pages[p].dirty || s.pages[p].pvd == d)
  {
    LockIdle(s, p);
    if s.pages[p].dirty {
      MkwriteAgain(s, p, d, o);
    } else {
      MkwriteClean(s, p, d, o);
    }
  }

  lemma MkwriteAgain(s: State, p: PageId, d: nat, o: nat)
    requires Structure(s) && p < |s.pages| && TryLock(s.pages[p], Some(o)) == 0 && s.pages[p].dirty
    requires s.pages[p].phase == Idle
    ensures Legal(s, Mkwrite(s, p, d, o)) && After(s, Mkwrite(s, p, d, o)) == s && DirtyPlace(s, p)
  {
    var s1 := Apply(s, MkLock(p, d, o));
    var s2 := Apply(s1, Unlock(p));
    assert s2.pages == s.pages;
    assert After(s1, [Unlock(p)]) == s2;
    assert Mkwrite(s, p, d, o)[1..] == [Unlock(p)];
    ExactlyOneQueue(s, p);
  }

  /** The state a granted mkwrite on a clean page comes to. */
  function Dirtied(s: State, p: PageId, d: nat): State
    requires Shape(s) && p < |s.pages|
  {
    var r, k := s.pages[p], Key(d, s.pages[p].index);
    var q, e := CleanQueue(r.index), DirtyQueue(r.index);
    WithPage(s, p, r.(dirty := true, buf := BI_DIRTY))
      .(trees := if Has(s.trees, k) then s.trees else Put(s.trees, k, p),
        clean := s.clean[q := Remove(s.clean[q], p)],
        dirty := s.dirty[e := Enqueue(s.dirty[e], p)])
  }

  /** The steps of a mkwrite from its end backwards, each with the state it leads to. */
  lemma EnterRun(s: State, p: PageId)
    requires Shape(s) && InPhase(s, p, MkLoose) && !Full(s.dirty[DirtyQueue(s.pages[p].index)])
    ensures var run, r, e := [MkEnter(p), Unlock(p)], s.pages[p], DirtyQueue(s.pages[p].index);
            && Legal(s, run)
            && After(s, run) == WithPage(s, p, r.(locked := false, buf := BI_DIRTY, phase := Idle))
                 .(dirty := s.dirty[e := Enqueue(s.dirty[e], p)])
  {
    var s1 := DoMkEnter(s, p);
    One(s1, Unlock(p));
    Cons(s, MkEnter(p), [Unlock(p)]);
    assert [MkEnter(p), Unlock(p)] == [MkEnter(p)] + [Unlock(p)];
    UpdateTwice(s.pages, p, s1.pages[p], DoUnlock(s1, p).pages[p]);
  }

  lemma UpdateTwice<T>(s: seq<T>, p: nat, a: T, b: T)
    requires p < |s|
    ensures s[p := a][p := b] == s[p := b]
  {
  }

  lemma LeaveRun(s: State, p: PageId)
    requires Shape(s) && InPhase(s, p, MkInTree) && !Full(s.dirty[DirtyQueue(s.pages[p].index)])
    ensures var run, r := [MkLeave(p), MkEnter(p), Unlock(p)], s.pages[p];
            var q, e := CleanQueue(r.index), DirtyQueue(r.index);
            && Legal(s, run)
            && After(s, run) == WithPage(s, p, r.(locked := false, buf := BI_DIRTY, phase := Idle))
                 .(clean := s.clean[q := Remove(s.clean[q], p)], dirty := s.dirty[e := Enqueue(s.dirty[e], p)])
  {
    var s1, tail := DoMkLeave(s, p), [MkEnter(p), Unlock(p)];
    EnterRun(s1, p);
    Cons(s, MkLeave(p), tail);
    assert [MkLeave(p), MkEnter(p), Unlock(p)] == [MkLeave(p)] + tail;
    UpdateTwice(s.pages, p, s1.pages[p], s1.pages[p].(locked := false, buf := BI_DIRTY, phase := Idle));
  }

  lemma TreeRun(s: State, p: PageId)
    requires Shape(s) && p < |s.pages| && s.pages[p].phase.MkMarked?
    requires !Full(s.dirty[DirtyQueue(s.pages[p].index)])
    ensures var run, r := [MkTree(p), MkLeave(p), MkEnter(p), Unlock(p)], s.pages[p];
            var k, q, e := Key(r.phase.vmaDev, r.index), CleanQueue(r.index), DirtyQueue(r.index);
            && Legal(s, run)
            && After(s, run) == WithPage(s, p, r.(locked := false, buf := BI_DIRTY, phase := Idle))
                 .(trees := if Has(s.trees, k) then s.trees else Put(s.trees, k, p),
                   clean := s.clean[q := Remove(s.clean[q], p)], dirty := s.dirty[e := Enqueue(s.dirty[e], p)])
  {
    var s1, tail := DoMkTree(s, p), [MkLeave(p), MkEnter(p), Unlock(p)];
    LeaveRun(s1, p);
    Cons(s, MkTree(p), tail);
    assert [MkTree(p), MkLeave(p), MkEnter(p), Unlock(p)] == [MkTree(p)] + tail;
    UpdateTwice(s.pages, p, s1.pages[p], s1.pages[p].(locked := false, buf := BI_DIRTY, phase := Idle));
  }

  lemma MkwriteRun(s: State, p: PageId, d: nat, o: nat)
    requires Shape(s) && p < |s.pages| && TryLock(s.pages[p], Some(o)) == 0 && !s.pages[p].dirty
    requires s.pages[p].phase == Idle && !Full(s.dirty[DirtyQueue(s.pages[p].index)])
    ensures Legal(s, Mkwrite(s, p, d, o)) && After(s, Mkwrite(s, p, d, o)) == Dirtied(s, p, d)
  {
    var s1, tail := DoMkLock(s, p, d, o), [MkTree(p), MkLeave(p), MkEnter(p), Unlock(p)];
    TreeRun(s1, p);
    Cons(s, MkLock(p, d, o), tail);
    assert Mkwrite(s, p, d, o) == [MkLock(p, d, o)] + tail;
    UpdateTwice(s.pages, p, s1.pages[p], Dirtied(s, p, d).pages[p]);
  }

  lemma One(s: State, t: Step)
    requires Enabled(s, t)
    ensures Legal(s, [t]) && After(s, [t]) == Apply(s, t)
  {
    assert [t][1..] == [];
  }

  lemma Cons(s: State, t: Step, rest: seq<Step>)
    requires Enabled(s, t) && Legal(Apply(s, t), rest)
    ensures Legal(s, [t] + rest) && After(s, [t] + rest) == After(Apply(s, t), rest)
  {
    assert ([t] + rest)[1..] == rest;
  }

  lemma MkwriteClean(s: State, p: PageId, d: nat, o: nat)
    requires Structure(s) && p < |s.pages| && TryLock(s.pages[p], Some(o)) == 0
    requires s.pages[p].phase == Idle && !s.pages[p].dirty
    ensures Legal(s, Mkwrite(s, p, d, o)) && After(s, Mkwrite(s, p, d, o)) == Dirtied(s, p, d)
    ensures DirtyPlace(Dirtied(s, p, d), p) <==> s.pages[p].pvd == d
  {
    NeverFull(s);
    MkwriteRun(s, p, d, o);
    Local(s, p);
    QueuesOf(s, p);
    DirtiedQueues(s, p, d);
    var s', k := Dirtied(s, p, d), KeyOf(s.pages[p]);
    NotInTree(s, p);
    HasAfter(s.trees, Key(d, k.off), p, k);
    assert s.hands[DirtyQueue(k.off)] != Probed(p, k.dev) by { assert Holds(Hands, s); }
  }

  lemma DirtiedQueues(s: State, p: PageId, d: nat)
    requires Structure(s) && p < |s.pages| && s.pages[p].buf == BI_CLEAN && s.pages[p].phase == Idle
    ensures forall q :: !InClean(Dirtied(s, p, d), p, q)
    ensures forall e :: InDirty(Dirtied(s, p, d), p, e) <==> e == DirtyQueue(s.pages[p].index)
  {
    QueuesOf(s, p);
    NeverFull(s);
    assert Holds(CleanFifos, s);
    var s', r := Dirtied(s, p, d), s.pages[p];
    assert NoDup(Items(s.clean)[CleanQueue(r.index)]);
    forall q: nat ensures !InClean(s', p, q) {
      assert InClean(s, p, q) <==> q == CleanQueue(r.index);
    }
    forall e: nat ensures InDirty(s', p, e) <==> e == DirtyQueue(r.index) {
      assert !InDirty(s, p, e);
      if e == DirtyQueue(r.index) { assert s'.dirty[e].items[|s.dirty[e].items|] == p; }
    }
  }

  // ---- a read that is only pretended ---------------------------------------------------------

  /** The read that ends a miss fetches the block if and only if it is a file's or its bit is set; any
      other block keeps, as its contents, whatever the page held in its last life, unless by chance that
      is what the device holds. Its bit is then set, and a block the memory defines is never concerned. */
  lemma FakeReadExact(s: State, mem: Memory, p: PageId)
    requires Inv(s, mem) && Enabled(s, ReadIn(p))
    ensures var k, r, r' := KeyOf(s.pages[p]), s.pages[p], DoReadIn(s, p).pages[p];
            && (r'.data == Block(s.disk, k) <==> k.dev in s.files || k in s.bitmap || r.data == Block(s.disk, k))
            && (k.dev !in s.files && k !in s.bitmap ==> r'.data == r.data && k !in mem)
            && r'.valid && DoReadIn(s, p).bitmap == s.bitmap + {k}
            && (k in mem ==> r'.data == Block(s.disk, k) == mem[k])
  {
    Recall(s, mem);
    Local(s, p);
    assert PageCoherent(s.pages[p], s.disk, mem);
  }

  // ---- a page fault --------------------------------------------------------------------------

  /** The steps of a fault that misses, from the free page to the unlocked one. */
  function Miss(p: PageId, cpu: nat, k: Key): seq<Step> {
    [Pop(cpu, k.dev, k.off), Prepare(p), Publish(p), IndexInsert(p), EnterClean(p), ReadIn(p), Unlock(p)]
  }

  /** `run` takes the cache to a state where page `p` rests clean and unlocked as the only entry for
      block `k`, holding the last stored contents. */
  ghost predicate Brings(s: State, mem: Memory, run: seq<Step>, p: PageId, k: Key) {
    && Legal(s, run) && SoundRun(s, run)
    && var s' := After(s, run);
    && Inv(s', mem) && p < |s'.pages| && Has(s'.rdx, k) && Get(s'.rdx, k) == p
    && s'.pages[p].phase == Idle && KeyOf(s'.pages[p]) == k && !s'.pages[p].dirty
    && (k in mem ==> s'.pages[p].data == mem[k])
  }

  lemma BringsBy(s: State, mem: Memory, t: Step, rest: seq<Step>, p: PageId, k: Key)
    requires Enabled(s, t) && Sound(s, t) && Brings(Apply(s, t), mem, rest, p, k)
    ensures Brings(s, mem, [t] + rest, p, k)
  {
    assert ([t] + rest)[1..] == rest;
  }

  lemma MissUnlocks(s: State, mem: Memory, p: PageId)
    requires Inv(s, mem) && InPhase(s, p, Settled) && !s.pages[p].dirty
    ensures Brings(s, mem, [Unlock(p)], p, KeyOf(s.pages[p]))
  {
    var s', k := DoUnlock(s, p), KeyOf(s.pages[p]);
    Local(s, p);
    KeepUnlock(s, mem, p);
    ExactlyOneQueue(s', p);
    if k in mem { ContentsAgree(s', mem, k); }
    One(s, Unlock(p));
    assert [Unlock(p)][1..] == [];
  }

  lemma MissReads(s: State, mem: Memory, p: PageId)
    requires Inv(s, mem) && InPhase(s, p, Filling)
    ensures Brings(s, mem, [ReadIn(p)] + [Unlock(p)], p, KeyOf(s.pages[p]))
  {
    Local(s, p);
    KeepReadIn(s, mem, p);
    MissUnlocks(DoReadIn(s, p), mem, p);
    BringsBy(s, mem, ReadIn(p), [Unlock(p)], p, KeyOf(s.pages[p]));
  }

  lemma MissEnters(s: State, mem: Memory, p: PageId)
    requires Inv(s, mem) && InPhase(s, p, Indexed)
    ensures Brings(s, mem, [EnterClean(p)] + ([ReadIn(p)] + [Unlock(p)]), p, KeyOf(s.pages[p]))
  {
    Local(s, p);
    KeepEnterClean(s, mem, p);
    MissReads(DoEnterClean(s, p), mem, p);
    BringsBy(s, mem, EnterClean(p), [ReadIn(p)] + [Unlock(p)], p, KeyOf(s.pages[p]));
  }

  lemma MissIndexes(s: State, mem: Memory, p: PageId)
    requires Inv(s, mem) && InPhase(s, p, Fresh) && !Has(s.rdx, KeyOf(s.pages[p]))
    ensures Brings(s, mem, [IndexInsert(p)] + ([EnterClean(p)] + ([ReadIn(p)] + [Unlock(p)])), p, KeyOf(s.pages[p]))
  {
    KeepIndexInsert(s, mem, p);
    MissEnters(DoIndexInsert(s, p), mem, p);
    BringsBy(s, mem, IndexInsert(p), [EnterClean(p)] + ([ReadIn(p)] + [Unlock(p)]), p, KeyOf(s.pages[p]));
  }

  lemma MissPrepares(s: State, mem: Memory, p: PageId, k: Key)
    requires Inv(s, mem) && InPhase(s, p, Popped(k.dev, k.off)) && !Has(s.rdx, k)
    ensures var tail := [IndexInsert(p)] + ([EnterClean(p)] + ([ReadIn(p)] + [Unlock(p)]));
            Brings(s, mem, [Prepare(p)] + ([Publish(p)] + tail), p, k)
  {
    var tail := [IndexInsert(p)] + ([EnterClean(p)] + ([ReadIn(p)] + [Unlock(p)]));
    var s1 := DoPrepare(s, p);
    KeepPrepare(s, mem, p);
    KeepPublish(s1, mem, p);
    MissIndexes(DoPublish(s1, p), mem, p);
    BringsBy(s1, mem, Publish(p), tail, p, k);
    BringsBy(s, mem, Prepare(p), [Publish(p)] + tail, p, k);
  }

  lemma FreePage(s: State, c: nat)
    requires Structure(s) && c < |s.free| && s.free[c] != []
    ensures s.free[c][0] < |s.pages| && s.home[s.free[c][0]] == c
  {
    assert Holds(FreeLists, s);
    assert s.free[c][0] in s.free[c];
  }

  /** A miss run alone from any state with a free page succeeds: the page ends up indexed for the
      requested block, valid, clean, unlocked, and with the last stored contents. */
  lemma MissCompletes(s: State, mem: Memory, c: nat, k: Key)
    requires Inv(s, mem) && c < |s.free| && s.free[c] != [] && !Has(s.rdx, k)
    ensures s.free[c][0] < |s.pages| && Brings(s, mem, Miss(s.free[c][0], c, k), s.free[c][0], k)
  {
    var p := s.free[c][0];
    FreePage(s, c);
    var tail := [Prepare(p)] + ([Publish(p)] + ([IndexInsert(p)] + ([EnterClean(p)] + ([ReadIn(p)] + [Unlock(p)]))));
    KeepPop(s, mem, c, k.dev, k.off);
    MissPrepares(DoPop(s, c, k.dev, k.off), mem, p, k);
    BringsBy(s, mem, Pop(c, k.dev, k.off), tail, p, k);
    assert Miss(p, c, k) == [Pop(c, k.dev, k.off)] + tail;
  }

  lemma {:induction false} SamePages(s: State, run: seq<Step>)
    requires Legal(s, run)
    ensures |After(s, run).pages| == |s.pages| && After(s, run).home == s.home
    decreases |run|
  {
    if run != [] { SamePages(Apply(s, run[0]), run[1..]); }
  }
}
