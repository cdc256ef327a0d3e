/** What the invariant means in the driver's own terms: one queue per page, pages conserved, one
    index entry per block, a lock that pins a page's identity, and the assertions of the source. */
module Guarantees {
  import opened Params
  import opened Fifo
  import opened Placement
  import opened Lifecycle
  import opened Invariant
  import opened Moves
  import opened Theorems
  import opened Counting

  // ---- exactly one queue ---------------------------------------------------------------------

  predicate InClean(s: State, p: PageId, q: nat) { q < |s.clean| && p in s.clean[q].items }

  predicate InDirty(s: State, p: PageId, e: nat) { e < |s.dirty| && p in s.dirty[e].items }

  /** In clean FIFO `index % 32`, in no other queue and in no dirty tree. */
  ghost predicate CleanPlace(s: State, p: PageId)
    requires p < |s.pages|
  {
    && (forall q: nat :: InClean(s, p, q) <==> q == s.pages[p].index % 32)
    && (forall e :: !InDirty(s, p, e))
    && (forall c, k :: 0 <= c < |s.trees| && k in s.trees[c] ==> s.trees[c][k] != p)
  }

  /** In dirty FIFO `(index >> 9) % 8`, in no other queue, and in dirty tree `index % ncpus` of its
      own pvd, from which at most the evictor of that very FIFO may hold it out for a moment. */
  ghost predicate DirtyPlace(s: State, p: PageId)
    requires p < |s.pages| && |s.hands| == EVICTOR_THREADS
  {
    var r := s.pages[p];
    && (forall q :: !InClean(s, p, q))
    && (forall e: nat :: InDirty(s, p, e) <==> e == (r.index / 512) % 8)
    && ((Has(s.trees, KeyOf(r)) && Get(s.trees, KeyOf(r)) == p)
        || s.hands[(r.index / 512) % 8] == Probed(p, r.pvd))
  }

  /** Each unlocked page in use is indexed, valid, and in exactly one queue: the one of its kind. */
  lemma ExactlyOneQueue(s: State, p: PageId)
    requires Structure(s) && p < |s.pages| && s.pages[p].inUse && !s.pages[p].locked
    ensures s.pages[p].valid && Has(s.rdx, KeyOf(s.pages[p])) && Get(s.rdx, KeyOf(s.pages[p])) == p
    ensures if s.pages[p].dirty then DirtyPlace(s, p) else CleanPlace(s, p)
  {
    var r := s.pages[p];
    Local(s, p);
    QueuesOf(s, p);
    assert Has(s.rdx, KeyOf(r)) && Get(s.rdx, KeyOf(r)) == p by {
      assert Holds(Index, s);
      assert IndexAts(s.pages)[p] == Some(KeyOf(r));
    }
    if r.dirty {
      assert TreeAts(s.pages)[p] == TreeAt(r);
      assert Holds(Trees, s) && Holds(Hands, s);
    } else {
      forall c, k | 0 <= c < |s.trees| && k in s.trees[c] ensures s.trees[c][k] != p {
        assert Holds(Trees, s);
      }
    }
  }

  /** Two resting clean pages are in one FIFO if and only if their indices agree modulo 32, and two
      resting dirty ones if and only if their blocks of 512 pages agree modulo 8. */
  lemma SharedQueue(s: State, p: PageId, x: PageId)
    requires Structure(s) && p < |s.pages| && x < |s.pages|
    requires s.pages[p].inUse && !s.pages[p].locked && s.pages[x].inUse && !s.pages[x].locked
    ensures !s.pages[p].dirty && !s.pages[x].dirty ==>
              ((exists q :: InClean(s, p, q) && InClean(s, x, q)) <==>
               s.pages[p].index % 32 == s.pages[x].index % 32)
    ensures s.pages[p].dirty && s.pages[x].dirty ==>
              ((exists e :: InDirty(s, p, e) && InDirty(s, x, e)) <==>
               (s.pages[p].index / 512) % 8 == (s.pages[x].index / 512) % 8)
    ensures s.pages[p].dirty != s.pages[x].dirty ==>
              && (forall q: nat :: !(InClean(s, p, q) && InClean(s, x, q)))
              && (forall e: nat :: !(InDirty(s, p, e) && InDirty(s, x, e)))
  {
    ExactlyOneQueue(s, p);
    ExactlyOneQueue(s, x);
    assert !s.pages[p].dirty ==> InClean(s, p, s.pages[p].index % 32);
    assert s.pages[p].dirty ==> InDirty(s, p, (s.pages[p].index / 512) % 8);
  }

  /** Every entry of the index and of the dirty trees is in the shard of its offset, and in no other. */
  lemma EntryShards(s: State, k: Key, c: nat)
    requires Structure(s) && c < |s.rdx|
    ensures |s.trees| == |s.rdx| == |s.free|
    ensures k in s.rdx[c] ==> c == k.off % |s.rdx| && s.rdx[c][k] < |s.pages| && KeyOf(s.pages[s.rdx[c][k]]) == k
    ensures k in s.trees[c] ==>
            c == k.off % |s.trees| && s.trees[c][k] < |s.pages| && KeyOf(s.pages[s.trees[c][k]]) == k
  {
    assert Holds(Index, s) && Holds(Trees, s);
    if k in s.rdx[c] { assert IndexAts(s.pages)[s.rdx[c][k]] == Some(k); }
    if k in s.trees[c] { assert TreeAts(s.pages)[s.trees[c][k]] == Some(k); }
  }

  /** A page is in the clean or dirty FIFO that its buffer_id and index name, and in no other. */
  lemma QueuesOf(s: State, p: PageId)
    requires Structure(s) && p < |s.pages|
    ensures forall q: nat :: InClean(s, p, q) <==> CleanAt(s.pages[p]) == Some(q)
    ensures forall e: nat :: InDirty(s, p, e) <==> DirtyAt(s.pages[p]) == Some(e)
  {
    assert Holds(CleanFifos, s) && Holds(DirtyFifos, s);
    var cs, ds := Items(s.clean), Items(s.dirty);
    forall q: nat ensures InClean(s, p, q) <==> CleanAt(s.pages[p]) == Some(q) {
      if InClean(s, p, q) { assert p in cs[q]; }
      if CleanAt(s.pages[p]) == Some(q) { assert CleanAts(s.pages)[p].Some?; }
    }
    forall e: nat ensures InDirty(s, p, e) <==> DirtyAt(s.pages[p]) == Some(e) {
      if InDirty(s, p, e) { assert p in ds[e]; }
      if DirtyAt(s.pages[p]) == Some(e) { assert DirtyAts(s.pages)[p].Some?; }
    }
  }

  /** In no queue at all: then the page is free, being allocated or freed, or locked. */
  lemma NoQueue(s: State, p: PageId)
    requires Structure(s) && p < |s.pages|
    requires (forall q :: !InClean(s, p, q)) && (forall e :: !InDirty(s, p, e))
    ensures !s.pages[p].inUse || s.pages[p].locked
    ensures s.pages[p].inUse || s.pages[p].locked || s.pages[p].phase.Popped? || s.pages[p].phase.Prepared?
            || s.pages[p].phase.Detached? || (s.home[p] < |s.free| && p in s.free[s.home[p]])
  {
    Local(s, p);
    QueuesOf(s, p);
    assert FreeAts(s.pages, s.home)[p] == FreeAt(s.pages[p], s.home[p]);
    assert Holds(FreeLists, s);
    assert !InClean(s, p, CleanQueue(s.pages[p].index)) && !InDirty(s, p, DirtyQueue(s.pages[p].index));
  }

  // ---- the sharded index is one injective map ------------------------------------------------

  /** Every entry names an in-use page that carries exactly that block, and no two entries, in
      whatever shards, name the same page. */
  lemma IndexInjective(s: State, k: Key, j: Key)
    requires Structure(s) && Has(s.rdx, k) && Has(s.rdx, j)
    ensures var p := Get(s.rdx, k); p < |s.pages| && s.pages[p].inUse && KeyOf(s.pages[p]) == k
    ensures Get(s.rdx, k) == Get(s.rdx, j) ==> k == j
    ensures forall c :: 0 <= c < |s.rdx| && k in s.rdx[c] ==> c == k.off % |s.rdx|
  {
    IndexEntry(s, k);
    IndexEntry(s, j);
    Local(s, Get(s.rdx, k));
    assert Holds(Index, s);
  }

  // ---- conservation --------------------------------------------------------------------------

  function TotalSize(fs: seq<Queue<PageId>>): int {
    if fs == [] then 0 else TotalSize(fs[..|fs| - 1]) + fs[|fs| - 1].size
  }

  /** Pages that are on no list: popped, detached, or carried by the thread that locked them. */
  function InTransit(s: State): set<PageId> {
    set p | 0 <= p < |s.pages| && !s.pages[p].phase.OnFreeList? && s.pages[p].buf == BI_NONE
  }

  lemma {:induction false} SizesAreLengths(fs: seq<Queue<PageId>>, n: nat)
    requires n <= |fs| && forall q :: 0 <= q < |fs| ==> fs[q].size == |fs[q].items|
    ensures TotalSize(fs[..n]) == TotalLength(Items(fs)[..n])
  {
    if n > 0 {
      SizesAreLengths(fs, n - 1);
      assert fs[..n][..n - 1] == fs[..n - 1];
      assert Items(fs)[..n][..n - 1] == Items(fs)[..n - 1];
    }
  }

  /** Free lists, clean FIFOs, dirty FIFOs and pages in transit always add up to all pages. */
  lemma Conservation(s: State)
    requires Structure(s)
    ensures TotalLength(s.free) + TotalSize(s.clean) + TotalSize(s.dirty) + |InTransit(s)| == |s.pages|
  {
    assert Holds(FreeLists, s) && Holds(CleanFifos, s) && Holds(DirtyFifos, s) && Holds(Sizes, s);
    var fs, cs, ds := FreeAts(s.pages, s.home), CleanAts(s.pages), DirtyAts(s.pages);
    ListsCount(s.free, fs, |s.free|);
    ListsCount(Items(s.clean), cs, NUM_QUEUES);
    ListsCount(Items(s.dirty), ds, EVICTOR_THREADS);
    SizesAreLengths(s.clean, NUM_QUEUES);
    SizesAreLengths(s.dirty, EVICTOR_THREADS);
    assert s.free[..|s.free|] == s.free && s.clean[..NUM_QUEUES] == s.clean;
    assert s.dirty[..EVICTOR_THREADS] == s.dirty;
    assert Items(s.clean)[..NUM_QUEUES] == Items(s.clean);
    assert Items(s.dirty)[..EVICTOR_THREADS] == Items(s.dirty);
    var all := Numbers(|s.pages|);
    var f, c, d := Below(fs, |s.free|), Below(cs, NUM_QUEUES), Below(ds, EVICTOR_THREADS);
    Partitioned(s, all, f, c, d, InTransit(s));
  }

  predicate InFree(s: State, p: PageId, c: nat) { c < |s.free| && p in s.free[c] }

  /** The pages in transit are exactly those that no free list and no FIFO holds. */
  lemma TransitExact(s: State, p: PageId)
    requires Structure(s) && p < |s.pages|
    ensures p in InTransit(s) <==> (forall c: nat :: !InFree(s, p, c)) && (forall q: nat :: !InClean(s, p, q))
                                   && (forall e: nat :: !InDirty(s, p, e))
  {
    Local(s, p);
    QueuesOf(s, p);
    assert Holds(FreeLists, s);
    assert FreeAts(s.pages, s.home)[p] == FreeAt(s.pages[p], s.home[p]);
    if s.pages[p].phase.OnFreeList? { assert InFree(s, p, s.home[p]); }
    if s.pages[p].buf == BI_CLEAN { assert InClean(s, p, CleanQueue(s.pages[p].index)); }
    if s.pages[p].buf == BI_DIRTY { assert InDirty(s, p, DirtyQueue(s.pages[p].index)); }
    forall c: nat | InFree(s, p, c) ensures s.pages[p].phase.OnFreeList? {
      assert FreeAts(s.pages, s.home)[p] == Some(c);
    }
  }

  lemma Partitioned(s: State, all: set<PageId>, f: set<PageId>, c: set<PageId>, d: set<PageId>, t: set<PageId>)
    requires Structure(s) && all == Numbers(|s.pages|)
    requires f == Below(FreeAts(s.pages, s.home), |s.free|) && t == InTransit(s)
    requires c == Below(CleanAts(s.pages), NUM_QUEUES) && d == Below(DirtyAts(s.pages), EVICTOR_THREADS)
    ensures |f| + |c| + |d| + |t| == |all|
  {
    forall p | p in all ensures OneOf(p in f, p in c, p in d, p in t) { OnePlace(s, p, f, c, d, t); }
    FourParts(all, f, c, d, t);
  }

  /** Exactly one of the four. */
  predicate OneOf(f: bool, c: bool, d: bool, t: bool) {
    (f || c || d || t) && !(f && c) && !(f && d) && !(f && t) && !(c && d) && !(c && t) && !(d && t)
  }

  lemma OnePlace(s: State, p: PageId, f: set<PageId>, c: set<PageId>, d: set<PageId>, t: set<PageId>)
    requires Structure(s) && p < |s.pages|
    requires f == Below(FreeAts(s.pages, s.home), |s.free|) && t == InTransit(s)
    requires c == Below(CleanAts(s.pages), NUM_QUEUES) && d == Below(DirtyAts(s.pages), EVICTOR_THREADS)
    ensures OneOf(p in f, p in c, p in d, p in t)
  {
    Local(s, p);
    assert s.home[p] < |s.free| by { assert Holds(Sizes, s); }
    assert FreeAts(s.pages, s.home)[p] == FreeAt(s.pages[p], s.home[p]);
    assert CleanAts(s.pages)[p] == CleanAt(s.pages[p]);
    assert DirtyAts(s.pages)[p] == DirtyAt(s.pages[p]);
  }

  lemma FourParts(all: set<PageId>, f: set<PageId>, c: set<PageId>, d: set<PageId>, t: set<PageId>)
    requires f <= all && c <= all && d <= all && t <= all
    requires forall p :: p in all ==> OneOf(p in f, p in c, p in d, p in t)
    ensures |f| + |c| + |d| + |t| == |all|
  {
    assert f !! c && (f + c) !! d && (f + c + d) !! t;
    assert all == f + c + d + t;
  }

  // ---- the assertions the source carries but does not compile --------------------------------

  /** The DMAP_BGON and BUG conditions that the threads would check on page `p` at the point its
      phase names, each with the negated condition of the source. */
  predicate SourceAssertions(s: State, p: PageId)
    requires Shape(s) && p < |s.pages|
  {
    var r := s.pages[p];
    var q, e := CleanQueue(r.index), DirtyQueue(r.index);
    // alloc_page_lock: a page just taken is not locked
    && (r.phase.Popped? || r.phase.Prepared? ==> !r.locked)
    // after a successful trylock_tp the page is in use
    && (r.locked && r.phase != Freeing ==> r.inUse)
    // insert_page_fifo_buffer_t: in no queue before, room in the FIFO
    && (r.phase.Indexed? || r.phase.EvWritten? ==> r.buf == BI_NONE && EnqueueStatus(s.clean[q]) == 0)
    && (r.phase.Filling? || r.phase.FsClean? ==> r.buf == BI_CLEAN)
    // dmap_do_tagged_page_writable: the page is in the clean queue; its valid bit is set
    && (r.phase.MkMarked? || r.phase.MkInTree? ==> r.buf == BI_CLEAN && r.valid)
    // perma_page_mkwrite: the page is of the VMA's own pvd
    && (r.phase.MkMarked? ==> r.phase.vmaDev == r.pvd)
    // move_page_c2d: out of the clean FIFO, room in the dirty one
    && (r.phase.MkLoose? ==> r.buf == BI_NONE && EnqueueStatus(s.dirty[e]) == 0)
    // move_page_d2c: in the dirty FIFO before, room in the clean one after
    && (r.phase.FsOut? || r.phase.FsProtected? ==> r.buf == BI_DIRTY)
    && (r.phase.FsLoose? ==> r.buf == BI_NONE && EnqueueStatus(s.clean[q]) == 0)
    // evictor: every page of the batch is locked
    && (r.phase.EvTaken? || r.phase.EvOut? || r.phase.EvProtected? || r.phase.EvWritten? ==> r.locked)
    // purge and drain: never a dirty page
    && (r.phase.PgOut? || r.phase.PgUnindexed? || r.phase.PgUnmapped? ==> !r.dirty)
    // free_page_lock: in use, locked and in no queue
    && (r.phase.PgUnmapped? || r.phase.Lost? ==> r.inUse && r.locked && r.buf == BI_NONE)
    // the fault handler returns a valid page
    && (r.phase.Settled? ==> r.valid && r.inUse && r.locked)
  }

  lemma AssertionsHold(s: State, p: PageId)
    requires Structure(s) && p < |s.pages|
    ensures SourceAssertions(s, p)
  {
    Local(s, p);
    NeverFull(s);
  }

  /** dequeue_if finds the right buffer_id on whatever page it looks at. */
  lemma QueueHeads(s: State)
    requires Structure(s)
    ensures forall q, p :: 0 <= q < NUM_QUEUES && p in s.clean[q].items ==>
              p < |s.pages| && s.pages[p].buf == BI_CLEAN
    ensures forall e, p :: 0 <= e < EVICTOR_THREADS && p in s.dirty[e].items ==>
              p < |s.pages| && s.pages[p].buf == BI_DIRTY
  {
    assert Holds(CleanFifos, s) && Holds(DirtyFifos, s);
    forall q, p | 0 <= q < NUM_QUEUES && p in s.clean[q].items ensures p < |s.pages| && s.pages[p].buf == BI_CLEAN {
      assert p in Items(s.clean)[q];
    }
    forall e, p | 0 <= e < EVICTOR_THREADS && p in s.dirty[e].items
      ensures p < |s.pages| && s.pages[p].buf == BI_DIRTY
    {
      assert p in Items(s.dirty)[e];
    }
  }

  // ---- a lock pins a page's identity ---------------------------------------------------------

  /** A lock is granted only on a fully set-up page: in use, valid, indexed under its own block,
      and with the index the caller asked for. */
  lemma LockGrant(s: State, p: PageId, want: Option<nat>)
    requires Structure(s) && p < |s.pages| && TryLock(s.pages[p], want) == 0
    ensures s.pages[p].inUse && s.pages[p].valid && s.pages[p].phase == Idle
    ensures Has(s.rdx, KeyOf(s.pages[p])) && Get(s.rdx, KeyOf(s.pages[p])) == p
    ensures want.Some? ==> s.pages[p].index == want.value
  {
    LockIdle(s, p);
    ExactlyOneQueue(s, p);
  }

  /** What trylock answers, by what the page is doing: 0 and the lock exactly on a page at rest with the
      index asked for; -1 on one that some thread has locked; -2 on another index; -3 on a page that is
      free or on its way. */
  lemma LockOutcome(s: State, p: PageId, want: Option<nat>)
    requires Structure(s) && p < |s.pages|
    ensures var f, status, asked := s.pages[p].phase, TryLock(s.pages[p], want),
                                    want.None? || want.value == s.pages[p].index;
            && (status == 0 <==> f == Idle && asked)
            && (status == -1 <==> f != Idle && s.pages[p].inUse && s.pages[p].locked && asked)
            && (status == -2 <==> s.pages[p].inUse && !asked)
            && (status == -3 <==> f.OnFreeList? || f.Popped? || f.Prepared? || f.Freeing? || f.Detached?)
  {
    Local(s, p);
  }

  /** When a thread can use a mapping, in a reachable state. */
  lemma MapsOpen(s: State, m: Mapping, v: Data)
    requires Structure(s)
    ensures Enabled(s, Store(m, v)) <==> m in s.maps && m.writable
    ensures Enabled(s, Unmap(m)) <==> m in s.maps
    ensures Enabled(s, GrantWrite(m)) <==>
              m in s.maps && m.page < |s.pages| && s.pages[m.page].phase == Settled && s.pages[m.page].dirty
  {
    assert Holds(PageTables, s);
    if m in s.maps { assert MappingOk(s.pages, m); }
  }

  /** When a fault finds its page, gets a free one, or a mkwrite its lock. */
  lemma FaultsOpen(s: State, k: Key, c: nat, p: PageId, o: nat)
    requires Structure(s)
    ensures Enabled(s, Hit(k)) <==> Has(s.rdx, k) && Get(s.rdx, k) < |s.pages| && !s.pages[Get(s.rdx, k)].locked
    ensures Enabled(s, Pop(c, k.dev, k.off)) <==> c < |s.free| && s.free[c] != []
    ensures Enabled(s, MkLock(p, k.dev, o)) <==>
              p < |s.pages| && s.pages[p].inUse && !s.pages[p].locked && s.pages[p].index == o
  {
    if Has(s.rdx, k) {
      IndexEntry(s, k);
      Local(s, Get(s.rdx, k));
    }
    if c < |s.free| && s.free[c] != [] { HeadUnlocked(s, c); }
  }

  /** What a step may do to the identity of a locked page: reset and free are the holder's own. */
  predicate Pinned(r: Page, r': Page, t: Step, p: PageId) {
    && (t != FreeReset(p) ==> KeyOf(r') == KeyOf(r))
    && (t != FreeStart(p) ==> r'.inUse == r.inUse)
    && (t != FreeReset(p) && t != Unlock(p) ==> r'.locked)
  }

  /** While a page is locked no step of any thread changes its index or pvd, except the holder's
      own reset, nor its in_use bit, except the holder's own free; nor is it unlocked otherwise. */
  lemma LockPins(s: State, t: Step, p: PageId)
    requires Structure(s) && Enabled(s, t) && p < |s.pages| && s.pages[p].locked
    ensures Pinned(s.pages[p], Apply(s, t).pages[p], t, p)
  {
    if FaultStep(t) { LockPinsFault(s, t, p); }
    else if EvictStep(t) { LockPinsEvict(s, t, p); }
    else { LockPinsRest(s, t, p); }
  }

  lemma LockPinsFault(s: State, t: Step, p: PageId)
    requires Structure(s) && Enabled(s, t) && p < |s.pages| && s.pages[p].locked && FaultStep(t)
    ensures Pinned(s.pages[p], Apply(s, t).pages[p], t, p)
  {
    if MissStep(t) { LockPinsMiss(s, t, p); } else { LockPinsMap(s, t, p); }
  }

  lemma LockPinsMiss(s: State, t: Step, p: PageId)
    requires Structure(s) && Enabled(s, t) && p < |s.pages| && s.pages[p].locked && MissStep(t)
    ensures Pinned(s.pages[p], Apply(s, t).pages[p], t, p)
  {
    Local(s, p);
    if t.Pop? { HeadUnlocked(s, t.cpu); }
  }

  lemma LockPinsMap(s: State, t: Step, p: PageId)
    requires Structure(s) && Enabled(s, t) && p < |s.pages| && s.pages[p].locked && FaultStep(t) && !MissStep(t)
    ensures Pinned(s.pages[p], Apply(s, t).pages[p], t, p)
  {
    Local(s, p);
  }

  lemma HeadUnlocked(s: State, c: nat)
    requires Structure(s) && c < |s.free| && s.free[c] != []
    ensures s.free[c][0] < |s.pages| && !s.pages[s.free[c][0]].locked
  {
    assert Holds(FreeLists, s);
    var h: PageId := s.free[c][0];
    assert h in s.free[c];
    Local(s, h);
  }

  lemma LockPinsEvict(s: State, t: Step, p: PageId)
    requires Structure(s) && Enabled(s, t) && p < |s.pages| && s.pages[p].locked && EvictStep(t)
    ensures Pinned(s.pages[p], Apply(s, t).pages[p], t, p)
  {
    if MkStep(t) { LockPinsMk(s, t, p); } else { LockPinsEv(s, t, p); }
  }

  lemma LockPinsMk(s: State, t: Step, p: PageId)
    requires Structure(s) && Enabled(s, t) && p < |s.pages| && s.pages[p].locked && MkStep(t)
    ensures Pinned(s.pages[p], Apply(s, t).pages[p], t, p)
  {
    Local(s, p);
  }

  lemma LockPinsEv(s: State, t: Step, p: PageId)
    requires Structure(s) && Enabled(s, t) && p < |s.pages| && s.pages[p].locked && EvStep(t)
    ensures Pinned(s.pages[p], Apply(s, t).pages[p], t, p)
  {
    if t.EvDequeue? || t.EvUntree? || t.EvEnter? { LockPinsOwn(s, t, p); } else { LockPinsProbe(s, t, p); }
  }

  lemma LockPinsOwn(s: State, t: Step, p: PageId)
    requires Structure(s) && Enabled(s, t) && p < |s.pages| && s.pages[p].locked
             && (t.EvDequeue? || t.EvUntree? || t.EvEnter?)
    ensures Pinned(s.pages[p], Apply(s, t).pages[p], t, p)
  {
    Local(s, p);
  }

  lemma LockPinsProbe(s: State, t: Step, p: PageId)
    requires Enabled(s, t) && p < |s.pages| && s.pages[p].locked && (t.EvProbe? || t.EvClaim? || t.EvPutBack?)
    ensures Pinned(s.pages[p], Apply(s, t).pages[p], t, p)
  {
  }

  lemma LockPinsRest(s: State, t: Step, p: PageId)
    requires Structure(s) && Enabled(s, t) && p < |s.pages| && s.pages[p].locked
    requires !FaultStep(t) && !EvictStep(t)
    ensures Pinned(s.pages[p], Apply(s, t).pages[p], t, p)
  {
    Local(s, p);
  }
}
