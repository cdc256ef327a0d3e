/** write_dirty_pages on the cache itself: fsync (with clear_mappings) and release (without). No
    other thread runs meanwhile. */
module Fsync {
  import opened Params
  import opened Fifo
  import opened Placement
  import opened Lifecycle
  import opened Invariant
  import opened Moves
  import opened Steps
  import opened WriteBack
  import opened Batches
  import opened EvictorRound
  import opened ListOrder

  // ---- one page: blkdev_fsync_cb or blkdev_release_cb ----------------------------------------

  function Cleaning(r: Page): Page { r.(locked := true, buf := BI_CLEAN, dirty := false, phase := FsClean) }

  /** Page p is unlocked and its block is in a dirty tree. */
  predicate Pending(s: State, p: PageId) {
    && p < |s.pages| && InPhase(s, p, Idle)
    && Has(s.trees, KeyOf(s.pages[p])) && Get(s.trees, KeyOf(s.pages[p])) == p
  }

  lemma TakeOne(s: State, mem: Memory, p: PageId, s1: State)
    requires Inv(s, mem) && Pending(s, p)
    requires Enabled(s, FsTake(KeyOf(s.pages[p]))) ==> s1 == DoFsTake(s, KeyOf(s.pages[p]))
    ensures Enabled(s, FsTake(KeyOf(s.pages[p]))) && Inv(s1, mem)
    ensures s1 == s.(pages := s.pages[p := s.pages[p].(locked := true, phase := FsOut)],
                     trees := Erase(s.trees, KeyOf(s.pages[p])))
  {
    Local(s, p);
    KeepFsTake(s, mem, KeyOf(s.pages[p]));
  }

  /** With clear_mappings, or without it when nothing maps the page for writing. */
  lemma ProtectStep(s: State, mem: Memory, p: PageId, protect: bool, s1: State)
    requires Inv(s, mem) && InPhase(s, p, FsOut) && (!protect ==> NoWritable(s, p))
    requires s1 == if protect then DoProtect(s, p) else DoSkipProtect(s, p)
    ensures Inv(s1, mem)
    ensures s1 == s.(pages := s.pages[p := s.pages[p].(phase := FsProtected)], maps := ReadOnlyFor(s.maps, [p]))
  {
    ReadOnlyOne(s.maps, p);
    if protect {
      KeepProtect(s, mem, p);
    } else {
      KeepSkipProtect(s, mem, p);
      ReadOnlyAlready(s.maps, [p]);
    }
  }

  lemma MoveStep(s: State, mem: Memory, p: PageId, s1: State, s2: State)
    requires Inv(s, mem) && InPhase(s, p, FsProtected)
    requires Enabled(s, FsLeave(p)) ==> s1 == DoFsLeave(s, p)
    requires Enabled(s1, FsEnter(p)) ==> s2 == DoFsEnter(s1, p)
    ensures Enabled(s, FsLeave(p)) && Enabled(s1, FsEnter(p)) && Inv(s2, mem)
    ensures s2.pages == s.pages[p := s.pages[p].(buf := BI_CLEAN, dirty := false, phase := FsClean)]
    ensures s2 == s.(pages := s2.pages, dirty := s2.dirty, clean := s2.clean)
  {
    KeepFsLeave(s, mem, p);
    KeepFsEnter(s1, mem, p);
    NeverFull(s1);
    Exactness.UpdateTwice(s.pages, p, s1.pages[p], s2.pages[p]);
  }

  /** The page leaves its dirty FIFO and joins the tail of its clean one. */
  ghost predicate Moved(s0: State, s: State, p: PageId) {
    TailGains(s0.clean, s.clean, s0.pages, [p]) && QueuesLose(s0.dirty, s.dirty, [p])
  }

  lemma MovesQueues(s: State, p: PageId)
    requires Structure(s) && InPhase(s, p, FsProtected) && Enabled(s, FsLeave(p))
    requires Enabled(DoFsLeave(s, p), FsEnter(p))
    ensures Moved(s, DoFsEnter(DoFsLeave(s, p), p), p)
  {
    var s1, q, e := DoFsLeave(s, p), s.pages[p].index % 32, DirtyQueue(s.pages[p].index);
    var s2 := DoFsEnter(s1, p);
    NotFull(s, q);
    TailGainsNothing(s.clean, s.pages);
    assert s2.clean == s.clean[q := s2.clean[q]] && s2.clean[q].items == s.clean[q].items + [p];
    TailGainsNext(s.clean, s.clean, s2.clean, s.pages, [], p);
    assert [] + [p] == [p];
    OnlyInOne(s, p, e);
    QueuesLoseOne(s.dirty, s1.dirty, e, p);
  }

  lemma NotFull(s: State, q: nat)
    requires Structure(s) && q < NUM_QUEUES
    ensures !Full(s.clean[q])
  {
    NeverFull(s);
  }

  lemma OnlyInOne(s: State, p: PageId, e: nat)
    requires Structure(s) && InPhase(s, p, FsProtected) && e == DirtyQueue(s.pages[p].index)
    ensures NoDup(s.dirty[e].items)
    ensures forall q :: 0 <= q < |s.dirty| && q != e ==> p !in s.dirty[q].items
  {
    assert Holds(DirtyFifos, s);
    assert NoDup(Items(s.dirty)[e]);
    forall q | 0 <= q < |s.dirty| && q != e ensures p !in s.dirty[q].items {
      assert Items(s.dirty)[q] == s.dirty[q].items;
      assert DirtyAts(s.pages)[p] == DirtyAt(s.pages[p]);
    }
  }

  /** A page leaves its tree and moves, marked clean, from its dirty FIFO to its clean one. */
  method CleanOne(s0: State, p: PageId, protect: bool, ghost mem: Memory) returns (s: State)
    requires Inv(s0, mem) && Pending(s0, p) && (!protect ==> NoWritable(s0, p))
    ensures Inv(s, mem) && s.pages == s0.pages[p := Cleaning(s0.pages[p])]
    ensures s.trees == Erase(s0.trees, KeyOf(s0.pages[p]))
    ensures s.maps == ReadOnlyFor(s0.maps, [p])
    ensures s == s0.(pages := s.pages, trees := s.trees, maps := s.maps, dirty := s.dirty, clean := s.clean)
    ensures Moved(s0, s, p)
  {
    var s1 := TakeAndProtect(s0, p, protect, mem);
    s := MoveToClean(s1, p, mem);
    Exactness.UpdateTwice(s0.pages, p, s1.pages[p], s.pages[p]);
    TailGainsSame(s1.clean, s.clean, s1.pages, s0.pages, [p]);
  }

  method TakeAndProtect(s0: State, p: PageId, protect: bool, ghost mem: Memory) returns (s: State)
    requires Inv(s0, mem) && Pending(s0, p) && (!protect ==> NoWritable(s0, p))
    ensures Inv(s, mem) && s.pages == s0.pages[p := s0.pages[p].(locked := true, phase := FsProtected)]
    ensures s.trees == Erase(s0.trees, KeyOf(s0.pages[p]))
            && s == s0.(pages := s.pages, trees := s.trees, maps := s.maps)
    ensures s.maps == ReadOnlyFor(s0.maps, [p])
  {
    LockOk(s0, mem, p);
    var s1 := DoFsTake(s0, KeyOf(s0.pages[p]));
    TakeOne(s0, mem, p, s1);
    if protect {
      s := DoProtect(s1, p);
    } else {
      s := DoSkipProtect(s1, p);
    }
    ProtectStep(s1, mem, p, protect, s);
    Exactness.UpdateTwice(s0.pages, p, s1.pages[p], s.pages[p]);
  }

  /** move_page_d2c_fifo_buffer_t. */
  method MoveToClean(s0: State, p: PageId, ghost mem: Memory) returns (s: State)
    requires Inv(s0, mem) && InPhase(s0, p, FsProtected)
    ensures Inv(s, mem) && s.pages == s0.pages[p := s0.pages[p].(buf := BI_CLEAN, dirty := false, phase := FsClean)]
    ensures s == s0.(pages := s.pages, dirty := s.dirty, clean := s.clean) && Moved(s0, s, p)
  {
    CanMove(s0, p);
    MovesQueues(s0, p);
    var s1 := DoFsLeave(s0, p);
    s := DoFsEnter(s1, p);
    MoveStep(s0, mem, p, s1, s);
  }

  lemma LockOk(s: State, mem: Memory, p: PageId)
    requires Inv(s, mem) && Pending(s, p)
    ensures Enabled(s, FsTake(KeyOf(s.pages[p])))
  {
    Local(s, p);
  }

  lemma CanMove(s: State, p: PageId)
    requires Structure(s) && InPhase(s, p, FsProtected)
    ensures Enabled(s, FsLeave(p)) && Enabled(DoFsLeave(s, p), FsEnter(p))
  {
  }

  // ---- one batch -----------------------------------------------------------------------------

  /** The pages in `gone`, and no others, have left the dirty trees. */
  ghost predicate Untreed(s0: State, s: State, gone: seq<PageId>) {
    forall k :: StillIn(s0, s, gone, k)
  }

  predicate StillIn(s0: State, s: State, gone: seq<PageId>, k: Key) {
    && (Has(s.trees, k) <==> Has(s0.trees, k) && Get(s0.trees, k) !in gone)
    && (Has(s.trees, k) && Has(s0.trees, k) ==> Get(s.trees, k) == Get(s0.trees, k))
  }

  lemma UntreedNext(s0: State, s: State, s': State, b: seq<PageId>, n: nat)
    requires n < |b| && Untreed(s0, s, b[..n]) && Structure(s0) && b[n] < |s0.pages|
    requires Pending(s, b[n]) && Pending(s0, b[n]) && s.pages[b[n]] == s0.pages[b[n]]
    requires s'.trees == Erase(s.trees, KeyOf(s.pages[b[n]])) && |s.trees| == |s0.trees|
    ensures Untreed(s0, s', b[..n + 1])
  {
    var p, key := b[n], KeyOf(s0.pages[b[n]]);
    var gone, more := b[..n], b[..n + 1];
    assert more == gone + [p];
    forall k ensures StillIn(s0, s', more, k) {
      assert StillIn(s0, s, gone, k);
      HasAfter(s.trees, key, 0, k);
      if k != key && Has(s0.trees, k) {
        TreeEntry(s0, k);
        TreeEntry(s0, key);
      }
    }
  }

  lemma StillPending(s0: State, s: State, b: seq<PageId>, n: nat)
    requires n < |b| && Untreed(s0, s, b[..n]) && NoDup(b) && Swept(s0.pages, s.pages, b, n, Cleaning)
             && Pending(s0, b[n])
    ensures Pending(s, b[n]) && s.pages[b[n]] == s0.pages[b[n]]
  {
    SweepNext(s0.pages, s.pages, b, n, Cleaning);
    assert StillIn(s0, s, b[..n], KeyOf(s0.pages[b[n]]));
    assert b[n] !in b[..n];
  }

  ghost predicate AllPending(s: State, b: seq<PageId>) {
    forall i :: 0 <= i < |b| ==> Pending(s, b[i])
  }

  ghost predicate AllReadOnly(s: State, b: seq<PageId>) {
    forall i :: 0 <= i < |b| ==> NoWritable(s, b[i])
  }

  /** Write-protecting some pages makes no other writable. */
  lemma StillReadOnly(s0: State, s: State, gone: seq<PageId>, p: PageId)
    requires NoWritable(s0, p) && s.maps == ReadOnlyFor(s0.maps, gone)
    ensures NoWritable(s, p)
  {
    forall m | m in s.maps && m.page == p ensures !m.writable { ReadOnlyHas(s0.maps, gone, m); }
  }

  /** The callback over a batch. */
  method CleanAll(s0: State, b: seq<PageId>, protect: bool, ghost mem: Memory) returns (s: State)
    requires Inv(s0, mem) && NoDup(b) && AllPending(s0, b) && (!protect ==> AllReadOnly(s0, b))
    ensures Inv(s, mem) && Swept(s0.pages, s.pages, b, |b|, Cleaning) && Untreed(s0, s, b)
    ensures s.maps == ReadOnlyFor(s0.maps, b)
    ensures s == s0.(pages := s.pages, trees := s.trees, maps := s.maps, dirty := s.dirty, clean := s.clean)
    ensures TailGains(s0.clean, s.clean, s0.pages, b) && QueuesLose(s0.dirty, s.dirty, b)
  {
    s := s0;
    ReadOnlyNone(s0.maps);
    TailGainsNothing(s0.clean, s0.pages);
    QueuesLoseNothing(s0.dirty);
    assert b[..0] == [];
    for n := 0 to |b|
      invariant Inv(s, mem) && Swept(s0.pages, s.pages, b, n, Cleaning) && Untreed(s0, s, b[..n])
      invariant |s.trees| == |s0.trees|
      invariant s == s0.(pages := s.pages, trees := s.trees, maps := s.maps, dirty := s.dirty, clean := s.clean)
      invariant s.maps == ReadOnlyFor(s0.maps, b[..n])
      invariant TailGains(s0.clean, s.clean, s0.pages, b[..n]) && QueuesLose(s0.dirty, s.dirty, b[..n])
    {
      assert Pending(s0, b[n]);
      StillPending(s0, s, b, n);
      if !protect { StillReadOnly(s0, s, b[..n], b[n]); }
      SweepNext(s0.pages, s.pages, b, n, Cleaning);
      var s1 := CleanOne(s, b[n], protect, mem);
      UntreedNext(s0, s, s1, b, n);
      ReadOnlyMore(s0.maps, b[..n], [b[n]]);
      MovedNext(s0, s, s1, b, n);
      assert b[..n] + [b[n]] == b[..n + 1];
      s := s1;
    }
    assert b[..|b|] == b;
  }

  lemma MovedNext(s0: State, s: State, s': State, b: seq<PageId>, n: nat)
    requires n < |b| && b[n] < |s0.pages| == |s.pages| && s.pages[b[n]] == s0.pages[b[n]] && Moved(s, s', b[n])
    requires TailGains(s0.clean, s.clean, s0.pages, b[..n]) && QueuesLose(s0.dirty, s.dirty, b[..n])
    ensures TailGains(s0.clean, s'.clean, s0.pages, b[..n + 1]) && QueuesLose(s0.dirty, s'.dirty, b[..n + 1])
  {
    assert b[..n] + [b[n]] == b[..n + 1];
    TailGainsOn(s0.clean, s.clean, s'.clean, s0.pages, s.pages, b[..n], [b[n]]);
    QueuesLoseOn(s0.dirty, s.dirty, s'.dirty, b[..n], [b[n]]);
  }

  lemma CleanedBatch(s: State, s': State, b: seq<PageId>, d: nat)
    requires Writable(s, b, d) && AllPending(s, b) && Swept(s.pages, s'.pages, b, |b|, Cleaning)
    ensures Writable(s', b, d) && Offsets(s', b) == Offsets(s, b) && Copies(s', b) == Copies(s, b)
    ensures AllIn(s', b, FsClean)
  {
    forall i | 0 <= i < |b| ensures InPhase(s', b[i], FsClean) && s'.pages[b[i]] == Cleaning(s.pages[b[i]]) {
      assert Pending(s, b[i]);
    }
  }

  function Synced(r: Page): Page { r.(locked := true, buf := BI_CLEAN, dirty := false, phase := Settled) }

  lemma SweepSynced(x: seq<Page>, y: seq<Page>, z: seq<Page>, w: seq<Page>, b: seq<PageId>)
    requires Swept(x, y, b, |b|, Cleaning) && Swept(y, z, b, |b|, Wrote) && Swept(z, w, b, |b|, Unlocked)
    ensures Swept(x, w, b, |b|, Evicted)
  {
    SweepTwice(x, y, z, b, Cleaning, Wrote, Synced);
    SweepTwice(x, z, w, b, Synced, Unlocked, Evicted);
  }

  /** What one batch does: its pages end up clean, unlocked, out of the trees and on the device. */
  ghost predicate BatchDone(s0: State, s: State, b: seq<PageId>, d: nat) {
    && Known(s0, b) && Swept(s0.pages, s.pages, b, |b|, Evicted) && Untreed(s0, s, b)
    && Reached(s0.disk, s.disk, d, Offsets(s0, b), Copies(s0, b), CoveredPages(Offsets(s0, b)))
    && s == s0.(pages := s.pages, trees := s.trees, maps := s.maps, dirty := s.dirty, clean := s.clean, disk := s.disk)
    && s.maps == ReadOnlyFor(s0.maps, b)
    && TailGains(s0.clean, s.clean, s0.pages, b) && QueuesLose(s0.dirty, s.dirty, b)
  }

  method SyncBatch(s0: State, b: seq<PageId>, d: nat, protect: bool, ghost mem: Memory) returns (s: State)
    requires Inv(s0, mem) && NoDup(b) && AllPending(s0, b) && (!protect ==> AllReadOnly(s0, b)) && Writable(s0, b, d)
    ensures Inv(s, mem - LeftOut(d, Offsets(s0, b))) && BatchDone(s0, s, b, d)
  {
    var s1 := CleanAll(s0, b, protect, mem);
    CleanedBatch(s0, s1, b, d);
    var s2 := WriteAll(s1, b, d, FsClean, mem);
    SweptIn(s1, s2, b, Wrote, FsClean, Settled);
    s := UnlockAll(s2, b, mem - LeftOut(d, Offsets(s0, b)));
    SweepSynced(s0.pages, s1.pages, s2.pages, s.pages, b);
    SameTrees(s0, s1, s, b);
  }

  lemma SameTrees(s0: State, s1: State, s: State, b: seq<PageId>)
    requires Untreed(s0, s1, b) && s.trees == s1.trees
    ensures Untreed(s0, s, b)
  {
    forall k ensures StillIn(s0, s, b, k) { assert StillIn(s0, s1, b, k); }
  }
}
