/** raw_release: once a block device's dirty pages are written, its index is emptied page by page.
    Nothing maps the device any more and no other thread works on it. */
module Release {
  import opened Params
  import opened Fifo
  import opened Placement
  import opened Lifecycle
  import opened Invariant
  import opened Coherence
  import opened Moves
  import opened Guarantees
  import opened Counting
  import opened Batches
  import opened Purge
  import opened ListOrder
  import Exactness
  import EvictorRound
  import Fsync
  import Msync
  import KWayMerge

  /** Device d is written back, unmapped and at rest. */
  ghost predicate Quiescent(s: State, d: nat) {
    && (forall p :: 0 <= p < |s.pages| ==> AtRest(s.pages[p], d))
    && (forall m :: m in s.maps ==> m.key.dev != d)
  }

  predicate AtRest(r: Page, d: nat) { r.inUse && r.pvd == d ==> r.phase == Idle && !r.dirty }

  // ---- one page ------------------------------------------------------------------------------

  /** Locking a page at rest and taking it out of its clean FIFO. */
  function Unqueued(s: State, p: PageId): State
    requires p < |s.pages| && |s.clean| == NUM_QUEUES
  {
    var q := CleanQueue(s.pages[p].index);
    WithPage(s, p, s.pages[p].(locked := true, buf := BI_NONE, phase := PgOut))
      .(clean := s.clean[q := Remove(s.clean[q], p)])
  }

  lemma KeepUnqueued(s: State, mem: Memory, p: PageId)
    requires Inv(s, mem) && p < |s.pages| && s.pages[p].phase == Idle && !s.pages[p].dirty
    ensures s.pages[p].buf == BI_CLEAN && Inv(Unqueued(s, p), mem)
  {
    Local(s, p);
    var r := s.pages[p].(locked := true, buf := BI_NONE, phase := PgOut);
    LeavesClean(s, p, r);
    Quiet(s, Unqueued(s, p), mem, p, r);
  }

  /** The page is taken off the index first, then locked, then taken out of its clean FIFO. */
  function Detach(s: State, k: Key): State
    requires Has(s.rdx, k) && Get(s.rdx, k) < |s.pages| && |s.clean| == NUM_QUEUES
  {
    var p := Get(s.rdx, k);
    var s1 := Unqueued(s.(rdx := Erase(s.rdx, k)), p);
    WithPage(s1, p, s1.pages[p].(phase := PgUnmapped))
  }

  /** Done in that order it comes to the same as queue, index and mappings one after the other. */
  lemma KeepDetach(s: State, mem: Memory, d: nat, k: Key)
    requires Inv(s, mem) && Quiescent(s, d) && Has(s.rdx, k) && k.dev == d
    ensures var p := Get(s.rdx, k);
            && p < |s.pages| && s.pages[p].buf == BI_CLEAN && KeyOf(s.pages[p]) == k
            && TryLock(s.pages[p], None) == 0 && Inv(Detach(s, k), mem)
  {
    var p := Get(s.rdx, k);
    IndexEntry(s, k);
    Local(s, p);
    assert AtRest(s.pages[p], d);
    KeepUnqueued(s, mem, p);
    Reordered(s, mem, d, k, p, Unqueued(s, p));
  }

  lemma Reordered(s: State, mem: Memory, d: nat, k: Key, p: PageId, s1: State)
    requires Inv(s, mem) && Quiescent(s, d) && Has(s.rdx, k) && k.dev == d && p == Get(s.rdx, k) < |s.pages|
    requires KeyOf(s.pages[p]) == k && s1 == Unqueued(s, p) && Inv(s1, mem)
    ensures Inv(Detach(s, k), mem)
  {
    KeepUnlinked(s1, mem, p);
    UnlinkedIs(s1, p);
    var s3 := Unlinked(s1, p);
    NotMapped(s, d, p, k);
    Exactness.UpdateTwice(s.pages, p, s1.pages[p], s3.pages[p]);
    DetachIs(s, k, p);
    assert s3 == Detach(s, k);
  }

  lemma DetachIs(s: State, k: Key, p: PageId)
    requires Has(s.rdx, k) && p == Get(s.rdx, k) < |s.pages| && |s.clean| == NUM_QUEUES
    ensures var q := CleanQueue(s.pages[p].index);
            Detach(s, k) == s.(pages := s.pages[p := Purging(s.pages[p])], rdx := Erase(s.rdx, k),
                               clean := s.clean[q := Remove(s.clean[q], p)])
  {
    Exactness.UpdateTwice(s.pages, p, Unqueued(s, p).pages[p], Purging(s.pages[p]));
  }

  lemma NotMapped(s: State, d: nat, p: PageId, k: Key)
    requires Structure(s) && Quiescent(s, d) && p < |s.pages| && KeyOf(s.pages[p]) == k && k.dev == d
    ensures (set m | m in s.maps && m.page != p) == s.maps
  {
    assert Holds(PageTables, s);
    forall m | m in s.maps ensures m.page != p { assert MappingOk(s.pages, m); }
  }

  /** One iteration of the drain loop. */
  method DrainOne(s: State, d: nat, k: Key, ghost mem: Memory) returns (s': State, p: PageId)
    requires Inv(s, mem) && Quiescent(s, d) && Has(s.rdx, k) && k.dev == d
    ensures Inv(s', mem) && p == Get(s.rdx, k) && p < |s.pages| && KeyOf(s.pages[p]) == k && s.pages[p].phase == Idle
    ensures s'.pages == s.pages[p := Blanked(s.pages[p])] && s'.rdx == Erase(s.rdx, k)
    ensures s.home[p] < |s.free| && s'.free == s.free[s.home[p] := s.free[s.home[p]] + [p]]
    ensures s' == s.(pages := s'.pages, rdx := s'.rdx, free := s'.free, clean := s'.clean)
    ensures QueuesLose(s.clean, s'.clean, [p])
  {
    KeepDetach(s, mem, d, k);
    p := Get(s.rdx, k);
    assert AtRest(s.pages[p], d) && LocalOk(s.pages[p], s.home[p]) by { Local(s, p); }
    DetachIs(s, k, p);
    InOneClean(s, p);
    QueuesLoseOne(s.clean, Detach(s, k).clean, CleanQueue(s.pages[p].index), p);
    var s1 := Detach(s, k);
    s' := FreeOne(s1, p, mem);
    Exactness.UpdateTwice(s.pages, p, s1.pages[p], s'.pages[p]);
  }

  lemma InOneClean(s: State, p: PageId)
    requires Structure(s) && p < |s.pages|
    ensures NoDup(s.clean[CleanQueue(s.pages[p].index)].items)
    ensures forall q :: 0 <= q < |s.clean| && q != CleanQueue(s.pages[p].index) ==> p !in s.clean[q].items
  {
    assert Holds(CleanFifos, s);
    assert NoDup(Items(s.clean)[CleanQueue(s.pages[p].index)]);
    forall q | 0 <= q < |s.clean| && q != CleanQueue(s.pages[p].index) ensures p !in s.clean[q].items {
      assert Items(s.clean)[q] == s.clean[q].items;
      assert CleanAts(s.pages)[p] == CleanAt(s.pages[p]);
    }
  }

  // ---- the drain loop ------------------------------------------------------------------------

  /** Every entry is in the shard of its offset. */
  ghost predicate ByShard(shards: seq<map<Key, PageId>>) {
    0 < |shards| && forall c, k {:trigger k in shards[c]} :: 0 <= c < |shards| && k in shards[c] ==>
      c == Shard(k.off, |shards|)
  }

  predicate HasDevice(m: map<Key, PageId>, d: nat) { exists k :: k in m && k.dev == d }

  /** The first shard that still has an entry of d, and one of its entries. */
  method FindEntry(shards: seq<map<Key, PageId>>, d: nat) returns (found: Option<Key>)
    requires ByShard(shards)
    ensures found.Some? ==> Has(shards, found.value) && found.value.dev == d
    ensures found.None? ==> forall c :: 0 <= c < |shards| ==> !HasDevice(shards[c], d)
  {
    for cpu := 0 to |shards|
      invariant forall c :: 0 <= c < cpu ==> !HasDevice(shards[c], d)
    {
      if HasDevice(shards[cpu], d) {
        var k: Key :| k in shards[cpu] && k.dev == d;
        return Some(k);
      }
    }
    return None;
  }

  lemma NoEntry(s: State, d: nat)
    requires Structure(s) && forall c :: 0 <= c < |s.rdx| ==> !HasDevice(s.rdx[c], d)
    ensures forall k: Key :: k.dev == d ==> !Has(s.rdx, k)
  {
    forall k: Key | k.dev == d ensures !Has(s.rdx, k) {
      assert !HasDevice(s.rdx[Shard(k.off, |s.rdx|)], d);
    }
  }

  lemma Shards(s: State)
    requires Structure(s)
    ensures ByShard(s.rdx)
  {
    assert Holds(Index, s);
  }

  /** Where the loop stands: the pages `freed` were d's, and are blank on their home lists. */
  ghost predicate Draining(s0: State, s: State, mem: Memory, d: nat, freed: seq<PageId>) {
    && Inv(s0, mem) && Inv(s, mem) && Quiescent(s, d) && NoDup(freed)
    && Swept(s0.pages, s.pages, freed, |freed|, Blanked) && Returned(s0, s, freed)
    && Unindexed(s0, s, freed)
    && (forall i :: 0 <= i < |freed| ==>
        freed[i] < |s0.pages| && s0.pages[freed[i]].inUse && s0.pages[freed[i]].pvd == d)
    && s == s0.(pages := s.pages, rdx := s.rdx, free := s.free, clean := s.clean)
    && QueuesLose(s0.clean, s.clean, freed)
  }

  lemma SweepAppend(x: seq<Page>, y: seq<Page>, z: seq<Page>, b: seq<PageId>, p: PageId, f: Page -> Page)
    requires Swept(x, y, b, |b|, f) && p < |y| && p !in b && z == y[p := f(y[p])]
    ensures y[p] == x[p] && Swept(x, z, b + [p], |b + [p]|, f)
  {
    var c := b + [p];
    assert c[..|c|] == c && b[..|b|] == b;
    forall i | 0 <= i < |c| && c[i] < |z| ensures z[c[i]] == f(x[c[i]]) {
      assert i < |b| ==> c[i] == b[i];
    }
  }

  lemma ReturnedAppend(s0: State, s: State, s': State, b: seq<PageId>, p: PageId)
    requires Returned(s0, s, b) && p < |s0.home| && s0.home[p] < |s.free|
    requires var c := s0.home[p]; s'.free == s.free[c := s.free[c] + [p]]
    ensures Returned(s0, s', b + [p])
  {
    var more := b + [p];
    assert more[..|b|] == b && more[..|more|] == more;
    ReturnedNext(s0, s, s', more, |b|);
  }

  /** A page that is still indexed has not been freed. */
  lemma NotFreed(s0: State, s: State, d: nat, freed: seq<PageId>, p: PageId)
    requires Swept(s0.pages, s.pages, freed, |freed|, Blanked) && p < |s.pages| && s.pages[p].phase == Idle
    ensures p !in freed
  {
    assert freed[..|freed|] == freed;
  }

  lemma StillQuiescent(s: State, s': State, d: nat, p: PageId)
    requires Quiescent(s, d) && p < |s.pages| && s'.pages == s.pages[p := Blanked(s.pages[p])] && s'.maps == s.maps
    ensures Quiescent(s', d)
  {
    forall x | 0 <= x < |s'.pages| ensures AtRest(s'.pages[x], d) { assert AtRest(s.pages[x], d); }
  }

  lemma DrainNext(s0: State, s: State, s': State, mem: Memory, d: nat, freed: seq<PageId>, k: Key, p: PageId)
    requires Draining(s0, s, mem, d, freed) && Inv(s', mem) && k.dev == d
    requires p < |s.pages| && KeyOf(s.pages[p]) == k && s.pages[p].phase == Idle
    requires s'.pages == s.pages[p := Blanked(s.pages[p])] && s'.rdx == Erase(s.rdx, k)
    requires s.home[p] < |s.free| && s'.free == s.free[s.home[p] := s.free[s.home[p]] + [p]]
    requires s' == s.(pages := s'.pages, rdx := s'.rdx, free := s'.free, clean := s'.clean)
    requires QueuesLose(s.clean, s'.clean, [p])
    ensures Draining(s0, s', mem, d, freed + [p])
  {
    QueuesLoseOn(s0.clean, s.clean, s'.clean, freed, [p]);
    NotFreed(s0, s, d, freed, p);
    SweepAppend(s0.pages, s.pages, s'.pages, freed, p, Blanked);
    ReturnedAppend(s0, s, s', freed, p);
    Local(s, p);
    UnindexedNext(s0, s, s', freed, p);
    StillQuiescent(s, s', d, p);
  }

  /** Keys of d in the index, whatever their shard. */
  ghost function KeysOf(s: State, d: nat): set<Key> {
    set c, k | 0 <= c < |s.rdx| && k in s.rdx[c] && k.dev == d :: k
  }

  lemma FewerKeys(s: State, s': State, d: nat, k: Key)
    requires Structure(s) && Has(s.rdx, k) && k.dev == d && s'.rdx == Erase(s.rdx, k)
    ensures |KeysOf(s', d)| < |KeysOf(s, d)|
  {
    assert Holds(Index, s);
    forall j | j in KeysOf(s', d) ensures j in KeysOf(s, d) && j != k {
      var c :| 0 <= c < |s'.rdx| && j in s'.rdx[c] && j.dev == d;
      assert j in s.rdx[c];
    }
    assert k in s.rdx[Shard(k.off, |s.rdx|)];
    assert k in KeysOf(s, d);
    Smaller(KeysOf(s', d), KeysOf(s, d), k);
  }

  lemma Smaller(a: set<Key>, b: set<Key>, k: Key)
    requires a <= b && k in b && k !in a
    ensures |a| < |b|
  {
    assert a <= b - {k};
    SubsetSize(a, b - {k});
  }

  /** The loop ends with no entry of d left. */
  method Drain(s0: State, d: nat, ghost mem: Memory) returns (s: State, ghost freed: seq<PageId>)
    requires Inv(s0, mem) && Quiescent(s0, d)
    ensures Draining(s0, s, mem, d, freed)
    ensures forall k: Key :: k.dev == d ==> !Has(s.rdx, k)
  {
    s, freed := s0, [];
    DrainStart(s0, mem, d);
    while true
      invariant Draining(s0, s, mem, d, freed)
      decreases |KeysOf(s, d)|
    {
      Shards(s);
      var k := FindEntry(s.rdx, d);
      if k.None? {
        NoEntry(s, d);
        return;
      }
      var s1, p := DrainOne(s, d, k.value, mem);
      DrainNext(s0, s, s1, mem, d, freed, k.value, p);
      FewerKeys(s, s1, d, k.value);
      s, freed := s1, freed + [p];
    }
  }

  lemma DrainStart(s0: State, mem: Memory, d: nat)
    requires Inv(s0, mem) && Quiescent(s0, d)
    ensures Draining(s0, s0, mem, d, [])
  {
    QueuesLoseNothing(s0.clean);
  }

  /** With its index empty, no page, queue, tree or list entry of d is left in use, and exactly the
      pages it had are blank on their home lists. */
  lemma NothingLeft(s0: State, s: State, mem: Memory, d: nat, freed: seq<PageId>)
    requires Draining(s0, s, mem, d, freed) && forall k: Key :: k.dev == d ==> !Has(s.rdx, k)
    ensures forall p :: 0 <= p < |s.pages| && s.pages[p].inUse ==> s.pages[p].pvd != d
    ensures forall p :: 0 <= p < |s0.pages| && s0.pages[p].inUse && s0.pages[p].pvd == d ==> p in freed
    ensures forall q: nat, p: PageId :: InClean(s, p, q) ==> p < |s.pages| && s.pages[p].pvd != d
    ensures forall e: nat, p: PageId :: InDirty(s, p, e) ==> p < |s.pages| && s.pages[p].pvd != d
  {
    forall p | 0 <= p < |s.pages| && s.pages[p].inUse ensures s.pages[p].pvd != d {
      assert AtRest(s.pages[p], d);
      Local(s, p);
      ghost var k := KeyOf(s.pages[p]);
      if s.pages[p].pvd == d { ExactlyOneQueue(s, p); }
    }
    assert freed[..|freed|] == freed;
    forall q: nat, p: PageId | InClean(s, p, q) ensures p < |s.pages| && s.pages[p].pvd != d {
      CleanInUse(s, q, p);
    }
    forall e: nat, p: PageId | InDirty(s, p, e) ensures p < |s.pages| && s.pages[p].pvd != d {
      DirtyInUse(s, e, p);
    }
  }

  lemma CleanInUse(s: State, q: nat, p: PageId)
    requires Structure(s) && InClean(s, p, q)
    ensures p < |s.pages| && s.pages[p].inUse
  {
    assert Holds(CleanFifos, s);
    assert p in Items(s.clean)[q];
    Local(s, p);
  }

  lemma DirtyInUse(s: State, e: nat, p: PageId)
    requires Structure(s) && InDirty(s, p, e)
    ensures p < |s.pages| && s.pages[p].inUse
  {
    assert Holds(DirtyFifos, s);
    assert p in Items(s.dirty)[e];
    Local(s, p);
  }

  // ---- the whole of it -----------------------------------------------------------------------

  /** Exactly the pages of d have become blank pages on their home lists; the index, the trees and
      the FIFOs have lost exactly them, and everything else is as it was. */
  ghost predicate Released(s0: State, s: State, d: nat, freed: seq<PageId>) {
    && (forall p :: p in freed <==> 0 <= p < |s0.pages| && s0.pages[p].inUse && s0.pages[p].pvd == d)
    && NoDup(freed) && Swept(s0.pages, s.pages, freed, |freed|, Blanked) && Returned(s0, s, freed)
    && Unindexed(s0, s, freed) && (forall k :: TreeKept(s0, s, d, k))
    && (forall p: PageId, q: nat :: InClean(s, p, q) <==> InClean(s0, p, q) && p !in freed)
    && (forall p: PageId, e: nat :: InDirty(s, p, e) <==> InDirty(s0, p, e) && p !in freed)
    && QueuesLose(s0.clean, s.clean, freed) && QueuesLose(s0.dirty, s.dirty, freed)
    && s.maps == s0.maps && s.home == s0.home && s.hands == s0.hands
    && s.bitmap == s0.bitmap && s.files == s0.files && s.unlinking == s0.unlinking
  }

  /** The trees of d are empty and those of other devices as they were. */
  predicate TreeKept(s0: State, s: State, d: nat, k: Key) {
    && (Has(s.trees, k) <==> Has(s0.trees, k) && k.dev != d)
    && (Has(s.trees, k) && Has(s0.trees, k) ==> Get(s.trees, k) == Get(s0.trees, k))
  }

  /** raw_release: the write-back and then the drain. The device's index and trees end up empty, its
      pages, and no others, are blank on their home lists, and of its blocks exactly the ends of runs
      of more than 256 dirty pages are not on the device as last stored, unless they were before. */
  method RawRelease(s0: State, d: nat, trees: KWayMerge.DirtyTrees, ghost mem: Memory)
      returns (s: State, ghost batches: seq<seq<KWayMerge.Entry>>, ghost freed: seq<PageId>)
    requires Inv(s0, mem) && Msync.Still(s0, d) && Msync.Lists(trees.tree, s0, d) && |s0.trees| <= 64
    requires forall m :: m in s0.maps ==> m.key.dev != d
    modifies trees
    ensures Inv(s, mem - Msync.AllLeftOut(d, batches)) && Msync.DirtyBatches(s0, d, batches)
    ensures Released(s0, s, d, freed) && forall k: Key :: k.dev == d ==> !Has(s.rdx, k)
    ensures forall p :: 0 <= p < |s.pages| && s.pages[p].inUse ==> s.pages[p].pvd != d
    ensures Msync.Delivered(s0, s.disk, d, KWayMerge.Flatten(batches), Msync.AllLeftOut(d, batches))
    ensures Msync.Durability(s0, s, mem, d, Msync.AllLeftOut(d, batches))
    ensures Msync.Complete(batches) ==> Msync.AllLeftOut(d, batches) == {}
  {
    var s1;
    s1, batches := Msync.DmapFsync(s0, d, false, trees, mem);
    ghost var kept := mem - Msync.AllLeftOut(d, batches);
    AfterSync(s0, s1, d, KWayMerge.Flatten(batches));
    s, freed := Drain(s1, d, kept);
    NothingLeft(s1, s, kept, d, freed);
    AllReleased(s0, s1, s, mem, kept, d, KWayMerge.Flatten(batches), freed);
  }

  /** Between write-back and drain: the pages of d are at rest and only their records have changed. */
  lemma AfterSync(s0: State, s: State, d: nat, l: seq<KWayMerge.Entry>)
    requires Structure(s0) && Msync.SyncedSoFar(s0, s, l) && Msync.AllClean(s, d) && ListedOf(s0, d, l)
    requires forall m :: m in s0.maps ==> m.key.dev != d
    ensures Quiescent(s, d) && s.maps == s0.maps && |s.pages| == |s0.pages|
    ensures forall p :: 0 <= p < |s.pages| ==> OwnChange(s0.pages[p], s.pages[p], d)
  {
    var ps := Msync.PagesOf(l);
    assert ps[..|l|] == ps;
    forall p | 0 <= p < |s.pages| ensures OwnChange(s0.pages[p], s.pages[p], d) {
      if p in ps {
        var i :| 0 <= i < |ps| && ps[i] == p;
        assert s.pages[ps[i]] == EvictorRound.Evicted(s0.pages[ps[i]]);
        ListedPage(s0, d, l, i);
      }
    }
    UnmappedAll(s0, d, l);
    ReadOnlyAlready(s0.maps, ps);
  }

  ghost predicate ListedOf(s: State, d: nat, l: seq<KWayMerge.Entry>) {
    forall e :: e in l ==> Has(s.trees, Key(d, e.offset)) && Get(s.trees, Key(d, e.offset)) == e.page
  }

  /** Unchanged, or a page of d that has been cleaned. */
  predicate OwnChange(r: Page, r': Page, d: nat) {
    r' == r || (r' == EvictorRound.Evicted(r) && r.inUse && r.pvd == d)
  }

  lemma ListedPage(s: State, d: nat, l: seq<KWayMerge.Entry>, i: nat)
    requires Structure(s) && ListedOf(s, d, l) && i < |l|
    ensures l[i].page < |s.pages| && s.pages[l[i].page].inUse && s.pages[l[i].page].pvd == d
  {
    var e: KWayMerge.Entry := l[i];
    assert e in l;
    TreeEntry(s, Key(d, e.offset));
    Local(s, e.page);
  }

  lemma UnmappedAll(s: State, d: nat, l: seq<KWayMerge.Entry>)
    requires Structure(s) && ListedOf(s, d, l) && forall m :: m in s.maps ==> m.key.dev != d
    ensures forall m :: m in s.maps && m.page in Msync.PagesOf(l) ==> !m.writable
  {
    assert Holds(PageTables, s);
    forall m | m in s.maps ensures m.page !in Msync.PagesOf(l) {
      assert MappingOk(s.pages, m);
      forall i | 0 <= i < |l| ensures l[i].page != m.page { ListedPage(s, d, l, i); }
    }
  }

  lemma TreesKept(s0: State, s: State, d: nat, l: seq<KWayMerge.Entry>, k: Key)
    requires Structure(s0) && Fsync.Untreed(s0, s, Msync.PagesOf(l)) && ListedOf(s0, d, l)
    requires forall o: nat :: !Has(s.trees, Key(d, o))
    ensures TreeKept(s0, s, d, k)
  {
    assert Fsync.StillIn(s0, s, Msync.PagesOf(l), k);
    assert k.dev == d ==> k == Key(d, k.off);
    if Has(s0.trees, k) && k.dev != d {
      TreeEntry(s0, k);
      forall i | 0 <= i < |l| ensures l[i].page != Get(s0.trees, k) { ListedPage(s0, d, l, i); }
    }
  }

  lemma FreedAreOwn(s0: State, s1: State, s: State, mem: Memory, d: nat, freed: seq<PageId>)
    requires Draining(s1, s, mem, d, freed) && |s1.pages| == |s0.pages|
    requires forall p :: 0 <= p < |s1.pages| ==> OwnChange(s0.pages[p], s1.pages[p], d)
    requires forall p :: 0 <= p < |s1.pages| && s1.pages[p].inUse && s1.pages[p].pvd == d ==> p in freed
    ensures forall p :: p in freed <==> 0 <= p < |s0.pages| && s0.pages[p].inUse && s0.pages[p].pvd == d
    ensures Swept(s0.pages, s.pages, freed, |freed|, Blanked)
  {
    assert freed[..|freed|] == freed;
    forall p | 0 <= p < |s0.pages|
      ensures s1.pages[p].inUse == s0.pages[p].inUse && s1.pages[p].pvd == s0.pages[p].pvd
    {
      assert OwnChange(s0.pages[p], s1.pages[p], d);
    }
    forall i | 0 <= i < |freed| ensures s.pages[freed[i]] == Blanked(s0.pages[freed[i]]) {
      assert OwnChange(s0.pages[freed[i]], s1.pages[freed[i]], d);
      assert s.pages[freed[i]] == Blanked(s1.pages[freed[i]]);
    }
    forall p | 0 <= p < |s.pages| && p !in freed ensures s.pages[p] == s0.pages[p] {
      assert OwnChange(s0.pages[p], s1.pages[p], d);
    }
  }

  /** Queue membership follows the page records on both sides. */
  lemma QueuesReleased(s0: State, s: State, d: nat, freed: seq<PageId>, p: PageId)
    requires Structure(s0) && Structure(s) && Swept(s0.pages, s.pages, freed, |freed|, Blanked)
    ensures forall q: nat :: InClean(s, p, q) <==> InClean(s0, p, q) && p !in freed
    ensures forall e: nat :: InDirty(s, p, e) <==> InDirty(s0, p, e) && p !in freed
  {
    assert freed[..|freed|] == freed;
    if p < |s.pages| {
      QueuesOf(s0, p);
      QueuesOf(s, p);
      if p in freed {
        var i :| 0 <= i < |freed| && freed[i] == p;
        assert s.pages[freed[i]] == Blanked(s0.pages[freed[i]]);
      }
    } else {
      Outside(s0, p);
      Outside(s, p);
    }
  }

  lemma Outside(s: State, p: PageId)
    requires Structure(s) && p >= |s.pages|
    ensures (forall q: nat :: !InClean(s, p, q)) && (forall e: nat :: !InDirty(s, p, e))
  {
    forall q: nat ensures !InClean(s, p, q) { if InClean(s, p, q) { CleanInUse(s, q, p); } }
    forall e: nat ensures !InDirty(s, p, e) { if InDirty(s, p, e) { DirtyInUse(s, e, p); } }
  }

  lemma AllReleased(s0: State, s1: State, s: State, mem: Memory, kept: Memory, d: nat, l: seq<KWayMerge.Entry>,
                    freed: seq<PageId>)
    requires Inv(s0, mem) && Msync.SyncedSoFar(s0, s1, l) && ListedOf(s0, d, l) && s1.maps == s0.maps
    requires (forall p :: 0 <= p < |s1.pages| ==> |s1.pages| == |s0.pages| && OwnChange(s0.pages[p], s1.pages[p], d))
    requires Draining(s1, s, kept, d, freed) && (forall o: nat :: !Has(s1.trees, Key(d, o)))
    requires forall p :: 0 <= p < |s1.pages| && s1.pages[p].inUse && s1.pages[p].pvd == d ==> p in freed
    ensures Released(s0, s, d, freed)
  {
    FreedAreOwn(s0, s1, s, kept, d, freed);
    forall k ensures TreeKept(s0, s, d, k) { TreesKept(s0, s1, d, l, k); }
    forall k ensures EntryKept(s0, s, freed, k) { assert EntryKept(s1, s, freed, k); }
    forall p: PageId, q: nat ensures InClean(s, p, q) <==> InClean(s0, p, q) && p !in freed {
      QueuesReleased(s0, s, d, freed, p);
    }
    forall p: PageId, e: nat ensures InDirty(s, p, e) <==> InDirty(s0, p, e) && p !in freed {
      QueuesReleased(s0, s, d, freed, p);
    }
    ListedFreed(s0, d, l, freed);
    GainsThenLoses(s0.clean, s1.clean, s.clean, s0.pages, Msync.PagesOf(l), freed);
    DirtyLoses(s0, s, Msync.PagesOf(l), freed);
  }

  lemma ListedFreed(s0: State, d: nat, l: seq<KWayMerge.Entry>, freed: seq<PageId>)
    requires Structure(s0) && ListedOf(s0, d, l)
    requires forall p :: p in freed <==> 0 <= p < |s0.pages| && s0.pages[p].inUse && s0.pages[p].pvd == d
    ensures forall p: PageId :: p in Msync.PagesOf(l) ==> p in freed
  {
    forall p: PageId | p in Msync.PagesOf(l) ensures p in freed {
      var i :| 0 <= i < |l| && Msync.PagesOf(l)[i] == p;
      ListedPage(s0, d, l, i);
    }
  }

  /** Of the dirty pages exactly the freed ones were listed. */
  lemma DirtyLoses(s0: State, s: State, listed: seq<PageId>, freed: seq<PageId>)
    requires QueuesLose(s0.dirty, s.dirty, listed)
    requires forall p: PageId, e: nat :: InDirty(s, p, e) <==> InDirty(s0, p, e) && p !in freed
    ensures QueuesLose(s0.dirty, s.dirty, freed)
  {
    forall e | 0 <= e < |s0.dirty| ensures s.dirty[e].items == Except(s0.dirty[e].items, freed) {
      forall p: PageId | p in s0.dirty[e].items ensures p in listed <==> p in freed {
        assert InDirty(s, p, e) <==> InDirty(s0, p, e) && p !in freed;
      }
      ExceptSame(s0.dirty[e].items, listed, freed);
    }
  }
}
