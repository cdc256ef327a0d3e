/** The page cache as a step system. One step is one spinlock section, one atomic update or one
    page-table change; any number of fault, mkwrite, fsync, purge and evictor threads
    interleave them. A page's `phase` is the point its current lock holder has reached. */
module Lifecycle {
  import opened Params
  import opened Fifo
  import opened Placement

  type Data = int
  const NULL_PVD: nat := 0

  /** What the last store to each block left there; blocks outside the domain are undefined. */
  type Memory = map<Key, Data>

  datatype BufferId = BI_NONE | BI_CLEAN | BI_DIRTY

  datatype Phase =
    // free, allocate
    | OnFreeList
    | Popped(dev: nat, off: nat)  // unlinked from its free list, fields still those of its last life
    | Prepared                    // fields set, not yet in use
    // page fault on a missing page
    | Fresh                       // in use and locked, in no index
    | Lost                        // another thread indexed the same offset first
    | Indexed
    | Filling                     // in the clean FIFO, contents not yet read
    // at rest
    | Settled                     // locked by a fault, a mkwrite or a writer about to unlock it
    | Idle                        // unlocked
    // mkwrite
    | MkMarked(vmaDev: nat)       // is_dirty set; vmaDev is the pvd of the faulting VMA
    | MkInTree
    | MkLoose                     // out of the clean FIFO, not yet in the dirty one
    // evictor
    | EvTaken                     // dequeued, still in its dirty tree
    | EvOut
    | EvProtected
    | EvWritten
    // fsync
    | FsOut                       // erased from its dirty tree, still in the dirty FIFO
    | FsProtected
    | FsLoose
    | FsClean                     // in the clean FIFO and marked clean, not yet written
    // purge
    | PgOut
    | PgUnindexed
    | PgUnmapped
    // free_page_lock
    | Freeing                     // in_use cleared, still locked
    | Detached(list: nat)         // reset and unlocked, not yet linked on free list `list`

  datatype Page = Page(
    index: nat, pvd: nat, inUse: bool, locked: bool, valid: bool, dirty: bool,
    buf: BufferId, cpuid: nat, data: Data, phase: Phase, probed: bool)

  /** A page-table entry: a VMA maps block `key` to page `page`. */
  datatype Mapping = Mapping(vma: nat, key: Key, page: PageId, writable: bool)

  /** What an evictor is busy with: the page it has just dequeued and must still take out of its
      dirty tree, or a neighbour it has erased from `dev`'s dirty tree and must still lock. */
  datatype Hand = Empty | Took(page: PageId) | Probed(page: PageId, dev: nat)

  datatype State = State(
    pages: seq<Page>,
    home: seq<nat>,                    // free list each page was first linked on
    free: seq<seq<PageId>>,            // one list per CPU
    clean: seq<Queue<PageId>>,         // primary_fifo_data
    dirty: seq<Queue<PageId>>,         // dirty_queue
    rdx: seq<map<Key, PageId>>,        // radix index, shard c of every pvd together
    trees: seq<map<Key, PageId>>,      // dirty trees, shard c of every pvd together
    hands: seq<Hand>,                  // one per evictor
    maps: set<Mapping>,
    disk: map<Key, Data>,
    bitmap: set<Key>,                  // blocks of block devices that were touched before
    files: set<nat>,                   // pvds of type D_FILE
    unlinking: set<nat>)               // pvds with during_unlink set

  function KeyOf(r: Page): Key { Key(r.pvd, r.index) }

  function Block(disk: map<Key, Data>, k: Key): Data { if k in disk then disk[k] else 0 }

  /** Blocks that a fault really reads; any other block is only pretended to be read. */
  predicate Readable(s: State, k: Key) { k.dev in s.files || k in s.bitmap }

  /** trylock_tp: 0 and the lock, or the reason for refusing. `want` is None for ULONG_MAX. */
  function TryLock(r: Page, want: Option<nat>): int {
    if !r.inUse then -3
    else if want.Some? && r.index != want.value then -2
    else if r.locked then -1
    else 0
  }

  datatype Step =
    | Pop(cpu: nat, dev: nat, off: nat)
    | Prepare(p: PageId)
    | Publish(p: PageId)
    | IndexInsert(p: PageId)
    | EnterClean(p: PageId)
    | ReadIn(p: PageId)
    | Hit(key: Key)
    | MapPage(p: PageId, vma: nat)
    | GrantWrite(m: Mapping)
    | Unlock(p: PageId)
    | Store(m: Mapping, v: Data)
    | Unmap(m: Mapping)
    | MkLock(p: PageId, dev: nat, off: nat)
    | MkTree(p: PageId)
    | MkLeave(p: PageId)
    | MkEnter(p: PageId)
    | EvDequeue(e: nat)
    | EvUntree(p: PageId)
    | EvProbe(e: nat, key: Key)
    | EvClaim(e: nat)
    | EvPutBack(e: nat)
    | EvEnter(p: PageId)
    | FsTake(key: Key)
    | FsLeave(p: PageId)
    | FsEnter(p: PageId)
    | Protect(p: PageId)
    | SkipProtect(p: PageId)
    | WriteBlock(p: PageId)
    | DropBlock(p: PageId)
    | PgDequeue(q: nat)
    | PgUnindex(p: PageId)
    | PgUnmap(p: PageId)
    | FreeStart(p: PageId)
    | FreeReset(p: PageId)
    | FreeLink(p: PageId)

  predicate InPhase(s: State, p: PageId, f: Phase) {
    p < |s.pages| && s.pages[p].phase == f
  }

  /** ev_deq and deq: can the head of this queue be locked now? */
  predicate Lockable(s: State, p: PageId) {
    p < |s.pages| && TryLock(s.pages[p], None) == 0
  }

  predicate Enabled(s: State, t: Step) {
    match t
    case Pop(c, _, _) => c < |s.free| && s.free[c] != [] && s.free[c][0] < |s.pages|
    case Prepare(p) => p < |s.pages| && s.pages[p].phase.Popped?
    case Publish(p) => InPhase(s, p, Prepared)
    case IndexInsert(p) => InPhase(s, p, Fresh) && 0 < |s.rdx|
    case EnterClean(p) => InPhase(s, p, Indexed) && |s.clean| == NUM_QUEUES
    case ReadIn(p) => InPhase(s, p, Filling)
    case Hit(k) => Has(s.rdx, k) && Lockable(s, Get(s.rdx, k))
    case MapPage(p, _) => InPhase(s, p, Settled)
    case GrantWrite(m) => m in s.maps && InPhase(s, m.page, Settled) && s.pages[m.page].dirty
    case Unlock(p) => InPhase(s, p, Settled)
    case Store(m, _) => m in s.maps && m.writable && m.page < |s.pages|
    case Unmap(m) => m in s.maps
    case MkLock(p, _, o) => p < |s.pages| && TryLock(s.pages[p], Some(o)) == 0
    case MkTree(p) => p < |s.pages| && s.pages[p].phase.MkMarked? && 0 < |s.trees|
    case MkLeave(p) => InPhase(s, p, MkInTree) && |s.clean| == NUM_QUEUES
    case MkEnter(p) => InPhase(s, p, MkLoose) && |s.dirty| == EVICTOR_THREADS
    case EvDequeue(e) =>
      && e < |s.dirty| && e < |s.hands| && s.hands[e].Empty?
      && s.dirty[e].items != [] && s.dirty[e].items[0] < |s.pages|
    case EvUntree(p) => InPhase(s, p, EvTaken) && 0 < |s.trees| && |s.hands| == EVICTOR_THREADS
    case EvProbe(e, k) =>
      && e < |s.hands| && s.hands[e].Empty? && DirtyQueue(k.off) == e
      && Has(s.trees, k) && Get(s.trees, k) < |s.pages|
    case EvClaim(e) =>
      e < |s.dirty| && e < |s.hands| && s.hands[e].Probed? && Lockable(s, s.hands[e].page)
    case EvPutBack(e) =>
      e < |s.hands| && s.hands[e].Probed? && s.hands[e].page < |s.pages| && 0 < |s.trees|
    case EvEnter(p) => InPhase(s, p, EvWritten) && |s.clean| == NUM_QUEUES
    case FsTake(k) => Has(s.trees, k) && Lockable(s, Get(s.trees, k))
    case FsLeave(p) => InPhase(s, p, FsProtected) && |s.dirty| == EVICTOR_THREADS
    case FsEnter(p) => InPhase(s, p, FsLoose) && |s.clean| == NUM_QUEUES
    case Protect(p) => InPhase(s, p, EvOut) || InPhase(s, p, FsOut)
    case SkipProtect(p) => InPhase(s, p, FsOut) && NoWritable(s, p)
    case WriteBlock(p) => InPhase(s, p, EvProtected) || InPhase(s, p, FsClean)
    case DropBlock(p) => InPhase(s, p, EvProtected) || InPhase(s, p, FsClean)
    case PgDequeue(q) => q < |s.clean| && s.clean[q].items != [] && s.clean[q].items[0] < |s.pages|
    case PgUnindex(p) => InPhase(s, p, PgOut) && 0 < |s.rdx|
    case PgUnmap(p) => InPhase(s, p, PgUnindexed)
    case FreeStart(p) => InPhase(s, p, PgUnmapped) || InPhase(s, p, Lost)
    case FreeReset(p) => InPhase(s, p, Freeing)
    case FreeLink(p) => p < |s.pages| && s.pages[p].phase.Detached? && s.pages[p].phase.list < |s.free|
  }

  predicate NoWritable(s: State, p: PageId) {
    forall m :: m in s.maps && m.page == p ==> !m.writable
  }

  /** clear_mappings: every mapping of `p` becomes read-only. */
  function WriteProtect(maps: set<Mapping>, p: PageId): set<Mapping> {
    set m | m in maps :: if m.page == p then m.(writable := false) else m
  }

  function WithPage(s: State, p: PageId, r: Page): State
    requires p < |s.pages|
  {
    s.(pages := s.pages[p := r])
  }

  /** Purge takes the head only when its pvd is not being unlinked. */
  predicate Purgeable(s: State, p: PageId) {
    Lockable(s, p) && s.pages[p].pvd !in s.unlinking
  }

  /** insert_page_fifo_buffer_t; a full FIFO would leave the page in no queue. */
  function IntoClean(s: State, p: PageId, r: Page): State
    requires p < |s.pages| && |s.clean| == NUM_QUEUES
  {
    var q := CleanQueue(r.index);
    WithPage(s, p, r.(buf := if Full(s.clean[q]) then r.buf else BI_CLEAN))
      .(clean := s.clean[q := Enqueue(s.clean[q], p)])
  }

  function Written(s: State, p: PageId): State
    requires p < |s.pages|
  {
    var r := s.pages[p];
    WithPage(s, p, r.(phase := if r.phase.EvProtected? then EvWritten else Settled))
  }

  // ---- what each step does -----------------------------------------------------------------

  function DoPop(s: State, c: nat, d: nat, o: nat): (s': State)
    requires Enabled(s, Pop(c, d, o))
    ensures |s'.pages| == |s.pages| && s'.home == s.home
  {
    var p := s.free[c][0];
    WithPage(s, p, s.pages[p].(cpuid := c, phase := Popped(d, o)))
      .(free := s.free[c := s.free[c][1..]])
  }

  function DoPrepare(s: State, p: PageId): (s': State)
    requires Enabled(s, Prepare(p))
    ensures |s'.pages| == |s.pages| && s'.home == s.home
  {
    var r := s.pages[p];
    WithPage(s, p, r.(index := r.phase.off, pvd := r.phase.dev, valid := false, dirty := false,
                      buf := BI_NONE, phase := Prepared))
  }

  function DoPublish(s: State, p: PageId): (s': State)
    requires Enabled(s, Publish(p))
    ensures |s'.pages| == |s.pages| && s'.home == s.home
  {
    WithPage(s, p, s.pages[p].(inUse := true, locked := true, phase := Fresh))
  }

  function DoIndexInsert(s: State, p: PageId): (s': State)
    requires Enabled(s, IndexInsert(p))
    ensures |s'.pages| == |s.pages| && s'.home == s.home
  {
    var r := s.pages[p];
    if Has(s.rdx, KeyOf(r)) then WithPage(s, p, r.(phase := Lost))
    else WithPage(s, p, r.(phase := Indexed)).(rdx := Put(s.rdx, KeyOf(r), p))
  }

  function DoEnterClean(s: State, p: PageId): (s': State)
    requires Enabled(s, EnterClean(p))
    ensures |s'.pages| == |s.pages| && s'.home == s.home
  {
    IntoClean(s, p, s.pages[p].(phase := Filling))
  }

  function DoReadIn(s: State, p: PageId): (s': State)
    requires Enabled(s, ReadIn(p))
    ensures |s'.pages| == |s.pages| && s'.home == s.home
  {
    var r := s.pages[p];
    var contents := if Readable(s, KeyOf(r)) then Block(s.disk, KeyOf(r)) else r.data;
    WithPage(s, p, r.(valid := true, data := contents, phase := Settled))
      .(bitmap := s.bitmap + {KeyOf(r)})
  }

  function DoHit(s: State, k: Key): (s': State)
    requires Enabled(s, Hit(k))
    ensures |s'.pages| == |s.pages| && s'.home == s.home
  {
    var p := Get(s.rdx, k);
    WithPage(s, p, s.pages[p].(locked := true, phase := Settled))
  }

  function DoMapPage(s: State, p: PageId, vma: nat): (s': State)
    requires Enabled(s, MapPage(p, vma))
    ensures |s'.pages| == |s.pages| && s'.home == s.home
  {
    s.(maps := s.maps + {Mapping(vma, KeyOf(s.pages[p]), p, false)})
  }

  function DoGrantWrite(s: State, m: Mapping): (s': State)
    requires Enabled(s, GrantWrite(m))
    ensures |s'.pages| == |s.pages| && s'.home == s.home
  {
    s.(maps := s.maps - {m} + {m.(writable := true)})
  }

  function DoUnlock(s: State, p: PageId): (s': State)
    requires Enabled(s, Unlock(p))
    ensures |s'.pages| == |s.pages| && s'.home == s.home
  {
    WithPage(s, p, s.pages[p].(locked := false, phase := Idle))
  }

  function DoStore(s: State, m: Mapping, v: Data): (s': State)
    requires Enabled(s, Store(m, v))
    ensures |s'.pages| == |s.pages| && s'.home == s.home
  {
    WithPage(s, m.page, s.pages[m.page].(data := v))
  }

  function DoUnmap(s: State, m: Mapping): (s': State)
    requires Enabled(s, Unmap(m))
    ensures |s'.pages| == |s.pages| && s'.home == s.home
  {
    s.(maps := s.maps - {m})
  }

  function DoMkLock(s: State, p: PageId, d: nat, off: nat): (s': State)
    requires Enabled(s, MkLock(p, d, off))
    ensures |s'.pages| == |s.pages| && s'.home == s.home
  {
    var r := s.pages[p].(locked := true);
    if r.dirty then WithPage(s, p, r.(phase := Settled))
    else WithPage(s, p, r.(dirty := true, phase := MkMarked(d)))
  }

  function DoMkTree(s: State, p: PageId): (s': State)
    requires Enabled(s, MkTree(p))
    ensures |s'.pages| == |s.pages| && s'.home == s.home
  {
    var r := s.pages[p];
    var k := Key(r.phase.vmaDev, r.index);
    WithPage(s, p, r.(phase := MkInTree))
      .(trees := if Has(s.trees, k) then s.trees else Put(s.trees, k, p))
  }

  function DoMkLeave(s: State, p: PageId): (s': State)
    requires Enabled(s, MkLeave(p))
    ensures |s'.pages| == |s.pages| && s'.home == s.home
  {
    var r := s.pages[p];
    var q := CleanQueue(r.index);
    WithPage(s, p, r.(buf := BI_NONE, phase := MkLoose))
      .(clean := s.clean[q := Remove(s.clean[q], p)])
  }

  function DoMkEnter(s: State, p: PageId): (s': State)
    requires Enabled(s, MkEnter(p))
    ensures |s'.pages| == |s.pages| && s'.home == s.home
  {
    var r := s.pages[p];
    var e := DirtyQueue(r.index);
    WithPage(s, p, r.(buf := if Full(s.dirty[e]) then r.buf else BI_DIRTY, phase := Settled))
      .(dirty := s.dirty[e := Enqueue(s.dirty[e], p)])
  }

  function DoEvDequeue(s: State, e: nat): (s': State)
    requires Enabled(s, EvDequeue(e))
    ensures |s'.pages| == |s.pages| && s'.home == s.home
  {
    var p := s.dirty[e].items[0];
    var ok := Lockable(s, p);
    var s1 := s.(dirty := s.dirty[e := DequeueIf(s.dirty[e], ok)]);
    if !ok then s1
    else WithPage(s1, p, s.pages[p].(locked := true, buf := BI_NONE, phase := EvTaken))
      .(hands := s.hands[e := Took(p)])
  }

  function DoEvUntree(s: State, p: PageId): (s': State)
    requires Enabled(s, EvUntree(p))
    ensures |s'.pages| == |s.pages| && s'.home == s.home
  {
    WithPage(s, p, s.pages[p].(phase := EvOut))
      .(trees := Erase(s.trees, KeyOf(s.pages[p])), hands := s.hands[DirtyQueue(s.pages[p].index) := Empty])
  }

  function DoEvProbe(s: State, e: nat, k: Key): (s': State)
    requires Enabled(s, EvProbe(e, k))
    ensures |s'.pages| == |s.pages| && s'.home == s.home
  {
    var p := Get(s.trees, k);
    WithPage(s, p, s.pages[p].(probed := true))
      .(trees := Erase(s.trees, k), hands := s.hands[e := Probed(p, k.dev)])
  }

  function DoEvClaim(s: State, e: nat): (s': State)
    requires Enabled(s, EvClaim(e))
    ensures |s'.pages| == |s.pages| && s'.home == s.home
  {
    var p := s.hands[e].page;
    WithPage(s, p, s.pages[p].(locked := true, buf := BI_NONE, probed := false, phase := EvOut))
      .(dirty := s.dirty[e := Remove(s.dirty[e], p)], hands := s.hands[e := Empty])
  }

  function DoEvPutBack(s: State, e: nat): (s': State)
    requires Enabled(s, EvPutBack(e))
    ensures |s'.pages| == |s.pages| && s'.home == s.home
  {
    var b := s.hands[e];
    var k := Key(b.dev, s.pages[b.page].index);
    WithPage(s, b.page, s.pages[b.page].(probed := false))
      .(trees := if Has(s.trees, k) then s.trees else Put(s.trees, k, b.page),
        hands := s.hands[e := Empty])
  }

  function DoEvEnter(s: State, p: PageId): (s': State)
    requires Enabled(s, EvEnter(p))
    ensures |s'.pages| == |s.pages| && s'.home == s.home
  {
    IntoClean(s, p, s.pages[p].(dirty := false, phase := Settled))
  }

  function DoFsTake(s: State, k: Key): (s': State)
    requires Enabled(s, FsTake(k))
    ensures |s'.pages| == |s.pages| && s'.home == s.home
  {
    var p := Get(s.trees, k);
    WithPage(s, p, s.pages[p].(locked := true, phase := FsOut)).(trees := Erase(s.trees, k))
  }

  function DoFsLeave(s: State, p: PageId): (s': State)
    requires Enabled(s, FsLeave(p))
    ensures |s'.pages| == |s.pages| && s'.home == s.home
  {
    var r := s.pages[p];
    var e := DirtyQueue(r.index);
    WithPage(s, p, r.(buf := BI_NONE, phase := FsLoose))
      .(dirty := s.dirty[e := Remove(s.dirty[e], p)])
  }

  function DoFsEnter(s: State, p: PageId): (s': State)
    requires Enabled(s, FsEnter(p))
    ensures |s'.pages| == |s.pages| && s'.home == s.home
  {
    IntoClean(s, p, s.pages[p].(dirty := false, phase := FsClean))
  }

  function DoProtect(s: State, p: PageId): (s': State)
    requires Enabled(s, Protect(p))
    ensures |s'.pages| == |s.pages| && s'.home == s.home
  {
    var r := s.pages[p];
    WithPage(s, p, r.(phase := if r.phase.EvOut? then EvProtected else FsProtected))
      .(maps := WriteProtect(s.maps, p))
  }

  function DoSkipProtect(s: State, p: PageId): (s': State)
    requires Enabled(s, SkipProtect(p))
    ensures |s'.pages| == |s.pages| && s'.home == s.home
  {
    WithPage(s, p, s.pages[p].(phase := FsProtected))
  }

  function DoWriteBlock(s: State, p: PageId): (s': State)
    requires Enabled(s, WriteBlock(p))
    ensures |s'.pages| == |s.pages| && s'.home == s.home
  {
    Written(s, p).(disk := s.disk[KeyOf(s.pages[p]) := s.pages[p].data])
  }

  function DoDropBlock(s: State, p: PageId): (s': State)
    requires Enabled(s, DropBlock(p))
    ensures |s'.pages| == |s.pages| && s'.home == s.home
  {
    Written(s, p)
  }

  function DoPgDequeue(s: State, q: nat): (s': State)
    requires Enabled(s, PgDequeue(q))
    ensures |s'.pages| == |s.pages| && s'.home == s.home
  {
    var p := s.clean[q].items[0];
    var ok := Purgeable(s, p);
    var s1 := s.(clean := s.clean[q := DequeueIf(s.clean[q], ok)]);
    if ok then WithPage(s1, p, s.pages[p].(locked := true, buf := BI_NONE, phase := PgOut)) else s1
  }

  function DoPgUnindex(s: State, p: PageId): (s': State)
    requires Enabled(s, PgUnindex(p))
    ensures |s'.pages| == |s.pages| && s'.home == s.home
  {
    WithPage(s, p, s.pages[p].(phase := PgUnindexed)).(rdx := Erase(s.rdx, KeyOf(s.pages[p])))
  }

  function DoPgUnmap(s: State, p: PageId): (s': State)
    requires Enabled(s, PgUnmap(p))
    ensures |s'.pages| == |s.pages| && s'.home == s.home
  {
    WithPage(s, p, s.pages[p].(phase := PgUnmapped)).(maps := set m | m in s.maps && m.page != p)
  }

  function DoFreeStart(s: State, p: PageId): (s': State)
    requires Enabled(s, FreeStart(p))
    ensures |s'.pages| == |s.pages| && s'.home == s.home
  {
    WithPage(s, p, s.pages[p].(inUse := false, phase := Freeing))
  }

  function DoFreeReset(s: State, p: PageId): (s': State)
    requires Enabled(s, FreeReset(p))
    ensures |s'.pages| == |s.pages| && s'.home == s.home
  {
    var r := s.pages[p];
    WithPage(s, p, r.(index := 0, pvd := NULL_PVD, valid := false, dirty := false, buf := BI_NONE,
                      cpuid := 0, locked := false, phase := Detached(r.cpuid)))
  }

  function DoFreeLink(s: State, p: PageId): (s': State)
    requires Enabled(s, FreeLink(p))
    ensures |s'.pages| == |s.pages| && s'.home == s.home
  {
    var c := s.pages[p].phase.list;
    WithPage(s, p, s.pages[p].(phase := OnFreeList)).(free := s.free[c := s.free[c] + [p]])
  }

  function Apply(s: State, t: Step): (s': State)
    requires Enabled(s, t)
    ensures |s'.pages| == |s.pages| && s'.home == s.home
  {
    match t
    case Pop(c, d, o) => DoPop(s, c, d, o)
    case Prepare(p) => DoPrepare(s, p)
    case Publish(p) => DoPublish(s, p)
    case IndexInsert(p) => DoIndexInsert(s, p)
    case EnterClean(p) => DoEnterClean(s, p)
    case ReadIn(p) => DoReadIn(s, p)
    case Hit(k) => DoHit(s, k)
    case MapPage(p, vma) => DoMapPage(s, p, vma)
    case GrantWrite(m) => DoGrantWrite(s, m)
    case Unlock(p) => DoUnlock(s, p)
    case Store(m, v) => DoStore(s, m, v)
    case Unmap(m) => DoUnmap(s, m)
    case MkLock(p, d, off) => DoMkLock(s, p, d, off)
    case MkTree(p) => DoMkTree(s, p)
    case MkLeave(p) => DoMkLeave(s, p)
    case MkEnter(p) => DoMkEnter(s, p)
    case EvDequeue(e) => DoEvDequeue(s, e)
    case EvUntree(p) => DoEvUntree(s, p)
    case EvProbe(e, k) => DoEvProbe(s, e, k)
    case EvClaim(e) => DoEvClaim(s, e)
    case EvPutBack(e) => DoEvPutBack(s, e)
    case EvEnter(p) => DoEvEnter(s, p)
    case FsTake(k) => DoFsTake(s, k)
    case FsLeave(p) => DoFsLeave(s, p)
    case FsEnter(p) => DoFsEnter(s, p)
    case Protect(p) => DoProtect(s, p)
    case SkipProtect(p) => DoSkipProtect(s, p)
    case WriteBlock(p) => DoWriteBlock(s, p)
    case DropBlock(p) => DoDropBlock(s, p)
    case PgDequeue(q) => DoPgDequeue(s, q)
    case PgUnindex(p) => DoPgUnindex(s, p)
    case PgUnmap(p) => DoPgUnmap(s, p)
    case FreeStart(p) => DoFreeStart(s, p)
    case FreeReset(p) => DoFreeReset(s, p)
    case FreeLink(p) => DoFreeLink(s, p)
  }

  // ---- runs --------------------------------------------------------------------------------

  predicate Legal(s: State, run: seq<Step>)
    decreases |run|
  {
    run == [] || (Enabled(s, run[0]) && Legal(Apply(s, run[0]), run[1..]))
  }

  function After(s: State, run: seq<Step>): State
    requires Legal(s, run)
    decreases |run|
  {
    if run == [] then s else After(Apply(s, run[0]), run[1..])
  }

  /** The memory the cache is meant to be: what each block holds is decided by the stores alone. */
  function Remember(mem: Memory, t: Step): Memory {
    if t.Store? then mem[t.m.key := t.v] else mem
  }

  function LastStored(mem: Memory, run: seq<Step>): Memory
    decreases |run|
  {
    if run == [] then mem else LastStored(Remember(mem, run[0]), run[1..])
  }

  /** What the cache holds for a block: its page once that is valid, else the device. */
  function Contents(s: State, k: Key): Data {
    if Has(s.rdx, k) && Get(s.rdx, k) < |s.pages| && s.pages[Get(s.rdx, k)].valid
    then s.pages[Get(s.rdx, k)].data
    else Block(s.disk, k)
  }

  /** A step that stays clear of the two places where the code departs from the protocol: a batch
      page that coalescing leaves out, and a mkwrite granted on a clean page of another pvd. */
  predicate Sound(s: State, t: Step)
    requires Enabled(s, t)
  {
    && !t.DropBlock?
    && (t.MkLock? && !s.pages[t.p].dirty ==> s.pages[t.p].pvd == t.dev)
  }

  predicate SoundRun(s: State, run: seq<Step>)
    requires Legal(s, run)
    decreases |run|
  {
    run == [] || (Sound(s, run[0]) && SoundRun(Apply(s, run[0]), run[1..]))
  }

  /** After init_hash_table_free_pages: `per` pages on each CPU's list and nothing in use. */
  ghost predicate Init(s: State) {
    var n := |s.free|;
    && 0 < n == |s.rdx| == |s.trees|
    && |s.home| == |s.pages|
    && |s.clean| == NUM_QUEUES && |s.dirty| == |s.hands| == EVICTOR_THREADS
    && (exists per: nat :: |s.pages| == n * per && FreshLists(s, per))
    && (forall p :: 0 <= p < |s.pages| ==> BlankPage(s.pages[p]))
    && (forall q :: 0 <= q < NUM_QUEUES ==> s.clean[q] == Queue([], 0, |s.pages| + n))
    && (forall e :: 0 <= e < EVICTOR_THREADS ==> s.dirty[e] == Queue([], 0, |s.pages| + n))
    && (forall e :: 0 <= e < EVICTOR_THREADS ==> s.hands[e].Empty?)
    && (forall c :: 0 <= c < n ==> s.rdx[c] == map[] && s.trees[c] == map[])
    && s.maps == {}
  }

  predicate BlankPage(r: Page) {
    && !r.inUse && !r.locked && !r.valid && !r.dirty && !r.probed
    && r.buf == BI_NONE && r.phase == OnFreeList
  }

  /** CPU c's list holds pages c*per .. (c+1)*per in order. */
  ghost predicate FreshLists(s: State, per: nat)
    requires |s.home| == |s.pages|
  {
    && (forall c :: 0 <= c < |s.free| ==> |s.free[c]| == per)
    && (forall c, i :: 0 <= c < |s.free| && 0 <= i < per ==>
          0 <= c * per + i < |s.pages| && s.free[c][i] == c * per + i && s.home[c * per + i] == c)
    && (forall p :: 0 <= p < |s.pages| ==>
          s.home[p] < |s.free| && s.home[p] * per <= p < s.home[p] * per + per)
  }
}
