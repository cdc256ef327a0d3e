/** What every step keeps. A page's own record says where it must be; the queues, the index, the
    dirty trees, the page tables and the device all agree with it. */
module Invariant {
  import opened Params
  import opened Fifo
  import opened Placement
  import opened Lifecycle

  // ---- what a phase says about the page's own fields -----------------------------------------

  /** Lock and in-use bits, exactly as the phase dictates. */
  predicate BitsOk(r: Page) {
    match r.phase
    case OnFreeList => !r.inUse && !r.locked
    case Popped(_, _) => !r.inUse && !r.locked
    case Prepared => !r.inUse && !r.locked
    case Idle => r.inUse && !r.locked
    case Freeing => !r.inUse && r.locked
    case Detached(_) => !r.inUse && !r.locked
    case _ => r.inUse && r.locked
  }

  /** buffer_id and is_dirty, exactly as the phase dictates. */
  predicate QueueFieldsOk(r: Page) {
    match r.phase
    case Filling => r.buf == BI_CLEAN && !r.dirty
    case Settled => r.buf == (if r.dirty then BI_DIRTY else BI_CLEAN)
    case Idle => r.buf == (if r.dirty then BI_DIRTY else BI_CLEAN)
    case MkMarked(_) => r.buf == BI_CLEAN && r.dirty
    case MkInTree => r.buf == BI_CLEAN && r.dirty
    case MkLoose => r.buf == BI_NONE && r.dirty
    case EvTaken => r.buf == BI_NONE && r.dirty
    case EvOut => r.buf == BI_NONE && r.dirty
    case EvProtected => r.buf == BI_NONE && r.dirty
    case EvWritten => r.buf == BI_NONE && r.dirty
    case FsOut => r.buf == BI_DIRTY && r.dirty
    case FsProtected => r.buf == BI_DIRTY && r.dirty
    case FsLoose => r.buf == BI_NONE && r.dirty
    case FsClean => r.buf == BI_CLEAN && !r.dirty
    case _ => r.buf == BI_NONE && !r.dirty
  }

  /** Phases in which the page holds the contents of its block. */
  predicate Loaded(f: Phase) {
    !f.OnFreeList? && !f.Popped? && !f.Prepared? && !f.Fresh? && !f.Lost? && !f.Indexed?
    && !f.Filling? && !f.Freeing? && !f.Detached?
  }

  /** Only a dirty page that its mkwrite has put in a tree can be taken out of it by a probe. */
  predicate MayBeProbed(r: Page) {
    r.phase.MkInTree? || r.phase.MkLoose? || (r.dirty && (r.phase.Idle? || r.phase.Settled?))
  }

  predicate LocalOk(r: Page, home: nat) {
    && BitsOk(r)
    && QueueFieldsOk(r)
    && (Loaded(r.phase) ==> r.valid)
    && (!Loaded(r.phase) && (r.inUse || r.phase.Prepared?) ==> !r.valid)
    && (r.probed ==> MayBeProbed(r))
    && (r.phase.MkMarked? ==> r.phase.vmaDev == r.pvd)
    && (r.phase.Detached? ==> r.phase.list == home)
    && (!r.phase.OnFreeList? && !r.phase.Detached? ==> r.cpuid == home)
  }

  // ---- where a page claims to be -------------------------------------------------------------

  function FreeAt(r: Page, home: nat): Option<nat> { if r.phase.OnFreeList? then Some(home) else None }

  function CleanAt(r: Page): Option<nat> { if r.buf == BI_CLEAN then Some(CleanQueue(r.index)) else None }

  function DirtyAt(r: Page): Option<nat> { if r.buf == BI_DIRTY then Some(DirtyQueue(r.index)) else None }

  /** Phases in which the page is the radix index's entry for its block. */
  predicate InIndex(f: Phase) { f.Indexed? || f.Filling? || (Loaded(f) && !f.PgUnindexed? && !f.PgUnmapped?) }

  function IndexAt(r: Page): Option<Key> { if InIndex(r.phase) then Some(KeyOf(r)) else None }

  predicate InTree(r: Page) { r.phase.EvTaken? || (MayBeProbed(r) && !r.probed) }

  function TreeAt(r: Page): Option<Key> { if InTree(r) then Some(KeyOf(r)) else None }

  function FreeAts(pages: seq<Page>, home: seq<nat>): (at: seq<Option<nat>>)
    requires |home| == |pages|
    ensures |at| == |pages| && forall p :: 0 <= p < |at| ==> at[p] == FreeAt(pages[p], home[p])
  {
    seq(|pages|, p requires 0 <= p < |pages| => FreeAt(pages[p], home[p]))
  }

  function CleanAts(pages: seq<Page>): (at: seq<Option<nat>>)
    ensures |at| == |pages| && forall p :: 0 <= p < |at| ==> at[p] == CleanAt(pages[p])
  {
    seq(|pages|, p requires 0 <= p < |pages| => CleanAt(pages[p]))
  }

  function DirtyAts(pages: seq<Page>): (at: seq<Option<nat>>)
    ensures |at| == |pages| && forall p :: 0 <= p < |at| ==> at[p] == DirtyAt(pages[p])
  {
    seq(|pages|, p requires 0 <= p < |pages| => DirtyAt(pages[p]))
  }

  function IndexAts(pages: seq<Page>): (at: seq<Option<Key>>)
    ensures |at| == |pages| && forall p :: 0 <= p < |at| ==> at[p] == IndexAt(pages[p])
  {
    seq(|pages|, p requires 0 <= p < |pages| => IndexAt(pages[p]))
  }

  function TreeAts(pages: seq<Page>): (at: seq<Option<Key>>)
    ensures |at| == |pages| && forall p :: 0 <= p < |at| ==> at[p] == TreeAt(pages[p])
  {
    seq(|pages|, p requires 0 <= p < |pages| => TreeAt(pages[p]))
  }

  function Items(fs: seq<Queue<PageId>>): (qs: seq<seq<PageId>>)
    ensures |qs| == |fs| && forall q :: 0 <= q < |qs| ==> qs[q] == fs[q].items
  {
    seq(|fs|, q requires 0 <= q < |fs| => fs[q].items)
  }

  // ---- the invariant -------------------------------------------------------------------------

  predicate Shape(s: State) {
    && |s.home| == |s.pages|
    && 0 < |s.free| == |s.rdx| == |s.trees|
    && |s.clean| == NUM_QUEUES && |s.dirty| == |s.hands| == EVICTOR_THREADS
  }

  ghost predicate Sized(fs: seq<Queue<PageId>>, max: nat) {
    forall q :: 0 <= q < |fs| ==> fs[q].size == |fs[q].items| && fs[q].maxSize == max
  }

  predicate LocalsOk(pages: seq<Page>, home: seq<nat>)
    requires |home| == |pages|
  {
    forall p :: 0 <= p < |pages| ==> LocalOk(pages[p], home[p])
  }

  /** The evictor hand a page must be in, if any. */
  function HandFor(p: PageId, r: Page): Hand {
    if r.phase.EvTaken? then Took(p) else if r.probed then Probed(p, r.pvd) else Empty
  }

  ghost predicate HandsOk(pages: seq<Page>, hands: seq<Hand>)
    requires |hands| == EVICTOR_THREADS
  {
    && (forall p :: 0 <= p < |pages| && !HandFor(p, pages[p]).Empty? ==>
          hands[DirtyQueue(pages[p].index)] == HandFor(p, pages[p]))
    && (forall e :: 0 <= e < EVICTOR_THREADS && !hands[e].Empty? ==> HandOk(pages, e, hands[e]))
  }

  predicate HandOk(pages: seq<Page>, e: nat, h: Hand)
    requires !h.Empty?
  {
    h.page < |pages| && HandFor(h.page, pages[h.page]) == h && DirtyQueue(pages[h.page].index) == e
  }

  /** Phases in which a page may be mapped, and in which it may be mapped for writing. */
  predicate Mappable(r: Page) { Loaded(r.phase) && !r.phase.PgUnmapped? }

  predicate WriteMappable(r: Page) {
    r.dirty && (r.phase.Idle? || r.phase.Settled? || r.phase.EvTaken? || r.phase.EvOut? || r.phase.FsOut?)
  }

  predicate MappingOk(pages: seq<Page>, m: Mapping) {
    && m.page < |pages| && Mappable(pages[m.page]) && m.key == KeyOf(pages[m.page])
    && (m.writable ==> WriteMappable(pages[m.page]))
  }

  ghost predicate MapsOk(pages: seq<Page>, maps: set<Mapping>) {
    forall m :: m in maps ==> MappingOk(pages, m)
  }

  /** The clauses of the structural invariant, by name: a proof that needs one of them asserts it. */
  datatype Clause = Sizes | Locals | FreeLists | CleanFifos | DirtyFifos | Index | Trees | Hands | PageTables

  ghost predicate Holds(c: Clause, s: State)
    requires Shape(s)
  {
    match c
    case Sizes =>
      && Sized(s.clean, |s.pages| + |s.free|) && Sized(s.dirty, |s.pages| + |s.free|)
      && (forall p :: 0 <= p < |s.home| ==> s.home[p] < |s.free|)
    case Locals => LocalsOk(s.pages, s.home)
    case FreeLists => Queued(s.free, FreeAts(s.pages, s.home))
    case CleanFifos => Queued(Items(s.clean), CleanAts(s.pages))
    case DirtyFifos => Queued(Items(s.dirty), DirtyAts(s.pages))
    case Index => Sharded(s.rdx, IndexAts(s.pages))
    case Trees => Sharded(s.trees, TreeAts(s.pages))
    case Hands => HandsOk(s.pages, s.hands)
    case PageTables => MapsOk(s.pages, s.maps)
  }

  ghost predicate Structure(s: State) {
    Shape(s) && forall c: Clause :: Holds(c, s)
  }

  /** The device may lag behind the page only while the page is dirty and unwritten, or while an
      fsync has already marked it clean but not yet written it. */
  predicate MayLag(r: Page) { (r.dirty && !r.phase.EvWritten?) || r.phase.FsClean? }

  predicate PageCoherent(r: Page, disk: map<Key, Data>, mem: Memory) {
    InIndex(r.phase) && KeyOf(r) in mem ==>
      && (r.valid ==> r.data == mem[KeyOf(r)])
      && (!MayLag(r) ==> Block(disk, KeyOf(r)) == mem[KeyOf(r)])
  }

  datatype Aspect = PagesAgree | DeviceAgrees | MemoryReadable | LoadedReadable

  ghost predicate Agrees(a: Aspect, s: State, mem: Memory) {
    match a
    case PagesAgree => forall p :: 0 <= p < |s.pages| ==> PageCoherent(s.pages[p], s.disk, mem)
    case DeviceAgrees => forall k :: k in mem && !Has(s.rdx, k) ==> Block(s.disk, k) == mem[k]
    case MemoryReadable => forall k :: k in mem ==> Readable(s, k)
    case LoadedReadable =>
      forall p :: 0 <= p < |s.pages| && Loaded(s.pages[p].phase) ==> Readable(s, KeyOf(s.pages[p]))
  }

  /** Page, device and the memory of last stores agree on every block the memory defines. */
  ghost predicate Coherent(s: State, mem: Memory) { forall a: Aspect :: Agrees(a, s, mem) }

  ghost predicate Inv(s: State, mem: Memory) { Structure(s) && Coherent(s, mem) }
}
