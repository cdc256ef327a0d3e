/** How much of the cache one step can touch, whichever thread takes it: the record of one page, the
    entries and mappings of that page, its block, and that page's place in the lists. */
module Locality {
  import opened Params
  import opened Fifo
  import opened Placement
  import opened Lifecycle
  import opened Invariant
  import opened Moves
  import opened Theorems
  import opened Interference

  /** The page a step is about. */
  function About(s: State, t: Step): PageId {
    match t
    case Pop(c, _, _) => if c < |s.free| then Head(s.free[c]) else 0
    case Hit(k) => Entry(s.rdx, k)
    case MapPage(p, _) => p
    case GrantWrite(m) => m.page
    case Store(m, _) => m.page
    case Unmap(m) => m.page
    case MkLock(p, _, _) => p
    case EvDequeue(e) => if e < |s.dirty| then Head(s.dirty[e].items) else 0
    case EvProbe(_, k) => Entry(s.trees, k)
    case EvClaim(e) => InHand(s, e)
    case EvPutBack(e) => InHand(s, e)
    case FsTake(k) => Entry(s.trees, k)
    case PgDequeue(q) => if q < |s.clean| then Head(s.clean[q].items) else 0
    case _ => if Subject(t).Some? then Subject(t).value else 0
  }

  function Head(l: seq<PageId>): PageId { if l == [] then 0 else l[0] }

  function Entry(ms: seq<map<Key, PageId>>, k: Key): PageId { if Has(ms, k) then Get(ms, k) else 0 }

  function InHand(s: State, e: nat): PageId {
    if e < |s.hands| && !s.hands[e].Empty? then s.hands[e].page else 0
  }

  /** The list is the same, or has lost p, or has p at its tail; the others in it keep their order. */
  predicate ListStep(old_: seq<PageId>, new_: seq<PageId>, p: PageId) {
    new_ == old_ || new_ == Without(old_, p) || new_ == Without(old_, p) + [p]
  }

  ghost predicate ListsStep(qs: seq<seq<PageId>>, qs': seq<seq<PageId>>, p: PageId) {
    |qs'| == |qs| && forall q :: 0 <= q < |qs| ==> ListStep(qs[q], qs'[q], p)
  }

  /** Entries that name other pages are the same. */
  ghost predicate EntriesStep(ms: seq<map<Key, PageId>>, ms': seq<map<Key, PageId>>, p: PageId) {
    |ms'| == |ms| && forall k :: EntryStep(ms, ms', p, k)
  }

  predicate EntryStep(ms: seq<map<Key, PageId>>, ms': seq<map<Key, PageId>>, p: PageId, k: Key) {
    && (Has(ms, k) && Get(ms, k) != p ==> Has(ms', k) && Get(ms', k) == Get(ms, k))
    && (Has(ms', k) && Get(ms', k) != p ==> Has(ms, k) && Get(ms, k) == Get(ms', k))
  }

  /** The mappings change only as the step says. */
  ghost predicate MapsStep(s: State, s': State, t: Step, p: PageId) {
    match t
    case MapPage(_, vma) =>
      p < |s.pages| && s'.maps == s.maps + {Mapping(vma, KeyOf(s.pages[p]), p, false)}
    case GrantWrite(m) => s'.maps == s.maps - {m} + {m.(writable := true)}
    case Unmap(m) => s'.maps == s.maps - {m}
    case PgUnmap(_) => forall x :: x in s'.maps <==> x in s.maps && x.page != p
    case Protect(_) =>
      forall x :: x in s'.maps <==>
        if x.page == p then !x.writable && (x in s.maps || x.(writable := true) in s.maps) else x in s.maps
    case _ => s'.maps == s.maps
  }

  predicate HandStep(h: Hand, h': Hand, p: PageId) {
    h' == h || ((h.Empty? || h.page == p) && (h'.Empty? || h'.page == p))
  }

  /** Which steps may change which fields of the record. */
  predicate FieldsStep(r: Page, r': Page, t: Step) {
    && (r'.data != r.data ==> t.Store? || t.ReadIn?)
    && (KeyOf(r') != KeyOf(r) ==> t.Prepare? || t.FreeReset?)
    && (r'.cpuid != r.cpuid ==> t.Pop? || t.FreeReset?)
    && (r'.valid && !r.valid ==> t.ReadIn?) && (!r'.valid && r.valid ==> t.Prepare? || t.FreeReset?)
    && (r'.inUse && !r.inUse ==> t.Publish?) && (!r'.inUse && r.inUse ==> t.FreeStart?)
    && (r'.dirty && !r.dirty ==> t.MkLock?)
    && (!r'.dirty && r.dirty ==> t.Prepare? || t.EvEnter? || t.FsEnter? || t.FreeReset?)
    && (r'.locked && !r.locked ==>
          t.Publish? || t.Hit? || t.MkLock? || t.EvDequeue? || t.EvClaim? || t.FsTake? || t.PgDequeue?)
    && (!r'.locked && r.locked ==> t.Unlock? || t.FreeReset?)
  }

  /** What a step confines itself to, by name. */
  datatype Aspect = Records | Entries | Dirties | FreeLinks | CleanLinks | DirtyLinks | Blocks | InHands | Tables | Rest

  ghost predicate Within(a: Aspect, s: State, s': State, t: Step, p: PageId) {
    match a
    case Records =>
      && p < |s.pages| == |s'.pages| && s'.pages == s.pages[p := s'.pages[p]]
      && FieldsStep(s.pages[p], s'.pages[p], t)
    case Entries => EntriesStep(s.rdx, s'.rdx, p)
    case Dirties => EntriesStep(s.trees, s'.trees, p)
    case FreeLinks => ListsStep(s.free, s'.free, p)
    case CleanLinks => ListsStep(Items(s.clean), Items(s'.clean), p)
    case DirtyLinks => ListsStep(Items(s.dirty), Items(s'.dirty), p)
    case Blocks =>
      p < |s.pages| && forall k :: k != KeyOf(s.pages[p]) ==>
        (k in s'.disk <==> k in s.disk) && (k in s.disk ==> s'.disk[k] == s.disk[k])
        && (k in s'.bitmap <==> k in s.bitmap)
    case InHands =>
      |s'.hands| == |s.hands| && forall e :: 0 <= e < |s.hands| ==> HandStep(s.hands[e], s'.hands[e], p)
    case Tables => MapsStep(s, s', t, p)
    case Rest => s'.home == s.home && s'.files == s.files && s'.unlinking == s.unlinking
  }

  ghost predicate Confined(s: State, s': State, t: Step, p: PageId) {
    forall a: Aspect :: Within(a, s, s', t, p)
  }

  /** Which steps leave which parts of the state alone. */
  predicate Unmoved(s: State, s': State, t: Step) {
    && (!t.IndexInsert? && !t.PgUnindex? ==> s'.rdx == s.rdx)
    && (!t.MkTree? && !t.EvUntree? && !t.EvProbe? && !t.FsTake? && !t.EvPutBack? ==> s'.trees == s.trees)
    && (!t.Pop? && !t.FreeLink? ==> s'.free == s.free)
    && (!t.EnterClean? && !t.EvEnter? && !t.FsEnter? && !t.MkLeave? && !t.PgDequeue? ==> s'.clean == s.clean)
    && (!t.MkEnter? && !t.FsLeave? && !t.EvClaim? && !t.EvDequeue? ==> s'.dirty == s.dirty)
    && (!t.WriteBlock? ==> s'.disk == s.disk) && (!t.ReadIn? ==> s'.bitmap == s.bitmap)
    && (!t.Protect? && !t.MapPage? && !t.GrantWrite? && !t.Unmap? && !t.PgUnmap? ==> s'.maps == s.maps)
    && (!EvStep(t) ==> s'.hands == s.hands) && s'.files == s.files && s'.unlinking == s.unlinking
  }

  lemma LeavesMiss(s: State, t: Step)
    requires Enabled(s, t) && MissStep(t)
    ensures Unmoved(s, Apply(s, t), t)
  {
  }

  lemma LeavesMap(s: State, t: Step)
    requires Enabled(s, t) && MapStep(t)
    ensures Unmoved(s, Apply(s, t), t)
  {
  }

  lemma LeavesMk(s: State, t: Step)
    requires Enabled(s, t) && MkStep(t)
    ensures Unmoved(s, Apply(s, t), t)
  {
  }

  lemma LeavesEv(s: State, t: Step)
    requires Enabled(s, t) && EvStep(t)
    ensures Unmoved(s, Apply(s, t), t)
  {
  }

  lemma LeavesFs(s: State, t: Step)
    requires Enabled(s, t) && FsStep(t)
    ensures Unmoved(s, Apply(s, t), t)
  {
  }

  lemma LeavesPurge(s: State, t: Step)
    requires Enabled(s, t) && PurgeStep(t)
    ensures Unmoved(s, Apply(s, t), t)
  {
  }

  lemma Leaves(s: State, t: Step)
    requires Enabled(s, t)
    ensures Unmoved(s, Apply(s, t), t)
  {
    if MissStep(t) { LeavesMiss(s, t); }
    else if MapStep(t) { LeavesMap(s, t); }
    else if MkStep(t) { LeavesMk(s, t); }
    else if EvStep(t) { LeavesEv(s, t); }
    else if FsStep(t) { LeavesFs(s, t); }
    else { LeavesPurge(s, t); }
  }

  // ---- records and what never changes --------------------------------------------------------

  lemma AboutKnown(s: State, t: Step)
    requires Structure(s) && Enabled(s, t)
    ensures About(s, t) < |s.pages|
  {
    if t.EvClaim? || t.EvPutBack? { HandKnown(s, t.e); }
    else if t.GrantWrite? || t.Unmap? { MappedKnown(s, t.m); }
    else { AboutPlain(s, t); }
  }

  lemma AboutPlain(s: State, t: Step)
    requires Enabled(s, t) && !t.EvClaim? && !t.EvPutBack? && !t.GrantWrite? && !t.Unmap?
    ensures About(s, t) < |s.pages|
  {
  }

  lemma HandKnown(s: State, e: nat)
    requires Structure(s) && e < |s.hands| && s.hands[e].Probed?
    ensures s.hands[e].page < |s.pages|
  {
    assert Holds(Hands, s);
    assert HandOk(s.pages, e, s.hands[e]);
  }

  lemma MappedKnown(s: State, m: Mapping)
    requires Structure(s) && m in s.maps
    ensures m.page < |s.pages|
  {
    assert Holds(PageTables, s);
    assert MappingOk(s.pages, m);
  }

  lemma RecordsMiss(s: State, t: Step)
    requires Structure(s) && Enabled(s, t) && MissStep(t)
    ensures Within(Records, s, Apply(s, t), t, About(s, t))
  {
    AboutKnown(s, t);
    Local(s, About(s, t));
  }

  lemma RecordsMap(s: State, t: Step)
    requires Structure(s) && Enabled(s, t) && MapStep(t)
    ensures Within(Records, s, Apply(s, t), t, About(s, t))
  {
    AboutKnown(s, t);
  }

  lemma RecordsMk(s: State, t: Step)
    requires Structure(s) && Enabled(s, t) && MkStep(t)
    ensures Within(Records, s, Apply(s, t), t, About(s, t))
  {
    AboutKnown(s, t);
  }

  lemma RecordsEv(s: State, t: Step)
    requires Structure(s) && Enabled(s, t) && EvStep(t)
    ensures Within(Records, s, Apply(s, t), t, About(s, t))
  {
    if t.EvDequeue? || t.EvUntree? || t.EvEnter? { RecordsOwn(s, t); } else { RecordsProbe(s, t); }
  }

  lemma RecordsOwn(s: State, t: Step)
    requires Structure(s) && Enabled(s, t) && (t.EvDequeue? || t.EvUntree? || t.EvEnter?)
    ensures Within(Records, s, Apply(s, t), t, About(s, t))
  {
    AboutKnown(s, t);
  }

  lemma RecordsProbe(s: State, t: Step)
    requires Structure(s) && Enabled(s, t) && (t.EvProbe? || t.EvClaim? || t.EvPutBack?)
    ensures Within(Records, s, Apply(s, t), t, About(s, t))
  {
    AboutKnown(s, t);
  }

  lemma RecordsFs(s: State, t: Step)
    requires Structure(s) && Enabled(s, t) && FsStep(t)
    ensures Within(Records, s, Apply(s, t), t, About(s, t))
  {
    AboutKnown(s, t);
  }

  lemma RecordsPurge(s: State, t: Step)
    requires Structure(s) && Enabled(s, t) && PurgeStep(t)
    ensures Within(Records, s, Apply(s, t), t, About(s, t))
  {
    AboutKnown(s, t);
  }

  lemma RestSame(s: State, t: Step)
    requires Enabled(s, t)
    ensures Within(Rest, s, Apply(s, t), t, About(s, t))
  {
    Leaves(s, t);
  }

  // ---- index and trees -----------------------------------------------------------------------

  lemma PutOther(ms: seq<map<Key, PageId>>, k: Key, p: PageId)
    requires 0 < |ms| && !Has(ms, k)
    ensures EntriesStep(ms, Put(ms, k, p), p)
  {
    forall j ensures EntryStep(ms, Put(ms, k, p), p, j) { HasAfter(ms, k, p, j); }
  }

  lemma EraseOwn(ms: seq<map<Key, PageId>>, k: Key, p: PageId)
    requires 0 < |ms| && (Has(ms, k) ==> Get(ms, k) == p)
    ensures EntriesStep(ms, Erase(ms, k), p)
  {
    forall j ensures EntryStep(ms, Erase(ms, k), p, j) { HasAfter(ms, k, p, j); }
  }

  lemma EntriesSame(ms: seq<map<Key, PageId>>, p: PageId)
    ensures EntriesStep(ms, ms, p)
  {
  }

  lemma EntriesOf(s: State, t: Step)
    requires Structure(s) && Enabled(s, t)
    ensures Within(Entries, s, Apply(s, t), t, About(s, t))
  {
    EntriesSame(s.rdx, About(s, t));
    if t.IndexInsert? {
      if !Has(s.rdx, KeyOf(s.pages[t.p])) { PutOther(s.rdx, KeyOf(s.pages[t.p]), t.p); }
    } else if t.PgUnindex? {
      IndexOwn(s, t.p);
      EraseOwn(s.rdx, KeyOf(s.pages[t.p]), t.p);
    } else {
      Leaves(s, t);
    }
  }

  lemma IndexOwn(s: State, p: PageId)
    requires Structure(s) && InPhase(s, p, PgOut)
    ensures Has(s.rdx, KeyOf(s.pages[p])) && Get(s.rdx, KeyOf(s.pages[p])) == p
  {
    assert Holds(Index, s);
    assert IndexAts(s.pages)[p] == Some(KeyOf(s.pages[p]));
  }

  lemma DirtiesOf(s: State, t: Step)
    requires Structure(s) && Enabled(s, t)
    ensures Within(Dirties, s, Apply(s, t), t, About(s, t))
  {
    if t.MkTree? { DirtiesMkTree(s, t.p); }
    else if t.EvUntree? { DirtiesUntree(s, t.p); }
    else if t.EvProbe? { EraseOwn(s.trees, t.key, Get(s.trees, t.key)); }
    else if t.FsTake? { EraseOwn(s.trees, t.key, Get(s.trees, t.key)); }
    else if t.EvPutBack? { DirtiesPutBack(s, t.e); }
    else { DirtiesSame(s, t); }
  }

  lemma DirtiesSame(s: State, t: Step)
    requires Enabled(s, t) && !t.MkTree? && !t.EvUntree? && !t.EvProbe? && !t.FsTake? && !t.EvPutBack?
    ensures EntriesStep(s.trees, Apply(s, t).trees, About(s, t))
  {
    Leaves(s, t);
    EntriesSame(s.trees, About(s, t));
  }

  lemma DirtiesMkTree(s: State, p: PageId)
    requires Enabled(s, MkTree(p))
    ensures EntriesStep(s.trees, DoMkTree(s, p).trees, p)
  {
    var k := Key(s.pages[p].phase.vmaDev, s.pages[p].index);
    EntriesSame(s.trees, p);
    if !Has(s.trees, k) { PutOther(s.trees, k, p); }
  }

  lemma DirtiesUntree(s: State, p: PageId)
    requires Structure(s) && Enabled(s, EvUntree(p))
    ensures EntriesStep(s.trees, DoEvUntree(s, p).trees, p)
  {
    TreeOwn(s, p);
    EraseOwn(s.trees, KeyOf(s.pages[p]), p);
  }

  lemma DirtiesPutBack(s: State, e: nat)
    requires Enabled(s, EvPutBack(e))
    ensures EntriesStep(s.trees, DoEvPutBack(s, e).trees, s.hands[e].page)
  {
    var b := s.hands[e];
    var k := Key(b.dev, s.pages[b.page].index);
    EntriesSame(s.trees, b.page);
    if !Has(s.trees, k) { PutOther(s.trees, k, b.page); }
  }

  lemma TreeOwn(s: State, p: PageId)
    requires Structure(s) && InPhase(s, p, EvTaken)
    ensures Has(s.trees, KeyOf(s.pages[p])) && Get(s.trees, KeyOf(s.pages[p])) == p
  {
    assert Holds(Trees, s);
    assert TreeAts(s.pages)[p] == Some(KeyOf(s.pages[p]));
  }

  // ---- lists ---------------------------------------------------------------------------------

  lemma ListsSame(qs: seq<seq<PageId>>, p: PageId)
    ensures ListsStep(qs, qs, p)
  {
  }

  /** One list of a family changes. */
  lemma OneList(qs: seq<seq<PageId>>, qs': seq<seq<PageId>>, q: nat, p: PageId)
    requires q < |qs| == |qs'| && qs' == qs[q := qs'[q]] && ListStep(qs[q], qs'[q], p)
    ensures ListsStep(qs, qs', p)
  {
  }

  lemma HeadSteps(s: seq<PageId>)
    requires s != []
    ensures s[1..] == Without(s, s[0])
  {
  }

  lemma FreeLinksOf(s: State, t: Step)
    requires Structure(s) && Enabled(s, t)
    ensures Within(FreeLinks, s, Apply(s, t), t, About(s, t))
  {
    if t.Pop? { PopsFree(s, t.cpu, t.dev, t.off); }
    else if t.FreeLink? { LinksFree(s, t.p); }
    else { FreeSame(s, t); }
  }

  lemma FreeSame(s: State, t: Step)
    requires Enabled(s, t) && !t.Pop? && !t.FreeLink?
    ensures ListsStep(s.free, Apply(s, t).free, About(s, t))
  {
    Leaves(s, t);
    ListsSame(s.free, About(s, t));
  }

  lemma PopsFree(s: State, c: nat, d: nat, o: nat)
    requires Enabled(s, Pop(c, d, o))
    ensures ListsStep(s.free, DoPop(s, c, d, o).free, s.free[c][0])
  {
    HeadSteps(s.free[c]);
    OneList(s.free, DoPop(s, c, d, o).free, c, s.free[c][0]);
  }

  lemma LinksFree(s: State, p: PageId)
    requires Structure(s) && Enabled(s, FreeLink(p))
    ensures ListsStep(s.free, DoFreeLink(s, p).free, p)
  {
    var c := s.pages[p].phase.list;
    NotFree(s, p, c);
    OneList(s.free, DoFreeLink(s, p).free, c, p);
  }

  lemma NotFree(s: State, p: PageId, c: nat)
    requires Structure(s) && p < |s.pages| && !s.pages[p].phase.OnFreeList? && c < |s.free|
    ensures p !in s.free[c] && Without(s.free[c], p) == s.free[c]
  {
    assert Holds(FreeLists, s);
    assert FreeAts(s.pages, s.home)[p] == None;
  }

  lemma OneQueue(fs: seq<Queue<PageId>>, fs': seq<Queue<PageId>>, q: nat, p: PageId)
    requires q < |fs| && |fs'| == |fs| && fs' == fs[q := fs'[q]] && ListStep(fs[q].items, fs'[q].items, p)
    ensures ListsStep(Items(fs), Items(fs'), p)
  {
  }

  lemma NotClean(s: State, p: PageId, q: nat)
    requires Structure(s) && p < |s.pages| && s.pages[p].buf != BI_CLEAN && q < NUM_QUEUES
    ensures Without(s.clean[q].items, p) == s.clean[q].items
  {
    assert Holds(CleanFifos, s);
    assert CleanAts(s.pages)[p] == None;
    assert Items(s.clean)[q] == s.clean[q].items;
  }

  lemma NotDirty(s: State, p: PageId, e: nat)
    requires Structure(s) && p < |s.pages| && s.pages[p].buf != BI_DIRTY && e < EVICTOR_THREADS
    ensures Without(s.dirty[e].items, p) == s.dirty[e].items
  {
    assert Holds(DirtyFifos, s);
    assert DirtyAts(s.pages)[p] == None;
    assert Items(s.dirty)[e] == s.dirty[e].items;
  }

  lemma CleanLinksOf(s: State, t: Step)
    requires Structure(s) && Enabled(s, t)
    ensures Within(CleanLinks, s, Apply(s, t), t, About(s, t))
  {
    if t.EnterClean? || t.EvEnter? || t.FsEnter? { CleanGains(s, t); }
    else if t.MkLeave? { CleanLoses(s, t.p); }
    else if t.PgDequeue? { HeadOfClean(s, t.q); }
    else { CleanSame(s, t); }
  }

  lemma CleanGains(s: State, t: Step)
    requires Structure(s) && Enabled(s, t) && (t.EnterClean? || t.EvEnter? || t.FsEnter?)
    ensures ListsStep(Items(s.clean), Items(Apply(s, t).clean), t.p)
  {
    var q := CleanQueue(s.pages[t.p].index);
    Local(s, t.p);
    NotClean(s, t.p, q);
    OneQueue(s.clean, Apply(s, t).clean, q, t.p);
  }

  lemma CleanLoses(s: State, p: PageId)
    requires Enabled(s, MkLeave(p))
    ensures ListsStep(Items(s.clean), Items(DoMkLeave(s, p).clean), p)
  {
    OneQueue(s.clean, DoMkLeave(s, p).clean, CleanQueue(s.pages[p].index), p);
  }

  lemma HeadOfClean(s: State, q: nat)
    requires Enabled(s, PgDequeue(q))
    ensures ListsStep(Items(s.clean), Items(DoPgDequeue(s, q).clean), s.clean[q].items[0])
  {
    HeadSteps(s.clean[q].items);
    OneQueue(s.clean, DoPgDequeue(s, q).clean, q, s.clean[q].items[0]);
  }

  lemma CleanSame(s: State, t: Step)
    requires Enabled(s, t) && !t.EnterClean? && !t.EvEnter? && !t.FsEnter? && !t.MkLeave? && !t.PgDequeue?
    ensures ListsStep(Items(s.clean), Items(Apply(s, t).clean), About(s, t))
  {
    Leaves(s, t);
    ListsSame(Items(s.clean), About(s, t));
  }

  lemma DirtyLinksOf(s: State, t: Step)
    requires Structure(s) && Enabled(s, t)
    ensures Within(DirtyLinks, s, Apply(s, t), t, About(s, t))
  {
    if t.MkEnter? { DirtyGains(s, t.p); }
    else if t.FsLeave? { DirtyLoses(s, t.p); }
    else if t.EvClaim? { ClaimedFromDirty(s, t.e); }
    else if t.EvDequeue? { HeadOfDirty(s, t.e); }
    else { DirtySame(s, t); }
  }

  lemma DirtyGains(s: State, p: PageId)
    requires Structure(s) && Enabled(s, MkEnter(p))
    ensures ListsStep(Items(s.dirty), Items(DoMkEnter(s, p).dirty), p)
  {
    var e := DirtyQueue(s.pages[p].index);
    Local(s, p);
    NotDirty(s, p, e);
    OneQueue(s.dirty, DoMkEnter(s, p).dirty, e, p);
  }

  lemma DirtyLoses(s: State, p: PageId)
    requires Enabled(s, FsLeave(p))
    ensures ListsStep(Items(s.dirty), Items(DoFsLeave(s, p).dirty), p)
  {
    OneQueue(s.dirty, DoFsLeave(s, p).dirty, DirtyQueue(s.pages[p].index), p);
  }

  lemma ClaimedFromDirty(s: State, e: nat)
    requires Enabled(s, EvClaim(e))
    ensures ListsStep(Items(s.dirty), Items(DoEvClaim(s, e).dirty), s.hands[e].page)
  {
    OneQueue(s.dirty, DoEvClaim(s, e).dirty, e, s.hands[e].page);
  }

  lemma HeadOfDirty(s: State, e: nat)
    requires Enabled(s, EvDequeue(e))
    ensures ListsStep(Items(s.dirty), Items(DoEvDequeue(s, e).dirty), s.dirty[e].items[0])
  {
    HeadSteps(s.dirty[e].items);
    OneQueue(s.dirty, DoEvDequeue(s, e).dirty, e, s.dirty[e].items[0]);
  }

  lemma DirtySame(s: State, t: Step)
    requires Enabled(s, t) && !t.MkEnter? && !t.FsLeave? && !t.EvClaim? && !t.EvDequeue?
    ensures ListsStep(Items(s.dirty), Items(Apply(s, t).dirty), About(s, t))
  {
    Leaves(s, t);
    ListsSame(Items(s.dirty), About(s, t));
  }

  // ---- device, hands, page tables ------------------------------------------------------------

  lemma BlocksOf(s: State, t: Step)
    requires Structure(s) && Enabled(s, t)
    ensures Within(Blocks, s, Apply(s, t), t, About(s, t))
  {
    AboutKnown(s, t);
    Leaves(s, t);
  }

  lemma HandsOf(s: State, t: Step)
    requires Structure(s) && Enabled(s, t)
    ensures Within(InHands, s, Apply(s, t), t, About(s, t))
  {
    if EvStep(t) {
      if t.EvUntree? { HandsUntree(s, t.p); } else { HandsEv(s, t); }
    } else {
      Leaves(s, t);
    }
  }

  lemma HandsUntree(s: State, p: PageId)
    requires Structure(s) && Enabled(s, EvUntree(p))
    ensures Within(InHands, s, DoEvUntree(s, p), EvUntree(p), p)
  {
    assert Holds(Hands, s);
    assert HandFor(p, s.pages[p]) == Took(p);
  }

  lemma HandsEv(s: State, t: Step)
    requires Enabled(s, t) && EvStep(t) && !t.EvUntree?
    ensures Within(InHands, s, Apply(s, t), t, About(s, t))
  {
  }

  lemma TablesOf(s: State, t: Step)
    requires Structure(s) && Enabled(s, t)
    ensures Within(Tables, s, Apply(s, t), t, About(s, t))
  {
    if t.Protect? { ProtectedTables(s.maps, t.p); }
    else if t.MapPage? || t.GrantWrite? || t.Unmap? || t.PgUnmap? { TablesOwn(s, t); }
    else { TablesSame(s, t); }
  }

  lemma TablesSame(s: State, t: Step)
    requires Enabled(s, t) && !t.Protect? && !t.MapPage? && !t.GrantWrite? && !t.Unmap? && !t.PgUnmap?
    ensures MapsStep(s, Apply(s, t), t, About(s, t))
  {
    Leaves(s, t);
  }

  lemma TablesOwn(s: State, t: Step)
    requires Enabled(s, t) && (t.MapPage? || t.GrantWrite? || t.Unmap? || t.PgUnmap?)
    ensures MapsStep(s, Apply(s, t), t, About(s, t))
  {
  }

  lemma ProtectedTables(maps: set<Mapping>, p: PageId)
    ensures forall x :: x in WriteProtect(maps, p) <==>
              if x.page == p then !x.writable && (x in maps || x.(writable := true) in maps) else x in maps
  {
    forall x ensures x in WriteProtect(maps, p) <==>
        if x.page == p then !x.writable && (x in maps || x.(writable := true) in maps) else x in maps
    {
      if x.page == p && !x.writable && (x in maps || x.(writable := true) in maps) {
        var m := if x in maps then x else x.(writable := true);
        assert m in maps && x == m.(writable := false);
      }
    }
  }

  /** Every step of every thread is about one page; nothing of any other page changes, the step changes of
      its own page only what such a step may, and pages join a list only at its tail. */
  lemma StepConfined(s: State, t: Step)
    requires Structure(s) && Enabled(s, t)
    ensures Confined(s, Apply(s, t), t, About(s, t))
  {
    forall a: Aspect ensures Within(a, s, Apply(s, t), t, About(s, t)) { AspectWithin(a, s, t); }
  }

  lemma AspectWithin(a: Aspect, s: State, t: Step)
    requires Structure(s) && Enabled(s, t)
    ensures Within(a, s, Apply(s, t), t, About(s, t))
  {
    match a
    case Records =>
      if MissStep(t) { RecordsMiss(s, t); }
      else if MapStep(t) { RecordsMap(s, t); }
      else if MkStep(t) { RecordsMk(s, t); }
      else if EvStep(t) { RecordsEv(s, t); }
      else if FsStep(t) { RecordsFs(s, t); }
      else { RecordsPurge(s, t); }
    case Entries => EntriesOf(s, t);
    case Dirties => DirtiesOf(s, t);
    case FreeLinks => FreeLinksOf(s, t);
    case CleanLinks => CleanLinksOf(s, t);
    case DirtyLinks => DirtyLinksOf(s, t);
    case Blocks => BlocksOf(s, t);
    case InHands => HandsOf(s, t);
    case Tables => TablesOf(s, t);
    case Rest => RestSame(s, t);
  }
}
