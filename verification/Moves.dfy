/** How the structure of the cache survives a page's move from one place to another. */
module Moves {
  import opened Params
  import opened Fifo
  import opened Placement
  import opened Lifecycle
  import opened Invariant

  // ---- replacing one page record -------------------------------------------------------------

  /** What changes in the claims when page `p` becomes `r`: only its own, and nothing at all
      where the new record claims the same place. */
  lemma Claims(s: State, p: PageId, r: Page)
    requires Shape(s) && p < |s.pages|
    ensures FreeAts(s.pages[p := r], s.home) == FreeAts(s.pages, s.home)[p := FreeAt(r, s.home[p])]
    ensures CleanAts(s.pages[p := r]) == CleanAts(s.pages)[p := CleanAt(r)]
    ensures DirtyAts(s.pages[p := r]) == DirtyAts(s.pages)[p := DirtyAt(r)]
    ensures IndexAts(s.pages[p := r]) == IndexAts(s.pages)[p := IndexAt(r)]
    ensures TreeAts(s.pages[p := r]) == TreeAts(s.pages)[p := TreeAt(r)]
    ensures FreeAt(r, s.home[p]) == FreeAt(s.pages[p], s.home[p]) ==>
              FreeAts(s.pages[p := r], s.home) == FreeAts(s.pages, s.home)
    ensures CleanAt(r) == CleanAt(s.pages[p]) ==> CleanAts(s.pages[p := r]) == CleanAts(s.pages)
    ensures DirtyAt(r) == DirtyAt(s.pages[p]) ==> DirtyAts(s.pages[p := r]) == DirtyAts(s.pages)
    ensures IndexAt(r) == IndexAt(s.pages[p]) ==> IndexAts(s.pages[p := r]) == IndexAts(s.pages)
    ensures TreeAt(r) == TreeAt(s.pages[p]) ==> TreeAts(s.pages[p := r]) == TreeAts(s.pages)
  {
  }

  /** Mappings survive a record that keeps the page's identity and what they need. */
  predicate KeepsMappings(r: Page, r': Page) {
    && (Mappable(r) ==> Mappable(r') && KeyOf(r') == KeyOf(r))
    && (WriteMappable(r) ==> WriteMappable(r'))
  }

  predicate Keeps(r: Page, r': Page) {
    && KeepsMappings(r, r')
    && HandFor(0, r') == HandFor(0, r) && (!HandFor(0, r).Empty? ==> r'.index == r.index)
  }

  lemma KeepsMaps(s: State, p: PageId, r: Page)
    requires Structure(s) && p < |s.pages| && KeepsMappings(s.pages[p], r)
    ensures MapsOk(s.pages[p := r], s.maps)
  {
    assert Holds(PageTables, s);
    forall m | m in s.maps ensures MappingOk(s.pages[p := r], m) { assert MappingOk(s.pages, m); }
  }

  lemma KeepsLinks(s: State, p: PageId, r: Page)
    requires Structure(s) && p < |s.pages| && Keeps(s.pages[p], r)
    ensures HandsOk(s.pages[p := r], s.hands) && MapsOk(s.pages[p := r], s.maps)
  {
    KeepsMaps(s, p, r);
    assert Holds(Hands, s);
    forall e | 0 <= e < EVICTOR_THREADS && !s.hands[e].Empty? ensures HandOk(s.pages[p := r], e, s.hands[e]) {
      assert HandOk(s.pages, e, s.hands[e]);
    }
  }

  /** A page that is neither mapped nor in an evictor's hand may take any record that is in none. */
  lemma NoLinks(s: State, p: PageId, r: Page)
    requires Structure(s) && p < |s.pages| && HandFor(p, s.pages[p]).Empty? && HandFor(p, r).Empty?
    requires forall m :: m in s.maps ==> m.page != p
    ensures HandsOk(s.pages[p := r], s.hands) && MapsOk(s.pages[p := r], s.maps)
  {
    assert Holds(Hands, s) && Holds(PageTables, s);
    forall m | m in s.maps ensures MappingOk(s.pages[p := r], m) { assert MappingOk(s.pages, m); }
    forall e | 0 <= e < EVICTOR_THREADS && !s.hands[e].Empty? ensures HandOk(s.pages[p := r], e, s.hands[e]) {
      assert HandOk(s.pages, e, s.hands[e]);
    }
  }

  /** An evictor picks a page up, or lets it go. */
  lemma HandTakes(pages: seq<Page>, hands: seq<Hand>, p: PageId, r: Page, e: nat)
    requires |hands| == EVICTOR_THREADS && HandsOk(pages, hands) && p < |pages|
    requires e < EVICTOR_THREADS && hands[e].Empty? && !HandFor(p, r).Empty? && DirtyQueue(r.index) == e
    requires HandFor(p, pages[p]).Empty?
    ensures HandsOk(pages[p := r], hands[e := HandFor(p, r)])
  {
    var ps, hs := pages[p := r], hands[e := HandFor(p, r)];
    forall x | 0 <= x < |ps| && !HandFor(x, ps[x]).Empty?
      ensures hs[DirtyQueue(ps[x].index)] == HandFor(x, ps[x])
    {
      assert x != p ==> !HandFor(x, pages[x]).Empty?;
    }
    forall f | 0 <= f < EVICTOR_THREADS && !hs[f].Empty? ensures HandOk(ps, f, hs[f]) {
      assert f != e ==> HandOk(pages, f, hands[f]);
    }
  }

  lemma HandDrops(pages: seq<Page>, hands: seq<Hand>, p: PageId, r: Page, e: nat)
    requires |hands| == EVICTOR_THREADS && HandsOk(pages, hands) && p < |pages|
    requires e < EVICTOR_THREADS && !hands[e].Empty? && hands[e].page == p && HandFor(p, r).Empty?
    ensures HandsOk(pages[p := r], hands[e := Empty])
  {
    var ps, hs := pages[p := r], hands[e := Empty];
    assert HandOk(pages, e, hands[e]);
    forall x | 0 <= x < |ps| && !HandFor(x, ps[x]).Empty?
      ensures hs[DirtyQueue(ps[x].index)] == HandFor(x, ps[x])
    {
      assert x != p && !HandFor(x, pages[x]).Empty?;
    }
    forall f | 0 <= f < EVICTOR_THREADS && !hs[f].Empty? ensures HandOk(ps, f, hs[f]) {
      assert f != e && HandOk(pages, f, hands[f]);
    }
  }

  lemma Local(s: State, p: PageId)
    requires Structure(s) && p < |s.pages|
    ensures LocalOk(s.pages[p], s.home[p])
  {
    assert Holds(Locals, s);
  }

  // ---- capacity ------------------------------------------------------------------------------

  /** No FIFO can be full, so enqueue never returns -1. */
  lemma NeverFull(s: State)
    requires Structure(s)
    ensures forall q :: 0 <= q < NUM_QUEUES ==> !Full(s.clean[q])
    ensures forall e :: 0 <= e < EVICTOR_THREADS ==> !Full(s.dirty[e])
  {
    assert Holds(Sizes, s) && Holds(CleanFifos, s) && Holds(DirtyFifos, s);
    forall q | 0 <= q < NUM_QUEUES ensures !Full(s.clean[q]) {
      Pigeonhole(Items(s.clean)[q], |s.pages|);
    }
    forall e | 0 <= e < EVICTOR_THREADS ensures !Full(s.dirty[e]) {
      Pigeonhole(Items(s.dirty)[e], |s.pages|);
    }
  }

  // ---- queue updates -------------------------------------------------------------------------

  lemma ItemsUpdate(fs: seq<Queue<PageId>>, q: nat, f: Queue<PageId>)
    requires q < |fs|
    ensures Items(fs[q := f]) == Items(fs)[q := f.items]
  {
  }

  lemma EntersQueue(fs: seq<Queue<PageId>>, at: seq<Option<nat>>, q: nat, p: PageId)
    requires Queued(Items(fs), at) && q < |fs| && p < |at| && at[p] == None && !Full(fs[q])
    ensures Queued(Items(fs[q := Enqueue(fs[q], p)]), at[p := Some(q)])
  {
    ItemsUpdate(fs, q, Enqueue(fs[q], p));
    Append(Items(fs), at, q, p);
  }

  lemma LeavesQueue(fs: seq<Queue<PageId>>, at: seq<Option<nat>>, q: nat, p: PageId)
    requires Queued(Items(fs), at) && q < |fs| && p < |at| && at[p] == Some(q)
    ensures p in fs[q].items
    ensures Queued(Items(fs[q := Remove(fs[q], p)]), at[p := None])
  {
    ItemsUpdate(fs, q, Remove(fs[q], p));
    Delete(Items(fs), at, q, p);
  }

  lemma HeadOf(fs: seq<Queue<PageId>>, at: seq<Option<nat>>, q: nat)
    requires Queued(Items(fs), at) && q < |fs| && fs[q].items != [] && fs[q].size == |fs[q].items|
    ensures var p := fs[q].items[0];
            && p < |at| && at[p] == Some(q)
            && Queued(Items(fs[q := DequeueIf(fs[q], true)]), at[p := None])
            && Queued(Items(fs[q := DequeueIf(fs[q], false)]), at)
  {
    assert Items(fs)[q][0] in Items(fs)[q];
    ItemsUpdate(fs, q, DequeueIf(fs[q], true));
    ItemsUpdate(fs, q, DequeueIf(fs[q], false));
    PopHead(Items(fs), at, q);
    Rotate(Items(fs), at, q);
  }

  // ---- one page moves ------------------------------------------------------------------------

  /** One page changes record and each container follows its claim. */
  lemma Move(s: State, s': State, p: PageId, r: Page)
    requires Structure(s) && p < |s.pages| && LocalOk(r, s.home[p])
    requires s'.pages == s.pages[p := r] && s'.home == s.home && Shape(s') && |s'.free| == |s.free|
    requires Queued(s'.free, FreeAts(s.pages, s.home)[p := FreeAt(r, s.home[p])])
    requires Queued(Items(s'.clean), CleanAts(s.pages)[p := CleanAt(r)])
    requires Queued(Items(s'.dirty), DirtyAts(s.pages)[p := DirtyAt(r)])
    requires Sharded(s'.rdx, IndexAts(s.pages)[p := IndexAt(r)])
    requires Sharded(s'.trees, TreeAts(s.pages)[p := TreeAt(r)])
    requires Sized(s'.clean, |s.pages| + |s.free|) && Sized(s'.dirty, |s.pages| + |s.free|)
    requires HandsOk(s'.pages, s'.hands) && MapsOk(s'.pages, s'.maps)
    ensures Structure(s')
  {
    forall c: Clause ensures Holds(c, s') {
      match c
      case Sizes => assert Holds(Sizes, s);
      case Locals => MoveLocals(s, s', p, r);
      case Hands =>
      case PageTables =>
      case _ => MoveClaims(s, s', p, r);
    }
  }

  lemma MoveLocals(s: State, s': State, p: PageId, r: Page)
    requires Structure(s) && p < |s.pages| && LocalOk(r, s.home[p])
    requires s'.pages == s.pages[p := r] && s'.home == s.home
    ensures LocalsOk(s'.pages, s'.home)
  {
    assert Holds(Locals, s);
  }

  lemma MoveClaims(s: State, s': State, p: PageId, r: Page)
    requires Shape(s) && p < |s.pages| && s'.pages == s.pages[p := r] && s'.home == s.home && Shape(s')
    requires Queued(s'.free, FreeAts(s.pages, s.home)[p := FreeAt(r, s.home[p])])
    requires Queued(Items(s'.clean), CleanAts(s.pages)[p := CleanAt(r)])
    requires Queued(Items(s'.dirty), DirtyAts(s.pages)[p := DirtyAt(r)])
    requires Sharded(s'.rdx, IndexAts(s.pages)[p := IndexAt(r)])
    requires Sharded(s'.trees, TreeAts(s.pages)[p := TreeAt(r)])
    ensures Holds(FreeLists, s') && Holds(CleanFifos, s') && Holds(DirtyFifos, s') && Holds(Index, s')
            && Holds(Trees, s')
  {
    Claims(s, p, r);
  }

  lemma Same<T>(at: seq<T>, p: nat)
    requires p < |at|
    ensures at[p := at[p]] == at
  {
  }

  /** The containers of claims that the new record of `p` repeats. */
  lemma Unmoved(s: State, p: PageId, r: Page)
    requires Structure(s) && p < |s.pages|
    ensures FreeAt(r, s.home[p]) == FreeAt(s.pages[p], s.home[p]) ==>
              Queued(s.free, FreeAts(s.pages, s.home)[p := FreeAt(r, s.home[p])])
    ensures CleanAt(r) == CleanAt(s.pages[p]) ==> Queued(Items(s.clean), CleanAts(s.pages)[p := CleanAt(r)])
    ensures DirtyAt(r) == DirtyAt(s.pages[p]) ==> Queued(Items(s.dirty), DirtyAts(s.pages)[p := DirtyAt(r)])
    ensures IndexAt(r) == IndexAt(s.pages[p]) ==> Sharded(s.rdx, IndexAts(s.pages)[p := IndexAt(r)])
    ensures TreeAt(r) == TreeAt(s.pages[p]) ==> Sharded(s.trees, TreeAts(s.pages)[p := TreeAt(r)])
    ensures Sized(s.clean, |s.pages| + |s.free|) && Sized(s.dirty, |s.pages| + |s.free|)
  {
    assert Holds(FreeLists, s) && Holds(CleanFifos, s) && Holds(DirtyFifos, s) && Holds(Sizes, s);
    assert Holds(Index, s) && Holds(Trees, s);
    Same(FreeAts(s.pages, s.home), p);
    Same(CleanAts(s.pages), p);
    Same(DirtyAts(s.pages), p);
    Same(IndexAts(s.pages), p);
    Same(TreeAts(s.pages), p);
  }

  /** A record that moves nowhere. */
  lemma InPlace(s: State, p: PageId, r: Page)
    requires Structure(s) && p < |s.pages| && LocalOk(r, s.home[p]) && Keeps(s.pages[p], r)
    requires FreeAt(r, s.home[p]) == FreeAt(s.pages[p], s.home[p])
    requires CleanAt(r) == CleanAt(s.pages[p]) && DirtyAt(r) == DirtyAt(s.pages[p])
    requires IndexAt(r) == IndexAt(s.pages[p]) && TreeAt(r) == TreeAt(s.pages[p])
    ensures Structure(WithPage(s, p, r))
  {
    Unmoved(s, p, r);
    KeepsLinks(s, p, r);
    Move(s, WithPage(s, p, r), p, r);
  }

  // ---- one container changes -----------------------------------------------------------------

  /** The new record of `p` agrees with the old one on every claim but those named. */
  predicate Otherwise(s: State, p: PageId, r: Page, but: set<Clause>)
    requires Shape(s) && p < |s.pages|
  {
    && (FreeLists in but || FreeAt(r, s.home[p]) == FreeAt(s.pages[p], s.home[p]))
    && (CleanFifos in but || CleanAt(r) == CleanAt(s.pages[p]))
    && (DirtyFifos in but || DirtyAt(r) == DirtyAt(s.pages[p]))
    && (Index in but || IndexAt(r) == IndexAt(s.pages[p]))
    && (Trees in but || TreeAt(r) == TreeAt(s.pages[p]))
    && (Hands in but || (Keeps(s.pages[p], r) && LocalOk(r, s.home[p])))
  }

  lemma EntersIndex(s: State, p: PageId, r: Page)
    requires Structure(s) && p < |s.pages| && Otherwise(s, p, r, {Index})
    requires IndexAt(s.pages[p]) == None && IndexAt(r) == Some(KeyOf(r)) && !Has(s.rdx, KeyOf(r))
    ensures Structure(WithPage(s, p, r).(rdx := Put(s.rdx, KeyOf(r), p)))
  {
    Unmoved(s, p, r);
    KeepsLinks(s, p, r);
    assert Holds(Index, s);
    Insert(s.rdx, IndexAts(s.pages), KeyOf(r), p);
    Move(s, WithPage(s, p, r).(rdx := Put(s.rdx, KeyOf(r), p)), p, r);
  }

  lemma LeavesIndex(s: State, p: PageId, r: Page)
    requires Structure(s) && p < |s.pages| && Otherwise(s, p, r, {Index})
    requires IndexAt(s.pages[p]).Some? && IndexAt(r) == None
    ensures Has(s.rdx, KeyOf(s.pages[p])) && Get(s.rdx, KeyOf(s.pages[p])) == p
    ensures Structure(WithPage(s, p, r).(rdx := Erase(s.rdx, KeyOf(s.pages[p]))))
  {
    var k := KeyOf(s.pages[p]);
    Unmoved(s, p, r);
    KeepsLinks(s, p, r);
    assert Holds(Index, s);
    assert IndexAts(s.pages)[p] == Some(k);
    Drop(s.rdx, IndexAts(s.pages), k, p);
    Move(s, WithPage(s, p, r).(rdx := Erase(s.rdx, k)), p, r);
  }

  lemma EntersTree(s: State, p: PageId, r: Page)
    requires Structure(s) && p < |s.pages| && Otherwise(s, p, r, {Trees})
    requires TreeAt(s.pages[p]) == None && TreeAt(r) == Some(KeyOf(r)) && !Has(s.trees, KeyOf(r))
    ensures Structure(WithPage(s, p, r).(trees := Put(s.trees, KeyOf(r), p)))
  {
    Unmoved(s, p, r);
    KeepsLinks(s, p, r);
    assert Holds(Trees, s);
    Insert(s.trees, TreeAts(s.pages), KeyOf(r), p);
    Move(s, WithPage(s, p, r).(trees := Put(s.trees, KeyOf(r), p)), p, r);
  }

  lemma LeavesTree(s: State, p: PageId, r: Page)
    requires Structure(s) && p < |s.pages| && Otherwise(s, p, r, {Trees})
    requires TreeAt(s.pages[p]).Some? && TreeAt(r) == None
    ensures Structure(WithPage(s, p, r).(trees := Erase(s.trees, KeyOf(s.pages[p]))))
  {
    var k := KeyOf(s.pages[p]);
    Unmoved(s, p, r);
    KeepsLinks(s, p, r);
    assert Holds(Trees, s);
    assert TreeAts(s.pages)[p] == Some(k);
    Drop(s.trees, TreeAts(s.pages), k, p);
    Move(s, WithPage(s, p, r).(trees := Erase(s.trees, k)), p, r);
  }

  lemma EntersClean(s: State, p: PageId, r: Page)
    requires Structure(s) && p < |s.pages| && r.buf == BI_NONE
    requires Otherwise(s, p, r.(buf := BI_CLEAN), {CleanFifos}) && s.pages[p].buf == BI_NONE
    ensures Structure(IntoClean(s, p, r))
  {
    var r', q := r.(buf := BI_CLEAN), CleanQueue(r.index);
    Unmoved(s, p, r');
    KeepsLinks(s, p, r');
    NeverFull(s);
    assert Holds(CleanFifos, s);
    EntersQueue(s.clean, CleanAts(s.pages), q, p);
    Move(s, IntoClean(s, p, r), p, r');
  }

  lemma LeavesClean(s: State, p: PageId, r: Page)
    requires Structure(s) && p < |s.pages| && r.buf == BI_NONE
    requires Otherwise(s, p, r, {CleanFifos}) && s.pages[p].buf == BI_CLEAN
    ensures var q := CleanQueue(s.pages[p].index);
            Structure(WithPage(s, p, r).(clean := s.clean[q := Remove(s.clean[q], p)]))
  {
    var q := CleanQueue(s.pages[p].index);
    Unmoved(s, p, r);
    KeepsLinks(s, p, r);
    assert Holds(CleanFifos, s) && Holds(Sizes, s);
    assert CleanAts(s.pages)[p] == Some(q);
    LeavesQueue(s.clean, CleanAts(s.pages), q, p);
    Move(s, WithPage(s, p, r).(clean := s.clean[q := Remove(s.clean[q], p)]), p, r);
  }

  lemma EntersDirty(s: State, p: PageId, r: Page)
    requires Structure(s) && p < |s.pages| && r.buf == BI_DIRTY
    requires Otherwise(s, p, r, {DirtyFifos}) && s.pages[p].buf == BI_NONE
    ensures var e := DirtyQueue(r.index);
            !Full(s.dirty[e]) && Structure(WithPage(s, p, r).(dirty := s.dirty[e := Enqueue(s.dirty[e], p)]))
  {
    var e := DirtyQueue(r.index);
    Unmoved(s, p, r);
    KeepsLinks(s, p, r);
    NeverFull(s);
    assert Holds(DirtyFifos, s);
    EntersQueue(s.dirty, DirtyAts(s.pages), e, p);
    Move(s, WithPage(s, p, r).(dirty := s.dirty[e := Enqueue(s.dirty[e], p)]), p, r);
  }

  lemma LeavesDirty(s: State, p: PageId, r: Page)
    requires Structure(s) && p < |s.pages| && r.buf == BI_NONE
    requires Otherwise(s, p, r, {DirtyFifos}) && s.pages[p].buf == BI_DIRTY
    ensures var e := DirtyQueue(s.pages[p].index);
            Structure(WithPage(s, p, r).(dirty := s.dirty[e := Remove(s.dirty[e], p)]))
  {
    var e := DirtyQueue(s.pages[p].index);
    Unmoved(s, p, r);
    KeepsLinks(s, p, r);
    assert Holds(DirtyFifos, s) && Holds(Sizes, s);
    assert DirtyAts(s.pages)[p] == Some(e);
    LeavesQueue(s.dirty, DirtyAts(s.pages), e, p);
    Move(s, WithPage(s, p, r).(dirty := s.dirty[e := Remove(s.dirty[e], p)]), p, r);
  }

  // ---- what the structure says about single pages --------------------------------------------

  /** The bitmap and the device are no part of the structure. */
  lemma SameStructure(s: State, s': State)
    requires Structure(s) && s' == s.(bitmap := s'.bitmap, disk := s'.disk)
    ensures Structure(s')
  {
    forall c: Clause ensures Holds(c, s') { assert Holds(c, s); }
  }

  /** The index entry of a lockable page is that page, idle. */
  lemma IndexEntry(s: State, k: Key)
    requires Structure(s) && Has(s.rdx, k)
    ensures var p := Get(s.rdx, k); p < |s.pages| && InIndex(s.pages[p].phase) && KeyOf(s.pages[p]) == k
  {
    assert Holds(Index, s);
    var p := Get(s.rdx, k);
    assert k in s.rdx[Shard(k.off, |s.rdx|)];
    assert IndexAts(s.pages)[p] == Some(k);
  }

  lemma TreeEntry(s: State, k: Key)
    requires Structure(s) && Has(s.trees, k)
    ensures var p := Get(s.trees, k); p < |s.pages| && InTree(s.pages[p]) && KeyOf(s.pages[p]) == k
  {
    assert Holds(Trees, s);
    var p := Get(s.trees, k);
    assert k in s.trees[Shard(k.off, |s.trees|)];
    assert TreeAts(s.pages)[p] == Some(k);
  }

  /** A lock is only ever granted on an idle page. */
  lemma LockIdle(s: State, p: PageId)
    requires Structure(s) && Lockable(s, p)
    ensures s.pages[p].phase == Idle && LocalOk(s.pages[p], s.home[p])
  {
    Local(s, p);
  }

  lemma NewMaps(s: State, maps: set<Mapping>)
    requires Structure(s) && MapsOk(s.pages, maps)
    ensures Structure(s.(maps := maps))
  {
    var s' := s.(maps := maps);
    forall c: Clause ensures Holds(c, s') { assert Holds(c, s); }
  }

  /** An indexed page that is in no tree has no namesake there. */
  lemma NotInTree(s: State, p: PageId)
    requires Structure(s) && p < |s.pages| && InIndex(s.pages[p].phase) && !InTree(s.pages[p])
    ensures !Has(s.trees, KeyOf(s.pages[p]))
  {
    var k := KeyOf(s.pages[p]);
    if Has(s.trees, k) {
      TreeEntry(s, k);
      OneOwner(s, p, Get(s.trees, k));
    }
  }

  /** Two indexed pages never share a block. */
  lemma OneOwner(s: State, p: PageId, p': PageId)
    requires Structure(s) && p < |s.pages| && p' < |s.pages|
    requires InIndex(s.pages[p].phase) && InIndex(s.pages[p'].phase)
    requires KeyOf(s.pages[p]) == KeyOf(s.pages[p'])
    ensures p == p'
  {
    assert Holds(Index, s);
    var at := IndexAts(s.pages);
    assert at[p].Some? && at[p'].Some?;
  }

  /** Taking the head is removing it. */
  lemma HeadLeaves(f: Queue<PageId>)
    requires f.items != [] && f.size == |f.items|
    ensures DequeueIf(f, true) == Remove(f, f.items[0])
  {
  }

  lemma HandEmpty(s: State, p: PageId, e: nat)
    requires Structure(s) && p < |s.pages| && DirtyQueue(s.pages[p].index) == e && s.hands[e].Empty?
    ensures HandFor(p, s.pages[p]).Empty?
  {
    assert Holds(Hands, s);
  }

  lemma TakeUp(s: State, p: PageId, e: nat)
    requires Structure(s) && p < |s.pages| && DirtyAt(s.pages[p]) == Some(e) && s.hands[e].Empty?
    requires LocalOk(s.pages[p], s.home[p]) && s.pages[p].phase == Idle && HandFor(p, s.pages[p]).Empty?
    ensures Structure(WithPage(s, p, s.pages[p].(locked := true, buf := BI_NONE, phase := EvTaken))
      .(dirty := s.dirty[e := Remove(s.dirty[e], p)], hands := s.hands[e := Took(p)]))
  {
    var r := s.pages[p].(locked := true, buf := BI_NONE, phase := EvTaken);
    var s' := WithPage(s, p, r).(dirty := s.dirty[e := Remove(s.dirty[e], p)], hands := s.hands[e := Took(p)]);
    HandTakes(s.pages, s.hands, p, r, e) by { assert Holds(Hands, s); }
    KeepsMaps(s, p, r);
    Unmoved(s, p, r);
    LeavesQueue(s.dirty, DirtyAts(s.pages), e, p) by { assert Holds(DirtyFifos, s); }
    Move(s, s', p, r);
  }

  lemma PutDown(s: State, p: PageId, e: nat, r: Page)
    requires Structure(s) && p < |s.pages| && InPhase(s, p, EvTaken) && LocalOk(s.pages[p], s.home[p])
    requires e == DirtyQueue(s.pages[p].index) && s.hands[e] == Took(p) && r == s.pages[p].(phase := EvOut)
    ensures Structure(WithPage(s, p, r).(trees := Erase(s.trees, KeyOf(r)), hands := s.hands[e := Empty]))
  {
    var s' := WithPage(s, p, r).(trees := Erase(s.trees, KeyOf(r)), hands := s.hands[e := Empty]);
    HandDrops(s.pages, s.hands, p, r, e) by { assert Holds(Hands, s); }
    KeepsMaps(s, p, r);
    Unmoved(s, p, r);
    Drop(s.trees, TreeAts(s.pages), KeyOf(r), p) by { assert Holds(Trees, s); }
    Move(s, s', p, r);
  }

  lemma BeginProbe(s: State, e: nat, p: PageId)
    requires Structure(s) && p < |s.pages| && InTree(s.pages[p]) && HandFor(p, s.pages[p]).Empty?
    requires LocalOk(s.pages[p], s.home[p])
    requires DirtyQueue(s.pages[p].index) == e && s.hands[e].Empty?
    ensures Structure(WithPage(s, p, s.pages[p].(probed := true))
      .(trees := Erase(s.trees, KeyOf(s.pages[p])), hands := s.hands[e := Probed(p, s.pages[p].pvd)]))
  {
    var r, k := s.pages[p].(probed := true), KeyOf(s.pages[p]);
    var s' := WithPage(s, p, r).(trees := Erase(s.trees, k), hands := s.hands[e := Probed(p, r.pvd)]);
    HandTakes(s.pages, s.hands, p, r, e) by { assert Holds(Hands, s); }
    KeepsMaps(s, p, r);
    Unmoved(s, p, r);
    Drop(s.trees, TreeAts(s.pages), k, p) by { assert Holds(Trees, s); }
    Move(s, s', p, r);
  }

  /** The page an evictor probes is dirty, out of its tree and of that evictor's queue. */
  lemma InHand(s: State, e: nat)
    requires Structure(s) && e < EVICTOR_THREADS && s.hands[e].Probed?
    ensures var p := s.hands[e].page;
            && p < |s.pages| && s.pages[p].probed && s.pages[p].dirty
            && DirtyQueue(s.pages[p].index) == e && s.hands[e].dev == s.pages[p].pvd
            && LocalOk(s.pages[p], s.home[p]) && !Has(s.trees, KeyOf(s.pages[p]))
  {
    assert Holds(Hands, s);
    var p := s.hands[e].page;
    assert HandOk(s.pages, e, s.hands[e]);
    Local(s, p);
    NotInTree(s, p);
  }

  lemma ClaimProbe(s: State, e: nat, p: PageId)
    requires Structure(s) && p < |s.pages| && e < EVICTOR_THREADS
    requires s.hands[e].Probed? && s.hands[e].page == p
    requires LocalOk(s.pages[p], s.home[p]) && s.pages[p].phase == Idle && s.pages[p].dirty
    requires s.pages[p].probed && DirtyQueue(s.pages[p].index) == e
    ensures Structure(WithPage(s, p, s.pages[p].(locked := true, buf := BI_NONE, probed := false, phase := EvOut))
      .(dirty := s.dirty[e := Remove(s.dirty[e], p)], hands := s.hands[e := Empty]))
  {
    var r := s.pages[p].(locked := true, buf := BI_NONE, probed := false, phase := EvOut);
    var s' := WithPage(s, p, r).(dirty := s.dirty[e := Remove(s.dirty[e], p)], hands := s.hands[e := Empty]);
    HandDrops(s.pages, s.hands, p, r, e) by { assert Holds(Hands, s); }
    KeepsMaps(s, p, r);
    Unmoved(s, p, r);
    LeavesQueue(s.dirty, DirtyAts(s.pages), e, p) by { assert Holds(DirtyFifos, s); }
    Move(s, s', p, r);
  }

  lemma ReturnProbe(s: State, e: nat, p: PageId)
    requires Structure(s) && p < |s.pages| && e < EVICTOR_THREADS
    requires s.hands[e].Probed? && s.hands[e].page == p
    requires LocalOk(s.pages[p], s.home[p]) && s.pages[p].probed && !Has(s.trees, KeyOf(s.pages[p]))
    ensures Structure(WithPage(s, p, s.pages[p].(probed := false))
      .(trees := Put(s.trees, KeyOf(s.pages[p]), p), hands := s.hands[e := Empty]))
  {
    var r := s.pages[p].(probed := false);
    var s' := WithPage(s, p, r).(trees := Put(s.trees, KeyOf(r), p), hands := s.hands[e := Empty]);
    HandDrops(s.pages, s.hands, p, r, e) by { assert Holds(Hands, s); }
    KeepsMaps(s, p, r);
    Unmoved(s, p, r);
    Insert(s.trees, TreeAts(s.pages), KeyOf(r), p) by { assert Holds(Trees, s); }
    Move(s, s', p, r);
  }

  /** With no writable mapping left, a page may pass into a phase that allows none. */
  lemma AfterProtect(s: State, p: PageId, f: Phase)
    requires Structure(s) && p < |s.pages| && NoWritable(s, p)
    requires (s.pages[p].phase == EvOut && f == EvProtected) || (s.pages[p].phase == FsOut && f == FsProtected)
    ensures Structure(WithPage(s, p, s.pages[p].(phase := f)))
  {
    Local(s, p);
    var r := s.pages[p].(phase := f);
    Unmoved(s, p, r);
    assert Holds(Hands, s) && Holds(PageTables, s);
    Move(s, WithPage(s, p, r), p, r);
  }

  lemma EntersFree(s: State, p: PageId, r: Page)
    requires Structure(s) && p < |s.pages| && Otherwise(s, p, r, {FreeLists})
    requires FreeAt(s.pages[p], s.home[p]) == None && r.phase.OnFreeList? && s.home[p] < |s.free|
    ensures var c := s.home[p]; Structure(WithPage(s, p, r).(free := s.free[c := s.free[c] + [p]]))
  {
    var c := s.home[p];
    Unmoved(s, p, r);
    KeepsLinks(s, p, r);
    Append(s.free, FreeAts(s.pages, s.home), c, p) by { assert Holds(FreeLists, s); }
    Move(s, WithPage(s, p, r).(free := s.free[c := s.free[c] + [p]]), p, r);
  }


  lemma LeavesFree(s: State, c: nat, r: Page)
    requires Structure(s) && c < |s.free| && s.free[c] != [] && s.free[c][0] < |s.pages|
    requires r.phase.Popped? && r == s.pages[s.free[c][0]].(cpuid := c, phase := r.phase)
    ensures Structure(WithPage(s, s.free[c][0], r).(free := s.free[c := s.free[c][1..]]))
  {
    var p := s.free[c][0];
    Local(s, p);
    assert Holds(FreeLists, s);
    PopHead(s.free, FreeAts(s.pages, s.home), c);
    assert p in s.free[c];
    Unmoved(s, p, r);
    KeepsLinks(s, p, r);
    Move(s, WithPage(s, p, r).(free := s.free[c := s.free[c][1..]]), p, r);
  }

  /** The last mapping of a page goes, and with it the page's right to be mapped. */
  lemma Retires(s: State, p: PageId, r: Page)
    requires Structure(s) && InPhase(s, p, PgUnindexed) && r == s.pages[p].(phase := PgUnmapped)
    ensures Structure(WithPage(s, p, r).(maps := set m | m in s.maps && m.page != p))
  {
    var maps := set m | m in s.maps && m.page != p;
    NewMaps(s, maps) by { assert Holds(PageTables, s); }
    var s1 := s.(maps := maps);
    Local(s1, p);
    Unmoved(s1, p, r);
    NoLinks(s1, p, r);
    Move(s1, WithPage(s1, p, r), p, r);
  }

  /** The head of a dirty FIFO belongs there, can be taken like any other page, or moves to the tail. */
  lemma DirtyHead(s: State, e: nat)
    requires Structure(s) && e < EVICTOR_THREADS && s.dirty[e].items != []
    ensures var p := s.dirty[e].items[0];
            && p < |s.pages| && DirtyAt(s.pages[p]) == Some(e)
            && DequeueIf(s.dirty[e], true) == Remove(s.dirty[e], p)
            && Structure(s.(dirty := s.dirty[e := DequeueIf(s.dirty[e], false)]))
  {
    assert Holds(DirtyFifos, s) && Holds(Sizes, s);
    HeadOf(s.dirty, DirtyAts(s.pages), e);
    HeadLeaves(s.dirty[e]);
    var s' := s.(dirty := s.dirty[e := DequeueIf(s.dirty[e], false)]);
    forall c: Clause ensures Holds(c, s') { assert Holds(c, s); }
  }

  lemma CleanHead(s: State, q: nat)
    requires Structure(s) && q < NUM_QUEUES && s.clean[q].items != []
    ensures var p := s.clean[q].items[0];
            && p < |s.pages| && CleanAt(s.pages[p]) == Some(q)
            && DequeueIf(s.clean[q], true) == Remove(s.clean[q], p)
            && Structure(s.(clean := s.clean[q := DequeueIf(s.clean[q], false)]))
  {
    assert Holds(CleanFifos, s) && Holds(Sizes, s);
    HeadOf(s.clean, CleanAts(s.pages), q);
    HeadLeaves(s.clean[q]);
    var s' := s.(clean := s.clean[q := DequeueIf(s.clean[q], false)]);
    forall c: Clause ensures Holds(c, s') { assert Holds(c, s); }
  }
}
