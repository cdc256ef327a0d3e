/** What gathering a batch does to the cache when no other thread is about. */
module Grabbing {
  import opened Params
  import opened Fifo
  import opened Placement
  import opened Lifecycle
  import opened Invariant
  import opened Moves
  import opened Batches
  import opened ListOrder

  /** A page that an evictor has locked and taken off its queue. */
  function Grabbed(r: Page): Page { r.(locked := true, buf := BI_NONE, phase := EvOut) }

  /** Exactly the pages of b are locked and off queue e and its trees; nothing else has changed. */
  ghost predicate GatheredFrom(s0: State, s: State, e: nat, b: seq<PageId>)
    requires e < |s0.dirty|
  {
    && s == s0.(pages := s.pages, trees := s.trees, dirty := s.dirty)
    && Swept(s0.pages, s.pages, b, |b|, Grabbed)
    && s.dirty == s0.dirty[e := Queue(Except(s0.dirty[e].items, b), s0.dirty[e].size - |b|, s0.dirty[e].maxSize)]
    && |s.trees| == |s0.trees| && forall k :: TreeWithout(s0, s, b, k)
  }

  /** The trees have the entry for k that they had, unless it named a page in b. */
  predicate TreeWithout(s0: State, s: State, b: seq<PageId>, k: Key) {
    && (Has(s.trees, k) <==> Has(s0.trees, k) && Get(s0.trees, k) !in b)
    && (Has(s.trees, k) ==> Has(s0.trees, k) && Get(s.trees, k) == Get(s0.trees, k))
  }

  /** The head of an evictor's queue that can be locked, while its hand is empty. */
  lemma HeadInTree(s: State, e: nat, p: PageId)
    requires Structure(s) && e < EVICTOR_THREADS && s.hands[e].Empty? && s.dirty[e].items != []
    requires p == s.dirty[e].items[0] && Lockable(s, p)
    ensures p < |s.pages| && s.pages[p].phase == Idle && DirtyQueue(s.pages[p].index) == e
    ensures Has(s.trees, KeyOf(s.pages[p])) && Get(s.trees, KeyOf(s.pages[p])) == p
  {
    DirtyHead(s, e);
    Local(s, p);
    assert Holds(Hands, s);
    assert Holds(Trees, s);
    assert TreeAts(s.pages)[p] == Some(KeyOf(s.pages[p]));
  }

  lemma HeadRemoved(s: State, e: nat)
    requires Structure(s) && e < EVICTOR_THREADS && s.dirty[e].items != []
    ensures DequeueIf(s.dirty[e], true) == Remove(s.dirty[e], s.dirty[e].items[0])
  {
    DirtyHead(s, e);
  }

  lemma DequeueTakes(s: State, e: nat, p: PageId)
    requires Structure(s) && e < EVICTOR_THREADS && s.dirty[e].items != [] && p == s.dirty[e].items[0]
    requires Lockable(s, p) && s.hands[e].Empty?
    ensures Enabled(s, EvDequeue(e))
    ensures DoEvDequeue(s, e) ==
            s.(pages := s.pages[p := s.pages[p].(locked := true, buf := BI_NONE, phase := EvTaken)],
               dirty := s.dirty[e := Remove(s.dirty[e], p)], hands := s.hands[e := Took(p)])
  {
    HeadRemoved(s, e);
    assert s.dirty[e].size == |s.dirty[e].items| by { assert Holds(Sizes, s); }
  }

  /** The first page: dequeued, then erased from its tree. */
  lemma TakesFirst(s: State, e: nat, p: PageId)
    requires Structure(s) && e < EVICTOR_THREADS && s.hands[e].Empty? && s.dirty[e].items != []
    requires p == s.dirty[e].items[0] && Lockable(s, p)
    ensures Enabled(s, EvDequeue(e)) && Enabled(DoEvDequeue(s, e), EvUntree(p))
    ensures DoEvUntree(DoEvDequeue(s, e), p) ==
            s.(pages := s.pages[p := Grabbed(s.pages[p])], trees := Erase(s.trees, KeyOf(s.pages[p])),
               dirty := s.dirty[e := Remove(s.dirty[e], p)])
  {
    HeadInTree(s, e, p);
    DequeueTakes(s, e, p);
    var s2 := DoEvUntree(DoEvDequeue(s, e), p);
    assert s2.pages == s.pages[p := Grabbed(s.pages[p])];
    assert s2.hands == s.hands;
  }

  lemma DirtyNoDup(s: State, e: nat)
    requires Structure(s) && e < EVICTOR_THREADS
    ensures NoDup(s.dirty[e].items)
  {
    assert Holds(DirtyFifos, s);
    assert NoDup(Items(s.dirty)[e]);
  }

  lemma GrabsFirst(s: State, s': State, e: nat, p: PageId)
    requires Structure(s) && e < EVICTOR_THREADS && s.hands[e].Empty? && s.dirty[e].items != []
    requires p == s.dirty[e].items[0] && Lockable(s, p)
    requires s' == s.(pages := s.pages[p := Grabbed(s.pages[p])], trees := Erase(s.trees, KeyOf(s.pages[p])),
                      dirty := s.dirty[e := Remove(s.dirty[e], p)])
    ensures GatheredFrom(s, s', e, [p])
  {
    HeadInTree(s, e, p);
    DirtyNoDup(s, e);
    WithoutIsExcept(s.dirty[e].items, p);
    forall j ensures TreeWithout(s, s', [p], j) { ErasedWithout(s, s', p, KeyOf(s.pages[p]), j); }
  }

  lemma ErasedWithout(s: State, s': State, p: PageId, k: Key, j: Key)
    requires Structure(s) && Has(s.trees, k) && Get(s.trees, k) == p && s'.trees == Erase(s.trees, k)
    ensures TreeWithout(s, s', [p], j)
  {
    HasAfter(s.trees, k, 0, j);
    TreeEntry(s, k);
    if Has(s.trees, j) { TreeEntry(s, j); }
  }

  lemma PutErased(ms: seq<map<Key, PageId>>, k: Key)
    requires Has(ms, k)
    ensures !Has(Erase(ms, k), k) && Put(Erase(ms, k), k, Get(ms, k)) == ms
  {
    var c := Shard(k.off, |ms|);
    assert ms[c] - {k} + map[k := ms[c][k]] == ms[c];
    assert Put(Erase(ms, k), k, Get(ms, k))[c] == ms[c];
  }

  lemma EntryUnprobed(s: State, k: Key)
    requires Structure(s) && Has(s.trees, k)
    ensures var p := Get(s.trees, k); p < |s.pages| && !s.pages[p].probed && KeyOf(s.pages[p]) == k
  {
    TreeEntry(s, k);
    Local(s, Get(s.trees, k));
  }

  /** A neighbour that cannot be locked: taken out of its tree and put back, as if nothing had been. */
  lemma PutBackRestores(s: State, e: nat, k: Key)
    requires Structure(s) && Enabled(s, EvProbe(e, k))
    ensures Enabled(DoEvProbe(s, e, k), EvPutBack(e)) && DoEvPutBack(DoEvProbe(s, e, k), e) == s
  {
    EntryUnprobed(s, k);
    PutErased(s.trees, k);
    var s2 := DoEvPutBack(DoEvProbe(s, e, k), e);
    assert s2.trees == s.trees;
    assert s2.hands == s.hands;
    assert s2.pages == s.pages;
  }

  /** A neighbour that is claimed. */
  lemma ClaimsNeighbour(s: State, e: nat, k: Key)
    requires Structure(s) && Enabled(s, EvProbe(e, k)) && Lockable(s, Get(s.trees, k)) && e < EVICTOR_THREADS
    ensures var p := Get(s.trees, k);
            && p < |s.pages| && Enabled(DoEvProbe(s, e, k), EvClaim(e))
            && var s' := DoEvClaim(DoEvProbe(s, e, k), e);
            s' == s.(pages := s.pages[p := Grabbed(s.pages[p])], trees := Erase(s.trees, k),
                     dirty := s.dirty[e := Remove(s.dirty[e], p)])
  {
    EntryUnprobed(s, k);
    var p := Get(s.trees, k);
    var s2 := DoEvClaim(DoEvProbe(s, e, k), e);
    assert s2.hands == s.hands;
    assert s2.pages == s.pages[p := Grabbed(s.pages[p])];
  }

  /** One more page in the batch. */
  lemma GrabsNext(s0: State, s: State, s': State, e: nat, b: seq<PageId>, k: Key)
    requires Structure(s0) && Structure(s) && e < EVICTOR_THREADS && GatheredFrom(s0, s, e, b)
    requires Has(s.trees, k) && Get(s.trees, k) < |s.pages|
    requires var p := Get(s.trees, k);
             s' == s.(pages := s.pages[p := Grabbed(s.pages[p])], trees := Erase(s.trees, k),
                      dirty := s.dirty[e := Remove(s.dirty[e], p)])
    ensures GatheredFrom(s0, s', e, b + [Get(s.trees, k)])
  {
    var p := Get(s.trees, k);
    var c := b + [p];
    assert TreeWithout(s0, s, b, k);
    GrabsPage(s0.pages, s.pages, b, p);
    DirtyNoDup(s, e);
    GrabsQueue(s0.dirty, s.dirty, e, b, p);
    GrabsTrees(s0, s, s', b, k, p, c);
  }

  lemma GrabsTrees(s0: State, s: State, s': State, b: seq<PageId>, k: Key, p: PageId, c: seq<PageId>)
    requires Structure(s) && Has(s.trees, k) && p == Get(s.trees, k) && s'.trees == Erase(s.trees, k) && c == b + [p]
    requires forall j :: TreeWithout(s0, s, b, j)
    ensures forall j :: TreeWithout(s0, s', c, j)
  {
    forall j ensures TreeWithout(s0, s', c, j) {
      assert TreeWithout(s0, s, b, j);
      ErasedWithout(s, s', p, k, j);
    }
  }

  lemma GrabsQueue(fs: seq<Queue<PageId>>, fs': seq<Queue<PageId>>, e: nat, b: seq<PageId>, p: PageId)
    requires e < |fs| && fs' == fs[e := Queue(Except(fs[e].items, b), fs[e].size - |b|, fs[e].maxSize)]
    requires NoDup(fs'[e].items)
    ensures fs'[e := Remove(fs'[e], p)] ==
            fs[e := Queue(Except(fs[e].items, b + [p]), fs[e].size - |b + [p]|, fs[e].maxSize)]
  {
    WithoutIsExcept(fs'[e].items, p);
    ExceptTwice(fs[e].items, b, [p], b + [p]);
  }

  lemma GrabsPage(old_: seq<Page>, pages: seq<Page>, b: seq<PageId>, p: PageId)
    requires Swept(old_, pages, b, |b|, Grabbed) && p < |pages| && p !in b
    ensures Swept(old_, pages[p := Grabbed(pages[p])], b + [p], |b| + 1, Grabbed)
  {
    assert (b + [p])[..|b| + 1] == b + [p] && b[..|b|] == b;
  }
}
