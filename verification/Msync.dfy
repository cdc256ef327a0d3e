/** A whole fsync of one pvd: the k-way merge lists its dirty pages, batch by batch, and every
    batch is cleaned, written and unlocked. */
module Msync {
  import opened Params
  import opened Fifo
  import opened Placement
  import opened Lifecycle
  import opened Invariant
  import opened Moves
  import opened Theorems
  import opened Guarantees
  import opened WriteBack
  import opened Batches
  import opened EvictorRound
  import opened Fsync
  import opened ListOrder
  import KWayMerge

  type Entry = KWayMerge.Entry

  function PagesOf(l: seq<Entry>): (ps: seq<PageId>)
    ensures |ps| == |l| && forall i :: 0 <= i < |l| ==> ps[i] == l[i].page
  {
    seq(|l|, i requires 0 <= i < |l| => l[i].page)
  }

  /** Entry e names a pending page of pvd d at its own offset. */
  predicate Names(s: State, d: nat, e: Entry) {
    Pending(s, e.page) && KeyOf(s.pages[e.page]) == Key(d, e.offset)
  }

  ghost predicate Listing(s: State, d: nat, l: seq<Entry>) {
    KWayMerge.Increasing(l) && forall i :: 0 <= i < |l| ==> Names(s, d, l[i])
  }

  /** A listing, cut at n: distinct pages, and the rest untouched by what happened to the front. */
  lemma ListingDistinct(s: State, d: nat, l: seq<Entry>)
    requires Listing(s, d, l)
    ensures NoDup(PagesOf(l)) && AllPending(s, PagesOf(l)) && Writable(s, PagesOf(l), d)
  {
    forall i | 0 <= i < |l| ensures Pending(s, PagesOf(l)[i]) { assert Names(s, d, l[i]); }
    forall i, j | 0 <= i < j < |l| ensures s.pages[l[i].page].index < s.pages[l[j].page].index {
      assert Names(s, d, l[i]) && Names(s, d, l[j]);
    }
    forall i | 0 <= i < |l| ensures s.pages[l[i].page].pvd == d { assert Names(s, d, l[i]); }
  }

  lemma ListingParts(s: State, d: nat, a: seq<Entry>, b: seq<Entry>)
    requires Listing(s, d, a + b)
    ensures Listing(s, d, a) && Listing(s, d, b)
  {
    var l := a + b;
    forall i | 0 <= i < |a| ensures Names(s, d, a[i]) && a[i] == l[i] { assert Names(s, d, l[i]); }
    forall i | 0 <= i < |b| ensures Names(s, d, b[i]) && b[i] == l[|a| + i] { assert Names(s, d, l[|a| + i]); }
  }

  lemma ListingApart(s: State, d: nat, a: seq<Entry>, b: seq<Entry>)
    requires Listing(s, d, a + b)
    ensures PagesOf(a + b) == PagesOf(a) + PagesOf(b)
    ensures forall p :: p in PagesOf(b) ==> p !in PagesOf(a)
  {
    ListingDistinct(s, d, a + b);
    Apart(PagesOf(a), PagesOf(b), PagesOf(a + b));
  }

  lemma Apart(x: seq<PageId>, y: seq<PageId>, z: seq<PageId>)
    requires z == x + y && NoDup(z)
    ensures forall p :: p in y ==> p !in x
  {
    forall p | p in y ensures p !in x {
      var j :| 0 <= j < |y| && y[j] == p;
      forall i | 0 <= i < |x| ensures x[i] != p { assert z[i] != z[|x| + j]; }
    }
  }

  /** Pages that no batch so far contained are still pending. */
  lemma ListingSurvives(s0: State, s: State, d: nat, done: seq<PageId>, l: seq<Entry>)
    requires Swept(s0.pages, s.pages, done, |done|, Evicted) && Untreed(s0, s, done) && Listing(s0, d, l)
    requires forall p :: p in PagesOf(l) ==> p !in done
    ensures Listing(s, d, l)
  {
    assert done[..|done|] == done;
    forall i | 0 <= i < |l| ensures Names(s, d, l[i]) {
      assert Names(s0, d, l[i]);
      assert PagesOf(l)[i] == l[i].page;
      assert StillIn(s0, s, done, Key(d, l[i].offset));
    }
  }

  lemma SweepMore(x: seq<Page>, y: seq<Page>, z: seq<Page>, a: seq<PageId>, b: seq<PageId>)
    requires Swept(x, y, a, |a|, Evicted) && Swept(y, z, b, |b|, Evicted)
    ensures Swept(x, z, a + b, |a + b|, Evicted)
  {
    var c := a + b;
    assert c[..|c|] == c && a[..|a|] == a && b[..|b|] == b;
    forall p | 0 <= p < |z| && p !in c ensures z[p] == x[p] {
    }
    forall i | 0 <= i < |c| && c[i] < |z| ensures z[c[i]] == Evicted(x[c[i]]) {
      var p := c[i];
      if i >= |a| { assert b[i - |a|] == p; }
      if i < |a| { assert a[i] == p; }
      assert y[p] == x[p] || y[p] == Evicted(x[p]);
      assert z[p] == y[p] || z[p] == Evicted(y[p]);
    }
  }

  lemma UntreeMore(s0: State, s: State, s': State, a: seq<PageId>, b: seq<PageId>)
    requires Untreed(s0, s, a) && Untreed(s, s', b)
    ensures Untreed(s0, s', a + b)
  {
    var c := a + b;
    forall k ensures StillIn(s0, s', c, k) {
      assert StillIn(s0, s, a, k) && StillIn(s, s', b, k);
    }
  }

  // ---- the offsets of a batch ----------------------------------------------------------------

  function OffsetsOf(l: seq<Entry>): (offs: seq<nat>)
    ensures |offs| == |l| && forall i :: 0 <= i < |l| ==> offs[i] == l[i].offset
  {
    seq(|l|, i requires 0 <= i < |l| => l[i].offset)
  }

  lemma SameOffsets(s: State, d: nat, l: seq<Entry>)
    requires Listing(s, d, l)
    ensures Known(s, PagesOf(l)) && Offsets(s, PagesOf(l)) == OffsetsOf(l)
  {
    forall i | 0 <= i < |l| ensures l[i].page < |s.pages| && s.pages[l[i].page].index == l[i].offset {
      assert Names(s, d, l[i]);
    }
  }

  /** No batch has a run of more than 256 pages. */
  ghost predicate Complete(batches: seq<seq<Entry>>) {
    forall i :: 0 <= i < |batches| ==> NoLongRun(OffsetsOf(batches[i]))
  }

  // ---- what reaches the device ---------------------------------------------------------------

  /** The blocks that no request of any batch covers: the ends of runs of more than 256 pages. */
  ghost function AllLeftOut(d: nat, bs: seq<seq<Entry>>): set<Key> {
    if bs == [] then {} else AllLeftOut(d, bs[..|bs| - 1]) + LeftOut(d, OffsetsOf(bs[|bs| - 1]))
  }

  lemma {:induction false} NoneLeftOut(d: nat, bs: seq<seq<Entry>>)
    requires Complete(bs)
    ensures AllLeftOut(d, bs) == {}
    decreases |bs|
  {
    if bs != [] {
      NoneLeftOut(d, bs[..|bs| - 1]);
      NothingLost(d, OffsetsOf(bs[|bs| - 1]));
    }
  }

  predicate EntryDelivered(s0: State, disk: map<Key, Data>, d: nat, e: Entry, lost: set<Key>) {
    e.page < |s0.pages| &&
    PageReached(s0.disk, disk, Key(d, e.offset), s0.pages[e.page].data, Key(d, e.offset) !in lost)
  }

  predicate LostListed(d: nat, l: seq<Entry>, lost: set<Key>) {
    forall k :: k in lost ==> k.dev == d && k.off in OffsetsOf(l)
  }

  /** Of the listed pages exactly those not in `lost` are on the device, each in its own block; every
      other block, lost or not listed, is as it was. */
  ghost predicate Delivered(s0: State, disk: map<Key, Data>, d: nat, l: seq<Entry>, lost: set<Key>) {
    && (forall i :: 0 <= i < |l| ==> EntryDelivered(s0, disk, d, l[i], lost))
    && (forall k :: BlockKept(s0.disk, disk, d, OffsetsOf(l), k))
    && LostListed(d, l, lost)
  }

  lemma LeftOutExact(d: nat, offs: seq<nat>, j: nat)
    requires InOrder(offs) && j < |offs|
    ensures Key(d, offs[j]) in LeftOut(d, offs) <==> j !in CoveredPages(offs)
  {
    Coalesce.CoveredExact(offs, j);
  }

  lemma OffsetsApart(done: seq<Entry>, batch: seq<Entry>)
    requires KWayMerge.Increasing(done + batch)
    ensures OffsetsOf(done + batch) == OffsetsOf(done) + OffsetsOf(batch) && InOrder(OffsetsOf(batch))
    ensures forall i :: 0 <= i < |done| ==> done[i].offset !in OffsetsOf(batch)
    ensures forall j :: 0 <= j < |batch| ==> batch[j].offset !in OffsetsOf(done)
  {
    var l := done + batch;
    forall i, j | 0 <= i < |done| && 0 <= j < |batch| ensures done[i].offset < batch[j].offset {
      assert l[i].offset < l[|done| + j].offset;
    }
    forall i, j | 0 <= i < j < |batch| ensures batch[i].offset < batch[j].offset {
      assert l[|done| + i].offset < l[|done| + j].offset;
    }
  }

  /** Entries of earlier batches are untouched by the next one. */
  lemma DeliveredBefore(s0: State, disk: map<Key, Data>, disk': map<Key, Data>, d: nat, done: seq<Entry>,
                        offs: seq<nat>, data: seq<Data>, covered: set<nat>, lost: set<Key>, more: set<Key>, i: nat)
    requires i < |done| && EntryDelivered(s0, disk, d, done[i], lost) && done[i].offset !in offs
    requires |data| == |offs| && Reached(disk, disk', d, offs, data, covered) && forall k :: k in more ==> k.off in offs
    ensures EntryDelivered(s0, disk', d, done[i], lost + more)
  {
    assert BlockKept(disk, disk', d, offs, Key(d, done[i].offset));
    assert Key(d, done[i].offset) !in more;
  }

  /** An entry of the next batch, whose block was untouched so far. */
  lemma DeliveredNow(s0: State, s: State, disk': map<Key, Data>, d: nat, done: seq<Entry>, batch: seq<Entry>,
                     data: seq<Data>, lost: set<Key>, j: nat)
    requires j < |batch| && InOrder(OffsetsOf(batch)) && LostListed(d, done, lost)
    requires batch[j].offset !in OffsetsOf(done) && forall k :: BlockKept(s0.disk, s.disk, d, OffsetsOf(done), k)
    requires |data| == |batch| && Reached(s.disk, disk', d, OffsetsOf(batch), data, CoveredPages(OffsetsOf(batch)))
    requires batch[j].page < |s0.pages| && data[j] == s0.pages[batch[j].page].data
    ensures EntryDelivered(s0, disk', d, batch[j], lost + LeftOut(d, OffsetsOf(batch)))
  {
    var offs := OffsetsOf(batch);
    assert BlockKept(s0.disk, s.disk, d, OffsetsOf(done), Key(d, batch[j].offset));
    assert PageReached(s.disk, disk', Key(d, offs[j]), data[j], j in CoveredPages(offs));
    LeftOutExact(d, offs, j);
  }

  lemma DeliverMore(s0: State, s: State, s': State, d: nat, done: seq<Entry>, batch: seq<Entry>, lost: set<Key>)
    requires Listing(s0, d, done + batch) && Delivered(s0, s.disk, d, done, lost) && Known(s, PagesOf(batch))
    requires Copies(s, PagesOf(batch)) == Copies0(s0, d, done, batch)
    requires Reached(s.disk, s'.disk, d, OffsetsOf(batch), Copies(s, PagesOf(batch)), CoveredPages(OffsetsOf(batch)))
    ensures Delivered(s0, s'.disk, d, done + batch, lost + LeftOut(d, OffsetsOf(batch)))
  {
    var l, more, offs := done + batch, LeftOut(d, OffsetsOf(batch)), OffsetsOf(batch);
    OffsetsApart(done, batch);
    forall i | 0 <= i < |l| ensures EntryDelivered(s0, s'.disk, d, l[i], lost + more) {
      if i < |done| {
        DeliveredBefore(s0, s.disk, s'.disk, d, done, offs, Copies(s, PagesOf(batch)), CoveredPages(offs), lost,
                        more, i);
      } else {
        assert Names(s0, d, l[i]);
        DeliveredNow(s0, s, s'.disk, d, done, batch, Copies(s, PagesOf(batch)), lost, i - |done|);
      }
    }
    KeptMore(s0.disk, s.disk, s'.disk, d, OffsetsOf(done), offs, Copies(s, PagesOf(batch)), CoveredPages(offs));
  }

  lemma KeptMore(disk0: map<Key, Data>, disk: map<Key, Data>, disk': map<Key, Data>, d: nat, a: seq<nat>, b: seq<nat>,
                 data: seq<Data>, done: set<nat>)
    requires (forall k :: BlockKept(disk0, disk, d, a, k)) && |data| == |b| && Reached(disk, disk', d, b, data, done)
    ensures forall k :: BlockKept(disk0, disk', d, a + b, k)
  {
    var c := a + b;
    forall k ensures BlockKept(disk0, disk', d, c, k) {
      assert BlockKept(disk0, disk, d, a, k) && BlockKept(disk, disk', d, b, k);
    }
  }

  /** What the pages of the next batch held from the start. */
  function Copies0(s0: State, d: nat, done: seq<Entry>, batch: seq<Entry>): seq<Data>
    requires Listing(s0, d, done + batch)
  {
    ListingParts(s0, d, done, batch);
    SameOffsets(s0, d, batch);
    Copies(s0, PagesOf(batch))
  }

  // ---- batch after batch, on the cache -------------------------------------------------------

  /** Everything listed in `done` has been synced, everything else is as it was. */
  ghost predicate SyncedSoFar(s0: State, s: State, done: seq<Entry>) {
    && Swept(s0.pages, s.pages, PagesOf(done), |done|, Evicted) && Untreed(s0, s, PagesOf(done))
    && s == s0.(pages := s.pages, trees := s.trees, maps := s.maps, dirty := s.dirty, clean := s.clean, disk := s.disk)
    && s.maps == ReadOnlyFor(s0.maps, PagesOf(done))
    && TailGains(s0.clean, s.clean, s0.pages, PagesOf(done)) && QueuesLose(s0.dirty, s.dirty, PagesOf(done))
  }

  lemma SyncMore(s0: State, s: State, s': State, d: nat, done: seq<Entry>, batch: seq<Entry>)
    requires Listing(s0, d, done + batch) && SyncedSoFar(s0, s, done) && BatchDone(s, s', PagesOf(batch), d)
    ensures SyncedSoFar(s0, s', done + batch)
  {
    ListingApart(s0, d, done, batch);
    SweepMore(s0.pages, s.pages, s'.pages, PagesOf(done), PagesOf(batch));
    UntreeMore(s0, s, s', PagesOf(done), PagesOf(batch));
    ReadOnlyMore(s0.maps, PagesOf(done), PagesOf(batch));
    TailGainsOn(s0.clean, s.clean, s'.clean, s0.pages, s.pages, PagesOf(done), PagesOf(batch));
    QueuesLoseOn(s0.dirty, s.dirty, s'.dirty, PagesOf(done), PagesOf(batch));
  }

  /** The listed pages that come next can be synced now. */
  lemma NextBatch(s0: State, s: State, d: nat, done: seq<Entry>, batch: seq<Entry>, protect: bool)
    requires Listing(s0, d, done + batch) && SyncedSoFar(s0, s, done)
    requires !protect ==> AllReadOnly(s0, PagesOf(done + batch))
    ensures var b := PagesOf(batch);
            && NoDup(b) && AllPending(s, b) && Writable(s, b, d) && (!protect ==> AllReadOnly(s, b))
            && Offsets(s, b) == OffsetsOf(batch)
  {
    ListingApart(s0, d, done, batch);
    ListingParts(s0, d, done, batch);
    ListingSurvives(s0, s, d, PagesOf(done), batch);
    ListingDistinct(s, d, batch);
    SameOffsets(s, d, batch);
    if !protect {
      forall i | 0 <= i < |batch| ensures NoWritable(s, batch[i].page) {
        assert PagesOf(done + batch)[|done| + i] == batch[i].page;
        StillReadOnly(s0, s, PagesOf(done), batch[i].page);
      }
    }
  }

  lemma SameCopies(s0: State, s: State, d: nat, done: seq<Entry>, batch: seq<Entry>)
    requires Listing(s0, d, done + batch) && SyncedSoFar(s0, s, done) && Known(s, PagesOf(batch))
    ensures Copies(s, PagesOf(batch)) == Copies0(s0, d, done, batch)
  {
    ListingApart(s0, d, done, batch);
    ListingParts(s0, d, done, batch);
    SameOffsets(s0, d, batch);
    var ps := PagesOf(done);
    assert ps[..|done|] == ps;
    forall j | 0 <= j < |batch| ensures s.pages[batch[j].page].data == s0.pages[batch[j].page].data {
      assert PagesOf(batch)[j] !in ps;
    }
  }

  method SyncNext(s0: State, s: State, d: nat, protect: bool, ghost done: seq<Entry>, batch: seq<Entry>,
                  ghost lost: set<Key>, ghost mem: Memory)
      returns (s': State)
    requires Inv(s, mem) && Listing(s0, d, done + batch) && SyncedSoFar(s0, s, done)
             && Delivered(s0, s.disk, d, done, lost)
    requires !protect ==> AllReadOnly(s0, PagesOf(done + batch))
    ensures Inv(s', mem - LeftOut(d, OffsetsOf(batch))) && SyncedSoFar(s0, s', done + batch)
    ensures Delivered(s0, s'.disk, d, done + batch, lost + LeftOut(d, OffsetsOf(batch)))
  {
    NextBatch(s0, s, d, done, batch, protect);
    SameCopies(s0, s, d, done, batch);
    s' := SyncBatch(s, PagesOf(batch), d, protect, mem);
    SyncMore(s0, s, s', d, done, batch);
    DeliverMore(s0, s, s', d, done, batch, lost);
  }

  lemma {:induction false} FlattenSplit(bs: seq<seq<Entry>>, n: nat) returns (rest: seq<Entry>)
    requires n <= |bs|
    ensures KWayMerge.Flatten(bs) == KWayMerge.Flatten(bs[..n]) + rest
    decreases |bs| - n
  {
    if n == |bs| {
      rest := [];
      assert bs[..n] == bs;
    } else {
      rest := FlattenSplit(bs, n + 1);
      KWayMerge.FlattenAppend(bs[..n], bs[n]);
      assert bs[..n + 1] == bs[..n] + [bs[n]];
      rest := bs[n] + rest;
    }
  }

  lemma BatchListed(s: State, d: nat, bs: seq<seq<Entry>>, n: nat, protect: bool)
    requires n < |bs| && Listing(s, d, KWayMerge.Flatten(bs))
    requires !protect ==> AllReadOnly(s, PagesOf(KWayMerge.Flatten(bs)))
    ensures var l := KWayMerge.Flatten(bs[..n]) + bs[n];
            && l == KWayMerge.Flatten(bs[..n + 1]) && Listing(s, d, l)
            && (!protect ==> AllReadOnly(s, PagesOf(l)))
  {
    FlattenNext(bs, n);
    PrefixListed(s, d, bs, n + 1, protect);
  }

  lemma FlattenNext(bs: seq<seq<Entry>>, n: nat)
    requires n < |bs|
    ensures KWayMerge.Flatten(bs[..n]) + bs[n] == KWayMerge.Flatten(bs[..n + 1])
  {
    KWayMerge.FlattenAppend(bs[..n], bs[n]);
    assert bs[..n + 1] == bs[..n] + [bs[n]];
  }

  lemma PrefixListed(s: State, d: nat, bs: seq<seq<Entry>>, n: nat, protect: bool)
    requires n <= |bs| && Listing(s, d, KWayMerge.Flatten(bs))
    requires !protect ==> AllReadOnly(s, PagesOf(KWayMerge.Flatten(bs)))
    ensures Listing(s, d, KWayMerge.Flatten(bs[..n]))
    ensures !protect ==> AllReadOnly(s, PagesOf(KWayMerge.Flatten(bs[..n])))
  {
    var l := KWayMerge.Flatten(bs[..n]);
    var rest := FlattenSplit(bs, n);
    ListingParts(s, d, l, rest);
    if !protect { ReadOnlyPrefix(s, l, rest); }
  }

  lemma ReadOnlyPrefix(s: State, l: seq<Entry>, rest: seq<Entry>)
    requires AllReadOnly(s, PagesOf(l + rest))
    ensures AllReadOnly(s, PagesOf(l))
  {
    forall i | 0 <= i < |l| ensures NoWritable(s, l[i].page) {
      assert PagesOf(l + rest)[i] == l[i].page;
    }
  }

  lemma LeftOutNext(d: nat, bs: seq<seq<Entry>>, n: nat)
    requires n < |bs|
    ensures AllLeftOut(d, bs[..n + 1]) == AllLeftOut(d, bs[..n]) + LeftOut(d, OffsetsOf(bs[n]))
  {
    assert bs[..n + 1][..n] == bs[..n];
  }

  /** All batches in turn. Exactly the ends of runs of more than 256 pages do not reach the device,
      and the stores to every other block are kept. */
  method SyncAll(s0: State, d: nat, protect: bool, batches: seq<seq<Entry>>, ghost mem: Memory) returns (s: State)
    requires Inv(s0, mem) && Listing(s0, d, KWayMerge.Flatten(batches))
    requires !protect ==> AllReadOnly(s0, PagesOf(KWayMerge.Flatten(batches)))
    ensures Inv(s, mem - AllLeftOut(d, batches)) && SyncedSoFar(s0, s, KWayMerge.Flatten(batches))
    ensures Delivered(s0, s.disk, d, KWayMerge.Flatten(batches), AllLeftOut(d, batches))
  {
    s := s0;
    ReadOnlyNone(s0.maps);
    TailGainsNothing(s0.clean, s0.pages);
    QueuesLoseNothing(s0.dirty);
    ghost var done, lost := [], {};
    assert mem - {} == mem;
    for n := 0 to |batches|
      invariant done == KWayMerge.Flatten(batches[..n]) && lost == AllLeftOut(d, batches[..n])
      invariant Inv(s, mem - lost) && SyncedSoFar(s0, s, done)
      invariant Delivered(s0, s.disk, d, done, lost)
    {
      BatchListed(s0, d, batches, n, protect);
      LeftOutNext(d, batches, n);
      ghost var more := LeftOut(d, OffsetsOf(batches[n]));
      s := SyncNext(s0, s, d, protect, done, batches[n], lost, mem - lost);
      assert mem - lost - more == mem - (lost + more);
      lost := lost + more;
      done := done + batches[n];
    }
    assert batches[..|batches|] == batches;
  }

  // ---- the whole of it -----------------------------------------------------------------------

  /** No other thread is at work on pvd d or on any dirty tree. */
  ghost predicate Still(s: State, d: nat) {
    && (forall p :: 0 <= p < |s.pages| && s.pages[p].inUse && s.pages[p].pvd == d ==> !s.pages[p].locked)
    && (forall e :: 0 <= e < |s.hands| ==> s.hands[e].Empty?)
  }

  /** The trees of pvd d, each as its entries in offset order. */
  ghost predicate Lists(ts: seq<seq<Entry>>, s: State, d: nat) {
    && |ts| == |s.trees|
    && (forall c :: 0 <= c < |ts| ==> KWayMerge.Increasing(ts[c]))
    && (forall c, e :: 0 <= c < |ts| ==> (e in ts[c] <==> InShard(s.trees[c], d, e)))
  }

  predicate InShard(m: map<Key, PageId>, d: nat, e: Entry) {
    Key(d, e.offset) in m && m[Key(d, e.offset)] == e.page
  }

  lemma TreesListed(ts: seq<seq<Entry>>, s: State, d: nat)
    requires Structure(s) && Lists(ts, s, d)
    ensures KWayMerge.Trees(ts)
    ensures forall e :: KWayMerge.Somewhere(ts, e) <==>
            Has(s.trees, Key(d, e.offset)) && Get(s.trees, Key(d, e.offset)) == e.page
  {
    assert Holds(Trees, s);
    forall c, e | 0 <= c < |ts| && e in ts[c] ensures Shard(e.offset, |ts|) == c {
      assert InShard(s.trees[c], d, e);
    }
    forall e
      ensures KWayMerge.Somewhere(ts, e) <==> Has(s.trees, Key(d, e.offset)) && Get(s.trees, Key(d, e.offset)) == e.page
    {
      var c := Shard(e.offset, |ts|);
      assert e in ts[c] <==> InShard(s.trees[c], d, e);
    }
  }

  /** Whatever increasing sequence lists exactly those entries is a listing of pending pages. */
  lemma ListsPending(s: State, d: nat, l: seq<Entry>)
    requires Structure(s) && Still(s, d) && KWayMerge.Increasing(l)
    requires forall e :: e in l ==> Has(s.trees, Key(d, e.offset)) && Get(s.trees, Key(d, e.offset)) == e.page
    ensures Listing(s, d, l)
  {
    forall i | 0 <= i < |l| ensures Names(s, d, l[i]) {
      var e: Entry := l[i];
      assert e in l;
      TreeEntry(s, Key(d, e.offset));
      Local(s, e.page);
      assert Holds(Hands, s);
    }
  }

  /** After everything in d's trees has been synced, they are empty and all its pages are clean. */
  lemma AllSynced(s0: State, s: State, d: nat, l: seq<Entry>)
    requires Structure(s0) && Still(s0, d) && SyncedSoFar(s0, s, l)
    requires forall e :: e in l <==> Has(s0.trees, Key(d, e.offset)) && Get(s0.trees, Key(d, e.offset)) == e.page
    ensures forall o: nat :: !Has(s.trees, Key(d, o))
    ensures AllClean(s, d)
  {
    forall o: nat ensures !Has(s.trees, Key(d, o)) {
      assert StillIn(s0, s, PagesOf(l), Key(d, o));
      if Has(s0.trees, Key(d, o)) { Listed(s0, d, l, KWayMerge.Entry(o, Get(s0.trees, Key(d, o)))); }
    }
    assert PagesOf(l)[..|l|] == PagesOf(l);
    forall p | 0 <= p < |s.pages| && s.pages[p].inUse && s.pages[p].pvd == d
      ensures s.pages[p].phase == Idle && !s.pages[p].dirty
    {
      PageSynced(s0, s, d, l, p);
    }
  }

  lemma Listed(s0: State, d: nat, l: seq<Entry>, e: Entry)
    requires e in l
    ensures e.page in PagesOf(l)
  {
    var i :| 0 <= i < |l| && l[i] == e;
    assert PagesOf(l)[i] == e.page;
  }

  lemma PageSynced(s0: State, s: State, d: nat, l: seq<Entry>, p: PageId)
    requires Structure(s0) && Still(s0, d) && SyncedSoFar(s0, s, l)
    requires forall e :: e in l <==> Has(s0.trees, Key(d, e.offset)) && Get(s0.trees, Key(d, e.offset)) == e.page
    requires p < |s.pages| && s.pages[p].inUse && s.pages[p].pvd == d
    ensures s.pages[p].phase == Idle && !s.pages[p].dirty
  {
    var ps := PagesOf(l);
    assert ps[..|l|] == ps;
    if p in ps {
      var i :| 0 <= i < |ps| && ps[i] == p;
      assert s.pages[ps[i]] == Evicted(s0.pages[ps[i]]);
    } else {
      assert s.pages[p] == s0.pages[p];
      Local(s0, p);
      ExactlyOneQueue(s0, p);
      if s0.pages[p].dirty { Listed(s0, d, l, KWayMerge.Entry(s0.pages[p].index, p)); }
    }
  }

  /** No mapping of d allows stores. */
  ghost predicate ReadOnly(s: State, d: nat) {
    forall m :: m in s.maps && m.key.dev == d ==> !m.writable
  }

  lemma ReadOnlyListed(s: State, d: nat, l: seq<Entry>)
    requires Structure(s) && ReadOnly(s, d) && Listing(s, d, l)
    ensures AllReadOnly(s, PagesOf(l))
  {
    assert Holds(PageTables, s);
    forall i, m | 0 <= i < |l| && m in s.maps && m.page == l[i].page ensures !m.writable {
      assert Names(s, d, l[i]) && MappingOk(s.pages, m);
    }
  }

  /** The listing of exactly the dirty pages of d, cut into batches of 512. */
  ghost predicate DirtyBatches(s: State, d: nat, bs: seq<seq<Entry>>) {
    && KWayMerge.Batched(bs) && KWayMerge.Increasing(KWayMerge.Flatten(bs))
    && forall e :: e in KWayMerge.Flatten(bs) <==>
       Has(s.trees, Key(d, e.offset)) && Get(s.trees, Key(d, e.offset)) == e.page
  }

  /** All pages of d are clean and at rest. */
  ghost predicate AllClean(s: State, d: nat) {
    forall p :: 0 <= p < |s.pages| && s.pages[p].inUse && s.pages[p].pvd == d ==>
      s.pages[p].phase == Idle && !s.pages[p].dirty
  }

  /** What is on the device after an fsync of d: every block whose stores were kept as last stored;
      and a block left out exactly if the device held that before. */
  ghost predicate Durability(s0: State, s: State, mem: Memory, d: nat, lost: set<Key>) {
    && (forall k :: k in mem && k.dev == d && k !in lost ==> Block(s.disk, k) == mem[k])
    && (forall k :: k in mem && k in lost ==> (Block(s.disk, k) == mem[k] <==> Block(s0.disk, k) == mem[k]))
  }

  /** fsync of pvd d, alone: its dirty trees are empty, its pages clean and unlocked with their
      contents; exactly the ends of runs of more than 256 pages are left out of the writes, and every
      other block of d is on the device as it was last stored. */
  method DmapFsync(s0: State, d: nat, protect: bool, trees: KWayMerge.DirtyTrees, ghost mem: Memory)
      returns (s: State, ghost batches: seq<seq<Entry>>)
    requires Inv(s0, mem) && Still(s0, d) && Lists(trees.tree, s0, d) && |s0.trees| <= 64
    requires !protect ==> ReadOnly(s0, d)
    modifies trees
    ensures DirtyBatches(s0, d, batches) && SyncedSoFar(s0, s, KWayMerge.Flatten(batches))
    ensures Inv(s, mem - AllLeftOut(d, batches))
    ensures Delivered(s0, s.disk, d, KWayMerge.Flatten(batches), AllLeftOut(d, batches))
    ensures Durability(s0, s, mem, d, AllLeftOut(d, batches))
    ensures AllClean(s, d) && forall o: nat :: !Has(s.trees, Key(d, o))
    ensures Complete(batches) ==> AllLeftOut(d, batches) == {}
  {
    TreesListed(trees.tree, s0, d);
    var bs := KWayMerge.WriteDirtyPages(trees);
    batches := bs;
    ListsPending(s0, d, KWayMerge.Flatten(bs));
    if !protect { ReadOnlyListed(s0, d, KWayMerge.Flatten(bs)); }
    s := SyncAll(s0, d, protect, bs, mem);
    AllSynced(s0, s, d, KWayMerge.Flatten(bs));
    IsDurable(s0, s, mem, d, KWayMerge.Flatten(bs), AllLeftOut(d, bs));
    if Complete(bs) { NoneLeftOut(d, bs); }
  }

  lemma IsDurable(s0: State, s: State, mem: Memory, d: nat, l: seq<Entry>, lost: set<Key>)
    requires Inv(s, mem - lost) && AllClean(s, d) && Delivered(s0, s.disk, d, l, lost)
    ensures Durability(s0, s, mem, d, lost)
  {
    forall k | k in mem && k.dev == d && k !in lost ensures Block(s.disk, k) == mem[k] {
      SyncDurable(s, mem - lost, k);
    }
    forall k | k in mem && k in lost ensures Block(s.disk, k) == Block(s0.disk, k) {
      var i :| 0 <= i < |l| && OffsetsOf(l)[i] == k.off;
      assert EntryDelivered(s0, s.disk, d, l[i], lost);
      assert Key(d, l[i].offset) == k;
    }
  }

  /** What fsync promises: with its pages clean, every block of d that is not lost is durable. */
  lemma SyncDurable(s: State, mem: Memory, k: Key)
    requires Inv(s, mem) && k in mem
    requires AllClean(s, k.dev)
    ensures Block(s.disk, k) == mem[k]
  {
    if Has(s.rdx, k) {
      IndexEntry(s, k);
      Local(s, Get(s.rdx, k));
    }
    Durable(s, mem, k);
  }
}
