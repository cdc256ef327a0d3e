/** What a write batch leaves on the device: write_bio_async and write_file_async. Each request
    goes to consecutive blocks from its first page's offset on, whatever pages are in it. */
module WriteBack {
  import opened Params
  import opened Placement
  import opened Lifecycle
  import opened Coalesce

  /** The two devices agree on block k. */
  predicate Unchanged(disk: map<Key, Data>, disk': map<Key, Data>, k: Key) {
    (k in disk' <==> k in disk) && (k in disk ==> disk'[k] == disk[k])
  }

  predicate HoldsBlock(disk: map<Key, Data>, k: Key, v: Data) { k in disk && disk[k] == v }

  predicate InOrder(offs: seq<nat>) {
    forall i, j :: 0 <= i < j < |offs| ==> offs[i] < offs[j]
  }

  /** Of the batch, exactly the pages in `done` have reached the device; no other block changed. */
  ghost predicate Reached(disk: map<Key, Data>, disk': map<Key, Data>, d: nat, offs: seq<nat>, data: seq<Data>,
                          done: set<nat>)
    requires |data| == |offs|
  {
    && (forall j :: 0 <= j < |offs| ==> PageReached(disk, disk', Key(d, offs[j]), data[j], j in done))
    && (forall k :: BlockKept(disk, disk', d, offs, k))
  }

  /** A page of the batch is on the new device, or its block is as it was. */
  predicate PageReached(disk: map<Key, Data>, disk': map<Key, Data>, k: Key, v: Data, written: bool) {
    if written then HoldsBlock(disk', k, v) else Unchanged(disk, disk', k)
  }

  predicate BlockKept(disk: map<Key, Data>, disk': map<Key, Data>, d: nat, offs: seq<nat>, k: Key) {
    k.dev != d || k.off !in offs ==> Unchanged(disk, disk', k)
  }

  lemma ReachOne(disk: map<Key, Data>, disk': map<Key, Data>, d: nat, offs: seq<nat>, data: seq<Data>, done: set<nat>,
                 x: nat, off: nat, done': set<nat>)
    requires |data| == |offs| && InOrder(offs) && x < |offs|
    requires Reached(disk, disk', d, offs, data, done) && off == offs[x] && done' == done + {x}
    ensures Reached(disk, disk'[Key(d, off) := data[x]], d, offs, data, done')
  {
    var more := disk'[Key(d, off) := data[x]];
    forall j | 0 <= j < |offs| ensures PageReached(disk, more, Key(d, offs[j]), data[j], j in done') {
      assert PageReached(disk, disk', Key(d, offs[j]), data[j], j in done);
      assert j != x ==> offs[j] != offs[x];
    }
    forall k ensures BlockKept(disk, more, d, offs, k) { assert BlockKept(disk, disk', d, offs, k); }
  }

  ghost predicate CoveredBelow(offs: seq<nat>, n: nat, j: nat) {
    exists i :: 0 <= i < n && Covers(offs, i, j)
  }

  /** The pages of the requests headed by the first n pages. */
  ghost function Requested(offs: seq<nat>, n: nat): set<nat> {
    set j: nat | j < |offs| && CoveredBelow(offs, n, j)
  }

  /** The indices of `count` pages from page i on. */
  function Span(i: nat, count: nat): (r: set<nat>)
    ensures forall j :: j in r <==> i <= j < i + count
  {
    if count == 0 then {} else Span(i, count - 1) + {i + count - 1}
  }

  predicate Contiguous(offs: seq<nat>, i: nat, count: nat) {
    i + count <= |offs| && forall j :: i <= j < i + count ==> offs[j] == offs[i] + (j - i)
  }

  /** One request: its pages go to consecutive blocks from the offset of page i on. */
  method WriteRequest(disk: map<Key, Data>, d: nat, offs: seq<nat>, data: seq<Data>, i: nat, count: nat,
                      ghost disk0: map<Key, Data>, ghost done: set<nat>)
      returns (disk': map<Key, Data>)
    requires |data| == |offs| && InOrder(offs) && Contiguous(offs, i, count)
    requires Reached(disk0, disk, d, offs, data, done)
    ensures Reached(disk0, disk', d, offs, data, done + Span(i, count))
  {
    disk' := disk;
    assert done + Span(i, 0) == done;
    for k := 0 to count
      invariant Reached(disk0, disk', d, offs, data, done + Span(i, k))
    {
      ReachNext(disk0, disk', d, offs, data, done, i, k, count);
      disk' := disk'[Key(d, offs[i] + k) := data[i + k]];
    }
  }

  lemma ReachNext(disk: map<Key, Data>, disk': map<Key, Data>, d: nat, offs: seq<nat>, data: seq<Data>,
                  done: set<nat>, i: nat, k: nat, count: nat)
    requires |data| == |offs| && InOrder(offs) && Contiguous(offs, i, count) && k < count
    requires Reached(disk, disk', d, offs, data, done + Span(i, k))
    ensures Reached(disk, disk'[Key(d, offs[i] + k) := data[i + k]], d, offs, data, done + Span(i, k + 1))
  {
    SpanNext(offs, i, k, count, done);
    ReachOne(disk, disk', d, offs, data, done + Span(i, k), i + k, offs[i] + k, done + Span(i, k + 1));
  }

  lemma SpanNext(offs: seq<nat>, i: nat, k: nat, count: nat, done: set<nat>)
    requires Contiguous(offs, i, count) && k < count
    ensures offs[i + k] == offs[i] + k && done + Span(i, k + 1) == (done + Span(i, k)) + {i + k}
  {
  }

  lemma RequestedNext(offs: seq<nat>, i: nat)
    requires i < |offs|
    ensures Requested(offs, i + 1) == Requested(offs, i) + Span(i, Count(offs, |offs|, i))
    ensures Contiguous(offs, i, Count(offs, |offs|, i))
  {
    RequestContiguous(offs, i);
    forall j | i <= j < i + Count(offs, |offs|, i) ensures offs[j] == offs[i] + (j - i) {
      assert Covers(offs, i, j);
    }
    forall j: nat
      ensures j in Requested(offs, i + 1) <==> j in Requested(offs, i) || j in Span(i, Count(offs, |offs|, i))
    {
      assert Covers(offs, i, j) <==> i <= j < i + Count(offs, |offs|, i);
    }
  }

  ghost function CoveredPages(offs: seq<nat>): set<nat> {
    set j: nat | j < |offs| && Covered(offs, j)
  }

  /** The whole batch: the device holds every page that some request covers, in its own block, and
      is otherwise untouched. */
  method WriteBatch(disk: map<Key, Data>, d: nat, offs: seq<nat>, data: seq<Data>) returns (disk': map<Key, Data>)
    requires |data| == |offs| && InOrder(offs)
    ensures Reached(disk, disk', d, offs, data, CoveredPages(offs))
  {
    disk' := disk;
    var mergeArr := ComputeMerges(offs);
    var merge := mergeArr[..];
    ghost var done := {};
    for i := 0 to |offs|
      invariant done == Requested(offs, i)
      invariant Reached(disk, disk', d, offs, data, done)
    {
      RequestedNext(offs, i);
      if merge[i] == 0 { continue; }
      disk' := WriteRequest(disk', d, offs, data, i, merge[i], disk, done);
      done := done + Span(i, merge[i]);
    }
    assert Requested(offs, |offs|) == CoveredPages(offs) by {
      forall j: nat | j < |offs| ensures j in Requested(offs, |offs|) <==> Covered(offs, j) {
        if Covered(offs, j) {
          var i :| Covers(offs, i, j);
          assert CoveredBelow(offs, |offs|, j);
        }
      }
    }
  }

  /** No run of consecutive offsets exceeds the request limit. */
  ghost predicate NoLongRun(offs: seq<nat>) {
    forall j :: 0 <= j < |offs| ==> RunLength(offs, j) <= BIO_MAX_PAGES
  }

  /** A page that is not the last of a run longer than the limit. */
  predicate Kept(offs: seq<nat>, j: nat)
    requires j < |offs|
  {
    RunLength(offs, j) <= BIO_MAX_PAGES || j < RunEnd(offs, |offs|, j)
  }

  /** After the batch a page is on the device exactly when it was there already or is not the last
      of a run longer than the limit. */
  lemma PageDurableExact(disk: map<Key, Data>, disk': map<Key, Data>, d: nat, offs: seq<nat>, data: seq<Data>, j: nat)
    requires |data| == |offs| && j < |offs| && Reached(disk, disk', d, offs, data, CoveredPages(offs))
    ensures HoldsBlock(disk', Key(d, offs[j]), data[j]) <==>
            Kept(offs, j) || HoldsBlock(disk, Key(d, offs[j]), data[j])
    ensures Kept(offs, j) <==> !exists a :: WholeRun(offs, a, j) && j - a + 1 > 256
  {
    CoveredExact(offs, j);
    assert PageReached(disk, disk', Key(d, offs[j]), data[j], j in CoveredPages(offs));
  }

  /** Every page of a batch is kept if and only if no run of its offsets is longer than the limit. */
  lemma AllKeptExact(offs: seq<nat>)
    ensures NoLongRun(offs) <==> forall j :: 0 <= j < |offs| ==> Kept(offs, j)
    ensures NoLongRun(offs) <==> forall a, b :: WholeRun(offs, a, b) ==> b - a + 1 <= 256
  {
    PartitionExact(offs);
    if j :| 0 <= j < |offs| && RunLength(offs, j) > BIO_MAX_PAGES {
      var last := RunEnd(offs, |offs|, j);
      InRun(offs, |offs|, j, last);
      assert !Kept(offs, last);
    }
  }
}
