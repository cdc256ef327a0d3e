/** write_dirty_pages: the per-CPU dirty trees of one pvd are merged through the min-heap into
    batches of at most 512 pages. Nothing else dirties or evicts pages meanwhile, so every trylock
    succeeds. A tree is its pages in increasing offset, the order in which rb_first yields them. */
module KWayMerge {
  import opened Params
  import opened MinHeap

  datatype Entry = Entry(offset: nat, page: nat)

  predicate Increasing(s: seq<Entry>) {
    forall i, j :: 0 <= i < j < |s| ==> s[i].offset < s[j].offset
  }

  /** Tree c holds, in increasing order, only offsets of shard c. */
  ghost predicate Trees(ts: seq<seq<Entry>>) {
    && (forall c :: 0 <= c < |ts| ==> Increasing(ts[c]))
    && (forall c, e :: 0 <= c < |ts| && e in ts[c] ==> e.offset % |ts| == c)
  }

  ghost predicate Somewhere(ts: seq<seq<Entry>>, e: Entry) {
    exists c :: 0 <= c < |ts| && e in ts[c]
  }

  // ---- the heap holds the head of every lane -------------------------------------------------

  /** A lane is a tree together with the node of that tree still in the heap; x is its head. */
  predicate IsHead(lanes: seq<seq<Entry>>, n: nat, x: Node) {
    x.cpu < n <= |lanes| && lanes[x.cpu] != [] && Entry(x.offset, x.page) == lanes[x.cpu][0]
  }

  /** The heap holds the heads of the first n lanes, each once, and nothing else. */
  ghost predicate HoldsHeads(contents: multiset<Node>, lanes: seq<seq<Entry>>, n: nat) {
    forall x :: contents[x] == if IsHead(lanes, n, x) then 1 else 0
  }

  /** What is left in the trees when the first n heads are in the heap. */
  ghost predicate Rest(ts: seq<seq<Entry>>, lanes: seq<seq<Entry>>, n: nat) {
    && |ts| == |lanes| && n <= |lanes|
    && forall c :: 0 <= c < |ts| ==> ts[c] == if c < n && lanes[c] != [] then lanes[c][1..] else lanes[c]
  }

  /** A head of least offset is the least entry of all lanes. */
  lemma LeastHead(lanes: seq<seq<Entry>>, x: Node, c: nat, e: Entry)
    requires Trees(lanes) && IsHead(lanes, |lanes|, x) && c < |lanes| && e in lanes[c]
    requires forall y :: IsHead(lanes, |lanes|, y) ==> x.offset <= y.offset
    ensures x.offset <= e.offset && (e.offset == x.offset ==> c == x.cpu && e == lanes[c][0])
  {
    var h := Node(c, lanes[c][0].offset, lanes[c][0].page);
    assert IsHead(lanes, |lanes|, h);
    var i :| 0 <= i < |lanes[c]| && lanes[c][i] == e;
    assert lanes[c][0] in lanes[c] && lanes[x.cpu][0] in lanes[x.cpu];
    assert Increasing(lanes[c]);
  }

  function Total(ts: seq<seq<Entry>>): nat { if ts == [] then 0 else |ts[0]| + Total(ts[1..]) }

  lemma {:induction false} TotalShrinks(ts: seq<seq<Entry>>, c: nat)
    requires c < |ts| && ts[c] != []
    ensures Total(ts[c := ts[c][1..]]) == Total(ts) - 1
  {
    var t := ts[c := ts[c][1..]];
    if c > 0 {
      TotalShrinks(ts[1..], c - 1);
      assert t[1..] == ts[1..][c - 1 := ts[1..][c - 1][1..]];
    } else {
      assert t[1..] == ts[1..];
    }
  }

  /** x is a head, and no head is smaller. */
  ghost predicate IsLeast(lanes: seq<seq<Entry>>, x: Node) {
    IsHead(lanes, |lanes|, x) && forall y :: IsHead(lanes, |lanes|, y) ==> x.offset <= y.offset
  }

  /** Dropping the least head leaves lanes that are all above it. */
  lemma AdvanceAbove(lanes: seq<seq<Entry>>, x: Node)
    requires Trees(lanes) && IsLeast(lanes, x)
    ensures var next := lanes[x.cpu := lanes[x.cpu][1..]];
            forall c, e :: 0 <= c < |next| && e in next[c] ==> x.offset < e.offset && e in lanes[c]
  {
    var next := lanes[x.cpu := lanes[x.cpu][1..]];
    assert lanes[x.cpu] == [Entry(x.offset, x.page)] + next[x.cpu];
    assert Increasing(lanes[x.cpu]);
    forall c, e: Entry | 0 <= c < |next| && e in next[c] ensures x.offset < e.offset && e in lanes[c] {
      LeastHead(lanes, x, c, e);
      if c == x.cpu {
        var i :| 0 <= i < |next[c]| && next[c][i] == e;
        assert lanes[c][i + 1] == e;
      }
    }
  }

  lemma AdvanceTrees(lanes: seq<seq<Entry>>, c: nat)
    requires Trees(lanes) && c < |lanes| && lanes[c] != []
    ensures Trees(lanes[c := lanes[c][1..]])
  {
    var next := lanes[c := lanes[c][1..]];
    assert Increasing(lanes[c]);
    forall b, e: Entry | 0 <= b < |next| && e in next[b] ensures e.offset % |next| == b { assert e in lanes[b]; }
  }

  lemma AdvanceSame(lanes: seq<seq<Entry>>, c: nat, h: Entry, e: Entry)
    requires c < |lanes| && lanes[c] != [] && h == lanes[c][0]
    ensures Somewhere(lanes, e) <==> e == h || Somewhere(lanes[c := lanes[c][1..]], e)
  {
    var next := lanes[c := lanes[c][1..]];
    assert lanes[c] == [h] + next[c];
    if Somewhere(lanes, e) && e != h {
      var b :| 0 <= b < |lanes| && e in lanes[b];
      assert e in next[b];
    }
    if e == h { assert e in lanes[c]; }
    if Somewhere(next, e) {
      var b :| 0 <= b < |next| && e in next[b];
      assert e in lanes[b];
    }
  }

  /** All of it: what is left is in order, above x, and together with x as much as before. */
  lemma Advance(lanes: seq<seq<Entry>>, x: Node)
    requires Trees(lanes) && IsLeast(lanes, x)
    ensures var next := lanes[x.cpu := lanes[x.cpu][1..]];
            && Trees(next)
            && (forall c, e :: 0 <= c < |next| && e in next[c] ==> x.offset < e.offset)
            && (forall e :: Somewhere(lanes, e) <==> e == Entry(x.offset, x.page) || Somewhere(next, e))
  {
    AdvanceAbove(lanes, x);
    AdvanceTrees(lanes, x.cpu);
    forall e
      ensures Somewhere(lanes, e) <==> e == Entry(x.offset, x.page) || Somewhere(lanes[x.cpu := lanes[x.cpu][1..]], e)
    {
      AdvanceSame(lanes, x.cpu, Entry(x.offset, x.page), e);
    }
  }

  /** The head of a lane, as the heap holds it. */
  function HeadNodes(lane: seq<Entry>, c: nat): multiset<Node> {
    if lane == [] then multiset{} else multiset{Node(c, lane[0].offset, lane[0].page)}
  }

  /** Taking a head out and its successor in keeps exactly the heads in the heap. */
  lemma HeadsAdvance(contents: multiset<Node>, lanes: seq<seq<Entry>>, n: Node)
    requires HoldsHeads(contents, lanes, |lanes|) && IsHead(lanes, |lanes|, n)
    ensures var next := lanes[n.cpu := lanes[n.cpu][1..]];
            HoldsHeads(contents - multiset{n} + HeadNodes(next[n.cpu], n.cpu), next, |next|)
  {
    var next := lanes[n.cpu := lanes[n.cpu][1..]];
    var after := contents - multiset{n} + HeadNodes(next[n.cpu], n.cpu);
    forall x ensures after[x] == if IsHead(next, |next|, x) then 1 else 0 {
      assert contents[x] == if IsHead(lanes, |lanes|, x) then 1 else 0;
    }
  }

  /** One more lane's head in the heap. */
  lemma HeadsSeed(contents: multiset<Node>, lanes: seq<seq<Entry>>, c: nat)
    requires c < |lanes| && HoldsHeads(contents, lanes, c)
    ensures HoldsHeads(contents + HeadNodes(lanes[c], c), lanes, c + 1)
  {
    var after := contents + HeadNodes(lanes[c], c);
    forall x ensures after[x] == if IsHead(lanes, c + 1, x) then 1 else 0 {
      assert contents[x] == if IsHead(lanes, c, x) then 1 else 0;
    }
  }

  // ---- the program ---------------------------------------------------------------------------

  class DirtyTrees {
    var tree: seq<seq<Entry>>

    /** rb_first, trylock, heap insertion and rb_erase under one tree lock. */
    method Pull(heap: Heap, c: nat)
      requires c < |tree| && heap.Valid() && heap.size < MAX_CPUS
      modifies this, heap, heap.nodes
      ensures heap.Valid() && heap.size <= old(heap.size) + 1
      ensures tree == old(tree)[c := if old(tree[c]) == [] then [] else old(tree[c])[1..]]
      ensures heap.Contents() == old(heap.Contents()) + HeadNodes(old(tree[c]), c)
    {
      if tree[c] != [] {
        var e := tree[c][0];
        heap.Insert(Node(c, e.offset, e.page));
        tree := tree[c := tree[c][1..]];
      }
    }
  }

  function Flatten(bs: seq<seq<Entry>>): seq<Entry> {
    if bs == [] then [] else Flatten(bs[..|bs| - 1]) + bs[|bs| - 1]
  }

  lemma FlattenAppend(bs: seq<seq<Entry>>, b: seq<Entry>)
    ensures Flatten(bs + [b]) == Flatten(bs) + b
  {
    assert (bs + [b])[..|bs|] == bs;
  }

  /** No batch is empty or longer than 512 pages, and all but the last are full. */
  predicate Batched(bs: seq<seq<Entry>>) {
    && (forall i :: 0 <= i < |bs| ==> 0 < |bs[i]| <= 512)
    && (forall i :: 0 <= i < |bs| - 1 ==> |bs[i]| == 512)
  }

  /** The first loop: one node of every non-empty tree goes into the heap. */
  method Seed(d: DirtyTrees, heap: Heap)
    requires 0 < |d.tree| <= 64 && Trees(d.tree) && heap.Valid() && heap.size == 0
    modifies d, heap, heap.nodes
    ensures heap.Valid() && heap.size <= |d.tree|
    ensures Rest(d.tree, old(d.tree), |d.tree|) && HoldsHeads(heap.Contents(), old(d.tree), |d.tree|)
  {
    ghost var lanes := d.tree;
    assert heap.nodes[..0] == [];
    for cpu := 0 to |d.tree|
      invariant heap.Valid() && heap.size <= cpu <= |d.tree| == |lanes|
      invariant Rest(d.tree, lanes, cpu) && HoldsHeads(heap.Contents(), lanes, cpu)
    {
      ghost var before := heap.Contents();
      d.Pull(heap, cpu);
      HeadsSeed(before, lanes, cpu);
    }
  }

  /** One round of the second loop on the heap and the trees: the least remaining page comes out. */
  method Next(d: DirtyTrees, heap: Heap, ghost lanes: seq<seq<Entry>>) returns (e: Entry, ghost next: seq<seq<Entry>>)
    requires heap.Valid() && 0 < heap.size <= MAX_CPUS && Trees(lanes)
    requires Rest(d.tree, lanes, |lanes|) && HoldsHeads(heap.Contents(), lanes, |lanes|)
    modifies d, heap, heap.nodes
    ensures heap.Valid() && heap.size <= old(heap.size)
    ensures |next| == |lanes| && Trees(next) && Total(next) < Total(lanes)
    ensures Rest(d.tree, next, |next|) && HoldsHeads(heap.Contents(), next, |next|)
    ensures forall c, x :: 0 <= c < |next| && x in next[c] ==> e.offset < x.offset
    ensures forall x :: Somewhere(lanes, x) <==> x == e || Somewhere(next, x)
  {
    ghost var before := heap.Contents();
    var n := heap.DeleteMin();
    LeastOfHeap(before, lanes, n);
    e := Entry(n.offset, n.page);
    next := lanes[n.cpu := lanes[n.cpu][1..]];
    Advance(lanes, n);
    TotalShrinks(lanes, n.cpu);
    RestAdvance(d.tree, lanes, n);
    d.Pull(heap, n.cpu);
    HeadsAdvance(before, lanes, n);
  }

  /** The least node of the heap is a head, and the least of them. */
  lemma LeastOfHeap(contents: multiset<Node>, lanes: seq<seq<Entry>>, n: Node)
    requires HoldsHeads(contents, lanes, |lanes|) && n in contents
    requires forall m :: m in contents ==> n.offset <= m.offset
    ensures IsLeast(lanes, n)
  {
    assert contents[n] > 0;
    forall y | IsHead(lanes, |lanes|, y) ensures n.offset <= y.offset { assert contents[y] == 1; }
  }

  /** The tree of the head taken out holds the rest of that lane. */
  lemma RestAdvance(ts: seq<seq<Entry>>, lanes: seq<seq<Entry>>, n: Node)
    requires Rest(ts, lanes, |lanes|) && IsHead(lanes, |lanes|, n)
    ensures var lane := lanes[n.cpu][1..];
            && ts[n.cpu] == lane
            && Rest(ts[n.cpu := if lane == [] then [] else lane[1..]], lanes[n.cpu := lane], |lanes|)
  {
  }

  /** Adding one page to the batch array, and submitting the array once it holds 512 pages. */
  method Collect(batches: seq<seq<Entry>>, pages: array<Entry>, numPages: nat, e: Entry)
      returns (submitted: seq<seq<Entry>>, n: nat)
    requires pages.Length == MAX_BATCH && numPages < MAX_BATCH && FullBatches(batches)
    modifies pages
    ensures n < MAX_BATCH && FullBatches(submitted)
    ensures Flatten(submitted) + pages[..n] == old(Flatten(batches) + pages[..numPages]) + [e]
  {
    submitted, n := batches, numPages;
    pages[n] := e;
    n := n + 1;
    assert pages[..n] == old(pages[..numPages]) + [e];
    if n == MAX_BATCH {
      FlattenAppend(batches, pages[..n]);
      submitted := batches + [pages[..n]];
      n := 0;
    }
  }

  /** The remainder after the loop, if any, is submitted as a last short batch. */
  method Submit(batches: seq<seq<Entry>>, pages: array<Entry>, n: nat) returns (submitted: seq<seq<Entry>>)
    requires pages.Length == MAX_BATCH && n < MAX_BATCH && FullBatches(batches)
    ensures Batched(submitted) && Flatten(submitted) == Flatten(batches) + pages[..n]
  {
    submitted := batches;
    if n > 0 {
      FlattenAppend(batches, pages[..n]);
      submitted := batches + [pages[..n]];
    }
  }

  /** Loop state of the merge: what is in the heap, in the trees and already out. */
  ghost predicate Merging(d: DirtyTrees, heap: Heap, done: seq<Entry>, lanes: seq<seq<Entry>>, all: seq<seq<Entry>>)
    reads d, heap, heap.nodes
  {
    && heap.Valid() && heap.size <= MAX_CPUS && Trees(lanes) && |lanes| == |all|
    && Rest(d.tree, lanes, |lanes|) && HoldsHeads(heap.Contents(), lanes, |lanes|)
    && Merged(done, lanes, all)
  }

  /** The second loop as a whole, one merged page at a time. */
  method MergeRound(d: DirtyTrees, heap: Heap, ghost done: seq<Entry>, ghost lanes: seq<seq<Entry>>,
                    ghost all: seq<seq<Entry>>)
      returns (e: Entry, ghost next: seq<seq<Entry>>)
    requires Merging(d, heap, done, lanes, all) && heap.size != 0
    modifies d, heap, heap.nodes
    ensures Merging(d, heap, done + [e], next, all) && Total(next) < Total(lanes)
  {
    e, next := Next(d, heap, lanes);
    assert Somewhere(lanes, e);
    MergeOne(done, lanes, all, e, next);
  }

  /** What has been collected: full batches, and a part of the next one in the array. */
  ghost predicate Buffered(batches: seq<seq<Entry>>, pages: array<Entry>, n: nat, done: seq<Entry>)
    reads pages
  {
    pages.Length == MAX_BATCH && n < MAX_BATCH && FullBatches(batches) && done == Flatten(batches) + pages[..n]
  }

  /** One iteration of the second loop: the least page leaves the heap for the batch array. */
  method MergePage(d: DirtyTrees, heap: Heap, batches: seq<seq<Entry>>, pages: array<Entry>, n: nat,
                   ghost done: seq<Entry>, ghost lanes: seq<seq<Entry>>, ghost all: seq<seq<Entry>>)
      returns (batches': seq<seq<Entry>>, n': nat, ghost done': seq<Entry>, ghost lanes': seq<seq<Entry>>)
    requires Merging(d, heap, done, lanes, all) && heap.size != 0 && Buffered(batches, pages, n, done)
    modifies d, heap, heap.nodes, pages
    ensures Merging(d, heap, done', lanes', all) && Total(lanes') < Total(lanes)
    ensures Buffered(batches', pages, n', done')
  {
    var e;
    e, lanes' := MergeRound(d, heap, done, lanes, all);
    batches', n' := Collect(batches, pages, n, e);
    done' := done + [e];
  }

  /** The second loop: pages leave the heap for the batch array until both heap and trees are empty. */
  method Drain(d: DirtyTrees, heap: Heap, ghost all: seq<seq<Entry>>) returns (batches: seq<seq<Entry>>)
    requires Merging(d, heap, [], all, all)
    modifies d, heap, heap.nodes
    ensures |d.tree| == |all| && forall c :: 0 <= c < |d.tree| ==> d.tree[c] == []
    ensures Increasing(Flatten(batches)) && Batched(batches)
    ensures forall e :: e in Flatten(batches) <==> Somewhere(all, e)
  {
    ghost var lanes := all;
    var pages := new Entry[MAX_BATCH](_ => Entry(0, 0));
    var numPages: nat := 0;
    batches := [];
    ghost var done := [];
    while heap.size != 0
      invariant Merging(d, heap, done, lanes, all) && Buffered(batches, pages, numPages, done)
      decreases Total(lanes)
    {
      batches, numPages, done, lanes := MergePage(d, heap, batches, pages, numPages, done, lanes, all);
    }
    Finished(d, heap, done, lanes, all);
    batches := Submit(batches, pages, numPages);
  }

  /** With the heap empty nothing is left in the trees, and everything is out. */
  lemma Finished(d: DirtyTrees, heap: Heap, done: seq<Entry>, lanes: seq<seq<Entry>>, all: seq<seq<Entry>>)
    requires Merging(d, heap, done, lanes, all) && heap.size == 0
    ensures |d.tree| == |all| && forall c :: 0 <= c < |d.tree| ==> d.tree[c] == []
    ensures Increasing(done) && forall e :: e in done <==> Somewhere(all, e)
  {
    assert heap.nodes[..0] == [];
    NoHeads(heap.Contents(), lanes);
    AllOut(done, lanes, all);
  }

  /** The whole of write_dirty_pages: every page of every tree is written exactly once, in strictly
      increasing offset, in batches of at most 512, and every tree ends up empty. */
  method WriteDirtyPages(d: DirtyTrees) returns (batches: seq<seq<Entry>>)
    requires 0 < |d.tree| <= 64 && Trees(d.tree)
    modifies d
    ensures |d.tree| == |old(d.tree)| && forall c :: 0 <= c < |d.tree| ==> d.tree[c] == []
    ensures Increasing(Flatten(batches)) && Batched(batches)
    ensures forall e :: e in Flatten(batches) <==> Somewhere(old(d.tree), e)
  {
    var heap := new Heap();
    Seed(d, heap);
    batches := Drain(d, heap, old(d.tree));
  }

  predicate FullBatches(bs: seq<seq<Entry>>) { forall i :: 0 <= i < |bs| ==> |bs[i]| == MAX_BATCH }

  /** What has come out is increasing and below everything left, and nothing is lost or added. */
  ghost predicate Merged(done: seq<Entry>, lanes: seq<seq<Entry>>, all: seq<seq<Entry>>) {
    && Increasing(done)
    && (forall c, e, i :: 0 <= c < |lanes| && e in lanes[c] && 0 <= i < |done| ==> done[i].offset < e.offset)
    && (forall e :: Somewhere(all, e) <==> e in done || Somewhere(lanes, e))
  }

  lemma MergeOne(done: seq<Entry>, lanes: seq<seq<Entry>>, all: seq<seq<Entry>>, e: Entry, next: seq<seq<Entry>>)
    requires Merged(done, lanes, all) && Somewhere(lanes, e) && |next| == |lanes|
    requires forall c, x :: 0 <= c < |next| && x in next[c] ==> e.offset < x.offset
    requires forall x :: Somewhere(lanes, x) <==> x == e || Somewhere(next, x)
    ensures Merged(done + [e], next, all)
  {
    var c :| 0 <= c < |lanes| && e in lanes[c];
    var more := done + [e];
    forall b, x: Entry, i | 0 <= b < |next| && x in next[b] && 0 <= i < |more| ensures more[i].offset < x.offset {
      if i < |done| {
        assert Somewhere(next, x);
        var a :| 0 <= a < |lanes| && x in lanes[a];
      }
    }
    forall x ensures x in more <==> x in done || x == e {
      assert more[|done|] == e;
    }
  }

  lemma NoHeads(contents: multiset<Node>, lanes: seq<seq<Entry>>)
    requires HoldsHeads(contents, lanes, |lanes|) && contents == multiset{}
    ensures forall c :: 0 <= c < |lanes| ==> lanes[c] == []
  {
    forall c | 0 <= c < |lanes| ensures lanes[c] == [] {
      var h := if lanes[c] == [] then Node(c, 0, 0) else Node(c, lanes[c][0].offset, lanes[c][0].page);
      assert contents[h] == 0;
      assert !IsHead(lanes, |lanes|, h);
    }
  }

  lemma AllOut(done: seq<Entry>, lanes: seq<seq<Entry>>, all: seq<seq<Entry>>)
    requires Merged(done, lanes, all) && forall c :: 0 <= c < |lanes| ==> lanes[c] == []
    ensures Increasing(done) && forall e :: e in done <==> Somewhere(all, e)
  {
  }

  // ---- the reference: each page once, in offset order ----------------------------------------

  /** The last entry of an increasing listing is above all the others, and is not among them. */
  lemma Last(a: seq<Entry>, e: Entry)
    requires Increasing(a) && a != []
    ensures e in a ==> e.offset <= a[|a| - 1].offset
    ensures Increasing(a[..|a| - 1])
    ensures e in a[..|a| - 1] <==> e in a && e != a[|a| - 1]
  {
    var n := |a| - 1;
    assert a == a[..n] + [a[n]];
    if e in a[..n] {
      var i :| 0 <= i < n && a[i] == e;
    }
  }

  /** A set of pages has only one strictly increasing listing, so the merge is the simple sort. */
  lemma {:induction false} OneIncreasingListing(a: seq<Entry>, b: seq<Entry>)
    requires Increasing(a) && Increasing(b) && forall e :: e in a <==> e in b
    ensures a == b
    decreases |a|
  {
    if a == [] || b == [] {
      if a != [] { Listed(a); }
      if b != [] { Listed(b); }
    } else {
      var x: Entry, y: Entry := a[|a| - 1], b[|b| - 1];
      assert x in a && y in b;
      SameLast(a, b);
      var a', b' := a[..|a| - 1], b[..|b| - 1];
      forall e ensures e in a' <==> e in b' {
        Last(a, e);
        Last(b, e);
      }
      Last(a, x);
      Last(b, x);
      OneIncreasingListing(a', b');
      assert a == a' + [x] && b == b' + [x];
    }
  }

  lemma SameLast(a: seq<Entry>, b: seq<Entry>)
    requires Increasing(a) && Increasing(b) && a != [] && b != []
    requires a[|a| - 1] in b && b[|b| - 1] in a
    ensures a[|a| - 1] == b[|b| - 1]
  {
    var x, y := a[|a| - 1], b[|b| - 1];
    Last(a, y);
    Last(b, x);
    var i :| 0 <= i < |a| && a[i] == y;
  }

  lemma Listed(a: seq<Entry>)
    requires a != []
    ensures exists e :: e in a
  {
    assert a[0] in a;
  }
}
