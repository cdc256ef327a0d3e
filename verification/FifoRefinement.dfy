/** The FIFO objects of the driver do to their lists what the steps of the life-cycle do to the queues
    of the cache: insertion, the moves between clean and dirty, and the purge's dequeue. */
module FifoRefinement {
  import opened Params
  import opened Fifo
  import opened Placement
  import opened Lifecycle
  import opened Invariant
  import opened Moves
  import opened PageFifo
  import Guarantees

  /** The number of each page object. */
  type Numbering = TaggedPage -> PageId

  function Numbers(b: seq<TaggedPage>, id: Numbering): (ns: seq<PageId>)
    ensures |ns| == |b| && forall i :: 0 <= i < |b| ==> ns[i] == id(b[i])
  {
    seq(|b|, i requires 0 <= i < |b| => id(b[i]))
  }

  /** A queue of page objects as a queue of page numbers. */
  function Mirror(q: Queue<TaggedPage>, id: Numbering): Queue<PageId> {
    Queue(Numbers(q.items, id), q.size, q.maxSize)
  }

  /** No two pages of the list, nor p, have the same number. */
  ghost predicate Distinct(b: seq<TaggedPage>, p: TaggedPage, id: Numbering) {
    forall x :: x in b && id(x) == id(p) ==> x == p
  }

  lemma MirrorEnqueue(q: Queue<TaggedPage>, p: TaggedPage, id: Numbering)
    ensures Mirror(Enqueue(q, p), id) == Enqueue(Mirror(q, id), id(p))
  {
    assert Numbers(q.items + [p], id) == Numbers(q.items, id) + [id(p)];
  }

  lemma NumbersCons(p: TaggedPage, b: seq<TaggedPage>, id: Numbering)
    ensures Numbers([p] + b, id) == [id(p)] + Numbers(b, id)
  {
  }

  lemma {:induction false} NumbersWithout(b: seq<TaggedPage>, p: TaggedPage, id: Numbering)
    requires Distinct(b, p, id)
    ensures Numbers(Without(b, p), id) == Without(Numbers(b, id), id(p))
    decreases |b|
  {
    if b != [] {
      var h, rest := b[0], b[1..];
      assert b == [h] + rest && h in b;
      assert forall x :: x in rest ==> x in b;
      NumbersCons(h, rest, id);
      NumbersWithout(rest, p, id);
      NumbersCons(h, Without(rest, p), id);
      WithoutCons(h, rest, p);
      WithoutCons(id(h), Numbers(rest, id), id(p));
    }
  }

  lemma WithoutCons<T>(h: T, rest: seq<T>, x: T)
    ensures Without([h] + rest, x) == if h == x then rest else [h] + Without(rest, x)
  {
    assert ([h] + rest)[1..] == rest;
  }

  lemma MirrorRemove(q: Queue<TaggedPage>, p: TaggedPage, id: Numbering)
    requires Distinct(q.items, p, id)
    ensures Mirror(Remove(q, p), id) == Remove(Mirror(q, id), id(p))
  {
    NumbersWithout(q.items, p, id);
  }

  lemma MirrorDequeueIf(q: Queue<TaggedPage>, accept: bool, id: Numbering)
    ensures Mirror(DequeueIf(q, accept), id) == DequeueIf(Mirror(q, id), accept)
  {
    if q.items != [] {
      assert Numbers(q.items[1..], id) == Numbers(q.items, id)[1..];
      assert Numbers(q.items[1..] + [q.items[0]], id) == Numbers(q.items, id)[1..] + [Numbers(q.items, id)[0]];
    }
  }

  // ---- the operations of the driver ----------------------------------------------------------

  /** insert_page_fifo_buffer_t of a fault is the step EnterClean, and never fails. */
  method InsertPage(q: PageQueue, p: TaggedPage, ghost s: State, ghost id: Numbering) returns (status: int)
    requires q.Valid() && q.kind == BI_CLEAN && Structure(s) && Enabled(s, EnterClean(id(p)))
    requires p.bufferId == s.pages[id(p)].buf && Mirror(q.Value(), id) == s.clean[CleanQueue(s.pages[id(p)].index)]
    modifies q, p
    ensures q.Valid() && status == 0
    ensures var s' := DoEnterClean(s, id(p));
            && Mirror(q.Value(), id) == s'.clean[CleanQueue(s.pages[id(p)].index)]
            && p.bufferId == s'.pages[id(p)].buf
  {
    Local(s, id(p));
    NeverFull(s);
    MirrorEnqueue(q.Value(), p, id);
    status := q.Enqueue(p);
  }

  lemma NumberQueued(q: Queue<TaggedPage>, p: TaggedPage, id: Numbering)
    requires id(p) in Mirror(q, id).items && Distinct(q.items, p, id)
    ensures p in q.items
  {
    var ns := Numbers(q.items, id);
    var i :| 0 <= i < |ns| && ns[i] == id(p);
    assert q.items[i] in q.items;
  }

  /** The page is at its place in the list: the object's queue mirrors one in which its number is. */
  lemma InQueue(q: PageQueue, p: TaggedPage, id: Numbering, f: Queue<PageId>)
    requires Mirror(q.Value(), id) == f && id(p) in f.items && Distinct(q.buffer, p, id)
    ensures p in q.buffer
  {
    NumberQueued(q.Value(), p, id);
  }

  /** MkLeave and then MkEnter. */
  ghost function Dirtied(s: State, n: PageId): (s': State)
    requires Structure(s) && InPhase(s, n, MkInTree)
    ensures |s'.pages| == |s.pages| && |s'.clean| == NUM_QUEUES && |s'.dirty| == EVICTOR_THREADS
  {
    var s1 := DoMkLeave(s, n);
    DoMkEnter(s1, n)
  }

  /** FsLeave and then FsEnter. */
  ghost function Cleaned(s: State, n: PageId): (s': State)
    requires Structure(s) && InPhase(s, n, FsProtected)
    ensures |s'.pages| == |s.pages| && |s'.clean| == NUM_QUEUES && |s'.dirty| == EVICTOR_THREADS
  {
    var s1 := DoFsLeave(s, n);
    DoFsEnter(s1, n)
  }

  /** move_page_c2d_fifo_buffer_t is the steps MkLeave and MkEnter. */
  method MoveToDirty(from: PageQueue, to: PageQueue, p: TaggedPage, ghost s: State, ghost id: Numbering)
    requires from != to && from.Valid() && to.Valid() && from.kind == BI_CLEAN && to.kind == BI_DIRTY
    requires Structure(s) && InPhase(s, id(p), MkInTree) && Distinct(from.buffer, p, id)
    requires Mirror(from.Value(), id) == s.clean[CleanQueue(s.pages[id(p)].index)]
    requires Mirror(to.Value(), id) == s.dirty[DirtyQueue(s.pages[id(p)].index)]
    modifies from, to, p
    ensures from.Valid() && to.Valid()
    ensures var s' := Dirtied(s, id(p));
            && Mirror(from.Value(), id) == s'.clean[CleanQueue(s.pages[id(p)].index)]
            && Mirror(to.Value(), id) == s'.dirty[DirtyQueue(s.pages[id(p)].index)]
            && p.bufferId == s'.pages[id(p)].buf
  {
    ghost var n := id(p);
    CleanlyQueued(s, n);
    NeverFull(s);
    InQueue(from, p, id, s.clean[CleanQueue(s.pages[n].index)]);
    MirrorRemove(from.Value(), p, id);
    MirrorEnqueue(to.Value(), p, id);
    MovePage(from, to, p);
  }

  /** move_page_d2c_fifo_buffer_t is the steps FsLeave and FsEnter. */
  method MoveToClean(from: PageQueue, to: PageQueue, p: TaggedPage, ghost s: State, ghost id: Numbering)
    requires from != to && from.Valid() && to.Valid() && from.kind == BI_DIRTY && to.kind == BI_CLEAN
    requires Structure(s) && InPhase(s, id(p), FsProtected) && Distinct(from.buffer, p, id)
    requires Mirror(from.Value(), id) == s.dirty[DirtyQueue(s.pages[id(p)].index)]
    requires Mirror(to.Value(), id) == s.clean[CleanQueue(s.pages[id(p)].index)]
    modifies from, to, p
    ensures from.Valid() && to.Valid()
    ensures var s' := Cleaned(s, id(p));
            && Mirror(from.Value(), id) == s'.dirty[DirtyQueue(s.pages[id(p)].index)]
            && Mirror(to.Value(), id) == s'.clean[CleanQueue(s.pages[id(p)].index)]
            && p.bufferId == s'.pages[id(p)].buf
  {
    ghost var n := id(p);
    DirtilyQueued(s, n);
    NeverFull(s);
    InQueue(from, p, id, s.dirty[DirtyQueue(s.pages[n].index)]);
    MirrorRemove(from.Value(), p, id);
    MirrorEnqueue(to.Value(), p, id);
    MovePage(from, to, p);
  }

  lemma CleanlyQueued(s: State, n: PageId)
    requires Structure(s) && InPhase(s, n, MkInTree)
    ensures n in s.clean[CleanQueue(s.pages[n].index)].items
  {
    Local(s, n);
    assert Guarantees.InClean(s, n, CleanQueue(s.pages[n].index)) by { Guarantees.QueuesOf(s, n); }
  }

  lemma DirtilyQueued(s: State, n: PageId)
    requires Structure(s) && InPhase(s, n, FsProtected)
    ensures n in s.dirty[DirtyQueue(s.pages[n].index)].items
  {
    Local(s, n);
    assert Guarantees.InDirty(s, n, DirtyQueue(s.pages[n].index)) by { Guarantees.QueuesOf(s, n); }
  }

  /** dequeue_if of the purge is the step PgDequeue, when the condition answers as its trylock does. */
  method PurgeDequeue(q: PageQueue, n: nat, accepts: TaggedPage -> bool, ghost s: State, ghost id: Numbering)
      returns (p: TaggedPage?)
    requires q.Valid() && Structure(s) && Enabled(s, PgDequeue(n)) && Mirror(q.Value(), id) == s.clean[n]
    requires forall x :: x in q.buffer ==> accepts(x) == Purgeable(s, id(x))
    modifies q, q.buffer
    ensures q.Valid() && Mirror(q.Value(), id) == DoPgDequeue(s, n).clean[n]
    ensures p != null <==> Purgeable(s, s.clean[n].items[0])
    ensures var r := s.pages[s.clean[n].items[0]];
            p != null <==> r.inUse && !r.locked && r.pvd !in s.unlinking
    ensures Mirror(q.Value(), id).items == if p != null then s.clean[n].items[1..]
                                           else s.clean[n].items[1..] + [s.clean[n].items[0]]
    ensures p != null ==> id(p) == s.clean[n].items[0] && p.bufferId == DoPgDequeue(s, n).pages[id(p)].buf
  {
    assert q.buffer != [] && id(q.buffer[0]) == s.clean[n].items[0] by {
      assert Numbers(q.buffer, id) == s.clean[n].items;
    }
    assert q.buffer[0] in q.buffer;
    MirrorDequeueIf(q.Value(), accepts(q.buffer[0]), id);
    p := q.DequeueIf(accepts);
  }

  /** dequeue_if of an evictor is the step EvDequeue: a head that it can lock leaves the queue, and one that
      it cannot lock goes to the tail. */
  method EvictorDequeue(q: PageQueue, e: nat, accepts: TaggedPage -> bool, ghost s: State, ghost id: Numbering)
      returns (p: TaggedPage?)
    requires q.Valid() && Structure(s) && Enabled(s, EvDequeue(e)) && Mirror(q.Value(), id) == s.dirty[e]
    requires forall x :: x in q.buffer ==> accepts(x) == Lockable(s, id(x))
    modifies q, q.buffer
    ensures q.Valid() && Mirror(q.Value(), id) == DoEvDequeue(s, e).dirty[e]
    ensures var r := s.pages[s.dirty[e].items[0]]; p != null <==> r.inUse && !r.locked
    ensures Mirror(q.Value(), id).items == if p != null then s.dirty[e].items[1..]
                                           else s.dirty[e].items[1..] + [s.dirty[e].items[0]]
    ensures p != null ==> id(p) == s.dirty[e].items[0] && p.bufferId == DoEvDequeue(s, e).pages[id(p)].buf
  {
    assert q.buffer != [] && id(q.buffer[0]) == s.dirty[e].items[0] by {
      assert Numbers(q.buffer, id) == s.dirty[e].items;
    }
    assert q.buffer[0] in q.buffer;
    MirrorDequeueIf(q.Value(), accepts(q.buffer[0]), id);
    p := q.DequeueIf(accepts);
  }
}
