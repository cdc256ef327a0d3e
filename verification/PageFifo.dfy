/** The FIFOs themselves, updated in place: lpfifo_non_atomic.c (clean pages) and
    dfifo_non_atomic.c (dirty pages), and the moves between the two. */
module PageFifo {
  import opened Fifo
  import opened Lifecycle

  class TaggedPage {
    var bufferId: BufferId
  }

  class PageQueue {
    const kind: BufferId
    const maxSize: nat
    var buffer: seq<TaggedPage>
    var size: int

    /** The counter is the length of the list, which holds each page once and only pages of its kind. */
    ghost predicate Valid()
      reads this, buffer
    {
      && kind != BI_NONE && size == |buffer| && NoDup(buffer)
      && forall p :: p in buffer ==> p.bufferId == kind
    }

    ghost function Value(): Queue<TaggedPage>
      reads this
    {
      Queue(buffer, size, maxSize)
    }

    constructor (kind: BufferId, maxSize: nat)
      requires kind != BI_NONE
      ensures Valid() && Value() == Queue([], 0, maxSize) && this.kind == kind
    {
      this.kind, this.maxSize := kind, maxSize;
      buffer, size := [], 0;
    }

    /** enqueue: at the tail, or -1 and nothing changes. */
    method Enqueue(p: TaggedPage) returns (status: int)
      requires Valid() && p.bufferId == BI_NONE
      modifies this, p
      ensures Valid() && Value() == Fifo.Enqueue(old(Value()), p) && status == EnqueueStatus(old(Value()))
      ensures status == if old(|buffer|) > maxSize then -1 else 0
      ensures buffer == if status == 0 then old(buffer) + [p] else old(buffer)
      ensures p.bufferId == if status == 0 then kind else BI_NONE
    {
      if size > maxSize { return -1; }
      buffer := buffer + [p];
      size := size + 1;
      p.bufferId := kind;
      return 0;
    }

    /** dequeue: the head, or nothing from an empty queue. */
    method Dequeue() returns (p: TaggedPage?)
      requires Valid()
      modifies this, buffer
      ensures Valid() && Value() == Fifo.DequeueIf(old(Value()), true)
      ensures p == null <==> old(buffer) == []
      ensures buffer == if old(buffer) == [] then [] else old(buffer[1..])
      ensures p != null ==> p == old(buffer[0]) && p !in buffer && p.bufferId == BI_NONE
      ensures forall x :: x in old(buffer) && x != p ==> x.bufferId == old(x.bufferId)
    {
      if size == 0 { return null; }
      p := buffer[0];
      buffer := buffer[1..];
      size := size - 1;
      p.bufferId := BI_NONE;
    }

    /** dequeue_if: a head that the condition accepts leaves; one that it refuses goes to the tail. */
    method DequeueIf(accepts: TaggedPage -> bool) returns (p: TaggedPage?)
      requires Valid()
      modifies this, buffer
      ensures Valid()
      ensures Value() == Fifo.DequeueIf(old(Value()), old(buffer) != [] && accepts(old(buffer[0])))
      ensures p == null <==> old(buffer) == [] || !accepts(old(buffer[0]))
      ensures buffer == if old(buffer) == [] then [] else if p != null then old(buffer[1..])
                        else old(buffer[1..] + [buffer[0]])
      ensures p != null ==> p == old(buffer[0]) && p !in buffer && p.bufferId == BI_NONE
      ensures forall x :: x in old(buffer) && x != p ==> x.bufferId == old(x.bufferId)
    {
      if size == 0 { return null; }
      p := buffer[0];
      if accepts(p) {
        buffer := buffer[1..];
        size := size - 1;
        p.bufferId := BI_NONE;
      } else {
        buffer := buffer[1..] + [p];
        p := null;
      }
    }

    /** remove: wherever in the list the page is. */
    method Remove(p: TaggedPage)
      requires Valid() && p in buffer
      modifies this, p
      ensures Valid() && Value() == Fifo.Remove(old(Value()), p) && p !in buffer && p.bufferId == BI_NONE
      ensures exists i :: 0 <= i < old(|buffer|) && old(buffer)[i] == p && buffer == old(buffer[..i] + buffer[i + 1..])
    {
      ghost var i := WithoutAt(buffer, p);
      buffer := Without(buffer, p);
      size := size - 1;
      p.bufferId := BI_NONE;
    }

    /** remove_if, of the dirty FIFO: 1 and removed, or 0 and nothing changes. */
    method RemoveIf(p: TaggedPage, accepts: TaggedPage -> bool) returns (removed: int)
      requires Valid() && p in buffer
      modifies this, p
      ensures Valid() && removed == if accepts(p) then 1 else 0
      ensures Value() == if removed == 1 then Fifo.Remove(old(Value()), p) else old(Value())
      ensures removed == 1 ==> exists i :: 0 <= i < old(|buffer|) && old(buffer)[i] == p
                                           && buffer == old(buffer[..i] + buffer[i + 1..])
      ensures p.bufferId == if removed == 1 then BI_NONE else kind
    {
      if accepts(p) {
        Remove(p);
        return 1;
      }
      return 0;
    }
  }

  /** list_del takes out one place and closes the gap. */
  lemma {:induction false} WithoutAt<T>(s: seq<T>, x: T) returns (i: nat)
    requires x in s
    ensures i < |s| && s[i] == x && Without(s, x) == s[..i] + s[i + 1..]
  {
    if s[0] == x {
      i := 0;
      assert s[..0] == [];
    } else {
      var j := WithoutAt(s[1..], x);
      i := j + 1;
      GapLater(s, j);
    }
  }

  lemma GapLater<T>(s: seq<T>, j: nat)
    requires j + 1 < |s|
    ensures [s[0]] + (s[1..][..j] + s[1..][j + 1..]) == s[..j + 1] + s[j + 2..]
  {
  }

  /** move_page_c2d_fifo_buffer_t and move_page_d2c_fifo_buffer_t: the page changes lists and
      nothing else does, as long as the target is not full. */
  method MovePage(from: PageQueue, to: PageQueue, p: TaggedPage)
    requires from != to && from.Valid() && to.Valid() && from.kind != to.kind && p in from.buffer
    requires !Full(to.Value())
    modifies from, to, p
    ensures from.Valid() && to.Valid()
    ensures from.Value() == Fifo.Remove(old(from.Value()), p)
    ensures to.Value() == Fifo.Enqueue(old(to.Value()), p) && to.buffer == old(to.buffer) + [p]
    ensures p.bufferId == to.kind && p in to.buffer && p !in from.buffer
    ensures |from.buffer| + |to.buffer| == old(|from.buffer| + |to.buffer|)
  {
    from.Remove(p);
    var status := to.Enqueue(p);
  }
}
