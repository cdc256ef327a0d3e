/** The list-plus-counter queues of lpfifo_non_atomic.c and dfifo_non_atomic.c. The two files
    differ only in the buffer_id they stamp on a page and in `remove_if`, which only the dirty
    queue has, so one value type and one class model both. */
module Fifo {
  /** The abstract value of a queue: the list, the `size` field and the `max_size` field. */
  datatype Queue<T> = Queue(items: seq<T>, size: int, maxSize: int)

  predicate NoDup<T(==)>(s: seq<T>) {
    forall i, j :: 0 <= i < j < |s| ==> s[i] != s[j]
  }

  /** `s` without its (only) occurrence of `x`, the effect of list_del. */
  function Without<T(==)>(s: seq<T>, x: T): (r: seq<T>)
    ensures x !in s ==> r == s
    ensures x in s ==> |r| == |s| - 1
    ensures forall y :: y in r ==> y in s
    ensures forall y :: y in s && y != x ==> y in r
    ensures NoDup(s) ==> NoDup(r) && x !in r
  {
    if s == [] then []
    else if s[0] == x then
      assert s == [s[0]] + s[1..];
      s[1..]
    else
      assert s == [s[0]] + s[1..];
      var t := Without(s[1..], x);
      assert NoDup(s) ==> NoDup(s[1..]) && s[0] !in s[1..];
      assert forall i :: 0 <= i < |t| ==> t[i] in t;
      [s[0]] + t
  }

  predicate Full<T>(q: Queue<T>) { q.size > q.maxSize }

  /** enqueue: the page goes to the tail, or the call returns -1 and nothing changes. */
  function Enqueue<T>(q: Queue<T>, x: T): Queue<T> {
    if Full(q) then q else q.(items := q.items + [x], size := q.size + 1)
  }

  function EnqueueStatus<T>(q: Queue<T>): int { if Full(q) then -1 else 0 }

  function Remove<T(==)>(q: Queue<T>, x: T): Queue<T> {
    q.(items := Without(q.items, x), size := q.size - 1)
  }

  /** dequeue_if: an accepted head leaves, a refused head moves to the tail. */
  function DequeueIf<T>(q: Queue<T>, accept: bool): Queue<T> {
    if q.size == 0 || q.items == [] then q
    else if accept then q.(items := q.items[1..], size := q.size - 1)
    else q.(items := q.items[1..] + [q.items[0]])
  }

  /** Distinct numbers below n are at most n. */
  lemma {:induction false} Pigeonhole(s: seq<int>, n: nat)
    requires NoDup(s) && forall x :: x in s ==> 0 <= x < n
    ensures |s| <= n
    decreases n
  {
    if s != [] {
      var x: int := s[0];
      assert x in s;
      Pigeonhole(Without(s, n - 1), n - 1);
    }
  }
}
