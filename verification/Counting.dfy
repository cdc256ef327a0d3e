/** Counting pages by the lists they are on. */
module Counting {
  import opened Params
  import opened Fifo
  import opened Placement

  function TotalLength(qs: seq<seq<PageId>>): nat {
    if qs == [] then 0 else TotalLength(qs[..|qs| - 1]) + |qs[|qs| - 1]|
  }

  function Elements(s: seq<PageId>): (r: set<PageId>)
    ensures forall x :: x in r <==> x in s
    ensures NoDup(s) ==> |r| == |s|
  {
    if s == [] then {}
    else
      assert s == s[..|s| - 1] + [s[|s| - 1]];
      assert NoDup(s) ==> NoDup(s[..|s| - 1]) && s[|s| - 1] !in s[..|s| - 1];
      Elements(s[..|s| - 1]) + {s[|s| - 1]}
  }

  function Numbers(n: nat): (r: set<PageId>)
    ensures forall x :: x in r <==> 0 <= x < n
    ensures |r| == n
  {
    if n == 0 then {} else Numbers(n - 1) + {n - 1}
  }

  /** The pages whose claim names one of the first n lists. */
  function Below(at: seq<Option<nat>>, n: nat): set<PageId> {
    set p | 0 <= p < |at| && at[p].Some? && at[p].value < n
  }

  /** The first n lists together are as long as there are pages claiming a place on them. */
  lemma {:induction false} ListsCount(qs: seq<seq<PageId>>, at: seq<Option<nat>>, n: nat)
    requires Queued(qs, at) && n <= |qs|
    ensures TotalLength(qs[..n]) == |Below(at, n)|
  {
    if n == 0 {
      assert Below(at, 0) == {};
    } else {
      ListsCount(qs, at, n - 1);
      assert qs[..n][..n - 1] == qs[..n - 1];
      OneMore(qs, at, n - 1);
    }
  }

  lemma OneMore(qs: seq<seq<PageId>>, at: seq<Option<nat>>, n: nat)
    requires Queued(qs, at) && n < |qs|
    ensures |Below(at, n + 1)| == |Below(at, n)| + |qs[n]|
  {
    var last := Elements(qs[n]);
    forall p | p in last ensures p in Below(at, n + 1) && p !in Below(at, n) { assert p in qs[n]; }
    forall p | p in Below(at, n + 1) && p !in Below(at, n) ensures p in last {
      assert at[p].value == n && p in qs[at[p].value];
    }
    assert Below(at, n + 1) == Below(at, n) + last;
  }

  lemma {:induction false} SubsetSize<T>(a: set<T>, b: set<T>)
    requires a <= b
    ensures |a| <= |b|
    decreases a
  {
    if a != {} {
      var x :| x in a;
      SubsetSize(a - {x}, b - {x});
    }
  }
}
