/** try_purge_pages_fast, run alone on one clean FIFO. */
module Purge {
  import opened Params
  import opened Fifo
  import opened Placement
  import opened Lifecycle
  import opened Invariant
  import opened Coherence
  import opened Moves
  import opened Steps
  import opened Guarantees
  import Exactness
  import Faults
  import EvictorRound
  import opened Batches

  /** The pages of `items` that a purge would take, in order. */
  function Victims(s: State, items: seq<PageId>): (vs: seq<PageId>)
    ensures forall p :: p in vs <==> p in items && Purgeable(s, p)
  {
    if items == [] then []
    else
      assert items == [items[0]] + items[1..];
      (if Purgeable(s, items[0]) then [items[0]] else []) + Victims(s, items[1..])
  }

  lemma {:induction false} VictimsAppend(s: State, items: seq<PageId>, p: PageId)
    ensures Victims(s, items + [p]) == Victims(s, items) + if Purgeable(s, p) then [p] else []
  {
    if items == [] {
      assert Victims(s, [p]) == (if Purgeable(s, p) then [p] else []) + Victims(s, []);
    } else {
      assert (items + [p])[1..] == items[1..] + [p];
      VictimsAppend(s, items[1..], p);
    }
  }

  function Purging(r: Page): Page { r.(locked := true, buf := BI_NONE, phase := PgUnmapped) }

  /** What the first loop has done once the pages `taken` are in its array. */
  ghost predicate TakenSoFar(s0: State, s: State, q: nat, taken: seq<PageId>)
    requires q < |s0.clean|
  {
    && Swept(s0.pages, s.pages, taken, |taken|, Purging)
    && s.maps == (set m | m in s0.maps && m.page !in taken)
    && Unindexed(s0, s, taken)
    && |s.clean| == |s0.clean|
    && s == s0.(pages := s.pages, maps := s.maps, rdx := s.rdx, clean := s0.clean[q := s.clean[q]])
  }

  /** The index has lost exactly the entries of the pages in `gone`. */
  ghost predicate Unindexed(s0: State, s: State, gone: seq<PageId>) {
    forall k :: EntryKept(s0, s, gone, k)
  }

  predicate EntryKept(s0: State, s: State, gone: seq<PageId>, k: Key) {
    && (Has(s.rdx, k) <==> Has(s0.rdx, k) && Get(s0.rdx, k) !in gone)
    && (Has(s.rdx, k) && Has(s0.rdx, k) ==> Get(s.rdx, k) == Get(s0.rdx, k))
  }

  // ---- one iteration -------------------------------------------------------------------------

  lemma DequeueStep(s: State, mem: Memory, q: nat, s1: State)
    requires Inv(s, mem) && q < NUM_QUEUES && s.clean[q].items != []
    requires Enabled(s, PgDequeue(q)) ==> s1 == DoPgDequeue(s, q)
    ensures Enabled(s, PgDequeue(q)) && Inv(s1, mem) && |s1.clean| == NUM_QUEUES
    ensures var p, items := s.clean[q].items[0], s.clean[q].items;
            && p < |s.pages|
            && (if Purgeable(s, p)
                then s1.pages == s.pages[p := s.pages[p].(locked := true, buf := BI_NONE, phase := PgOut)]
                     && s1.clean[q].items == items[1..]
                else s1.pages == s.pages && s1.clean[q].items == items[1..] + [p])
    ensures s1 == s.(pages := s1.pages, clean := s.clean[q := s1.clean[q]])
  {
    CleanHead(s, q);
    KeepPgDequeue(s, mem, q);
    assert Holds(Sizes, s);
  }

  /** PgUnindex and then PgUnmap. */
  function Unlinked(s: State, p: PageId): (s': State)
    requires InPhase(s, p, PgOut) && 0 < |s.rdx|
  {
    var s1 := DoPgUnindex(s, p);
    DoPgUnmap(s1, p)
  }

  lemma UnlinkedIs(s: State, p: PageId)
    requires InPhase(s, p, PgOut) && 0 < |s.rdx|
    ensures var s' := Unlinked(s, p);
            && s'.pages == s.pages[p := s.pages[p].(phase := PgUnmapped)]
            && s'.rdx == Erase(s.rdx, KeyOf(s.pages[p])) && s'.maps == (set m | m in s.maps && m.page != p)
            && s' == s.(pages := s'.pages, rdx := s'.rdx, maps := s'.maps)
  {
    var s1 := DoPgUnindex(s, p);
    Exactness.UpdateTwice(s.pages, p, s1.pages[p], s.pages[p].(phase := PgUnmapped));
  }

  lemma KeepUnlinked(s: State, mem: Memory, p: PageId)
    requires Inv(s, mem) && InPhase(s, p, PgOut)
    ensures Inv(Unlinked(s, p), mem)
  {
    KeepPgUnindex(s, mem, p);
    KeepPgUnmap(DoPgUnindex(s, p), mem, p);
  }

  /** One iteration of the first loop on a non-empty queue. */
  method PurgeHead(s: State, q: nat, ghost mem: Memory) returns (s': State, p: PageId, taken: bool)
    requires Inv(s, mem) && q < NUM_QUEUES && s.clean[q].items != []
    ensures Inv(s', mem) && p == s.clean[q].items[0] && p < |s.pages| && taken == Purgeable(s, p)
    ensures |s'.clean| == NUM_QUEUES
    ensures if taken then
              && s'.pages == s.pages[p := Purging(s.pages[p])] && s'.clean[q].items == s.clean[q].items[1..]
              && s'.rdx == Erase(s.rdx, KeyOf(s.pages[p])) && s'.maps == (set m | m in s.maps && m.page != p)
            else
              && s'.pages == s.pages && s'.clean[q].items == s.clean[q].items[1..] + [p]
              && s'.rdx == s.rdx && s'.maps == s.maps
    ensures s' == s.(pages := s'.pages, rdx := s'.rdx, maps := s'.maps, clean := s.clean[q := s'.clean[q]])
  {
    CleanHead(s, q);
    p := s.clean[q].items[0];
    taken := Purgeable(s, p);
    var s1 := DoPgDequeue(s, q);
    DequeueStep(s, mem, q, s1);
    s' := s1;
    if taken {
      KeepUnlinked(s1, mem, p);
      UnlinkedIs(s1, p);
      s' := Unlinked(s1, p);
      Exactness.UpdateTwice(s.pages, p, s1.pages[p], s'.pages[p]);
    }
  }

  // ---- the first loop ------------------------------------------------------------------------

  /** The pages of `items` that a purge leaves alone, in order. */
  function Refused(s: State, items: seq<PageId>): (rs: seq<PageId>)
    ensures forall p :: p in rs <==> p in items && !Purgeable(s, p)
  {
    if items == [] then []
    else
      assert items == [items[0]] + items[1..];
      (if Purgeable(s, items[0]) then [] else [items[0]]) + Refused(s, items[1..])
  }

  lemma {:induction false} RefusedAppend(s: State, items: seq<PageId>, p: PageId)
    ensures Refused(s, items + [p]) == Refused(s, items) + if Purgeable(s, p) then [] else [p]
  {
    if items == [] {
      assert Refused(s, [p]) == (if Purgeable(s, p) then [] else [p]) + Refused(s, []);
    } else {
      assert (items + [p])[1..] == items[1..] + [p];
      RefusedAppend(s, items[1..], p);
    }
  }

  /** What is in the FIFO after i iterations: the rest of it and then those refused so far; once
      all have been seen, only refused ones, going round. */
  ghost predicate Left(s0: State, items0: seq<PageId>, items: seq<PageId>, i: nat) {
    if i <= |items0| then items == items0[i..] + Refused(s0, items0[..i])
    else multiset(items) == multiset(Refused(s0, items0))
  }

  lemma LeftHead(s0: State, items0: seq<PageId>, items: seq<PageId>, i: nat)
    requires Left(s0, items0, items, i) && items != []
    ensures items[0] in items0 && (i < |items0| ==> items[0] == items0[i])
    ensures i >= |items0| ==> !Purgeable(s0, items[0])
  {
    if i == |items0| { assert items0[..i] == items0 && items0[i..] == []; }
    if i >= |items0| {
      var h: PageId := items[0];
      assert h in multiset(items);
      if i == |items0| { assert items == Refused(s0, items0); }
      assert h in multiset(Refused(s0, items0));
    }
  }

  lemma LeftNext(s0: State, items0: seq<PageId>, items: seq<PageId>, i: nat, items': seq<PageId>)
    requires Left(s0, items0, items, i) && items != []
    requires items' == items[1..] + if Purgeable(s0, items[0]) then [] else [items[0]]
    ensures Left(s0, items0, items', i + 1)
  {
    if i < |items0| { LeftGoing(s0, items0, items, i, items'); } else { LeftRound(s0, items0, items, i, items'); }
  }

  lemma LeftGoing(s0: State, items0: seq<PageId>, items: seq<PageId>, i: nat, items': seq<PageId>)
    requires i < |items0| && items == items0[i..] + Refused(s0, items0[..i])
    requires items' == items[1..] + if Purgeable(s0, items[0]) then [] else [items[0]]
    ensures items' == items0[i + 1..] + Refused(s0, items0[..i + 1])
  {
    RefusedAppend(s0, items0[..i], items0[i]);
    assert items0[..i + 1] == items0[..i] + [items0[i]];
    assert items[1..] == items0[i + 1..] + Refused(s0, items0[..i]);
  }

  lemma LeftRound(s0: State, items0: seq<PageId>, items: seq<PageId>, i: nat, items': seq<PageId>)
    requires Left(s0, items0, items, i) && items != [] && i >= |items0|
    requires items' == items[1..] + if Purgeable(s0, items[0]) then [] else [items[0]]
    ensures multiset(items') == multiset(Refused(s0, items0))
  {
    LeftHead(s0, items0, items, i);
    if i == |items0| { assert items0[..i] == items0 && items == Refused(s0, items0); }
    assert items == [items[0]] + items[1..];
  }

  lemma LeftEmpty(s0: State, items0: seq<PageId>, i: nat)
    requires Left(s0, items0, [], i)
    ensures i >= |items0| && Left(s0, items0, [], i + 1)
  {
    if i == |items0| { assert items0[..i] == items0 && Refused(s0, items0) == []; }
  }

  lemma TakenNext(s0: State, s: State, s': State, q: nat, taken: seq<PageId>, p: PageId)
    requires q < |s0.clean| && Structure(s0) && TakenSoFar(s0, s, q, taken) && p < |s.pages| && p !in taken
    requires IndexAt(s0.pages[p]) == Some(KeyOf(s0.pages[p])) && |s.rdx| == |s0.rdx|
    requires s'.pages == s.pages[p := Purging(s.pages[p])] && |s'.clean| == |s.clean|
    requires s'.rdx == Erase(s.rdx, KeyOf(s.pages[p])) && s'.maps == (set m | m in s.maps && m.page != p)
    requires s' == s.(pages := s'.pages, rdx := s'.rdx, maps := s'.maps, clean := s.clean[q := s'.clean[q]])
    ensures TakenSoFar(s0, s', q, taken + [p])
  {
    var more := taken + [p];
    assert more[..|taken|] == taken && more[..|more|] == more && taken[..|taken|] == taken;
    forall i | 0 <= i < |more| && more[i] < |s'.pages| ensures s'.pages[more[i]] == Purging(s0.pages[more[i]]) {
      assert i < |taken| ==> more[i] == taken[i];
    }
    UnindexedNext(s0, s, s', taken, p);
  }

  lemma UnindexedNext(s0: State, s: State, s': State, taken: seq<PageId>, p: PageId)
    requires Structure(s0) && Unindexed(s0, s, taken) && p < |s0.pages| && |s.rdx| == |s0.rdx|
    requires IndexAt(s0.pages[p]) == Some(KeyOf(s0.pages[p])) && s'.rdx == Erase(s.rdx, KeyOf(s0.pages[p]))
    ensures Unindexed(s0, s', taken + [p])
  {
    var more, key := taken + [p], KeyOf(s0.pages[p]);
    assert Has(s0.rdx, key) && Get(s0.rdx, key) == p by {
      assert Holds(Index, s0);
      assert IndexAts(s0.pages)[p] == Some(key);
    }
    forall k ensures EntryKept(s0, s', more, k) {
      assert EntryKept(s0, s, taken, k);
      HasAfter(s.rdx, key, 0, k);
      if k != key && Has(s0.rdx, k) { IndexEntry(s0, k); }
    }
  }

  /** A page at the head of the FIFO has not been taken, and is as it was. */
  lemma HeadUntaken(s0: State, s: State, q: nat, taken: seq<PageId>)
    requires q < |s0.clean| && Structure(s0) && Structure(s) && TakenSoFar(s0, s, q, taken)
    requires q < NUM_QUEUES && s.clean[q].items != []
    ensures var p := s.clean[q].items[0];
            && p < |s.pages| && p !in taken && s.pages[p] == s0.pages[p] && Purgeable(s, p) == Purgeable(s0, p)
            && (Purgeable(s, p) ==> IndexAt(s0.pages[p]) == Some(KeyOf(s0.pages[p])))
  {
    CleanHead(s, q);
    var p := s.clean[q].items[0];
    assert taken[..|taken|] == taken;
    if Purgeable(s, p) { LockIdle(s, p); }
  }

  /** Where the first loop stands after i iterations. */
  ghost predicate PurgeState(s0: State, s: State, mem: Memory, q: nat, taken: seq<PageId>, i: nat) {
    && Inv(s0, mem) && Inv(s, mem) && q < NUM_QUEUES && TakenSoFar(s0, s, q, taken)
    && taken == Victims(s0, s0.clean[q].items[..Min(i, |s0.clean[q].items|)])
    && Left(s0, s0.clean[q].items, s.clean[q].items, i)
  }

  lemma VictimsNext(s0: State, items0: seq<PageId>, items: seq<PageId>, i: nat)
    requires Left(s0, items0, items, i) && items != []
    ensures Victims(s0, items0[..Min(i + 1, |items0|)]) ==
            Victims(s0, items0[..Min(i, |items0|)]) + if Purgeable(s0, items[0]) then [items[0]] else []
  {
    LeftHead(s0, items0, items, i);
    if i < |items0| {
      VictimsAppend(s0, items0[..i], items0[i]);
      assert items0[..i + 1] == items0[..i] + [items0[i]];
    }
  }

  method PurgeTurn(s0: State, s: State, q: nat, taken: seq<PageId>, ghost i: nat, ghost mem: Memory)
      returns (s': State, taken': seq<PageId>)
    requires PurgeState(s0, s, mem, q, taken, i)
    ensures PurgeState(s0, s', mem, q, taken', i + 1)
  {
    s', taken' := s, taken;
    ghost var items0, items := s0.clean[q].items, s.clean[q].items;
    assert s.clean[q].size == |s.clean[q].items| by { assert Holds(Sizes, s); }
    if s.clean[q].size == 0 {
      LeftEmpty(s0, items0, i);
      return;
    }
    HeadUntaken(s0, s, q, taken);
    LeftNext(s0, items0, items, i, items[1..] + if Purgeable(s0, items[0]) then [] else [items[0]]);
    VictimsNext(s0, items0, items, i);
    var p, ok;
    s', p, ok := PurgeHead(s, q, mem);
    if ok {
      TakenNext(s0, s, s', q, taken, p);
      taken' := taken + [p];
      assert items[1..] + [] == items[1..];
    } else {
      TakenSame(s0, s, s', q, taken);
    }
  }

  lemma TakenSame(s0: State, s: State, s': State, q: nat, taken: seq<PageId>)
    requires q < |s0.clean| && TakenSoFar(s0, s, q, taken) && |s'.clean| == |s.clean|
    requires s' == s.(clean := s.clean[q := s'.clean[q]])
    ensures TakenSoFar(s0, s', q, taken)
  {
    forall k ensures EntryKept(s0, s', taken, k) { assert EntryKept(s0, s, taken, k); }
  }

  /** 192 times: take the head or move it to the tail. */
  method TakeVictims(s0: State, q: nat, ghost mem: Memory) returns (s: State, taken: seq<PageId>)
    requires Inv(s0, mem) && q < NUM_QUEUES
    ensures PurgeState(s0, s, mem, q, taken, 192) && Chosen(s0, s0.clean[q].items, taken)
  {
    s, taken := s0, [];
    PurgeStart(s0, mem, q);
    for i := 0 to PURGE_TARGET
      invariant PurgeState(s0, s, mem, q, taken, i)
    {
      s, taken := PurgeTurn(s0, s, q, taken, i, mem);
    }
    ChosenExact(s0, s0.clean[q].items, taken);
  }

  /** Of the first 192 pages exactly those are taken that are in use, unlocked and of a pvd that is not
      being unlinked; and no page but these; in queue order. */
  ghost predicate Chosen(s: State, items: seq<PageId>, taken: seq<PageId>) {
    && (forall i :: 0 <= i < |items| && i < 192 && items[i] < |s.pages| ==>
          var r := s.pages[items[i]];
          (items[i] in taken <==> r.inUse && !r.locked && r.pvd !in s.unlinking))
    && (forall p :: p in taken ==>
          p < |s.pages| && s.pages[p].inUse && !s.pages[p].locked && s.pages[p].pvd !in s.unlinking
          && exists i :: 0 <= i < |items| && i < 192 && items[i] == p)
    && (forall a, b :: 0 <= a < b < |taken| ==> Follows(items, taken[a], taken[b]))
  }

  /** x is somewhere in the list before y. */
  predicate Follows(items: seq<PageId>, x: PageId, y: PageId) {
    exists i, j :: 0 <= i < j < |items| && items[i] == x && items[j] == y
  }

  lemma {:induction false} VictimsInOrder(s: State, items: seq<PageId>, n: nat, a: nat, b: nat)
    requires n <= |items| && a < b < |Victims(s, items[..n])|
    ensures Follows(items, Victims(s, items[..n])[a], Victims(s, items[..n])[b])
    decreases n
  {
    if n > 0 {
      var p, before := items[n - 1], Victims(s, items[..n - 1]);
      assert items[..n] == items[..n - 1] + [p];
      VictimsAppend(s, items[..n - 1], p);
      if b < |before| {
        VictimsInOrder(s, items, n - 1, a, b);
      } else {
        assert before[a] in before && before[a] in items[..n - 1];
        var i :| 0 <= i < n - 1 && items[i] == before[a];
        assert items[n - 1] == p;
      }
    }
  }

  lemma ChosenExact(s: State, items: seq<PageId>, taken: seq<PageId>)
    requires taken == Victims(s, items[..Min(192, |items|)])
    ensures Chosen(s, items, taken)
  {
    var first := items[..Min(192, |items|)];
    forall i | 0 <= i < |items| && i < 192 ensures items[i] in first { assert first[i] == items[i]; }
    forall p | p in taken ensures exists i :: 0 <= i < |items| && i < 192 && items[i] == p {
      var i :| 0 <= i < |first| && first[i] == p;
      assert items[i] == p;
    }
    forall a, b | 0 <= a < b < |taken| ensures Follows(items, taken[a], taken[b]) {
      VictimsInOrder(s, items, Min(192, |items|), a, b);
    }
  }

  lemma PurgeStart(s0: State, mem: Memory, q: nat)
    requires Inv(s0, mem) && q < NUM_QUEUES
    ensures PurgeState(s0, s0, mem, q, [], 0)
  {
    var items := s0.clean[q].items;
    assert items[0..] + Refused(s0, items[..0]) == items;
    assert s0.clean == s0.clean[q := s0.clean[q]];
  }

  // ---- freeing -------------------------------------------------------------------------------

  function Blanked(r: Page): Page {
    r.(index := 0, pvd := NULL_PVD, inUse := false, valid := false, dirty := false, buf := BI_NONE,
       cpuid := 0, locked := false, phase := OnFreeList)
  }

  /** Those of the pages whose home is list c, in order. */
  function Homed(home: seq<nat>, b: seq<PageId>, c: nat): seq<PageId> {
    if b == [] then []
    else
      var n := |b| - 1;
      Homed(home, b[..n], c) + if b[n] < |home| && home[b[n]] == c then [b[n]] else []
  }

  /** Every freed page is at the tail of its home list, in the order of freeing. */
  ghost predicate Returned(s0: State, s: State, b: seq<PageId>) {
    |s.free| == |s0.free| && forall c :: 0 <= c < |s.free| ==> s.free[c] == s0.free[c] + Homed(s0.home, b, c)
  }

  lemma ReturnedNext(s0: State, s: State, s': State, b: seq<PageId>, n: nat)
    requires n < |b| && Returned(s0, s, b[..n]) && b[n] < |s0.home| && s0.home[b[n]] < |s.free|
    requires var c := s0.home[b[n]]; s'.free == s.free[c := s.free[c] + [b[n]]]
    ensures Returned(s0, s', b[..n + 1])
  {
    var done, more := b[..n], b[..n + 1];
    assert more[..n] == done && more[n] == b[n];
    forall c | 0 <= c < |s'.free| ensures s'.free[c] == s0.free[c] + Homed(s0.home, more, c) {
      assert s.free[c] == s0.free[c] + Homed(s0.home, done, c);
    }
  }

  /** free_page_lock. */
  method FreeOne(s: State, p: PageId, ghost mem: Memory) returns (s': State)
    requires Inv(s, mem) && (InPhase(s, p, PgUnmapped) || InPhase(s, p, Lost))
    ensures Inv(s', mem) && s.home[p] < |s.free|
    ensures var c := s.home[p]; s'.free == s.free[c := s.free[c] + [p]]
    ensures s'.pages == s.pages[p := Blanked(s.pages[p])] && s' == s.(pages := s'.pages, free := s'.free)
  {
    Faults.FreeReturnsHome(s, mem, p);
    var s1 := Faults.Reset(s, p);
    s' := DoFreeLink(s1, p);
  }

  method FreeAll(s0: State, b: seq<PageId>, ghost mem: Memory) returns (s: State)
    requires Held(s0, mem, b, PgUnmapped)
    ensures Inv(s, mem) && Swept(s0.pages, s.pages, b, |b|, Blanked) && Returned(s0, s, b)
    ensures s == s0.(pages := s.pages, free := s.free)
  {
    s := s0;
    for n := 0 to |b|
      invariant Inv(s, mem) && Swept(s0.pages, s.pages, b, n, Blanked) && Returned(s0, s, b[..n])
      invariant s == s0.(pages := s.pages, free := s.free)
    {
      SweepNext(s0.pages, s.pages, b, n, Blanked);
      assert InPhase(s0, b[n], PgUnmapped);
      var s1 := FreeOne(s, b[n], mem);
      ReturnedNext(s0, s, s1, b, n);
      s := s1;
    }
    assert b[..|b|] == b;
  }

  // ---- the whole purge -----------------------------------------------------------------------

  lemma {:induction false} VictimsDistinct(s: State, items: seq<PageId>)
    requires NoDup(items)
    ensures NoDup(Victims(s, items))
  {
    if items != [] {
      assert items == [items[0]] + items[1..];
      VictimsDistinct(s, items[1..]);
      assert items[0] !in items[1..];
      var vs := Victims(s, items[1..]);
      assert forall i :: 0 <= i < |vs| ==> vs[i] in vs;
    }
  }

  lemma TakenHeld(s0: State, s: State, mem: Memory, q: nat, taken: seq<PageId>)
    requires PurgeState(s0, s, mem, q, taken, 192)
    ensures Held(s, mem, taken, PgUnmapped)
  {
    var items := s0.clean[q].items;
    var n := Min(192, |items|);
    assert NoDup(items[..n]) by { assert Holds(CleanFifos, s0); assert Items(s0.clean)[q] == items; }
    VictimsDistinct(s0, items[..n]);
    forall i | 0 <= i < |taken| ensures InPhase(s, taken[i], PgUnmapped) {
      assert taken[i] in taken;
      assert s.pages[taken[i]] == Purging(s0.pages[taken[i]]);
    }
  }

  /** The victims, exactly, have become blank pages on their home lists; the index, the page tables
      and the FIFO have lost exactly them. */
  ghost predicate Purged(s0: State, s: State, q: nat, victims: seq<PageId>)
    requires q < |s0.clean|
  {
    && Swept(s0.pages, s.pages, victims, |victims|, Blanked) && Returned(s0, s, victims)
    && Unindexed(s0, s, victims) && s.maps == (set m | m in s0.maps && m.page !in victims)
    && |s.clean| == |s0.clean| && Left(s0, s0.clean[q].items, s.clean[q].items, 192)
    && s == s0.(pages := s.pages, maps := s.maps, rdx := s.rdx, free := s.free, clean := s0.clean[q := s.clean[q]])
  }

  lemma PurgedAll(s0: State, s1: State, s: State, mem: Memory, q: nat, taken: seq<PageId>)
    requires PurgeState(s0, s1, mem, q, taken, 192)
    requires Swept(s1.pages, s.pages, taken, |taken|, Blanked) && Returned(s1, s, taken)
    requires s == s1.(pages := s.pages, free := s.free)
    ensures Purged(s0, s, q, taken)
  {
    EvictorRound.SweepTwice(s0.pages, s1.pages, s.pages, taken, Purging, Blanked, Blanked);
    forall k ensures EntryKept(s0, s, taken, k) { assert EntryKept(s0, s1, taken, k); }
  }

  /** The purge of clean FIFO q removes exactly the lockable pages, of pvds that are not being
      unlinked, among its first 192, and returns their number; it keeps the invariant. */
  method TryPurgePagesFast(s0: State, q: nat, ghost mem: Memory)
      returns (s: State, count: nat, ghost victims: seq<PageId>)
    requires Inv(s0, mem) && q < NUM_QUEUES
    ensures Inv(s, mem) && victims == Victims(s0, s0.clean[q].items[..Min(192, |s0.clean[q].items|)])
    ensures Chosen(s0, s0.clean[q].items, victims)
    ensures count == |victims| && Purged(s0, s, q, victims)
  {
    var taken;
    s, taken := TakeVictims(s0, q, mem);
    victims := taken;
    ghost var s1 := s;
    TakenHeld(s0, s, mem, q, taken);
    count := |taken|;
    if count != 0 {
      s := FreeAll(s, taken, mem);
    } else {
      assert Returned(s1, s, taken) by { assert forall c :: 0 <= c < |s.free| ==> s.free[c] + [] == s.free[c]; }
    }
    PurgedAll(s0, s1, s, mem, q, taken);
  }

  /** A purge never takes a dirty page, and what it takes is on the device. */
  lemma VictimsAreClean(s: State, mem: Memory, q: nat, p: PageId)
    requires Inv(s, mem) && q < NUM_QUEUES && p in Victims(s, s.clean[q].items)
    ensures p < |s.pages| && !s.pages[p].dirty && s.pages[p].valid
    ensures KeyOf(s.pages[p]) in mem ==>
              Block(s.disk, KeyOf(s.pages[p])) == s.pages[p].data == mem[KeyOf(s.pages[p])]
  {
    QueueHeads(s);
    LockIdle(s, p);
    Local(s, p);
    Recall(s, mem);
    assert PageCoherent(s.pages[p], s.disk, mem);
  }
}
