/** What a thread meets that still uses a page through an old mapping: a load between a purge's
    index removal and its unmapping, and a mkwrite delivered after the page has changed hands. */
module Stale {
  import opened Params
  import opened Placement
  import opened Lifecycle
  import opened Invariant
  import opened Coherence
  import opened Moves
  import opened Steps
  import opened Theorems
  import opened Guarantees
  import opened Exactness
  import opened Faults
  import opened Held

  // ---- loads ---------------------------------------------------------------------------------

  /** The value of the last store to block k in a run, if there is one. */
  function LastTo(run: seq<Step>, k: Key): Option<Data> {
    if run == [] then None
    else
      var later := LastTo(run[1..], k);
      if later.Some? then later else if run[0].Store? && run[0].m.key == k then Some(run[0].v) else None
  }

  lemma {:induction false} LastToIs(mem: Memory, run: seq<Step>, k: Key)
    ensures k in LastStored(mem, run) <==> k in mem || LastTo(run, k).Some?
    ensures k in LastStored(mem, run) ==>
              LastStored(mem, run)[k] == if LastTo(run, k).Some? then LastTo(run, k).value else mem[k]
    decreases |run|
  {
    if run != [] { LastToIs(Remember(mem, run[0]), run[1..], k); }
  }

  /** A page off the index moves on only when its purge unmaps it. */
  lemma OnlyUnmaps(s: State, t: Step, p: PageId)
    requires Enabled(s, t) && InPhase(s, p, PgUnindexed) && t != PgUnmap(p)
    ensures NotOn(t, p)
  {
  }

  lemma {:induction false} StaysUnindexed(s: State, mem: Memory, run: seq<Step>, p: PageId)
    requires Inv(s, mem) && Legal(s, run) && SoundRun(s, run) && InPhase(s, p, PgUnindexed) && PgUnmap(p) !in run
    ensures Inv(After(s, run), LastStored(mem, run))
    ensures p < |After(s, run).pages| && After(s, run).pages[p] == s.pages[p]
    decreases |run|
  {
    if run != [] {
      var t := run[0];
      assert t in run;
      OnlyUnmaps(s, t, p);
      KeepsInv(s, mem, t);
      Unreached(s, t, p);
      StaysUnindexed(Apply(s, t), Remember(mem, t), run[1..], p);
    }
  }

  /** From a purge's index removal until it unmaps the page, through any run of all threads: the page
      keeps the value that was last stored before, so a load through a mapping of it sees the last
      store if and only if the stores to its block since then, if any, end with that same value. */
  lemma LoadExact(s: State, mem: Memory, p: PageId, s1: State, run: seq<Step>, s2: State, m: Mapping)
    requires Inv(s, mem) && InPhase(s, p, PgOut) && 0 < |s.rdx| && s1 == DoPgUnindex(s, p)
    requires Legal(s1, run) && SoundRun(s1, run) && s2 == After(s1, run) && PgUnmap(p) !in run
    requires m in s2.maps && m.page == p && m.key in mem
    ensures InPhase(s2, p, PgUnindexed) && m.key == KeyOf(s.pages[p]) && s2.pages[p].data == mem[m.key]
    ensures m.key in LastStored(mem, run)
    ensures s2.pages[p].data == LastStored(mem, run)[m.key] <==>
            LastTo(run, m.key) == None || LastTo(run, m.key) == Some(s2.pages[p].data)
  {
    KeepPgUnindex(s, mem, p);
    StaysUnindexed(s1, mem, run, p);
    assert m.key == KeyOf(s.pages[p]) by {
      assert Holds(PageTables, s2);
      assert MappingOk(s2.pages, m);
    }
    Local(s, p);
    Recall(s, mem);
    assert PageCoherent(s.pages[p], s.disk, mem);
    LastToIs(mem, run, m.key);
  }

  // ---- mkwrites ------------------------------------------------------------------------------

  /** The attempt is granted on a clean page. */
  predicate Dirties(r: Page, o: nat) { r.inUse && !r.locked && !r.dirty && r.index == o }

  /** An attempt on a page that is not lockable under the requested index takes no step. */
  lemma NoGrant(s: State, p: PageId, d: nat, o: nat)
    requires p < |s.pages| && TryLock(s.pages[p], Some(o)) != 0
    ensures Legal(s, Mkwrite(s, p, d, o)) && After(s, Mkwrite(s, p, d, o)) == s
  {
  }

  lemma AttemptExact(s: State, p: PageId, d: nat, o: nat)
    requires Structure(s) && p < |s.pages|
    ensures Legal(s, Mkwrite(s, p, d, o))
    ensures After(s, Mkwrite(s, p, d, o)) != s <==> Dirties(s.pages[p], o)
  {
    if TryLock(s.pages[p], Some(o)) != 0 {
      NoGrant(s, p, d, o);
    } else {
      LockIdle(s, p);
      if s.pages[p].dirty { MkwriteAgain(s, p, d, o); } else { MkwriteExact(s, p, d, o); }
    }
  }

  /** A mkwrite that began on mapping m, attempted after any sound run since: it changes the state if
      and only if the page is then in use, unlocked, clean and at the offset of m; it waits, to be
      attempted again after a further run, exactly when the page is in use at that offset but
      locked. With one device, the page it dirties is then the index entry of m's own block. */
  lemma StaleMkwrite(s0: State, mem: Memory, m: Mapping, run: seq<Step>, s: State, d: nat)
    requires Inv(s0, mem) && m in s0.maps && Legal(s0, run) && SoundRun(s0, run) && s == After(s0, run)
    ensures m.page < |s.pages| && Legal(s, Mkwrite(s, m.page, m.key.dev, m.key.off))
    ensures After(s, Mkwrite(s, m.page, m.key.dev, m.key.off)) != s <==> Dirties(s.pages[m.page], m.key.off)
    ensures TryLock(s.pages[m.page], Some(m.key.off)) == -1 <==>
            s.pages[m.page].inUse && s.pages[m.page].index == m.key.off && s.pages[m.page].locked
    ensures OnlyDevice(s0, d) && (forall t :: t in run ==> ForDevice(t, d)) && Dirties(s.pages[m.page], m.key.off) ==>
              Has(s.rdx, m.key) && Get(s.rdx, m.key) == m.page
  {
    MappedPage(s0, m);
    SamePages(s0, run);
    RunKeepsInv(s0, mem, run);
    AttemptExact(s, m.page, m.key.dev, m.key.off);
    if OnlyDevice(s0, d) && (forall t :: t in run ==> ForDevice(t, d)) && Dirties(s.pages[m.page], m.key.off) {
      OnlyDeviceRun(s0, run, d);
      assert BelongsTo(s0.pages[m.page], d) && BelongsTo(s.pages[m.page], d);
      LockGrant(s, m.page, Some(m.key.off));
    }
  }

  lemma MappedPage(s: State, m: Mapping)
    requires Structure(s) && m in s.maps
    ensures m.page < |s.pages| && s.pages[m.page].inUse && KeyOf(s.pages[m.page]) == m.key
  {
    assert Holds(PageTables, s);
    assert MappingOk(s.pages, m);
    Local(s, m.page);
  }
}
