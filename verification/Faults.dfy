/** What a page fault returns, what a lost race comes to, and the runs that are always sound. */
module Faults {
  import opened Params
  import opened Placement
  import opened Lifecycle
  import opened Invariant
  import opened Coherence
  import opened Moves
  import opened Steps
  import opened Theorems
  import opened Exactness

  /** A completed fault, hit or miss, hands back a locked valid page for the requested block,
      holding what was last stored there. */
  lemma FaultReturns(s: State, mem: Memory, t: Step)
    requires Inv(s, mem) && Enabled(s, t) && (t.Hit? || t.ReadIn?)
    ensures var s' := Apply(s, t);
            var k := if t.Hit? then t.key else KeyOf(s.pages[t.p]);
            && Has(s'.rdx, k) && Get(s'.rdx, k) < |s'.pages|
            && var r := s'.pages[Get(s'.rdx, k)];
            && r.locked && r.valid && r.inUse && KeyOf(r) == k
            && (k in mem ==> r.data == mem[k])
  {
    var s' := Apply(s, t);
    KeepsInv(s, mem, t);
    if t.ReadIn? {
      Local(s, t.p);
      assert Has(s.rdx, KeyOf(s.pages[t.p])) by {
        assert Holds(Index, s);
        assert IndexAts(s.pages)[t.p] == Some(KeyOf(s.pages[t.p]));
      }
    }
    var k := if t.Hit? then t.key else KeyOf(s.pages[t.p]);
    IndexEntry(s', k);
    IndexEntry(s, k);
    Local(s', Get(s'.rdx, k));
    if t.ReadIn? { OneOwner(s, t.p, Get(s.rdx, k)); }
    if k in mem { ContentsAgree(s', mem, k); }
  }

  /** A load through any mapping sees the last store, unless a purge has taken the page off the
      index and not yet unmapped it; Stale.LoadExact says what such a load sees. */
  lemma LoadsCoherent(s: State, mem: Memory, m: Mapping)
    requires Inv(s, mem) && m in s.maps && m.key in mem
    ensures m.page < |s.pages| && (s.pages[m.page].data == mem[m.key] || s.pages[m.page].phase == PgUnindexed)
  {
    assert Holds(PageTables, s);
    Recall(s, mem);
    assert MappingOk(s.pages, m);
    Local(s, m.page);
    assert PageCoherent(s.pages[m.page], s.disk, mem);
  }

  // ---- freeing -------------------------------------------------------------------------------

  /** A detached page can always be linked, and on its home list. */
  lemma CanLink(s: State, p: PageId)
    requires Structure(s) && p < |s.pages| && s.pages[p].phase.Detached?
    ensures s.home[p] < |s.free| && s.pages[p].phase.list == s.home[p] && Enabled(s, FreeLink(p))
  {
    Local(s, p);
    assert Holds(Sizes, s);
  }

  predicate Freeable(s: State, p: PageId) { InPhase(s, p, Lost) || InPhase(s, p, PgUnmapped) }

  /** free_page_lock up to the unlock: FreeStart and then FreeReset. */
  function Reset(s: State, p: PageId): State
    requires Freeable(s, p)
  {
    var s1 := DoFreeStart(s, p);
    DoFreeReset(s1, p)
  }

  function ResetRecord(r: Page): Page {
    r.(inUse := false, index := 0, pvd := NULL_PVD, valid := false, dirty := false, buf := BI_NONE,
       cpuid := 0, locked := false, phase := Detached(r.cpuid))
  }

  lemma ResetIs(s: State, p: PageId)
    requires Freeable(s, p)
    ensures Reset(s, p) == s.(pages := s.pages[p := ResetRecord(s.pages[p])])
  {
    UpdateTwice(s.pages, p, DoFreeStart(s, p).pages[p], ResetRecord(s.pages[p]));
  }

  lemma KeepReset(s: State, mem: Memory, p: PageId)
    requires Inv(s, mem) && Freeable(s, p)
    ensures Inv(Reset(s, p), mem)
  {
    KeepFreeStart(s, mem, p);
    KeepFreeReset(DoFreeStart(s, p), mem, p);
  }

  /** A freed page, the loser's or a purge victim's, returns blank to the tail of the list it was
      first taken from, and nothing else changes. */
  lemma FreeReturnsHome(s: State, mem: Memory, p: PageId)
    requires Inv(s, mem) && Freeable(s, p)
    ensures Enabled(Reset(s, p), FreeLink(p)) && s.home[p] < |s.free|
    ensures var s', c := DoFreeLink(Reset(s, p), p), s.home[p];
            && Inv(s', mem) && BlankPage(s'.pages[p])
            && s'.pages == s.pages[p := ResetRecord(s.pages[p]).(phase := OnFreeList)]
            && s' == s.(pages := s'.pages, free := s.free[c := s.free[c] + [p]])
  {
    var s2, r := Reset(s, p), ResetRecord(s.pages[p]);
    ResetIs(s, p);
    KeepReset(s, mem, p);
    CanLink(s2, p);
    KeepFreeLink(s2, mem, p);
    Local(s, p);
    UpdateTwice(s.pages, p, r, r.(phase := OnFreeList));
  }

  // ---- a single device -----------------------------------------------------------------------

  /** Every page in use, or on its way there, belongs to device d. */
  ghost predicate OnlyDevice(s: State, d: nat) {
    forall p :: 0 <= p < |s.pages| ==> BelongsTo(s.pages[p], d)
  }

  predicate BelongsTo(r: Page, d: nat) {
    && (r.inUse || r.phase.Prepared? ==> r.pvd == d)
    && (r.phase.Popped? ==> r.phase.dev == d)
    && (r.phase.Freeing? ==> !r.inUse)
  }

  /** Faults and mkwrites for device d only. */
  predicate ForDevice(t: Step, d: nat) {
    (t.Pop? ==> t.dev == d) && (t.MkLock? ==> t.dev == d)
  }

  lemma OnlyDeviceStep(s: State, t: Step, d: nat)
    requires OnlyDevice(s, d) && Enabled(s, t) && ForDevice(t, d)
    ensures OnlyDevice(Apply(s, t), d)
  {
    var s' := Apply(s, t);
    forall p | 0 <= p < |s'.pages| ensures BelongsTo(s'.pages[p], d) {
      assert BelongsTo(s.pages[p], d);
      if FaultStep(t) { BelongsFault(s, t, d, p); }
      else if EvictStep(t) { BelongsEvict(s, t, d, p); }
      else { BelongsRest(s, t, d, p); }
    }
  }

  lemma BelongsFault(s: State, t: Step, d: nat, p: PageId)
    requires Enabled(s, t) && ForDevice(t, d) && FaultStep(t) && p < |s.pages| && BelongsTo(s.pages[p], d)
    ensures BelongsTo(Apply(s, t).pages[p], d)
  {
    if MissStep(t) { BelongsMiss(s, t, d, p); } else { BelongsMap(s, t, d, p); }
  }

  lemma BelongsMiss(s: State, t: Step, d: nat, p: PageId)
    requires Enabled(s, t) && ForDevice(t, d) && MissStep(t) && p < |s.pages| && BelongsTo(s.pages[p], d)
    ensures BelongsTo(Apply(s, t).pages[p], d)
  {
  }

  lemma BelongsMap(s: State, t: Step, d: nat, p: PageId)
    requires Enabled(s, t) && ForDevice(t, d) && MapStep(t) && p < |s.pages| && BelongsTo(s.pages[p], d)
    ensures BelongsTo(Apply(s, t).pages[p], d)
  {
  }

  lemma BelongsEvict(s: State, t: Step, d: nat, p: PageId)
    requires Enabled(s, t) && ForDevice(t, d) && EvictStep(t) && p < |s.pages| && BelongsTo(s.pages[p], d)
    ensures BelongsTo(Apply(s, t).pages[p], d)
  {
    if MkStep(t) { BelongsMk(s, t, d, p); } else { BelongsEv(s, t, d, p); }
  }

  lemma BelongsMk(s: State, t: Step, d: nat, p: PageId)
    requires Enabled(s, t) && ForDevice(t, d) && MkStep(t) && p < |s.pages| && BelongsTo(s.pages[p], d)
    ensures BelongsTo(Apply(s, t).pages[p], d)
  {
  }

  lemma BelongsEv(s: State, t: Step, d: nat, p: PageId)
    requires Enabled(s, t) && ForDevice(t, d) && EvictStep(t) && !MkStep(t) && p < |s.pages| && BelongsTo(s.pages[p], d)
    ensures BelongsTo(Apply(s, t).pages[p], d)
  {
  }

  lemma BelongsRest(s: State, t: Step, d: nat, p: PageId)
    requires Enabled(s, t) && ForDevice(t, d) && !FaultStep(t) && !EvictStep(t)
    requires p < |s.pages| && BelongsTo(s.pages[p], d)
    ensures BelongsTo(Apply(s, t).pages[p], d)
  {
  }

  /** With one device open, a foreign mkwrite cannot happen: every run in which no write leaves a
      block out is sound. */
  lemma {:induction false} OneDeviceIsSound(s: State, run: seq<Step>, d: nat)
    requires OnlyDevice(s, d) && Legal(s, run) && forall t :: t in run ==> ForDevice(t, d) && !t.DropBlock?
    ensures SoundRun(s, run)
    decreases |run|
  {
    if run != [] {
      var t := run[0];
      assert t in run;
      if t.MkLock? { assert BelongsTo(s.pages[t.p], d); }
      OnlyDeviceStep(s, t, d);
      OneDeviceIsSound(Apply(s, t), run[1..], d);
    }
  }

  /** Through any run of one device all pages stay its own. */
  lemma {:induction false} OnlyDeviceRun(s: State, run: seq<Step>, d: nat)
    requires OnlyDevice(s, d) && Legal(s, run) && forall t :: t in run ==> ForDevice(t, d)
    ensures OnlyDevice(After(s, run), d)
    decreases |run|
  {
    if run != [] {
      var t := run[0];
      assert t in run;
      OnlyDeviceStep(s, t, d);
      OnlyDeviceRun(Apply(s, t), run[1..], d);
    }
  }
}
