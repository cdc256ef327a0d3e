/** The second half of an evictor's round: the gathered batch is protected, written, put into the
    clean FIFOs and unlocked. */
module EvictorRound {
  import opened Params
  import opened Fifo
  import opened Placement
  import opened Lifecycle
  import opened Invariant
  import opened Interference
  import opened Interleaving
  import opened Evictor
  import opened WriteBack
  import opened Batches
  import opened ListOrder
  import opened Runs

  /** A dirty page after its round: clean, unlocked, in its clean FIFO. */
  function Evicted(r: Page): Page { r.(buf := BI_CLEAN, dirty := false, locked := false, phase := Idle) }

  lemma BatchShape(s: State, e: nat, b: seq<PageId>)
    requires Structure(s) && Batch(s, e, b) && b != []
    ensures NoDup(b) && AllIn(s, b, EvOut) && Writable(s, b, s.pages[b[0]].pvd)
  {
    var lo := s.pages[b[0]].index;
    forall i | 0 <= i < |b| ensures Member(s, b[i], s.pages[b[0]].pvd, lo, BlockEnd(lo)) {
    }
    forall i, j | 0 <= i < j < |b| ensures s.pages[b[i]].index < s.pages[b[j]].index {
    }
  }

  /** Sweeping with one change after another amounts to sweeping once with both. */
  lemma SweepTwice(x: seq<Page>, y: seq<Page>, z: seq<Page>, b: seq<PageId>, f: Page -> Page, g: Page -> Page,
                   h: Page -> Page)
    requires Swept(x, y, b, |b|, f) && Swept(y, z, b, |b|, g) && forall r :: h(r) == g(f(r))
    ensures Swept(x, z, b, |b|, h)
  {
    forall i | 0 <= i < |b| && b[i] < |z| ensures z[b[i]] == h(x[b[i]]) {
      assert y[b[i]] == f(x[b[i]]);
    }
  }

  lemma SweptIn(s: State, s': State, b: seq<PageId>, f: Page -> Page, from: Phase, to: Phase)
    requires AllIn(s, b, from) && Swept(s.pages, s'.pages, b, |b|, f)
    requires forall r: Page :: r.phase == from ==> f(r).phase == to
    ensures AllIn(s', b, to)
  {
    forall i | 0 <= i < |b| ensures InPhase(s', b[i], to) { assert InPhase(s, b[i], from); }
  }

  lemma SameBatch(s: State, s': State, b: seq<PageId>, d: nat)
    requires Writable(s, b, d) && Swept(s.pages, s'.pages, b, |b|, Protected)
    ensures Writable(s', b, d) && Offsets(s', b) == Offsets(s, b) && Copies(s', b) == Copies(s, b)
  {
    forall i | 0 <= i < |b| ensures s'.pages[b[i]] == Protected(s.pages[b[i]]) {
    }
  }

  function Flushed(r: Page): Page { r.(phase := EvWritten) }

  lemma SweepFlushed(x: seq<Page>, y: seq<Page>, z: seq<Page>, b: seq<PageId>)
    requires Swept(x, y, b, |b|, Protected) && Swept(y, z, b, |b|, Wrote)
    ensures Swept(x, z, b, |b|, Flushed)
  {
    SweepTwice(x, y, z, b, Protected, Wrote, Flushed);
  }

  /** Protect all, then write all. */
  method Flush(s0: State, b: seq<PageId>, d: nat, ghost mem: Memory) returns (s: State)
    requires Held(s0, mem, b, EvOut) && Writable(s0, b, d)
    ensures Held(s, mem - LeftOut(d, Offsets(s0, b)), b, EvWritten)
    ensures Swept(s0.pages, s.pages, b, |b|, Flushed)
    ensures Reached(s0.disk, s.disk, d, Offsets(s0, b), Copies(s0, b), CoveredPages(Offsets(s0, b)))
    ensures s == s0.(pages := s.pages, maps := ReadOnlyFor(s0.maps, b), disk := s.disk)
  {
    var s1 := ProtectAll(s0, b, mem);
    SweptIn(s0, s1, b, Protected, EvOut, EvProtected);
    SameBatch(s0, s1, b, d);
    s := WriteAll(s1, b, d, EvProtected, mem);
    SweptIn(s1, s, b, Wrote, EvProtected, EvWritten);
    SweepFlushed(s0.pages, s1.pages, s.pages, b);
  }

  /** Into the clean FIFOs, then unlock. */
  method Return(s0: State, b: seq<PageId>, ghost mem: Memory) returns (s: State)
    requires Held(s0, mem, b, EvWritten)
    ensures Inv(s, mem) && Swept(s0.pages, s.pages, b, |b|, Evicted)
    ensures s == s0.(pages := s.pages, clean := s.clean) && TailGains(s0.clean, s.clean, s0.pages, b)
  {
    var s1 := EnterAll(s0, b, mem);
    SweptIn(s0, s1, b, Cleaned, EvWritten, Settled);
    s := UnlockAll(s1, b, mem);
    SweepTwice(s0.pages, s1.pages, s.pages, b, Cleaned, Unlocked, Evicted);
  }

  /** The rest of a round: every page of the batch ends up unlocked, clean and in its clean FIFO,
      its contents on the device unless it ends a run of more than 256 pages, and nothing else in
      the cache has changed. */
  method Finish(s0: State, b: seq<PageId>, d: nat, ghost mem: Memory) returns (s: State)
    requires Held(s0, mem, b, EvOut) && Writable(s0, b, d)
    ensures Inv(s, mem - LeftOut(d, Offsets(s0, b)))
    ensures Swept(s0.pages, s.pages, b, |b|, Evicted)
    ensures Reached(s0.disk, s.disk, d, Offsets(s0, b), Copies(s0, b), CoveredPages(Offsets(s0, b)))
    ensures s == s0.(pages := s.pages, maps := ReadOnlyFor(s0.maps, b), disk := s.disk, clean := s.clean)
    ensures TailGains(s0.clean, s.clean, s0.pages, b)
  {
    var s1 := Flush(s0, b, d, mem);
    s := Return(s1, b, mem - LeftOut(d, Offsets(s0, b)));
    SweepTwice(s0.pages, s1.pages, s.pages, b, Flushed, Evicted, Evicted);
    TailGainsSame(s1.clean, s.clean, s1.pages, s0.pages, b);
  }

  /** pvd of a batch. */
  function DeviceOf(s: State, b: seq<PageId>): nat
    requires Known(s, b)
  {
    if b == [] then NULL_PVD else s.pages[b[0]].pvd
  }

  /** What a round leaves of the state in which its batch was gathered. */
  ghost predicate RoundDone(s0: State, s: State, b: seq<PageId>)
    requires Known(s0, b)
  {
    var d, offs := DeviceOf(s0, b), Offsets(s0, b);
    && Swept(s0.pages, s.pages, b, |b|, Evicted)
    && Reached(s0.disk, s.disk, d, offs, Copies(s0, b), CoveredPages(offs))
    && s == s0.(pages := s.pages, maps := ReadOnlyFor(s0.maps, b), disk := s.disk, clean := s.clean)
    && TailGains(s0.clean, s.clean, s0.pages, b)
  }

  /** The rest of the round for a gathered batch, when it has any page. */
  method FinishBatch(s0: State, e: nat, b: seq<PageId>, ghost mem: Memory) returns (s: State)
    requires Inv(s0, mem) && Batch(s0, e, b) && Known(s0, b)
    ensures Inv(s, mem - LeftOut(DeviceOf(s0, b), Offsets(s0, b))) && RoundDone(s0, s, b)
    ensures b == [] ==> s == s0
  {
    s := s0;
    if b != [] {
      BatchShape(s0, e, b);
      s := Finish(s0, b, s0.pages[b[0]].pvd, mem);
    } else {
      ReadOnlyNone(s0.maps);
      Forget(s0, mem, LeftOut(DeviceOf(s0, b), Offsets(s0, b)));
    }
  }

  lemma BatchKnown(s: State, e: nat, b: seq<PageId>)
    requires Batch(s, e, b)
    ensures Known(s, b)
  {
    if b != [] {
      var r := s.pages[b[0]];
      forall i | 0 <= i < |b| ensures b[i] < |s.pages| {
        assert Member(s, b[i], r.pvd, r.index, BlockEnd(r.index));
      }
    }
  }

  /** A whole round. A sound run of this evictor and the others leads from s0 to the state in which
      the batch is gathered; from there exactly the covered pages reach the device, the cache keeps
      every store but those of the blocks left out, and if no run of the batch exceeds 256 pages it
      keeps all of them. */
  method Round(s0: State, e: nat, others: Others, ghost mem0: Memory)
      returns (s: State, batch: seq<PageId>, ghost gathered: State, ghost mem: Memory, ghost own: seq<Step>)
    requires Inv(s0, mem0) && e < EVICTOR_THREADS && s0.hands[e].Empty? && Polite(others, e)
    ensures Leads(s0, mem0, gathered, mem) && Inv(gathered, mem)
    ensures Weaves(s0, mem0, own, others, gathered, mem) && Gathers(s0, own, e, gathered, batch)
    ensures Batch(gathered, e, batch) && |batch| <= 512 && Known(gathered, batch)
    ensures RoundDone(gathered, s, batch)
    ensures Inv(s, mem - LeftOut(DeviceOf(gathered, batch), Offsets(gathered, batch)))
    ensures NoLongRun(Offsets(gathered, batch)) ==> Inv(s, mem)
    ensures batch != [] <==> Ready(s0, e)
  {
    var capped;
    s, batch, capped, mem, own := Gather(s0, e, others, mem0);
    gathered := s;
    BatchKnown(s, e, batch);
    s := FinishBatch(s, e, batch, mem);
    KeepsAll(s, mem, DeviceOf(gathered, batch), Offsets(gathered, batch));
  }

  lemma KeepsAll(s: State, mem: Memory, d: nat, offs: seq<nat>)
    requires Inv(s, mem - LeftOut(d, offs))
    ensures NoLongRun(offs) ==> Inv(s, mem)
  {
    NothingLost(d, offs);
    assert mem - {} == mem;
  }
}
