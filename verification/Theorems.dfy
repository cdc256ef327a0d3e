/** The results about whole runs. */
module Theorems {
  import opened Params
  import opened Fifo
  import opened Placement
  import opened Lifecycle
  import opened Invariant
  import opened Coherence
  import opened Moves
  import opened Steps

  // ---- the steps by thread -------------------------------------------------------------------

  /** A fault that misses, up to the read. */
  predicate MissStep(t: Step) {
    t.Pop? || t.Prepare? || t.Publish? || t.IndexInsert? || t.EnterClean? || t.ReadIn?
  }

  /** Hits, page tables and stores. */
  predicate MapStep(t: Step) {
    t.Hit? || t.MapPage? || t.GrantWrite? || t.Unlock? || t.Store? || t.Unmap?
  }

  predicate FaultStep(t: Step) { MissStep(t) || MapStep(t) }

  predicate MkStep(t: Step) { t.MkLock? || t.MkTree? || t.MkLeave? || t.MkEnter? }

  predicate EvStep(t: Step) {
    t.EvDequeue? || t.EvUntree? || t.EvProbe? || t.EvClaim? || t.EvPutBack? || t.EvEnter?
  }

  predicate EvictStep(t: Step) { MkStep(t) || EvStep(t) }

  /** fsync and write-back. */
  predicate FsStep(t: Step) {
    t.FsTake? || t.FsLeave? || t.FsEnter? || t.Protect? || t.SkipProtect? || t.WriteBlock? || t.DropBlock?
  }

  /** Purge and free. */
  predicate PurgeStep(t: Step) {
    t.PgDequeue? || t.PgUnindex? || t.PgUnmap? || t.FreeStart? || t.FreeReset? || t.FreeLink?
  }

  lemma KeepsMiss(s: State, mem: Memory, t: Step)
    requires Inv(s, mem) && Enabled(s, t) && MissStep(t)
    ensures Inv(Apply(s, t), mem)
  {
    if t.Pop? { KeepPop(s, mem, t.cpu, t.dev, t.off); }
    else if t.Prepare? { KeepPrepare(s, mem, t.p); }
    else if t.Publish? { KeepPublish(s, mem, t.p); }
    else if t.IndexInsert? { KeepIndexInsert(s, mem, t.p); }
    else if t.EnterClean? { KeepEnterClean(s, mem, t.p); }
    else { KeepReadIn(s, mem, t.p); }
  }

  lemma KeepsMap(s: State, mem: Memory, t: Step)
    requires Inv(s, mem) && Enabled(s, t) && MapStep(t)
    ensures Inv(Apply(s, t), Remember(mem, t))
  {
    if t.Hit? { KeepHit(s, mem, t.key); }
    else if t.MapPage? { KeepMapPage(s, mem, t.p, t.vma); }
    else if t.GrantWrite? { KeepGrantWrite(s, mem, t.m); }
    else if t.Unlock? { KeepUnlock(s, mem, t.p); }
    else if t.Store? { KeepStore(s, mem, t.m, t.v); }
    else { KeepUnmap(s, mem, t.m); }
  }

  lemma KeepsMk(s: State, mem: Memory, t: Step)
    requires Inv(s, mem) && Enabled(s, t) && Sound(s, t) && MkStep(t)
    ensures Inv(Apply(s, t), mem)
  {
    if t.MkLock? { KeepMkLock(s, mem, t.p, t.dev, t.off); }
    else if t.MkTree? { KeepMkTree(s, mem, t.p); }
    else if t.MkLeave? { KeepMkLeave(s, mem, t.p); }
    else { KeepMkEnter(s, mem, t.p); }
  }

  lemma KeepsEv(s: State, mem: Memory, t: Step)
    requires Inv(s, mem) && Enabled(s, t) && EvStep(t)
    ensures Inv(Apply(s, t), mem)
  {
    if t.EvDequeue? { KeepEvDequeue(s, mem, t.e); }
    else if t.EvUntree? { KeepEvUntree(s, mem, t.p); }
    else if t.EvProbe? { KeepEvProbe(s, mem, t.e, t.key); }
    else if t.EvClaim? { KeepEvClaim(s, mem, t.e); }
    else if t.EvPutBack? { KeepEvPutBack(s, mem, t.e); }
    else { KeepEvEnter(s, mem, t.p); }
  }

  lemma KeepsFs(s: State, mem: Memory, t: Step)
    requires Inv(s, mem) && Enabled(s, t) && FsStep(t) && !t.DropBlock?
    ensures Inv(Apply(s, t), mem)
  {
    if t.FsTake? { KeepFsTake(s, mem, t.key); }
    else if t.FsLeave? { KeepFsLeave(s, mem, t.p); }
    else if t.FsEnter? { KeepFsEnter(s, mem, t.p); }
    else if t.Protect? { KeepProtect(s, mem, t.p); }
    else if t.SkipProtect? { KeepSkipProtect(s, mem, t.p); }
    else { KeepWriteBlock(s, mem, t.p); }
  }

  lemma KeepsPurge(s: State, mem: Memory, t: Step)
    requires Inv(s, mem) && Enabled(s, t) && PurgeStep(t)
    ensures Inv(Apply(s, t), mem)
  {
    if t.PgDequeue? { KeepPgDequeue(s, mem, t.q); }
    else if t.PgUnindex? { KeepPgUnindex(s, mem, t.p); }
    else if t.PgUnmap? { KeepPgUnmap(s, mem, t.p); }
    else if t.FreeStart? { KeepFreeStart(s, mem, t.p); }
    else if t.FreeReset? { KeepFreeReset(s, mem, t.p); }
    else { KeepFreeLink(s, mem, t.p); }
  }

  /** Every sound step keeps the invariant. */
  lemma KeepsInv(s: State, mem: Memory, t: Step)
    requires Inv(s, mem) && Enabled(s, t) && Sound(s, t)
    ensures Inv(Apply(s, t), Remember(mem, t))
  {
    if MissStep(t) { KeepsMiss(s, mem, t); }
    else if MapStep(t) { KeepsMap(s, mem, t); }
    else if MkStep(t) { KeepsMk(s, mem, t); }
    else if EvStep(t) { KeepsEv(s, mem, t); }
    else if FsStep(t) { KeepsFs(s, mem, t); }
    else { KeepsPurge(s, mem, t); }
  }

  // ---- every run -----------------------------------------------------------------------------

  /** Initially each defined block is what the device holds. */
  ghost predicate InitialMemory(s: State, mem: Memory) {
    forall k :: k in mem ==> Readable(s, k) && Block(s.disk, k) == mem[k]
  }

  lemma InitFreeLists(s: State, per: nat)
    requires |s.home| == |s.pages| && FreshLists(s, per)
    requires forall p :: 0 <= p < |s.pages| ==> BlankPage(s.pages[p])
    ensures Queued(s.free, FreeAts(s.pages, s.home))
  {
    var at := FreeAts(s.pages, s.home);
    forall q | 0 <= q < |s.free| ensures NoDup(s.free[q]) {
      assert forall i :: 0 <= i < per ==> s.free[q][i] == q * per + i;
    }
    forall q, p | 0 <= q < |s.free| && p in s.free[q] ensures p < |at| && at[p] == Some(q) {
      var i :| 0 <= i < per && s.free[q][i] == p;
      assert s.home[q * per + i] == q;
    }
    forall p | 0 <= p < |at| && at[p].Some? ensures at[p].value < |s.free| && p in s.free[at[p].value] {
      var c := s.home[p];
      assert s.free[c][p - c * per] == c * per + (p - c * per);
    }
  }

  lemma InitStructure(s: State)
    requires Init(s)
    ensures Structure(s)
  {
    forall c: Clause ensures Holds(c, s) {
      if c == FreeLists {
        var per: nat :| |s.pages| == |s.free| * per && FreshLists(s, per);
        InitFreeLists(s, per);
      }
    }
  }

  lemma InitHolds(s: State, mem: Memory)
    requires Init(s) && InitialMemory(s, mem)
    ensures Inv(s, mem)
  {
    InitStructure(s);
    Establish(s, mem);
  }

  /** The invariant holds throughout every sound run from any state that satisfies it. */
  lemma {:induction false} RunKeepsInv(s: State, mem: Memory, run: seq<Step>)
    requires Inv(s, mem) && Legal(s, run) && SoundRun(s, run)
    ensures Inv(After(s, run), LastStored(mem, run))
    decreases |run|
  {
    if run != [] {
      KeepsInv(s, mem, run[0]);
      RunKeepsInv(Apply(s, run[0]), Remember(mem, run[0]), run[1..]);
    }
  }

  lemma ContentsAgree(s: State, mem: Memory, k: Key)
    requires Inv(s, mem) && k in mem
    ensures Contents(s, k) == mem[k]
  {
    Recall(s, mem);
    if Has(s.rdx, k) {
      IndexEntry(s, k);
      var p := Get(s.rdx, k);
      Local(s, p);
      assert PageCoherent(s.pages[p], s.disk, mem);
    }
  }

  /** Durability: whatever is not in an unwritten page is on the device. */
  lemma Durable(s: State, mem: Memory, k: Key)
    requires Inv(s, mem) && k in mem
    requires Has(s.rdx, k) ==> Get(s.rdx, k) < |s.pages| && !MayLag(s.pages[Get(s.rdx, k)])
    ensures Block(s.disk, k) == mem[k]
  {
    Recall(s, mem);
    if Has(s.rdx, k) {
      IndexEntry(s, k);
      assert PageCoherent(s.pages[Get(s.rdx, k)], s.disk, mem);
    }
  }
}
