/** Every sound step keeps the invariant, step by step. */
module Steps {
  import opened Params
  import opened Placement
  import opened Lifecycle
  import opened Invariant
  import opened Coherence
  import opened Moves

  // ---- blocks: the steps that read, write or hand over one -----------------------------------

  lemma CoherentIndexInsert(s: State, mem: Memory, p: PageId)
    requires Inv(s, mem) && Enabled(s, IndexInsert(p))
    ensures Coherent(DoIndexInsert(s, p), mem)
  {
    Recall(s, mem);
    Local(s, p);
    var s', r := DoIndexInsert(s, p), s.pages[p];
    if Has(s.rdx, KeyOf(r)) {
      Quiet(s, s', mem, p, r.(phase := Lost));
    } else {
      forall x | 0 <= x < |s'.pages| ensures PageCoherent(s'.pages[x], s'.disk, mem) {
        assert PageCoherent(s.pages[x], s.disk, mem);
      }
      forall k | k in mem && !Has(s'.rdx, k) ensures Block(s'.disk, k) == mem[k] {
        HasAfter(s.rdx, KeyOf(r), p, k);
      }
      Establish(s', mem);
    }
  }

  lemma CoherentReadIn(s: State, mem: Memory, p: PageId)
    requires Inv(s, mem) && Enabled(s, ReadIn(p))
    ensures Coherent(DoReadIn(s, p), mem)
  {
    Recall(s, mem);
    Local(s, p);
    var s' := DoReadIn(s, p);
    forall x | 0 <= x < |s'.pages| ensures PageCoherent(s'.pages[x], s'.disk, mem) {
      assert PageCoherent(s.pages[x], s.disk, mem);
    }
    Establish(s', mem);
  }

  lemma CoherentStore(s: State, mem: Memory, m: Mapping, v: Data)
    requires Inv(s, mem) && Enabled(s, Store(m, v))
    ensures Coherent(DoStore(s, m, v), mem[m.key := v])
  {
    Recall(s, mem);
    var p := m.page;
    assert MappingOk(s.pages, m) by { assert Holds(PageTables, s); }
    Local(s, p);
    assert Has(s.rdx, m.key) by { assert Holds(Index, s); assert IndexAts(s.pages)[p] == Some(m.key); }
    var s', mem' := DoStore(s, m, v), mem[m.key := v];
    forall x | 0 <= x < |s'.pages| ensures PageCoherent(s'.pages[x], s'.disk, mem') {
      assert PageCoherent(s.pages[x], s.disk, mem);
      if InIndex(s.pages[x].phase) && KeyOf(s.pages[x]) == m.key { OneOwner(s, p, x); }
    }
    assert Loaded(s.pages[p].phase);
    Establish(s', mem');
  }

  lemma CoherentWriteBlock(s: State, mem: Memory, p: PageId)
    requires Inv(s, mem) && Enabled(s, WriteBlock(p))
    ensures Coherent(DoWriteBlock(s, p), mem)
  {
    Recall(s, mem);
    Local(s, p);
    var s', k := DoWriteBlock(s, p), KeyOf(s.pages[p]);
    assert Has(s.rdx, k) by { assert Holds(Index, s); assert IndexAts(s.pages)[p] == Some(k); }
    forall x | 0 <= x < |s'.pages| ensures PageCoherent(s'.pages[x], s'.disk, mem) {
      assert PageCoherent(s.pages[x], s.disk, mem);
      if InIndex(s.pages[x].phase) && KeyOf(s.pages[x]) == k { OneOwner(s, p, x); }
    }
    forall x | 0 <= x < |s'.pages| && Loaded(s'.pages[x].phase) ensures Readable(s', KeyOf(s'.pages[x])) {
      assert Loaded(s.pages[x].phase);
    }
    Establish(s', mem);
  }

  lemma CoherentPgUnindex(s: State, mem: Memory, p: PageId)
    requires Inv(s, mem) && Enabled(s, PgUnindex(p))
    ensures Coherent(DoPgUnindex(s, p), mem)
  {
    Recall(s, mem);
    Local(s, p);
    var s', k := DoPgUnindex(s, p), KeyOf(s.pages[p]);
    assert PageCoherent(s.pages[p], s.disk, mem);
    forall x | 0 <= x < |s'.pages| ensures PageCoherent(s'.pages[x], s'.disk, mem) {
      assert PageCoherent(s.pages[x], s.disk, mem);
    }
    forall j | j in mem && !Has(s'.rdx, j) ensures Block(s'.disk, j) == mem[j] {
      HasAfter(s.rdx, k, p, j);
    }
    forall x | 0 <= x < |s'.pages| && Loaded(s'.pages[x].phase) ensures Readable(s', KeyOf(s'.pages[x])) {
      assert Loaded(s.pages[x].phase);
    }
    Establish(s', mem);
  }

  // ---- allocation and free -------------------------------------------------------------------

  lemma KeepPop(s: State, mem: Memory, c: nat, d: nat, o: nat)
    requires Inv(s, mem) && Enabled(s, Pop(c, d, o))
    ensures Inv(DoPop(s, c, d, o), mem)
  {
    var p := s.free[c][0];
    var r := s.pages[p].(cpuid := c, phase := Popped(d, o));
    Local(s, p);
    LeavesFree(s, c, r);
    Quiet(s, DoPop(s, c, d, o), mem, p, r);
  }

  lemma KeepPrepare(s: State, mem: Memory, p: PageId)
    requires Inv(s, mem) && Enabled(s, Prepare(p))
    ensures Inv(DoPrepare(s, p), mem)
  {
    Local(s, p);
    Stay(s, mem, p, DoPrepare(s, p).pages[p]);
  }

  lemma KeepPublish(s: State, mem: Memory, p: PageId)
    requires Inv(s, mem) && Enabled(s, Publish(p))
    ensures Inv(DoPublish(s, p), mem)
  {
    Local(s, p);
    Stay(s, mem, p, DoPublish(s, p).pages[p]);
  }

  lemma KeepFreeStart(s: State, mem: Memory, p: PageId)
    requires Inv(s, mem) && Enabled(s, FreeStart(p))
    ensures Inv(DoFreeStart(s, p), mem)
  {
    Local(s, p);
    Stay(s, mem, p, DoFreeStart(s, p).pages[p]);
  }

  lemma KeepFreeReset(s: State, mem: Memory, p: PageId)
    requires Inv(s, mem) && Enabled(s, FreeReset(p))
    ensures Inv(DoFreeReset(s, p), mem)
  {
    Local(s, p);
    Stay(s, mem, p, DoFreeReset(s, p).pages[p]);
  }

  lemma KeepFreeLink(s: State, mem: Memory, p: PageId)
    requires Inv(s, mem) && Enabled(s, FreeLink(p))
    ensures Inv(DoFreeLink(s, p), mem)
  {
    Local(s, p);
    var r := s.pages[p].(phase := OnFreeList);
    EntersFree(s, p, r);
    Quiet(s, DoFreeLink(s, p), mem, p, r);
  }

  /** A record that moves nowhere and says no more about its block. */
  lemma Stay(s: State, mem: Memory, p: PageId, r: Page)
    requires Inv(s, mem) && p < |s.pages| && Otherwise(s, p, r, {}) && SameBlock(s.pages[p], r)
    ensures Inv(WithPage(s, p, r), mem)
  {
    InPlace(s, p, r);
    Quiet(s, WithPage(s, p, r), mem, p, r);
  }

  // ---- faults --------------------------------------------------------------------------------

  lemma KeepIndexInsert(s: State, mem: Memory, p: PageId)
    requires Inv(s, mem) && Enabled(s, IndexInsert(p))
    ensures Inv(DoIndexInsert(s, p), mem)
  {
    Local(s, p);
    CoherentIndexInsert(s, mem, p);
    var r := s.pages[p];
    if Has(s.rdx, KeyOf(r)) {
      InPlace(s, p, r.(phase := Lost));
    } else {
      EntersIndex(s, p, r.(phase := Indexed));
    }
  }

  lemma KeepEnterClean(s: State, mem: Memory, p: PageId)
    requires Inv(s, mem) && Enabled(s, EnterClean(p))
    ensures Inv(DoEnterClean(s, p), mem)
  {
    Local(s, p);
    EntersClean(s, p, s.pages[p].(phase := Filling));
    Quiet(s, DoEnterClean(s, p), mem, p, DoEnterClean(s, p).pages[p]);
  }

  lemma KeepReadIn(s: State, mem: Memory, p: PageId)
    requires Inv(s, mem) && Enabled(s, ReadIn(p))
    ensures Inv(DoReadIn(s, p), mem)
  {
    Local(s, p);
    var r := DoReadIn(s, p).pages[p];
    InPlace(s, p, r);
    SameStructure(WithPage(s, p, r), DoReadIn(s, p));
    CoherentReadIn(s, mem, p);
  }

  lemma KeepHit(s: State, mem: Memory, k: Key)
    requires Inv(s, mem) && Enabled(s, Hit(k))
    ensures Inv(DoHit(s, k), mem)
  {
    var p := Get(s.rdx, k);
    LockIdle(s, p);
    Stay(s, mem, p, s.pages[p].(locked := true, phase := Settled));
  }

  lemma KeepUnlock(s: State, mem: Memory, p: PageId)
    requires Inv(s, mem) && Enabled(s, Unlock(p))
    ensures Inv(DoUnlock(s, p), mem)
  {
    Local(s, p);
    Stay(s, mem, p, s.pages[p].(locked := false, phase := Idle));
  }

  // ---- mappings and stores -------------------------------------------------------------------

  lemma KeepMapPage(s: State, mem: Memory, p: PageId, vma: nat)
    requires Inv(s, mem) && Enabled(s, MapPage(p, vma))
    ensures Inv(DoMapPage(s, p, vma), mem)
  {
    Local(s, p);
    NewMaps(s, DoMapPage(s, p, vma).maps) by { assert Holds(PageTables, s); }
    QuietContainers(s, DoMapPage(s, p, vma), mem);
  }

  lemma KeepGrantWrite(s: State, mem: Memory, m: Mapping)
    requires Inv(s, mem) && Enabled(s, GrantWrite(m))
    ensures Inv(DoGrantWrite(s, m), mem)
  {
    Local(s, m.page);
    NewMaps(s, DoGrantWrite(s, m).maps) by { assert Holds(PageTables, s); }
    QuietContainers(s, DoGrantWrite(s, m), mem);
  }

  lemma KeepUnmap(s: State, mem: Memory, m: Mapping)
    requires Inv(s, mem) && Enabled(s, Unmap(m))
    ensures Inv(DoUnmap(s, m), mem)
  {
    NewMaps(s, DoUnmap(s, m).maps) by { assert Holds(PageTables, s); }
    QuietContainers(s, DoUnmap(s, m), mem);
  }

  lemma KeepStore(s: State, mem: Memory, m: Mapping, v: Data)
    requires Inv(s, mem) && Enabled(s, Store(m, v))
    ensures Inv(DoStore(s, m, v), mem[m.key := v])
  {
    Local(s, m.page);
    InPlace(s, m.page, s.pages[m.page].(data := v));
    CoherentStore(s, mem, m, v);
  }

  // ---- mkwrite -------------------------------------------------------------------------------

  lemma KeepMkLock(s: State, mem: Memory, p: PageId, d: nat, o: nat)
    requires Inv(s, mem) && Enabled(s, MkLock(p, d, o)) && Sound(s, MkLock(p, d, o))
    ensures Inv(DoMkLock(s, p, d, o), mem)
  {
    LockIdle(s, p);
    Stay(s, mem, p, DoMkLock(s, p, d, o).pages[p]);
  }

  lemma KeepMkTree(s: State, mem: Memory, p: PageId)
    requires Inv(s, mem) && Enabled(s, MkTree(p))
    ensures !Has(s.trees, KeyOf(s.pages[p])) && Inv(DoMkTree(s, p), mem)
  {
    Local(s, p);
    NotInTree(s, p);
    var r := s.pages[p].(phase := MkInTree);
    EntersTree(s, p, r);
    Quiet(s, DoMkTree(s, p), mem, p, r);
  }

  lemma KeepMkLeave(s: State, mem: Memory, p: PageId)
    requires Inv(s, mem) && Enabled(s, MkLeave(p))
    ensures Inv(DoMkLeave(s, p), mem)
  {
    Local(s, p);
    var r := s.pages[p].(buf := BI_NONE, phase := MkLoose);
    LeavesClean(s, p, r);
    Quiet(s, DoMkLeave(s, p), mem, p, r);
  }

  lemma KeepMkEnter(s: State, mem: Memory, p: PageId)
    requires Inv(s, mem) && Enabled(s, MkEnter(p))
    ensures Inv(DoMkEnter(s, p), mem)
  {
    Local(s, p);
    var r := s.pages[p].(buf := BI_DIRTY, phase := Settled);
    EntersDirty(s, p, r);
    Quiet(s, DoMkEnter(s, p), mem, p, r);
  }

  // ---- evictor -------------------------------------------------------------------------------

  lemma KeepEvDequeue(s: State, mem: Memory, e: nat)
    requires Inv(s, mem) && Enabled(s, EvDequeue(e))
    ensures Inv(DoEvDequeue(s, e), mem)
  {
    var p := s.dirty[e].items[0];
    DirtyHead(s, e);
    if Lockable(s, p) {
      LockIdle(s, p);
      HandEmpty(s, p, e);
      TakeUp(s, p, e);
      Quiet(s, DoEvDequeue(s, e), mem, p, DoEvDequeue(s, e).pages[p]);
    } else {
      QuietContainers(s, DoEvDequeue(s, e), mem);
    }
  }

  lemma KeepEvUntree(s: State, mem: Memory, p: PageId)
    requires Inv(s, mem) && Enabled(s, EvUntree(p))
    ensures Inv(DoEvUntree(s, p), mem)
  {
    Local(s, p);
    var r, e := s.pages[p].(phase := EvOut), DirtyQueue(s.pages[p].index);
    assert s.hands[e] == Took(p) by { assert Holds(Hands, s); }
    PutDown(s, p, e, r);
    Quiet(s, DoEvUntree(s, p), mem, p, r);
  }

  lemma KeepEvProbe(s: State, mem: Memory, e: nat, k: Key)
    requires Inv(s, mem) && Enabled(s, EvProbe(e, k))
    ensures Inv(DoEvProbe(s, e, k), mem)
  {
    TreeEntry(s, k);
    var p := Get(s.trees, k);
    Local(s, p);
    HandEmpty(s, p, e);
    BeginProbe(s, e, p);
    Quiet(s, DoEvProbe(s, e, k), mem, p, s.pages[p].(probed := true));
  }

  lemma KeepEvClaim(s: State, mem: Memory, e: nat)
    requires Inv(s, mem) && Enabled(s, EvClaim(e))
    ensures Inv(DoEvClaim(s, e), mem)
  {
    var p := s.hands[e].page;
    LockIdle(s, p);
    InHand(s, e);
    ClaimProbe(s, e, p);
    Quiet(s, DoEvClaim(s, e), mem, p, DoEvClaim(s, e).pages[p]);
  }

  lemma KeepEvPutBack(s: State, mem: Memory, e: nat)
    requires Inv(s, mem) && Enabled(s, EvPutBack(e))
    ensures Inv(DoEvPutBack(s, e), mem)
  {
    var p := s.hands[e].page;
    InHand(s, e);
    ReturnProbe(s, e, p);
    Quiet(s, DoEvPutBack(s, e), mem, p, s.pages[p].(probed := false));
  }

  lemma KeepEvEnter(s: State, mem: Memory, p: PageId)
    requires Inv(s, mem) && Enabled(s, EvEnter(p))
    ensures Inv(DoEvEnter(s, p), mem)
  {
    Local(s, p);
    EntersClean(s, p, s.pages[p].(dirty := false, phase := Settled));
    Quiet(s, DoEvEnter(s, p), mem, p, DoEvEnter(s, p).pages[p]);
  }

  // ---- fsync and write-back ------------------------------------------------------------------

  lemma KeepFsTake(s: State, mem: Memory, k: Key)
    requires Inv(s, mem) && Enabled(s, FsTake(k))
    ensures Inv(DoFsTake(s, k), mem)
  {
    TreeEntry(s, k);
    var p := Get(s.trees, k);
    LockIdle(s, p);
    var r := s.pages[p].(locked := true, phase := FsOut);
    LeavesTree(s, p, r);
    Quiet(s, DoFsTake(s, k), mem, p, r);
  }

  lemma KeepFsLeave(s: State, mem: Memory, p: PageId)
    requires Inv(s, mem) && Enabled(s, FsLeave(p))
    ensures Inv(DoFsLeave(s, p), mem)
  {
    Local(s, p);
    var r := s.pages[p].(buf := BI_NONE, phase := FsLoose);
    LeavesDirty(s, p, r);
    Quiet(s, DoFsLeave(s, p), mem, p, r);
  }

  lemma KeepFsEnter(s: State, mem: Memory, p: PageId)
    requires Inv(s, mem) && Enabled(s, FsEnter(p))
    ensures Inv(DoFsEnter(s, p), mem)
  {
    Local(s, p);
    EntersClean(s, p, s.pages[p].(dirty := false, phase := FsClean));
    Quiet(s, DoFsEnter(s, p), mem, p, DoFsEnter(s, p).pages[p]);
  }

  lemma KeepProtect(s: State, mem: Memory, p: PageId)
    requires Inv(s, mem) && Enabled(s, Protect(p))
    ensures Inv(DoProtect(s, p), mem)
  {
    var s1 := s.(maps := WriteProtect(s.maps, p));
    NewMaps(s, s1.maps) by { assert Holds(PageTables, s); }
    AfterProtect(s1, p, DoProtect(s, p).pages[p].phase);
    Quiet(s, DoProtect(s, p), mem, p, DoProtect(s, p).pages[p]);
  }

  lemma KeepSkipProtect(s: State, mem: Memory, p: PageId)
    requires Inv(s, mem) && Enabled(s, SkipProtect(p))
    ensures Inv(DoSkipProtect(s, p), mem)
  {
    AfterProtect(s, p, FsProtected);
    Quiet(s, DoSkipProtect(s, p), mem, p, s.pages[p].(phase := FsProtected));
  }

  lemma KeepWriteBlock(s: State, mem: Memory, p: PageId)
    requires Inv(s, mem) && Enabled(s, WriteBlock(p))
    ensures Inv(DoWriteBlock(s, p), mem)
  {
    Local(s, p);
    InPlace(s, p, Written(s, p).pages[p]);
    SameStructure(Written(s, p), DoWriteBlock(s, p));
    CoherentWriteBlock(s, mem, p);
  }

  // ---- purge ---------------------------------------------------------------------------------

  lemma KeepPgDequeue(s: State, mem: Memory, q: nat)
    requires Inv(s, mem) && Enabled(s, PgDequeue(q))
    ensures Inv(DoPgDequeue(s, q), mem)
  {
    CleanHead(s, q);
    if Purgeable(s, s.clean[q].items[0]) {
      KeepPgTake(s, mem, q);
    } else {
      QuietContainers(s, DoPgDequeue(s, q), mem);
    }
  }

  lemma KeepPgTake(s: State, mem: Memory, q: nat)
    requires Inv(s, mem) && Enabled(s, PgDequeue(q)) && Purgeable(s, s.clean[q].items[0])
    ensures Inv(DoPgDequeue(s, q), mem)
  {
    var p := s.clean[q].items[0];
    var r := s.pages[p].(locked := true, buf := BI_NONE, phase := PgOut);
    CleanHead(s, q);
    LockIdle(s, p);
    LeavesClean(s, p, r);
    Quiet(s, DoPgDequeue(s, q), mem, p, r);
  }

  lemma KeepPgUnindex(s: State, mem: Memory, p: PageId)
    requires Inv(s, mem) && Enabled(s, PgUnindex(p))
    ensures Inv(DoPgUnindex(s, p), mem)
  {
    Local(s, p);
    LeavesIndex(s, p, s.pages[p].(phase := PgUnindexed));
    CoherentPgUnindex(s, mem, p);
  }

  lemma KeepPgUnmap(s: State, mem: Memory, p: PageId)
    requires Inv(s, mem) && Enabled(s, PgUnmap(p))
    ensures Inv(DoPgUnmap(s, p), mem)
  {
    var r := s.pages[p].(phase := PgUnmapped);
    Retires(s, p, r);
    Local(s, p);
    Quiet(s, DoPgUnmap(s, p), mem, p, r);
  }
}
