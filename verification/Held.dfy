/** Pages that a faulting, purging or freeing thread carries while every other thread does as it
    likes: nothing any of them does reaches such a page. */
module Held {
  import opened Params
  import opened Placement
  import opened Lifecycle
  import opened Invariant
  import opened Moves
  import opened Theorems
  import opened Interference

  /** In the hands of the thread that is bringing the page in or taking it out: not free, not at
      rest, in no tree and not writable through any mapping. */
  predicate Carried(r: Page) {
    match r.phase
    case Popped(_, _) => true
    case Prepared => true
    case Fresh => true
    case Lost => true
    case Indexed => true
    case Filling => true
    case PgOut => true
    case PgUnindexed => true
    case PgUnmapped => true
    case Freeing => true
    case Detached(_) => true
    case _ => false
  }

  /** A step of a thread other than the one that carries p. */
  predicate NotOn(t: Step, p: PageId) { Subject(t) != Some(p) }

  lemma UnreachedMiss(s: State, t: Step, p: PageId)
    requires Structure(s) && Enabled(s, t) && MissStep(t) && NotOn(t, p) && p < |s.pages| && Carried(s.pages[p])
    ensures Apply(s, t).pages[p] == s.pages[p]
  {
    if t.Pop? { UnreachedPop(s, t.cpu, p); }
  }

  lemma UnreachedPop(s: State, c: nat, p: PageId)
    requires Structure(s) && c < |s.free| && s.free[c] != [] && p < |s.pages| && Carried(s.pages[p])
    ensures s.free[c][0] != p
  {
    assert Holds(FreeLists, s);
    var h: PageId := s.free[c][0];
    assert h in s.free[c];
  }

  lemma UnreachedMap(s: State, t: Step, p: PageId)
    requires Structure(s) && Enabled(s, t) && MapStep(t) && NotOn(t, p) && p < |s.pages| && Carried(s.pages[p])
    ensures Apply(s, t).pages[p] == s.pages[p]
  {
    Local(s, p);
    if t.Store? {
      assert Holds(PageTables, s);
      assert MappingOk(s.pages, t.m);
    }
  }

  lemma UnreachedMk(s: State, t: Step, p: PageId)
    requires Structure(s) && Enabled(s, t) && MkStep(t) && NotOn(t, p) && p < |s.pages| && Carried(s.pages[p])
    ensures Apply(s, t).pages[p] == s.pages[p]
  {
    Local(s, p);
  }

  lemma UnreachedEv(s: State, t: Step, p: PageId)
    requires Structure(s) && Enabled(s, t) && EvStep(t) && NotOn(t, p) && p < |s.pages| && Carried(s.pages[p])
    ensures Apply(s, t).pages[p] == s.pages[p]
  {
    Local(s, p);
    if t.EvProbe? {
      TreeEntry(s, t.key);
    } else if t.EvClaim? || t.EvPutBack? {
      NotInHand(s, t.e, p);
    }
  }

  lemma NotInHand(s: State, e: nat, p: PageId)
    requires Structure(s) && e < EVICTOR_THREADS && p < |s.pages| && Carried(s.pages[p])
    ensures s.hands[e].Probed? ==> s.hands[e].page != p
  {
    Local(s, p);
    assert Holds(Hands, s);
    if s.hands[e].Probed? { assert HandOk(s.pages, e, s.hands[e]); }
  }

  lemma UnreachedFs(s: State, t: Step, p: PageId)
    requires Structure(s) && Enabled(s, t) && FsStep(t) && NotOn(t, p) && p < |s.pages| && Carried(s.pages[p])
    ensures Apply(s, t).pages[p] == s.pages[p]
  {
    Local(s, p);
  }

  lemma UnreachedPurge(s: State, t: Step, p: PageId)
    requires Structure(s) && Enabled(s, t) && PurgeStep(t) && NotOn(t, p) && p < |s.pages| && Carried(s.pages[p])
    ensures Apply(s, t).pages[p] == s.pages[p]
  {
    Local(s, p);
  }

  /** No step of any other thread changes a carried page in any way. */
  lemma Unreached(s: State, t: Step, p: PageId)
    requires Structure(s) && Enabled(s, t) && NotOn(t, p) && p < |s.pages| && Carried(s.pages[p])
    ensures Apply(s, t).pages[p] == s.pages[p]
  {
    if MissStep(t) { UnreachedMiss(s, t, p); }
    else if MapStep(t) { UnreachedMap(s, t, p); }
    else if MkStep(t) { UnreachedMk(s, t, p); }
    else if EvStep(t) { UnreachedEv(s, t, p); }
    else if FsStep(t) { UnreachedFs(s, t, p); }
    else { UnreachedPurge(s, t, p); }
  }

  /** Nor does any run of them. */
  lemma {:induction false} RunUnreached(s: State, mem: Memory, run: seq<Step>, p: PageId)
    requires Inv(s, mem) && Legal(s, run) && SoundRun(s, run) && p < |s.pages| && Carried(s.pages[p])
    requires forall t :: t in run ==> NotOn(t, p)
    ensures Inv(After(s, run), LastStored(mem, run))
    ensures p < |After(s, run).pages| && After(s, run).pages[p] == s.pages[p]
    decreases |run|
  {
    if run != [] {
      var t := run[0];
      assert t in run;
      KeepsInv(s, mem, t);
      Unreached(s, t, p);
      RunUnreached(Apply(s, t), Remember(mem, t), run[1..], p);
    }
  }
}
