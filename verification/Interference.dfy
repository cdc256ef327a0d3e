/** What the other threads can do to the pages a thread holds. */
module Interference {
  import opened Params
  import opened Placement
  import opened Lifecycle
  import opened Invariant
  import opened Moves
  import opened Theorems

  /** The page whose current holder alone takes this step. */
  function Subject(t: Step): Option<PageId> {
    match t
    case Prepare(p) => Some(p)
    case Publish(p) => Some(p)
    case IndexInsert(p) => Some(p)
    case EnterClean(p) => Some(p)
    case ReadIn(p) => Some(p)
    case MapPage(p, _) => Some(p)
    case GrantWrite(m) => Some(m.page)
    case Unlock(p) => Some(p)
    case MkTree(p) => Some(p)
    case MkLeave(p) => Some(p)
    case MkEnter(p) => Some(p)
    case EvUntree(p) => Some(p)
    case EvEnter(p) => Some(p)
    case FsLeave(p) => Some(p)
    case FsEnter(p) => Some(p)
    case Protect(p) => Some(p)
    case SkipProtect(p) => Some(p)
    case WriteBlock(p) => Some(p)
    case DropBlock(p) => Some(p)
    case PgUnindex(p) => Some(p)
    case PgUnmap(p) => Some(p)
    case FreeStart(p) => Some(p)
    case FreeReset(p) => Some(p)
    case FreeLink(p) => Some(p)
    case _ => None
  }

  /** The evictor that takes this step, where only one can. */
  function Actor(t: Step): Option<nat> {
    match t
    case EvDequeue(e) => Some(e)
    case EvProbe(e, _) => Some(e)
    case EvClaim(e) => Some(e)
    case EvPutBack(e) => Some(e)
    case _ => None
  }

  /** A step of some thread other than evictor e, which holds the pages `held`. */
  predicate Foreign(t: Step, e: nat, held: seq<PageId>) {
    Actor(t) != Some(e) && (Subject(t).Some? ==> Subject(t).value !in held)
  }

  /** Two records of a page that differ at most in its contents. */
  predicate SameButData(r: Page, r': Page) { r' == r.(data := r'.data) }

  /** An evictor's page: dequeued, locked, perhaps still in its tree; at the end of the round clean and
      back in a FIFO, but still locked. */
  predicate Taken(r: Page) {
    || r.phase.EvTaken? || r.phase.EvOut? || r.phase.EvProtected? || r.phase.EvWritten?
    || (r.phase.Settled? && !r.dirty)
  }

  lemma UntouchedFault(s: State, t: Step, e: nat, held: seq<PageId>, p: PageId)
    requires Structure(s) && Enabled(s, t) && FaultStep(t) && Foreign(t, e, held)
    requires p in held && p < |s.pages| && Taken(s.pages[p])
    ensures SameButData(s.pages[p], Apply(s, t).pages[p])
  {
    if t.Pop? { UntouchedPop(s, t.cpu, p); }
    else if MissStep(t) { UntouchedMiss(s, t, e, held, p); }
    else { UntouchedMap(s, t, e, held, p); }
  }

  lemma UntouchedMiss(s: State, t: Step, e: nat, held: seq<PageId>, p: PageId)
    requires Structure(s) && Enabled(s, t) && MissStep(t) && !t.Pop? && Foreign(t, e, held)
    requires p in held && p < |s.pages| && Taken(s.pages[p])
    ensures SameButData(s.pages[p], Apply(s, t).pages[p])
  {
    Local(s, p);
  }

  lemma UntouchedMap(s: State, t: Step, e: nat, held: seq<PageId>, p: PageId)
    requires Structure(s) && Enabled(s, t) && MapStep(t) && Foreign(t, e, held)
    requires p in held && p < |s.pages| && Taken(s.pages[p])
    ensures SameButData(s.pages[p], Apply(s, t).pages[p])
  {
    Local(s, p);
  }

  lemma UntouchedPop(s: State, c: nat, p: PageId)
    requires Structure(s) && c < |s.free| && s.free[c] != [] && p < |s.pages| && Taken(s.pages[p])
    ensures s.free[c][0] != p
  {
    assert Holds(FreeLists, s);
    var h: PageId := s.free[c][0];
    assert h in s.free[c];
  }

  lemma UntouchedEvict(s: State, t: Step, e: nat, held: seq<PageId>, p: PageId)
    requires Structure(s) && Enabled(s, t) && EvictStep(t) && Foreign(t, e, held)
    requires p in held && p < |s.pages| && Taken(s.pages[p])
    ensures SameButData(s.pages[p], Apply(s, t).pages[p])
  {
    if MkStep(t) { UntouchedMk(s, t, e, held, p); }
    else if t.EvProbe? { UntouchedEvProbe(s, t, p); }
    else { UntouchedEv(s, t, e, held, p); }
  }

  lemma UntouchedEvProbe(s: State, t: Step, p: PageId)
    requires Structure(s) && Enabled(s, t) && t.EvProbe? && p < |s.pages| && Taken(s.pages[p])
    ensures SameButData(s.pages[p], Apply(s, t).pages[p])
  {
    UntouchedProbe(s, t.e, t.key, p);
  }

  lemma UntouchedEv(s: State, t: Step, e: nat, held: seq<PageId>, p: PageId)
    requires Structure(s) && Enabled(s, t) && EvStep(t) && !t.EvProbe? && Foreign(t, e, held)
    requires p in held && p < |s.pages| && Taken(s.pages[p])
    ensures SameButData(s.pages[p], Apply(s, t).pages[p])
  {
    if t.EvPutBack? || t.EvClaim? { UntouchedClaim(s, t, p); } else { UntouchedOwn(s, t, e, held, p); }
  }

  lemma UntouchedClaim(s: State, t: Step, p: PageId)
    requires Structure(s) && Enabled(s, t) && (t.EvPutBack? || t.EvClaim?) && p < |s.pages| && Taken(s.pages[p])
    ensures SameButData(s.pages[p], Apply(s, t).pages[p])
  {
    UntouchedHand(s, t.e, p);
  }

  lemma UntouchedOwn(s: State, t: Step, e: nat, held: seq<PageId>, p: PageId)
    requires Structure(s) && Enabled(s, t) && (t.EvDequeue? || t.EvUntree? || t.EvEnter?) && Foreign(t, e, held)
    requires p in held && p < |s.pages| && Taken(s.pages[p])
    ensures SameButData(s.pages[p], Apply(s, t).pages[p])
  {
    Local(s, p);
  }

  lemma UntouchedMk(s: State, t: Step, e: nat, held: seq<PageId>, p: PageId)
    requires Structure(s) && Enabled(s, t) && MkStep(t) && Foreign(t, e, held)
    requires p in held && p < |s.pages| && Taken(s.pages[p])
    ensures SameButData(s.pages[p], Apply(s, t).pages[p])
  {
    Local(s, p);
  }

  /** No probe finds a taken page: either it is out of its tree, or its evictor's hand is full. */
  lemma UntouchedProbe(s: State, e: nat, k: Key, p: PageId)
    requires Structure(s) && Enabled(s, EvProbe(e, k)) && p < |s.pages| && Taken(s.pages[p])
    ensures Get(s.trees, k) != p
  {
    Local(s, p);
    TreeEntry(s, k);
    assert Holds(Hands, s);
  }

  /** A taken page is not a probed one. */
  lemma UntouchedHand(s: State, e: nat, p: PageId)
    requires Structure(s) && p < |s.pages| && Taken(s.pages[p]) && e < EVICTOR_THREADS
    ensures s.hands[e].Probed? ==> s.hands[e].page != p
  {
    Local(s, p);
    assert Holds(Hands, s);
    if s.hands[e].Probed? { assert HandOk(s.pages, e, s.hands[e]); }
  }

  lemma UntouchedRest(s: State, t: Step, e: nat, held: seq<PageId>, p: PageId)
    requires Structure(s) && Enabled(s, t) && !FaultStep(t) && !EvictStep(t) && Foreign(t, e, held)
    requires p in held && p < |s.pages| && Taken(s.pages[p])
    ensures SameButData(s.pages[p], Apply(s, t).pages[p])
  {
    if FsStep(t) { UntouchedFs(s, t, e, held, p); } else { UntouchedPurge(s, t, e, held, p); }
  }

  lemma UntouchedFs(s: State, t: Step, e: nat, held: seq<PageId>, p: PageId)
    requires Structure(s) && Enabled(s, t) && FsStep(t) && Foreign(t, e, held)
    requires p in held && p < |s.pages| && Taken(s.pages[p])
    ensures SameButData(s.pages[p], Apply(s, t).pages[p])
  {
    Local(s, p);
  }

  lemma UntouchedPurge(s: State, t: Step, e: nat, held: seq<PageId>, p: PageId)
    requires Structure(s) && Enabled(s, t) && !FaultStep(t) && !EvictStep(t) && !FsStep(t) && Foreign(t, e, held)
    requires p in held && p < |s.pages| && Taken(s.pages[p])
    ensures SameButData(s.pages[p], Apply(s, t).pages[p])
  {
    Local(s, p);
  }

  /** Nothing any other thread does changes a page that an evictor has taken, except that user
      stores still reach it while it has writable mappings. */
  lemma Untouched(s: State, t: Step, e: nat, held: seq<PageId>, p: PageId)
    requires Structure(s) && Enabled(s, t) && Foreign(t, e, held)
    requires p in held && p < |s.pages| && Taken(s.pages[p])
    ensures SameButData(s.pages[p], Apply(s, t).pages[p])
  {
    if FaultStep(t) { UntouchedFault(s, t, e, held, p); }
    else if EvictStep(t) { UntouchedEvict(s, t, e, held, p); }
    else { UntouchedRest(s, t, e, held, p); }
  }

  /** A probed page keeps its identity, and stays probed, until its evictor claims it or puts it
      back, whoever locks and unlocks it meanwhile. */
  lemma ProbedStays(s: State, t: Step, e: nat, p: PageId)
    requires Structure(s) && Enabled(s, t) && Actor(t) != Some(e)
    requires e < EVICTOR_THREADS && s.hands[e].Probed? && s.hands[e].page == p
    ensures p < |s.pages| && KeyOf(Apply(s, t).pages[p]) == KeyOf(s.pages[p])
  {
    assert Holds(Hands, s);
    assert HandOk(s.pages, e, s.hands[e]);
    Local(s, p);
    if FaultStep(t) { ProbedFault(s, t, p); }
    else if EvictStep(t) { ProbedEvict(s, t, p); }
    else { ProbedRest(s, t, p); }
  }

  lemma ProbedFault(s: State, t: Step, p: PageId)
    requires Structure(s) && Enabled(s, t) && FaultStep(t) && p < |s.pages| && MayBeProbed(s.pages[p])
    ensures KeyOf(Apply(s, t).pages[p]) == KeyOf(s.pages[p])
  {
    if MissStep(t) { ProbedMiss(s, t, p); } else { ProbedMap(s, t, p); }
  }

  lemma ProbedMiss(s: State, t: Step, p: PageId)
    requires Enabled(s, t) && MissStep(t) && p < |s.pages| && MayBeProbed(s.pages[p])
    ensures KeyOf(Apply(s, t).pages[p]) == KeyOf(s.pages[p])
  {
  }

  lemma ProbedMap(s: State, t: Step, p: PageId)
    requires Enabled(s, t) && MapStep(t) && p < |s.pages|
    ensures KeyOf(Apply(s, t).pages[p]) == KeyOf(s.pages[p])
  {
  }

  lemma ProbedEvict(s: State, t: Step, p: PageId)
    requires Enabled(s, t) && EvictStep(t) && p < |s.pages|
    ensures KeyOf(Apply(s, t).pages[p]) == KeyOf(s.pages[p])
  {
    if MkStep(t) { ProbedMk(s, t, p); }
  }

  lemma ProbedMk(s: State, t: Step, p: PageId)
    requires Enabled(s, t) && MkStep(t) && p < |s.pages|
    ensures KeyOf(Apply(s, t).pages[p]) == KeyOf(s.pages[p])
  {
  }

  lemma ProbedRest(s: State, t: Step, p: PageId)
    requires Structure(s) && Enabled(s, t) && !FaultStep(t) && !EvictStep(t)
    requires p < |s.pages| && MayBeProbed(s.pages[p])
    ensures KeyOf(Apply(s, t).pages[p]) == KeyOf(s.pages[p])
  {
    if FsStep(t) { ProbedFs(s, t, p); } else { ProbedPurge(s, t, p); }
  }

  lemma ProbedFs(s: State, t: Step, p: PageId)
    requires Enabled(s, t) && FsStep(t) && p < |s.pages|
    ensures KeyOf(Apply(s, t).pages[p]) == KeyOf(s.pages[p])
  {
  }

  lemma ProbedPurge(s: State, t: Step, p: PageId)
    requires Structure(s) && Enabled(s, t) && !FaultStep(t) && !EvictStep(t) && !FsStep(t)
    requires p < |s.pages| && MayBeProbed(s.pages[p])
    ensures KeyOf(Apply(s, t).pages[p]) == KeyOf(s.pages[p])
  {
    Local(s, p);
  }

  /** Only evictor e itself changes what is in its hand. */
  lemma HandStays(s: State, t: Step, e: nat, held: seq<PageId>)
    requires Structure(s) && Enabled(s, t) && Foreign(t, e, held) && e < EVICTOR_THREADS
    requires s.hands[e].Took? ==> s.hands[e].page in held
    ensures |Apply(s, t).hands| == EVICTOR_THREADS && Apply(s, t).hands[e] == s.hands[e]
  {
    if EvictStep(t) { HandStaysEvict(s, t, e, held); } else { HandsSame(s, t); }
  }

  lemma HandStaysEvict(s: State, t: Step, e: nat, held: seq<PageId>)
    requires Structure(s) && Enabled(s, t) && EvictStep(t) && Foreign(t, e, held) && e < EVICTOR_THREADS
    requires s.hands[e].Took? ==> s.hands[e].page in held
    ensures |Apply(s, t).hands| == EVICTOR_THREADS && Apply(s, t).hands[e] == s.hands[e]
  {
    if t.EvUntree? { HandUntree(s, t.p, e, held); }
  }

  lemma HandsSame(s: State, t: Step)
    requires Enabled(s, t) && !EvictStep(t)
    ensures Apply(s, t).hands == s.hands
  {
  }

  lemma HandUntree(s: State, p: PageId, e: nat, held: seq<PageId>)
    requires Structure(s) && Enabled(s, EvUntree(p)) && p !in held && e < EVICTOR_THREADS
    requires s.hands[e].Took? ==> s.hands[e].page in held
    ensures DirtyQueue(s.pages[p].index) != e
  {
    assert Holds(Hands, s);
    assert HandFor(p, s.pages[p]) == Took(p);
  }

  // ---- runs of other threads -----------------------------------------------------------------

  predicate ForeignRun(run: seq<Step>, e: nat, held: seq<PageId>) {
    forall t :: t in run ==> Foreign(t, e, held)
  }

  /** Whatever the other threads do between two steps of evictor e, as a function of the moment,
      the state they find and the pages e holds then. */
  type Others = (nat, State, seq<PageId>) -> seq<Step>

  ghost predicate Polite(others: Others, e: nat) {
    forall n, s, held :: var run := others(n, s, held);
      Legal(s, run) && SoundRun(s, run) && ForeignRun(run, e, held)
  }

  ghost predicate AllTaken(s: State, held: seq<PageId>) {
    forall i :: 0 <= i < |held| ==> held[i] < |s.pages| && Taken(s.pages[held[i]])
  }

  ghost predicate SameHeld(s: State, s': State, held: seq<PageId>)
    requires AllTaken(s, held)
  {
    && |s'.pages| == |s.pages|
    && forall i :: 0 <= i < |held| ==> SameButData(s.pages[held[i]], s'.pages[held[i]])
  }

  /** A probed page is still the same page's identity afterwards. */
  ghost predicate SameProbe(s: State, s': State, e: nat) {
    e < |s.hands| && s.hands[e].Probed? && s.hands[e].page < |s.pages| ==>
      s.hands[e].page < |s'.pages| && KeyOf(s'.pages[s.hands[e].page]) == KeyOf(s.pages[s.hands[e].page])
  }

  /** Through any finite run of the others, an evictor's hand and its pages stay as they were. */
  lemma {:induction false} RunLeaves(s: State, mem: Memory, run: seq<Step>, e: nat, held: seq<PageId>)
    requires Inv(s, mem) && Legal(s, run) && SoundRun(s, run) && ForeignRun(run, e, held)
    requires e < EVICTOR_THREADS && AllTaken(s, held) && (s.hands[e].Took? ==> s.hands[e].page in held)
    ensures Inv(After(s, run), LastStored(mem, run)) && After(s, run).hands[e] == s.hands[e]
    ensures SameHeld(s, After(s, run), held) && SameProbe(s, After(s, run), e)
    decreases |run|
  {
    if run != [] {
      var t := run[0];
      var s1 := Apply(s, t);
      assert t in run;
      KeepsInv(s, mem, t);
      StepLeaves(s, t, e, held);
      RunLeaves(s1, Remember(mem, t), run[1..], e, held);
    }
  }

  lemma StepLeaves(s: State, t: Step, e: nat, held: seq<PageId>)
    requires Structure(s) && Enabled(s, t) && Foreign(t, e, held) && AllTaken(s, held)
    requires e < EVICTOR_THREADS && (s.hands[e].Took? ==> s.hands[e].page in held)
    ensures var s' := Apply(s, t);
            && |s'.hands| == EVICTOR_THREADS && s'.hands[e] == s.hands[e]
            && SameHeld(s, s', held) && SameProbe(s, s', e) && AllTaken(s', held)
  {
    var s' := Apply(s, t);
    HandStays(s, t, e, held);
    forall i | 0 <= i < |held| ensures SameButData(s.pages[held[i]], s'.pages[held[i]]) {
      Untouched(s, t, e, held, held[i]);
    }
    if s.hands[e].Probed? && s.hands[e].page < |s.pages| { ProbedStays(s, t, e, s.hands[e].page); }
  }
}
