/** A page fault that misses, and the freeing of a page, as programs among arbitrary other threads:
    between any two of their steps the others run any legal sound steps. */
module Misses {
  import opened Params
  import opened Placement
  import opened Lifecycle
  import opened Invariant
  import opened Moves
  import opened Steps
  import opened Theorems
  import opened Runs
  import opened Held
  import opened Interference
  import opened Survival
  import opened Losses
  import opened Interleaving
  import Exactness
  import Faults

  /** The others keep to the protocol, and while p is held they take no step of the thread holding it. */
  ghost predicate Spares(others: Others, p: PageId) {
    Civil(others) && forall n, s, held, t :: p in held && t in others(n, s, held) ==> NotOn(t, p)
  }

  /** The carrier has taken the steps `own` since the state `from`, and page p is as it left it. */
  ghost predicate Carrying(from: State, memory: Memory, own: seq<Step>, others: Others, s: State, mem: Memory,
                           p: PageId, r: Page) {
    Weaves(from, memory, own, others, s, mem) && Inv(s, mem) && p < |s.pages| && s.pages[p] == r
  }

  /** The others run; the carried page is untouched. */
  method Pause(s0: State, others: Others, n: nat, p: PageId, ghost r: Page, ghost mem0: Memory, ghost from: State,
               ghost memory: Memory, ghost own: seq<Step>)
      returns (s: State, ghost mem: Memory)
    requires Carrying(from, memory, own, others, s0, mem0, p, r) && Carried(r) && Spares(others, p)
    ensures Carrying(from, memory, own, others, s, mem, p, r)
  {
    var run := others(n, s0, [p]);
    assert Legal(s0, run) && SoundRun(s0, run) && forall t :: t in run ==> NotOn(t, p);
    RunUnreached(s0, mem0, run, p);
    s, mem := After(s0, run), LastStored(mem0, run);
    SoundLosesNothing(s0, mem0, run, {});
    WeavesTheirs(s0, mem0, n, [p], others);
    WeavesOn(from, memory, own, s0, mem0, [], s, mem, others);
    assert own + [] == own;
  }

  /** The carrier takes a step. */
  lemma Carry(from: State, memory: Memory, own: seq<Step>, others: Others, s: State, mem: Memory, p: PageId, r: Page,
              t: Step)
    requires Carrying(from, memory, own, others, s, mem, p, r) && Enabled(s, t) && (MissStep(t) || PurgeStep(t))
    ensures Carrying(from, memory, own + [t], others, Apply(s, t), mem, p, Apply(s, t).pages[p])
  {
    KeepsInv(s, mem, t);
    WeavesOwn(s, mem, t, others);
    WeavesOn(from, memory, own, s, mem, [t], Apply(s, t), mem, others);
  }

  // ---- allocation ----------------------------------------------------------------------------

  /** A page set up for the request and locked by the thread that made it. */
  predicate ReadyFor(r: Page, c: nat, d: nat, o: nat) {
    r.phase == Fresh && r.cpuid == c && r.pvd == d && r.index == o && r.inUse && r.locked
  }

  /** alloc_page_lock and the trylock after it: whatever happens meanwhile, the page that comes out
      is the one that was popped, set up for the requested block. */
  method Allocate(s0: State, c: nat, d: nat, o: nat, others: Others, ghost mem0: Memory)
      returns (s: State, p: PageId, ghost r: Page, ghost mem: Memory)
    requires Inv(s0, mem0) && c < |s0.free| && s0.free[c] != [] && Spares(others, s0.free[c][0])
    ensures p == s0.free[c][0] && ReadyFor(r, c, d, o)
    ensures Carrying(s0, mem0, [Pop(c, d, o), Prepare(p), Publish(p)], others, s, mem, p, r)
  {
    p := s0.free[c][0];
    Pops(s0, mem0, c, d, o, others);
    s, mem := DoPop(s0, c, d, o), mem0;
    r := s.pages[p];
    s, mem := Pause(s, others, 0, p, r, mem, s0, mem0, [Pop(c, d, o)]);
    Prepares(s0, mem0, others, s, mem, p, r, c, d, o);
    s := DoPrepare(s, p);
    r := s.pages[p];
    s, mem := Pause(s, others, 1, p, r, mem, s0, mem0, [Pop(c, d, o), Prepare(p)]);
    Publishes(s0, mem0, others, s, mem, p, r, c, d, o);
    s := DoPublish(s, p);
    r := s.pages[p];
  }

  lemma Prepares(from: State, memory: Memory, others: Others, s: State, mem: Memory, p: PageId, r: Page, c: nat,
                 d: nat, o: nat)
    requires Carrying(from, memory, [Pop(c, d, o)], others, s, mem, p, r) && r.phase == Popped(d, o)
    ensures Enabled(s, Prepare(p))
    ensures var s' := DoPrepare(s, p);
            && Carrying(from, memory, [Pop(c, d, o), Prepare(p)], others, s', mem, p, s'.pages[p])
            && s'.pages[p].phase == Prepared && s'.pages[p].cpuid == r.cpuid && KeyOf(s'.pages[p]) == Key(d, o)
  {
    Carry(from, memory, [Pop(c, d, o)], others, s, mem, p, r, Prepare(p));
    assert [Pop(c, d, o)] + [Prepare(p)] == [Pop(c, d, o), Prepare(p)];
  }

  lemma Publishes(from: State, memory: Memory, others: Others, s: State, mem: Memory, p: PageId, r: Page, c: nat,
                  d: nat, o: nat)
    requires Carrying(from, memory, [Pop(c, d, o), Prepare(p)], others, s, mem, p, r)
    requires r.phase == Prepared && r.cpuid == c && KeyOf(r) == Key(d, o)
    ensures Enabled(s, Publish(p))
    ensures var s' := DoPublish(s, p);
            && Carrying(from, memory, [Pop(c, d, o), Prepare(p), Publish(p)], others, s', mem, p, s'.pages[p])
            && ReadyFor(s'.pages[p], c, d, o)
  {
    Carry(from, memory, [Pop(c, d, o), Prepare(p)], others, s, mem, p, r, Publish(p));
    assert [Pop(c, d, o), Prepare(p)] + [Publish(p)] == [Pop(c, d, o), Prepare(p), Publish(p)];
  }

  lemma Pops(s: State, mem: Memory, c: nat, d: nat, o: nat, others: Others)
    requires Inv(s, mem) && c < |s.free| && s.free[c] != []
    ensures Enabled(s, Pop(c, d, o))
    ensures var s', p := DoPop(s, c, d, o), s.free[c][0];
            && p < |s'.pages| && Carrying(s, mem, [Pop(c, d, o)], others, s', mem, p, s'.pages[p])
            && s'.pages[p].phase == Popped(d, o) && s'.pages[p].cpuid == c
  {
    Exactness.FreePage(s, c);
    WeavesNothing(s, mem, others);
    Carry(s, mem, [], others, s, mem, s.free[c][0], s.pages[s.free[c][0]], Pop(c, d, o));
    assert [] + [Pop(c, d, o)] == [Pop(c, d, o)];
  }

  // ---- freeing -------------------------------------------------------------------------------

  /** Up to the unlock: the page is blank and belongs on list `c`. */
  predicate BlankFor(r: Page, c: nat) {
    r.phase == Detached(c) && !r.inUse && !r.locked && !r.valid && !r.dirty && r.buf == BI_NONE
  }

  method Reset(s0: State, p: PageId, others: Others, ghost r0: Page, ghost mem0: Memory, ghost from: State,
               ghost memory: Memory)
      returns (s: State, ghost r: Page, ghost mem: Memory)
    requires Carrying(from, memory, [], others, s0, mem0, p, r0) && Spares(others, p)
             && (r0.phase == Lost || r0.phase == PgUnmapped)
    ensures Carrying(from, memory, [FreeStart(p), FreeReset(p)], others, s, mem, p, r) && BlankFor(r, r0.cpuid)
  {
    Starts(from, memory, others, s0, mem0, p, r0);
    s, mem := DoFreeStart(s0, p), mem0;
    r := r0.(inUse := false, phase := Freeing);
    s, mem := Pause(s, others, 2, p, r, mem, from, memory, [FreeStart(p)]);
    Resets(from, memory, others, s, mem, p, r);
    s := DoFreeReset(s, p);
    r := s.pages[p];
  }

  lemma Starts(from: State, memory: Memory, others: Others, s: State, mem: Memory, p: PageId, r: Page)
    requires Carrying(from, memory, [], others, s, mem, p, r) && (r.phase == Lost || r.phase == PgUnmapped)
    ensures Enabled(s, FreeStart(p))
    ensures Carrying(from, memory, [FreeStart(p)], others, DoFreeStart(s, p), mem, p,
                     r.(inUse := false, phase := Freeing))
  {
    Carry(from, memory, [], others, s, mem, p, r, FreeStart(p));
    assert [] + [FreeStart(p)] == [FreeStart(p)];
  }

  lemma Resets(from: State, memory: Memory, others: Others, s: State, mem: Memory, p: PageId, r: Page)
    requires Carrying(from, memory, [FreeStart(p)], others, s, mem, p, r) && r.phase == Freeing && !r.inUse
    ensures Enabled(s, FreeReset(p))
    ensures var s' := DoFreeReset(s, p);
            && Carrying(from, memory, [FreeStart(p), FreeReset(p)], others, s', mem, p, s'.pages[p])
            && BlankFor(s'.pages[p], r.cpuid)
  {
    Carry(from, memory, [FreeStart(p)], others, s, mem, p, r, FreeReset(p));
    assert [FreeStart(p)] + [FreeReset(p)] == [FreeStart(p), FreeReset(p)];
  }

  lemma Links(from: State, memory: Memory, others: Others, s: State, mem: Memory, p: PageId, r: Page, c: nat)
    requires Carrying(from, memory, [FreeStart(p), FreeReset(p)], others, s, mem, p, r) && BlankFor(r, c)
    ensures Enabled(s, FreeLink(p)) && s.home[p] == c < |s.free|
    ensures var s' := DoFreeLink(s, p);
            && Weaves(from, memory, [FreeStart(p), FreeReset(p), FreeLink(p)], others, s', mem)
            && Inv(s', mem) && AtHome(s', p, c)
  {
    Faults.CanLink(s, p);
    Carry(from, memory, [FreeStart(p), FreeReset(p)], others, s, mem, p, r, FreeLink(p));
    assert [FreeStart(p), FreeReset(p)] + [FreeLink(p)] == [FreeStart(p), FreeReset(p), FreeLink(p)];
    Local(s, p);
  }

  /** free_page_lock: the page comes back blank at the tail of the list it was taken from. */
  method Free(s0: State, p: PageId, others: Others, ghost r0: Page, ghost mem0: Memory, ghost from: State,
              ghost memory: Memory)
      returns (s: State, ghost mem: Memory)
    requires Carrying(from, memory, [], others, s0, mem0, p, r0) && Spares(others, p)
             && (r0.phase == Lost || r0.phase == PgUnmapped)
    ensures Weaves(from, memory, [FreeStart(p), FreeReset(p), FreeLink(p)], others, s, mem)
    ensures Inv(s, mem) && AtHome(s, p, r0.cpuid)
  {
    ghost var r;
    s, r, mem := Reset(s0, p, others, r0, mem0, from, memory);
    s, mem := Pause(s, others, 3, p, r, mem, from, memory, [FreeStart(p), FreeReset(p)]);
    Links(from, memory, others, s, mem, p, r, r0.cpuid);
    s := DoFreeLink(s, p);
  }

  /** Page p is blank and the last on its home list c. */
  predicate AtHome(s: State, p: PageId, c: nat) {
    && p < |s.pages| && p < |s.home| && BlankPage(s.pages[p]) && s.home[p] == c < |s.free|
    && s.free[c] != [] && s.free[c][|s.free[c]| - 1] == p
  }

  // ---- the whole fault -----------------------------------------------------------------------

  /** What a fault hands back: the index entry of the block, locked, valid, and holding the last
      store to the block. */
  ghost predicate Brought(s: State, mem: Memory, p: PageId, k: Key) {
    && Has(s.rdx, k) && Get(s.rdx, k) == p && p < |s.pages|
    && s.pages[p].locked && s.pages[p].valid && s.pages[p].inUse && KeyOf(s.pages[p]) == k
    && (k in mem ==> s.pages[p].data == mem[k])
  }

  /** The insertion into the index decides: it fails exactly when the block has an entry already. */
  lemma Inserts(s: State, mem: Memory, p: PageId, r: Page, c: nat, d: nat, o: nat, others: Others)
    requires Inv(s, mem) && p < |s.pages| && s.pages[p] == r && ReadyFor(r, c, d, o)
    ensures Enabled(s, IndexInsert(p))
    ensures var s' := DoIndexInsert(s, p);
            Carrying(s', mem, [], others, s', mem, p, r.(phase := if Has(s.rdx, Key(d, o)) then Lost else Indexed))
  {
    KeepsInv(s, mem, IndexInsert(p));
    WeavesNothing(DoIndexInsert(s, p), mem, others);
  }

  /** The winner's page goes into its clean FIFO and is read. */
  method Fill(s0: State, p: PageId, others: Others, ghost r0: Page, ghost mem0: Memory, ghost from: State,
              ghost memory: Memory)
      returns (s: State, ghost mem: Memory)
    requires Carrying(from, memory, [], others, s0, mem0, p, r0) && Spares(others, p) && r0.phase == Indexed
    ensures Weaves(from, memory, [EnterClean(p), ReadIn(p)], others, s, mem)
    ensures Inv(s, mem) && Brought(s, mem, p, KeyOf(r0))
  {
    Carry(from, memory, [], others, s0, mem0, p, r0, EnterClean(p));
    s, mem := DoEnterClean(s0, p), mem0;
    ghost var r := s.pages[p];
    s, mem := Pause(s, others, 4, p, r, mem, from, memory, [EnterClean(p)]);
    Carry(from, memory, [EnterClean(p)], others, s, mem, p, r, ReadIn(p));
    Filled(s, mem, p);
    s := DoReadIn(s, p);
  }

  lemma Filled(s: State, mem: Memory, p: PageId)
    requires Inv(s, mem) && InPhase(s, p, Filling)
    ensures Brought(DoReadIn(s, p), mem, p, KeyOf(s.pages[p]))
  {
    Faults.FaultReturns(s, mem, ReadIn(p));
    assert Has(s.rdx, KeyOf(s.pages[p])) && Get(s.rdx, KeyOf(s.pages[p])) == p by {
      assert Holds(Index, s);
      assert IndexAts(s.pages)[p] == Some(KeyOf(s.pages[p]));
    }
  }

  /** What a fault does with its page after the insertion. */
  function Rest(p: PageId, won: bool): seq<Step> {
    if won then [EnterClean(p), ReadIn(p)] else [FreeStart(p), FreeReset(p), FreeLink(p)]
  }

  /** A fault on block (d, o) that misses, from the free page to the end, among any other threads. Its
      own steps are exactly those of an allocation up to the state `at`, the insertion there, and then
      the fill or the freeing. It wins exactly when the block has no entry in `at`, and then returns the
      locked valid page of the requested block with the last store to it; otherwise its page is back,
      blank, at the tail of the list it came from. Alone it touches no other page and stores nothing. */
  method Miss(s0: State, c: nat, d: nat, o: nat, others: Others, ghost mem0: Memory)
      returns (s: State, p: PageId, won: bool, ghost at: State, ghost memAt: Memory, ghost mem: Memory)
    requires Inv(s0, mem0) && c < |s0.free| && s0.free[c] != [] && Spares(others, s0.free[c][0])
    ensures p == s0.free[c][0] && Leads(s0, mem0, s, mem) && Inv(s, mem)
    ensures Weaves(s0, mem0, [Pop(c, d, o), Prepare(p), Publish(p)], others, at, memAt)
    ensures Leads(s0, mem0, at, memAt) && InPhase(at, p, Fresh) && KeyOf(at.pages[p]) == Key(d, o)
    ensures Enabled(at, IndexInsert(p)) && Leads(DoIndexInsert(at, p), memAt, s, mem)
    ensures Weaves(DoIndexInsert(at, p), memAt, if won then [EnterClean(p), ReadIn(p)]
                                                else [FreeStart(p), FreeReset(p), FreeLink(p)], others, s, mem)
    ensures won <==> !Has(at.rdx, Key(d, o))
    ensures if won then Brought(s, mem, p, Key(d, o)) else AtHome(s, p, c)
    ensures Alone(others) ==> mem == mem0 && OnlyTouches(s0, s, p)
  {
    ghost var r;
    s, p, r, mem := Allocate(s0, c, d, o, others, mem0);
    s, mem := Pause(s, others, 5, p, r, mem, s0, mem0, [Pop(c, d, o), Prepare(p), Publish(p)]);
    at, memAt := s, mem;
    Inserts(s, mem, p, r, c, d, o, others);
    won := !Has(s.rdx, Key(d, o));
    var s1 := DoIndexInsert(s, p);
    r := s1.pages[p];
    s, mem := Pause(s1, others, 6, p, r, mem, s1, memAt, []);
    if won {
      s, mem := Fill(s, p, others, r, mem, s1, memAt);
    } else {
      s, mem := Free(s, p, others, r, mem, s1, memAt);
    }
    MissLeads(s0, mem0, at, memAt, s, mem, p, c, d, o, won, others);
    if Alone(others) { MissAlone(s0, mem0, at, memAt, s, mem, p, c, d, o, won, others); }
  }

  lemma PlainFault(p: PageId, c: nat, d: nat, o: nat, won: bool)
    ensures Plain([Pop(c, d, o), Prepare(p), Publish(p)]) && Plain(Rest(p, won))
  {
  }

  lemma MissLeads(s0: State, mem0: Memory, at: State, memAt: Memory, s: State, mem: Memory, p: PageId, c: nat,
                  d: nat, o: nat, won: bool, others: Others)
    requires Weaves(s0, mem0, [Pop(c, d, o), Prepare(p), Publish(p)], others, at, memAt) && Civil(others)
    requires Enabled(at, IndexInsert(p)) && Weaves(DoIndexInsert(at, p), memAt, Rest(p, won), others, s, mem)
    ensures Leads(s0, mem0, at, memAt) && Leads(DoIndexInsert(at, p), memAt, s, mem) && Leads(s0, mem0, s, mem)
  {
    PlainFault(p, c, d, o, won);
    WeavesLeads(s0, mem0, [Pop(c, d, o), Prepare(p), Publish(p)], others, at, memAt);
    WeavesLeads(DoIndexInsert(at, p), memAt, Rest(p, won), others, s, mem);
    LeadsAcross(s0, mem0, at, memAt, IndexInsert(p), s, mem);
  }

  lemma LeadsAcross(s0: State, mem0: Memory, at: State, memAt: Memory, t: Step, s: State, mem: Memory)
    requires Leads(s0, mem0, at, memAt) && Enabled(at, t) && Sound(at, t)
    requires Leads(Apply(at, t), Remember(memAt, t), s, mem)
    ensures Leads(s0, mem0, s, mem)
  {
    LeadsBy(at, memAt, t);
    LeadsOn(s0, mem0, at, memAt, Apply(at, t), Remember(memAt, t));
    LeadsOn(s0, mem0, Apply(at, t), Remember(memAt, t), s, mem);
  }

  // ---- what a fault leaves alone -------------------------------------------------------------

  /** The page tables, the device, the dirty queues and trees, the evictors' hands and all pages but p
      are the same. */
  ghost predicate OnlyTouches(s: State, s': State, p: PageId) {
    && s' == s.(pages := s'.pages, free := s'.free, clean := s'.clean, rdx := s'.rdx, bitmap := s'.bitmap)
    && |s'.pages| == |s.pages| && forall q :: 0 <= q < |s.pages| && q != p ==> s'.pages[q] == s.pages[q]
  }

  /** A step of a fault or of a freeing, on page p. */
  predicate FaultsOn(t: Step, p: PageId) {
    Subject(t) == Some(p) && (MissStep(t) || t.FreeStart? || t.FreeReset? || t.FreeLink?)
  }

  lemma TouchesOne(s: State, t: Step, p: PageId)
    requires Enabled(s, t) && (FaultsOn(t, p) || (t.Pop? && s.free[t.cpu][0] == p))
    ensures OnlyTouches(s, Apply(s, t), p)
  {
    if MissStep(t) { MissTouches(s, t, p); } else { FreeTouches(s, t, p); }
  }

  lemma MissTouches(s: State, t: Step, p: PageId)
    requires Enabled(s, t) && MissStep(t) && (Subject(t) == Some(p) || (t.Pop? && s.free[t.cpu][0] == p))
    ensures OnlyTouches(s, Apply(s, t), p)
  {
  }

  lemma FreeTouches(s: State, t: Step, p: PageId)
    requires Enabled(s, t) && Subject(t) == Some(p) && (t.FreeStart? || t.FreeReset? || t.FreeLink?)
    ensures OnlyTouches(s, Apply(s, t), p)
  {
  }

  lemma {:induction false} RunTouches(s: State, mem: Memory, own: seq<Step>, p: PageId)
    requires Legal(s, own) && forall t :: t in own ==> FaultsOn(t, p)
    ensures OnlyTouches(s, After(s, own), p) && Surviving(s, mem, own) == mem
    decreases |own|
  {
    if own != [] {
      assert own[0] in own;
      TouchesOne(s, own[0], p);
      RunTouches(Apply(s, own[0]), mem, own[1..], p);
    }
  }

  lemma TouchesOn(a: State, b: State, c: State, p: PageId)
    requires OnlyTouches(a, b, p) && OnlyTouches(b, c, p)
    ensures OnlyTouches(a, c, p)
  {
  }

  lemma AllocAlone(s: State, mem: Memory, p: PageId, c: nat, d: nat, o: nat)
    requires Legal(s, [Pop(c, d, o), Prepare(p), Publish(p)]) && p == s.free[c][0]
    ensures var own := [Pop(c, d, o), Prepare(p), Publish(p)];
            Surviving(s, mem, own) == mem && OnlyTouches(s, After(s, own), p)
  {
    var own, tail := [Pop(c, d, o), Prepare(p), Publish(p)], [Prepare(p), Publish(p)];
    assert own[1..] == tail;
    TouchesOne(s, Pop(c, d, o), p);
    RunTouches(DoPop(s, c, d, o), mem, tail, p);
    TouchesOn(s, DoPop(s, c, d, o), After(DoPop(s, c, d, o), tail), p);
  }

  lemma RestAlone(s: State, mem: Memory, p: PageId, won: bool)
    requires Legal(s, Rest(p, won))
    ensures Surviving(s, mem, Rest(p, won)) == mem && OnlyTouches(s, After(s, Rest(p, won)), p)
  {
    RunTouches(s, mem, Rest(p, won), p);
  }

  lemma MissAlone(s0: State, mem0: Memory, at: State, memAt: Memory, s: State, mem: Memory, p: PageId, c: nat,
                  d: nat, o: nat, won: bool, others: Others)
    requires Weaves(s0, mem0, [Pop(c, d, o), Prepare(p), Publish(p)], others, at, memAt) && Alone(others)
    requires c < |s0.free| && s0.free[c] != [] && p == s0.free[c][0]
    requires Enabled(at, IndexInsert(p)) && Weaves(DoIndexInsert(at, p), memAt, Rest(p, won), others, s, mem)
    ensures mem == mem0 && OnlyTouches(s0, s, p)
  {
    WeavesAlone(s0, mem0, [Pop(c, d, o), Prepare(p), Publish(p)], others, at, memAt);
    WeavesAlone(DoIndexInsert(at, p), memAt, Rest(p, won), others, s, mem);
    AllocAlone(s0, mem0, p, c, d, o);
    TouchesOne(at, IndexInsert(p), p);
    RestAlone(DoIndexInsert(at, p), memAt, p, won);
    TouchesOn(s0, at, DoIndexInsert(at, p), p);
    TouchesOn(s0, DoIndexInsert(at, p), s, p);
  }

  // ---- racing misses -------------------------------------------------------------------------

  /** An indexed page is the entry of its block. */
  lemma IndexedIsEntry(s: State, p: PageId)
    requires Structure(s) && p < |s.pages| && InIndex(s.pages[p].phase)
    ensures Has(s.rdx, KeyOf(s.pages[p])) && Get(s.rdx, KeyOf(s.pages[p])) == p
  {
    assert Holds(Index, s);
    assert IndexAts(s.pages)[p] == Some(KeyOf(s.pages[p]));
  }

  /** The second of two insertions, whatever has happened since the first. */
  lemma SecondInsert(s: State, mem: Memory, p: PageId, p': PageId, k: Key)
    requires Inv(s, mem) && p < |s.pages| && InPhase(s, p', Fresh) && KeyOf(s.pages[p']) == k
    ensures Enabled(s, IndexInsert(p'))
    ensures var s' := DoIndexInsert(s, p');
            && Inv(s', mem) && Has(s'.rdx, k)
            && s'.pages[p'].phase == (if Has(s.rdx, k) then Lost else Indexed)
            && (InIndex(s.pages[p].phase) && KeyOf(s.pages[p]) == k ==>
                s'.pages[p'].phase == Lost && Get(s'.rdx, k) == p)
  {
    KeepIndexInsert(s, mem, p');
    HasAfter(s.rdx, k, p', k);
    if InIndex(s.pages[p].phase) && KeyOf(s.pages[p]) == k { IndexedIsEntry(s, p); }
  }

  /** Two threads that missed on one block. The first inserts its page; then all threads but the
      second do anything sound. When the second inserts, the block has exactly one entry: while the
      first page is in the index it is the first, and the second page has lost; in particular so if
      the first thread has done nothing since. */
  lemma RacingMisses(s: State, mem: Memory, p: PageId, p': PageId, s1: State, run: seq<Step>, s2: State)
    requires Inv(s, mem) && p != p' && InPhase(s, p, Fresh) && InPhase(s, p', Fresh)
    requires KeyOf(s.pages[p]) == KeyOf(s.pages[p']) && !Has(s.rdx, KeyOf(s.pages[p]))
    requires 0 < |s.rdx| && s1 == DoIndexInsert(s, p)
    requires Legal(s1, run) && SoundRun(s1, run) && s2 == After(s1, run) && forall t :: t in run ==> NotOn(t, p')
    ensures Enabled(s2, IndexInsert(p')) && p < |s2.pages|
    ensures var k, s3 := KeyOf(s.pages[p]), DoIndexInsert(s2, p');
            && Inv(s3, LastStored(mem, run)) && Has(s3.rdx, k)
            && s3.pages[p'].phase == (if Has(s2.rdx, k) then Lost else Indexed)
            && (InIndex(s2.pages[p].phase) && KeyOf(s2.pages[p]) == k ==>
                s3.pages[p'].phase == Lost && Get(s3.rdx, k) == p)
            && ((forall t :: t in run ==> NotOn(t, p)) ==> s3.pages[p'].phase == Lost && Get(s3.rdx, k) == p)
  {
    KeepIndexInsert(s, mem, p);
    RunUnreached(s1, mem, run, p');
    Exactness.SamePages(s1, run);
    if forall t :: t in run ==> NotOn(t, p) { RunUnreached(s1, mem, run, p); }
    SecondInsert(s2, LastStored(mem, run), p, p', KeyOf(s.pages[p]));
  }
}
