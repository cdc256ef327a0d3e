/** The whole of an evictor's round among arbitrary other threads: they run between any two of its
    steps, also while the batch is protected, written, put into the clean FIFOs and unlocked. */
module Eviction {
  import opened Params
  import opened Fifo
  import opened Placement
  import opened Lifecycle
  import opened Invariant
  import opened Moves
  import opened Theorems
  import opened Runs
  import opened Coherence
  import opened Guarantees
  import opened Interference
  import opened Evictor
  import opened WriteBack
  import opened Batches
  import opened ListOrder
  import opened EvictorRound
  import opened Survival
  import opened Losses
  import opened Interleaving
  import Misses

  /** The four loops over the gathered batch. */
  datatype Stage = Protecting | WritingOut | Entering | Unlocking

  function From(g: Stage): Phase {
    match g
    case Protecting => EvOut
    case WritingOut => EvProtected
    case Entering => EvWritten
    case Unlocking => Settled
  }

  function To(g: Stage): Phase {
    match g
    case Protecting => EvProtected
    case WritingOut => EvWritten
    case Entering => Settled
    case Unlocking => Idle
  }

  /** What a loop does to one page, which coalescing has kept in the write or left out of it. */
  function Own(g: Stage, p: PageId, kept: bool): Step {
    match g
    case Protecting => Protect(p)
    case WritingOut => if kept then WriteBlock(p) else DropBlock(p)
    case Entering => EvEnter(p)
    case Unlocking => Unlock(p)
  }

  /** Page p holds block k, at point f of its round. */
  predicate Stands(s: State, p: PageId, f: Phase, k: Key) {
    InPhase(s, p, f) && KeyOf(s.pages[p]) == k && (f.Settled? ==> !s.pages[p].dirty)
  }

  /** The first n pages of the batch are through loop g and the others are not; a page that has been
      unlocked is no longer this evictor's. */
  predicate Through(s: State, b: seq<PageId>, d: nat, offs: seq<nat>, g: Stage, n: nat) {
    && |offs| == |b| && n <= |b|
    && forall i :: 0 <= i < |b| && !(i < n && g.Unlocking?) ==>
         Stands(s, b[i], if i < n then To(g) else From(g), Key(d, offs[i]))
  }

  function Rest(b: seq<PageId>, g: Stage, n: nat): seq<PageId>
    requires n <= |b|
  {
    if g.Unlocking? then b[n..] else b
  }

  // ---- one step of the evictor, and the others in between ------------------------------------

  lemma OwnEnabled(s: State, mem: Memory, g: Stage, p: PageId, kept: bool, k: Key)
    requires Inv(s, mem) && Stands(s, p, From(g), k)
    ensures var t := Own(g, p, kept); Enabled(s, t) && Tame(s, t) && (t.DropBlock? ==> !kept)
  {
    assert Shape(s);
  }

  lemma OwnMoves(s: State, mem: Memory, g: Stage, p: PageId, kept: bool, k: Key)
    requires Inv(s, mem) && Stands(s, p, From(g), k) && Enabled(s, Own(g, p, kept))
    ensures var s' := Apply(s, Own(g, p, kept));
            && s'.hands == s.hands && Stands(s', p, To(g), k) && s'.pages == s.pages[p := s'.pages[p]]
  {
    Local(s, p);
    if g.Entering? { EnterOne(s, mem, p); }
  }

  lemma ThroughNext(s: State, s': State, b: seq<PageId>, d: nat, offs: seq<nat>, g: Stage, n: nat)
    requires Through(s, b, d, offs, g, n) && n < |b| && NoDup(b) && b[n] < |s.pages| && |s'.pages| == |s.pages|
    requires s'.pages == s.pages[b[n] := s'.pages[b[n]]] && Stands(s', b[n], To(g), Key(d, offs[n]))
    ensures Through(s', b, d, offs, g, n + 1)
  {
    forall i | 0 <= i < |b| && !(i < n + 1 && g.Unlocking?)
      ensures Stands(s', b[i], if i < n + 1 then To(g) else From(g), Key(d, offs[i]))
    {
      if i != n { assert Stands(s, b[i], if i < n then To(g) else From(g), Key(d, offs[i])); }
    }
  }

  lemma ThroughTaken(s: State, b: seq<PageId>, d: nat, offs: seq<nat>, g: Stage, n: nat)
    requires Through(s, b, d, offs, g, n)
    ensures AllTaken(s, Rest(b, g, n))
  {
    var held := Rest(b, g, n);
    forall j | 0 <= j < |held| ensures held[j] < |s.pages| && Taken(s.pages[held[j]]) {
      var i := if g.Unlocking? then n + j else j;
      assert Stands(s, b[i], if i < n then To(g) else From(g), Key(d, offs[i]));
    }
  }

  lemma ThroughStays(s: State, s': State, b: seq<PageId>, d: nat, offs: seq<nat>, g: Stage, n: nat)
    requires Through(s, b, d, offs, g, n) && AllTaken(s, Rest(b, g, n)) && SameHeld(s, s', Rest(b, g, n))
    ensures Through(s', b, d, offs, g, n)
  {
    forall i | 0 <= i < |b| && !(i < n && g.Unlocking?)
      ensures Stands(s', b[i], if i < n then To(g) else From(g), Key(d, offs[i]))
    {
      assert Stands(s, b[i], if i < n then To(g) else From(g), Key(d, offs[i]));
      var j := if g.Unlocking? then i - n else i;
      assert SameButData(s.pages[Rest(b, g, n)[j]], s'.pages[Rest(b, g, n)[j]]);
    }
  }

  // ---- what is lost stays lost until the unlock ----------------------------------------------

  /** A page no store can reach: write-protected and not yet unlocked. */
  predicate Sealed(s: State, p: PageId, k: Key) {
    && p < |s.pages| && KeyOf(s.pages[p]) == k
    && (s.pages[p].phase.EvProtected? || s.pages[p].phase.EvWritten?
        || (s.pages[p].phase.Settled? && !s.pages[p].dirty))
  }

  /** Nor can a store reach its block by another page: the index has only this one. */
  lemma SealedBlock(s: State, mem: Memory, p: PageId, k: Key, t: Step)
    requires Inv(s, mem) && Sealed(s, p, k) && Enabled(s, t)
    ensures !StoresTo(t, k)
  {
    if t.Store? {
      assert Holds(PageTables, s);
      assert MappingOk(s.pages, t.m);
      if t.m.key == k {
        Misses.IndexedIsEntry(s, p);
        Misses.IndexedIsEntry(s, t.m.page);
      }
    }
  }

  lemma {:induction false} SealedRun(s: State, mem: Memory, run: seq<Step>, e: nat, held: seq<PageId>, p: PageId,
                                     k: Key)
    requires Inv(s, mem) && Legal(s, run) && SoundRun(s, run) && ForeignRun(run, e, held) && AllTaken(s, held)
    requires e < EVICTOR_THREADS && s.hands[e].Empty? && p in held && Sealed(s, p, k)
    ensures k in LastStored(mem, run) <==> k in mem
    decreases |run|
  {
    if run != [] {
      var t := run[0];
      assert t in run;
      KeepsInv(s, mem, t);
      StepLeaves(s, t, e, held);
      Untouched(s, t, e, held, p);
      SealedBlock(s, mem, p, k, t);
      SealedRun(Apply(s, t), Remember(mem, t), run[1..], e, held, p, k);
    }
  }

  /** How many pages the write has dealt with when n are through loop g. */
  function Dealt(b: seq<PageId>, g: Stage, n: nat): nat {
    if g.WritingOut? then n else if g.Entering? then |b| else 0
  }

  /** Of the first n pages, the blocks left out are defined no longer. */
  ghost predicate Gone(mem: Memory, d: nat, offs: seq<nat>, n: nat) {
    forall i :: 0 <= i < n && i < |offs| && !Kept(offs, i) ==> Key(d, offs[i]) !in mem
  }

  lemma GoneStays(s: State, mem: Memory, run: seq<Step>, e: nat, b: seq<PageId>, d: nat, offs: seq<nat>, g: Stage,
                  n: nat)
    requires Inv(s, mem) && Through(s, b, d, offs, g, n) && Gone(mem, d, offs, Dealt(b, g, n))
    requires Legal(s, run) && SoundRun(s, run) && ForeignRun(run, e, Rest(b, g, n)) && AllTaken(s, Rest(b, g, n))
    requires e < EVICTOR_THREADS && s.hands[e].Empty?
    ensures Gone(LastStored(mem, run), d, offs, Dealt(b, g, n))
  {
    forall i | 0 <= i < Dealt(b, g, n) && i < |offs| && !Kept(offs, i)
      ensures Key(d, offs[i]) !in LastStored(mem, run)
    {
      assert Stands(s, b[i], if i < n then To(g) else From(g), Key(d, offs[i]));
      SealedRun(s, mem, run, e, Rest(b, g, n), b[i], Key(d, offs[i]));
    }
  }

  // ---- the loops -----------------------------------------------------------------------------

  /** Evictor e has got here, losing blocks in `lost` only, and n pages of its batch are through g. */
  ghost predicate Under(from: State, memory: Memory, s: State, mem: Memory, e: nat, lost: set<Key>,
                        b: seq<PageId>, d: nat, offs: seq<nat>, g: Stage, n: nat) {
    && Loses(from, memory, s, mem, lost) && Inv(s, mem) && e < EVICTOR_THREADS && s.hands[e].Empty?
    && Through(s, b, d, offs, g, n) && Gone(mem, d, offs, Dealt(b, g, n))
  }

  /** The others run; the batch stays as it is. */
  method Pause(s0: State, e: nat, others: Others, b: seq<PageId>, g: Stage, n: nat,
               ghost d: nat, ghost offs: seq<nat>, ghost mem0: Memory,
               ghost from: State, ghost memory: Memory, ghost lost: set<Key>)
      returns (s: State, ghost mem: Memory)
    requires Under(from, memory, s0, mem0, e, lost, b, d, offs, g, n) && Polite(others, e)
    ensures Under(from, memory, s, mem, e, lost, b, d, offs, g, n)
    ensures Weaves(s0, mem0, [], others, s, mem) && (Alone(others) ==> s == s0 && mem == mem0)
  {
    var held := Rest(b, g, n);
    var run := others(n, s0, held);
    assert Legal(s0, run) && SoundRun(s0, run) && ForeignRun(run, e, held);
    ThroughTaken(s0, b, d, offs, g, n);
    RunLeaves(s0, mem0, run, e, held);
    GoneStays(s0, mem0, run, e, b, d, offs, g, n);
    s, mem := After(s0, run), LastStored(mem0, run);
    ThroughStays(s0, s, b, d, offs, g, n);
    assert Via(s0, mem0, run, s, mem);
    LeadsLoses(s0, mem0, s, mem, lost);
    LosesOn(from, memory, s0, mem0, s, mem, lost);
    SoundLosesNothing(s0, mem0, run, {});
    WeavesTheirs(s0, mem0, n, held, others);
  }

  lemma GoneNext(s: State, mem: Memory, b: seq<PageId>, d: nat, offs: seq<nat>, g: Stage, n: nat, kept: bool)
    requires Through(s, b, d, offs, g, n) && n < |b| && Gone(mem, d, offs, Dealt(b, g, n))
    requires Enabled(s, Own(g, b[n], kept)) && (g.WritingOut? ==> kept == Kept(offs, n))
    ensures Gone(Outlives(s, mem, Own(g, b[n], kept)), d, offs, Dealt(b, g, n + 1))
  {
    assert Stands(s, b[n], From(g), Key(d, offs[n]));
  }

  /** The evictor takes its step on the n-th page. */
  method Advance(s0: State, e: nat, b: seq<PageId>, g: Stage, n: nat, kept: bool,
                 ghost d: nat, ghost offs: seq<nat>, ghost mem0: Memory,
                 ghost from: State, ghost memory: Memory, ghost lost: set<Key>)
      returns (s: State, ghost mem: Memory)
    requires Under(from, memory, s0, mem0, e, lost, b, d, offs, g, n) && n < |b| && NoDup(b)
    requires g.WritingOut? ==> kept == Kept(offs, n) && (kept || Key(d, offs[n]) in lost)
    ensures Under(from, memory, s, mem, e, lost, b, d, offs, g, n + 1)
    ensures Enabled(s0, Own(g, b[n], kept)) && s == Apply(s0, Own(g, b[n], kept))
    ensures mem == Outlives(s0, mem0, Own(g, b[n], kept))
  {
    var t := Own(g, b[n], kept);
    assert Stands(s0, b[n], From(g), Key(d, offs[n]));
    OwnEnabled(s0, mem0, g, b[n], kept, Key(d, offs[n]));
    OwnMoves(s0, mem0, g, b[n], kept, Key(d, offs[n]));
    GoneNext(s0, mem0, b, d, offs, g, n, kept);
    KeepsTame(s0, mem0, t);
    LosesOne(s0, mem0, t, lost);
    s, mem := Apply(s0, t), Outlives(s0, mem0, t);
    LosesOn(from, memory, s0, mem0, s, mem, lost);
    ThroughNext(s0, s, b, d, offs, g, n);
  }

  /** One pass of a loop: the others, then the evictor. */
  method Pass(s0: State, e: nat, others: Others, b: seq<PageId>, d: nat, offs: seq<nat>, g: Stage, n: nat,
              ghost mem0: Memory, ghost from: State, ghost memory: Memory, ghost lost: set<Key>)
      returns (s: State, ghost mem: Memory)
    requires Under(from, memory, s0, mem0, e, lost, b, d, offs, g, n) && Polite(others, e)
    requires NoDup(b) && n < |b| && (g.WritingOut? ==> lost == LeftOut(d, offs))
    ensures Under(from, memory, s, mem, e, lost, b, d, offs, g, n + 1) && |offs| == |b|
    ensures var t := Own(g, b[n], Kept(offs, n));
            Weaves(s0, mem0, [t], others, s, mem) && (Alone(others) ==> Enabled(s0, t) && s == Apply(s0, t))
  {
    var s1;
    ghost var mem1;
    s1, mem1 := Pause(s0, e, others, b, g, n, d, offs, mem0, from, memory, lost);
    s, mem := Advance(s1, e, b, g, n, Kept(offs, n), d, offs, mem1, from, memory, lost);
    PauseThenOwn(s0, mem0, s1, mem1, Own(g, b[n], Kept(offs, n)), others);
  }

  lemma PauseThenOwn(s0: State, mem0: Memory, s: State, mem: Memory, t: Step, others: Others)
    requires Weaves(s0, mem0, [], others, s, mem) && Enabled(s, t)
    ensures Weaves(s0, mem0, [t], others, Apply(s, t), Outlives(s, mem, t))
  {
    WeavesOwn(s, mem, t, others);
    WeavesOn(s0, mem0, [], s, mem, [t], Apply(s, t), Outlives(s, mem, t), others);
    assert [] + [t] == [t];
  }

  /** The steps of loop g on the first n pages. */
  function Done(b: seq<PageId>, offs: seq<nat>, g: Stage, n: nat): seq<Step>
    requires n <= |b| == |offs|
  {
    if n == 0 then [] else Done(b, offs, g, n - 1) + [Own(g, b[n - 1], Kept(offs, n - 1))]
  }

  /** What the first n steps of loop g make of the state when no other thread is about. */
  ghost predicate Framed(s0: State, s: State, b: seq<PageId>, d: nat, offs: seq<nat>, g: Stage, n: nat)
    requires n <= |b| == |offs| && Known(s0, b)
  {
    match g
    case Protecting =>
      && Swept(s0.pages, s.pages, b, n, Protected)
      && s == s0.(pages := s.pages, maps := ReadOnlyFor(s0.maps, b[..n]))
    case WritingOut =>
      && Swept(s0.pages, s.pages, b, n, Wrote) && s == s0.(pages := s.pages, disk := s.disk)
      && Reached(s0.disk, s.disk, d, offs, Copies(s0, b), KeptBelow(offs, n))
    case Entering =>
      && Swept(s0.pages, s.pages, b, n, Cleaned) && s == s0.(pages := s.pages, clean := s.clean)
      && TailGains(s0.clean, s.clean, s0.pages, b[..n])
    case Unlocking => Swept(s0.pages, s.pages, b, n, Unlocked) && s == s0.(pages := s.pages)
  }

  lemma FramedNothing(s: State, b: seq<PageId>, d: nat, offs: seq<nat>, g: Stage)
    requires |b| == |offs| && Known(s, b)
    ensures Framed(s, s, b, d, offs, g, 0)
  {
    ReadOnlyNone(s.maps);
    assert b[..0] == [];
  }

  lemma FramedProtect(s0: State, s: State, b: seq<PageId>, n: nat, k: Key)
    requires Swept(s0.pages, s.pages, b, n, Protected) && NoDup(b) && n < |b| && Stands(s, b[n], EvOut, k)
    requires s == s0.(pages := s.pages, maps := ReadOnlyFor(s0.maps, b[..n]))
    ensures var s' := DoProtect(s, b[n]);
            && Swept(s0.pages, s'.pages, b, n + 1, Protected)
            && s' == s0.(pages := s'.pages, maps := ReadOnlyFor(s0.maps, b[..n + 1]))
  {
    SweepNext(s0.pages, s.pages, b, n, Protected);
    ProtectOne(s, b[n]);
    ReadOnlyNext(s0.maps, b, n);
  }

  lemma FramedWrite(s0: State, s: State, b: seq<PageId>, d: nat, offs: seq<nat>, n: nat)
    requires |offs| == |b| && Known(s0, b) && InOrder(offs) && NoDup(b) && n < |b|
    requires Framed(s0, s, b, d, offs, WritingOut, n) && Stands(s, b[n], EvProtected, Key(d, offs[n]))
    ensures var s' := Apply(s, Own(WritingOut, b[n], Kept(offs, n))); Framed(s0, s', b, d, offs, WritingOut, n + 1)
  {
    SweepNext(s0.pages, s.pages, b, n, Wrote);
    var s' := Apply(s, Own(WritingOut, b[n], Kept(offs, n)));
    ReachKept(s0.disk, s.disk, d, offs, Copies(s0, b), n, s'.disk);
  }

  lemma FramedEnter(s0: State, mem: Memory, s: State, b: seq<PageId>, n: nat)
    requires Swept(s0.pages, s.pages, b, n, Cleaned) && NoDup(b) && n < |b| && Inv(s, mem)
    requires InPhase(s, b[n], EvWritten) && s == s0.(pages := s.pages, clean := s.clean)
    requires TailGains(s0.clean, s.clean, s0.pages, b[..n])
    ensures Enabled(s, EvEnter(b[n]))
    ensures var s' := DoEvEnter(s, b[n]);
            && Swept(s0.pages, s'.pages, b, n + 1, Cleaned) && s' == s0.(pages := s'.pages, clean := s'.clean)
            && TailGains(s0.clean, s'.clean, s0.pages, b[..n + 1])
  {
    SweepNext(s0.pages, s.pages, b, n, Cleaned);
    EnterNext(s0, s, mem, b, n);
  }

  lemma FramedNext(s0: State, s: State, mem: Memory, b: seq<PageId>, d: nat, offs: seq<nat>, g: Stage, n: nat)
    requires |offs| == |b| && Known(s0, b) && InOrder(offs) && NoDup(b) && n < |b| && Inv(s, mem)
    requires Framed(s0, s, b, d, offs, g, n) && Stands(s, b[n], From(g), Key(d, offs[n]))
    requires Enabled(s, Own(g, b[n], Kept(offs, n)))
    ensures Framed(s0, Apply(s, Own(g, b[n], Kept(offs, n))), b, d, offs, g, n + 1)
  {
    match g
    case Protecting => FramedProtect(s0, s, b, n, Key(d, offs[n]));
    case WritingOut => FramedWrite(s0, s, b, d, offs, n);
    case Entering => FramedEnter(s0, mem, s, b, n);
    case Unlocking => SweepNext(s0.pages, s.pages, b, n, Unlocked);
  }

  /** One of the four loops: the evictor's own steps are one for each page, in order; alone they do
      what the loop says and nothing else. */
  method Sweep(s0: State, e: nat, others: Others, b: seq<PageId>, d: nat, offs: seq<nat>, g: Stage,
               ghost mem0: Memory, ghost from: State, ghost memory: Memory, ghost lost: set<Key>)
      returns (s: State, ghost mem: Memory)
    requires Under(from, memory, s0, mem0, e, lost, b, d, offs, g, 0) && Polite(others, e)
    requires NoDup(b) && InOrder(offs) && (g.WritingOut? ==> lost == LeftOut(d, offs))
    ensures Under(from, memory, s, mem, e, lost, b, d, offs, g, |b|)
    ensures |offs| == |b| && Known(s0, b) && Weaves(s0, mem0, Done(b, offs, g, |b|), others, s, mem)
    ensures Alone(others) ==> Framed(s0, s, b, d, offs, g, |b|)
  {
    s, mem := s0, mem0;
    ThroughKnown(s0, b, d, offs, g);
    FramedNothing(s0, b, d, offs, g);
    WeavesNothing(s0, mem0, others);
    for n := 0 to |b|
      invariant Under(from, memory, s, mem, e, lost, b, d, offs, g, n)
      invariant Weaves(s0, mem0, Done(b, offs, g, n), others, s, mem)
      invariant Alone(others) ==> Framed(s0, s, b, d, offs, g, n)
    {
      ghost var s1, mem1 := s, mem;
      s, mem := Pass(s, e, others, b, d, offs, g, n, mem, from, memory, lost);
      LoopNext(s0, mem0, s1, mem1, s, mem, b, d, offs, g, n, others);
    }
  }

  lemma LoopNext(s0: State, mem0: Memory, s1: State, mem1: Memory, s: State, mem: Memory, b: seq<PageId>, d: nat,
                 offs: seq<nat>, g: Stage, n: nat, others: Others)
    requires |offs| == |b| && Known(s0, b) && InOrder(offs) && NoDup(b) && n < |b| && Inv(s1, mem1)
    requires Weaves(s0, mem0, Done(b, offs, g, n), others, s1, mem1) && Through(s1, b, d, offs, g, n)
    requires Alone(others) ==> Framed(s0, s1, b, d, offs, g, n)
    requires var t := Own(g, b[n], Kept(offs, n));
             Weaves(s1, mem1, [t], others, s, mem) && (Alone(others) ==> Enabled(s1, t) && s == Apply(s1, t))
    ensures Weaves(s0, mem0, Done(b, offs, g, n + 1), others, s, mem)
    ensures Alone(others) ==> Framed(s0, s, b, d, offs, g, n + 1)
  {
    WeavesOn(s0, mem0, Done(b, offs, g, n), s1, mem1, [Own(g, b[n], Kept(offs, n))], s, mem, others);
    if Alone(others) { FramedNext(s0, s1, mem1, b, d, offs, g, n); }
  }

  lemma ThroughKnown(s: State, b: seq<PageId>, d: nat, offs: seq<nat>, g: Stage)
    requires Through(s, b, d, offs, g, 0)
    ensures Known(s, b)
  {
    forall i | 0 <= i < |b| ensures b[i] < |s.pages| { assert Stands(s, b[i], From(g), Key(d, offs[i])); }
  }

  // ---- the rest of the round, and all of it --------------------------------------------------

  /** A page just before its unlock: clean, in its clean FIFO and in no other queue, its block on the
      device as last stored; and its block is defined no longer if it was left out of the write. */
  ghost predicate Parked(s: State, mem: Memory, p: PageId, k: Key, kept: bool) {
    && p < |s.pages| && KeyOf(s.pages[p]) == k && s.pages[p].locked && s.pages[p].valid && !s.pages[p].dirty
    && (forall q: nat :: InClean(s, p, q) <==> q == k.off % 32) && (forall q: nat :: !InDirty(s, p, q))
    && (k in mem ==> kept && s.pages[p].data == mem[k] && Block(s.disk, k) == mem[k])
  }

  lemma BecomesParked(s: State, mem: Memory, p: PageId, k: Key, kept: bool)
    requires Inv(s, mem) && Stands(s, p, Settled, k) && (!kept ==> k !in mem)
    ensures Parked(s, mem, p, k, kept)
  {
    Local(s, p);
    QueuesOf(s, p);
    Recall(s, mem);
    assert PageCoherent(s.pages[p], s.disk, mem);
  }

  ghost predicate AllParked(s: State, mem: Memory, b: seq<PageId>, d: nat, offs: seq<nat>) {
    |offs| == |b| && forall i :: 0 <= i < |b| ==> Parked(s, mem, b[i], Key(d, offs[i]), Kept(offs, i))
  }

  lemma Arrived(s: State, mem: Memory, b: seq<PageId>, d: nat, offs: seq<nat>)
    requires Inv(s, mem) && Through(s, b, d, offs, Entering, |b|) && Gone(mem, d, offs, |b|)
    ensures AllParked(s, mem, b, d, offs)
  {
    forall i | 0 <= i < |b| ensures Parked(s, mem, b[i], Key(d, offs[i]), Kept(offs, i)) {
      BecomesParked(s, mem, b[i], Key(d, offs[i]), Kept(offs, i));
    }
  }

  // The evictor's own steps from the gathered batch on, page by page.

  function Protects(b: seq<PageId>): (own: seq<Step>)
    ensures |own| == |b| && forall i :: 0 <= i < |b| ==> own[i] == Protect(b[i])
  {
    seq(|b|, i requires 0 <= i < |b| => Protect(b[i]))
  }

  function Writes(b: seq<PageId>, offs: seq<nat>): (own: seq<Step>)
    requires |offs| == |b|
    ensures |own| == |b|
    ensures forall i :: 0 <= i < |b| ==> own[i] == if Kept(offs, i) then WriteBlock(b[i]) else DropBlock(b[i])
  {
    seq(|b|, i requires 0 <= i < |b| => if Kept(offs, i) then WriteBlock(b[i]) else DropBlock(b[i]))
  }

  function Enters(b: seq<PageId>): (own: seq<Step>)
    ensures |own| == |b| && forall i :: 0 <= i < |b| ==> own[i] == EvEnter(b[i])
  {
    seq(|b|, i requires 0 <= i < |b| => EvEnter(b[i]))
  }

  function Unlocks(b: seq<PageId>): (own: seq<Step>)
    ensures |own| == |b| && forall i :: 0 <= i < |b| ==> own[i] == Unlock(b[i])
  {
    seq(|b|, i requires 0 <= i < |b| => Unlock(b[i]))
  }

  lemma {:induction false} DoneAt(b: seq<PageId>, offs: seq<nat>, g: Stage, n: nat)
    requires n <= |b| == |offs|
    ensures |Done(b, offs, g, n)| == n
    ensures forall i :: 0 <= i < n ==> Done(b, offs, g, n)[i] == Own(g, b[i], Kept(offs, i))
  {
    if n > 0 { DoneAt(b, offs, g, n - 1); }
  }

  lemma DoneIs(b: seq<PageId>, offs: seq<nat>, g: Stage, own: seq<Step>)
    requires |own| == |b| == |offs| && forall i :: 0 <= i < |b| ==> own[i] == Own(g, b[i], Kept(offs, i))
    ensures Done(b, offs, g, |b|) == own
  {
    DoneAt(b, offs, g, |b|);
  }

  /** The pages before their unlock, on the way from an evictor's batch to a clean FIFO. */
  function Returned(r: Page): Page { r.(buf := BI_CLEAN, dirty := false, phase := Settled) }

  /** What the first three loops come to when no other thread is about. */
  ghost predicate ParkedFrom(s0: State, s: State, b: seq<PageId>, d: nat, offs: seq<nat>)
    requires Known(s0, b) && |offs| == |b|
  {
    && Swept(s0.pages, s.pages, b, |b|, Returned)
    && Reached(s0.disk, s.disk, d, offs, Copies(s0, b), CoveredPages(offs))
    && s == s0.(pages := s.pages, maps := ReadOnlyFor(s0.maps, b), disk := s.disk, clean := s.clean)
    && TailGains(s0.clean, s.clean, s0.pages, b)
  }

  lemma ParkAlone(s0: State, s1: State, s2: State, s: State, b: seq<PageId>, d: nat, offs: seq<nat>)
    requires |offs| == |b| && Known(s0, b) && Known(s1, b) && Known(s2, b)
    requires Framed(s0, s1, b, d, offs, Protecting, |b|) && Framed(s1, s2, b, d, offs, WritingOut, |b|)
    requires Framed(s2, s, b, d, offs, Entering, |b|)
    ensures ParkedFrom(s0, s, b, d, offs)
  {
    assert b[..|b|] == b;
    AllKept(offs);
    assert Copies(s1, b) == Copies(s0, b) by {
      forall i | 0 <= i < |b| ensures s1.pages[b[i]] == Protected(s0.pages[b[i]]) {
      }
    }
    SweepFlushed(s0.pages, s1.pages, s2.pages, b);
    SweepTwice(s0.pages, s2.pages, s.pages, b, Flushed, Cleaned, Returned);
    TailGainsSame(s2.clean, s.clean, s2.pages, s0.pages, b);
  }

  /** The first three loops, up to the unlocking. */
  method Park(s0: State, e: nat, others: Others, b: seq<PageId>, d: nat, offs: seq<nat>, ghost mem0: Memory)
      returns (s: State, ghost mem: Memory)
    requires Under(s0, mem0, s0, mem0, e, LeftOut(d, offs), b, d, offs, Protecting, 0) && Polite(others, e)
    requires NoDup(b) && InOrder(offs)
    ensures Under(s0, mem0, s, mem, e, LeftOut(d, offs), b, d, offs, Entering, |b|)
    ensures AllParked(s, mem, b, d, offs) && Known(s0, b)
    ensures Weaves(s0, mem0, Protects(b) + Writes(b, offs) + Enters(b), others, s, mem)
    ensures Alone(others) ==> ParkedFrom(s0, s, b, d, offs)
  {
    ghost var lost := LeftOut(d, offs);
    var s1, s2;
    ghost var mem1, mem2;
    s1, mem1 := Sweep(s0, e, others, b, d, offs, Protecting, mem0, s0, mem0, lost);
    NextStage(s0, mem0, s1, mem1, e, lost, b, d, offs, Protecting, WritingOut);
    s2, mem2 := Sweep(s1, e, others, b, d, offs, WritingOut, mem1, s0, mem0, lost);
    NextStage(s0, mem0, s2, mem2, e, lost, b, d, offs, WritingOut, Entering);
    s, mem := Sweep(s2, e, others, b, d, offs, Entering, mem2, s0, mem0, lost);
    Arrived(s, mem, b, d, offs);
    DoneIs(b, offs, Protecting, Protects(b));
    DoneIs(b, offs, WritingOut, Writes(b, offs));
    DoneIs(b, offs, Entering, Enters(b));
    ThreeLoops(s0, mem0, s1, mem1, s2, mem2, s, mem, Protects(b), Writes(b, offs), Enters(b), others);
    if Alone(others) { ParkAlone(s0, s1, s2, s, b, d, offs); }
  }

  lemma ThreeLoops(s0: State, mem0: Memory, s1: State, mem1: Memory, s2: State, mem2: Memory, s: State, mem: Memory,
                   x: seq<Step>, y: seq<Step>, z: seq<Step>, others: Others)
    requires Weaves(s0, mem0, x, others, s1, mem1) && Weaves(s1, mem1, y, others, s2, mem2)
    requires Weaves(s2, mem2, z, others, s, mem)
    ensures Weaves(s0, mem0, x + y + z, others, s, mem)
  {
    WeavesOn(s0, mem0, x, s1, mem1, y, s2, mem2, others);
    WeavesOn(s0, mem0, x + y, s2, mem2, z, s, mem, others);
  }

  lemma NextStage(from: State, memory: Memory, s: State, mem: Memory, e: nat, lost: set<Key>,
                  b: seq<PageId>, d: nat, offs: seq<nat>, g: Stage, g': Stage)
    requires Under(from, memory, s, mem, e, lost, b, d, offs, g, |b|) && To(g) == From(g')
    ensures Under(from, memory, s, mem, e, lost, b, d, offs, g', 0)
  {
    forall i | 0 <= i < |b| ensures Stands(s, b[i], From(g'), Key(d, offs[i])) {
      assert Stands(s, b[i], To(g), Key(d, offs[i]));
    }
  }

  /** The rest of a round from the gathered batch on. */
  method Retire(s0: State, e: nat, others: Others, b: seq<PageId>, d: nat, offs: seq<nat>, ghost mem0: Memory)
      returns (s: State, ghost parked: State, ghost memP: Memory, ghost mem: Memory)
    requires Inv(s0, mem0) && e < EVICTOR_THREADS && s0.hands[e].Empty? && Polite(others, e)
    requires NoDup(b) && InOrder(offs) && Through(s0, b, d, offs, Protecting, 0)
    ensures Loses(s0, mem0, parked, memP, LeftOut(d, offs)) && AllParked(parked, memP, b, d, offs) && Known(s0, b)
    ensures Weaves(s0, mem0, Protects(b) + Writes(b, offs) + Enters(b), others, parked, memP)
    ensures Weaves(parked, memP, Unlocks(b), others, s, mem)
    ensures Leads(parked, memP, s, mem) && Inv(s, mem) && s.hands[e].Empty?
    ensures Alone(others) ==> RetiredFrom(s0, s, b, d, offs)
  {
    LeadsNowhere(s0, mem0);
    LeadsLoses(s0, mem0, s0, mem0, LeftOut(d, offs));
    s, mem := Park(s0, e, others, b, d, offs, mem0);
    parked, memP := s, mem;
    Restart(s0, mem0, s, mem, e, b, d, offs);
    s, mem := Sweep(s, e, others, b, d, offs, Unlocking, mem, parked, memP, {});
    AllUnlocked(parked, memP, s, mem, e, b, d, offs, others);
    if Alone(others) { RetireAlone(s0, parked, s, b, d, offs); }
  }

  lemma Restart(from: State, memory: Memory, s: State, mem: Memory, e: nat, b: seq<PageId>, d: nat, offs: seq<nat>)
    requires Under(from, memory, s, mem, e, LeftOut(d, offs), b, d, offs, Entering, |b|)
    ensures Under(s, mem, s, mem, e, {}, b, d, offs, Unlocking, 0)
  {
    LeadsNowhere(s, mem);
    LeadsLoses(s, mem, s, mem, {});
    NextStage(from, memory, s, mem, e, LeftOut(d, offs), b, d, offs, Entering, Unlocking);
  }

  lemma AllUnlocked(s0: State, mem0: Memory, s: State, mem: Memory, e: nat, b: seq<PageId>, d: nat, offs: seq<nat>,
                    others: Others)
    requires Under(s0, mem0, s, mem, e, {}, b, d, offs, Unlocking, |b|)
    requires |offs| == |b| && Weaves(s0, mem0, Done(b, offs, Unlocking, |b|), others, s, mem)
    ensures Weaves(s0, mem0, Unlocks(b), others, s, mem) && Leads(s0, mem0, s, mem)
  {
    DoneIs(b, offs, Unlocking, Unlocks(b));
    LeadsLoses(s0, mem0, s, mem, {});
  }

  /** What the rest of a round comes to when no other thread is about. */
  ghost predicate RetiredFrom(s0: State, s: State, b: seq<PageId>, d: nat, offs: seq<nat>)
    requires Known(s0, b) && |offs| == |b|
  {
    && Swept(s0.pages, s.pages, b, |b|, Evicted)
    && Reached(s0.disk, s.disk, d, offs, Copies(s0, b), CoveredPages(offs))
    && s == s0.(pages := s.pages, maps := ReadOnlyFor(s0.maps, b), disk := s.disk, clean := s.clean)
    && TailGains(s0.clean, s.clean, s0.pages, b)
  }

  lemma RetireAlone(s0: State, s1: State, s: State, b: seq<PageId>, d: nat, offs: seq<nat>)
    requires |offs| == |b| && Known(s0, b) && Known(s1, b)
    requires ParkedFrom(s0, s1, b, d, offs) && Framed(s1, s, b, d, offs, Unlocking, |b|)
    ensures RetiredFrom(s0, s, b, d, offs)
  {
    SweepTwice(s0.pages, s1.pages, s.pages, b, Returned, Unlocked, Evicted);
  }

  // ---- the whole round -----------------------------------------------------------------------

  lemma StartsRound(s: State, e: nat, b: seq<PageId>)
    requires Structure(s) && Batch(s, e, b) && Known(s, b)
    ensures NoDup(b) && InOrder(Offsets(s, b)) && Through(s, b, DeviceOf(s, b), Offsets(s, b), Protecting, 0)
  {
    if b != [] {
      BatchShape(s, e, b);
      forall i | 0 <= i < |b| ensures Stands(s, b[i], EvOut, Key(DeviceOf(s, b), Offsets(s, b)[i])) {
        assert InPhase(s, b[i], EvOut);
      }
    }
  }

  /** A page of the batch is in the blocks left out exactly if it is not kept. */
  lemma LeftOutExact(d: nat, offs: seq<nat>, i: nat)
    requires InOrder(offs) && i < |offs|
    ensures Key(d, offs[i]) in LeftOut(d, offs) <==> !Kept(offs, i)
  {
    if Key(d, offs[i]) in LeftOut(d, offs) {
      var j: nat :| j < |offs| && !Kept(offs, j) && Key(d, offs[j]) == Key(d, offs[i]);
      assert i == j;
    }
  }

  /** Of the batch's blocks defined before, exactly the kept ones are defined after. */
  lemma DefinedExact(s: State, mem: Memory, s': State, mem': Memory, b: seq<PageId>, d: nat, offs: seq<nat>, i: nat)
    requires Inv(s, mem) && Loses(s, mem, s', mem', LeftOut(d, offs)) && AllParked(s', mem', b, d, offs)
    requires InOrder(offs) && i < |b| && Key(d, offs[i]) in mem
    ensures Key(d, offs[i]) in mem' <==> Kept(offs, i)
  {
    LosesKeeps(s, mem, s', mem', LeftOut(d, offs));
    LeftOutExact(d, offs, i);
    assert Parked(s', mem', b[i], Key(d, offs[i]), Kept(offs, i));
  }

  /** A whole round among any other threads. A sound run leads to the gathered batch; from there a run
      whose only losses are the blocks left out of this batch's write leads to the state in which the
      batch is about to be unlocked: clean, queued and on the device, with every other block kept; and
      a sound run leads from there to the end. The evictor's own steps in these runs are to protect,
      write or leave out, and enqueue each page, and to unlock each page. If no run of the batch exceeds
      256 pages the whole round is a sound run. Alone it ends with exactly the effect of RoundDone. */
  method RoundAmong(s0: State, e: nat, others: Others, ghost mem0: Memory)
      returns (s: State, batch: seq<PageId>, ghost gathered: State, ghost memG: Memory,
               ghost parked: State, ghost memP: Memory, ghost mem: Memory, ghost own: seq<Step>)
    requires Inv(s0, mem0) && e < EVICTOR_THREADS && s0.hands[e].Empty? && Polite(others, e)
    ensures Leads(s0, mem0, gathered, memG) && Batch(gathered, e, batch) && Known(gathered, batch)
    ensures Weaves(s0, mem0, own, others, gathered, memG) && Gathers(s0, own, e, gathered, batch)
    ensures var d, offs := DeviceOf(gathered, batch), Offsets(gathered, batch);
            && Loses(gathered, memG, parked, memP, LeftOut(d, offs)) && AllParked(parked, memP, batch, d, offs)
            && Weaves(gathered, memG, Protects(batch) + Writes(batch, offs) + Enters(batch), others, parked, memP)
            && (forall k :: k in memG && k !in LeftOut(d, offs) ==> k in memP)
            && (forall i :: 0 <= i < |batch| && Key(d, offs[i]) in memG ==>
                  (Key(d, offs[i]) in memP <==> Kept(offs, i)))
            && (NoLongRun(offs) ==> Leads(s0, mem0, s, mem))
    ensures Leads(parked, memP, s, mem) && Weaves(parked, memP, Unlocks(batch), others, s, mem)
    ensures Inv(s, mem) && s.hands[e].Empty?
    ensures Alone(others) ==> RoundDone(gathered, s, batch)
    ensures batch != [] <==> Ready(s0, e)
  {
    var capped;
    s, batch, capped, memG, own := Gather(s0, e, others, mem0);
    gathered := s;
    BatchKnown(s, e, batch);
    StartsRound(s, e, batch);
    var d, offs := DeviceOf(s, batch), Offsets(s, batch);
    s, parked, memP, mem := Retire(s, e, others, batch, d, offs, memG);
    Conclude(s0, mem0, gathered, memG, parked, memP, s, mem, batch, d, offs);
  }

  lemma Conclude(s0: State, mem0: Memory, g: State, memG: Memory, p: State, memP: Memory, s: State, mem: Memory,
                 b: seq<PageId>, d: nat, offs: seq<nat>)
    requires Leads(s0, mem0, g, memG) && Inv(g, memG) && Loses(g, memG, p, memP, LeftOut(d, offs))
             && Leads(p, memP, s, mem)
    requires InOrder(offs) && AllParked(p, memP, b, d, offs)
    ensures forall k :: k in memG && k !in LeftOut(d, offs) ==> k in memP
    ensures forall i :: 0 <= i < |b| && Key(d, offs[i]) in memG ==> (Key(d, offs[i]) in memP <==> Kept(offs, i))
    ensures NoLongRun(offs) ==> Leads(s0, mem0, s, mem)
  {
    LosesKeeps(g, memG, p, memP, LeftOut(d, offs));
    forall i | 0 <= i < |b| && Key(d, offs[i]) in memG ensures Key(d, offs[i]) in memP <==> Kept(offs, i) {
      DefinedExact(g, memG, p, memP, b, d, offs, i);
    }
    if NoLongRun(offs) {
      NothingLost(d, offs);
      LeadsLoses(g, memG, p, memP, {});
      LeadsOn(s0, mem0, g, memG, p, memP);
      LeadsOn(s0, mem0, p, memP, s, mem);
    }
  }
}
