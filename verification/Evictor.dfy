/** One round of evictor_thread. The gathering of a batch is proved against arbitrary
    interference: between any two of its steps the other threads run any legal sound steps. */
module Evictor {
  import opened Params
  import opened Fifo
  import opened Placement
  import opened Lifecycle
  import opened Invariant
  import opened Moves
  import opened Steps
  import opened Runs
  import opened Guarantees
  import opened Interference
  import opened Losses
  import opened Interleaving
  import opened Grabbing

  /** Page p is out of its tree and its queue, locked, of pvd d, at an offset in [lo, hi). */
  predicate Member(s: State, p: PageId, d: nat, lo: nat, hi: nat) {
    p < |s.pages| && s.pages[p].phase.EvOut? && s.pages[p].pvd == d && lo <= s.pages[p].index < hi
  }

  predicate Ascending(s: State, b: seq<PageId>) {
    forall i, j :: 0 <= i < j < |b| && b[i] < |s.pages| && b[j] < |s.pages| ==>
      s.pages[b[i]].index < s.pages[b[j]].index
  }

  /** Everything in `b` belongs to one pvd and lies between the two offsets, in increasing order, from the
      lower one on. */
  predicate Gathered(s: State, b: seq<PageId>, d: nat, lo: nat, hi: nat) {
    && (forall i :: 0 <= i < |b| ==> Member(s, b[i], d, lo, hi))
    && Ascending(s, b)
    && (b != [] && b[0] < |s.pages| ==> s.pages[b[0]].index == lo)
  }

  /** End of the 512-page block that offset o lies in. */
  function BlockEnd(o: nat): (end: nat)
    ensures o < end <= o + 512 && end % 512 == 0
  {
    (o / 512 + 1) * 512
  }

  /** Offsets of one block share a dirty queue, and the next block has another. */
  lemma BlockShares(lo: nat, x: nat)
    requires lo <= x <= BlockEnd(lo)
    ensures DirtyQueue(x) == DirtyQueue(lo) <==> x < BlockEnd(lo)
    ensures x < BlockEnd(lo) ==> BlockEnd(x) == BlockEnd(lo)
  {
  }

  /** The batch an evictor is to write: ascending offsets of one pvd within the 512-page block of
      its first page, every page locked and in neither tree nor queue. */
  ghost predicate Batch(s: State, e: nat, b: seq<PageId>) {
    b == [] || (
      && b[0] < |s.pages|
      && (s.pages[b[0]].index / 512) % 8 == e
      && Gathered(s, b, s.pages[b[0]].pvd, s.pages[b[0]].index, BlockEnd(s.pages[b[0]].index)))
  }

  lemma GatheredSurvives(s: State, s': State, b: seq<PageId>, d: nat, lo: nat, hi: nat)
    requires Gathered(s, b, d, lo, hi) && AllTaken(s, b) && SameHeld(s, s', b)
    ensures Gathered(s', b, d, lo, hi)
  {
  }

  lemma GatheredTaken(s: State, b: seq<PageId>, d: nat, lo: nat, hi: nat)
    requires Gathered(s, b, d, lo, hi)
    ensures AllTaken(s, b)
  {
  }

  /** The others run; evictor e's hand and batch are as before. */
  lemma Meanwhile(s: State, mem: Memory, others: Others, n: nat, e: nat, b: seq<PageId>, d: nat, lo: nat, hi: nat)
    requires Inv(s, mem) && Polite(others, e) && e < EVICTOR_THREADS && !s.hands[e].Took?
    requires Gathered(s, b, d, lo, hi)
    ensures var run := others(n, s, b);
            && Legal(s, run) && SoundRun(s, run) && Inv(After(s, run), LastStored(mem, run))
            && After(s, run).hands[e] == s.hands[e] && SameProbe(s, After(s, run), e)
            && Gathered(After(s, run), b, d, lo, hi)
  {
    var run := others(n, s, b);
    assert Legal(s, run) && SoundRun(s, run) && ForeignRun(run, e, b);
    GatheredTaken(s, b, d, lo, hi);
    RunLeaves(s, mem, run, e, b);
    GatheredSurvives(s, After(s, run), b, d, lo, hi);
  }

  /** Letting the others run. */
  method Wait(s0: State, others: Others, n: nat, e: nat, b: seq<PageId>, ghost mem0: Memory, ghost d: nat,
              ghost lo: nat, ghost hi: nat)
      returns (s: State, ghost mem: Memory)
    requires Inv(s0, mem0) && Polite(others, e) && e < EVICTOR_THREADS && !s0.hands[e].Took?
    requires Gathered(s0, b, d, lo, hi)
    ensures Inv(s, mem) && s.hands[e] == s0.hands[e] && SameProbe(s0, s, e) && Gathered(s, b, d, lo, hi)
    ensures Weaves(s0, mem0, [], others, s, mem) && (Alone(others) ==> s == s0 && mem == mem0)
  {
    Meanwhile(s0, mem0, others, n, e, b, d, lo, hi);
    var run := others(n, s0, b);
    s, mem := After(s0, run), LastStored(mem0, run);
    SoundLosesNothing(s0, mem0, run, {});
    WeavesTheirs(s0, mem0, n, b, others);
  }

  /** One more page at the end of the batch. */
  lemma GatherOne(s: State, s': State, b: seq<PageId>, p: PageId, d: nat, lo: nat, off: nat)
    requires Gathered(s, b, d, lo, off) && |s'.pages| == |s.pages| && p < |s.pages|
    requires s'.pages == s.pages[p := s'.pages[p]] && p !in b
    requires Member(s', p, d, off, off + 1) && lo <= off && (b == [] ==> lo == off)
    ensures Gathered(s', b + [p], d, lo, off + 1)
  {
    var c := b + [p];
    forall i | 0 <= i < |c| ensures Member(s', c[i], d, lo, off + 1) {
      assert i < |b| ==> Member(s, b[i], d, lo, off);
    }
    forall i, j | 0 <= i < j < |c| && c[i] < |s'.pages| && c[j] < |s'.pages|
      ensures s'.pages[c[i]].index < s'.pages[c[j]].index
    {
      assert Member(s, b[i], d, lo, off);
    }
  }

  lemma GatherNone(s: State, s': State, b: seq<PageId>, p: PageId, d: nat, lo: nat, off: nat)
    requires Gathered(s, b, d, lo, off) && |s'.pages| == |s.pages| && p < |s.pages|
    requires s'.pages == s.pages[p := s'.pages[p]] && p !in b
    ensures Gathered(s', b, d, lo, off) && Gathered(s', b, d, lo, off + 1)
  {
    forall i | 0 <= i < |b| ensures Member(s', b[i], d, lo, off) { assert Member(s, b[i], d, lo, off); }
  }

  /** A page in an evictor's hand is in no batch. */
  lemma ProbedNotHeld(s: State, e: nat, b: seq<PageId>, d: nat, lo: nat, hi: nat)
    requires Structure(s) && e < EVICTOR_THREADS && s.hands[e].Probed? && Gathered(s, b, d, lo, hi)
    ensures s.hands[e].page !in b && s.hands[e].page < |s.pages|
    ensures s.pages[s.hands[e].page].pvd == s.hands[e].dev
  {
    assert Holds(Hands, s);
    assert HandOk(s.pages, e, s.hands[e]);
    Local(s, s.hands[e].page);
  }

  /** A page still in a dirty tree is in no batch. */
  lemma TreeNotHeld(s: State, k: Key, b: seq<PageId>, d: nat, lo: nat, hi: nat)
    requires Structure(s) && Has(s.trees, k) && Gathered(s, b, d, lo, hi)
    ensures Get(s.trees, k) < |s.pages| && Get(s.trees, k) !in b && KeyOf(s.pages[Get(s.trees, k)]) == k
  {
    TreeEntry(s, k);
    Local(s, Get(s.trees, k));
  }

  /** Erasing the neighbour from its tree; the batch is untouched. */
  method Probe(s: State, e: nat, k: Key, b: seq<PageId>, ghost mem: Memory, ghost lo: nat) returns (s': State)
    requires Inv(s, mem) && e < EVICTOR_THREADS && s.hands[e].Empty? && DirtyQueue(k.off) == e
    requires Has(s.trees, k) && lo <= k.off && Gathered(s, b, k.dev, lo, k.off)
    ensures Enabled(s, EvProbe(e, k)) && s' == DoEvProbe(s, e, k)
    ensures Inv(s', mem) && Gathered(s', b, k.dev, lo, k.off)
    ensures s'.hands[e].Probed? && s'.hands[e].dev == k.dev && s'.hands[e].page < |s'.pages|
    ensures KeyOf(s'.pages[s'.hands[e].page]) == k
    ensures !Has(s'.trees, k) && (Exhausted(s, k.dev, lo, k.off) ==> Exhausted(s', k.dev, lo, k.off))
  {
    TreeNotHeld(s, k, b, k.dev, lo, k.off);
    KeepEvProbe(s, mem, e, k);
    s' := DoEvProbe(s, e, k);
    GatherNone(s, s', b, Get(s.trees, k), k.dev, lo, k.off);
    HasAfter(s.trees, k, 0, k);
    if Exhausted(s, k.dev, lo, k.off) { ExhaustedProbe(s, e, k, lo); }
  }

  function ClaimStep(e: nat, claimed: bool): Step { if claimed then EvClaim(e) else EvPutBack(e) }

  /** remove_if: the neighbour joins the batch, or goes back into its tree. */
  method ClaimOrPutBack(s: State, e: nat, k: Key, b: seq<PageId>, ghost mem: Memory, ghost lo: nat)
      returns (s': State, claimed: bool)
    requires Inv(s, mem) && e < EVICTOR_THREADS && s.hands[e].Probed? && s.hands[e].page < |s.pages|
    requires KeyOf(s.pages[s.hands[e].page]) == k && lo <= k.off && Gathered(s, b, k.dev, lo, k.off)
    requires b == [] ==> lo == k.off
    ensures Leads(s, mem, s', mem) && Inv(s', mem) && s'.hands[e].Empty?
    ensures claimed == Lockable(s, s.hands[e].page)
    ensures Enabled(s, ClaimStep(e, claimed)) && s' == Apply(s, ClaimStep(e, claimed))
    ensures Gathered(s', if claimed then b + [s.hands[e].page] else b, k.dev, lo, k.off + 1)
    ensures !claimed ==> Has(s'.trees, k) && Get(s'.trees, k) == s.hands[e].page
    ensures Exhausted(s, k.dev, lo, k.off) && !Has(s.trees, k) ==> Exhausted(s', k.dev, lo, k.off + 1)
  {
    claimed := Lockable(s, s.hands[e].page);
    if claimed {
      JoinsBatch(s, e, k, b, mem, lo);
      s' := DoEvClaim(s, e);
    } else {
      GoesBack(s, e, k, b, mem, lo);
      s' := DoEvPutBack(s, e);
    }
  }

  lemma JoinsBatch(s: State, e: nat, k: Key, b: seq<PageId>, mem: Memory, lo: nat)
    requires Inv(s, mem) && e < EVICTOR_THREADS && s.hands[e].Probed? && Lockable(s, s.hands[e].page)
    requires KeyOf(s.pages[s.hands[e].page]) == k && lo <= k.off && Gathered(s, b, k.dev, lo, k.off)
    requires b == [] ==> lo == k.off
    ensures var s' := DoEvClaim(s, e);
            && Leads(s, mem, s', mem) && Inv(s', mem) && s'.hands[e].Empty?
            && Gathered(s', b + [s.hands[e].page], k.dev, lo, k.off + 1)
            && (Exhausted(s, k.dev, lo, k.off) && !Has(s.trees, k) ==> Exhausted(s', k.dev, lo, k.off + 1))
  {
    ProbedNotHeld(s, e, b, k.dev, lo, k.off);
    KeepEvClaim(s, mem, e);
    LeadsBy(s, mem, EvClaim(e));
    GatherOne(s, DoEvClaim(s, e), b, s.hands[e].page, k.dev, lo, k.off);
    if Exhausted(s, k.dev, lo, k.off) && !Has(s.trees, k) { ExhaustedClaim(s, e, k.dev, lo, k.off); }
  }

  lemma GoesBack(s: State, e: nat, k: Key, b: seq<PageId>, mem: Memory, lo: nat)
    requires Inv(s, mem) && e < EVICTOR_THREADS && s.hands[e].Probed? && s.hands[e].page < |s.pages|
    requires KeyOf(s.pages[s.hands[e].page]) == k && lo <= k.off && Gathered(s, b, k.dev, lo, k.off)
    requires !Lockable(s, s.hands[e].page)
    ensures var s' := DoEvPutBack(s, e);
            && Leads(s, mem, s', mem) && Inv(s', mem) && s'.hands[e].Empty?
            && Gathered(s', b, k.dev, lo, k.off + 1)
            && Has(s'.trees, k) && Get(s'.trees, k) == s.hands[e].page
            && (Exhausted(s, k.dev, lo, k.off) && !Has(s.trees, k) ==> Exhausted(s', k.dev, lo, k.off + 1))
  {
    ProbedNotHeld(s, e, b, k.dev, lo, k.off);
    PutsBack(s, mem, e);
    LeadsBy(s, mem, EvPutBack(e));
    GatherNone(s, DoEvPutBack(s, e), b, s.hands[e].page, k.dev, lo, k.off);
    if Exhausted(s, k.dev, lo, k.off) && !Has(s.trees, k) { ExhaustedPutBack(s, e, k, lo); }
  }

  lemma PutsBack(s: State, mem: Memory, e: nat)
    requires Inv(s, mem) && Enabled(s, EvPutBack(e))
    ensures var s' := DoEvPutBack(s, e); var p := s.hands[e].page;
            Inv(s', mem) && Has(s'.trees, KeyOf(s.pages[p])) && Get(s'.trees, KeyOf(s.pages[p])) == p
  {
    var s', p := DoEvPutBack(s, e), s.hands[e].page;
    KeepEvPutBack(s, mem, e);
    Local(s', p);
    assert Holds(Hands, s);
    assert HandOk(s.pages, e, s.hands[e]);
    Local(s, p);
    assert TreeAts(s'.pages)[p] == Some(KeyOf(s.pages[p]));
    assert Holds(Trees, s');
  }

  // ---- nothing lockable is passed over -------------------------------------------------------

  /** Of the offsets strictly between lo and hi, those still in d's trees are locked by others. */
  ghost predicate Exhausted(s: State, d: nat, lo: nat, hi: nat) {
    forall o: nat :: lo < o < hi && Has(s.trees, Key(d, o)) ==> !Lockable(s, Get(s.trees, Key(d, o)))
  }

  lemma ExhaustedProbe(s: State, e: nat, k: Key, lo: nat)
    requires Structure(s) && Enabled(s, EvProbe(e, k)) && Exhausted(s, k.dev, lo, k.off)
    ensures Exhausted(DoEvProbe(s, e, k), k.dev, lo, k.off)
  {
    var s' := DoEvProbe(s, e, k);
    forall o: nat | lo < o < k.off && Has(s'.trees, Key(k.dev, o))
      ensures !Lockable(s', Get(s'.trees, Key(k.dev, o)))
    {
      HasAfter(s.trees, k, 0, Key(k.dev, o));
      assert Has(s.trees, Key(k.dev, o));
    }
  }

  lemma ExhaustedClaim(s: State, e: nat, d: nat, lo: nat, off: nat)
    requires Structure(s) && Enabled(s, EvClaim(e)) && Exhausted(s, d, lo, off) && !Has(s.trees, Key(d, off))
    ensures Exhausted(DoEvClaim(s, e), d, lo, off + 1)
  {
    var s' := DoEvClaim(s, e);
    forall o: nat | lo < o < off + 1 && Has(s'.trees, Key(d, o)) ensures !Lockable(s', Get(s'.trees, Key(d, o))) {
      assert Has(s.trees, Key(d, o));
    }
  }

  lemma ExhaustedPutBack(s: State, e: nat, k: Key, lo: nat)
    requires Structure(s) && Enabled(s, EvPutBack(e)) && Exhausted(s, k.dev, lo, k.off)
    requires k == Key(s.hands[e].dev, s.pages[s.hands[e].page].index)
    requires !Lockable(s, s.hands[e].page) && !Has(s.trees, k)
    ensures Exhausted(DoEvPutBack(s, e), k.dev, lo, k.off + 1)
  {
    var s', p := DoEvPutBack(s, e), s.hands[e].page;
    forall o: nat | lo < o < k.off + 1 && Has(s'.trees, Key(k.dev, o))
      ensures !Lockable(s', Get(s'.trees, Key(k.dev, o)))
    {
      HasAfter(s.trees, k, p, Key(k.dev, o));
      if o != k.off { assert Has(s.trees, Key(k.dev, o)); }
    }
  }

  // ---- the gathering loop --------------------------------------------------------------------

  /** Where the loop stands: hand empty, everything gathered below offset `off`. */
  ghost predicate Gathering(s: State, mem: Memory, e: nat, b: seq<PageId>, d: nat, lo: nat, off: nat) {
    && Inv(s, mem) && e < EVICTOR_THREADS && s.hands[e].Empty?
    && lo < off && b != [] && Gathered(s, b, d, lo, off)
  }

  function Plus(b: seq<PageId>, tp: Option<PageId>): seq<PageId> {
    if tp.Some? then b + [tp.value] else b
  }

  /** The neighbour is taken out of its tree, and before it is claimed the others run. */
  method ProbeAndWait(s0: State, e: nat, k: Key, b: seq<PageId>, others: Others, n: nat, ghost mem0: Memory,
                      ghost lo: nat)
      returns (s: State, ghost mem: Memory)
    requires Gathering(s0, mem0, e, b, k.dev, lo, k.off) && DirtyQueue(k.off) == e && Polite(others, e)
             && Has(s0.trees, k)
    ensures Weaves(s0, mem0, [EvProbe(e, k)], others, s, mem) && Inv(s, mem) && Gathered(s, b, k.dev, lo, k.off)
    ensures s.hands[e].Probed? && s.hands[e].page < |s.pages| && KeyOf(s.pages[s.hands[e].page]) == k
    ensures Alone(others) && Exhausted(s0, k.dev, lo, k.off) ==> Exhausted(s, k.dev, lo, k.off) && !Has(s.trees, k)
    ensures Enabled(s0, EvProbe(e, k)) && (Alone(others) ==> s == DoEvProbe(s0, e, k) && mem == mem0)
  {
    var s1 := Probe(s0, e, k, b, mem0, lo);
    s, mem := Wait(s1, others, n, e, b, mem0, k.dev, lo, k.off);
    WeavesOwn(s0, mem0, EvProbe(e, k), others);
    WeavesOn(s0, mem0, [EvProbe(e, k)], s1, mem0, [], s, mem, others);
    assert [EvProbe(e, k)] + [] == [EvProbe(e, k)];
    ProbedKnown(s, e);
  }

  lemma ProbedKnown(s: State, e: nat)
    requires Structure(s) && e < EVICTOR_THREADS && s.hands[e].Probed?
    ensures s.hands[e].page < |s.pages|
  {
    assert Holds(Hands, s);
    assert HandOk(s.pages, e, s.hands[e]);
  }

  /** What a page claimed alone makes of the state. */
  ghost predicate Claimed(s0: State, s: State, e: nat, k: Key, p: PageId) {
    && Has(s0.trees, k) && p == Get(s0.trees, k) && p < |s0.pages| && e < |s0.dirty|
    && s == s0.(pages := s0.pages[p := Grabbed(s0.pages[p])], trees := Erase(s0.trees, k),
                dirty := s0.dirty[e := Remove(s0.dirty[e], p)])
  }

  /** The evictor's steps at one offset: none if the trees have no entry for it. */
  function ProbeSteps(e: nat, k: Key, tried: bool, claimed: bool): seq<Step> {
    if tried then TrySteps(e, Try(k, claimed)) else []
  }

  /** Looking for the neighbour at one offset. */
  method Neighbour(s0: State, e: nat, k: Key, b: seq<PageId>, others: Others, n: nat, ghost mem0: Memory, ghost lo: nat)
      returns (s: State, tp: Option<PageId>, ghost mem: Memory)
    requires Gathering(s0, mem0, e, b, k.dev, lo, k.off) && DirtyQueue(k.off) == e && Polite(others, e)
    ensures Gathering(s, mem, e, Plus(b, tp), k.dev, lo, k.off + 1) && (tp.Some? ==> Has(s0.trees, k))
    ensures Weaves(s0, mem0, ProbeSteps(e, k, Has(s0.trees, k), tp.Some?), others, s, mem)
    ensures Alone(others) && Exhausted(s0, k.dev, lo, k.off) ==> Exhausted(s, k.dev, lo, k.off + 1)
    ensures Alone(others) ==> mem == mem0 && if tp.Some? then Claimed(s0, s, e, k, tp.value) else s == s0
  {
    s, tp, mem := s0, None, mem0;
    if Has(s.trees, k) {
      var s1;
      ghost var mem1;
      s1, mem1 := ProbeAndWait(s0, e, k, b, others, n, mem0, lo);
      var candidate, claimed := s1.hands[e].page, false;
      s, claimed := ClaimOrPutBack(s1, e, k, b, mem1, lo);
      tp, mem := if claimed then Some(candidate) else None, mem1;
      TryEnds(s0, mem0, s1, mem1, e, k, claimed, others);
    } else {
      WeavesNothing(s0, mem0, others);
      Missed(s, mem, e, k, b, lo);
    }
  }

  lemma TryEnds(s0: State, mem0: Memory, s1: State, mem1: Memory, e: nat, k: Key, claimed: bool, others: Others)
    requires Structure(s0) && Enabled(s0, EvProbe(e, k)) && e < EVICTOR_THREADS && e < |s1.hands| && s1.hands[e].Probed?
    requires Weaves(s0, mem0, [EvProbe(e, k)], others, s1, mem1) && Enabled(s1, ClaimStep(e, claimed))
    requires claimed == Lockable(s1, s1.hands[e].page) && (Alone(others) ==> s1 == DoEvProbe(s0, e, k))
    ensures var s := Apply(s1, ClaimStep(e, claimed));
            && Weaves(s0, mem0, ProbeSteps(e, k, true, claimed), others, s, mem1)
            && (Alone(others) ==> if claimed then Claimed(s0, s, e, k, s1.hands[e].page) else s == s0)
  {
    var t := ClaimStep(e, claimed);
    WeavesOwn(s1, mem1, t, others);
    WeavesOn(s0, mem0, [EvProbe(e, k)], s1, mem1, [t], Apply(s1, t), mem1, others);
    assert [EvProbe(e, k)] + [t] == ProbeSteps(e, k, true, claimed);
    if Alone(others) { TryEndsAlone(s0, e, k, claimed); }
  }

  lemma TryEndsAlone(s0: State, e: nat, k: Key, claimed: bool)
    requires Structure(s0) && Enabled(s0, EvProbe(e, k)) && e < EVICTOR_THREADS
    requires var s1 := DoEvProbe(s0, e, k);
             Enabled(s1, ClaimStep(e, claimed)) && claimed == Lockable(s1, s1.hands[e].page)
    ensures var s1 := DoEvProbe(s0, e, k);
            var s := Apply(s1, ClaimStep(e, claimed));
            if claimed then Claimed(s0, s, e, k, s1.hands[e].page) else s == s0
  {
    if claimed { ClaimsNeighbour(s0, e, k); } else { PutBackRestores(s0, e, k); }
  }

  lemma Missed(s: State, mem: Memory, e: nat, k: Key, b: seq<PageId>, lo: nat)
    requires Gathering(s, mem, e, b, k.dev, lo, k.off) && !Has(s.trees, k)
    ensures Gathering(s, mem, e, b, k.dev, lo, k.off + 1)
    ensures Exhausted(s, k.dev, lo, k.off) ==> Exhausted(s, k.dev, lo, k.off + 1)
  {
    forall i | 0 <= i < |b| ensures Member(s, b[i], k.dev, lo, k.off + 1) { assert Member(s, b[i], k.dev, lo, k.off); }
    if Exhausted(s, k.dev, lo, k.off) {
      forall o: nat | lo < o < k.off + 1 && Has(s.trees, Key(k.dev, o))
        ensures !Lockable(s, Get(s.trees, Key(k.dev, o)))
      {
        assert o != k.off ==> Has(s.trees, Key(k.dev, o));
      }
    }
  }

  /** One neighbour: erased from its tree, and then claimed or put back. */
  datatype Try = Try(key: Key, claimed: bool)

  function TrySteps(e: nat, t: Try): seq<Step> { [EvProbe(e, t.key), ClaimStep(e, t.claimed)] }

  /** The evictor's steps: first page p, then one neighbour after the other. */
  function GatherSteps(e: nat, p: PageId, tries: seq<Try>): seq<Step> {
    if tries == [] then [EvDequeue(e), EvUntree(p)]
    else GatherSteps(e, p, tries[..|tries| - 1]) + TrySteps(e, tries[|tries| - 1])
  }

  function Successes(tries: seq<Try>): nat {
    if tries == [] then 0
    else Successes(tries[..|tries| - 1]) + if tries[|tries| - 1].claimed then 1 else 0
  }

  /** Neighbours of pvd d at increasing offsets between lo and hi; n of them were claimed. */
  predicate Tried(tries: seq<Try>, d: nat, lo: nat, hi: nat, n: int) {
    && (forall i :: 0 <= i < |tries| ==> tries[i].key.dev == d && lo < tries[i].key.off < hi)
    && (forall i, j :: 0 <= i < j < |tries| ==> tries[i].key.off < tries[j].key.off)
    && Successes(tries) == n
  }

  lemma OneTry(e: nat, p: PageId, tries: seq<Try>, t: Try)
    ensures GatherSteps(e, p, tries + [t]) == GatherSteps(e, p, tries) + TrySteps(e, t)
    ensures Successes(tries + [t]) == Successes(tries) + if t.claimed then 1 else 0
  {
    assert (tries + [t])[..|tries|] == tries;
  }

  /** What the loop keeps, by name: a proof that needs one of the clauses asserts it. */
  datatype ScanClause = Place | Woven | Sought | Unmissed | Unchanged

  ghost predicate ScanHolds(a: ScanClause, from: State, memory: Memory, tries: seq<Try>, s: State, mem: Memory,
                            e: nat, b: seq<PageId>, d: nat, lo: nat, off: nat, others: Others)
    requires b != []
  {
    match a
    case Place => Gathering(s, mem, e, b, d, lo, off)
    case Woven => Weaves(from, memory, GatherSteps(e, b[0], tries), others, s, mem)
    case Sought => Tried(tries, d, lo, off, |b| - 1)
    case Unmissed => Alone(others) ==> Exhausted(s, d, lo, off)
    case Unchanged => Alone(others) ==> mem == memory && e < |from.dirty| && GatheredFrom(from, s, e, b)
  }

  /** ... all of it since `from` by the evictor's first steps and its tries, and, with no other thread
      about, nothing lockable passed over and nothing else changed. */
  ghost predicate Scanning(from: State, memory: Memory, tries: seq<Try>, s: State, mem: Memory, e: nat,
                           b: seq<PageId>, d: nat, lo: nat, off: nat, others: Others) {
    b != [] && forall a: ScanClause :: ScanHolds(a, from, memory, tries, s, mem, e, b, d, lo, off, others)
  }

  /** One turn of the loop: the others run, then the neighbour at the next offset is tried, unless
      it belongs to another evictor. */
  method Turn(s0: State, e: nat, k: Key, b: seq<PageId>, others: Others, n: nat, ghost mem0: Memory, ghost lo: nat,
              ghost from: State, ghost memory: Memory, ghost tries0: seq<Try>)
      returns (s: State, mine: bool, tp: Option<PageId>, ghost mem: Memory, ghost tries: seq<Try>)
    requires Scanning(from, memory, tries0, s0, mem0, e, b, k.dev, lo, k.off, others) && Polite(others, e)
    requires Structure(from)
    ensures mine <==> DirtyQueue(k.off) == e
    ensures Scanning(from, memory, tries, s, mem, e, Plus(b, tp), k.dev, lo, if mine then k.off + 1 else k.off, others)
  {
    var s1;
    ghost var mem1;
    assert ScanHolds(Place, from, memory, tries0, s0, mem0, e, b, k.dev, lo, k.off, others);
    s1, mem1 := Wait(s0, others, n, e, b, mem0, k.dev, lo, k.off);
    Waited(from, memory, tries0, s0, mem0, s1, mem1, e, b, k.dev, lo, k.off, others);
    mine, tp, s, mem, tries := DirtyQueue(k.off) == e, None, s1, mem1, tries0;
    if mine {
      s, tp, mem := Neighbour(s1, e, k, b, others, n + 1, mem1, lo);
      tries := if Has(s1.trees, k) then tries0 + [Try(k, tp.Some?)] else tries0;
      Scans(from, memory, tries0, tries, s1, mem1, s, mem, e, b, k, tp, lo, others);
    }
  }

  lemma Waited(from: State, memory: Memory, tries: seq<Try>, s0: State, mem0: Memory, s: State, mem: Memory,
               e: nat, b: seq<PageId>, d: nat, lo: nat, off: nat, others: Others)
    requires Scanning(from, memory, tries, s0, mem0, e, b, d, lo, off, others)
    requires Weaves(s0, mem0, [], others, s, mem) && Gathering(s, mem, e, b, d, lo, off)
    requires Alone(others) ==> s == s0 && mem == mem0
    ensures Scanning(from, memory, tries, s, mem, e, b, d, lo, off, others)
  {
    assert ScanHolds(Woven, from, memory, tries, s0, mem0, e, b, d, lo, off, others);
    WeavesOn(from, memory, GatherSteps(e, b[0], tries), s0, mem0, [], s, mem, others);
    assert GatherSteps(e, b[0], tries) + [] == GatherSteps(e, b[0], tries);
    forall a: ScanClause ensures ScanHolds(a, from, memory, tries, s, mem, e, b, d, lo, off, others) {
      assert ScanHolds(a, from, memory, tries, s0, mem0, e, b, d, lo, off, others);
    }
  }

  /** The tries after the search at one more offset. */
  predicate TriedOn(tries: seq<Try>, tries': seq<Try>, s: State, k: Key, claimed: bool) {
    && (claimed ==> Has(s.trees, k))
    && tries' == if Has(s.trees, k) then tries + [Try(k, claimed)] else tries
  }

  lemma Scans(from: State, memory: Memory, tries: seq<Try>, tries': seq<Try>, s0: State, mem0: Memory, s: State,
              mem: Memory, e: nat, b: seq<PageId>, k: Key, tp: Option<PageId>, lo: nat, others: Others)
    requires Scanning(from, memory, tries, s0, mem0, e, b, k.dev, lo, k.off, others) && Structure(from)
    requires Structure(s0) && e < EVICTOR_THREADS && TriedOn(tries, tries', s0, k, tp.Some?)
    requires Gathering(s, mem, e, Plus(b, tp), k.dev, lo, k.off + 1)
    requires Weaves(s0, mem0, ProbeSteps(e, k, Has(s0.trees, k), tp.Some?), others, s, mem)
    requires Alone(others) && Exhausted(s0, k.dev, lo, k.off) ==> Exhausted(s, k.dev, lo, k.off + 1)
    requires Alone(others) ==> mem == mem0 && if tp.Some? then Claimed(s0, s, e, k, tp.value) else s == s0
    ensures Scanning(from, memory, tries', s, mem, e, Plus(b, tp), k.dev, lo, k.off + 1, others)
  {
    var b', d, hi := Plus(b, tp), k.dev, k.off + 1;
    assert lo < k.off by { assert ScanHolds(Place, from, memory, tries, s0, mem0, e, b, k.dev, lo, k.off, others); }
    forall a: ScanClause ensures ScanHolds(a, from, memory, tries', s, mem, e, b', d, lo, hi, others) {
      match a
      case Place =>
      case Woven => ScansWoven(from, memory, tries, tries', s0, mem0, s, mem, e, b, k, tp, lo, others);
      case Sought => ScansSought(from, memory, tries, tries', s0, mem0, e, b, k, tp, lo, others);
      case Unmissed => assert ScanHolds(a, from, memory, tries, s0, mem0, e, b, k.dev, lo, k.off, others);
      case Unchanged => if Alone(others) { ScansUnchanged(from, memory, tries, s0, mem0, s, e, b, k, tp, lo, others); }
    }
  }

  lemma ScansWoven(from: State, memory: Memory, tries: seq<Try>, tries': seq<Try>, s0: State, mem0: Memory, s: State,
                   mem: Memory, e: nat, b: seq<PageId>, k: Key, tp: Option<PageId>, lo: nat, others: Others)
    requires Scanning(from, memory, tries, s0, mem0, e, b, k.dev, lo, k.off, others)
    requires TriedOn(tries, tries', s0, k, tp.Some?)
    requires Weaves(s0, mem0, ProbeSteps(e, k, Has(s0.trees, k), tp.Some?), others, s, mem)
    ensures Weaves(from, memory, GatherSteps(e, b[0], tries'), others, s, mem)
  {
    var own, more := GatherSteps(e, b[0], tries), ProbeSteps(e, k, Has(s0.trees, k), tp.Some?);
    assert ScanHolds(Woven, from, memory, tries, s0, mem0, e, b, k.dev, lo, k.off, others);
    WeavesOn(from, memory, own, s0, mem0, more, s, mem, others);
    assert own + [] == own;
    OneTry(e, b[0], tries, Try(k, tp.Some?));
  }

  lemma ScansSought(from: State, memory: Memory, tries: seq<Try>, tries': seq<Try>, s0: State, mem0: Memory, e: nat,
                    b: seq<PageId>, k: Key, tp: Option<PageId>, lo: nat, others: Others)
    requires Scanning(from, memory, tries, s0, mem0, e, b, k.dev, lo, k.off, others) && lo < k.off
    requires TriedOn(tries, tries', s0, k, tp.Some?)
    ensures Tried(tries', k.dev, lo, k.off + 1, |Plus(b, tp)| - 1)
  {
    assert ScanHolds(Sought, from, memory, tries, s0, mem0, e, b, k.dev, lo, k.off, others);
    OneTry(e, b[0], tries, Try(k, tp.Some?));
  }

  lemma ScansUnchanged(from: State, memory: Memory, tries: seq<Try>, s0: State, mem0: Memory, s: State, e: nat,
                       b: seq<PageId>, k: Key, tp: Option<PageId>, lo: nat, others: Others)
    requires Scanning(from, memory, tries, s0, mem0, e, b, k.dev, lo, k.off, others) && Structure(from)
    requires Structure(s0)
    requires Alone(others) && e < EVICTOR_THREADS && if tp.Some? then Claimed(s0, s, e, k, tp.value) else s == s0
    ensures mem0 == memory && e < |from.dirty| && GatheredFrom(from, s, e, Plus(b, tp))
  {
    assert ScanHolds(Unchanged, from, memory, tries, s0, mem0, e, b, k.dev, lo, k.off, others);
    if tp.Some? { ClaimedFrom(from, s0, s, e, b, k, tp.value); }
  }

  lemma ClaimedFrom(from: State, s0: State, s: State, e: nat, b: seq<PageId>, k: Key, p: PageId)
    requires Structure(from) && Structure(s0) && e < EVICTOR_THREADS && GatheredFrom(from, s0, e, b)
    requires Claimed(s0, s, e, k, p)
    ensures GatheredFrom(from, s, e, b + [p])
  {
    GrabsNext(from, s0, s, e, b, k);
  }

  /** The evictor's queue has a head that can be locked. */
  predicate Ready(s: State, e: nat) {
    e < |s.dirty| && s.dirty[e].items != [] && Lockable(s, s.dirty[e].items[0])
  }

  /** A page just dequeued leaves its tree after whatever the others do first. */
  lemma FirstUntreed(s: State, mem: Memory, e: nat, p: PageId, others: Others)
    requires Inv(s, mem) && e < EVICTOR_THREADS && s.hands[e] == Took(p) && p < |s.pages|
    requires s.pages[p].phase.EvTaken? && Polite(others, e)
    ensures var run := others(0, s, [p]);
            && Legal(s, run) && Enabled(After(s, run), EvUntree(p))
            && var s' := DoEvUntree(After(s, run), p);
            && Weaves(s, mem, [EvUntree(p)], others, s', LastStored(mem, run))
            && Inv(s', LastStored(mem, run)) && s'.hands[e].Empty?
            && Member(s', p, s.pages[p].pvd, s.pages[p].index, s.pages[p].index + 1)
            && DirtyQueue(s.pages[p].index) == e
  {
    var run := others(0, s, [p]);
    assert Legal(s, run) && SoundRun(s, run) && ForeignRun(run, e, [p]);
    RunLeaves(s, mem, run, e, [p]);
    var s1 := After(s, run);
    assert SameButData(s.pages[[p][0]], s1.pages[p]);
    LeavesOwnTree(s1, LastStored(mem, run), e, p);
    ThenOwn(s, mem, 0, [p], EvUntree(p), others);
  }

  /** The others have a turn, and then the evictor takes a step. */
  lemma ThenOwn(s: State, mem: Memory, n: nat, held: seq<PageId>, t: Step, others: Others)
    requires var run := others(n, s, held); Legal(s, run) && SoundRun(s, run) && Enabled(After(s, run), t)
    requires !t.DropBlock? && !t.Store?
    ensures var run := others(n, s, held);
            Weaves(s, mem, [t], others, Apply(After(s, run), t), LastStored(mem, run))
  {
    var run := others(n, s, held);
    var s1, mem1 := After(s, run), LastStored(mem, run);
    SoundLosesNothing(s, mem, run, {});
    WeavesTheirs(s, mem, n, held, others);
    WeavesOwn(s1, mem1, t, others);
    WeavesOn(s, mem, [], s1, mem1, [t], Apply(s1, t), mem1, others);
    assert [] + [t] == [t];
  }

  lemma LeavesOwnTree(s: State, mem: Memory, e: nat, p: PageId)
    requires Inv(s, mem) && e < EVICTOR_THREADS && s.hands[e] == Took(p) && InPhase(s, p, EvTaken)
    ensures Enabled(s, EvUntree(p)) && DirtyQueue(s.pages[p].index) == e
    ensures var s' := DoEvUntree(s, p);
            && Inv(s', mem) && s'.hands[e].Empty?
            && Member(s', p, s.pages[p].pvd, s.pages[p].index, s.pages[p].index + 1)
  {
    assert Holds(Hands, s);
    KeepEvUntree(s, mem, p);
  }

  lemma Dequeues(s: State, mem: Memory, e: nat)
    requires Inv(s, mem) && e < EVICTOR_THREADS && s.hands[e].Empty? && s.dirty[e].items != []
    ensures Enabled(s, EvDequeue(e)) && Inv(DoEvDequeue(s, e), mem)
    ensures var s', p := DoEvDequeue(s, e), s.dirty[e].items[0];
            if Ready(s, e) then s'.hands[e] == Took(p) && p < |s'.pages| && s'.pages[p].phase.EvTaken?
            else s'.hands[e].Empty? && s' == s.(dirty := s.dirty[e := Refused(s.dirty[e])])
  {
    DirtyHead(s, e);
    KeepEvDequeue(s, mem, e);
    assert s.dirty[e].size == |s.dirty[e].items| by { assert Holds(Sizes, s); }
  }

  /** A queue whose head has gone to the tail. */
  function Refused(q: Queue<PageId>): Queue<PageId> {
    if q.items == [] then q else q.(items := q.items[1..] + [q.items[0]])
  }

  /** The evictor's steps up to the first page: none if its queue is empty. */
  function FirstSteps(s: State, e: nat): seq<Step>
    requires e < |s.dirty|
  {
    if s.dirty[e].items == [] then []
    else if Ready(s, e) then GatherSteps(e, s.dirty[e].items[0], [])
    else [EvDequeue(e)]
  }

  /** dequeue_if on the evictor's own queue, then the first page leaves its tree. */
  method First(s0: State, e: nat, others: Others, ghost mem0: Memory)
      returns (s: State, first: Option<PageId>, ghost mem: Memory)
    requires Inv(s0, mem0) && e < EVICTOR_THREADS && s0.hands[e].Empty? && Polite(others, e)
    ensures first == if Ready(s0, e) then Some(s0.dirty[e].items[0]) else None
    ensures first.Some? ==> Opened(s0, mem0, e, first.value, others, s, mem)
    ensures first.None? ==> NotReady(s0, mem0, e, others, s, mem)
  {
    s, first, mem := s0, None, mem0;
    WeavesNothing(s0, mem0, others);
    assert s.dirty[e].size == |s.dirty[e].items| by { assert Holds(Sizes, s); }
    if s.dirty[e].size != 0 {
      var head := s.dirty[e].items[0];
      Dequeues(s, mem, e);
      s := DoEvDequeue(s0, e);
      if Lockable(s0, head) {
        Opens(s0, mem0, e, others);
        var run := others(0, s, [head]);
        s, mem, first := DoEvUntree(After(s, run), head), LastStored(mem0, run), Some(head);
      } else {
        WeavesOwn(s0, mem0, EvDequeue(e), others);
      }
    }
  }

  /** The head could not be locked, or there was none. */
  ghost predicate NotReady(s0: State, mem0: Memory, e: nat, others: Others, s: State, mem: Memory)
    requires e < |s0.dirty|
  {
    && Weaves(s0, mem0, FirstSteps(s0, e), others, s, mem) && Inv(s, mem) && e < |s.hands| && s.hands[e].Empty?
    && mem == mem0 && s == s0.(dirty := s0.dirty[e := Refused(s0.dirty[e])])
  }

  /** The first page of the batch is in hand, and the evictor has taken its first steps. */
  ghost predicate Opened(s0: State, mem0: Memory, e: nat, p: PageId, others: Others, s: State, mem: Memory)
    requires e < |s0.dirty|
  {
    && Weaves(s0, mem0, GatherSteps(e, p, []), others, s, mem) && Inv(s, mem) && e < |s.hands| && s.hands[e].Empty?
    && p < |s.pages| && DirtyQueue(s.pages[p].index) == e
    && Member(s, p, s.pages[p].pvd, s.pages[p].index, s.pages[p].index + 1)
    && (Alone(others) ==> mem == mem0 && GatheredFrom(s0, s, e, [p]))
  }

  lemma Opens(s0: State, mem0: Memory, e: nat, others: Others)
    requires Inv(s0, mem0) && e < EVICTOR_THREADS && s0.hands[e].Empty? && Polite(others, e) && Ready(s0, e)
    ensures Enabled(s0, EvDequeue(e))
    ensures var s1, p := DoEvDequeue(s0, e), s0.dirty[e].items[0];
            var run := others(0, s1, [p]);
            && Legal(s1, run) && Enabled(After(s1, run), EvUntree(p))
            && Opened(s0, mem0, e, p, others, DoEvUntree(After(s1, run), p), LastStored(mem0, run))
  {
    Dequeues(s0, mem0, e);
    var s1, p := DoEvDequeue(s0, e), s0.dirty[e].items[0];
    var run := others(0, s1, [p]);
    FirstUntreed(s1, mem0, e, p, others);
    WeavesOwn(s0, mem0, EvDequeue(e), others);
    BothSteps(s0, mem0, s1, e, p, DoEvUntree(After(s1, run), p), LastStored(mem0, run), others);
    if Alone(others) { FirstAlone(s0, e, p, run); }
  }

  lemma BothSteps(s0: State, mem0: Memory, s1: State, e: nat, p: PageId, s: State, mem: Memory, others: Others)
    requires Weaves(s0, mem0, [EvDequeue(e)], others, s1, mem0) && Weaves(s1, mem0, [EvUntree(p)], others, s, mem)
    ensures Weaves(s0, mem0, GatherSteps(e, p, []), others, s, mem)
  {
    WeavesOn(s0, mem0, [EvDequeue(e)], s1, mem0, [EvUntree(p)], s, mem, others);
    assert [EvDequeue(e)] + [EvUntree(p)] == GatherSteps(e, p, []);
  }

  lemma FirstAlone(s: State, e: nat, p: PageId, run: seq<Step>)
    requires Structure(s) && e < EVICTOR_THREADS && s.hands[e].Empty? && s.dirty[e].items != []
    requires p == s.dirty[e].items[0] && Lockable(s, p) && run == []
    ensures Enabled(s, EvDequeue(e))
    ensures var s1 := DoEvDequeue(s, e);
            && Legal(s1, run) && Enabled(After(s1, run), EvUntree(p))
            && GatheredFrom(s, DoEvUntree(After(s1, run), p), e, [p])
  {
    TakesFirst(s, e, p);
    GrabsFirst(s, DoEvUntree(DoEvDequeue(s, e), p), e, p);
  }

  /** What an evictor does to gather a batch: its first steps, and then a try at one offset of the first
      page's block after the other; all pages of the batch but the first were claimed in these. */
  ghost predicate Gathers(s0: State, own: seq<Step>, e: nat, s: State, batch: seq<PageId>)
    requires e < |s0.dirty|
  {
    if batch == [] then own == FirstSteps(s0, e)
    else exists tries ::
      && own == GatherSteps(e, batch[0], tries) && batch[0] < |s.pages|
      && var r := s.pages[batch[0]]; Tried(tries, r.pvd, r.index, BlockEnd(r.index), |batch| - 1)
  }

  /** The whole gathering of a batch, through any interference: the array of 512 pages is never
      overrun, the iteration cap is never what ends the loop, and the hand is empty again, so every
      page that was passed over is back in its tree. The evictor's own steps are `own`; alone it takes
      nothing but the pages of the batch off its queue and trees. */
  method Gather(s0: State, e: nat, others: Others, ghost mem0: Memory)
      returns (s: State, batch: seq<PageId>, capped: bool, ghost mem: Memory, ghost own: seq<Step>)
    requires Inv(s0, mem0) && e < EVICTOR_THREADS && s0.hands[e].Empty? && Polite(others, e)
    ensures Leads(s0, mem0, s, mem) && Inv(s, mem) && s.hands[e].Empty?
    ensures Weaves(s0, mem0, own, others, s, mem) && Gathers(s0, own, e, s, batch)
    ensures Batch(s, e, batch) && |batch| <= 512 && !capped
    ensures batch == [] <==> !Ready(s0, e)
    ensures batch != [] ==> batch[0] == s0.dirty[e].items[0]
    ensures batch == [] ==> mem == mem0 && s == s0.(dirty := s0.dirty[e := Refused(s0.dirty[e])])
    ensures Alone(others) && batch != [] ==> mem == mem0 && GatheredFrom(s0, s, e, batch)
    ensures Alone(others) && batch != [] ==>
              var r := s.pages[batch[0]]; Exhausted(s, r.pvd, r.index, BlockEnd(r.index))
  {
    var first;
    s, first, mem := First(s0, e, others, mem0);
    if first.None? {
      batch, capped, own := [], false, FirstSteps(s0, e);
      WeavesLeads(s0, mem0, own, others, s, mem);
    } else {
      var d, lo := s.pages[first.value].pvd, s.pages[first.value].index;
      ghost var tries;
      ScanStart(s0, mem0, s, mem, e, first.value, d, lo, others);
      s, batch, capped, mem, tries := Neighbours(s, e, first.value, d, lo, others, mem, s0, mem0);
      own := GatherSteps(e, batch[0], tries);
      ScannedBatch(s0, mem0, tries, s, mem, e, batch, d, lo, others);
      ScannedSteps(s0, mem0, tries, s, mem, e, batch, d, lo, others);
      if Alone(others) { ScannedAlone(s0, mem0, tries, s, mem, e, batch, d, lo, others); }
    }
  }

  lemma ScanStart(from: State, memory: Memory, s: State, mem: Memory, e: nat, p: PageId, d: nat, lo: nat,
                  others: Others)
    requires e < EVICTOR_THREADS && e < |from.dirty| && Opened(from, memory, e, p, others, s, mem)
    requires d == s.pages[p].pvd && lo == s.pages[p].index
    ensures Scanning(from, memory, [], s, mem, e, [p], d, lo, lo + 1, others)
  {
    var b, tries: seq<Try>, hi := [p], [], lo + 1;
    forall a: ScanClause ensures ScanHolds(a, from, memory, tries, s, mem, e, b, d, lo, hi, others) {
    }
  }

  // The whole block has been looked through.

  lemma ScannedBatch(s0: State, mem0: Memory, tries: seq<Try>, s: State, mem: Memory, e: nat, batch: seq<PageId>,
                     d: nat, lo: nat, others: Others)
    requires Scanning(s0, mem0, tries, s, mem, e, batch, d, lo, BlockEnd(lo), others) && DirtyQueue(lo) == e
    ensures Inv(s, mem) && e < EVICTOR_THREADS && s.hands[e].Empty? && Batch(s, e, batch)
    ensures batch[0] < |s.pages| && s.pages[batch[0]].index == lo && s.pages[batch[0]].pvd == d
  {
    assert ScanHolds(Place, s0, mem0, tries, s, mem, e, batch, d, lo, BlockEnd(lo), others);
    assert Member(s, batch[0], d, lo, BlockEnd(lo));
  }

  lemma ScannedSteps(s0: State, mem0: Memory, tries: seq<Try>, s: State, mem: Memory, e: nat, batch: seq<PageId>,
                     d: nat, lo: nat, others: Others)
    requires Scanning(s0, mem0, tries, s, mem, e, batch, d, lo, BlockEnd(lo), others) && Polite(others, e)
    requires e < |s0.dirty|
    requires batch[0] < |s.pages| && s.pages[batch[0]].index == lo && s.pages[batch[0]].pvd == d
    ensures var own := GatherSteps(e, batch[0], tries);
            Gathers(s0, own, e, s, batch) && Weaves(s0, mem0, own, others, s, mem) && Leads(s0, mem0, s, mem)
  {
    assert ScanHolds(Sought, s0, mem0, tries, s, mem, e, batch, d, lo, BlockEnd(lo), others);
    assert ScanHolds(Woven, s0, mem0, tries, s, mem, e, batch, d, lo, BlockEnd(lo), others);
    TriesPlain(e, batch[0], tries);
    WeavesLeads(s0, mem0, GatherSteps(e, batch[0], tries), others, s, mem);
  }

  lemma ScannedAlone(s0: State, mem0: Memory, tries: seq<Try>, s: State, mem: Memory, e: nat, batch: seq<PageId>,
                     d: nat, lo: nat, others: Others)
    requires Scanning(s0, mem0, tries, s, mem, e, batch, d, lo, BlockEnd(lo), others) && Alone(others)
    ensures mem == mem0 && e < |s0.dirty| && GatheredFrom(s0, s, e, batch) && Exhausted(s, d, lo, BlockEnd(lo))
  {
    assert ScanHolds(Unmissed, s0, mem0, tries, s, mem, e, batch, d, lo, BlockEnd(lo), others);
    assert ScanHolds(Unchanged, s0, mem0, tries, s, mem, e, batch, d, lo, BlockEnd(lo), others);
  }

  lemma {:induction false} TriesPlain(e: nat, p: PageId, tries: seq<Try>)
    ensures Plain(GatherSteps(e, p, tries))
    decreases |tries|
  {
    if tries != [] { TriesPlain(e, p, tries[..|tries| - 1]); }
  }

  /** pgs[num_pgs++] = tp, if there is one. */
  method Keep(pgs: array<PageId>, n: nat, tp: Option<PageId>) returns (n': nat)
    requires n < pgs.Length
    modifies pgs
    ensures n' == if tp.Some? then n + 1 else n
    ensures pgs[..n'] == Plus(old(pgs[..n]), tp)
  {
    n' := n;
    if tp.Some? {
      pgs[n] := tp.value;
      n' := n + 1;
    }
  }

  /** One turn of the loop, and its page, if it yields one, is stored in the array. */
  method TryNext(s0: State, e: nat, k: Key, b: seq<PageId>, pgs: array<PageId>, n: nat, others: Others,
                 ghost mem0: Memory, ghost lo: nat, ghost from: State, ghost memory: Memory, ghost tries0: seq<Try>)
      returns (s: State, mine: bool, b': seq<PageId>, n': nat, ghost mem: Memory, ghost tries: seq<Try>)
    requires Scanning(from, memory, tries0, s0, mem0, e, b, k.dev, lo, k.off, others) && Polite(others, e)
    requires Structure(from) && n < pgs.Length && pgs[..n] == b
    modifies pgs
    ensures mine <==> DirtyQueue(k.off) == e
    ensures n <= n' <= n + 1 && n' <= pgs.Length && pgs[..n'] == b' && |b'| >= n && b'[..n] == b
    ensures Scanning(from, memory, tries, s, mem, e, b', k.dev, lo, if mine then k.off + 1 else k.off, others)
  {
    var tp;
    s, mine, tp, mem, tries := Turn(s0, e, k, b, others, 2 * k.off, mem0, lo, from, memory, tries0);
    n' := Keep(pgs, n, tp);
    b' := Plus(b, tp);
  }

  /** The loop over the offsets that follow the first page's. */
  method Neighbours(s0: State, e: nat, first: PageId, d: nat, lo: nat, others: Others, ghost mem0: Memory,
                    ghost from: State, ghost memory: Memory)
      returns (s: State, batch: seq<PageId>, capped: bool, ghost mem: Memory, ghost tries: seq<Try>)
    requires Scanning(from, memory, [], s0, mem0, e, [first], d, lo, lo + 1, others)
    requires Polite(others, e) && DirtyQueue(lo) == e && Structure(from)
    ensures Scanning(from, memory, tries, s, mem, e, batch, d, lo, BlockEnd(lo), others)
    ensures 1 <= |batch| <= MAX_BATCH && batch[0] == first && !capped
  {
    s, mem, capped, tries := s0, mem0, false, [];
    ghost var end := BlockEnd(lo);
    var pgs := new PageId[MAX_BATCH];
    pgs[0] := first;
    batch := [first];
    var numPgs: nat := 1;
    var offset, iter := lo + 1, 0;
    while numPgs < MAX_BATCH
      invariant 1 <= numPgs <= offset - lo && offset <= end
      invariant pgs[..numPgs] == batch && batch[0] == first
      invariant iter == offset - lo - 1 && !capped
      invariant Scanning(from, memory, tries, s, mem, e, batch, d, lo, offset, others)
      decreases end - offset
    {
      var mine;
      s, mine, batch, numPgs, mem, tries :=
        TryNext(s, e, Key(d, offset), batch, pgs, numPgs, others, mem, lo, from, memory, tries);
      BlockShares(lo, offset);
      if !mine { break; }
      offset := offset + 1;
      if iter >= 2048 {
        capped := true;
        break;
      }
      iter := iter + 1;
    }
    assert offset == end;
  }

  // ---- what a gathered batch means -----------------------------------------------------------

  /** Every page of a batch is locked, valid and dirty, in no queue and in no dirty tree. */
  lemma BatchIsOut(s: State, e: nat, b: seq<PageId>, i: nat)
    requires Structure(s) && Batch(s, e, b) && i < |b|
    ensures var r := s.pages[b[i]]; r.locked && r.inUse && r.valid && r.dirty && DirtyQueue(r.index) == e
    ensures (forall q: nat :: !InClean(s, b[i], q)) && (forall f: nat :: !InDirty(s, b[i], f))
    ensures forall k :: Has(s.trees, k) ==> Get(s.trees, k) != b[i]
  {
    var lo := s.pages[b[0]].index;
    assert Member(s, b[i], s.pages[b[0]].pvd, lo, BlockEnd(lo));
    Local(s, b[i]);
    QueuesOf(s, b[i]);
    BlockShares(lo, s.pages[b[i]].index);
    forall k | Has(s.trees, k) ensures Get(s.trees, k) != b[i] { TreeEntry(s, k); }
  }

  /** Two evictors never hold the same page. */
  lemma BatchesDisjoint(s: State, e: nat, b: seq<PageId>, f: nat, c: seq<PageId>, p: PageId)
    requires Structure(s) && Batch(s, e, b) && Batch(s, f, c) && p in b && p in c
    ensures e == f
  {
    var i :| 0 <= i < |b| && b[i] == p;
    var j :| 0 <= j < |c| && c[j] == p;
    BatchIsOut(s, e, b, i);
    BatchIsOut(s, f, c, j);
  }

  /** Once the hand is empty, every unlocked dirty page of this evictor is in its tree: whatever was
      passed over has been put back. */
  lemma SkippedAreBack(s: State, e: nat, p: PageId)
    requires Structure(s) && e < EVICTOR_THREADS && s.hands[e].Empty? && p < |s.pages|
    requires s.pages[p].inUse && !s.pages[p].locked && s.pages[p].dirty && DirtyQueue(s.pages[p].index) == e
    ensures Has(s.trees, KeyOf(s.pages[p])) && Get(s.trees, KeyOf(s.pages[p])) == p
  {
    ExactlyOneQueue(s, p);
  }
}
