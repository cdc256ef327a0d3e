/** Runs that leave only certain blocks out of their writes. */
module Losses {
  import opened Placement
  import opened Lifecycle
  import opened Invariant
  import opened Runs
  import opened Survival

  /** No foreign mkwrite, and only pages of the blocks in `lost` are left out of a write. */
  predicate Losing(s: State, run: seq<Step>, lost: set<Key>)
    requires Legal(s, run)
    decreases |run|
  {
    run == [] || (
      && Tame(s, run[0])
      && (run[0].DropBlock? ==> KeyOf(s.pages[run[0].p]) in lost)
      && Losing(Apply(s, run[0]), run[1..], lost))
  }

  /** Such a run takes s0 to s, and mem is what then survives of mem0 and of its stores. */
  ghost predicate Loses(s0: State, mem0: Memory, s: State, mem: Memory, lost: set<Key>) {
    exists run :: LosesBy(s0, mem0, run, s, mem, lost)
  }

  ghost predicate LosesBy(s0: State, mem0: Memory, run: seq<Step>, s: State, mem: Memory, lost: set<Key>) {
    Legal(s0, run) && Losing(s0, run, lost) && s == After(s0, run) && mem == Surviving(s0, mem0, run)
  }

  /** With nothing to lose these are the sound runs, and every store survives them. */
  lemma {:induction false} SoundLosesNothing(s: State, mem: Memory, run: seq<Step>, lost: set<Key>)
    requires Legal(s, run)
    ensures SoundRun(s, run) <==> Losing(s, run, {})
    ensures SoundRun(s, run) ==> Losing(s, run, lost) && Surviving(s, mem, run) == LastStored(mem, run)
    decreases |run|
  {
    if run != [] { SoundLosesNothing(Apply(s, run[0]), Remember(mem, run[0]), run[1..], lost); }
  }

  lemma LeadsLoses(s0: State, mem0: Memory, s: State, mem: Memory, lost: set<Key>)
    ensures Loses(s0, mem0, s, mem, {}) <==> Leads(s0, mem0, s, mem)
    ensures Leads(s0, mem0, s, mem) ==> Loses(s0, mem0, s, mem, lost)
  {
    if Leads(s0, mem0, s, mem) {
      var run :| Via(s0, mem0, run, s, mem);
      SoundLosesNothing(s0, mem0, run, lost);
      assert LosesBy(s0, mem0, run, s, mem, {}) && LosesBy(s0, mem0, run, s, mem, lost);
    }
    if Loses(s0, mem0, s, mem, {}) {
      var run :| LosesBy(s0, mem0, run, s, mem, {});
      SoundLosesNothing(s0, mem0, run, lost);
      assert Via(s0, mem0, run, s, mem);
    }
  }

  lemma {:induction false} LosingConcat(s: State, mem: Memory, a: seq<Step>, b: seq<Step>, lost: set<Key>)
    requires Legal(s, a) && Legal(After(s, a), b) && Losing(s, a, lost) && Losing(After(s, a), b, lost)
    ensures Legal(s, a + b) && After(s, a + b) == After(After(s, a), b) && Losing(s, a + b, lost)
    ensures Surviving(s, mem, a + b) == Surviving(After(s, a), Surviving(s, mem, a), b)
    decreases |a|
  {
    if a == [] {
      assert a + b == b;
    } else {
      assert (a + b)[0] == a[0] && (a + b)[1..] == a[1..] + b;
      LosingConcat(Apply(s, a[0]), Outlives(s, mem, a[0]), a[1..], b, lost);
    }
  }

  lemma LosesOn(a: State, ma: Memory, b: State, mb: Memory, c: State, mc: Memory, lost: set<Key>)
    requires Loses(a, ma, b, mb, lost) && Loses(b, mb, c, mc, lost)
    ensures Loses(a, ma, c, mc, lost)
  {
    var r :| LosesBy(a, ma, r, b, mb, lost);
    var q :| LosesBy(b, mb, q, c, mc, lost);
    LosingConcat(a, ma, r, q, lost);
    assert LosesBy(a, ma, r + q, c, mc, lost);
  }

  lemma LosesOne(s: State, mem: Memory, t: Step, lost: set<Key>)
    requires Enabled(s, t) && Tame(s, t) && (t.DropBlock? ==> KeyOf(s.pages[t.p]) in lost)
    ensures Loses(s, mem, Apply(s, t), Outlives(s, mem, t), lost)
  {
    var run, s' := [t], Apply(s, t);
    assert run[1..] == [];
    assert Legal(s', []) && Losing(s', [], lost) && After(s', []) == s';
    assert Legal(s, run) && After(s, run) == s';
    assert Surviving(s, mem, run) == Surviving(s', Outlives(s, mem, t), []);
    assert LosesBy(s, mem, run, s', Outlives(s, mem, t), lost);
  }

  lemma {:induction false} LosingTame(s: State, run: seq<Step>, lost: set<Key>)
    requires Legal(s, run) && Losing(s, run, lost)
    ensures TameRun(s, run)
    decreases |run|
  {
    if run != [] { LosingTame(Apply(s, run[0]), run[1..], lost); }
  }

  /** The other blocks are never lost. */
  lemma {:induction false} LosingSpares(s: State, run: seq<Step>, lost: set<Key>, k: Key)
    requires Legal(s, run) && Losing(s, run, lost) && k !in lost
    ensures !LostIn(s, run, k)
    decreases |run|
  {
    if run != [] {
      LosingSpares(Apply(s, run[0]), run[1..], lost, k);
      LostNext(s, run, k);
    }
  }

  /** Where such a run leads the invariant holds, and of a block outside `lost` nothing is forgotten. */
  lemma LosesKeeps(s0: State, mem0: Memory, s: State, mem: Memory, lost: set<Key>)
    requires Inv(s0, mem0) && Loses(s0, mem0, s, mem, lost)
    ensures Inv(s, mem) && forall k :: k in mem0 && k !in lost ==> k in mem
  {
    var run :| LosesBy(s0, mem0, run, s, mem, lost);
    LosingTame(s0, run, lost);
    RunKeepsTame(s0, mem0, run);
    forall k | k in mem0 && k !in lost ensures k in mem {
      LosingSpares(s0, run, lost, k);
      SurvivesExact(s0, mem0, run, k);
    }
  }
}
