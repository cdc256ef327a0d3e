/** All runs, including those in which coalescing leaves pages out of their batch: which stores
    survive, and that they do. Only a mkwrite granted on a clean page of another pvd is excluded. */
module Survival {
  import opened Placement
  import opened Lifecycle
  import opened Invariant
  import opened Moves
  import opened Theorems
  import opened Faults
  import opened Batches

  /** Not a mkwrite granted on a clean page of another pvd. */
  predicate Tame(s: State, t: Step)
    requires Enabled(s, t)
  {
    t.MkLock? && !s.pages[t.p].dirty ==> s.pages[t.p].pvd == t.dev
  }

  predicate TameRun(s: State, run: seq<Step>)
    requires Legal(s, run)
    decreases |run|
  {
    run == [] || (Tame(s, run[0]) && TameRun(Apply(s, run[0]), run[1..]))
  }

  /** The stores that can still be relied on after a step: a page left out of its batch takes the
      stores to its block with it, and a later store brings the block back. */
  function Outlives(s: State, mem: Memory, t: Step): Memory
    requires Enabled(s, t)
  {
    if t.DropBlock? then mem - {KeyOf(s.pages[t.p])} else Remember(mem, t)
  }

  function Surviving(s: State, mem: Memory, run: seq<Step>): Memory
    requires Legal(s, run)
    decreases |run|
  {
    if run == [] then mem else Surviving(Apply(s, run[0]), Outlives(s, mem, run[0]), run[1..])
  }

  // ---- every step ----------------------------------------------------------------------------

  lemma KeepsTame(s: State, mem: Memory, t: Step)
    requires Inv(s, mem) && Enabled(s, t) && Tame(s, t)
    ensures Inv(Apply(s, t), Outlives(s, mem, t))
  {
    if t.DropBlock? {
      Forget(s, mem, {KeyOf(s.pages[t.p])});
      KeepDropBlock(s, mem - {KeyOf(s.pages[t.p])}, t.p);
    } else {
      KeepsInv(s, mem, t);
    }
  }

  lemma ForeignBreaks(s: State, p: PageId, d: nat, o: nat)
    requires Structure(s) && Enabled(s, MkLock(p, d, o)) && !s.pages[p].dirty && s.pages[p].pvd != d
    ensures !Structure(DoMkLock(s, p, d, o))
  {
    var s' := DoMkLock(s, p, d, o);
    if Structure(s') { Local(s', p); }
  }

  /** A step of any thread keeps the invariant if and only if it is not such a mkwrite. */
  lemma KeepsExact(s: State, mem: Memory, t: Step)
    requires Inv(s, mem) && Enabled(s, t)
    ensures Inv(Apply(s, t), Outlives(s, mem, t)) <==> Tame(s, t)
  {
    if Tame(s, t) { KeepsTame(s, mem, t); } else { ForeignBreaks(s, t.p, t.dev, t.off); }
  }

  // ---- every run -----------------------------------------------------------------------------

  lemma {:induction false} RunKeepsTame(s: State, mem: Memory, run: seq<Step>)
    requires Inv(s, mem) && Legal(s, run) && TameRun(s, run)
    ensures Inv(After(s, run), Surviving(s, mem, run))
    decreases |run|
  {
    if run != [] {
      KeepsTame(s, mem, run[0]);
      RunKeepsTame(Apply(s, run[0]), Outlives(s, mem, run[0]), run[1..]);
    }
  }

  predicate StoresTo(t: Step, k: Key) { t.Store? && t.m.key == k }

  predicate Drops(s: State, run: seq<Step>, i: int, k: Key)
    requires Legal(s, run)
    decreases |run|
  {
    && 0 <= i < |run|
    && if i == 0 then run[0].DropBlock? && KeyOf(s.pages[run[0].p]) == k
       else Drops(Apply(s, run[0]), run[1..], i - 1, k)
  }

  /** No store to k follows the i-th step. */
  predicate Unrestored(run: seq<Step>, i: int, k: Key) {
    forall j :: 0 <= j < |run| && i < j ==> !StoresTo(run[j], k)
  }

  /** Somewhere a page holding block k was left out, and k was not stored to after that. */
  ghost predicate LostIn(s: State, run: seq<Step>, k: Key)
    requires Legal(s, run)
  {
    exists i :: Drops(s, run, i, k) && Unrestored(run, i, k)
  }

  ghost predicate StoredIn(run: seq<Step>, k: Key) { exists j :: 0 <= j < |run| && StoresTo(run[j], k) }

  lemma StoredNext(run: seq<Step>, k: Key)
    requires run != []
    ensures StoredIn(run, k) <==> StoresTo(run[0], k) || StoredIn(run[1..], k)
  {
    if StoredIn(run[1..], k) {
      var j :| 0 <= j < |run[1..]| && StoresTo(run[1..][j], k);
      assert StoresTo(run[j + 1], k);
    }
    if StoredIn(run, k) && !StoresTo(run[0], k) {
      var j :| 0 <= j < |run| && StoresTo(run[j], k);
      assert StoresTo(run[1..][j - 1], k);
    }
  }

  lemma {:induction false} LastStoredHas(mem: Memory, run: seq<Step>, k: Key)
    ensures k in LastStored(mem, run) <==> k in mem || StoredIn(run, k)
    decreases |run|
  {
    if run != [] {
      LastStoredHas(Remember(mem, run[0]), run[1..], k);
      StoredNext(run, k);
    }
  }

  /** Looking one step ahead. */
  lemma LostNext(s: State, run: seq<Step>, k: Key)
    requires Legal(s, run) && run != []
    ensures LostIn(s, run, k) <==>
            LostIn(Apply(s, run[0]), run[1..], k) || (Drops(s, run, 0, k) && !StoredIn(run[1..], k))
  {
    var rest, s' := run[1..], Apply(s, run[0]);
    if LostIn(s, run, k) {
      var i :| Drops(s, run, i, k) && Unrestored(run, i, k);
      forall j | 0 <= j < |rest| && i - 1 < j ensures !StoresTo(rest[j], k) { assert rest[j] == run[j + 1]; }
      if i > 0 { assert Drops(s', rest, i - 1, k) && Unrestored(rest, i - 1, k); }
    }
    if LostIn(s', rest, k) {
      var i :| Drops(s', rest, i, k) && Unrestored(rest, i, k);
      forall j | 0 <= j < |run| && i + 1 < j ensures !StoresTo(run[j], k) { assert run[j] == rest[j - 1]; }
      assert Drops(s, run, i + 1, k) && Unrestored(run, i + 1, k);
    }
    if Drops(s, run, 0, k) && !StoredIn(rest, k) {
      forall j | 0 <= j < |run| && 0 < j ensures !StoresTo(run[j], k) { assert run[j] == rest[j - 1]; }
      assert Unrestored(run, 0, k);
    }
  }

  /** A store survives if and only if its block was not left out of a batch after it; and what
      survives is the last store. */
  lemma {:induction false} SurvivesExact(s: State, mem: Memory, run: seq<Step>, k: Key)
    requires Legal(s, run)
    ensures k in Surviving(s, mem, run) <==> (k in mem || StoredIn(run, k)) && !LostIn(s, run, k)
    ensures k in Surviving(s, mem, run) ==>
            k in LastStored(mem, run) && Surviving(s, mem, run)[k] == LastStored(mem, run)[k]
    decreases |run|
  {
    LastStoredHas(mem, run, k);
    if run != [] {
      var t := run[0];
      SurvivesExact(Apply(s, t), Outlives(s, mem, t), run[1..], k);
      LostNext(s, run, k);
      StoredNext(run, k);
      SameFrom(Outlives(s, mem, t), Remember(mem, t), run[1..], k);
    }
  }

  lemma {:induction false} SameFrom(a: Memory, b: Memory, run: seq<Step>, k: Key)
    requires k in a ==> k in b && a[k] == b[k]
    ensures k in LastStored(a, run) ==> k in LastStored(b, run) && LastStored(a, run)[k] == LastStored(b, run)[k]
    decreases |run|
  {
    if run != [] { SameFrom(Remember(a, run[0]), Remember(b, run[0]), run[1..], k); }
  }

  /** No lost store, over all runs: after any run without a foreign mkwrite, the cache holds for a
      block what the last store to it left there, unless the block was left out of a batch since. */
  lemma NoLostStoreTame(s: State, mem: Memory, run: seq<Step>, k: Key)
    requires Init(s) && InitialMemory(s, mem) && Legal(s, run) && TameRun(s, run)
    requires k in LastStored(mem, run) && !LostIn(s, run, k)
    ensures Contents(After(s, run), k) == LastStored(mem, run)[k]
  {
    InitHolds(s, mem);
    RunKeepsTame(s, mem, run);
    LastStoredHas(mem, run, k);
    SurvivesExact(s, mem, run, k);
    ContentsAgree(After(s, run), Surviving(s, mem, run), k);
  }

  // ---- a single device -----------------------------------------------------------------------

  lemma {:induction false} OneDeviceIsTame(s: State, run: seq<Step>, d: nat)
    requires OnlyDevice(s, d) && Legal(s, run) && forall t :: t in run ==> ForDevice(t, d)
    ensures TameRun(s, run)
    decreases |run|
  {
    if run != [] {
      var t := run[0];
      assert t in run;
      if t.MkLock? { assert BelongsTo(s.pages[t.p], d); }
      OnlyDeviceStep(s, t, d);
      OneDeviceIsTame(Apply(s, t), run[1..], d);
    }
  }

  /** The same on a single device, for every legal run. */
  lemma NoLostStoreOneDevice(s: State, mem: Memory, run: seq<Step>, d: nat, k: Key)
    requires Init(s) && InitialMemory(s, mem) && Legal(s, run)
    requires (forall t :: t in run ==> ForDevice(t, d)) && k in LastStored(mem, run) && !LostIn(s, run, k)
    ensures Contents(After(s, run), k) == LastStored(mem, run)[k]
  {
    OneDeviceIsTame(s, run, d);
    NoLostStoreTame(s, mem, run, k);
  }
}
