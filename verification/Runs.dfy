/** Putting runs together, and what it means for one state to lead to another. */
module Runs {
  import opened Lifecycle
  import opened Invariant
  import opened Theorems

  lemma {:induction false} Concat(s: State, mem: Memory, a: seq<Step>, b: seq<Step>)
    requires Legal(s, a) && Legal(After(s, a), b)
    ensures Legal(s, a + b) && After(s, a + b) == After(After(s, a), b)
    ensures LastStored(mem, a + b) == LastStored(LastStored(mem, a), b)
    ensures SoundRun(s, a) && SoundRun(After(s, a), b) ==> SoundRun(s, a + b)
    decreases |a|
  {
    if a == [] {
      assert a + b == b;
    } else {
      assert (a + b)[0] == a[0] && (a + b)[1..] == a[1..] + b;
      Concat(Apply(s, a[0]), Remember(mem, a[0]), a[1..], b);
    }
  }

  /** The sound run `run` takes s0 to s, and its stores turn the memory mem0 into mem. */
  ghost predicate Via(s0: State, mem0: Memory, run: seq<Step>, s: State, mem: Memory) {
    Legal(s0, run) && SoundRun(s0, run) && s == After(s0, run) && mem == LastStored(mem0, run)
  }

  /** Some sound run does. */
  ghost predicate Leads(s0: State, mem0: Memory, s: State, mem: Memory) {
    exists run :: Via(s0, mem0, run, s, mem)
  }

  lemma LeadsNowhere(s: State, mem: Memory)
    ensures Leads(s, mem, s, mem)
  {
    assert Via(s, mem, [], s, mem);
  }

  lemma LeadsBy(s: State, mem: Memory, t: Step)
    requires Enabled(s, t) && Sound(s, t)
    ensures Leads(s, mem, Apply(s, t), Remember(mem, t))
  {
    ViaOne(s, mem, t);
  }

  lemma ViaOne(s: State, mem: Memory, t: Step)
    requires Enabled(s, t) && Sound(s, t)
    ensures Via(s, mem, [t], Apply(s, t), Remember(mem, t))
  {
    var run, s' := [t], Apply(s, t);
    assert run[1..] == [];
    assert Legal(s', []) && SoundRun(s', []) && After(s', []) == s';
    assert Legal(s, run) && After(s, run) == s';
    assert LastStored(mem, run) == LastStored(Remember(mem, t), []);
    assert Via(s, mem, run, s', Remember(mem, t));
  }

  lemma ViaOn(a: State, ma: Memory, r: seq<Step>, b: State, mb: Memory, q: seq<Step>, c: State, mc: Memory)
    requires Via(a, ma, r, b, mb) && Via(b, mb, q, c, mc)
    ensures Via(a, ma, r + q, c, mc)
  {
    Concat(a, ma, r, q);
  }

  lemma LeadsOn(a: State, ma: Memory, b: State, mb: Memory, c: State, mc: Memory)
    requires Leads(a, ma, b, mb) && Leads(b, mb, c, mc)
    ensures Leads(a, ma, c, mc)
  {
    var r :| Via(a, ma, r, b, mb);
    var q :| Via(b, mb, q, c, mc);
    Concat(a, ma, r, q);
    assert Via(a, ma, r + q, c, mc);
  }

  /** Where a state leads, the invariant holds again. */
  lemma LeadsKeeps(s0: State, mem0: Memory, s: State, mem: Memory)
    requires Inv(s0, mem0) && Leads(s0, mem0, s, mem)
    ensures Inv(s, mem)
  {
    var run :| Via(s0, mem0, run, s, mem);
    RunKeepsInv(s0, mem0, run);
  }
}
