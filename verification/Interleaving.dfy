/** A program among other threads: which of the steps that lead from one state to another are the
    program's own, and in which order. */
module Interleaving {
  import opened Lifecycle
  import opened Placement
  import opened Runs
  import opened Interference
  import opened Survival
  import opened Losses

  /** One of the program's own steps, or a run that the others make at some moment, while the program
      holds the pages `held`. */
  datatype Part = Own(t: Step) | Theirs(n: nat, held: seq<PageId>)

  function StepsOf(s: State, x: Part, others: Others): seq<Step> {
    match x
    case Own(t) => [t]
    case Theirs(n, held) => others(n, s, held)
  }

  /** Playing the parts one after the other takes s0 to s, and mem is what survives of the stores. */
  predicate Plays(s0: State, mem0: Memory, parts: seq<Part>, others: Others, s: State, mem: Memory)
    decreases |parts|
  {
    if parts == [] then s == s0 && mem == mem0
    else
      var run := StepsOf(s0, parts[0], others);
      Legal(s0, run) && Plays(After(s0, run), Surviving(s0, mem0, run), parts[1..], others, s, mem)
  }

  function OwnSteps(parts: seq<Part>): seq<Step> {
    if parts == [] then []
    else (if parts[0].Own? then [parts[0].t] else []) + OwnSteps(parts[1..])
  }

  /** From s0 to s the program takes exactly the steps `own`, in this order; all else that happens is
      what the others do at some moment in between. */
  ghost predicate Weaves(s0: State, mem0: Memory, own: seq<Step>, others: Others, s: State, mem: Memory) {
    exists parts :: Plays(s0, mem0, parts, others, s, mem) && OwnSteps(parts) == own
  }

  lemma {:induction false} PlaysOn(a: State, ma: Memory, x: seq<Part>, b: State, mb: Memory, y: seq<Part>,
                                   c: State, mc: Memory, others: Others)
    requires Plays(a, ma, x, others, b, mb) && Plays(b, mb, y, others, c, mc)
    ensures Plays(a, ma, x + y, others, c, mc)
    decreases |x|
  {
    if x == [] {
      assert x + y == y;
    } else {
      Regroup(x, y);
      var a', ma' := PlaysRest(a, ma, x, b, mb, others);
      PlaysOn(a', ma', x[1..], b, mb, y, c, mc, others);
      PlaysFirst(a, ma, x[0], a', ma', x[1..] + y, c, mc, others);
    }
  }

  lemma Regroup<T>(x: seq<T>, y: seq<T>)
    requires x != []
    ensures x + y == [x[0]] + (x[1..] + y)
  {
  }

  /** One part takes a to b. */
  predicate Played(a: State, ma: Memory, x: Part, b: State, mb: Memory, others: Others) {
    var run := StepsOf(a, x, others);
    Legal(a, run) && b == After(a, run) && mb == Surviving(a, ma, run)
  }

  lemma PlaysRest(a: State, ma: Memory, x: seq<Part>, c: State, mc: Memory, others: Others)
      returns (b: State, mb: Memory)
    requires x != [] && Plays(a, ma, x, others, c, mc)
    ensures Played(a, ma, x[0], b, mb, others) && Plays(b, mb, x[1..], others, c, mc)
  {
    var run := StepsOf(a, x[0], others);
    b, mb := After(a, run), Surviving(a, ma, run);
  }

  lemma PlaysFirst(a: State, ma: Memory, x: Part, b: State, mb: Memory, rest: seq<Part>, c: State, mc: Memory,
                   others: Others)
    requires Played(a, ma, x, b, mb, others) && Plays(b, mb, rest, others, c, mc)
    ensures Plays(a, ma, [x] + rest, others, c, mc)
  {
    assert ([x] + rest)[1..] == rest;
  }

  lemma {:induction false} OwnOn(x: seq<Part>, y: seq<Part>)
    ensures OwnSteps(x + y) == OwnSteps(x) + OwnSteps(y)
  {
    if x == [] {
      assert x + y == y;
    } else {
      assert (x + y)[0] == x[0] && (x + y)[1..] == x[1..] + y;
      OwnOn(x[1..], y);
    }
  }

  lemma WeavesOn(a: State, ma: Memory, own: seq<Step>, b: State, mb: Memory, own': seq<Step>, c: State, mc: Memory,
                 others: Others)
    requires Weaves(a, ma, own, others, b, mb) && Weaves(b, mb, own', others, c, mc)
    ensures Weaves(a, ma, own + own', others, c, mc)
  {
    var x :| Plays(a, ma, x, others, b, mb) && OwnSteps(x) == own;
    var y :| Plays(b, mb, y, others, c, mc) && OwnSteps(y) == own';
    PlaysOn(a, ma, x, b, mb, y, c, mc, others);
    OwnOn(x, y);
  }

  lemma WeavesNothing(s: State, mem: Memory, others: Others)
    ensures Weaves(s, mem, [], others, s, mem)
  {
    assert Plays(s, mem, [], others, s, mem) && OwnSteps([]) == [];
  }

  lemma WeavesPart(s: State, mem: Memory, x: Part, others: Others)
    requires Legal(s, StepsOf(s, x, others))
    ensures var run := StepsOf(s, x, others);
            Weaves(s, mem, if x.Own? then [x.t] else [], others, After(s, run), Surviving(s, mem, run))
  {
    var run, parts := StepsOf(s, x, others), [x];
    assert parts[1..] == [];
    assert Plays(After(s, run), Surviving(s, mem, run), [], others, After(s, run), Surviving(s, mem, run));
    assert Plays(s, mem, parts, others, After(s, run), Surviving(s, mem, run));
    assert OwnSteps(parts) == (if x.Own? then [x.t] else []) + OwnSteps([]);
  }

  /** The program takes a step. */
  lemma WeavesOwn(s: State, mem: Memory, t: Step, others: Others)
    requires Enabled(s, t)
    ensures Weaves(s, mem, [t], others, Apply(s, t), Outlives(s, mem, t))
  {
    OneStep(s, mem, t);
    WeavesPart(s, mem, Own(t), others);
  }

  lemma OneStep(s: State, mem: Memory, t: Step)
    requires Enabled(s, t)
    ensures Legal(s, [t]) && After(s, [t]) == Apply(s, t) && Surviving(s, mem, [t]) == Outlives(s, mem, t)
  {
    var run, s' := [t], Apply(s, t);
    assert run[1..] == [] && Legal(s', []) && After(s', []) == s';
    assert Legal(s, run) && After(s, run) == s';
    assert Surviving(s, mem, run) == Surviving(s', Outlives(s, mem, t), []);
  }

  /** The others have their turn. */
  lemma WeavesTheirs(s: State, mem: Memory, n: nat, held: seq<PageId>, others: Others)
    requires Legal(s, others(n, s, held))
    ensures var run := others(n, s, held); Weaves(s, mem, [], others, After(s, run), Surviving(s, mem, run))
  {
    WeavesPart(s, mem, Theirs(n, held), others);
  }

  // ---- alone, and among threads that keep to the protocol ------------------------------------

  /** There are no others. */
  ghost predicate Alone(others: Others) { forall n, s, held :: others(n, s, held) == [] }

  lemma {:induction false} PlaysAlone(s0: State, mem0: Memory, parts: seq<Part>, others: Others, s: State, mem: Memory)
    requires Plays(s0, mem0, parts, others, s, mem) && Alone(others)
    ensures var own := OwnSteps(parts);
            Legal(s0, own) && s == After(s0, own) && mem == Surviving(s0, mem0, own)
    decreases |parts|
  {
    if parts != [] {
      var run := StepsOf(s0, parts[0], others);
      PlaysAlone(After(s0, run), Surviving(s0, mem0, run), parts[1..], others, s, mem);
      if parts[0].Own? {
        var t, rest := parts[0].t, OwnSteps(parts[1..]);
        OneStep(s0, mem0, t);
        assert OwnSteps(parts) == [t] + rest && OwnSteps(parts)[1..] == rest;
      } else {
        assert run == [] && OwnSteps(parts) == OwnSteps(parts[1..]);
      }
    }
  }

  /** Without others a program does its own steps and nothing else. */
  lemma WeavesAlone(s0: State, mem0: Memory, own: seq<Step>, others: Others, s: State, mem: Memory)
    requires Weaves(s0, mem0, own, others, s, mem) && Alone(others)
    ensures Legal(s0, own) && s == After(s0, own) && mem == Surviving(s0, mem0, own)
  {
    var parts :| Plays(s0, mem0, parts, others, s, mem) && OwnSteps(parts) == own;
    PlaysAlone(s0, mem0, parts, others, s, mem);
  }

  /** Whatever the others do at any moment is legal and free of departures. */
  ghost predicate Civil(others: Others) {
    forall n, s, held :: var run := others(n, s, held); Legal(s, run) && SoundRun(s, run)
  }

  /** Steps of which none can be a departure. */
  predicate Plain(own: seq<Step>) { forall t :: t in own ==> !t.DropBlock? && !t.MkLock? }

  lemma {:induction false} PlaysLeads(s0: State, mem0: Memory, parts: seq<Part>, others: Others, s: State, mem: Memory)
    requires Plays(s0, mem0, parts, others, s, mem) && Civil(others) && Plain(OwnSteps(parts))
    ensures Leads(s0, mem0, s, mem)
    decreases |parts|
  {
    if parts == [] {
      LeadsNowhere(s0, mem0);
    } else {
      var run := StepsOf(s0, parts[0], others);
      var s1, mem1 := After(s0, run), Surviving(s0, mem0, run);
      OwnPlain(parts);
      PartLeads(s0, mem0, parts[0], others);
      PlaysLeads(s1, mem1, parts[1..], others, s, mem);
      LeadsOn(s0, mem0, s1, mem1, s, mem);
    }
  }

  lemma OwnPlain(parts: seq<Part>)
    requires parts != [] && Plain(OwnSteps(parts))
    ensures Plain(OwnSteps(parts[1..])) && (parts[0].Own? ==> !parts[0].t.DropBlock? && !parts[0].t.MkLock?)
  {
    if parts[0].Own? { assert parts[0].t in OwnSteps(parts); }
    forall t | t in OwnSteps(parts[1..]) ensures !t.DropBlock? && !t.MkLock? { assert t in OwnSteps(parts); }
  }

  lemma PartLeads(s: State, mem: Memory, x: Part, others: Others)
    requires Civil(others) && Legal(s, StepsOf(s, x, others)) && (x.Own? ==> !x.t.DropBlock? && !x.t.MkLock?)
    ensures var run := StepsOf(s, x, others); Leads(s, mem, After(s, run), Surviving(s, mem, run))
  {
    if x.Own? {
      PlainStep(s, mem, x.t);
    } else {
      SoundLeads(s, mem, others(x.n, s, x.held));
    }
  }

  lemma PlainStep(s: State, mem: Memory, t: Step)
    requires Legal(s, [t]) && !t.DropBlock? && !t.MkLock?
    ensures Leads(s, mem, After(s, [t]), Surviving(s, mem, [t]))
  {
    assert Enabled(s, t);
    OneStep(s, mem, t);
    LeadsBy(s, mem, t);
  }

  lemma SoundLeads(s: State, mem: Memory, run: seq<Step>)
    requires Legal(s, run) && SoundRun(s, run)
    ensures Leads(s, mem, After(s, run), Surviving(s, mem, run))
  {
    SoundLosesNothing(s, mem, run, {});
    assert Via(s, mem, run, After(s, run), LastStored(mem, run));
  }

  lemma WeavesLeads(s0: State, mem0: Memory, own: seq<Step>, others: Others, s: State, mem: Memory)
    requires Weaves(s0, mem0, own, others, s, mem) && Civil(others) && Plain(own)
    ensures Leads(s0, mem0, s, mem)
  {
    var parts :| Plays(s0, mem0, parts, others, s, mem) && OwnSteps(parts) == own;
    PlaysLeads(s0, mem0, parts, others, s, mem);
  }
}
