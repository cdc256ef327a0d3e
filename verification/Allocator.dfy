/** The scan of alloc_page_lock over the free lists. Nodes are visited nearest first, and the CPUs
    of a node in increasing order; the break on success leaves only the loop over the CPUs. */
module Allocator {
  import opened Params
  import opened Placement
  import opened Lifecycle
  import opened Invariant

  type Lists = seq<seq<PageId>>

  datatype Pick = Pick(cpu: nat, page: PageId)

  /** CPUs of the nodes, in visiting order: all known, and no CPU in two places. */
  ghost predicate Nodes(fl: Lists, nodes: seq<seq<nat>>) {
    && (forall i, c :: 0 <= i < |nodes| && c in nodes[i] ==> c < |fl|)
    && (forall i, j, c :: 0 <= i < j < |nodes| && c in nodes[i] ==> c !in nodes[j])
  }

  /** The first CPU of the node whose list is not empty, with the head of that list. */
  function FirstFree(fl: Lists, cpus: seq<nat>): (r: Option<Pick>)
    ensures r.Some? ==> r.value.cpu in cpus && r.value.cpu < |fl|
                        && fl[r.value.cpu] != [] && r.value.page == fl[r.value.cpu][0]
    ensures r.None? ==> forall c :: c in cpus && c < |fl| ==> fl[c] == []
  {
    if cpus == [] then None
    else if cpus[0] < |fl| && fl[cpus[0]] != [] then Some(Pick(cpus[0], fl[cpus[0]][0]))
    else FirstFree(fl, cpus[1..])
  }

  /** The j-th CPU of the node has a page, and none before it has. */
  predicate FirstOf(fl: Lists, cpus: seq<nat>, j: nat) {
    && j < |cpus| && cpus[j] < |fl| && fl[cpus[j]] != []
    && forall i :: 0 <= i < j && cpus[i] < |fl| ==> fl[cpus[i]] == []
  }

  /** `t` is the head of the first non-empty list of the node. */
  ghost predicate HeadOfFirst(fl: Lists, cpus: seq<nat>, t: Pick) {
    exists j: nat :: FirstOf(fl, cpus, j) && t == Pick(cpus[j], fl[cpus[j]][0])
  }

  lemma {:induction false} FirstIsFirst(fl: Lists, cpus: seq<nat>)
    ensures FirstFree(fl, cpus).Some? ==> HeadOfFirst(fl, cpus, FirstFree(fl, cpus).value)
    ensures FirstFree(fl, cpus).None? <==> forall i :: 0 <= i < |cpus| && cpus[i] < |fl| ==> fl[cpus[i]] == []
  {
    if cpus != [] {
      if cpus[0] < |fl| && fl[cpus[0]] != [] {
        assert FirstOf(fl, cpus, 0);
      } else {
        FirstIsFirst(fl, cpus[1..]);
        if FirstFree(fl, cpus).Some? {
          var j: nat :| FirstOf(fl, cpus[1..], j)
            && FirstFree(fl, cpus).value == Pick(cpus[1..][j], fl[cpus[1..][j]][0]);
          FirstLater(fl, cpus, j);
        } else {
          forall i | 0 <= i < |cpus| && cpus[i] < |fl| ensures fl[cpus[i]] == [] {
            if i > 0 { assert cpus[i] == cpus[1..][i - 1]; }
          }
        }
      }
    }
  }

  lemma FirstLater(fl: Lists, cpus: seq<nat>, j: nat)
    requires cpus != [] && FirstOf(fl, cpus[1..], j) && (cpus[0] < |fl| ==> fl[cpus[0]] == [])
    ensures FirstOf(fl, cpus, j + 1) && cpus[j + 1] == cpus[1..][j]
  {
    forall i | 0 <= i < j + 1 && cpus[i] < |fl| ensures fl[cpus[i]] == [] {
      if i > 0 { assert cpus[i] == cpus[1..][i - 1]; }
    }
  }

  function Shortened(fl: Lists, t: Option<Pick>): Lists {
    if t.Some? && t.value.cpu < |fl| && fl[t.value.cpu] != []
    then fl[t.value.cpu := fl[t.value.cpu][1..]] else fl
  }

  lemma {:induction false} FirstFreeAfter(fl: Lists, cpus: seq<nat>, k: nat)
    requires k <= |cpus| && forall i :: 0 <= i < k ==> cpus[i] < |fl| && fl[cpus[i]] == []
    ensures FirstFree(fl, cpus) == FirstFree(fl, cpus[k..])
  {
    if k > 0 {
      FirstFreeAfter(fl, cpus, k - 1);
      assert cpus[k - 1..][1..] == cpus[k..];
    } else {
      assert cpus[0..] == cpus;
    }
  }

  /** for_each_cpu over one node. */
  method ScanNode(fl: Lists, cpus: seq<nat>) returns (fl': Lists, got: Option<Pick>)
    requires forall c :: c in cpus ==> c < |fl|
    ensures got == FirstFree(fl, cpus) && fl' == Shortened(fl, got)
  {
    fl', got := fl, None;
    for i := 0 to |cpus|
      invariant fl' == fl && got == None
      invariant forall j :: 0 <= j < i ==> cpus[j] < |fl| && fl[cpus[j]] == []
    {
      var cpu := cpus[i];
      assert cpu in cpus;
      FirstFreeAfter(fl, cpus, i);
      if fl[cpu] != [] {
        got := Some(Pick(cpu, fl[cpu][0]));
        fl' := fl[cpu := fl[cpu][1..]];
        return;
      }
    }
    FirstFreeAfter(fl, cpus, |cpus|);
  }

  // ---- what all the nodes together come to ---------------------------------------------------

  /** One page from every node that has one. */
  function Pops(fl: Lists, nodes: seq<seq<nat>>): seq<Pick> {
    if nodes == [] then []
    else
      var n := |nodes| - 1;
      var t := FirstFree(fl, nodes[n]);
      Pops(fl, nodes[..n]) + if t.Some? then [t.value] else []
  }

  /** What the call returns: the last node with a CPU decides, whatever the others had. */
  function Outcome(fl: Lists, nodes: seq<seq<nat>>): Option<Pick> {
    if nodes == [] then None
    else
      var n := |nodes| - 1;
      if nodes[n] == [] then Outcome(fl, nodes[..n]) else FirstFree(fl, nodes[n])
  }

  /** The head is gone from exactly the lists of the CPUs in ts. */
  ghost predicate Removed(fl: Lists, fl': Lists, ts: seq<Pick>) {
    && |fl'| == |fl|
    && (forall t :: t in ts ==> t.cpu < |fl| && fl[t.cpu] == [t.page] + fl'[t.cpu])
    && (forall c :: 0 <= c < |fl| && (forall t :: t in ts ==> t.cpu != c) ==> fl'[c] == fl[c])
  }

  /** The pages taken come from the nodes that were visited. */
  lemma {:induction false} PopsFrom(fl: Lists, nodes: seq<seq<nat>>, t: Pick)
    requires t in Pops(fl, nodes)
    ensures exists i :: 0 <= i < |nodes| && t.cpu in nodes[i] && FirstFree(fl, nodes[i]) == Some(t)
    decreases |nodes|
  {
    if nodes != [] {
      var n := |nodes| - 1;
      if t in Pops(fl, nodes[..n]) {
        PopsFrom(fl, nodes[..n], t);
        var i :| 0 <= i < n && t.cpu in nodes[..n][i] && FirstFree(fl, nodes[..n][i]) == Some(t);
        assert t.cpu in nodes[i] && FirstFree(fl, nodes[i]) == Some(t);
      } else {
        assert t.cpu in nodes[n] && FirstFree(fl, nodes[n]) == Some(t);
      }
    }
  }

  /** An earlier node's pops leave a later node's lists alone. */
  lemma SameFirst(fl: Lists, fl': Lists, nodes: seq<seq<nat>>, n: nat)
    requires Nodes(fl, nodes) && n < |nodes| && Removed(fl, fl', Pops(fl, nodes[..n]))
    ensures FirstFree(fl', nodes[n]) == FirstFree(fl, nodes[n])
    ensures forall c :: c in nodes[n] ==>
              c < |fl| && fl'[c] == fl[c] && forall t :: t in Pops(fl, nodes[..n]) ==> t.cpu != c
  {
    var ts := Pops(fl, nodes[..n]);
    forall c, t | c in nodes[n] && t in ts ensures t.cpu != c {
      PopsFrom(fl, nodes[..n], t);
      var i :| 0 <= i < n && t.cpu in nodes[..n][i];
      assert t.cpu in nodes[i];
    }
    SameLists(fl, fl', nodes[n]);
  }

  lemma {:induction false} SameLists(fl: Lists, fl': Lists, cpus: seq<nat>)
    requires |fl'| == |fl| && forall c :: c in cpus ==> c < |fl| && fl'[c] == fl[c]
    ensures FirstFree(fl', cpus) == FirstFree(fl, cpus)
  {
    if cpus != [] {
      assert cpus[0] in cpus && forall c :: c in cpus[1..] ==> c in cpus;
      SameLists(fl, fl', cpus[1..]);
    }
  }

  lemma RemovedNext(fl: Lists, fl': Lists, ts: seq<Pick>, t: Option<Pick>)
    requires Removed(fl, fl', ts)
    requires t.Some? ==> t.value.cpu < |fl'| && fl'[t.value.cpu] != [] && t.value.page == fl'[t.value.cpu][0]
                         && fl'[t.value.cpu] == fl[t.value.cpu] && forall u :: u in ts ==> u.cpu != t.value.cpu
    ensures Removed(fl, Shortened(fl', t), ts + if t.Some? then [t.value] else [])
  {
    if t.Some? {
      var more, next := ts + [t.value], Shortened(fl', t);
      assert t.value in more;
      forall c | 0 <= c < |fl| && (forall u :: u in more ==> u.cpu != c) ensures next[c] == fl[c] {
        assert forall u :: u in ts ==> u in more;
        assert t.value.cpu != c;
      }
    }
  }

  /** From every node the head of its first non-empty list is gone, and no other page. */
  ghost predicate OneFromEach(fl: Lists, fl': Lists, nodes: seq<seq<nat>>) {
    && |fl'| == |fl|
    && (forall c :: 0 <= c < |fl| && (forall i :: 0 <= i < |nodes| ==> c !in nodes[i]) ==> fl'[c] == fl[c])
    && forall i, c :: 0 <= i < |nodes| && c in nodes[i] && c < |fl| ==> LosesAt(fl, fl', nodes[i], c)
  }

  ghost predicate LosesAt(fl: Lists, fl': Lists, cpus: seq<nat>, c: nat)
    requires c < |fl| == |fl'|
  {
    if exists j: nat :: FirstOf(fl, cpus, j) && cpus[j] == c then fl[c] != [] && fl'[c] == fl[c][1..]
    else fl'[c] == fl[c]
  }

  /** The scan of all nodes: exactly one page leaves each node that has one, the head of its first
      non-empty list, and the caller gets only what the last node had. */
  method AllocPage(fl: Lists, nodes: seq<seq<nat>>) returns (fl': Lists, got: Option<Pick>)
    requires Nodes(fl, nodes)
    ensures Removed(fl, fl', Pops(fl, nodes)) && got == Outcome(fl, nodes)
    ensures OneFromEach(fl, fl', nodes)
    ensures forall m: nat :: LastNode(nodes, m) ==>
              if got.Some? then HeadOfFirst(fl, nodes[m], got.value) else forall c :: c in nodes[m] ==> fl[c] == []
  {
    fl', got := fl, None;
    for i := 0 to |nodes|
      invariant Removed(fl, fl', Pops(fl, nodes[..i])) && got == Outcome(fl, nodes[..i])
    {
      SameFirst(fl, fl', nodes, i);
      ghost var before := fl';
      assert nodes[..i + 1][..i] == nodes[..i];
      if nodes[i] != [] {
        fl', got := ScanNode(fl', nodes[i]);
      }
      RemovedNext(fl, before, Pops(fl, nodes[..i]), FirstFree(fl, nodes[i]));
    }
    assert nodes[..|nodes|] == nodes;
    EachLosesOne(fl, fl', nodes);
    forall m: nat | LastNode(nodes, m)
      ensures if got.Some? then HeadOfFirst(fl, nodes[m], got.value) else forall c :: c in nodes[m] ==> fl[c] == []
    {
      OutcomeOfLast(fl, nodes, m);
      FirstIsFirst(fl, nodes[m]);
    }
  }

  lemma EachLosesOne(fl: Lists, fl': Lists, nodes: seq<seq<nat>>)
    requires Nodes(fl, nodes) && Removed(fl, fl', Pops(fl, nodes))
    ensures OneFromEach(fl, fl', nodes)
  {
    var ts := Pops(fl, nodes);
    forall c | 0 <= c < |fl| && (forall i :: 0 <= i < |nodes| ==> c !in nodes[i]) ensures fl'[c] == fl[c] {
      forall t | t in ts ensures t.cpu != c { PopsFrom(fl, nodes, t); }
    }
    forall i, c | 0 <= i < |nodes| && c in nodes[i] && c < |fl| ensures LosesAt(fl, fl', nodes[i], c) {
      NodeLoses(fl, fl', nodes, i, c);
    }
  }

  lemma NodeLoses(fl: Lists, fl': Lists, nodes: seq<seq<nat>>, i: nat, c: nat)
    requires Nodes(fl, nodes) && Removed(fl, fl', Pops(fl, nodes))
    requires i < |nodes| && c in nodes[i] && c < |fl|
    ensures LosesAt(fl, fl', nodes[i], c)
  {
    var ts, got := Pops(fl, nodes), FirstFree(fl, nodes[i]);
    FirstIsFirst(fl, nodes[i]);
    if got.Some? && got.value.cpu == c {
      PopsHas(fl, nodes, i);
      assert fl[c] == [got.value.page] + fl'[c];
    } else {
      forall t | t in ts ensures t.cpu != c { OtherPick(fl, nodes, i, c, t); }
      forall j: nat | FirstOf(fl, nodes[i], j) ensures nodes[i][j] != c { OneFirst(fl, nodes[i], j); }
    }
  }

  lemma OtherPick(fl: Lists, nodes: seq<seq<nat>>, i: nat, c: nat, t: Pick)
    requires Nodes(fl, nodes) && i < |nodes| && c in nodes[i] && t in Pops(fl, nodes)
    requires FirstFree(fl, nodes[i]).Some? ==> FirstFree(fl, nodes[i]).value.cpu != c
    ensures t.cpu != c
  {
    PopsFrom(fl, nodes, t);
    var k :| 0 <= k < |nodes| && t.cpu in nodes[k] && FirstFree(fl, nodes[k]) == Some(t);
  }

  lemma OneFirst(fl: Lists, cpus: seq<nat>, j: nat)
    requires FirstOf(fl, cpus, j)
    ensures FirstFree(fl, cpus) == Some(Pick(cpus[j], fl[cpus[j]][0]))
  {
    FirstIsFirst(fl, cpus);
    var i: nat :| FirstOf(fl, cpus, i) && FirstFree(fl, cpus).value == Pick(cpus[i], fl[cpus[i]][0]);
    assert i == j;
  }

  // ---- one node, and several -----------------------------------------------------------------

  /** With one node exactly the head of the first non-empty list is taken, and returned. */
  lemma OneNode(fl: Lists, fl': Lists, cpus: seq<nat>)
    requires Nodes(fl, [cpus]) && Removed(fl, fl', Pops(fl, [cpus]))
    ensures Outcome(fl, [cpus]) == FirstFree(fl, cpus) && fl' == Shortened(fl, FirstFree(fl, cpus))
    ensures FirstFree(fl, cpus).None? <==> forall c :: c in cpus ==> c < |fl| && fl[c] == []
    ensures FirstFree(fl, cpus).Some? ==> HeadOfFirst(fl, cpus, FirstFree(fl, cpus).value)
  {
    FirstIsFirst(fl, cpus);
    assert [cpus][..0] == [] && [cpus][0] == cpus;
    var t := FirstFree(fl, cpus);
    assert Pops(fl, [cpus]) == if t.Some? then [t.value] else [];
    if t.Some? {
      assert t.value in Pops(fl, [cpus]);
    }
    forall c | 0 <= c < |fl| ensures fl'[c] == Shortened(fl, t)[c] {
      if t.Some? && t.value.cpu == c { assert fl[c] == [t.value.page] + fl'[c]; }
    }
  }

  /** Node m is the last one that has a CPU. */
  ghost predicate LastNode(nodes: seq<seq<nat>>, m: nat) {
    m < |nodes| && nodes[m] != [] && forall j :: m < j < |nodes| ==> nodes[j] == []
  }

  lemma {:induction false} OutcomeOfLast(fl: Lists, nodes: seq<seq<nat>>, m: nat)
    requires LastNode(nodes, m)
    ensures Outcome(fl, nodes) == FirstFree(fl, nodes[m])
    decreases |nodes|
  {
    var n := |nodes| - 1;
    if m < n {
      OutcomeOfLast(fl, nodes[..n], m);
      assert nodes[..n][m] == nodes[m];
    }
  }

  lemma {:induction false} PopsHas(fl: Lists, nodes: seq<seq<nat>>, i: nat)
    requires i < |nodes| && FirstFree(fl, nodes[i]).Some?
    ensures FirstFree(fl, nodes[i]).value in Pops(fl, nodes)
    decreases |nodes|
  {
    var n := |nodes| - 1;
    if i < n {
      PopsHas(fl, nodes[..n], i);
      assert nodes[..n][i] == nodes[i];
    }
  }

  /** Every page taken off a list is returned to the caller. */
  ghost predicate NothingLeaks(fl: Lists, nodes: seq<seq<nat>>) {
    forall t :: t in Pops(fl, nodes) ==> Outcome(fl, nodes) == Some(t)
  }

  /** The call leaks no page if and only if every node but the last one with a CPU is out of free
      pages. In particular it never leaks on a machine with one node. */
  lemma LeakExact(fl: Lists, nodes: seq<seq<nat>>, m: nat)
    requires Nodes(fl, nodes) && LastNode(nodes, m)
    ensures NothingLeaks(fl, nodes) <==>
            forall i, c :: 0 <= i < |nodes| && i != m && c in nodes[i] ==> fl[c] == []
  {
    OutcomeOfLast(fl, nodes, m);
    if forall i, c :: 0 <= i < |nodes| && i != m && c in nodes[i] ==> fl[c] == [] {
      forall t | t in Pops(fl, nodes) ensures Outcome(fl, nodes) == Some(t) {
        PopsFrom(fl, nodes, t);
        var i :| 0 <= i < |nodes| && t.cpu in nodes[i] && FirstFree(fl, nodes[i]) == Some(t);
        assert i == m;
      }
    }
    if NothingLeaks(fl, nodes) {
      forall i, c | 0 <= i < |nodes| && i != m && c in nodes[i] ensures fl[c] == [] {
        OnlyLast(fl, nodes, m, i);
      }
    }
  }

  lemma OnlyLast(fl: Lists, nodes: seq<seq<nat>>, m: nat, i: nat)
    requires Nodes(fl, nodes) && LastNode(nodes, m) && i < |nodes| && i != m && NothingLeaks(fl, nodes)
    requires Outcome(fl, nodes) == FirstFree(fl, nodes[m])
    ensures FirstFree(fl, nodes[i]).None?
  {
    if FirstFree(fl, nodes[i]).Some? {
      PopsHas(fl, nodes, i);
    }
  }

  /** Two nodes with a free page each: the nearer one's page is taken and then forgotten. */
  lemma TwoNodesLeak()
    ensures Pops([[7], [8]], [[0], [1]]) == [Pick(0, 7), Pick(1, 8)]
    ensures Outcome([[7], [8]], [[0], [1]]) == Some(Pick(1, 8))
    ensures !NothingLeaks([[7], [8]], [[0], [1]])
  {
    var fl, nodes: seq<seq<nat>> := [[7], [8]], [[0], [1]];
    assert nodes[..1] == [[0]] && nodes[..1][..0] == [];
    assert Pops(fl, nodes[..1]) == [Pick(0, 7)];
    assert Pick(0, 7) in Pops(fl, nodes);
  }

  /** On one node, an allocation is the cache's Pop step at the CPU that the scan finds, and it
      fails exactly when no Pop is possible. */
  lemma AllocationPops(s: State, cpus: seq<nat>, dev: nat, off: nat)
    requires Structure(s) && forall c :: c in cpus <==> 0 <= c < |s.free|
    ensures var t := FirstFree(s.free, cpus);
            if t.Some? then
              && HeadOfFirst(s.free, cpus, t.value)
              && Enabled(s, Pop(t.value.cpu, dev, off))
              && DoPop(s, t.value.cpu, dev, off).free == Shortened(s.free, t)
              && s.home[t.value.page] == t.value.cpu
            else forall c: nat :: !Enabled(s, Pop(c, dev, off))
  {
    var t := FirstFree(s.free, cpus);
    FirstIsFirst(s.free, cpus);
    if t.Some? {
      assert Holds(FreeLists, s);
      assert t.value.page in s.free[t.value.cpu];
    }
  }
}
