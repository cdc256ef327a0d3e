/** The scan of alloc_page_lock in the order that the distance table gives to it. */
module NodeOrder {
  import opened Params
  import Numa
  import opened Allocator

  /** The CPUs of the nodes in the order of a row. */
  function Visiting(cpus: seq<seq<nat>>, row: seq<nat>): (nodes: seq<seq<nat>>)
    requires forall v :: v in row ==> v < |cpus|
    ensures |nodes| == |row| && forall i :: 0 <= i < |row| ==> row[i] in row && nodes[i] == cpus[row[i]]
  {
    seq(|row|, i requires 0 <= i < |row| => assert row[i] in row; cpus[row[i]])
  }

  /** A sorted row that lists every node once. */
  ghost predicate Order(cpus: seq<seq<nat>>, row: seq<nat>, d: Numa.Distance) {
    |row| == |cpus| && Numa.Permutation(row) && Numa.SortedTo(d, row, |row|)
  }

  lemma VisitingNodes(fl: Lists, cpus: seq<seq<nat>>, row: seq<nat>, d: Numa.Distance)
    requires Nodes(fl, cpus) && Order(cpus, row, d)
    ensures Nodes(fl, Visiting(cpus, row))
  {
    var nodes := Visiting(cpus, row);
    forall i, c | 0 <= i < |nodes| && c in nodes[i] ensures c < |fl| { assert row[i] in row && c in cpus[row[i]]; }
    forall i, j, c | 0 <= i < j < |nodes| && c in nodes[i] ensures c !in nodes[j] {
      assert row[i] in row && row[j] in row && row[i] != row[j];
      assert c in cpus[row[i]];
    }
  }

  /** Of the nodes with a CPU, f is the farthest, and the greatest of the farthest ones. */
  ghost predicate Farthest(cpus: seq<seq<nat>>, d: Numa.Distance, f: nat) {
    && f < |cpus| && cpus[f] != []
    && forall v: nat :: v < |cpus| && v != f && cpus[v] != [] ==> d(v) < d(f) || (d(v) == d(f) && v < f)
  }

  lemma FarthestIsLast(cpus: seq<seq<nat>>, row: seq<nat>, d: Numa.Distance, f: nat, m: nat)
    requires Order(cpus, row, d) && Farthest(cpus, d, f) && m < |row| && row[m] == f
    ensures LastNode(Visiting(cpus, row), m)
  {
    forall j | m < j < |row| ensures Visiting(cpus, row)[j] == [] {
      assert row[j] in row && Numa.Before(d, row[m], row[j]);
    }
  }

  /** Node v's page is taken off its list and never reaches the caller. */
  ghost predicate Leaks(fl: Lists, nodes: seq<seq<nat>>, cpus: seq<nat>) {
    var t := FirstFree(fl, cpus);
    t.Some? && t.value in Pops(fl, nodes) && Outcome(fl, nodes) != t
  }

  /** The page returned is that of the farthest node with a CPU, so the call fails exactly when that
      node has no free page; and every nearer node loses a page exactly if it has one. */
  lemma FarthestDecides(fl: Lists, cpus: seq<seq<nat>>, row: seq<nat>, d: Numa.Distance, f: nat)
    requires Nodes(fl, cpus) && Order(cpus, row, d) && Farthest(cpus, d, f)
    ensures var nodes := Visiting(cpus, row);
            && Outcome(fl, nodes) == FirstFree(fl, cpus[f])
            && (Outcome(fl, nodes).None? <==> forall c :: c in cpus[f] ==> fl[c] == [])
            && (forall v: nat :: v < |cpus| && v != f ==>
                  (Leaks(fl, nodes, cpus[v]) <==> exists c :: c in cpus[v] && fl[c] != []))
  {
    var nodes := Visiting(cpus, row);
    assert f in row;
    var m: nat :| m < |row| && row[m] == f;
    FarthestIsLast(cpus, row, d, f, m);
    OutcomeOfLast(fl, nodes, m);
    forall v: nat | v < |cpus| && v != f
      ensures Leaks(fl, nodes, cpus[v]) <==> exists c :: c in cpus[v] && fl[c] != []
    {
      NearerLeaks(fl, cpus, row, d, f, v);
    }
  }

  lemma NearerLeaks(fl: Lists, cpus: seq<seq<nat>>, row: seq<nat>, d: Numa.Distance, f: nat, v: nat)
    requires Nodes(fl, cpus) && Order(cpus, row, d) && Farthest(cpus, d, f) && v < |cpus| && v != f
    requires Outcome(fl, Visiting(cpus, row)) == FirstFree(fl, cpus[f])
    ensures Leaks(fl, Visiting(cpus, row), cpus[v]) <==> exists c :: c in cpus[v] && fl[c] != []
  {
    var nodes, t := Visiting(cpus, row), FirstFree(fl, cpus[v]);
    assert forall c :: c in cpus[v] ==> c < |fl|;
    if t.Some? {
      assert v in row;
      var i :| 0 <= i < |row| && row[i] == v;
      PopsHas(fl, nodes, i);
      assert t.value.cpu in cpus[v] && t.value.cpu !in cpus[f];
    }
  }

  /** alloc_page_lock on node j of a machine whose distance table is set up. */
  method AllocNear(fl: Lists, cpus: seq<seq<nat>>, dv: seq<nat>, j: nat, dist: nat -> Numa.Distance)
      returns (fl': Lists, got: Option<Pick>)
    requires Nodes(fl, cpus) && j < |cpus| && Numa.RowDone(dv, |cpus|, j, dist)
    ensures var nodes := Visiting(cpus, Numa.RowAt(dv, |cpus|, j));
            Removed(fl, fl', Pops(fl, nodes)) && got == Outcome(fl, nodes)
    ensures OneFromEach(fl, fl', Visiting(cpus, Numa.RowAt(dv, |cpus|, j)))
    ensures forall f: nat :: Farthest(cpus, dist(j), f) ==>
              if got.Some? then HeadOfFirst(fl, cpus[f], got.value) else forall c :: c in cpus[f] ==> fl[c] == []
  {
    var row := Numa.RowAt(dv, |cpus|, j);
    VisitingNodes(fl, cpus, row, dist(j));
    fl', got := AllocPage(fl, Visiting(cpus, row));
    forall f: nat | Farthest(cpus, dist(j), f)
      ensures if got.Some? then HeadOfFirst(fl, cpus[f], got.value) else forall c :: c in cpus[f] ==> fl[c] == []
    {
      FarthestDecides(fl, cpus, row, dist(j), f);
      FirstIsFirst(fl, cpus[f]);
    }
  }
}
