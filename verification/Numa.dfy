/** The table of NUMA nodes by distance: init_numa_distance_vector. Row j lists all nodes, nearest
    to node j first. */
module Numa {
  import opened Fifo

  /** Distance from the row's node. */
  type Distance = nat -> int

  /** Nearer, or as near and of smaller number. */
  predicate Before(d: Distance, a: nat, b: nat) { d(a) < d(b) || (d(a) == d(b) && a < b) }

  predicate SortedTo(d: Distance, row: seq<nat>, k: nat) {
    k <= |row| && forall a, b :: 0 <= a < b < k ==> Before(d, row[a], row[b])
  }

  /** The first k places hold nodes below k, in order; the others are still untouched. */
  predicate Prefix(d: Distance, row: seq<nat>, k: nat) {
    && SortedTo(d, row, k)
    && (forall a :: 0 <= a < k ==> row[a] < k)
    && (forall a :: k <= a < |row| ==> row[a] == a)
  }

  /** Node k is on its way down and now at place l: without it the first k + 1 places are in order,
      and it is nearer than everything it has passed. */
  predicate Sinking(d: Distance, row: seq<nat>, k: nat, l: nat) {
    && l <= k < |row| && row[l] == k
    && (forall a, b :: 0 <= a < b <= k && a != l && b != l ==> Before(d, row[a], row[b]))
    && (forall a :: 0 <= a <= k && a != l ==> row[a] < k)
    && (forall a :: l < a <= k ==> d(k) < d(row[a]))
    && (forall a :: k < a < |row| ==> row[a] == a)
  }

  function SwapDown(row: seq<nat>, l: nat): seq<nat>
    requires 0 < l < |row|
  {
    row[l - 1 := row[l]][l := row[l - 1]]
  }

  lemma SinkStarts(d: Distance, row: seq<nat>, k: nat)
    requires Prefix(d, row, k) && k < |row|
    ensures Sinking(d, row, k, k)
  {
  }

  lemma SinkStep(d: Distance, row: seq<nat>, k: nat, l: nat)
    requires Sinking(d, row, k, l) && l > 0 && d(row[l - 1]) > d(row[l])
    ensures Sinking(d, SwapDown(row, l), k, l - 1)
  {
    var t := SwapDown(row, l);
    forall a, b | 0 <= a < b <= k && a != l - 1 && b != l - 1 ensures Before(d, t[a], t[b]) {
      assert t[a] == row[if a == l then l - 1 else a];
      assert t[b] == row[if b == l then l - 1 else b];
    }
  }

  lemma SinkEnds(d: Distance, row: seq<nat>, k: nat, l: nat)
    requires Sinking(d, row, k, l) && (l == 0 || d(row[l - 1]) <= d(row[l]))
    ensures Prefix(d, row, k + 1)
  {
    forall a, b | 0 <= a < b < k + 1 ensures Before(d, row[a], row[b]) {
      if b == l && a < l - 1 {
        assert Before(d, row[a], row[l - 1]);
      }
    }
  }

  // ---- a full row is a permutation -----------------------------------------------------------

  ghost predicate Permutation(row: seq<nat>) {
    NoDup(row) && forall v :: v in row <==> 0 <= v < |row|
  }

  lemma {:induction false} DistinctCovers(row: seq<nat>, n: nat, v: nat)
    requires NoDup(row) && |row| == n && v < n && forall x :: x in row ==> x < n
    ensures v in row
    decreases n
  {
    var top: nat := n - 1;
    if top in row {
      var rest: seq<nat> := Without<nat>(row, top);
      if v != top { DistinctCovers(rest, n - 1, v); }
    } else {
      Pigeonhole(row, n - 1);
    }
  }

  lemma PrefixIsPermutation(d: Distance, row: seq<nat>)
    requires Prefix(d, row, |row|)
    ensures Permutation(row)
  {
    forall i, j | 0 <= i < j < |row| ensures row[i] != row[j] { assert Before(d, row[i], row[j]); }
    forall v: nat | v < |row| ensures v in row { DistinctCovers(row, |row|, v); }
  }

  /** There is only one such row: the sort is the reference. */
  lemma {:induction false} RowUnique(d: Distance, a: seq<nat>, b: seq<nat>)
    requires |a| == |b| && SortedTo(d, a, |a|) && SortedTo(d, b, |b|) && forall v :: v in a <==> v in b
    ensures a == b
    decreases |a|
  {
    if a != [] {
      var n := |a| - 1;
      SameLast(d, a, b);
      var x := a[n];
      forall v ensures v in a[..n] <==> v in b[..n] {
        LastApart(d, a, v);
        LastApart(d, b, v);
      }
      RowUnique(d, a[..n], b[..n]);
      assert a == a[..n] + [x] && b == b[..n] + [x];
    }
  }

  lemma LastApart(d: Distance, a: seq<nat>, v: nat)
    requires a != [] && SortedTo(d, a, |a|)
    ensures v in a[..|a| - 1] <==> v in a && v != a[|a| - 1]
  {
    var n := |a| - 1;
    assert a == a[..n] + [a[n]];
    if v in a[..n] {
      var i :| 0 <= i < n && a[i] == v;
      assert Before(d, a[i], a[n]);
    }
  }

  lemma SameLast(d: Distance, a: seq<nat>, b: seq<nat>)
    requires |a| == |b| > 0 && SortedTo(d, a, |a|) && SortedTo(d, b, |b|) && forall v :: v in a <==> v in b
    ensures a[|a| - 1] == b[|b| - 1]
  {
    var n := |a| - 1;
    var x: nat, y: nat := a[n], b[n];
    assert x in a && y in b;
    var i :| 0 <= i <= n && b[i] == x;
    var j :| 0 <= j <= n && a[j] == y;
  }

  // ---- the program ---------------------------------------------------------------------------

  /** One row, sorted in place by insertion; the rest of the table is untouched. */
  method SortRow(dv: array<nat>, base: nat, nodes: nat, d: Distance)
    requires base + nodes <= dv.Length
    modifies dv
    ensures Prefix(d, dv[base..base + nodes], nodes)
    ensures dv[..base] == old(dv[..base]) && dv[base + nodes..] == old(dv[base + nodes..])
  {
    for k := 0 to nodes
      invariant forall a :: base <= a < base + k ==> dv[a] == a - base
      invariant dv[..base] == old(dv[..base]) && dv[base + nodes..] == old(dv[base + nodes..])
    {
      dv[base + k] := k;
    }
    ghost var row := dv[base..base + nodes];
    assert forall a :: 0 <= a < nodes ==> row[a] == a;
    var k: nat := 1;
    while k < nodes
      invariant Prefix(d, dv[base..base + nodes], if k <= nodes then k else nodes) && k >= 1
      invariant dv[..base] == old(dv[..base]) && dv[base + nodes..] == old(dv[base + nodes..])
    {
      Insert(dv, base, nodes, d, k);
      k := k + 1;
    }
  }

  /** The inner loop. */
  method Insert(dv: array<nat>, base: nat, nodes: nat, d: Distance, k: nat)
    requires base + nodes <= dv.Length && k < nodes && Prefix(d, dv[base..base + nodes], k)
    modifies dv
    ensures Prefix(d, dv[base..base + nodes], k + 1)
    ensures dv[..base] == old(dv[..base]) && dv[base + nodes..] == old(dv[base + nodes..])
  {
    var l: nat := k;
    SinkStarts(d, dv[base..base + nodes], k);
    while l > 0 && d(dv[base + l - 1]) > d(dv[base + l])
      invariant l <= k && Sinking(d, dv[base..base + nodes], k, l)
      invariant dv[..base] == old(dv[..base]) && dv[base + nodes..] == old(dv[base + nodes..])
    {
      ghost var row := dv[base..base + nodes];
      SinkStep(d, row, k, l);
      var temp := dv[base + l - 1];
      dv[base + l - 1] := dv[base + l];
      dv[base + l] := temp;
      assert dv[base..base + nodes] == SwapDown(row, l);
      l := l - 1;
    }
    SinkEnds(d, dv[base..base + nodes], k, l);
  }

  function RowAt(dv: seq<nat>, nodes: nat, j: nat): (row: seq<nat>)
    requires (j + 1) * nodes <= |dv|
    ensures |row| == nodes && forall i :: 0 <= i < nodes ==> j * nodes + i < |dv| && row[i] == dv[j * nodes + i]
  {
    assert j * nodes + nodes == (j + 1) * nodes;
    dv[j * nodes..j * nodes + nodes]
  }

  /** Row j is final: all nodes, each once, sorted by distance from j and then by number. */
  ghost predicate RowDone(dv: seq<nat>, nodes: nat, j: nat, dist: nat -> Distance) {
    && (j + 1) * nodes <= |dv|
    && Permutation(RowAt(dv, nodes, j)) && SortedTo(dist(j), RowAt(dv, nodes, j), nodes)
    && var d, row := dist(j), RowAt(dv, nodes, j);
    forall a, b :: 0 <= a < b < nodes ==> d(row[a]) < d(row[b]) || (d(row[a]) == d(row[b]) && row[a] < row[b])
  }

  lemma EarlierRow(old_: seq<nat>, dv: seq<nat>, nodes: nat, i: nat, j: nat, dist: nat -> Distance)
    requires i < j && j * nodes <= |dv| == |old_| && dv[..j * nodes] == old_[..j * nodes]
    requires RowDone(old_, nodes, i, dist)
    ensures RowDone(dv, nodes, i, dist)
  {
    RowEnds(nodes, i, j);
    SameSlice(dv, old_, j * nodes, i * nodes, i * nodes + nodes);
    assert RowAt(dv, nodes, i) == RowAt(old_, nodes, i);
  }

  lemma RowEnds(nodes: nat, i: nat, j: nat)
    requires i < j
    ensures i * nodes + nodes == (i + 1) * nodes <= j * nodes
  {
    assert j * nodes == (i + 1) * nodes + (j - i - 1) * nodes;
  }

  lemma SameSlice(x: seq<nat>, y: seq<nat>, cut: nat, a: nat, b: nat)
    requires a <= b <= cut <= |x| == |y| && x[..cut] == y[..cut]
    ensures x[a..b] == y[a..b]
  {
    assert x[a..b] == x[..cut][a..b] && y[a..b] == y[..cut][a..b];
  }

  lemma Fits(nodes: nat, j: nat)
    requires j < nodes
    ensures j * nodes + nodes == (j + 1) * nodes <= nodes * nodes
  {
  }

  /** The whole table, for any number of nodes and any distances. */
  method InitNumaDistanceVector(nodes: nat, dist: nat -> Distance) returns (dv: array<nat>)
    ensures dv.Length == nodes * nodes
    ensures forall j :: 0 <= j < nodes ==> RowDone(dv[..], nodes, j, dist)
  {
    dv := new nat[nodes * nodes];
    for j := 0 to nodes
      invariant forall i :: 0 <= i < j ==> RowDone(dv[..], nodes, i, dist)
    {
      Fits(nodes, j);
      ghost var before := dv[..];
      SortRow(dv, j * nodes, nodes, dist(j));
      assert RowAt(dv[..], nodes, j) == dv[j * nodes..j * nodes + nodes];
      PrefixIsPermutation(dist(j), RowAt(dv[..], nodes, j));
      assert dv[..][..j * nodes] == before[..j * nodes];
      forall i | 0 <= i < j ensures RowDone(dv[..], nodes, i, dist) {
        EarlierRow(before, dv[..], nodes, i, j, dist);
      }
    }
  }
}
