/** The array min-heap of write_dirty_pages.c, ordered by page offset. */
module MinHeap {
  import opened Params

  datatype Node = Node(cpu: nat, offset: nat, page: nat)

  function Parent(i: int): int
    requires i > 0
  {
    (i - 1) / 2
  }

  /** The edge from node j up to its parent is in order. */
  predicate Edge(s: seq<Node>, j: int)
    requires 0 < j < |s|
  {
    s[Parent(j)].offset <= s[j].offset
  }

  predicate Ordered(s: seq<Node>) {
    forall j :: 0 < j < |s| ==> Edge(s, j)
  }

  /** Node j, a child of i, would be in order right below the parent of i. */
  predicate Bridged(s: seq<Node>, i: int, j: int)
    requires 0 < i < |s| && 0 < j < |s|
  {
    Parent(j) == i ==> s[Parent(i)].offset <= s[j].offset
  }

  function Swap(s: seq<Node>, i: nat, j: nat): (r: seq<Node>)
    requires i < |s| && j < |s|
    ensures |r| == |s| && multiset(r) == multiset(s)
  {
    s[i := s[j]][j := s[i]]
  }

  // ---- moving a hole up ----------------------------------------------------------------------

  /** Ordered but for the edge above i, whose neighbours would be ordered without it. */
  predicate OrderedAbove(s: seq<Node>, i: nat) {
    && (forall j :: 0 < j < |s| && j != i ==> Edge(s, j))
    && (0 < i < |s| ==> forall j :: 0 < j < |s| ==> Bridged(s, i, j))
  }

  lemma HoleUp(s: seq<Node>, i: nat)
    requires 0 < i < |s| && OrderedAbove(s, i) && s[i].offset < s[Parent(i)].offset
    ensures OrderedAbove(Swap(s, i, Parent(i)), Parent(i))
  {
    var p, t := Parent(i), Swap(s, i, Parent(i));
    forall j | 0 < j < |t| && j != p ensures Edge(t, j) {
      assert j != i ==> Edge(s, j) && Bridged(s, i, j);
    }
    if 0 < p {
      forall j | 0 < j < |t| ensures Bridged(t, p, j) {
        assert Edge(s, p);
        assert j != i ==> Edge(s, j);
      }
    }
  }

  /** A new last node can be out of order only above. */
  lemma HoleAtEnd(s: seq<Node>, n: Node)
    requires Ordered(s)
    ensures OrderedAbove(s + [n], |s|) && multiset(s + [n]) == multiset(s) + multiset{n}
  {
    forall j | 0 < j < |s| ensures Edge(s + [n], j) { assert Edge(s, j); }
  }

  lemma HoleFilled(s: seq<Node>, i: nat)
    requires i < |s| && OrderedAbove(s, i) && (i == 0 || s[Parent(i)].offset <= s[i].offset)
    ensures Ordered(s)
  {
    forall j | 0 < j < |s| ensures Edge(s, j) { assert j != i ==> Edge(s, j); }
  }

  /** Where the climb of node i ends. */
  function SiftUp(s: seq<Node>, i: nat): (r: seq<Node>)
    requires i < |s|
    ensures |r| == |s|
    decreases i
  {
    if i > 0 && s[i].offset < s[Parent(i)].offset then SiftUp(Swap(s, i, Parent(i)), Parent(i)) else s
  }

  lemma {:induction false} SiftUpOrders(s: seq<Node>, i: nat)
    requires i < |s| && OrderedAbove(s, i)
    ensures Ordered(SiftUp(s, i)) && multiset(SiftUp(s, i)) == multiset(s)
    decreases i
  {
    if i > 0 && s[i].offset < s[Parent(i)].offset {
      HoleUp(s, i);
      SiftUpOrders(Swap(s, i, Parent(i)), Parent(i));
    } else {
      HoleFilled(s, i);
    }
  }

  // ---- moving a node down --------------------------------------------------------------------

  /** Ordered but for the edges below i, whose neighbours would be ordered without it. */
  predicate OrderedBelow(s: seq<Node>, i: nat) {
    && (forall j :: 0 < j < |s| ==> Parent(j) == i || Edge(s, j))
    && (0 < i < |s| ==> forall j :: 0 < j < |s| ==> Bridged(s, i, j))
  }

  /** c is a child of i with an offset below that of i and not above that of its sibling. */
  predicate SmallestChild(s: seq<Node>, i: nat, c: nat) {
    && 0 < c < |s| && Parent(c) == i && i < |s| && s[c].offset < s[i].offset
    && forall j :: 0 < j < |s| && Parent(j) == i ==> s[c].offset <= s[j].offset
  }

  lemma SinkOne(s: seq<Node>, i: nat, c: nat)
    requires OrderedBelow(s, i) && SmallestChild(s, i, c)
    ensures OrderedBelow(Swap(s, i, c), c)
  {
    var t := Swap(s, i, c);
    forall j | 0 < j < |t| ensures Parent(j) == c || Edge(t, j) {
      assert Parent(j) == i || Edge(s, j);
      assert 0 < i ==> Bridged(s, i, c);
    }
    forall j | 0 < j < |t| ensures Bridged(t, c, j) {
      assert Parent(j) == i || Edge(s, j);
    }
  }

  /** The node that heapify picks among i and its children. */
  function Smallest(s: seq<Node>, i: nat): (c: nat)
    requires i < |s|
    ensures c < |s| && (c == i || c == 2 * i + 1 || c == 2 * i + 2)
  {
    var l, r := 2 * i + 1, 2 * i + 2;
    var c := if l < |s| && s[l].offset < s[i].offset then l else i;
    if r < |s| && s[r].offset < s[c].offset then r else c
  }

  lemma SmallestIs(s: seq<Node>, i: nat)
    requires i < |s| && OrderedBelow(s, i)
    ensures if Smallest(s, i) == i then Ordered(s) else SmallestChild(s, i, Smallest(s, i))
  {
    var c := Smallest(s, i);
    forall j | 0 < j < |s| && Parent(j) == i ensures s[c].offset <= s[j].offset {
      assert j == 2 * i + 1 || j == 2 * i + 2;
    }
    if c == i {
      forall j | 0 < j < |s| ensures Edge(s, j) { assert Parent(j) == i || Edge(s, j); }
    }
  }

  /** The root of an ordered heap has a least offset. */
  lemma {:induction false} RootIsLeast(s: seq<Node>, j: nat)
    requires Ordered(s) && j < |s|
    ensures s[0].offset <= s[j].offset
  {
    if j > 0 {
      assert Edge(s, j);
      RootIsLeast(s, Parent(j));
    }
  }

  // ---- the heap ------------------------------------------------------------------------------

  class Heap {
    const nodes: array<Node>
    var size: nat

    ghost predicate Shaped() reads this { nodes.Length == MAX_CPUS && size <= MAX_CPUS }

    ghost predicate Valid() reads this, nodes { Shaped() && Ordered(nodes[..size]) }

    ghost function Contents(): multiset<Node>
      requires Shaped()
      reads this, nodes
    {
      multiset(nodes[..size])
    }

    constructor ()
      ensures Valid() && size == 0 && fresh(nodes)
    {
      nodes := new Node[MAX_CPUS](_ => Node(0, 0, 0));
      size := 0;
    }

    /** The loop of min_heap_insert: parents move down into the hole at i until n fits there. */
    method FillHole(hole: nat, n: Node)
      requires Shaped() && hole < size
      modifies nodes
      ensures nodes[..size] == SiftUp(old(nodes[..size])[hole := n], hole)
    {
      var i: nat := hole;
      ghost var t := nodes[..size][i := n];
      ghost var final := SiftUp(t, i);
      while i > 0 && n.offset < nodes[Parent(i)].offset
        invariant i < size && nodes[..size][i := n] == t && SiftUp(t, i) == final
      {
        ghost var s := nodes[..size];
        var p := Parent(i);
        HoleMoves(s, i, p, n);
        t := Swap(t, i, p);
        nodes[i] := nodes[p];
        assert nodes[..size] == s[i := s[p]];
        i := p;
      }
      HoleStays(nodes[..size], i, n);
      nodes[i] := n;
      assert nodes[..size] == t;
    }

    /** Every heap below capacity takes one more node. */
    method Insert(n: Node)
      requires Valid() && size < 64
      modifies this, nodes
      ensures Valid() && size == old(size) + 1
      ensures Contents() == old(Contents()) + multiset{n}
    {
      ghost var s := nodes[..size];
      size := size + 1;
      Inserted(s, n);
      assert nodes[..size][size - 1 := n] == s + [n];
      FillHole(size - 1, n);
    }

    /** The smallest of a node and its children. */
    method FindSmallest(i: nat) returns (smallest: nat)
      requires Shaped() && i < size
      ensures smallest == Smallest(nodes[..size], i) && smallest < size
    {
      var l, r := 2 * i + 1, 2 * i + 2;
      smallest := if l < size && nodes[l].offset < nodes[i].offset then l else i;
      if r < size && nodes[r].offset < nodes[smallest].offset {
        smallest := r;
      }
    }

    /** min_heap_heapify: restores the order below i and changes nothing but the order. */
    method Heapify(i: nat)
      requires Shaped() && (i < size || size == 0) && OrderedBelow(nodes[..size], i)
      modifies nodes
      ensures Valid() && Contents() == old(Contents())
      decreases size - i
    {
      if size == 0 { return; }
      var smallest := FindSmallest(i);
      ghost var s := nodes[..size];
      SmallestIs(s, i);
      if smallest != i {
        SinkOne(s, i, smallest);
        nodes[i], nodes[smallest] := nodes[smallest], nodes[i];
        assert nodes[..size] == Swap(s, i, smallest);
        Heapify(smallest);
      }
    }

    /** Takes out a node of least offset. */
    method DeleteMin() returns (n: Node)
      requires Valid() && size > 0
      modifies this, nodes
      ensures Valid() && size == old(size) - 1
      ensures n in old(Contents()) && Contents() == old(Contents()) - multiset{n}
      ensures forall m :: m in old(Contents()) ==> n.offset <= m.offset
    {
      ghost var s := nodes[..size];
      LeastOfAll(s);
      LastToRoot(s);
      n := nodes[0];
      LastUp(s);
      Heapify(0);
    }

    /** The last node takes the place of the root. */
    method LastUp(ghost s: seq<Node>)
      requires Shaped() && size > 0 && s == nodes[..size]
      modifies this, nodes
      ensures Shaped() && size == old(size) - 1 && nodes[..size] == WithoutRoot(s)
    {
      size := size - 1;
      nodes[0] := nodes[size];
    }
  }

  /** Moving a parent down into the hole is swapping it with the node that is to go there. */
  lemma HoleMoves(s: seq<Node>, i: nat, p: nat, n: Node)
    requires 0 < i < |s| && p == Parent(i) && n.offset < s[p].offset
    ensures s[i := s[p]][p := n] == Swap(s[i := n], i, p)
    ensures SiftUp(s[i := n], i) == SiftUp(Swap(s[i := n], i, p), p)
  {
  }

  lemma HoleStays(s: seq<Node>, i: nat, n: Node)
    requires i < |s| && (i == 0 || s[Parent(i)].offset <= n.offset)
    ensures SiftUp(s[i := n], i) == s[i := n]
  {
  }

  lemma Inserted(s: seq<Node>, n: Node)
    requires Ordered(s)
    ensures Ordered(SiftUp(s + [n], |s|)) && multiset(SiftUp(s + [n], |s|)) == multiset(s) + multiset{n}
  {
    HoleAtEnd(s, n);
    SiftUpOrders(s + [n], |s|);
  }

  lemma LeastOfAll(s: seq<Node>)
    requires |s| > 0 && Ordered(s)
    ensures s[0] in multiset(s) && forall m :: m in multiset(s) ==> s[0].offset <= m.offset
  {
    forall m | m in multiset(s) ensures s[0].offset <= m.offset {
      var j :| 0 <= j < |s| && s[j] == m;
      RootIsLeast(s, j);
    }
  }

  /** The heap after its last node has been moved to the root. */
  function WithoutRoot(s: seq<Node>): (t: seq<Node>)
    requires |s| > 0
    ensures |t| == |s| - 1
  {
    var n := |s| - 1;
    if n == 0 then [] else [s[n]] + s[1..n]
  }

  lemma RootAndLast(s: seq<Node>)
    requires |s| > 1
    ensures var n := |s| - 1; multiset([s[n]] + s[1..n]) == multiset(s) - multiset{s[0]}
  {
    var n := |s| - 1;
    assert s == [s[0]] + s[1..n] + [s[n]];
  }

  /** Replacing the root by the last node breaks only the edges below the root. */
  lemma LastToRoot(s: seq<Node>)
    requires |s| > 0 && Ordered(s)
    ensures OrderedBelow(WithoutRoot(s), 0) && multiset(WithoutRoot(s)) == multiset(s) - multiset{s[0]}
  {
    var n := |s| - 1;
    if n > 0 {
      var t := [s[n]] + s[1..n];
      RootAndLast(s);
      forall j | 0 < j < |t| ensures Parent(j) == 0 || Edge(t, j) { assert Edge(s, j); }
    }
  }
}
