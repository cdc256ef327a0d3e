/** What sweeping over a batch does to the lists: some pages leave and some join at the tail, and all
    others keep their order. */
module ListOrder {
  import opened Fifo
  import opened Placement
  import opened Lifecycle

  /** The elements of `l` that are not in `b`, in order. */
  function Except(l: seq<PageId>, b: seq<PageId>): (r: seq<PageId>)
    ensures forall y: PageId :: y in r <==> y in l && y !in b
  {
    if l == [] then []
    else
      assert l == [l[0]] + l[1..];
      (if l[0] in b then [] else [l[0]]) + Except(l[1..], b)
  }

  lemma ExceptCons(x: PageId, l: seq<PageId>, b: seq<PageId>)
    ensures Except([x] + l, b) == (if x in b then [] else [x]) + Except(l, b)
  {
    assert ([x] + l)[1..] == l;
  }

  lemma {:induction false} ExceptSame(l: seq<PageId>, b: seq<PageId>, c: seq<PageId>)
    requires forall x: PageId :: x in l ==> (x in b <==> x in c)
    ensures Except(l, b) == Except(l, c)
  {
    if l != [] {
      assert forall x: PageId :: x in l[1..] ==> x in l;
      ExceptSame(l[1..], b, c);
    }
  }

  lemma {:induction false} ExceptOfNone(l: seq<PageId>)
    ensures Except(l, []) == l
  {
    if l != [] { ExceptOfNone(l[1..]); }
  }

  lemma {:induction false} ExceptTwice(l: seq<PageId>, b: seq<PageId>, c: seq<PageId>, d: seq<PageId>)
    requires forall x: PageId :: x in d <==> x in b || x in c
    ensures Except(Except(l, b), c) == Except(l, d)
  {
    if l != [] {
      var x, rest := l[0], Except(l[1..], b);
      ExceptTwice(l[1..], b, c, d);
      ExceptCons(x, rest, c);
      assert Except(l, b) == if x in b then rest else [x] + rest;
    }
  }

  lemma {:induction false} ExceptOn(l: seq<PageId>, m: seq<PageId>, b: seq<PageId>)
    ensures Except(l + m, b) == Except(l, b) + Except(m, b)
  {
    if l == [] {
      assert l + m == m;
    } else {
      assert l + m == [l[0]] + (l[1..] + m);
      ExceptCons(l[0], l[1..] + m, b);
      ExceptOn(l[1..], m, b);
    }
  }

  /** Deleting one element of a list without duplicates. */
  lemma {:induction false} WithoutIsExcept(l: seq<PageId>, x: PageId)
    requires NoDup(l)
    ensures Without(l, x) == Except(l, [x])
  {
    if l != [] {
      assert NoDup(l[1..]);
      if l[0] == x {
        ExceptSame(l[1..], [x], []);
        ExceptOfNone(l[1..]);
      } else {
        WithoutIsExcept(l[1..], x);
      }
    }
  }

  /** Those of the pages that belong in clean FIFO q, in order. */
  function Placed(pages: seq<Page>, b: seq<PageId>, q: nat): (r: seq<PageId>)
    ensures forall p: PageId :: p in r ==> p in b
  {
    if b == [] then []
    else
      var n := |b| - 1;
      Placed(pages, b[..n], q) + if b[n] < |pages| && pages[b[n]].index % 32 == q then [b[n]] else []
  }

  lemma {:induction false} PlacedSame(pages: seq<Page>, pages': seq<Page>, b: seq<PageId>, q: nat)
    requires |pages| == |pages'|
    requires forall i :: 0 <= i < |b| && b[i] < |pages| ==> pages'[b[i]].index == pages[b[i]].index
    ensures Placed(pages, b, q) == Placed(pages', b, q)
    decreases |b|
  {
    if b != [] { PlacedSame(pages, pages', b[..|b| - 1], q); }
  }

  lemma PlacedSnoc(pages: seq<Page>, b: seq<PageId>, p: PageId, q: nat)
    ensures Placed(pages, b + [p], q) ==
            Placed(pages, b, q) + if p < |pages| && pages[p].index % 32 == q then [p] else []
  {
    assert (b + [p])[..|b|] == b;
  }

  lemma {:induction false} PlacedOn(pages: seq<Page>, a: seq<PageId>, b: seq<PageId>, q: nat)
    ensures Placed(pages, a + b, q) == Placed(pages, a, q) + Placed(pages, b, q)
    decreases |b|
  {
    if b == [] {
      assert a + b == a;
    } else {
      var n := |b| - 1;
      assert a + b == (a + b[..n]) + [b[n]];
      PlacedSnoc(pages, a + b[..n], b[n], q);
      PlacedOn(pages, a, b[..n], q);
    }
  }

  /** Each queue has the pages of b that belong in it at its tail, in the order of b. */
  ghost predicate TailGains(fs: seq<Queue<PageId>>, fs': seq<Queue<PageId>>, pages: seq<Page>, b: seq<PageId>) {
    |fs'| == |fs| && forall q :: 0 <= q < |fs| ==> fs'[q].items == fs[q].items + Placed(pages, b, q)
  }

  /** Each queue has lost the pages of b; the others keep their order. */
  ghost predicate QueuesLose(fs: seq<Queue<PageId>>, fs': seq<Queue<PageId>>, b: seq<PageId>) {
    |fs'| == |fs| && forall q :: 0 <= q < |fs| ==> fs'[q].items == Except(fs[q].items, b)
  }

  lemma TailGainsNothing(fs: seq<Queue<PageId>>, pages: seq<Page>)
    ensures TailGains(fs, fs, pages, [])
  {
  }

  lemma TailGainsNext(fs: seq<Queue<PageId>>, fs1: seq<Queue<PageId>>, fs2: seq<Queue<PageId>>, pages: seq<Page>,
                   b: seq<PageId>, p: PageId)
    requires TailGains(fs, fs1, pages, b) && p < |pages| && pages[p].index % 32 < |fs| && |fs2| == |fs1|
    requires var q := pages[p].index % 32; fs2 == fs1[q := fs2[q]] && fs2[q].items == fs1[q].items + [p]
    ensures TailGains(fs, fs2, pages, b + [p])
  {
    forall q | 0 <= q < |fs| ensures fs2[q].items == fs[q].items + Placed(pages, b + [p], q) {
      PlacedSnoc(pages, b, p, q);
    }
  }

  lemma TailGainsOn(fs: seq<Queue<PageId>>, fs1: seq<Queue<PageId>>, fs2: seq<Queue<PageId>>, pages: seq<Page>,
                 pages1: seq<Page>, a: seq<PageId>, b: seq<PageId>)
    requires TailGains(fs, fs1, pages, a) && TailGains(fs1, fs2, pages1, b) && |pages| == |pages1|
    requires forall i :: 0 <= i < |b| && b[i] < |pages| ==> pages1[b[i]].index == pages[b[i]].index
    ensures TailGains(fs, fs2, pages, a + b)
  {
    forall q | 0 <= q < |fs| ensures fs2[q].items == fs[q].items + Placed(pages, a + b, q) {
      PlacedSame(pages, pages1, b, q);
      PlacedOn(pages, a, b, q);
    }
  }

  lemma TailGainsSame(fs: seq<Queue<PageId>>, fs': seq<Queue<PageId>>, pages: seq<Page>, pages': seq<Page>,
                      b: seq<PageId>)
    requires TailGains(fs, fs', pages, b) && |pages| == |pages'|
    requires forall i :: 0 <= i < |b| && b[i] < |pages| ==> pages'[b[i]].index == pages[b[i]].index
    ensures TailGains(fs, fs', pages', b)
  {
    forall q | 0 <= q < |fs| ensures fs'[q].items == fs[q].items + Placed(pages', b, q) {
      PlacedSame(pages, pages', b, q);
    }
  }

  lemma QueuesLoseNothing(fs: seq<Queue<PageId>>)
    ensures QueuesLose(fs, fs, [])
  {
    forall q | 0 <= q < |fs| ensures fs[q].items == Except(fs[q].items, []) { ExceptOfNone(fs[q].items); }
  }

  lemma QueuesLoseOn(fs: seq<Queue<PageId>>, fs1: seq<Queue<PageId>>, fs2: seq<Queue<PageId>>, a: seq<PageId>,
                     b: seq<PageId>)
    requires QueuesLose(fs, fs1, a) && QueuesLose(fs1, fs2, b)
    ensures QueuesLose(fs, fs2, a + b)
  {
    forall q | 0 <= q < |fs| ensures fs2[q].items == Except(fs[q].items, a + b) {
      ExceptTwice(fs[q].items, a, b, a + b);
    }
  }

  /** A page leaves the one queue it is in. */
  lemma QueuesLoseOne(fs: seq<Queue<PageId>>, fs': seq<Queue<PageId>>, e: nat, p: PageId)
    requires e < |fs| && fs' == fs[e := Remove(fs[e], p)] && NoDup(fs[e].items)
    requires forall q :: 0 <= q < |fs| && q != e ==> p !in fs[q].items
    ensures QueuesLose(fs, fs', [p])
  {
    forall q | 0 <= q < |fs| ensures fs'[q].items == Except(fs[q].items, [p]) {
      if q == e {
        WithoutIsExcept(fs[e].items, p);
      } else {
        ExceptSame(fs[q].items, [p], []);
        ExceptOfNone(fs[q].items);
      }
    }
  }

  /** What joined and then left again has left no trace. */
  lemma GainsThenLoses(fs: seq<Queue<PageId>>, fs1: seq<Queue<PageId>>, fs2: seq<Queue<PageId>>, pages: seq<Page>,
                   a: seq<PageId>, b: seq<PageId>)
    requires TailGains(fs, fs1, pages, a) && QueuesLose(fs1, fs2, b) && forall p: PageId :: p in a ==> p in b
    ensures QueuesLose(fs, fs2, b)
  {
    forall q | 0 <= q < |fs| ensures fs2[q].items == Except(fs[q].items, b) {
      ExceptOn(fs[q].items, Placed(pages, a, q), b);
      NothingExcept(Placed(pages, a, q), b);
    }
  }

  lemma {:induction false} NothingExcept(l: seq<PageId>, b: seq<PageId>)
    requires forall x: PageId :: x in l ==> x in b
    ensures Except(l, b) == []
  {
    if l != [] {
      assert forall x: PageId :: x in l[1..] ==> x in l;
      NothingExcept(l[1..], b);
    }
  }
}
