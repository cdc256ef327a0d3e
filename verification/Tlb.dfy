/** The table in which clear_mappings and remove_mappings collect, per address space, the range of
    addresses whose TLB entries must go. */
module Tlb {
  import opened Params
  import opened Counting

  const NO_SPACE: nat := 0

  datatype TlbEntry = TlbEntry(space: nat, start: nat, end: nat)

  /** One changed mapping: its address space and its page-aligned address. */
  datatype Change = Change(space: nat, addr: nat)

  function Spaces(log: seq<Change>): set<nat> { set c | c in log :: c.space }

  /** Of the addresses recorded for its space, `start` is the greatest and `end` the least. */
  ghost predicate Extremes(e: TlbEntry, log: seq<Change>) {
    && Change(e.space, e.start) in log && Change(e.space, e.end) in log
    && forall c :: c in log && c.space == e.space ==> e.end <= c.addr <= e.start
  }

  /** The address spaces of the first n entries. */
  function Listed(es: seq<TlbEntry>, n: nat): set<nat>
    requires n <= |es|
  {
    if n == 0 then {} else Listed(es, n - 1) + {es[n - 1].space}
  }

  /** The first n entries are the spaces of the log, each once; the rest are empty. */
  ghost predicate Tracks(es: seq<TlbEntry>, log: seq<Change>, n: nat) {
    && n <= |es| == 16 && n == |Spaces(log)|
    && Spaces(log) == Listed(es, n) && NO_SPACE !in Listed(es, n)
    && (forall k :: n <= k < |es| ==> es[k].space == NO_SPACE)
    && (forall k {:trigger Extremes(es[k], log)} :: 0 <= k < n ==> Extremes(es[k], log))
  }

  lemma {:induction false} ListedHas(es: seq<TlbEntry>, n: nat, s: nat)
    requires n <= |es|
    ensures s in Listed(es, n) <==> exists k :: 0 <= k < n && es[k].space == s
  {
    if n > 0 { ListedHas(es, n - 1, s); }
  }

  /** Entries that make up as many spaces as there are entries are of different spaces. */
  lemma {:induction false} ListedDistinct(es: seq<TlbEntry>, n: nat, i: nat, j: nat)
    requires n <= |es| && |Listed(es, n)| == n && i < j < n
    ensures es[i].space != es[j].space
  {
    ListedSize(es, n - 1);
    if j < n - 1 {
      ListedDistinct(es, n - 1, i, j);
    } else {
      ListedHas(es, n - 1, es[j].space);
    }
  }

  lemma {:induction false} ListedSize(es: seq<TlbEntry>, n: nat)
    requires n <= |es|
    ensures |Listed(es, n)| <= n
  {
    if n > 0 { ListedSize(es, n - 1); }
  }

  lemma {:induction false} ListedSame(es: seq<TlbEntry>, fs: seq<TlbEntry>, n: nat)
    requires n <= |es| && n <= |fs| && forall k :: 0 <= k < n ==> es[k].space == fs[k].space
    ensures Listed(es, n) == Listed(fs, n)
  {
    if n > 0 { ListedSame(es, fs, n - 1); }
  }

  function Widened(e: TlbEntry, a: nat): TlbEntry {
    TlbEntry(e.space, if a > e.start then a else e.start, if a < e.end then a else e.end)
  }

  lemma SpacesAppend(log: seq<Change>, c: Change)
    ensures Spaces(log + [c]) == Spaces(log) + {c.space}
  {
    var more := log + [c];
    assert c in more && forall d :: d in log ==> d in more;
    forall s | s in Spaces(log) ensures s in Spaces(more) {
      var d :| d in log && d.space == s;
      assert d in more;
    }
  }

  lemma WidenOne(e: TlbEntry, log: seq<Change>, c: Change)
    requires Extremes(e, log)
    ensures Extremes(if c.space == e.space then Widened(e, c.addr) else e, log + [c])
  {
    var more := log + [c];
    assert c in more && forall d :: d in log ==> d in more;
    forall d | d in more ensures d in log || d == c {
    }
  }

  /** A change of a space already in the table. */
  lemma TracksWidened(es: seq<TlbEntry>, log: seq<Change>, n: nat, c: Change, k: nat)
    requires Tracks(es, log, n) && k < n && es[k].space == c.space
    ensures Tracks(es[k := Widened(es[k], c.addr)], log + [c], n)
  {
    var es', more := es[k := Widened(es[k], c.addr)], log + [c];
    SpacesAppend(log, c);
    ListedHas(es, n, c.space);
    assert Spaces(more) == Spaces(log);
    ListedSame(es, es', n);
    forall i | 0 <= i < n ensures Extremes(es'[i], more) {
      assert Extremes(es[i], log);
      WidenOne(es[i], log, c);
      if i != k { DifferentSpaces(es, log, n, i, k); }
    }
  }

  lemma DifferentSpaces(es: seq<TlbEntry>, log: seq<Change>, n: nat, i: nat, j: nat)
    requires Tracks(es, log, n) && i < n && j < n && i != j
    ensures es[i].space != es[j].space
  {
    if i < j { ListedDistinct(es, n, i, j); } else { ListedDistinct(es, n, j, i); }
  }

  /** A change of a new space, which takes the first empty entry. */
  lemma TracksNew(es: seq<TlbEntry>, log: seq<Change>, n: nat, c: Change)
    requires Tracks(es, log, n) && n < |es| && c.space != NO_SPACE && c.space !in Spaces(log)
    ensures Tracks(es[n := TlbEntry(c.space, c.addr, c.addr)], log + [c], n + 1)
  {
    var es', more := es[n := TlbEntry(c.space, c.addr, c.addr)], log + [c];
    SpacesAppend(log, c);
    ListedSame(es, es', n);
    forall i | 0 <= i < n + 1 ensures Extremes(es'[i], more) {
      if i < n {
        assert Extremes(es[i], log);
        ListedHas(es, n, es[i].space);
        WidenOne(es[i], log, c);
      } else {
        NewExtremes(log, c);
      }
    }
  }

  lemma NewExtremes(log: seq<Change>, c: Change)
    requires c.space !in Spaces(log)
    ensures Extremes(TlbEntry(c.space, c.addr, c.addr), log + [c])
  {
    var more := log + [c];
    assert more[|log|] == c;
    forall d | d in more && d.space == c.space ensures d == c {
      assert d in log ==> d.space in Spaces(log);
    }
  }

  lemma UsedEntries(es: seq<TlbEntry>, log: seq<Change>, n: nat)
    requires Tracks(es, log, n)
    ensures forall k :: 0 <= k < n ==> es[k].space != NO_SPACE
  {
    forall k | 0 <= k < n ensures es[k].space != NO_SPACE { ListedHas(es, n, es[k].space); }
  }

  /** Recording one change. It stays inside the table exactly when the address spaces still fit its 16
      entries; for a seventeenth no entry is left, and the source goes on to write in front of the
      table, which the model reports instead of doing. */
  method Record(etlb: array<TlbEntry>, c: Change, ghost log: seq<Change>, ghost n: nat)
      returns (inBounds: bool, ghost n': nat)
    requires Tracks(etlb[..], log, n) && c.space != NO_SPACE
    modifies etlb
    ensures inBounds <==> |Spaces(log + [c])| <= 16
    ensures if inBounds then Tracks(etlb[..], log + [c], n') else etlb[..] == old(etlb[..])
  {
    var empty: int := -1;
    ghost var es := etlb[..];
    assert forall i :: 0 <= i < etlb.Length ==> etlb[i] == es[i];
    inBounds, n' := true, n;
    UsedEntries(es, log, n);
    SpacesAppend(log, c);
    for k := 0 to ETLB_ENTRIES
      invariant etlb[..] == es && forall i :: 0 <= i < k ==> es[i].space != c.space
      invariant empty == if k <= n then -1 else n as int
    {
      if etlb[k].space == c.space {
        KnownSpace(es, log, n, c, k);
        TracksWidened(es, log, n, c, k);
        etlb[k] := Widened(etlb[k], c.addr);
        assert etlb[..] == es[k := Widened(es[k], c.addr)];
        return;
      }
      if etlb[k].space == NO_SPACE && empty == -1 { empty := k; }
    }
    ListedHas(es, n, c.space);
    if empty == -1 {
      inBounds := false;
      return;
    }
    TracksNew(es, log, n, c);
    etlb[empty] := TlbEntry(c.space, c.addr, c.addr);
    assert etlb[..] == es[n := TlbEntry(c.space, c.addr, c.addr)];
    n' := n + 1;
  }

  lemma KnownSpace(es: seq<TlbEntry>, log: seq<Change>, n: nat, c: Change, k: nat)
    requires Tracks(es, log, n) && k < |es| && es[k].space == c.space != NO_SPACE
    ensures k < n && Spaces(log + [c]) == Spaces(log)
  {
    SpacesAppend(log, c);
    ListedHas(es, n, c.space);
  }

  lemma {:induction false} SpacesGrow(log: seq<Change>, i: nat)
    requires i <= |log|
    ensures Spaces(log[..i]) <= Spaces(log)
  {
    forall s | s in Spaces(log[..i]) ensures s in Spaces(log) {
      var d :| d in log[..i] && d.space == s;
      assert d in log;
    }
  }

  /** A whole batch: it stays inside the table exactly when it touches at most 16 address spaces, and
      then each has its one entry with its extremes. */
  method Collect(log: seq<Change>) returns (etlb: array<TlbEntry>, inBounds: bool)
    requires forall c :: c in log ==> c.space != NO_SPACE
    ensures inBounds <==> |Spaces(log)| <= 16
    ensures inBounds ==> Tracks(etlb[..], log, |Spaces(log)|)
  {
    etlb := new TlbEntry[ETLB_ENTRIES](_ => TlbEntry(NO_SPACE, 0, 0xFFFF_FFFF));
    ghost var n := 0;
    assert log[..0] == [];
    for i := 0 to |log|
      invariant fresh(etlb) && Tracks(etlb[..], log[..i], n)
    {
      assert log[..i + 1] == log[..i] + [log[i]];
      SpacesGrow(log, i + 1);
      SubsetSize(Spaces(log[..i + 1]), Spaces(log));
      inBounds, n := Record(etlb, log[i], log[..i], n);
      if !inBounds { return; }
    }
    assert log[..|log|] == log;
    inBounds := true;
  }

  // ---- what a flush covers -------------------------------------------------------------------

  predicate InRange(lo: nat, hi: nat, c: Change) { lo <= c.addr && c.addr + 4096 <= hi }

  /** Each space has one entry, and from its least to its greatest address every changed mapping of
      the space is covered. */
  lemma RangeCovers(es: seq<TlbEntry>, log: seq<Change>, n: nat, c: Change)
    requires Tracks(es, log, n) && c in log
    ensures exists k :: 0 <= k < n && es[k].space == c.space && InRange(es[k].end, es[k].start + 4096, c)
    ensures forall i, j :: 0 <= i < j < n ==> es[i].space != es[j].space
  {
    assert c.space in Spaces(log);
    ListedHas(es, n, c.space);
    var k :| 0 <= k < n && es[k].space == c.space;
    assert Extremes(es[k], log);
    forall i, j | 0 <= i < j < n ensures es[i].space != es[j].space { DifferentSpaces(es, log, n, i, j); }
  }

  /** The flush passes (start, end + PAGE_SIZE), greatest address first. It covers the changes of
      the space if and only if they are all at one address. */
  lemma FlushExact(es: seq<TlbEntry>, log: seq<Change>, n: nat, k: nat)
    requires Tracks(es, log, n) && k < n
    ensures (forall c :: c in log && c.space == es[k].space ==> InRange(es[k].start, es[k].end + 4096, c)) <==>
            (forall c, d :: c in log && d in log && c.space == es[k].space == d.space ==> c.addr == d.addr)
  {
    var e := es[k];
    assert Extremes(e, log);
    var top, bottom := Change(e.space, e.start), Change(e.space, e.end);
    if forall c :: c in log && c.space == e.space ==> InRange(e.start, e.end + 4096, c) {
      assert InRange(e.start, e.end + 4096, bottom);
    }
    if forall c, d :: c in log && d in log && c.space == e.space == d.space ==> c.addr == d.addr {
      assert top.addr == bottom.addr;
    }
  }

  /** As soon as a space has changes at two addresses, no change of it at all is in the range that is
      flushed. */
  lemma FlushMisses(es: seq<TlbEntry>, log: seq<Change>, n: nat, k: nat)
    requires Tracks(es, log, n) && k < n
    requires exists c, d :: c in log && d in log && c.space == es[k].space == d.space && c.addr != d.addr
    ensures es[k].end < es[k].start
    ensures forall c :: c in log && c.space == es[k].space ==> !InRange(es[k].start, es[k].end + 4096, c)
  {
    var e := es[k];
    assert Extremes(e, log);
    var c, d :| c in log && d in log && c.space == e.space == d.space && c.addr != d.addr;
    assert e.end <= c.addr <= e.start && e.end <= d.addr <= e.start;
  }
}
