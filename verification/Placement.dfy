/** Two ways in which the cache records where a page is, and what each container update does
    to them. `at[p]` is the place page `p` claims for itself; the containers agree with the
    claims when every page is found exactly where it claims to be and nowhere else. */
module Placement {
  import opened Params
  import opened Fifo

  type PageId = nat
  datatype Key = Key(dev: nat, off: nat)

  // ---- families of lists -------------------------------------------------------------------

  ghost predicate Queued(qs: seq<seq<PageId>>, at: seq<Option<nat>>) {
    && (forall q :: 0 <= q < |qs| ==> NoDup(qs[q]))
    && (forall q, p {:trigger p in qs[q]} :: 0 <= q < |qs| && p in qs[q] ==> p < |at| && at[p] == Some(q))
    && (forall p :: 0 <= p < |at| && at[p].Some? ==> at[p].value < |qs| && p in qs[at[p].value])
  }

  lemma Append(qs: seq<seq<PageId>>, at: seq<Option<nat>>, q: nat, p: PageId)
    requires Queued(qs, at) && q < |qs| && p < |at| && at[p] == None
    ensures Queued(qs[q := qs[q] + [p]], at[p := Some(q)])
  {
    assert p !in qs[q];
    var qs1, at1 := qs[q := qs[q] + [p]], at[p := Some(q)];
    forall r, x | 0 <= r < |qs1| && x in qs1[r] ensures x < |at1| && at1[x] == Some(r) {
      assert (r == q && x == p) || x in qs[r];
    }
    forall x | 0 <= x < |at1| && at1[x].Some?
      ensures at1[x].value < |qs1| && x in qs1[at1[x].value]
    {
      assert x != p ==> at[x].Some?;
      assert qs1[q][|qs[q]|] == p;
    }
  }

  lemma Delete(qs: seq<seq<PageId>>, at: seq<Option<nat>>, q: nat, p: PageId)
    requires Queued(qs, at) && q < |qs| && p < |at| && at[p] == Some(q)
    ensures Queued(qs[q := Without(qs[q], p)], at[p := None])
  {
    var qs1, at1 := qs[q := Without(qs[q], p)], at[p := None];
    forall r, x | 0 <= r < |qs1| && x in qs1[r] ensures x < |at1| && at1[x] == Some(r) {
      assert x in qs[r];
    }
    forall x | 0 <= x < |at1| && at1[x].Some?
      ensures at1[x].value < |qs1| && x in qs1[at1[x].value]
    {
      assert x != p && at[x].Some?;
    }
  }

  lemma PopHead(qs: seq<seq<PageId>>, at: seq<Option<nat>>, q: nat)
    requires Queued(qs, at) && q < |qs| && qs[q] != []
    ensures qs[q][0] < |at| && Queued(qs[q := qs[q][1..]], at[qs[q][0] := None])
  {
    var h := qs[q][0];
    assert h in qs[q] && h < |at|;
    assert Without(qs[q], h) == qs[q][1..];
    Delete(qs, at, q, h);
  }

  lemma Rotate(qs: seq<seq<PageId>>, at: seq<Option<nat>>, q: nat)
    requires Queued(qs, at) && q < |qs| && qs[q] != []
    ensures Queued(qs[q := qs[q][1..] + [qs[q][0]]], at)
  {
    var h := qs[q][0];
    assert h in qs[q];
    PopHead(qs, at, q);
    var qs1, at1 := qs[q := qs[q][1..]], at[h := None];
    Append(qs1, at1, q, h);
    assert qs1[q := qs1[q] + [h]] == qs[q := qs[q][1..] + [h]];
    assert at1[h := Some(q)] == at;
  }

  // ---- families of sharded trees -----------------------------------------------------------

  ghost predicate Sharded(ms: seq<map<Key, PageId>>, at: seq<Option<Key>>) {
    && 0 < |ms|
    && (forall c, k {:trigger k in ms[c]} :: 0 <= c < |ms| && k in ms[c] ==>
          c == Shard(k.off, |ms|) && ms[c][k] < |at| && at[ms[c][k]] == Some(k))
    && (forall p :: 0 <= p < |at| && at[p].Some? ==>
          Has(ms, at[p].value) && Get(ms, at[p].value) == p)
  }

  predicate Has(ms: seq<map<Key, PageId>>, k: Key) {
    0 < |ms| && k in ms[Shard(k.off, |ms|)]
  }

  function Get(ms: seq<map<Key, PageId>>, k: Key): PageId
    requires Has(ms, k)
  {
    ms[Shard(k.off, |ms|)][k]
  }

  function Put(ms: seq<map<Key, PageId>>, k: Key, p: PageId): seq<map<Key, PageId>>
    requires 0 < |ms|
  {
    var c := Shard(k.off, |ms|);
    var m: map<Key, PageId> := ms[c][k := p];
    ms[c := m]
  }

  function Erase(ms: seq<map<Key, PageId>>, k: Key): seq<map<Key, PageId>>
    requires 0 < |ms|
  {
    var c := Shard(k.off, |ms|);
    ms[c := ms[c] - {k}]
  }

  lemma Insert(ms: seq<map<Key, PageId>>, at: seq<Option<Key>>, k: Key, p: PageId)
    requires Sharded(ms, at) && p < |at| && at[p] == None && !Has(ms, k)
    ensures Sharded(Put(ms, k, p), at[p := Some(k)])
  {
    var ms1, at1 := Put(ms, k, p), at[p := Some(k)];
    forall x | 0 <= x < |at1| && at1[x].Some?
      ensures Has(ms1, at1[x].value) && Get(ms1, at1[x].value) == x
    {
      assert x != p ==> at[x].Some? && Has(ms, at[x].value);
    }
    forall c, j: Key | 0 <= c < |ms1| && j in ms1[c]
      ensures c == Shard(j.off, |ms1|) && ms1[c][j] < |at1| && at1[ms1[c][j]] == Some(j)
    {
      assert j == k || j in ms[c];
    }
  }

  lemma Drop(ms: seq<map<Key, PageId>>, at: seq<Option<Key>>, k: Key, p: PageId)
    requires Sharded(ms, at) && p < |at| && at[p] == Some(k)
    ensures Sharded(Erase(ms, k), at[p := None])
  {
  }

  lemma HasAfter(ms: seq<map<Key, PageId>>, k: Key, p: PageId, j: Key)
    requires 0 < |ms|
    ensures Has(Put(ms, k, p), j) <==> Has(ms, j) || j == k
    ensures Has(Erase(ms, k), j) <==> Has(ms, j) && j != k
  {
  }
}
