/** When a step leaves page, device and the memory of last stores in agreement. */
module Coherence {
  import opened Placement
  import opened Lifecycle
  import opened Invariant

  /** The new record says no more about its block than the old one did. */
  predicate SameBlock(r: Page, r': Page) {
    && (Loaded(r'.phase) ==> Loaded(r.phase) && KeyOf(r') == KeyOf(r))
    && (InIndex(r'.phase) ==>
          && InIndex(r.phase) && KeyOf(r') == KeyOf(r)
          && (r'.valid ==> r.valid && r'.data == r.data)
          && (!MayLag(r') ==> !MayLag(r)))
  }

  /** The four aspects at once, for the steps that touch a block. */
  lemma Recall(s: State, mem: Memory)
    requires Coherent(s, mem)
    ensures forall p :: 0 <= p < |s.pages| ==> PageCoherent(s.pages[p], s.disk, mem)
    ensures forall k :: k in mem && !Has(s.rdx, k) ==> Block(s.disk, k) == mem[k]
    ensures forall k :: k in mem ==> Readable(s, k)
    ensures forall p :: 0 <= p < |s.pages| && Loaded(s.pages[p].phase) ==> Readable(s, KeyOf(s.pages[p]))
  {
    assert Agrees(PagesAgree, s, mem) && Agrees(DeviceAgrees, s, mem);
    assert Agrees(MemoryReadable, s, mem) && Agrees(LoadedReadable, s, mem);
  }

  lemma Establish(s: State, mem: Memory)
    requires forall p :: 0 <= p < |s.pages| ==> PageCoherent(s.pages[p], s.disk, mem)
    requires forall k :: k in mem && !Has(s.rdx, k) ==> Block(s.disk, k) == mem[k]
    requires forall k :: k in mem ==> Readable(s, k)
    requires forall p :: 0 <= p < |s.pages| && Loaded(s.pages[p].phase) ==> Readable(s, KeyOf(s.pages[p]))
    ensures Coherent(s, mem)
  {
  }

  lemma Quiet(s: State, s': State, mem: Memory, p: PageId, r: Page)
    requires Coherent(s, mem) && p < |s.pages| && s'.pages == s.pages[p := r]
    requires s'.rdx == s.rdx && s'.disk == s.disk && s'.bitmap == s.bitmap && s'.files == s.files
    requires SameBlock(s.pages[p], r)
    ensures Coherent(s', mem)
  {
    Recall(s, mem);
    forall x | 0 <= x < |s'.pages| ensures PageCoherent(s'.pages[x], s'.disk, mem) {
      assert PageCoherent(s.pages[x], s.disk, mem);
    }
    forall x | 0 <= x < |s'.pages| && Loaded(s'.pages[x].phase) ensures Readable(s', KeyOf(s'.pages[x])) {
      assert Loaded(s.pages[x].phase);
    }
    Establish(s', mem);
  }

  lemma QuietContainers(s: State, s': State, mem: Memory)
    requires Coherent(s, mem) && s'.pages == s.pages
    requires s'.rdx == s.rdx && s'.disk == s.disk && s'.bitmap == s.bitmap && s'.files == s.files
    ensures Coherent(s', mem)
  {
    Recall(s, mem);
    Establish(s', mem);
  }
}
