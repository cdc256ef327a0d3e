/** Reverse mappings: each page has three packed slots, and every VMA entry keeps per-CPU lists of
    the slots that map it. dmap_add_or_update_rmap, remove_mappings and pop_one_pvr keep the two in
    agreement. */
module ReverseMap {
  import opened Params
  import opened Fifo
  import opened Packed

  datatype SlotId = SlotId(page: nat, i: nat)
  datatype ListId = ListId(vma: Word, cpu: Word)

  type View = seq<seq<Fields>>
  type Lists = map<ListId, seq<SlotId>>

  function ListAt(lists: Lists, id: ListId): seq<SlotId> { if id in lists then lists[id] else [] }

  predicate Linked(lists: Lists, id: ListId, x: SlotId) { x in ListAt(lists, id) }

  predicate Known(v: View, x: SlotId) { x.page < |v| && x.i < |v[x.page]| }

  function At(v: View, x: SlotId): Fields
    requires Known(v, x)
  {
    v[x.page][x.i]
  }

  function Home(f: Fields): ListId { ListId(f.vma, f.cpu) }

  predicate Same(a: Fields, b: Fields) { a.valid && b.valid && a.vma == b.vma }

  /** The index field of the i-th of a page's three slots. */
  function Position(i: nat): (w: Word)
    ensures w < 32
  {
    if i == 0 then 0 else if i == 1 then 1 else 2
  }

  /** Every page has its slots, each knowing its own position. */
  ghost predicate Shaped(v: View) {
    && (forall p :: 0 <= p < |v| ==> |v[p]| == 3)
    && (forall x :: Known(v, x) ==> At(v, x).idx == Position(x.i))
  }

  ghost predicate OnePerVma(v: View) {
    forall x, y :: Known(v, x) && Known(v, y) && x.page == y.page && x != y ==> !Same(At(v, x), At(v, y))
  }

  /** The reverse map; `out` are the slots that a release has popped off their list and not yet
      invalidated. */
  datatype Maps = Maps(view: View, lists: Lists, out: set<SlotId>)

  /** A slot that is not out is valid exactly when it is on a list, and then it is on one only: the
      list of its own VMA and CPU, once. Slots that are out are valid and on no list. A page has at
      most one valid slot per VMA. */
  ghost predicate Agree(m: Maps) {
    && Shaped(m.view) && OnePerVma(m.view)
    && (forall id :: NoDup(ListAt(m.lists, id)))
    && (forall id, x :: Linked(m.lists, id, x) ==> On(m, x) && Home(At(m.view, x)) == id)
    && (forall x :: On(m, x) ==> Linked(m.lists, Home(At(m.view, x)), x))
    && (forall x :: x in m.out ==> Known(m.view, x) && At(m.view, x).valid)
  }

  /** Slot x records a mapping that no release has popped. */
  predicate On(m: Maps, x: SlotId) { Known(m.view, x) && At(m.view, x).valid && x !in m.out }

  function Put(v: View, x: SlotId, f: Fields): View
    requires Known(v, x)
  {
    v[x.page := v[x.page][x.i := f]]
  }

  lemma PutAt(v: View, x: SlotId, f: Fields, y: SlotId)
    requires Known(v, x)
    ensures Known(Put(v, x, f), y) <==> Known(v, y)
    ensures Known(v, y) ==> At(Put(v, x, f), y) == if y == x then f else At(v, y)
  {
  }

  function Append(lists: Lists, id: ListId, x: SlotId): Lists { lists[id := ListAt(lists, id) + [x]] }

  function Unlink(lists: Lists, id: ListId, x: SlotId): Lists { lists[id := Without(ListAt(lists, id), x)] }

  lemma AppendLinks(lists: Lists, id: ListId, x: SlotId, j: ListId, y: SlotId)
    ensures Linked(Append(lists, id, x), j, y) <==> Linked(lists, j, y) || (j == id && y == x)
  {
  }

  lemma UnlinkLinks(lists: Lists, id: ListId, x: SlotId, j: ListId, y: SlotId)
    requires NoDup(ListAt(lists, id))
    ensures Linked(Unlink(lists, id, x), j, y) <==> Linked(lists, j, y) && !(j == id && y == x)
  {
  }

  lemma ShapedPut(v: View, x: SlotId, f: Fields)
    requires Shaped(v) && Known(v, x) && f.idx == Position(x.i)
    ensures Shaped(Put(v, x, f))
  {
    forall y | Known(Put(v, x, f), y) ensures At(Put(v, x, f), y).idx == Position(y.i) { PutAt(v, x, f, y); }
  }

  lemma AppendDistinct(lists: Lists, id: ListId, x: SlotId)
    requires (forall j :: NoDup(ListAt(lists, j))) && !Linked(lists, id, x)
    ensures forall j :: NoDup(ListAt(Append(lists, id, x), j))
  {
    forall j ensures NoDup(ListAt(Append(lists, id, x), j)) {
      assert NoDup(ListAt(lists, j));
    }
  }

  lemma AddOnePerVma(v: View, x: SlotId, f: Fields)
    requires OnePerVma(v) && Known(v, x) && forall y :: Known(v, y) && y.page == x.page ==> !Same(At(v, y), f)
    ensures OnePerVma(Put(v, x, f))
  {
    var v' := Put(v, x, f);
    forall y, z | Known(v', y) && Known(v', z) && y.page == z.page && y != z ensures !Same(At(v', y), At(v', z)) {
      PutAt(v, x, f, y);
      PutAt(v, x, f, z);
    }
  }

  lemma UnlinkDistinct(lists: Lists, id: ListId, x: SlotId)
    requires forall j :: NoDup(ListAt(lists, j))
    ensures forall j :: NoDup(ListAt(Unlink(lists, id, x), j))
  {
    forall j ensures NoDup(ListAt(Unlink(lists, id, x), j)) {
      assert NoDup(ListAt(lists, j));
    }
  }

  // ---- what the threads do to it -------------------------------------------------------------

  /** A mapping is recorded in a free slot, a slot is removed by remove_mappings, popped by a release,
      or invalidated by it. */
  datatype Event =
    | Adding(slot: SlotId, f: Fields)
    | Removing(slot: SlotId)
    | Popping(slot: SlotId)
    | Invalidating(slot: SlotId)

  function Marked(v: View, x: SlotId): View
    requires Known(v, x)
  {
    Put(v, x, At(v, x).(valid := false))
  }

  function Happens(m: Maps, e: Event): Maps
    requires Known(m.view, e.slot)
  {
    var x := e.slot;
    var id := Home(At(m.view, x));
    match e
    case Adding(_, f) => Maps(Put(m.view, x, f), Append(m.lists, Home(f), x), m.out)
    case Removing(_) => if At(m.view, x).valid then Maps(Marked(m.view, x), Unlink(m.lists, id, x), m.out - {x}) else m
    case Popping(_) => Maps(m.view, Unlink(m.lists, id, x), m.out + {x})
    case Invalidating(_) => Maps(Marked(m.view, x), m.lists, m.out - {x})
  }

  /** The page already has a slot for the VMA. */
  ghost predicate HasVma(v: View, page: nat, vma: Word) {
    exists x :: Known(v, x) && x.page == page && At(v, x).valid && At(v, x).vma == vma
  }

  ghost predicate HasRoom(v: View, page: nat) {
    exists x :: Known(v, x) && x.page == page && !At(v, x).valid
  }

  /** The scan takes the last free slot of the page. */
  ghost predicate LastFree(v: View, x: SlotId) {
    && Known(v, x) && !At(v, x).valid
    && forall y :: Known(v, y) && y.page == x.page && x.i < y.i ==> At(v, y).valid
  }

  /** What each thread checks, under the lock it holds, before it acts; an invalidation only of a
      slot that is still out. */
  ghost predicate Possible(m: Maps, e: Event) {
    && Known(m.view, e.slot)
    && match e
       case Adding(x, f) =>
         LastFree(m.view, x) && !HasVma(m.view, x.page, f.vma) && f.valid && f.idx == Position(x.i)
       case Removing(_) => true
       case Popping(x) => On(m, x)
       case Invalidating(x) => x in m.out
  }

  /** A free slot is filled and linked. */
  lemma AddAgrees(m: Maps, x: SlotId, f: Fields)
    requires Agree(m) && Possible(m, Adding(x, f))
    ensures Agree(Happens(m, Adding(x, f)))
  {
    var m', id := Happens(m, Adding(x, f)), Home(f);
    ShapedPut(m.view, x, f);
    assert !Linked(m.lists, id, x);
    AppendDistinct(m.lists, id, x);
    AddOnePerVma(m.view, x, f);
    forall j, y | Linked(m'.lists, j, y) ensures On(m', y) && Home(At(m'.view, y)) == j {
      AppendLinks(m.lists, id, x, j, y);
      PutAt(m.view, x, f, y);
    }
    forall y | On(m', y) ensures Linked(m'.lists, Home(At(m'.view, y)), y) {
      PutAt(m.view, x, f, y);
      AppendLinks(m.lists, id, x, Home(At(m'.view, y)), y);
    }
    forall y | y in m'.out ensures Known(m'.view, y) && At(m'.view, y).valid { PutAt(m.view, x, f, y); }
  }

  /** A valid slot becomes invalid and leaves its list, if a release has not taken it off already. */
  lemma DropAgrees(m: Maps, x: SlotId)
    requires Agree(m) && Known(m.view, x)
    ensures Agree(Happens(m, Removing(x)))
  {
    if At(m.view, x).valid {
      var f, id := At(m.view, x).(valid := false), Home(At(m.view, x));
      var m' := Happens(m, Removing(x));
      ShapedPut(m.view, x, f);
      UnlinkDistinct(m.lists, id, x);
      AddOnePerVma(m.view, x, f);
      forall j, y | Linked(m'.lists, j, y) ensures On(m', y) && Home(At(m'.view, y)) == j {
        UnlinkLinks(m.lists, id, x, j, y);
        PutAt(m.view, x, f, y);
      }
      forall y | On(m', y) ensures Linked(m'.lists, Home(At(m'.view, y)), y) {
        PutAt(m.view, x, f, y);
        UnlinkLinks(m.lists, id, x, Home(At(m'.view, y)), y);
      }
      forall y | y in m'.out ensures Known(m'.view, y) && At(m'.view, y).valid { PutAt(m.view, x, f, y); }
    }
  }

  lemma PopAgrees(m: Maps, x: SlotId)
    requires Agree(m) && On(m, x)
    ensures Agree(Happens(m, Popping(x)))
  {
    var m', id := Happens(m, Popping(x)), Home(At(m.view, x));
    UnlinkDistinct(m.lists, id, x);
    forall j, y | Linked(m'.lists, j, y) ensures On(m', y) && Home(At(m'.view, y)) == j {
      UnlinkLinks(m.lists, id, x, j, y);
    }
    forall y | On(m', y) ensures Linked(m'.lists, Home(At(m'.view, y)), y) {
      UnlinkLinks(m.lists, id, x, Home(At(m'.view, y)), y);
    }
  }

  /** Invalidating a slot without unlinking it is right exactly when it is on no list. */
  lemma InvalidateExact(m: Maps, x: SlotId)
    requires Agree(m) && Known(m.view, x)
    ensures Agree(Happens(m, Invalidating(x))) <==> !On(m, x)
  {
    var m', f := Happens(m, Invalidating(x)), At(m.view, x).(valid := false);
    PutAt(m.view, x, f, x);
    if On(m, x) {
      assert Linked(m'.lists, Home(At(m.view, x)), x) && !On(m', x);
    } else {
      ShapedPut(m.view, x, f);
      AddOnePerVma(m.view, x, f);
      forall j, y | Linked(m'.lists, j, y) ensures On(m', y) && Home(At(m'.view, y)) == j { PutAt(m.view, x, f, y); }
      forall y | On(m', y) ensures Linked(m'.lists, Home(At(m'.view, y)), y) { PutAt(m.view, x, f, y); }
      forall y | y in m'.out ensures Known(m'.view, y) && At(m'.view, y).valid { PutAt(m.view, x, f, y); }
    }
  }

  /** Every event keeps slots and lists in agreement, whatever slots are out. */
  lemma EventAgrees(m: Maps, e: Event)
    requires Agree(m) && Possible(m, e)
    ensures Agree(Happens(m, e))
  {
    match e
    case Adding(x, f) => AddAgrees(m, x, f);
    case Removing(x) => DropAgrees(m, x);
    case Popping(x) => PopAgrees(m, x);
    case Invalidating(x) => InvalidateExact(m, x);
  }

  // ---- between the pop and the invalidation --------------------------------------------------

  ghost predicate PossibleRun(m: Maps, es: seq<Event>)
    decreases |es|
  {
    es == [] || (Possible(m, es[0]) && PossibleRun(Happens(m, es[0]), es[1..]))
  }

  ghost function Run(m: Maps, es: seq<Event>): Maps
    requires PossibleRun(m, es)
    decreases |es|
  {
    if es == [] then m else Run(Happens(m, es[0]), es[1..])
  }

  /** The last event on slot x. */
  function LastOn(es: seq<Event>, x: SlotId): Option<Event> {
    if es == [] then None
    else
      var later := LastOn(es[1..], x);
      if later.Some? then later else if es[0].slot == x then Some(es[0]) else None
  }

  /** A slot was filled, and neither removed nor popped since. */
  predicate FilledLast(es: seq<Event>, x: SlotId) { LastOn(es, x).Some? && LastOn(es, x).value.Adding? }

  lemma EventOn(m: Maps, e: Event, x: SlotId)
    requires Agree(m) && Possible(m, e)
    ensures Known(Happens(m, e).view, x) <==> Known(m.view, x)
    ensures On(Happens(m, e), x) <==> if e.slot == x then e.Adding? else On(m, x)
  {
    match e
    case Adding(y, f) => PutAt(m.view, y, f, x);
    case Popping(_) =>
    case Removing(y) => PutAt(m.view, y, At(m.view, y).(valid := false), x);
    case Invalidating(y) => PutAt(m.view, y, At(m.view, y).(valid := false), x);
  }

  /** After any sequence of events slots and lists agree, and a slot is on a list exactly if the last
      thing that happened to it is that it was filled. */
  lemma {:induction false} RunAgrees(m: Maps, es: seq<Event>, x: SlotId)
    requires Agree(m) && PossibleRun(m, es)
    ensures Agree(Run(m, es)) && (Known(Run(m, es).view, x) <==> Known(m.view, x))
    ensures On(Run(m, es), x) <==> if LastOn(es, x).Some? then FilledLast(es, x) else On(m, x)
    decreases |es|
  {
    if es != [] {
      EventAgrees(m, es[0]);
      EventOn(m, es[0], x);
      RunAgrees(Happens(m, es[0]), es[1..], x);
    }
  }

  /** A release has popped slot x. Before it invalidates it, which it does without the page's lock,
      other threads may add and remove mappings, pop and invalidate other slots, in any order. The late
      invalidation then leaves slots and lists in agreement if and only if the last thing that happened
      to x is not that it was filled again. */
  lemma LateInvalidation(m: Maps, x: SlotId, es: seq<Event>)
    requires Agree(m) && x in m.out && PossibleRun(m, es)
    ensures Agree(Run(m, es)) && Known(Run(m, es).view, x)
    ensures Agree(Happens(Run(m, es), Invalidating(x))) <==> !FilledLast(es, x)
  {
    RunAgrees(m, es, x);
    InvalidateExact(Run(m, es), x);
  }

  // ---- the packed slots and their fields -----------------------------------------------------

  function UnpackAll(ss: seq<Slot>): (fs: seq<Fields>)
    ensures |fs| == |ss| && forall i :: 0 <= i < |ss| ==> fs[i] == Unpack(ss[i])
  {
    seq(|ss|, i requires 0 <= i < |ss| => Unpack(ss[i]))
  }

  function ViewOf(slots: seq<seq<Slot>>): (v: View)
    ensures |v| == |slots| && forall p :: 0 <= p < |slots| ==> v[p] == UnpackAll(slots[p])
  {
    seq(|slots|, p requires 0 <= p < |slots| => UnpackAll(slots[p]))
  }

  lemma ViewPut(slots: seq<seq<Slot>>, p: nat, i: nat, w: Slot)
    requires p < |slots| && i < |slots[p]|
    ensures ViewOf(slots[p := slots[p][i := w]]) == Put(ViewOf(slots), SlotId(p, i), Unpack(w))
    ensures At(ViewOf(slots), SlotId(p, i)) == Unpack(slots[p][i])
  {
    var row := slots[p][i := w];
    assert UnpackAll(row) == UnpackAll(slots[p])[i := Unpack(w)];
  }

  class ReverseMaps {
    var slots: seq<seq<Slot>>
    var lists: Lists
    ghost var popped: set<SlotId>

    ghost function Now(): Maps
      reads this
    {
      Maps(ViewOf(slots), lists, popped)
    }

    ghost predicate Valid()
      reads this
    {
      Agree(Now())
    }

    /** The scan for the VMA: a free slot is reported, as -1 or a position, only if the VMA was not
        found; it is the last one. */
    method Scan(page: nat, vma: Word) returns (found: bool, freeEntry: int)
      requires Valid() && page < |slots|
      ensures found == HasVma(ViewOf(slots), page, vma)
      ensures !found ==> (freeEntry == -1 <==> !HasRoom(ViewOf(slots), page))
      ensures !found && freeEntry != -1 ==> 0 <= freeEntry && LastFree(ViewOf(slots), SlotId(page, freeEntry))
    {
      found, freeEntry := false, -1;
      ghost var v: View := ViewOf(slots);
      for i := 0 to |slots[page]|
        invariant -1 <= freeEntry < i && !found
        invariant freeEntry != -1 ==> !v[page][freeEntry].valid
        invariant forall j :: freeEntry < j < i ==> v[page][j].valid
        invariant forall j :: 0 <= j < i ==> !(v[page][j].valid && v[page][j].vma == vma)
      {
        assert v[page][i] == Unpack(slots[page][i]);
        if IsValid(slots[page][i]) {
          if Packed.Vma(slots[page][i]) == vma {
            found := true;
            assert Known(v, SlotId(page, i)) && At(v, SlotId(page, i)) == v[page][i];
            return;
          }
        } else {
          freeEntry := i;
        }
      }
      if freeEntry != -1 { assert Known(v, SlotId(page, freeEntry)) && !At(v, SlotId(page, freeEntry)).valid; }
    }

    /** dmap_add_or_update_rmap on processor `cpu`. It stays inside the page's slots exactly when the
        page has a slot for the VMA or a free one; otherwise free_entry is -1 and the source goes on to
        write in front of the slots, which the model reports instead of doing. */
    method Add(page: nat, vma: Word, vaddr: Word, cpu: Word) returns (inBounds: bool, ghost x: SlotId)
      requires Valid() && page < |slots| && Aligned(vaddr) && Even(vma) && cpu < 128
      modifies this
      ensures Valid()
      ensures inBounds <==> old(HasVma(ViewOf(slots), page, vma) || HasRoom(ViewOf(slots), page))
      ensures !inBounds || old(HasVma(ViewOf(slots), page, vma)) ==> Now() == old(Now())
      ensures inBounds && !old(HasVma(ViewOf(slots), page, vma)) ==>
                && x.page == page && Possible(old(Now()), Adding(x, FieldsFor(x, vaddr, vma, cpu)))
                && Now() == Happens(old(Now()), Adding(x, FieldsFor(x, vaddr, vma, cpu)))
      ensures inBounds && !old(HasVma(ViewOf(slots), page, vma)) ==>
                && LastFree(old(ViewOf(slots)), x) && Records(ViewOf(slots), x, vaddr, vma, cpu)
                && SameBut(old(ViewOf(slots)), ViewOf(slots), x)
                && lists == old(lists)[ListId(vma, cpu) := old(ListAt(lists, ListId(vma, cpu))) + [x]]
    {
      x := SlotId(page, 0);
      var found, free := Scan(page, vma);
      inBounds := found || free != -1;
      if !found && free != -1 {
        x := SlotId(page, free);
        FillFree(SlotId(page, free), vaddr, vma, cpu);
      }
    }

    /** The free slot is filled and linked at the tail of its list. */
    method FillFree(x: SlotId, vaddr: Word, vma: Word, cpu: Word)
      requires Valid() && LastFree(ViewOf(slots), x) && !HasVma(ViewOf(slots), x.page, vma)
      requires Aligned(vaddr) && Even(vma) && cpu < 128
      modifies this
      ensures Valid() && Possible(old(Now()), Adding(x, FieldsFor(x, vaddr, vma, cpu)))
      ensures Now() == Happens(old(Now()), Adding(x, FieldsFor(x, vaddr, vma, cpu)))
      ensures Records(ViewOf(slots), x, vaddr, vma, cpu) && SameBut(old(ViewOf(slots)), ViewOf(slots), x)
      ensures lists == old(lists)[ListId(vma, cpu) := old(ListAt(lists, ListId(vma, cpu))) + [x]]
    {
      FreshSlot(slots, lists, popped, x, vaddr, vma, cpu);
      slots := FillAt(slots, x, vaddr, vma, cpu);
      lists := Append(lists, ListId(vma, cpu), x);
    }

    /** One slot of remove_mappings: marked invalid and taken off its list; deleting a slot that a
        release has taken off already changes no list. */
    method RemoveSlot(page: nat, i: nat)
      requires Valid() && page < |slots| && i < |slots[page]|
      modifies this
      ensures Valid() && Known(old(ViewOf(slots)), SlotId(page, i))
      ensures Now() == Happens(old(Now()), Removing(SlotId(page, i)))
    {
      var p := slots[page][i];
      ViewPut(slots, page, i, MkInvalid(p));
      DropAgrees(Now(), SlotId(page, i));
      if IsValid(p) {
        MkInvalidMeans(p);
        slots := slots[page := slots[page][i := MkInvalid(p)]];
        var id := ListId(Packed.Vma(p), Packed.Cpu(p));
        lists := lists[id := Without(ListAt(lists, id), SlotId(page, i))];
        popped := popped - {SlotId(page, i)};
      }
    }

    /** remove_mappings (and the same loop of drain_page): the page's slots are all invalid, on no list
        and not out; every other page's mappings are as they were. */
    method RemoveMappings(page: nat)
      requires Valid() && page < |slots|
      modifies this
      ensures Valid() && |slots| == old(|slots|)
      ensures Cleared(old(Now()), Now(), page, 3)
    {
      ghost var m := Now();
      for i := 0 to MAX_RMAPS_PER_PAGE
        invariant Valid() && |slots| == |m.view| && Cleared(m, Now(), page, i)
      {
        ghost var m1 := Now();
        RowLength(slots, lists, popped, page);
        RemoveSlot(page, i);
        ClearedNext(m, m1, page, i);
      }
    }

    /** pop_one_pvr: the head of the VMA's first non-empty list is unlinked; its slot is still valid. */
    method PopOne(vma: Word, ncpus: nat) returns (r: Option<SlotId>)
      requires Valid() && ncpus <= 128
      modifies this
      ensures Valid() && slots == old(slots)
      ensures r.None? ==> Now() == old(Now())
      ensures r.None? ==> forall c: Word :: c as int < ncpus ==> ListAt(lists, ListId(vma, c)) == []
      ensures r.Some? ==> On(old(Now()), r.value) && At(old(ViewOf(slots)), r.value).vma == vma
      ensures r.Some? ==> Now() == Happens(old(Now()), Popping(r.value)) && Mine(old(Now()), r.value, vma, ncpus)
      ensures r.Some? ==> exists c: Word :: c as int < ncpus && PopsHead(old(lists), lists, vma, c, r.value)
    {
      for cpu := 0 to ncpus
        invariant Now() == old(Now())
        invariant forall c: Word :: c as int < cpu ==> ListAt(lists, ListId(vma, c)) == []
      {
        var id := ListId(vma, cpu as Word);
        var list := ListAt(lists, id);
        if list != [] {
          HeadPopped(Now(), id);
          FirstHead(lists, vma, cpu);
          assert Mine(Now(), list[0], vma, ncpus);
          lists := lists[id := list[1..]];
          popped := popped + {list[0]};
          return Some(list[0]);
        }
        forall c: Word | c as int < cpu + 1 ensures ListAt(lists, ListId(vma, c)) == [] {
          if c as int == cpu { SameCpu(c, cpu); }
        }
      }
      return None;
    }

    /** pvr_mk_invalid: right exactly if the slot is not on a list. */
    method MarkInvalid(x: SlotId)
      requires Valid() && Known(ViewOf(slots), x)
      modifies this
      ensures Known(old(ViewOf(slots)), x) && Now() == Happens(old(Now()), Invalidating(x))
      ensures Known(ViewOf(slots), x) && At(ViewOf(slots), x) == At(old(ViewOf(slots)), x).(valid := false)
      ensures SameBut(old(ViewOf(slots)), ViewOf(slots), x) && lists == old(lists)
      ensures Valid() <==> !On(old(Now()), x)
    {
      var p := slots[x.page][x.i];
      InvalidateExact(Now(), x);
      ViewPut(slots, x.page, x.i, MkInvalid(p));
      MkInvalidMeans(p);
      PutOne(ViewOf(slots), x, At(ViewOf(slots), x).(valid := false));
      slots := slots[x.page := slots[x.page][x.i := MkInvalid(p)]];
      popped := popped - {x};
    }

    /** __pve_release: when the VMA goes, no slot maps it any more but those that other releases have
        out, and no other VMA's slot changes. */
    method PveRelease(vma: Word, ncpus: nat)
      requires Valid() && ncpus <= 128
      modifies this
      ensures Valid() && |slots| == old(|slots|) && popped == old(popped)
      ensures forall x :: On(Now(), x) && At(ViewOf(slots), x).vma == vma ==> ncpus <= At(ViewOf(slots), x).cpu as int
      ensures OthersKept(old(ViewOf(slots)), ViewOf(slots), vma)
      ensures ShedAll(old(Now()), Now(), vma, ncpus)
    {
      ghost var m := Now();
      ghost var v := ViewOf(slots);
      while true
        invariant Valid() && |slots| == |v| && popped == old(popped) && OthersKept(v, ViewOf(slots), vma)
        invariant Shedding(m, Now(), vma, ncpus)
        decreases ValidSlots(ViewOf(slots))
      {
        ghost var m1 := Now();
        var x := ReleaseOne(vma, ncpus);
        if x.None? {
          AllShed(m, Now(), vma, ncpus);
          return;
        }
        FewerValid(m1.view, ViewOf(slots), x.value);
        OthersKeptNext(v, m1.view, ViewOf(slots), x.value, vma);
        ShedOne(m, m1, Now(), x.value, vma, ncpus);
      }
    }

    /** One turn of __pve_release that nothing comes between. */
    method ReleaseOne(vma: Word, ncpus: nat) returns (r: Option<SlotId>)
      requires Valid() && ncpus <= 128
      modifies this
      ensures Valid() && popped == old(popped) && |slots| == old(|slots|)
      ensures r.None? ==> Now() == old(Now())
      ensures r.None? ==>
                forall x :: On(Now(), x) && At(ViewOf(slots), x).vma == vma ==> ncpus <= At(ViewOf(slots), x).cpu as int
      ensures r.Some? ==> On(old(Now()), r.value) && At(old(ViewOf(slots)), r.value).vma == vma
      ensures r.None? ==> forall c: Word :: c as int < ncpus ==> ListAt(lists, ListId(vma, c)) == []
      ensures r.Some? ==> ViewOf(slots) == Marked(old(ViewOf(slots)), r.value) && Mine(old(Now()), r.value, vma, ncpus)
      ensures r.Some? ==> exists c: Word :: c as int < ncpus && PopsHead(old(lists), lists, vma, c, r.value)
    {
      r := PopOne(vma, ncpus);
      if r.Some? {
        MarkInvalid(r.value);
      } else {
        NoneLinked(Now(), vma, ncpus);
      }
    }
  }

  /** x is the head of the VMA's list of processor c, the first that is not empty; it leaves that list, and
      all other lists are the same. */
  ghost predicate PopsHead(lists: Lists, lists': Lists, vma: Word, c: Word, x: SlotId) {
    var list := ListAt(lists, ListId(vma, c));
    && list != [] && x == list[0] && lists' == lists[ListId(vma, c) := list[1..]]
    && forall d: Word :: d as int < c as int ==> ListAt(lists, ListId(vma, d)) == []
  }

  lemma FirstHead(lists: Lists, vma: Word, cpu: nat)
    requires cpu < 128 && ListAt(lists, ListId(vma, cpu as Word)) != []
    requires forall d: Word :: d as int < cpu ==> ListAt(lists, ListId(vma, d)) == []
    ensures var c, id := cpu as Word, ListId(vma, cpu as Word);
            && c as int == cpu
            && PopsHead(lists, lists[id := ListAt(lists, id)[1..]], vma, c, ListAt(lists, id)[0])
  {
    assert cpu as Word as int == cpu;
  }

  lemma HeadPopped(m: Maps, id: ListId)
    requires Agree(m) && ListAt(m.lists, id) != []
    ensures var list := ListAt(m.lists, id);
            && On(m, list[0]) && Home(At(m.view, list[0])) == id && Agree(Happens(m, Popping(list[0])))
            && Happens(m, Popping(list[0])).lists == m.lists[id := list[1..]]
  {
    var x := ListAt(m.lists, id)[0];
    assert Linked(m.lists, id, x);
    PopAgrees(m, x);
  }

  /** Slots 0 to n-1 of the page are invalid, unlinked and not out, and nothing else has changed. */
  ghost predicate Cleared(m: Maps, m': Maps, page: nat, n: nat) {
    && (forall y :: Known(m'.view, y) <==> Known(m.view, y))
    && (forall y :: Known(m.view, y) && Known(m'.view, y) ==>
          At(m'.view, y) == if Below(y, page, n) then At(m.view, y).(valid := false) else At(m.view, y))
    && (forall id, y :: Linked(m'.lists, id, y) <==> Linked(m.lists, id, y) && !Below(y, page, n))
    && (forall y :: y in m'.out <==> y in m.out && !Below(y, page, n))
  }

  predicate Below(y: SlotId, page: nat, n: nat) { y.page == page && y.i < n }

  lemma RowLength(slots: seq<seq<Slot>>, lists: Lists, out: set<SlotId>, page: nat)
    requires Agree(Maps(ViewOf(slots), lists, out)) && page < |slots|
    ensures |slots[page]| == MAX_RMAPS_PER_PAGE
  {
    assert |ViewOf(slots)[page]| == MAX_RMAPS_PER_PAGE;
  }

  lemma ClearedNext(m: Maps, m1: Maps, page: nat, i: nat)
    requires Cleared(m, m1, page, i) && Agree(m1) && Known(m1.view, SlotId(page, i))
    ensures Cleared(m, Happens(m1, Removing(SlotId(page, i))), page, i + 1)
  {
    var x := SlotId(page, i);
    var f, m2 := At(m1.view, x), Happens(m1, Removing(x));
    forall y ensures Below(y, page, i + 1) <==> Below(y, page, i) || y == x {
    }
    forall y ensures (Known(m2.view, y) <==> Known(m.view, y)) && (Known(m.view, y) && Known(m2.view, y) ==>
        At(m2.view, y) == if Below(y, page, i + 1) then At(m.view, y).(valid := false) else At(m.view, y))
    {
      PutAt(m1.view, x, f.(valid := false), y);
    }
    forall id, y ensures Linked(m2.lists, id, y) <==> Linked(m.lists, id, y) && !Below(y, page, i + 1) {
      if f.valid { UnlinkLinks(m1.lists, Home(f), x, id, y); }
    }
  }

  /** Slot x is linked on a list of the VMA that a release with this number of processors scans. */
  predicate Mine(m: Maps, x: SlotId, vma: Word, ncpus: nat) {
    On(m, x) && At(m.view, x).vma == vma && (At(m.view, x).cpu as int) < ncpus
  }

  /** Of the slots only such have become invalid, and of the lists only those scanned have changed. */
  ghost predicate Shedding(m: Maps, m': Maps, vma: Word, ncpus: nat) {
    && m'.out == m.out && (forall y :: Known(m'.view, y) <==> Known(m.view, y))
    && (forall y :: Known(m.view, y) && Known(m'.view, y) ==>
          At(m'.view, y) == At(m.view, y) ||
          (Mine(m, y, vma, ncpus) && At(m'.view, y) == At(m.view, y).(valid := false)))
    && forall id: ListId :: id.vma != vma || id.cpu as int >= ncpus ==> ListAt(m'.lists, id) == ListAt(m.lists, id)
  }

  /** Exactly such slots have become invalid, and exactly the lists scanned are empty. */
  ghost predicate ShedAll(m: Maps, m': Maps, vma: Word, ncpus: nat) {
    && m'.out == m.out && (forall y :: Known(m'.view, y) <==> Known(m.view, y))
    && (forall y :: Known(m.view, y) && Known(m'.view, y) ==>
          At(m'.view, y) == if Mine(m, y, vma, ncpus) then At(m.view, y).(valid := false) else At(m.view, y))
    && forall id: ListId ::
         ListAt(m'.lists, id) == if id.vma == vma && (id.cpu as int) < ncpus then [] else ListAt(m.lists, id)
  }

  lemma ShedOne(m: Maps, m1: Maps, m2: Maps, x: SlotId, vma: Word, ncpus: nat)
    requires Shedding(m, m1, vma, ncpus) && Mine(m1, x, vma, ncpus)
    requires m2.view == Marked(m1.view, x) && m2.out == m1.out
    requires exists c: Word :: c as int < ncpus && PopsHead(m1.lists, m2.lists, vma, c, x)
    ensures Shedding(m, m2, vma, ncpus)
  {
    forall y ensures (Known(m2.view, y) <==> Known(m.view, y)) && (Known(m.view, y) && Known(m2.view, y) ==>
        At(m2.view, y) == At(m.view, y) ||
        (Mine(m, y, vma, ncpus) && At(m2.view, y) == At(m.view, y).(valid := false)))
    {
      PutAt(m1.view, x, At(m1.view, x).(valid := false), y);
    }
  }

  lemma AllShed(m: Maps, m': Maps, vma: Word, ncpus: nat)
    requires Shedding(m, m', vma, ncpus) && Agree(m')
    requires forall c: Word :: c as int < ncpus ==> ListAt(m'.lists, ListId(vma, c)) == []
    ensures ShedAll(m, m', vma, ncpus)
  {
    NoneLinked(m', vma, ncpus);
    forall y | Known(m.view, y) && Known(m'.view, y) && Mine(m, y, vma, ncpus) ensures !At(m'.view, y).valid {
      if At(m'.view, y).valid { assert On(m', y); }
    }
  }

  lemma SameCpu(c: Word, cpu: nat)
    requires cpu < 128 && c as int == cpu
    ensures c == cpu as Word
  {
  }

  lemma NoneLinked(m: Maps, vma: Word, ncpus: nat)
    requires Agree(m) && forall c: Word :: c as int < ncpus ==> ListAt(m.lists, ListId(vma, c)) == []
    ensures forall x :: On(m, x) && At(m.view, x).vma == vma ==> ncpus <= At(m.view, x).cpu as int
  {
    forall x | On(m, x) && At(m.view, x).vma == vma ensures ncpus <= At(m.view, x).cpu as int {
      assert Linked(m.lists, Home(At(m.view, x)), x);
    }
  }

  ghost function ValidSlots(v: View): set<SlotId> {
    set p, i | 0 <= p < |v| && 0 <= i < |v[p]| && v[p][i].valid :: SlotId(p, i)
  }

  lemma FewerValid(v: View, v': View, x: SlotId)
    requires Known(v, x) && At(v, x).valid && v' == Put(v, x, At(v, x).(valid := false))
    ensures ValidSlots(v') < ValidSlots(v)
  {
    assert x == SlotId(x.page, x.i);
    assert x in ValidSlots(v) && x !in ValidSlots(v');
    forall y | y in ValidSlots(v') ensures y in ValidSlots(v) { PutAt(v, x, At(v, x).(valid := false), y); }
  }

  ghost predicate OthersKept(v: View, v': View, vma: Word) {
    && (forall y :: Known(v', y) <==> Known(v, y))
    && (forall y :: Known(v, y) && Known(v', y) && At(v, y).vma != vma ==> At(v', y) == At(v, y))
    && (forall y :: Known(v, y) && Known(v', y) ==> At(v', y).vma == At(v, y).vma)
  }

  lemma OthersKeptNext(v: View, v1: View, v2: View, x: SlotId, vma: Word)
    requires OthersKept(v, v1, vma) && Known(v1, x) && At(v1, x).vma == vma
    requires v2 == Put(v1, x, At(v1, x).(valid := false))
    ensures OthersKept(v, v2, vma)
  {
    var f := At(v1, x).(valid := false);
    forall y ensures Known(v2, y) <==> Known(v, y) { PutAt(v1, x, f, y); }
    forall y | Known(v, y) && Known(v2, y)
      ensures (At(v, y).vma != vma ==> At(v2, y) == At(v, y)) && At(v2, y).vma == At(v, y).vma
    {
      PutAt(v1, x, f, y);
    }
  }

  /** Slot x holds this mapping, and its own position. */
  predicate Records(v: View, x: SlotId, vaddr: Word, vma: Word, cpu: Word) {
    && Known(v, x) && x.i < 3 && At(v, x).idx as int == x.i
    && At(v, x).vaddr == vaddr && At(v, x).vma == vma && At(v, x).cpu == cpu && At(v, x).valid
  }

  /** The same slots, and only x is not as it was. */
  ghost predicate SameBut(v: View, v': View, x: SlotId) {
    && (forall y :: Known(v', y) <==> Known(v, y))
    && forall y :: Known(v, y) && Known(v', y) && y != x ==> At(v', y) == At(v, y)
  }

  lemma Recorded(v: View, x: SlotId, vaddr: Word, vma: Word, cpu: Word)
    requires Known(v, x) && x.i < 3
    ensures Records(Put(v, x, FieldsFor(x, vaddr, vma, cpu)), x, vaddr, vma, cpu)
    ensures SameBut(v, Put(v, x, FieldsFor(x, vaddr, vma, cpu)), x)
  {
    PutOne(v, x, FieldsFor(x, vaddr, vma, cpu));
  }

  lemma PutOne(v: View, x: SlotId, f: Fields)
    requires Known(v, x)
    ensures Known(Put(v, x, f), x) && At(Put(v, x, f), x) == f && SameBut(v, Put(v, x, f), x)
  {
    PutAt(v, x, f, x);
    forall y ensures (Known(Put(v, x, f), y) <==> Known(v, y)) && (Known(v, y) && y != x ==>
        At(Put(v, x, f), y) == At(v, y))
    {
      PutAt(v, x, f, y);
    }
  }

  /** The fields of slot x once it maps `vaddr` of `vma`, linked on `cpu`. */
  function FieldsFor(x: SlotId, vaddr: Word, vma: Word, cpu: Word): Fields {
    Fields(vaddr, Position(x.i), cpu, vma, true)
  }

  function FillAt(slots: seq<seq<Slot>>, x: SlotId, vaddr: Word, vma: Word, cpu: Word): seq<seq<Slot>>
    requires x.page < |slots| && x.i < |slots[x.page]|
  {
    slots[x.page := slots[x.page][x.i := Fill(slots[x.page][x.i], Position(x.i), vaddr, vma, cpu)]]
  }

  lemma FillAtView(slots: seq<seq<Slot>>, x: SlotId, vaddr: Word, vma: Word, cpu: Word)
    requires x.page < |slots| && x.i < |slots[x.page]| && x.i < 32 && Aligned(vaddr) && Even(vma) && cpu < 128
    ensures ViewOf(FillAt(slots, x, vaddr, vma, cpu)) == Put(ViewOf(slots), x, FieldsFor(x, vaddr, vma, cpu))
  {
    FillMeans(slots[x.page][x.i], Position(x.i), vaddr, vma, cpu);
    ViewPut(slots, x.page, x.i, Fill(slots[x.page][x.i], Position(x.i), vaddr, vma, cpu));
  }

  lemma FreshSlot(slots: seq<seq<Slot>>, lists: Lists, out: set<SlotId>, x: SlotId, vaddr: Word, vma: Word, cpu: Word)
    requires Agree(Maps(ViewOf(slots), lists, out)) && LastFree(ViewOf(slots), x)
    requires !HasVma(ViewOf(slots), x.page, vma) && Aligned(vaddr) && Even(vma) && cpu < 128
    ensures x.page < |slots| && x.i < |slots[x.page]|
    ensures var m, f := Maps(ViewOf(slots), lists, out), FieldsFor(x, vaddr, vma, cpu);
            && Possible(m, Adding(x, f)) && Agree(Happens(m, Adding(x, f)))
            && Happens(m, Adding(x, f)) ==
               Maps(ViewOf(FillAt(slots, x, vaddr, vma, cpu)), Append(lists, ListId(vma, cpu), x), out)
    ensures var v := ViewOf(FillAt(slots, x, vaddr, vma, cpu));
            Records(v, x, vaddr, vma, cpu) && SameBut(ViewOf(slots), v, x)
  {
    var m, f := Maps(ViewOf(slots), lists, out), FieldsFor(x, vaddr, vma, cpu);
    SmallPosition(m, x);
    FillAtView(slots, x, vaddr, vma, cpu);
    Recorded(ViewOf(slots), x, vaddr, vma, cpu);
    AddAgrees(m, x, f);
  }

  lemma SmallPosition(m: Maps, x: SlotId)
    requires Agree(m) && Known(m.view, x)
    ensures x.i < MAX_RMAPS_PER_PAGE
  {
  }
}
