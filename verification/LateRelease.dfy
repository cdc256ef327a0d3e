/** A history of the reverse map in which the release of a VMA leaves slots and lists at odds. */
module LateRelease {
  import opened Params
  import opened Fifo
  import opened Packed
  import opened ReverseMap

  /** A page with no mapping. */
  const NO_MAPPING: seq<Fields> := [Fields(0, 0, 0, 0, false), Fields(0, 1, 0, 0, false), Fields(0, 2, 0, 0, false)]

  /** The slot that its first mapping gets. */
  const FIRST := SlotId(0, 2)

  /** A mapping of VMA `vma` at address 0x1000, linked on CPU 0. */
  function MappingOf(vma: Word): Fields { Fields(0x1000, 2, 0, vma, true) }

  /** One page is mapped by VMA 2, whose release pops the slot. */
  function Before(): Maps { Maps([NO_MAPPING[2 := MappingOf(2)]], map[ListId(2, 0) := []], {FIRST}) }

  /** Before the release goes on, remove_mappings clears the page and VMA 4 maps it anew. */
  function Meanwhile(): seq<Event> {
    [Removing(SlotId(0, 0)), Removing(SlotId(0, 1)), Removing(FIRST), Adding(FIRST, MappingOf(4))]
  }

  /** That state comes about from an empty reverse map. */
  lemma BeforeIs()
    ensures var m := Maps([NO_MAPPING], map[], {});
            && Agree(m) && Possible(m, Adding(FIRST, MappingOf(2)))
            && var m1 := Happens(m, Adding(FIRST, MappingOf(2)));
            && Possible(m1, Popping(FIRST)) && Happens(m1, Popping(FIRST)) == Before()
  {
    var m := Maps([NO_MAPPING], map[], {});
    var m1 := Happens(m, Adding(FIRST, MappingOf(2)));
    var id := ListId(2, 0);
    assert ListAt(m.lists, id) + [FIRST] == [FIRST];
    assert m1.lists == map[id := [FIRST]];
    assert ListAt(m1.lists, id) == [FIRST] && Without([FIRST], FIRST) == [];
    assert Happens(m1, Popping(FIRST)).lists == map[id := []];
    assert m1.view == [NO_MAPPING[2 := MappingOf(2)]];
  }

  lemma BeforeAgrees()
    ensures Agree(Before())
  {
    BeforeIs();
    var m := Maps([NO_MAPPING], map[], {});
    EventAgrees(m, Adding(FIRST, MappingOf(2)));
    EventAgrees(Happens(m, Adding(FIRST, MappingOf(2))), Popping(FIRST));
  }

  /** The page once it is cleared. */
  function Empty(): Maps { Maps([NO_MAPPING[2 := MappingOf(2).(valid := false)]], map[ListId(2, 0) := []], {}) }

  lemma Clears()
    ensures var m := Before();
            && Possible(m, Removing(SlotId(0, 0))) && Happens(m, Removing(SlotId(0, 0))) == m
            && Possible(m, Removing(SlotId(0, 1))) && Happens(m, Removing(SlotId(0, 1))) == m
            && Possible(m, Removing(FIRST)) && Happens(m, Removing(FIRST)) == Empty()
            && Possible(Empty(), Adding(FIRST, MappingOf(4)))
  {
    var m, id := Before(), ListId(2, 0);
    assert At(m.view, FIRST) == MappingOf(2) && Without(ListAt(m.lists, id), FIRST) == [];
    assert m.lists[id := []] == map[id := []];
    assert m.out - {FIRST} == {};
    assert NO_MAPPING[2 := MappingOf(2)][2 := MappingOf(2).(valid := false)] ==
           NO_MAPPING[2 := MappingOf(2).(valid := false)];
    assert Marked(m.view, FIRST) == Empty().view;
  }

  lemma MeanwhilePossible()
    ensures PossibleRun(Before(), Meanwhile())
  {
    var es := Meanwhile();
    Clears();
    assert es[3..] == [es[3]] && es[3..][1..] == [];
    assert PossibleRun(Empty(), es[3..]);
    assert es[2..][1..] == es[3..] && es[1..][1..] == es[2..];
    assert PossibleRun(Before(), es[2..]);
    assert PossibleRun(Before(), es[1..]);
  }

  /** A release that agrees with nobody: VMA 2's release pops the only slot of a page; remove_mappings
      clears the page; VMA 4 maps it again and gets the same slot; the release then invalidates it, and
      leaves a slot that is on VMA 4's list and not valid. */
  lemma RefilledSlotBreaks()
    ensures Agree(Before()) && FIRST in Before().out && PossibleRun(Before(), Meanwhile())
    ensures Known(Run(Before(), Meanwhile()).view, FIRST)
    ensures !Agree(Happens(Run(Before(), Meanwhile()), Invalidating(FIRST)))
  {
    BeforeAgrees();
    MeanwhilePossible();
    LastFilled();
    LateInvalidation(Before(), FIRST, Meanwhile());
  }

  lemma LastFilled()
    ensures FilledLast(Meanwhile(), FIRST)
  {
    var es := Meanwhile();
    assert es[3..][1..] == [] && LastOn(es[3..], FIRST) == Some(es[3]);
    assert es[2..][1..] == es[3..] && es[1..][1..] == es[2..];
    assert LastOn(es[2..], FIRST) == Some(es[3]) && LastOn(es[1..], FIRST) == Some(es[3]);
  }
}
