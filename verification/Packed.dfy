/** The packed reverse-map slot of tagged_page.c. One 64-bit word holds a page-aligned address, the
    slot's position (bits 11:7) and a CPU (bits 6:0); the other a VMA pointer and, in bit 0, the
    valid flag. */
module Packed {
  type Word = bv64

  datatype Slot = Slot(vaddr: Word, vma: Word)

  // ---- getters -------------------------------------------------------------------------------

  function IsValid(p: Slot): bool { p.vma & 1 == 1 }

  function Cpu(p: Slot): Word { p.vaddr & 0x7F }

  function Idx(p: Slot): Word { (p.vaddr & 0x0F80) >> 7 }

  function Vaddr(p: Slot): Word { p.vaddr & 0xFFFF_FFFF_FFFF_F000 }

  function Vma(p: Slot): Word { p.vma & 0xFFFF_FFFF_FFFF_FFFE }

  // ---- setters, as the two words change ------------------------------------------------------

  function MkValid(p: Slot): Slot { p.(vma := p.vma | 1) }

  function MkInvalid(p: Slot): Slot { p.(vma := p.vma & 0xFFFF_FFFF_FFFF_FFFE) }

  function SetCpu(p: Slot, cpu: Word): Slot { p.(vaddr := (p.vaddr & 0xFFFF_FFFF_FFFF_FF80) | cpu) }

  function SetIdx(p: Slot, idx: Word): Slot {
    p.(vaddr := (p.vaddr & 0xFFFF_FFFF_FFFF_F000) | (idx << 7) | (p.vaddr & 0x7F))
  }

  function SetVaddr(p: Slot, vaddr: Word): Slot { p.(vaddr := vaddr | (p.vaddr & 0xFFF)) }

  function SetVma(p: Slot, vma: Word): Slot { p.(vma := vma | (p.vma & 1)) }

  // ---- what a slot says ----------------------------------------------------------------------

  /** The five fields, unpacked. */
  datatype Fields = Fields(vaddr: Word, idx: Word, cpu: Word, vma: Word, valid: bool)

  function Unpack(p: Slot): Fields { Fields(Vaddr(p), Idx(p), Cpu(p), Vma(p), IsValid(p)) }

  predicate Aligned(a: Word) { a & 0xFFF == 0 }

  predicate Even(v: Word) { v & 1 == 0 }

  predicate Fits(f: Fields) { Aligned(f.vaddr) && f.idx < 32 && f.cpu < 128 && Even(f.vma) }

  lemma IdxSmall(w: Word)
    ensures (w & 0x0F80) >> 7 < 32
  {
  }

  lemma SameAddress(p: Slot, q: Slot)
    requires Vaddr(p) == Vaddr(q) && Idx(p) == Idx(q) && Cpu(p) == Cpu(q)
    ensures p.vaddr == q.vaddr
  {
  }

  lemma SamePointer(p: Slot, q: Slot)
    requires Vma(p) == Vma(q) && IsValid(p) == IsValid(q)
    ensures p.vma == q.vma
  {
  }

  /** The five fields determine both words. */
  lemma UnpackInjective(p: Slot, q: Slot)
    requires Unpack(p) == Unpack(q)
    ensures p == q
  {
    SameAddress(p, q);
    SamePointer(p, q);
  }

  /** Where the fields lie: the address above bit 11, the position in bits 11 to 7, the CPU in bits 6 to 0;
      the pointer above bit 0, which is the valid flag. */
  lemma Layout(p: Slot)
    ensures p.vaddr == Vaddr(p) | (Idx(p) << 7) | Cpu(p) && Cpu(p) < 128 && Idx(p) < 32 && Vaddr(p) & 0xFFF == 0
    ensures p.vma == Vma(p) | (if IsValid(p) then 1 else 0) && Vma(p) & 1 == 0
  {
    IdxSmall(p.vaddr);
  }

  // ---- each setter on the fields -------------------------------------------------------------

  /** A setter is read back, and no other field changes, exactly when the value fits its field. */
  lemma SetCpuExact(p: Slot, cpu: Word)
    ensures Unpack(SetCpu(p, cpu)) == Unpack(p).(cpu := cpu) <==> cpu < 128
  {
  }

  lemma SetIdxExact(p: Slot, idx: Word)
    ensures Unpack(SetIdx(p, idx)) == Unpack(p).(idx := idx) <==> idx < 32
  {
  }

  lemma SetVaddrExact(p: Slot, a: Word)
    ensures Unpack(SetVaddr(p, a)) == Unpack(p).(vaddr := a) <==> Aligned(a)
  {
  }

  lemma SetVmaExact(p: Slot, v: Word)
    ensures Unpack(SetVma(p, v)) == Unpack(p).(vma := v) <==> Even(v)
  {
  }

  lemma MkValidMeans(p: Slot)
    ensures Unpack(MkValid(p)) == Unpack(p).(valid := true)
  {
  }

  lemma MkInvalidMeans(p: Slot)
    ensures Unpack(MkInvalid(p)) == Unpack(p).(valid := false)
  {
  }

  // ---- any sequence of setters ---------------------------------------------------------------

  datatype Op = Cpu_(cpu: Word) | Idx_(idx: Word) | Vaddr_(vaddr: Word) | Vma_(vma: Word) | Valid_ | Invalid_

  function Do(p: Slot, o: Op): Slot {
    match o
    case Cpu_(c) => SetCpu(p, c)
    case Idx_(i) => SetIdx(p, i)
    case Vaddr_(a) => SetVaddr(p, a)
    case Vma_(v) => SetVma(p, v)
    case Valid_ => MkValid(p)
    case Invalid_ => MkInvalid(p)
  }

  /** What the setter means on unpacked fields. */
  function Means(f: Fields, o: Op): Fields {
    match o
    case Cpu_(c) => f.(cpu := c)
    case Idx_(i) => f.(idx := i)
    case Vaddr_(a) => f.(vaddr := a)
    case Vma_(v) => f.(vma := v)
    case Valid_ => f.(valid := true)
    case Invalid_ => f.(valid := false)
  }

  predicate ArgumentFits(o: Op) {
    match o
    case Cpu_(c) => c < 128
    case Idx_(i) => i < 32
    case Vaddr_(a) => Aligned(a)
    case Vma_(v) => Even(v)
    case _ => true
  }

  function DoAll(p: Slot, os: seq<Op>): Slot {
    if os == [] then p else Do(DoAll(p, os[..|os| - 1]), os[|os| - 1])
  }

  function MeanAll(f: Fields, os: seq<Op>): Fields {
    if os == [] then f else Means(MeanAll(f, os[..|os| - 1]), os[|os| - 1])
  }

  lemma DoMeans(p: Slot, o: Op)
    requires ArgumentFits(o)
    ensures Unpack(Do(p, o)) == Means(Unpack(p), o)
  {
    match o
    case Cpu_(c) => SetCpuExact(p, c);
    case Idx_(i) => SetIdxExact(p, i);
    case Vaddr_(a) => SetVaddrExact(p, a);
    case Vma_(v) => SetVmaExact(p, v);
    case Valid_ => MkValidMeans(p);
    case Invalid_ => MkInvalidMeans(p);
  }

  /** Through any sequence of setters the two words behave like five independent fields. */
  lemma {:induction false} WordsAreFields(p: Slot, os: seq<Op>)
    requires forall i :: 0 <= i < |os| ==> ArgumentFits(os[i])
    ensures Unpack(DoAll(p, os)) == MeanAll(Unpack(p), os)
    decreases |os|
  {
    if os != [] {
      WordsAreFields(p, os[..|os| - 1]);
      DoMeans(DoAll(p, os[..|os| - 1]), os[|os| - 1]);
    }
  }

  /** The setter calls with which dmap_add_or_update_rmap fills a slot, in its order. */
  function Fill(p: Slot, idx: Word, vaddr: Word, vma: Word, cpu: Word): Slot {
    SetCpu(MkValid(SetCpu(SetVma(SetVaddr(SetIdx(p, idx), vaddr), vma), 0)), cpu)
  }

  /** Whatever the slot held before, any fields that fit end up in it. */
  lemma FillMeans(p: Slot, idx: Word, vaddr: Word, vma: Word, cpu: Word)
    requires idx < 32 && Aligned(vaddr) && Even(vma) && cpu < 128
    ensures Unpack(Fill(p, idx, vaddr, vma, cpu)) == Fields(vaddr, idx, cpu, vma, true)
  {
    var p1 := Do(p, Idx_(idx));
    var p2 := Do(p1, Vaddr_(vaddr));
    var p3 := Do(p2, Vma_(vma));
    var p4 := Do(p3, Cpu_(0));
    var p5 := Do(p4, Valid_);
    DoMeans(p, Idx_(idx));
    DoMeans(p1, Vaddr_(vaddr));
    DoMeans(p2, Vma_(vma));
    DoMeans(p3, Cpu_(0));
    DoMeans(p4, Valid_);
    DoMeans(p5, Cpu_(cpu));
  }

  // ---- from a slot to its page ---------------------------------------------------------------

  /** sizeof(struct pr_vma_rmap): two words and a list head; the slots are at the front of a page. */
  const SLOT_SIZE: Word := 32

  function SlotAddress(page: Word, i: Word): Word { page + i * SLOT_SIZE }

  /** pvr_get_owner. */
  function Owner(address: Word, p: Slot): Word { address - Idx(p) * SLOT_SIZE }

  /** The slot at position i of a page finds that page exactly when its index field says i. */
  lemma OwnerExact(page: Word, i: Word, p: Slot)
    requires i < 32
    ensures Owner(SlotAddress(page, i), p) == page <==> Idx(p) == i
  {
    IdxSmall(p.vaddr);
    OffsetApart(page, i, Idx(p));
  }

  lemma OffsetApart(page: Word, i: Word, j: Word)
    requires i < 32 && j < 32
    ensures page + i * 32 - j * 32 == page <==> i == j
  {
  }
}
