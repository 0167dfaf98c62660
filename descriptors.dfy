/** Bit-packing of the x86 descriptors the kernel writes: interrupt gates,
    page-directory and page-table entries, and the base/limit fields of the
    LDT and TSS segment descriptors.  A union's `val` word is modelled as a
    `bv32`; each field is a slice of that word. */
module Descriptors {

  const KERNEL_CS: bv16 := 0x0010
  const DPL_PRIVILEGED: bv32 := 0
  const DPL_UNPRIVILEGED: bv32 := 3

  // ---------------------------------------------------------------------
  // Interrupt descriptor table entries
  // ---------------------------------------------------------------------

  /** One IDT entry, field by field as laid out in idt_desc_t. */
  datatype IdtEntry = IdtEntry(
    offset15_00: bv16,
    segSelector: bv16,
    reserved4: bv8,
    reserved3: bv1,
    reserved2: bv1,
    reserved1: bv1,
    size: bv1,
    reserved0: bv1,
    dpl: bv2,
    present: bv1,
    offset31_16: bv16)

  /** The handler address an entry points at, recombined from its halves. */
  function HandlerOffset(e: IdtEntry): bv32 {
    ((e.offset31_16 as bv32) << 16) | (e.offset15_00 as bv32)
  }

  /** True of an interrupt gate: interrupts stay masked inside the handler. */
  predicate IsIntGate(e: IdtEntry) {
    e.reserved3 == 0 && e.reserved2 == 1 && e.reserved1 == 1 && e.size == 1 &&
    e.reserved0 == 0 && e.reserved4 == 0
  }

  /** True of a trap gate: same layout with the type bit X set. */
  predicate IsTrapGate(e: IdtEntry) {
    e.reserved3 == 1 && e.reserved2 == 1 && e.reserved1 == 1 && e.size == 1 &&
    e.reserved0 == 0 && e.reserved4 == 0
  }

  /** SET_IDT_ENTRY_INT_GATE: every field is assigned; one-bit and two-bit
      fields keep the low bits of their argument. */
  function IntGate(handler: bv32, segment: bv16, priv: bv32, pres: bv32): (e: IdtEntry)
    ensures HandlerOffset(e) == handler
    ensures IsIntGate(e) && !IsTrapGate(e)
    ensures e.segSelector == segment
    ensures e.dpl as bv32 == priv & 3 && e.present as bv32 == pres & 1
  {
    IdtEntry(
      offset15_00 := (handler & 0xFFFF) as bv16,
      segSelector := segment,
      reserved4 := 0, reserved3 := 0, reserved2 := 1, reserved1 := 1,
      size := 1, reserved0 := 0,
      dpl := (priv & 3) as bv2,
      present := (pres & 1) as bv1,
      offset31_16 := ((handler & 0xFFFF0000) >> 16) as bv16)
  }

  /** SET_IDT_ENTRY_TRAP_GATE: as IntGate but with the trap type bit. */
  function TrapGate(handler: bv32, segment: bv16, priv: bv32, pres: bv32): (e: IdtEntry)
    ensures HandlerOffset(e) == handler
    ensures IsTrapGate(e) && !IsIntGate(e)
    ensures e.segSelector == segment
    ensures e.dpl as bv32 == priv & 3 && e.present as bv32 == pres & 1
  {
    IdtEntry(
      offset15_00 := (handler & 0xFFFF) as bv16,
      segSelector := segment,
      reserved4 := 0, reserved3 := 1, reserved2 := 1, reserved1 := 1,
      size := 1, reserved0 := 0,
      dpl := (priv & 3) as bv2,
      present := (pres & 1) as bv1,
      offset31_16 := ((handler & 0xFFFF0000) >> 16) as bv16)
  }

  /** SET_IDT_ENTRY: rewrites only the two offset halves of entry `v`. */
  method SetIdtEntry(idt: array<IdtEntry>, v: nat, handler: bv32)
    requires v < idt.Length
    modifies idt
    ensures HandlerOffset(idt[v]) == handler
    ensures idt[v].segSelector == old(idt[v].segSelector) && idt[v].dpl == old(idt[v].dpl)
    ensures idt[v].present == old(idt[v].present) && idt[v].reserved4 == old(idt[v].reserved4)
    ensures idt[v].reserved3 == old(idt[v].reserved3) && idt[v].reserved2 == old(idt[v].reserved2)
    ensures idt[v].reserved1 == old(idt[v].reserved1) && idt[v].size == old(idt[v].size)
    ensures idt[v].reserved0 == old(idt[v].reserved0)
    ensures forall i :: 0 <= i < idt.Length && i != v ==> idt[i] == old(idt[i])
  {
    idt[v] := idt[v].(offset31_16 := ((handler & 0xFFFF0000) >> 16) as bv16,
                      offset15_00 := (handler & 0xFFFF) as bv16);
  }

  // ---------------------------------------------------------------------
  // Page-directory and page-table entries (32-bit paging)
  // ---------------------------------------------------------------------

  /** Bits [pos, pos+width) of a packed entry. */
  function Field(w: bv32, pos: nat, width: nat): bv32
    requires pos + width <= 32 && width < 32
  {
    (w >> pos) & ((1 << width) - 1)
  }

  function Present(w: bv32): bv32 { Field(w, 0, 1) }
  function ReadWrite(w: bv32): bv32 { Field(w, 1, 1) }
  function UserSupervisor(w: bv32): bv32 { Field(w, 2, 1) }
  function WriteThrough(w: bv32): bv32 { Field(w, 3, 1) }
  function CacheDisable(w: bv32): bv32 { Field(w, 4, 1) }
  function Accessed(w: bv32): bv32 { Field(w, 5, 1) }
  /** Bit 6: `reserved` in a 4 KB PDE, `dirty` in a 4 MB PDE or a PTE. */
  function Bit6(w: bv32): bv32 { Field(w, 6, 1) }
  /** Bit 7: `page_size` in a PDE, the attribute index in a PTE. */
  function Bit7(w: bv32): bv32 { Field(w, 7, 1) }
  function Global(w: bv32): bv32 { Field(w, 8, 1) }
  function Available(w: bv32): bv32 { Field(w, 9, 3) }

  /** Address of the 4 KB frame (or page table) an entry points at. */
  function Frame4KB(w: bv32): bv32 { w & 0xFFFFF000 }
  /** Address of the 4 MB frame a large-page PDE points at. */
  function Frame4MB(w: bv32): bv32 { w & 0xFFC00000 }

  /** The flag bits every PD/PT macro assigns from its arguments. */
  function Flags(avail: bv32, priv: bv32, rw: bv32, pres: bv32): bv32 {
    (pres & 1) | ((rw & 1) << 1) | ((priv & 1) << 2) | ((avail & 7) << 9)
  }

  /** SET_4KB_PD_ENTRY: a directory entry pointing at a page table. */
  function Pde4KB(addr: bv32, avail: bv32, priv: bv32, rw: bv32, pres: bv32): (w: bv32)
    ensures Frame4KB(w) == addr & 0xFFFFF000
    ensures Present(w) == pres & 1 && ReadWrite(w) == rw & 1
    ensures UserSupervisor(w) == priv & 1 && Available(w) == avail & 7
    ensures WriteThrough(w) == 0 && CacheDisable(w) == 0 && Accessed(w) == 0
    ensures Bit6(w) == 0 && Global(w) == 0
    ensures Bit7(w) == 0  // page_size: points at a page table
  {
    Flags(avail, priv, rw, pres) | ((((addr & 0xFFFFF000) >> 12) & 0xFFFFF) << 12)
  }

  /** SET_4MB_PD_ENTRY: a directory entry mapping one 4 MB page.  The macro
      stores (addr & 0xFFC00000) >> 13 in the 19-bit field at bit 13. */
  function Pde4MB(addr: bv32, avail: bv32, priv: bv32, rw: bv32, pres: bv32): (w: bv32)
    ensures Frame4MB(w) == addr & 0xFFC00000
    ensures Field(w, 13, 9) == 0 && Field(w, 12, 1) == 0
    ensures Field(w, 13, 19) == (addr & 0xFFC00000) >> 13
    ensures Present(w) == pres & 1 && ReadWrite(w) == rw & 1
    ensures UserSupervisor(w) == priv & 1 && Available(w) == avail & 7
    ensures WriteThrough(w) == 0 && CacheDisable(w) == 0 && Accessed(w) == 0
    ensures Bit6(w) == 0 && Global(w) == 0
    ensures Bit7(w) == 1  // page_size: a 4 MB page
  {
    Flags(avail, priv, rw, pres) | (1 << 7) | ((((addr & 0xFFC00000) >> 13) & 0x7FFFF) << 13)
  }

  /** SET_PT_ENTRY: a page-table entry mapping one 4 KB page. */
  function Pte(addr: bv32, avail: bv32, priv: bv32, rw: bv32, pres: bv32): (w: bv32)
    ensures Frame4KB(w) == addr & 0xFFFFF000
    ensures Present(w) == pres & 1 && ReadWrite(w) == rw & 1
    ensures UserSupervisor(w) == priv & 1 && Available(w) == avail & 7
    ensures WriteThrough(w) == 0 && CacheDisable(w) == 0 && Accessed(w) == 0
    ensures Bit6(w) == 0 && Bit7(w) == 0 && Global(w) == 0
  {
    Flags(avail, priv, rw, pres) | ((((addr & 0xFFFFF000) >> 12) & 0xFFFFF) << 12)
  }

  // ---------------------------------------------------------------------
  // Segment descriptors (GDT entries for the LDT and the TSS)
  // ---------------------------------------------------------------------

  /** A GDT segment descriptor, field by field as in seg_desc_t. */
  class SegDesc {
    var segLim15_00: bv16
    var base15_00: bv16
    var base23_16: bv8
    var segType: bv4
    var sys: bv1
    var dpl: bv2
    var present: bv1
    var segLim19_16: bv4
    var avail: bv1
    var reserved: bv1
    var opsize: bv1
    var granularity: bv1
    var base31_24: bv8

    /** The 32-bit base, recombined from its three pieces. */
    function Base(): bv32
      reads this
    {
      ((base31_24 as bv32) << 24) | ((base23_16 as bv32) << 16) | (base15_00 as bv32)
    }

    /** The 20-bit limit, recombined from its two pieces. */
    function Limit(): bv32
      reads this
    {
      ((segLim19_16 as bv32) << 16) | (segLim15_00 as bv32)
    }

    /** The fields the runtime setters never touch. */
    function Attributes(): (bv4, bv1, bv2, bv1, bv1, bv1, bv1, bv1)
      reads this
    {
      (segType, sys, dpl, present, avail, reserved, opsize, granularity)
    }

    constructor ()
      ensures Base() == 0 && Limit() == 0
    {
      segLim15_00, base15_00, base23_16, segLim19_16, base31_24 := 0, 0, 0, 0, 0;
    }

    /** SET_LDT_PARAMS: split base into 8+8+16 bits and limit into 4+16. */
    method SetLdtParams(addr: bv32, lim: bv32)
      modifies this
      ensures Base() == addr && Limit() == lim & 0xFFFFF
      ensures Attributes() == old(Attributes())
    {
      base31_24 := ((addr & 0xFF000000) >> 24) as bv8;
      base23_16 := ((addr & 0x00FF0000) >> 16) as bv8;
      base15_00 := (addr & 0x0000FFFF) as bv16;
      segLim19_16 := ((lim & 0x000F0000) >> 16) as bv4;
      segLim15_00 := (lim & 0x0000FFFF) as bv16;
    }

    /** SET_TSS_PARAMS: the same split, applied to the TSS descriptor. */
    method SetTssParams(addr: bv32, lim: bv32)
      modifies this
      ensures Base() == addr && Limit() == lim & 0xFFFFF
      ensures Attributes() == old(Attributes())
    {
      base31_24 := ((addr & 0xFF000000) >> 24) as bv8;
      base23_16 := ((addr & 0x00FF0000) >> 16) as bv8;
      base15_00 := (addr & 0x0000FFFF) as bv16;
      segLim19_16 := ((lim & 0x000F0000) >> 16) as bv4;
      segLim15_00 := (lim & 0x0000FFFF) as bv16;
    }
  }
}
