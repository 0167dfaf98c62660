/** The address-space manager: one shared page directory, the low page table
    that maps video memory and its three shadow pages, and the user page
    table that holds the user-visible video window.  The assembly routines
    that load CR3/CR4 and flush the TLB are outside the model; a flush is
    recorded by incrementing `tlbFlushes`. */
module Paging {
  import opened Descriptors

  const KB4: nat := 0x1000
  const MB4: nat := 0x400000
  const VMEM_BASE_ADDR: nat := 0xB8000
  const KERNEL_MEM_BASE_ADDR: nat := 0x400000
  const USER_MEM_BASE_ADDR: nat := 0x800000
  const VIRTUAL_USER_BASE_ADDR: nat := 0x08000000
  const VIRTUAL_VMEM_BASE_ADDR: nat := 0x08401000
  const USER_MEM_PD_ENTRY: nat := 32
  const PAGE_TABLE_NUM: nat := 1024
  const PAGE_PRIVILEGED: bv32 := 0
  const PAGE_UNPRIVILEGED: bv32 := 1
  const MAX_TERMINALS: nat := 3
  const MAX_PROCESSES: nat := 8

  /** Slot of user_page_table that covers VIRTUAL_VMEM_BASE_ADDR
      (0x08401000 / 4 KB mod 1024; Syscalls.VidmapAddressIsVideoSlot). */
  const USER_VIDEO_SLOT: nat := 1

  /** Physical base of the 4 MB frame reserved for process `pid`, computed in
      32-bit arithmetic as the source does (0x800000 + pid * 4 MB). */
  function UserFrameBase(pid: nat): bv32 {
    0x800000 + ((((pid % 1024) as bv10) as bv32) << 22)
  }

  /** Physical page the user video window targets: the real screen when the
      active terminal is the shown one, its shadow page otherwise. */
  function VideoTarget(ta: nat, ts: nat): (a: bv32)
    requires ta < MAX_TERMINALS
    ensures ta == ts ==> a == 0xB8000
    ensures ta != ts ==> a == ShadowAddr(ta)
    ensures a & 0xFFF == 0
  {
    if ta == ts then 0xB8000
    else if ta == 0 then 0xB9000 else if ta == 1 then 0xBA000 else 0xBB000
  }

  /** A pid below MAX_PROCESSES stays below it as a 32-bit value. */
  lemma SmallPid(p: nat)
    requires p < MAX_PROCESSES
    ensures ((p % 1024) as bv10) as bv32 < 8
  {
    if p == 0 {} else if p == 1 {} else if p == 2 {} else if p == 3 {}
    else if p == 4 {} else if p == 5 {} else if p == 6 {} else {}
  }

  /** Frames of distinct pids never overlap, and all lie inside [8 MB, 40 MB). */
  lemma UserFramesDisjoint(p: nat, q: nat)
    requires p < MAX_PROCESSES && q < MAX_PROCESSES && p != q
    ensures 0x800000 <= UserFrameBase(p) && UserFrameBase(p) <= 0x2800000 - 0x400000
    ensures UserFrameBase(p) & 0x3FFFFF == 0
    ensures UserFrameBase(p) + 0x400000 <= UserFrameBase(q) ||
            UserFrameBase(q) + 0x400000 <= UserFrameBase(p)
  {
    SmallPid(p);
    SmallPid(q);
    assert ((p % 1024) as bv10) as bv32 != ((q % 1024) as bv10) as bv32;
  }

  class PageTables {
    var pageDir: seq<bv32>
    var pageTable: seq<bv32>
    var userPageTable: seq<bv32>
    /** Number of TLB flushes issued so far. */
    var tlbFlushes: nat
    /** Link-time addresses of the two page tables (4 KB aligned). */
    const pageTableAddr: bv32
    const userPageTableAddr: bv32

    ghost predicate Valid()
      reads this
    {
      |pageDir| == 1024 && |pageTable| == PAGE_TABLE_NUM && |userPageTable| == PAGE_TABLE_NUM
    }

    /** Which pid's frame the user window [128 MB, 132 MB) currently maps. */
    predicate UserWindowBoundTo(pid: nat)
      reads this
      requires Valid()
    {
      pageDir[USER_MEM_PD_ENTRY] == Pde4MB(UserFrameBase(pid), 0, PAGE_UNPRIVILEGED, 1, 1)
    }

    constructor (ptAddr: bv32, uptAddr: bv32)
      ensures Valid() && pageTableAddr == ptAddr && userPageTableAddr == uptAddr
      ensures tlbFlushes == 0
    {
      pageDir := seq(1024, _ => 0);
      pageTable := seq(PAGE_TABLE_NUM, _ => 0);
      userPageTable := seq(PAGE_TABLE_NUM, _ => 0);
      tlbFlushes := 0;
      pageTableAddr, userPageTableAddr := ptAddr, uptAddr;
    }

    /** init_Paging: fill the low page table (LowEntry gives each slot) and
        map the kernel 4 MB page at 4 MB. */
    method InitPaging()
      requires Valid()
      modifies this
      ensures Valid()
      ensures forall i :: 0 <= i < PAGE_TABLE_NUM ==> pageTable[i] == LowEntry(i)
      ensures pageDir[0] == Pde4KB(pageTableAddr, 0, PAGE_PRIVILEGED, 1, 1)
      ensures pageDir[1] == Pde4MB(KERNEL_BASE, 0, PAGE_PRIVILEGED, 1, 1)
      ensures forall i :: 2 <= i < 1024 ==> pageDir[i] == old(pageDir[i])
      ensures userPageTable == old(userPageTable) && tlbFlushes == old(tlbFlushes)
    {
      var i := 0;
      while i < PAGE_TABLE_NUM
        invariant 0 <= i <= PAGE_TABLE_NUM && |pageTable| == PAGE_TABLE_NUM
        invariant pageDir == old(pageDir) && userPageTable == old(userPageTable)
        invariant tlbFlushes == old(tlbFlushes)
        invariant forall k :: 0 <= k < i ==>
          pageTable[k] == PlainEntry(k)
      {
        pageTable := pageTable[i := PlainEntry(i)];
        i := i + 1;
      }
      pageTable := pageTable[VMEM_BASE_ADDR / KB4 := VideoEntry(VMEM_BASE)];
      i := 0;
      while i < MAX_TERMINALS
        invariant 0 <= i <= MAX_TERMINALS && |pageTable| == PAGE_TABLE_NUM
        invariant pageDir == old(pageDir) && userPageTable == old(userPageTable)
        invariant tlbFlushes == old(tlbFlushes)
        invariant forall k :: 0 <= k < PAGE_TABLE_NUM && (k < 0xB9 + i || k > 0xBB) ==>
          pageTable[k] == LowEntry(k)
      {
        pageTable := pageTable[VMEM_BASE_ADDR / KB4 + i + 1 := VideoEntry(ShadowAddr(i))];
        i := i + 1;
      }
      pageDir := pageDir[0 := Pde4KB(pageTableAddr, 0, PAGE_PRIVILEGED, 1, 1)];
      pageDir := pageDir[1 := Pde4MB(KERNEL_BASE, 0, PAGE_PRIVILEGED, 1, 1)];
    }

    /** set_user_page: rebind the user window (PDE 32) to the frame of `pid`
        as a present, user, read-write 4 MB page, then flush the TLB. */
    method SetUserPage(pid: nat)
      requires Valid()
      modifies this
      ensures Valid() && UserWindowBoundTo(pid)
      ensures pageDir == old(pageDir)[USER_MEM_PD_ENTRY := pageDir[USER_MEM_PD_ENTRY]]
      ensures Frame4MB(pageDir[USER_MEM_PD_ENTRY]) == UserFrameBase(pid) & 0xFFC00000
      ensures Present(pageDir[USER_MEM_PD_ENTRY]) == 1 && Bit7(pageDir[USER_MEM_PD_ENTRY]) == 1
      ensures UserSupervisor(pageDir[USER_MEM_PD_ENTRY]) == 1 && ReadWrite(pageDir[USER_MEM_PD_ENTRY]) == 1
      ensures pageTable == old(pageTable) && userPageTable == old(userPageTable)
      ensures tlbFlushes == old(tlbFlushes) + 1
    {
      pageDir := pageDir[USER_MEM_PD_ENTRY := Pde4MB(UserFrameBase(pid), 0, PAGE_UNPRIVILEGED, 1, 1)];
      tlbFlushes := tlbFlushes + 1;
    }

    /** set_video_mem_page: PDE 33 points at the user page table and its slot 1
        (virtual 0x08401000) at the active terminal's screen page; both are
        present exactly when `present & 1` is set.  Then flush the TLB. */
    method SetVideoMemPage(present: bv32, ta: nat, ts: nat)
      requires Valid() && ta < MAX_TERMINALS
      modifies this
      ensures Valid()
      ensures pageDir == old(pageDir)[USER_MEM_PD_ENTRY + 1 := pageDir[USER_MEM_PD_ENTRY + 1]]
      ensures pageDir[USER_MEM_PD_ENTRY + 1] ==
        Pde4KB(userPageTableAddr, 0, PAGE_UNPRIVILEGED, 1, present & 1)
      ensures userPageTable == old(userPageTable)[USER_VIDEO_SLOT := userPageTable[USER_VIDEO_SLOT]]
      ensures Frame4KB(userPageTable[USER_VIDEO_SLOT]) == VideoTarget(ta, ts)
      ensures Present(userPageTable[USER_VIDEO_SLOT]) == present & 1
      ensures Present(pageDir[USER_MEM_PD_ENTRY + 1]) == present & 1
      ensures pageTable == old(pageTable)
      ensures tlbFlushes == old(tlbFlushes) + 1
    {
      pageDir := pageDir[USER_MEM_PD_ENTRY + 1 :=
        Pde4KB(userPageTableAddr, 0, PAGE_UNPRIVILEGED, 1, present & 1)];
      var target: bv32;
      if ta != ts {
        target := ShadowAddr(ta);
      } else {
        target := 0xB8000;
      }
      assert target == VideoTarget(ta, ts);
      assert target & 0xFFFFF000 == target by { FrameOfAligned(target); }
      userPageTable := userPageTable[USER_VIDEO_SLOT :=
        Pte(target, 0, PAGE_UNPRIVILEGED, 1, present & 1)];
      tlbFlushes := tlbFlushes + 1;
    }
  }

  /** 4 KB * k, the physical address of page number k. */
  function PageAddr(k: nat): bv32
    requires k < PAGE_TABLE_NUM
  {
    ((k as bv10) as bv32) << 12
  }

  /** VMEM_BASE_ADDR + (j + 1) * 4 KB, the shadow page of terminal j. */
  function ShadowAddr(j: nat): bv32
    requires j < MAX_TERMINALS
  {
    0xB8000 + ((((j + 1) as bv2) as bv32) << 12)
  }

  const VMEM_BASE: bv32 := 0xB8000
  const KERNEL_BASE: bv32 := 0x400000

  /** Slot `i` of the low page table as init_Paging leaves it: the video
      page and the three shadow pages present and kernel-only, every other
      page identity-mapped, not present and user-accessible. */
  function LowEntry(i: nat): bv32
    requires i < PAGE_TABLE_NUM
  {
    if i == 0xB8 then VideoEntry(VMEM_BASE)
    else if 0xB9 <= i <= 0xBB then VideoEntry(ShadowAddr(i - 0xB9))
    else PlainEntry(i)
  }

  /** An identity-mapped, user-accessible, not-present page. */
  function PlainEntry(i: nat): bv32
    requires i < PAGE_TABLE_NUM
  {
    Pte(PageAddr(i), 0, PAGE_UNPRIVILEGED, 1, 0)
  }

  /** A present, kernel-only, writable page at `a`. */
  function VideoEntry(a: bv32): bv32 {
    Pte(a, 0, PAGE_PRIVILEGED, 1, 1)
  }

  /** Outside the video window the low table identity-maps every page as
      not present and user-accessible. */
  lemma PlainSlots(i: nat)
    requires i < PAGE_TABLE_NUM && !(0xB8 <= i <= 0xBB)
    ensures Frame4KB(LowEntry(i)) == PageAddr(i)
    ensures Present(LowEntry(i)) == 0 && UserSupervisor(LowEntry(i)) == 1
    ensures ReadWrite(LowEntry(i)) == 1
  {
    PageAddrAligned(i);
  }

  /** The video page and its three shadow pages are identity-mapped too. */
  lemma VideoFrames()
    ensures Frame4KB(LowEntry(0xB8)) == PageAddr(0xB8)
    ensures Frame4KB(LowEntry(0xB9)) == PageAddr(0xB9)
    ensures Frame4KB(LowEntry(0xBA)) == PageAddr(0xBA)
    ensures Frame4KB(LowEntry(0xBB)) == PageAddr(0xBB)
  {
    KernelPage(0xB8000);
    assert PageAddr(0xB8) == 0xB8000;
    KernelPage(0xB9000);
    assert PageAddr(0xB9) == 0xB9000 == ShadowAddr(0);
    KernelPage(0xBA000);
    assert PageAddr(0xBA) == 0xBA000 == ShadowAddr(1);
    KernelPage(0xBB000);
    assert PageAddr(0xBB) == 0xBB000 == ShadowAddr(2);
  }

  /** ... and they are exactly the present, kernel-only slots. */
  lemma VideoFlags()
    ensures Present(LowEntry(0xB8)) == 1 && UserSupervisor(LowEntry(0xB8)) == 0
    ensures Present(LowEntry(0xB9)) == 1 && UserSupervisor(LowEntry(0xB9)) == 0
    ensures Present(LowEntry(0xBA)) == 1 && UserSupervisor(LowEntry(0xBA)) == 0
    ensures Present(LowEntry(0xBB)) == 1 && UserSupervisor(LowEntry(0xBB)) == 0
  {
  }

  /** A present kernel-only entry for an aligned address keeps that address. */
  lemma KernelPage(a: bv32)
    requires a & 0xFFF == 0
    ensures Frame4KB(Pte(a, 0, PAGE_PRIVILEGED, 1, 1)) == a
    ensures Present(Pte(a, 0, PAGE_PRIVILEGED, 1, 1)) == 1
    ensures UserSupervisor(Pte(a, 0, PAGE_PRIVILEGED, 1, 1)) == 0
  {
  }

  /** Two rebinds of the user window change that directory entry only. */
  lemma WindowTwice(d0: seq<bv32>, d1: seq<bv32>, d2: seq<bv32>)
    requires |d0| == |d1| == |d2| == 1024
    requires d1 == d0[USER_MEM_PD_ENTRY := d1[USER_MEM_PD_ENTRY]]
    requires d2 == d1[USER_MEM_PD_ENTRY := d2[USER_MEM_PD_ENTRY]]
    ensures d2 == d0[USER_MEM_PD_ENTRY := d2[USER_MEM_PD_ENTRY]]
  {
  }

  /** Rebinding the user window and later rewriting the window and the
      vidmap entry changes those two directory entries and no other. */
  lemma WindowThenUserEntries(d0: seq<bv32>, d1: seq<bv32>, d2: seq<bv32>)
    requires |d0| == |d1| == |d2| == 1024
    requires d1 == d0[USER_MEM_PD_ENTRY := d1[USER_MEM_PD_ENTRY]]
    requires d2 == d1[USER_MEM_PD_ENTRY := d2[USER_MEM_PD_ENTRY]]
                     [USER_MEM_PD_ENTRY + 1 := d2[USER_MEM_PD_ENTRY + 1]]
    ensures d2 == d0[USER_MEM_PD_ENTRY := d2[USER_MEM_PD_ENTRY]]
                    [USER_MEM_PD_ENTRY + 1 := d2[USER_MEM_PD_ENTRY + 1]]
  {
  }

  /** A page address survives the frame mask. */
  lemma PageAddrAligned(k: nat)
    requires k < PAGE_TABLE_NUM
    ensures Frame4KB(PageAddr(k)) == PageAddr(k)
  {
  }

  /** An address with its low 12 bits clear is its own 4 KB frame. */
  lemma FrameOfAligned(a: bv32)
    requires a & 0xFFF == 0
    ensures a & 0xFFFFF000 == a
  {
  }
}
