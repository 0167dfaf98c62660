/** The interrupt descriptor table and the exception handlers.  The table
    sends the twenty processor exceptions, the three device interrupts
    (timer, keyboard, real-time clock) and the system-call vector to their
    assembly wrappers; the wrappers' addresses are not known here and come
    in as a table indexed by vector.  An exception either kills the
    running process through halt, with the exception flag raised, or
    freezes the machine. */
module Interrupts {
  import opened Descriptors
  import opened Paging
  import opened Process
  import opened Terminal
  import opened FileSystem
  import opened Syscalls

  const IDT_SIZE: nat := 256
  const PIT_VECTOR: nat := 0x20
  const KEYBOARD_VECTOR: nat := 0x21
  const RTC_VECTOR: nat := 0x28
  const SYSCALL_VECTOR: nat := 0x80
  /** Vectors 0x00 to 0x13 are the processor exceptions the kernel handles. */
  const NUM_EXCEPTIONS: nat := 0x14

  /** The entry every vector gets first: a non-present DPL 3 trap gate
      with a null handler and a null selector. */
  const UNUSED_GATE: IdtEntry := TrapGate(0, 0, DPL_UNPRIVILEGED, 0)

  /** Vectors whose entry populate_IDT makes present. */
  predicate Installed(v: nat) {
    v < NUM_EXCEPTIONS || v == PIT_VECTOR || v == KEYBOARD_VECTOR || v == RTC_VECTOR ||
    v == SYSCALL_VECTOR
  }

  /** The entry populate_IDT leaves at vector `v`, given the address of
      each vector's wrapper. */
  function IdtAt(v: nat, wrapper: seq<bv32>): IdtEntry
    requires v < IDT_SIZE && |wrapper| == IDT_SIZE
  {
    if v < NUM_EXCEPTIONS then
      if v == 2 then IntGate(wrapper[v], KERNEL_CS, DPL_PRIVILEGED, 1)
      else TrapGate(wrapper[v], KERNEL_CS, if v == 0x0F then DPL_UNPRIVILEGED else DPL_PRIVILEGED, 1)
    else if v == PIT_VECTOR || v == KEYBOARD_VECTOR || v == RTC_VECTOR then
      IntGate(wrapper[v], KERNEL_CS, DPL_PRIVILEGED, 1)
    else if v == SYSCALL_VECTOR then
      TrapGate(wrapper[v], KERNEL_CS, DPL_UNPRIVILEGED, 1)
    else
      UNUSED_GATE
  }

  /** The table's layout: exactly the installed vectors are present, each
      dispatching to its wrapper through the kernel code segment; NMI and
      the three device vectors are interrupt gates and every other vector
      a trap gate; only the assertion-failure vector 0x0F and the
      system-call vector can be raised from user level (DPL 3), besides
      the absent entries, which keep DPL 3. */
  lemma IdtLayout(v: nat, wrapper: seq<bv32>)
    requires v < IDT_SIZE && |wrapper| == IDT_SIZE
    ensures var e := IdtAt(v, wrapper);
      (e.present == 1 <==> Installed(v)) &&
      (Installed(v) ==> HandlerOffset(e) == wrapper[v] && e.segSelector == KERNEL_CS) &&
      (!Installed(v) ==> HandlerOffset(e) == 0 && e.segSelector == 0) &&
      (IsIntGate(e) <==> v == 2 || v == PIT_VECTOR || v == KEYBOARD_VECTOR || v == RTC_VECTOR) &&
      (IsTrapGate(e) <==> !IsIntGate(e)) &&
      (e.dpl == 3 <==> v == 0x0F || v == SYSCALL_VECTOR || !Installed(v)) &&
      (e.dpl == 0 <==> !(e.dpl == 3))
  {
  }

  /** populate_IDT: blank all 256 entries, install the exception, device
      and system-call gates, and lower the exception flag. */
  method PopulateIdt(idt: array<IdtEntry>, wrapper: seq<bv32>, task: TaskState)
    requires idt.Length == IDT_SIZE && |wrapper| == IDT_SIZE && task.Valid()
    modifies idt, task
    ensures task.Valid()
    ensures forall v :: 0 <= v < IDT_SIZE ==> idt[v] == IdtAt(v, wrapper)
    ensures task.State() == old(task.State()).(exceptionFlag := false)
  {
    var i := 0;
    while i < IDT_SIZE
      invariant 0 <= i <= IDT_SIZE
      invariant forall j :: 0 <= j < i ==> idt[j] == UNUSED_GATE
      invariant unchanged(task)
    {
      idt[i] := TrapGate(0, 0, DPL_UNPRIVILEGED, 0);
      i := i + 1;
    }
    InstallGates00To04(idt, wrapper);
    InstallGates05To09(idt, wrapper);
    InstallGates0ATo0E(idt, wrapper);
    InstallGates0FTo13(idt, wrapper);
    InstallDeviceGates(idt, wrapper);
    task.exceptionFlag := false;
  }

  /** The gates of exceptions 0x00 to 0x04, in the order populate_IDT
      writes them. */
  method InstallGates00To04(idt: array<IdtEntry>, wrapper: seq<bv32>)
    requires idt.Length == IDT_SIZE && |wrapper| == IDT_SIZE
    modifies idt
    ensures forall v :: 0x00 <= v < 0x05 ==> idt[v] == IdtAt(v, wrapper)
    ensures forall v :: 0 <= v < IDT_SIZE && !(0x00 <= v < 0x05) ==> idt[v] == old(idt[v])
  {
    idt[0x00] := TrapGate(wrapper[0x00], KERNEL_CS, DPL_PRIVILEGED, 1);
    idt[0x01] := TrapGate(wrapper[0x01], KERNEL_CS, DPL_PRIVILEGED, 1);
    idt[0x02] := IntGate(wrapper[0x02], KERNEL_CS, DPL_PRIVILEGED, 1);
    idt[0x03] := TrapGate(wrapper[0x03], KERNEL_CS, DPL_PRIVILEGED, 1);
    idt[0x04] := TrapGate(wrapper[0x04], KERNEL_CS, DPL_PRIVILEGED, 1);
    assert idt[0x00] == IdtAt(0x00, wrapper);
    assert idt[0x01] == IdtAt(0x01, wrapper);
    assert idt[0x02] == IdtAt(0x02, wrapper);
    assert idt[0x03] == IdtAt(0x03, wrapper);
    assert idt[0x04] == IdtAt(0x04, wrapper);
    forall v | 0x00 <= v < 0x05
      ensures idt[v] == IdtAt(v, wrapper)
    {
      assert v == 0x00 || v == 0x01 || v == 0x02 || v == 0x03 || v == 0x04;
    }
  }

  /** The gates of exceptions 0x05 to 0x09. */
  method InstallGates05To09(idt: array<IdtEntry>, wrapper: seq<bv32>)
    requires idt.Length == IDT_SIZE && |wrapper| == IDT_SIZE
    modifies idt
    ensures forall v :: 0x05 <= v < 0x0A ==> idt[v] == IdtAt(v, wrapper)
    ensures forall v :: 0 <= v < IDT_SIZE && !(0x05 <= v < 0x0A) ==> idt[v] == old(idt[v])
  {
    idt[0x05] := TrapGate(wrapper[0x05], KERNEL_CS, DPL_PRIVILEGED, 1);
    idt[0x06] := TrapGate(wrapper[0x06], KERNEL_CS, DPL_PRIVILEGED, 1);
    idt[0x07] := TrapGate(wrapper[0x07], KERNEL_CS, DPL_PRIVILEGED, 1);
    idt[0x08] := TrapGate(wrapper[0x08], KERNEL_CS, DPL_PRIVILEGED, 1);
    idt[0x09] := TrapGate(wrapper[0x09], KERNEL_CS, DPL_PRIVILEGED, 1);
    assert idt[0x05] == IdtAt(0x05, wrapper);
    assert idt[0x06] == IdtAt(0x06, wrapper);
    assert idt[0x07] == IdtAt(0x07, wrapper);
    assert idt[0x08] == IdtAt(0x08, wrapper);
    assert idt[0x09] == IdtAt(0x09, wrapper);
    forall v | 0x05 <= v < 0x0A
      ensures idt[v] == IdtAt(v, wrapper)
    {
      assert v == 0x05 || v == 0x06 || v == 0x07 || v == 0x08 || v == 0x09;
    }
  }

  /** The gates of exceptions 0x0A to 0x0E. */
  method InstallGates0ATo0E(idt: array<IdtEntry>, wrapper: seq<bv32>)
    requires idt.Length == IDT_SIZE && |wrapper| == IDT_SIZE
    modifies idt
    ensures forall v :: 0x0A <= v < 0x0F ==> idt[v] == IdtAt(v, wrapper)
    ensures forall v :: 0 <= v < IDT_SIZE && !(0x0A <= v < 0x0F) ==> idt[v] == old(idt[v])
  {
    idt[0x0A] := TrapGate(wrapper[0x0A], KERNEL_CS, DPL_PRIVILEGED, 1);
    idt[0x0B] := TrapGate(wrapper[0x0B], KERNEL_CS, DPL_PRIVILEGED, 1);
    idt[0x0C] := TrapGate(wrapper[0x0C], KERNEL_CS, DPL_PRIVILEGED, 1);
    idt[0x0D] := TrapGate(wrapper[0x0D], KERNEL_CS, DPL_PRIVILEGED, 1);
    idt[0x0E] := TrapGate(wrapper[0x0E], KERNEL_CS, DPL_PRIVILEGED, 1);
    assert idt[0x0A] == IdtAt(0x0A, wrapper);
    assert idt[0x0B] == IdtAt(0x0B, wrapper);
    assert idt[0x0C] == IdtAt(0x0C, wrapper);
    assert idt[0x0D] == IdtAt(0x0D, wrapper);
    assert idt[0x0E] == IdtAt(0x0E, wrapper);
    forall v | 0x0A <= v < 0x0F
      ensures idt[v] == IdtAt(v, wrapper)
    {
      assert v == 0x0A || v == 0x0B || v == 0x0C || v == 0x0D || v == 0x0E;
    }
  }

  /** The gates of exceptions 0x0F to 0x13. */
  method InstallGates0FTo13(idt: array<IdtEntry>, wrapper: seq<bv32>)
    requires idt.Length == IDT_SIZE && |wrapper| == IDT_SIZE
    modifies idt
    ensures forall v :: 0x0F <= v < 0x14 ==> idt[v] == IdtAt(v, wrapper)
    ensures forall v :: 0 <= v < IDT_SIZE && !(0x0F <= v < 0x14) ==> idt[v] == old(idt[v])
  {
    idt[0x0F] := TrapGate(wrapper[0x0F], KERNEL_CS, DPL_UNPRIVILEGED, 1);
    idt[0x10] := TrapGate(wrapper[0x10], KERNEL_CS, DPL_PRIVILEGED, 1);
    idt[0x11] := TrapGate(wrapper[0x11], KERNEL_CS, DPL_PRIVILEGED, 1);
    idt[0x12] := TrapGate(wrapper[0x12], KERNEL_CS, DPL_PRIVILEGED, 1);
    idt[0x13] := TrapGate(wrapper[0x13], KERNEL_CS, DPL_PRIVILEGED, 1);
    assert idt[0x0F] == IdtAt(0x0F, wrapper);
    assert idt[0x10] == IdtAt(0x10, wrapper);
    assert idt[0x11] == IdtAt(0x11, wrapper);
    assert idt[0x12] == IdtAt(0x12, wrapper);
    assert idt[0x13] == IdtAt(0x13, wrapper);
    forall v | 0x0F <= v < 0x14
      ensures idt[v] == IdtAt(v, wrapper)
    {
      assert v == 0x0F || v == 0x10 || v == 0x11 || v == 0x12 || v == 0x13;
    }
  }

  /** The timer, keyboard and RTC interrupt gates and the system-call
      trap gate. */
  method InstallDeviceGates(idt: array<IdtEntry>, wrapper: seq<bv32>)
    requires idt.Length == IDT_SIZE && |wrapper| == IDT_SIZE
    modifies idt
    ensures forall v :: v in {PIT_VECTOR, KEYBOARD_VECTOR, RTC_VECTOR, SYSCALL_VECTOR} ==> idt[v] == IdtAt(v, wrapper)
    ensures forall v :: 0 <= v < IDT_SIZE && v !in {PIT_VECTOR, KEYBOARD_VECTOR, RTC_VECTOR, SYSCALL_VECTOR} ==>
      idt[v] == old(idt[v])
  {
    idt[0x20] := IntGate(wrapper[0x20], KERNEL_CS, DPL_PRIVILEGED, 1);
    idt[0x21] := IntGate(wrapper[0x21], KERNEL_CS, DPL_PRIVILEGED, 1);
    idt[0x28] := IntGate(wrapper[0x28], KERNEL_CS, DPL_PRIVILEGED, 1);
    idt[0x80] := TrapGate(wrapper[0x80], KERNEL_CS, DPL_UNPRIVILEGED, 1);
  }

  /** The exceptions whose handler never returns: NMI, double fault,
      coprocessor segment overrun, invalid TSS, segment not present, stack
      segment fault, general protection, FPU error, alignment check,
      machine check and SIMD floating point. */
  predicate Freezes(v: nat) {
    v == 2 || (8 <= v <= 13) || (16 <= v <= 19)
  }

  /** Where an exception leaves the machine. */
  datatype ExceptionOutcome = Frozen | Halted(h: HaltOutcome)

  /** The handler of exception `v` (below 0x14): freeze, or raise the
      exception flag and halt the running process with status 0, so that
      its parent sees 256. */
  method HandleException(d: Disk, v: nat, task: TaskState, con: Console, pt: PageTables, ebp: bv32)
    returns (r: ExceptionOutcome, image: seq<bv8>)
    requires v < NUM_EXCEPTIONS
    requires DiskOk(d) && task.Valid() && con.Valid() && pt.Valid()
    modifies task, con, pt
    ensures task.Valid() && con.Valid() && pt.Valid()
    ensures r.Frozen? <==> Freezes(v)
    ensures r.Frozen? ==> unchanged(task) && unchanged(con) && unchanged(pt) && image == []
    ensures r.Halted? ==>
      (v == 0 || v == 1 || v == 3 || v == 4 || v == 5 || v == 6 || v == 7 || v == 14 || v == 15)
    ensures var s := old(task.State()).(exceptionFlag := true);
      r.Halted? && r.h.ToParent? ==>
        r.h.value == EXCEPTION_STATUS &&
        r.h.ebp == s.pcbs[s.currentPid].parentEbp &&
        task.State() == Restore(Released(s)).(exceptionFlag := false) &&
        pt.UserWindowBoundTo(task.currentPid) &&
        Present(pt.userPageTable[USER_VIDEO_SLOT]) == task.pcbs[task.currentPid].vidmapInuse & 1 &&
        Frame4KB(pt.userPageTable[USER_VIDEO_SLOT]) == VideoTarget(con.taIdx, con.tsIdx) &&
        pt.pageDir[USER_MEM_PD_ENTRY + 1] ==
          Pde4KB(pt.userPageTableAddr, 0, PAGE_UNPRIVILEGED, 1, task.pcbs[task.currentPid].vidmapInuse & 1) &&
        image == []
    ensures var s := old(task.State()).(exceptionFlag := true);
      var p := ExecCheck(d, SHELL, Released(s).activeProcesses);
      r.Halted? ==>
        (r.h.Respawned? <==> old(task.currentPid) < MAX_TERMINALS && p.Load?) &&
        (r.h.Respawned? ==>
          task.State() == RespawnAsWritten(s, p.pid, ebp) && task.exceptionFlag &&
          pt.UserWindowBoundTo(p.pid) &&
          r.h.eip == EntryPoint(d, p.e.inodeIdx) &&
          image == FileData(d, p.e.inodeIdx)[..ImageLength(d, p.e)] &&
          pt.pageDir == old(pt.pageDir)[USER_MEM_PD_ENTRY := pt.pageDir[USER_MEM_PD_ENTRY]] &&
          pt.pageTable == old(pt.pageTable) && pt.userPageTable == old(pt.userPageTable) &&
          pt.tlbFlushes == old(pt.tlbFlushes) + 1) &&
        (r.h.ToParent? ==>
          pt.pageDir == old(pt.pageDir)[USER_MEM_PD_ENTRY := pt.pageDir[USER_MEM_PD_ENTRY]]
                                       [USER_MEM_PD_ENTRY + 1 := pt.pageDir[USER_MEM_PD_ENTRY + 1]] &&
          pt.userPageTable == old(pt.userPageTable)[USER_VIDEO_SLOT := pt.userPageTable[USER_VIDEO_SLOT]] &&
          pt.pageTable == old(pt.pageTable) &&
          pt.tlbFlushes == old(pt.tlbFlushes) +
            (if old(task.currentPid) < MAX_TERMINALS then ExecFlushes(p) else 0) + 2)
    ensures r.Halted? ==>
      con.terms == old(con.terms)[con.taIdx := Mirror(old(con.terms[con.taIdx]), task.State())] &&
      con.taIdx == old(con.taIdx) && con.tsIdx == old(con.tsIdx) && con.vidPointer == old(con.vidPointer) &&
      con.screenX == old(con.screenX) && con.screenY == old(con.screenY) &&
      con.cursorX == old(con.cursorX) && con.cursorY == old(con.cursorY) &&
      con.vmem == old(con.vmem) && con.output == old(con.output)
  {
    if Freezes(v) {
      return Frozen, [];
    }
    task.exceptionFlag := true;
    assert task.State() == old(task.State()).(exceptionFlag := true);
    var h;
    h, image := Halt(d, 0, task, con, pt, ebp);
    r := Halted(h);
  }
}
