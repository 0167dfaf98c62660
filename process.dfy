/** Process bookkeeping: the process control blocks, the bitmask of live
    pids, the current pid and PCB, and the kernel stack pointer the TSS
    hands to the processor on a trap (tss.esp0).  Starting a child
    (Launch) and returning to the parent (Restore) are functions over the
    whole bookkeeping state; the kernel globals that hold it are the fields
    of TaskState. */
module Process {
  import opened FileSystem
  import opened Paging
  import opened Descriptors

  const MAX_FDS: nat := 8
  const KB8: nat := 8192
  /** Size of the cmd_args array of a PCB. */
  const CMD_ARGS_LEN: nat := 129

  /** A process control block (pcb_t). */
  datatype Pcb = Pcb(
    id: nat,
    parentPid: nat,
    parentEsp0: bv32,
    parentEbp: bv32,
    openFiles: set<nat>,
    vidmapInuse: bv32,
    cmdArgs: seq<bv8>,
    fds: seq<FileDesc>)

  /** The PCB fields a fresh, zeroed kernel stack holds. */
  const ZeroPcb: Pcb := Pcb(0, 0, 0, 0, {}, 0, [], seq(MAX_FDS, _ => EmptyDesc))

  /** The process globals: activeProcesses, currentPID, current_PCB,
      tss.esp0, exception_flag and the eight PCBs, indexed by pid. */
  datatype ProcState = ProcState(
    activeProcesses: set<nat>,
    currentPid: nat,
    currentPcb: bv32,
    esp0: bv32,
    exceptionFlag: bool,
    pcbs: seq<Pcb>)

  // ---------------------------------------------------------------------
  // Kernel stacks
  // ---------------------------------------------------------------------

  /** USER_MEM_BASE_ADDR - (pid + 1) * 8 KB: where the PCB of `pid` lives. */
  function PcbAddr(pid: nat): bv32
    requires pid < MAX_PROCESSES
  {
    KernelStackTop(pid) - 0x2000
  }

  /** USER_MEM_BASE_ADDR - pid * 8 KB: the top of the kernel stack of `pid`,
      written out for the eight pids. */
  function KernelStackTop(pid: nat): bv32
    requires pid < MAX_PROCESSES
  {
    [0x800000, 0x7FE000, 0x7FC000, 0x7FA000, 0x7F8000, 0x7F6000, 0x7F4000, 0x7F2000][pid]
  }

  /** Each pid's PCB sits at the bottom of its own 8 KB kernel stack, and the
      eight stacks lie side by side below 8 MB without overlapping. */
  lemma KernelStacksDisjoint(p: nat, q: nat)
    requires p < MAX_PROCESSES && q < MAX_PROCESSES
    ensures KernelStackTop(p) - PcbAddr(p) == 0x2000
    ensures 0x7F0000 <= PcbAddr(p) < KernelStackTop(p) <= 0x800000
    ensures p < q ==> KernelStackTop(q) <= PcbAddr(p)
    ensures p != q ==> PcbAddr(p) != PcbAddr(q)
  {
  }

  // ---------------------------------------------------------------------
  // Well-formed bookkeeping
  // ---------------------------------------------------------------------

  predicate PcbShape(p: Pcb) {
    |p.fds| == MAX_FDS && p.id < MAX_PROCESSES && p.parentPid < MAX_PROCESSES &&
    |p.cmdArgs| < CMD_ARGS_LEN && (forall fd :: fd in p.openFiles ==> fd < MAX_FDS)
  }

  predicate ProcOk(s: ProcState) {
    |s.pcbs| == MAX_PROCESSES && s.currentPid < MAX_PROCESSES &&
    (forall pid :: pid in s.activeProcesses ==> pid < MAX_PROCESSES) &&
    s.currentPcb == PcbAddr(s.currentPid) &&
    forall i :: 0 <= i < MAX_PROCESSES ==> PcbShape(s.pcbs[i])
  }

  /** A descriptor the dispatch tables can serve: fd 0 reads the keyboard,
      fd 1 writes the screen, the others name an RTC, a directory or a file
      inside the disk image. */
  predicate DescOk(d: Disk, fd: nat, desc: FileDesc) {
    if fd == 0 then desc.ops == StdinOps
    else if fd == 1 then desc.ops == StdoutOps
    else ((desc.ops == RtcOps || desc.ops == DirOps || desc.ops == FileOps) &&
          (desc.ops == FileOps ==> desc.inodeNum < d.numInodes))
  }

  /** Every descriptor whose bit is set is one DescOk accepts. */
  predicate FdsOk(d: Disk, p: Pcb)
    requires PcbShape(p)
  {
    forall fd :: fd in p.openFiles ==> DescOk(d, fd, p.fds[fd])
  }

  const StdinDesc: FileDesc := FileDesc(StdinOps, 0, 0, 0)
  const StdoutDesc: FileDesc := FileDesc(StdoutOps, 0, 0, 0)

  // ---------------------------------------------------------------------
  // Starting a child and returning to its parent
  // ---------------------------------------------------------------------

  /** The bookkeeping half of execute once the image is loaded: fill the
      child's PCB (descriptors 2..7 keep whatever the slot held), mark the
      pid live, make it current, and point tss.esp0 at its kernel stack,
      remembering the parent's. */
  function Launch(s: ProcState, pid: nat, args: seq<bv8>, ebp: bv32): (r: ProcState)
    requires ProcOk(s) && pid < MAX_PROCESSES && |args| < CMD_ARGS_LEN
    ensures ProcOk(r)
    ensures r.activeProcesses == s.activeProcesses + {pid} && r.pcbs[pid].openFiles == {0, 1}
    ensures r.currentPid == pid && r.esp0 == KernelStackTop(pid)
    ensures r.pcbs[pid].parentPid == s.currentPid && r.pcbs[pid].parentEsp0 == s.esp0
    ensures r.pcbs[pid].id == pid && r.pcbs[pid].parentEbp == ebp
    ensures r.pcbs[pid].vidmapInuse == 0 && r.pcbs[pid].cmdArgs == args
    ensures r.pcbs[pid].fds[0] == StdinDesc && r.pcbs[pid].fds[1] == StdoutDesc
    ensures forall i :: 0 <= i < MAX_PROCESSES && i != pid ==> r.pcbs[i] == s.pcbs[i]
  {
    var old_ := s.pcbs[pid];
    var child := Pcb(pid, s.currentPid, s.esp0, ebp, {0, 1}, 0, args,
                     old_.fds[0 := StdinDesc][1 := StdoutDesc]);
    s.(activeProcesses := s.activeProcesses + {pid},
       currentPid := pid,
       currentPcb := PcbAddr(pid),
       esp0 := KernelStackTop(pid),
       pcbs := s.pcbs[pid := child])
  }

  /** The state changes of restore_parent: the current pid's bit is
      cleared, its parent becomes current and tss.esp0 gets the parent's
      value back.  The PCBs themselves are left as they are. */
  function Restore(s: ProcState): (r: ProcState)
    requires ProcOk(s)
    ensures ProcOk(r)
    ensures r.activeProcesses == s.activeProcesses - {s.pcbs[s.currentPid].id}
    ensures r.currentPid == s.pcbs[s.currentPid].parentPid
    ensures r.esp0 == s.pcbs[s.currentPid].parentEsp0
    ensures r.pcbs == s.pcbs && r.exceptionFlag == s.exceptionFlag
  {
    var c := s.pcbs[s.currentPid];
    s.(activeProcesses := s.activeProcesses - {c.id},
       currentPid := c.parentPid,
       currentPcb := PcbAddr(c.parentPid),
       esp0 := c.parentEsp0)
  }

  /** Returning from a child started on a free pid gives the parent back
      exactly the live pids, current pid, current PCB and kernel stack it
      had before the child started. */
  lemma LaunchThenRestore(s: ProcState, pid: nat, args: seq<bv8>, ebp: bv32)
    requires ProcOk(s) && pid < MAX_PROCESSES && |args| < CMD_ARGS_LEN
    requires pid !in s.activeProcesses
    ensures var t := Restore(Launch(s, pid, args, ebp));
      t.activeProcesses == s.activeProcesses && t.currentPid == s.currentPid &&
      t.currentPcb == s.currentPcb && t.esp0 == s.esp0 && t.exceptionFlag == s.exceptionFlag
  {
    var l := Launch(s, pid, args, ebp);
    assert l.pcbs[l.currentPid].id == pid;
  }

  /** The descriptors restore_parent closes when it has scanned fds
      `lo`..`hi`-1: those whose bit is set, in increasing order. */
  function OpenFdsBetween(openFiles: set<nat>, lo: nat, hi: nat): seq<nat>
    decreases hi
  {
    if hi <= lo then []
    else OpenFdsBetween(openFiles, lo, hi - 1) + (if hi - 1 in openFiles then [hi - 1] else [])
  }

  /** The closing order lists exactly the open descriptors in the range. */
  lemma {:induction false} OpenFdsBetweenMeaning(openFiles: set<nat>, lo: nat, hi: nat)
    ensures forall fd :: fd in OpenFdsBetween(openFiles, lo, hi) <==>
      lo <= fd < hi && fd in openFiles
    decreases hi
  {
    if hi > lo {
      OpenFdsBetweenMeaning(openFiles, lo, hi - 1);
    }
  }

  /** ... each once, in increasing order. */
  lemma {:induction false} OpenFdsBetweenIncreasing(openFiles: set<nat>, lo: nat, hi: nat)
    ensures forall a :: 0 <= a < |OpenFdsBetween(openFiles, lo, hi)| ==>
      lo <= OpenFdsBetween(openFiles, lo, hi)[a] < hi
    ensures forall a, b :: 0 <= a < b < |OpenFdsBetween(openFiles, lo, hi)| ==>
      OpenFdsBetween(openFiles, lo, hi)[a] < OpenFdsBetween(openFiles, lo, hi)[b]
    decreases hi
  {
    if hi > lo {
      OpenFdsBetweenIncreasing(openFiles, lo, hi - 1);
    }
  }

  /** The loop of restore_parent over descriptors 2..7, collecting the
      ones whose bit is set. */
  method ClosingOrder(openFiles: set<nat>) returns (closed: seq<nat>)
    ensures closed == OpenFdsBetween(openFiles, 2, MAX_FDS)
  {
    closed := [];
    var i := 2;
    while i < MAX_FDS
      invariant 2 <= i <= MAX_FDS
      invariant closed == OpenFdsBetween(openFiles, 2, i)
    {
      if i in openFiles {
        closed := closed + [i];
      }
      i := i + 1;
    }
  }

  // ---------------------------------------------------------------------
  // The kernel globals
  // ---------------------------------------------------------------------

  class TaskState {
    var activeProcesses: set<nat>
    var currentPid: nat
    var currentPcb: bv32
    /** tss.esp0 */
    var esp0: bv32
    var exceptionFlag: bool
    var pcbs: seq<Pcb>

    function State(): ProcState
      reads this
    {
      ProcState(activeProcesses, currentPid, currentPcb, esp0, exceptionFlag, pcbs)
    }

    ghost predicate Valid()
      reads this
    {
      ProcOk(State())
    }

    /** Boot state: no live pid, pid 0 current, zeroed PCBs. */
    constructor (bootEsp0: bv32)
      ensures Valid() && activeProcesses == {} && currentPid == 0 && esp0 == bootEsp0
      ensures !exceptionFlag && pcbs == seq(MAX_PROCESSES, _ => ZeroPcb)
    {
      activeProcesses := {};
      currentPid := 0;
      currentPcb := PcbAddr(0);
      esp0 := bootEsp0;
      exceptionFlag := false;
      pcbs := seq(MAX_PROCESSES, _ => ZeroPcb);
    }

    /** exception_flag = 0. */
    method LowerExceptionFlag()
      requires Valid()
      modifies this
      ensures Valid() && State() == old(State()).(exceptionFlag := false)
    {
      exceptionFlag := false;
    }

    /** restore_parent: close the open descriptors 2..7 (every close
        callback returns 0 and changes nothing, so `closed` records which
        were called, in order), hand back the parent's state, rebind the
        user window to the parent's frame and set the vidmap page as the
        parent's PCB asks. */
    method RestoreParent(pt: PageTables, ta: nat, ts: nat) returns (closed: seq<nat>)
      requires Valid() && pt.Valid() && ta < MAX_TERMINALS
      modifies this, pt
      ensures Valid() && pt.Valid()
      ensures State() == Restore(old(State()))
      ensures closed == OpenFdsBetween(old(pcbs[currentPid].openFiles), 2, MAX_FDS)
      ensures pt.UserWindowBoundTo(currentPid)
      ensures pt.pageDir[USER_MEM_PD_ENTRY + 1] ==
        Pde4KB(pt.userPageTableAddr, 0, PAGE_UNPRIVILEGED, 1, pcbs[currentPid].vidmapInuse & 1)
      ensures Frame4KB(pt.userPageTable[USER_VIDEO_SLOT]) == VideoTarget(ta, ts)
      ensures Present(pt.userPageTable[USER_VIDEO_SLOT]) == pcbs[currentPid].vidmapInuse & 1
      ensures pt.pageDir == old(pt.pageDir)[USER_MEM_PD_ENTRY := pt.pageDir[USER_MEM_PD_ENTRY]]
                                           [USER_MEM_PD_ENTRY + 1 := pt.pageDir[USER_MEM_PD_ENTRY + 1]]
      ensures pt.userPageTable == old(pt.userPageTable)[USER_VIDEO_SLOT := pt.userPageTable[USER_VIDEO_SLOT]]
      ensures pt.pageTable == old(pt.pageTable) && pt.tlbFlushes == old(pt.tlbFlushes) + 2
    {
      var c := pcbs[currentPid];
      ghost var post := Restore(State());
      closed := ClosingOrder(c.openFiles);
      esp0 := c.parentEsp0;
      activeProcesses := activeProcesses - {c.id};
      currentPid := c.parentPid;
      currentPcb := PcbAddr(c.parentPid);
      assert State() == post;
      pt.SetUserPage(currentPid);
      pt.SetVideoMemPage(pcbs[currentPid].vidmapInuse, ta, ts);
    }
  }
}
