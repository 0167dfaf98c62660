/** The system calls.  execute parses a command line, checks the program's
    ELF signature, takes the lowest free pid, loads the image and starts
    it; halt returns to the parent (or respawns a base shell); read, write,
    open and close go through the current process's eight descriptor
    slots; getargs, vidmap, set_handler and sigreturn complete the table.
    The kernel globals are the objects each call is handed: the process
    bookkeeping (TaskState), the terminals (Console), the page tables and
    the disk image.  The assembly that enters user mode or returns to the
    parent's execute is not modelled: its arguments are the calls'
    results. */
module Syscalls {
  import opened CStrings
  import opened FileSystem
  import opened Paging
  import opened Process
  import opened Terminal
  import opened Rtc
  import opened Descriptors

  /** Longest executable name execute keeps. */
  const FNAME_MAX: nat := 32
  /** Size of execute's args buffer. */
  const ARGS_LEN: nat := 128
  /** Bytes 1..3 of an ELF image. */
  const ELF_MAGIC: seq<bv8> := [0x45, 0x4C, 0x46]
  /** Offset of the entry point (e_entry) in an ELF32 header. */
  const ENTRY_OFFSET: nat := 24
  /** The command halt uses to respawn a base shell. */
  const SHELL: seq<bv8> := [0x73, 0x68, 0x65, 0x6C, 0x6C]
  /** The user address vidmap hands out: the video page's slot in the user
      page table. */
  const VIDMAP_ADDR: bv32 := 0x08401000
  const USER_WINDOW_LO: bv32 := 0x08000000
  const USER_WINDOW_HI: bv32 := 0x08400000
  /** The value halt delivers for a process an exception ended. */
  const EXCEPTION_STATUS: nat := 256

  // ---------------------------------------------------------------------
  // Parsing a command line
  // ---------------------------------------------------------------------

  predicate IsDelim(c: bv8) {
    c == SPACE || c == 0
  }

  /** The position of the first ' ' or NUL of the command at or after `i`
      (the end of the sequence counts as NUL). */
  function DelimFrom(cmd: seq<bv8>, i: nat): (k: nat)
    requires i <= |cmd|
    ensures i <= k <= |cmd|
    ensures forall j :: i <= j < k ==> !IsDelim(cmd[j])
    ensures IsDelim(At(cmd, k))
    decreases |cmd| - i
  {
    if i == |cmd| || IsDelim(cmd[i]) then i else DelimFrom(cmd, i + 1)
  }

  /** Where the executable name ends: args_idx after the scan. */
  function Delim(cmd: seq<bv8>): (k: nat)
    ensures k <= |cmd| && IsDelim(At(cmd, k))
    ensures forall j :: 0 <= j < k ==> !IsDelim(cmd[j])
  {
    DelimFrom(cmd, 0)
  }

  /** execute's scan for the end of the executable name. */
  method ScanName(cmd: seq<bv8>) returns (argsIdx: nat)
    ensures argsIdx == Delim(cmd)
  {
    argsIdx := 0;
    while !IsDelim(At(cmd, argsIdx))
      invariant argsIdx <= |cmd| && DelimFrom(cmd, argsIdx) == Delim(cmd)
      decreases |cmd| - argsIdx
    {
      argsIdx := argsIdx + 1;
    }
  }

  /** The executable name, as the C string strncpy leaves in exe_fname:
      the bytes before the first ' ' or NUL, at most 32 of them. */
  function ExeName(cmd: seq<bv8>): (name: seq<bv8>)
    ensures |name| <= FNAME_MAX && |name| <= |cmd| && name == cmd[..|name|]
    ensures forall j :: 0 <= j < |name| ==> !IsDelim(name[j])
    ensures |name| < FNAME_MAX ==> IsDelim(At(cmd, |name|))
  {
    var k := Delim(cmd);
    if k >= FNAME_MAX then cmd[..FNAME_MAX] else cmd[..k]
  }

  /** The count execute hands strncpy for the arguments, as written:
      128 - args_idx in uint32 arithmetic. */
  function ArgCopyCountAsWritten(delim: nat): nat {
    (ARGS_LEN - delim) % U32
  }

  /** The count that keeps the copy inside the 128-byte args buffer. */
  function ArgCopyCount(delim: nat): (n: nat)
    ensures delim + n <= ARGS_LEN || n == 0
  {
    if delim <= ARGS_LEN then ARGS_LEN - delim else 0
  }

  /** The two counts agree whenever the name ends inside the buffer; past
      it the corrected count copies nothing. */
  lemma ArgCopyCountCorrected(delim: nat)
    ensures delim <= ARGS_LEN ==> ArgCopyCount(delim) == ArgCopyCountAsWritten(delim)
    ensures ArgCopyCount(delim) <= ARGS_LEN
    ensures delim > ARGS_LEN ==> ArgCopyCount(delim) == 0
  {
  }

  /** A 130-byte name: 128 - 130 wraps to 0xFFFFFFFE, so strncpy would
      write (and pad) far past the 128-byte args buffer. */
  lemma ArgCopyCountWraps()
    ensures var cmd := seq(130, _ => 0x61 as bv8);
      Delim(cmd) == 130 && ArgCopyCountAsWritten(Delim(cmd)) == 0xFFFF_FFFE &&
      ArgCopyCountAsWritten(Delim(cmd)) > ARGS_LEN
  {
  }

  /** execute's args buffer after the strncpy of the tail that starts at
      the delimiter.  The buffer is uninitialised stack memory in the
      source; here it starts out zero. */
  function ArgsBuf(cmd: seq<bv8>): (a: seq<bv8>)
    ensures |a| == ARGS_LEN
  {
    var k := Delim(cmd);
    var n := ArgCopyCount(k);
    Strncpy(cmd[k..], n) + seq(ARGS_LEN - n, _ => 0)
  }

  /** The cmd_args execute stores in the PCB: nothing when args[0] is NUL,
      otherwise the C string that starts at args[1]. */
  function CmdArgs(cmd: seq<bv8>): (r: seq<bv8>)
    ensures |r| < ARGS_LEN
  {
    var a := ArgsBuf(cmd);
    if a[0] == 0 then [] else a[1..StrnLenFrom(a, ARGS_LEN, 1)]
  }

  /** The first NUL of `s` at or after `i`, capped at `n`, is the one
      position with no NUL before it from `i` on. */
  lemma {:induction false} StrnLenIs(s: seq<bv8>, n: nat, i: nat, k: nat)
    requires i <= k <= n
    requires forall j :: i <= j < k ==> At(s, j) != 0
    requires k < n ==> At(s, k) == 0
    ensures StrnLenFrom(s, n, i) == k
    decreases k - i
  {
    if i < k {
      StrnLenIs(s, n, i + 1, k);
    }
  }

  /** Where the arguments end: the first NUL after the name, capped at
      the end of the args buffer (the name's end itself when the name
      fills the buffer). */
  function ArgsEnd(cmd: seq<bv8>): (e: nat)
    ensures Delim(cmd) <= e <= |cmd|
    ensures Delim(cmd) <= ARGS_LEN ==> e <= ARGS_LEN
    ensures forall j :: Delim(cmd) <= j < e ==> At(cmd, j) != 0
    ensures Delim(cmd) <= e < ARGS_LEN ==> At(cmd, e) == 0
  {
    var k := Delim(cmd);
    if k <= ARGS_LEN then
      var e := StrnLenFrom(cmd, ARGS_LEN, k);
      assert At(cmd, |cmd|) == 0;
      e
    else k
  }

  lemma AtTail(cmd: seq<bv8>, k: nat, j: nat)
    requires k <= |cmd|
    ensures At(cmd[k..], j) == At(cmd, k + j)
  {
  }

  /** The strncpy from the delimiter copies the command up to ArgsEnd and
      leaves zero behind it. */
  lemma ArgsBufBytes(cmd: seq<bv8>)
    ensures var k := Delim(cmd); var a := ArgsBuf(cmd);
      forall j :: 0 <= j < ARGS_LEN ==> a[j] == if k + j < ArgsEnd(cmd) then At(cmd, k + j) else 0
  {
    var k := Delim(cmd);
    var n := ArgCopyCount(k);
    var tail := cmd[k..];
    var e := ArgsEnd(cmd);
    if k <= ARGS_LEN {
      forall j | 0 <= j < e - k
        ensures At(tail, j) != 0
      {
        AtTail(cmd, k, j);
      }
      if e - k < n {
        AtTail(cmd, k, e - k);
      }
      StrnLenIs(tail, n, 0, e - k);
      forall j | 0 <= j < n
        ensures At(tail, j) == At(cmd, k + j)
      {
        AtTail(cmd, k, j);
      }
    }
  }

  /** A command that ends at its name, or whose name fills the buffer,
      has no arguments. */
  lemma NoArgs(cmd: seq<bv8>)
    requires At(cmd, Delim(cmd)) == 0 || Delim(cmd) >= ARGS_LEN
    ensures CmdArgs(cmd) == []
  {
    ArgsBufBytes(cmd);
  }

  /** Otherwise the arguments are the command's tail after the one
      delimiter, up to the first NUL and within the args buffer. */
  lemma ArgsSlice(cmd: seq<bv8>)
    requires At(cmd, Delim(cmd)) == SPACE && Delim(cmd) < ARGS_LEN
    ensures CmdArgs(cmd) == cmd[Delim(cmd) + 1..ArgsEnd(cmd)]
  {
    var k := Delim(cmd);
    var e := ArgsEnd(cmd);
    var a := ArgsBuf(cmd);
    ArgsLength(cmd);
    ArgsBufBytes(cmd);
    SliceOf(a, cmd, k, e);
  }

  lemma SliceOf(a: seq<bv8>, cmd: seq<bv8>, k: nat, e: nat)
    requires k < e <= |cmd| && e - k <= |a|
    requires forall j :: 0 <= j < e - k ==> a[j] == At(cmd, k + j)
    ensures a[1..e - k] == cmd[k + 1..e]
  {
    var x, y := a[1..e - k], cmd[k + 1..e];
    forall j | 0 <= j < |x|
      ensures x[j] == y[j]
    {
      assert a[1 + j] == At(cmd, k + 1 + j);
    }
  }

  /** The args buffer starts with the delimiter and its C string runs to
      ArgsEnd. */
  lemma ArgsLength(cmd: seq<bv8>)
    requires At(cmd, Delim(cmd)) == SPACE && Delim(cmd) < ARGS_LEN
    ensures ArgsBuf(cmd)[0] == SPACE
    ensures StrnLenFrom(ArgsBuf(cmd), ARGS_LEN, 1) == ArgsEnd(cmd) - Delim(cmd)
  {
    ArgsBufBytes(cmd);
    StrnLenIs(ArgsBuf(cmd), ARGS_LEN, 1, ArgsEnd(cmd) - Delim(cmd));
  }

  /** The arguments execute keeps, in both cases. */
  lemma ArgsAreTail(cmd: seq<bv8>)
    ensures var k := Delim(cmd);
      (At(cmd, k) == 0 || k >= ARGS_LEN ==> CmdArgs(cmd) == []) &&
      (At(cmd, k) == SPACE && k < ARGS_LEN ==> CmdArgs(cmd) == cmd[k + 1..ArgsEnd(cmd)])
  {
    var k := Delim(cmd);
    if At(cmd, k) == 0 || k >= ARGS_LEN {
      NoArgs(cmd);
    } else {
      ArgsSlice(cmd);
    }
  }

  // ---------------------------------------------------------------------
  // Checking and loading the program
  // ---------------------------------------------------------------------

  /** strncmp("ELF", bytes, 3) == 0 is exact equality for three bytes. */
  lemma ElfCheck(b: seq<bv8>)
    requires |b| == 3
    ensures StrnEq(ELF_MAGIC, b, 3) <==> b == ELF_MAGIC
  {
    if b == ELF_MAGIC {
      assert StrnEqFrom(ELF_MAGIC, b, 3, 2);
      assert StrnEqFrom(ELF_MAGIC, b, 3, 1);
    }
  }

  /** Four bytes read into a uint32 on a little-endian machine. */
  function LittleEndian(b: seq<bv8>): bv32
    requires |b| == 4
  {
    (b[0] as bv32) | ((b[1] as bv32) << 8) | ((b[2] as bv32) << 16) | ((b[3] as bv32) << 24)
  }

  /** The lowest number in [i, hi) that is not in `bits`: the first clear
      bit of a mask from bit `i` on. */
  function FirstClear(bits: set<nat>, i: nat, hi: nat): (r: Option<nat>)
    requires i <= hi
    ensures r.Some? ==>
      i <= r.value < hi && r.value !in bits && forall j :: i <= j < r.value ==> j in bits
    ensures r.None? ==> forall j :: i <= j < hi ==> j in bits
    decreases hi - i
  {
    if i == hi then None
    else if i !in bits then Some(i)
    else FirstClear(bits, i + 1, hi)
  }

  /** The pid execute takes: the lowest one whose bit is clear. */
  function LowestFree(active: set<nat>): (r: Option<nat>)
    ensures r.Some? ==>
      r.value < MAX_PROCESSES && r.value !in active && forall j :: 0 <= j < r.value ==> j in active
    ensures r.None? ==> forall j :: 0 <= j < MAX_PROCESSES ==> j in active
  {
    FirstClear(active, 0, MAX_PROCESSES)
  }

  /** execute's search for a pid whose bit is clear. */
  method FindFreePid(active: set<nat>) returns (pid: Option<nat>)
    ensures pid == LowestFree(active)
  {
    pid := None;
    var i := 0;
    while i < MAX_PROCESSES
      invariant 0 <= i <= MAX_PROCESSES
      invariant FirstClear(active, i, MAX_PROCESSES) == LowestFree(active)
    {
      if i !in active {
        pid := Some(i);
        return;
      }
      i := i + 1;
    }
  }

  /** A base shell halted with every lower pid in use gets its own pid
      back when it is respawned. */
  lemma RespawnReusesPid(active: set<nat>, pid: nat)
    requires pid < MAX_PROCESSES && forall j :: 0 <= j < pid ==> j in active
    ensures LowestFree(active - {pid}) == Some(pid)
  {
  }

  // ---------------------------------------------------------------------
  // execute
  // ---------------------------------------------------------------------

  /** The program execute would run for `name`: its directory entry, when
      the name is found and bytes 1..3 of the file read back as "ELF". */
  function Program(d: Disk, name: seq<bv8>): (r: Option<Dentry>)
    requires DiskOk(d)
    ensures r.Some? ==> ReadDentryByName(d, name) == r
    ensures r.Some? ==> var n := r.value.inodeIdx;
      n < |d.inodes| && 4 <= |FileData(d, n)| && FileData(d, n)[1..4] == ELF_MAGIC &&
      !BadBlockPrefix(d, d.inodes[n])
    ensures r.None? ==> (ReadDentryByName(d, name).None? ||
      var n := ReadDentryByName(d, name).value.inodeIdx;
      n >= |d.inodes| || d.inodes[n].fileSize < 4 || BadBlockPrefix(d, d.inodes[n]) ||
      FileData(d, n)[1..4] != ELF_MAGIC)
  {
    match ReadDentryByName(d, name)
    case None => None
    case Some(e) =>
      if ReadDataRejects(d, e.inodeIdx, 1, 3) || FileData(d, e.inodeIdx)[1..4] != ELF_MAGIC then None
      else Some(e)
  }

  /** How many bytes execute loads: get_file_length of the entry's own
      name. */
  function ImageLength(d: Disk, e: Dentry): int
    requires DiskOk(d)
  {
    GetFileLength(d, e.fileName)
  }

  /** One of the three reads that load the image fails. */
  predicate LoadRejects(d: Disk, e: Dentry)
    requires DiskOk(d)
  {
    var len := ImageLength(d, e);
    len == -1 || ReadDataRejects(d, e.inodeIdx, 0, len) || ReadDataRejects(d, e.inodeIdx, ENTRY_OFFSET, 4)
  }

  /** e_entry: bytes 24..27 of the image, little-endian. */
  function EntryPoint(d: Disk, n: nat): bv32
    requires DiskOk(d) && n < |d.inodes| && ENTRY_OFFSET + 4 <= d.inodes[n].fileSize
  {
    LittleEndian(FileData(d, n)[ENTRY_OFFSET..ENTRY_OFFSET + 4])
  }

  /** What execute will do with a command, given the live pids. */
  datatype ExecPlan = NoProgram | NoPid | LoadFails(pid: nat) | Load(pid: nat, e: Dentry)

  function ExecCheck(d: Disk, cmd: seq<bv8>, active: set<nat>): (p: ExecPlan)
    requires DiskOk(d)
    ensures p.NoProgram? <==> Program(d, ExeName(cmd)).None?
    ensures p.NoPid? <==> Program(d, ExeName(cmd)).Some? && LowestFree(active).None?
    ensures (p.LoadFails? || p.Load?) ==> LowestFree(active) == Some(p.pid) && p.pid !in active
    ensures p.Load? ==> Program(d, ExeName(cmd)) == Some(p.e) && !LoadRejects(d, p.e)
    ensures p.LoadFails? ==> LoadRejects(d, Program(d, ExeName(cmd)).value)
  {
    match Program(d, ExeName(cmd))
    case None => NoProgram
    case Some(e) =>
      match LowestFree(active)
      case None => NoPid
      case Some(pid) => if LoadRejects(d, e) then LoadFails(pid) else Load(pid, e)
  }

  /** A loaded program's image holds the whole file when the entry's name
      leads back to the entry itself, and its entry point lies in it. */
  lemma LoadedImage(d: Disk, e: Dentry)
    requires DiskOk(d) && !LoadRejects(d, e)
    ensures e.inodeIdx < |d.inodes| && 0 <= ImageLength(d, e) <= d.inodes[e.inodeIdx].fileSize
    ensures ENTRY_OFFSET + 4 <= d.inodes[e.inodeIdx].fileSize
    ensures ReadDentryByName(d, e.fileName) == Some(e) ==> ImageLength(d, e) == d.inodes[e.inodeIdx].fileSize
  {
  }

  /** execute's parse: the name scan, the copy of at most 32 name bytes
      and the copy of the tail into the args buffer. */
  method ParseCommand(cmd: seq<bv8>) returns (name: seq<bv8>, args: seq<bv8>)
    ensures name == ExeName(cmd) && args == CmdArgs(cmd)
  {
    var argsIdx := ScanName(cmd);
    name := if argsIdx >= FNAME_MAX then cmd[..FNAME_MAX] else cmd[..argsIdx];
    var n := ArgCopyCount(argsIdx);
    var argBuf := Strncpy(cmd[argsIdx..], n) + seq(ARGS_LEN - n, _ => 0);
    args := if argBuf[0] == 0 then [] else argBuf[1..StrnLenFrom(argBuf, ARGS_LEN, 1)];
  }

  /** The lookup and the ELF check. */
  method CheckProgram(d: Disk, name: seq<bv8>) returns (e: Option<Dentry>)
    requires DiskOk(d)
    ensures e == Program(d, name)
  {
    e := ReadDentryByName(d, name);
    if e.None? {
      return;
    }
    var tmp := new bv8[3];
    var r := ReadData(d, e.value.inodeIdx, 1, tmp, 3);
    if r == -1 {
      return None;
    }
    ElfCheck(tmp[..]);
    if !StrnEq(ELF_MAGIC, tmp[..], 3) {
      return None;
    }
  }

  /** The three reads that load the image and fetch its entry point. */
  method LoadImage(d: Disk, e: Dentry) returns (ok: bool, image: seq<bv8>, eip: bv32)
    requires DiskOk(d)
    ensures ok <==> !LoadRejects(d, e)
    ensures ok ==> e.inodeIdx < |d.inodes| && ENTRY_OFFSET + 4 <= d.inodes[e.inodeIdx].fileSize
    ensures ok ==> image == FileData(d, e.inodeIdx)[..ImageLength(d, e)] && eip == EntryPoint(d, e.inodeIdx)
  {
    var len := GetFileLength(d, e.fileName);
    if len == -1 {
      return false, [], 0;
    }
    var buf := new bv8[len];
    var r := ReadData(d, e.inodeIdx, 0, buf, len);
    if r == -1 {
      return false, [], 0;
    }
    var entry := new bv8[4];
    r := ReadData(d, e.inodeIdx, ENTRY_OFFSET, entry, 4);
    if r == -1 {
      return false, [], 0;
    }
    ok, image, eip := true, buf[..], LittleEndian(entry[..]);
  }

  /** execute's bookkeeping once the image is in place. */
  method Start(task: TaskState, pid: nat, args: seq<bv8>, ebp: bv32)
    requires task.Valid() && pid < MAX_PROCESSES && |args| < CMD_ARGS_LEN
    modifies task
    ensures task.Valid() && task.State() == Launch(old(task.State()), pid, args, ebp)
  {
    ghost var post := Launch(task.State(), pid, args, ebp);
    var c := task.pcbs[pid];
    task.pcbs := task.pcbs[pid := Pcb(pid, task.currentPid, task.esp0, ebp, {0, 1}, 0, args,
                                      c.fds[0 := StdinDesc][1 := StdoutDesc])];
    task.activeProcesses := task.activeProcesses + {pid};
    task.currentPid := pid;
    task.currentPcb := PcbAddr(pid);
    task.esp0 := KernelStackTop(pid);
    assert task.State() == post;
  }

  /** execute from the pid on: bind the user window to `pid`, load the
      image, and either start the program or rebind the window to the
      current pid and fail. */
  method Run(d: Disk, e: Dentry, pid: nat, args: seq<bv8>, task: TaskState, con: Console,
             pt: PageTables, ebp: bv32)
    returns (r: ExecOutcome, image: seq<bv8>)
    requires DiskOk(d) && task.Valid() && con.Valid() && pt.Valid()
    requires pid < MAX_PROCESSES && |args| < CMD_ARGS_LEN
    modifies task, con, pt
    ensures task.Valid() && con.Valid() && pt.Valid()
    ensures r.Entered? <==> !LoadRejects(d, e)
    ensures con.taIdx == old(con.taIdx) && con.tsIdx == old(con.tsIdx) && con.vidPointer == old(con.vidPointer)
    ensures con.screenX == old(con.screenX) && con.screenY == old(con.screenY) && con.vmem == old(con.vmem)
    ensures con.cursorX == old(con.cursorX) && con.cursorY == old(con.cursorY) && con.output == old(con.output)
    ensures pt.pageDir == old(pt.pageDir)[USER_MEM_PD_ENTRY := pt.pageDir[USER_MEM_PD_ENTRY]]
    ensures pt.pageTable == old(pt.pageTable) && pt.userPageTable == old(pt.userPageTable)
    ensures r.Failed? ==>
      task.State() == old(task.State()) && unchanged(con) &&
      pt.UserWindowBoundTo(old(task.currentPid)) && pt.tlbFlushes == old(pt.tlbFlushes) + 2
    ensures r.Entered? ==>
      task.State() == Launch(old(task.State()), pid, args, ebp) &&
      pt.UserWindowBoundTo(pid) && pt.tlbFlushes == old(pt.tlbFlushes) + 1 &&
      con.terms == old(con.terms)[con.taIdx := Mirror(old(con.terms[con.taIdx]), task.State())] &&
      e.inodeIdx < |d.inodes| && ENTRY_OFFSET + 4 <= d.inodes[e.inodeIdx].fileSize &&
      r.eip == EntryPoint(d, e.inodeIdx) &&
      image == FileData(d, e.inodeIdx)[..ImageLength(d, e)]
  {
    pt.SetUserPage(pid);
    var ok, img, eip := LoadImage(d, e);
    if !ok {
      pt.SetUserPage(task.currentPid);
      return Failed, [];
    }
    Start(task, pid, args, ebp);
    con.SaveContext(task);
    r, image := Entered(eip), img;
  }

  /** TLB flushes execute issues for each plan: one for the window bound
      to the new pid, two when the load fails and the window is rebound to
      the caller, none when it gives up before touching the window. */
  function ExecFlushes(p: ExecPlan): (n: nat)
    ensures n <= 2 && (n == 0 <==> p.NoProgram? || p.NoPid?)
  {
    match p
    case NoProgram => 0
    case NoPid => 0
    case LoadFails(_) => 2
    case Load(_, _) => 1
  }

  /** Where execute leaves control: back in the caller with -1, or in user
      mode at the program's entry point. */
  datatype ExecOutcome = Failed | Entered(eip: bv32)

  /** execute: parse the command, check the program, take the lowest free
      pid, bind the user window to it, load the image and start the
      program.  `ebp` is the caller's frame pointer the child's halt
      returns to.  On a load failure the window goes back to the current
      pid; on every failure the process state and the terminals are left
      as they were. */
  method Execute(d: Disk, cmd: seq<bv8>, task: TaskState, con: Console, pt: PageTables, ebp: bv32)
    returns (r: ExecOutcome, image: seq<bv8>)
    requires DiskOk(d) && task.Valid() && con.Valid() && pt.Valid()
    modifies task, con, pt
    ensures task.Valid() && con.Valid() && pt.Valid()
    ensures con.taIdx == old(con.taIdx) && con.tsIdx == old(con.tsIdx) && con.vidPointer == old(con.vidPointer)
    ensures con.screenX == old(con.screenX) && con.screenY == old(con.screenY) && con.vmem == old(con.vmem)
    ensures con.cursorX == old(con.cursorX) && con.cursorY == old(con.cursorY) && con.output == old(con.output)
    ensures var p := ExecCheck(d, cmd, old(task.activeProcesses));
      (r.Entered? <==> p.Load?) &&
      (!p.Load? ==> task.State() == old(task.State()) && unchanged(con)) &&
      ((p.NoProgram? || p.NoPid?) ==> unchanged(pt)) &&
      (p.LoadFails? ==> pt.UserWindowBoundTo(old(task.currentPid))) &&
      pt.tlbFlushes == old(pt.tlbFlushes) + ExecFlushes(p)
    ensures pt.pageDir == old(pt.pageDir)[USER_MEM_PD_ENTRY := pt.pageDir[USER_MEM_PD_ENTRY]]
    ensures pt.pageTable == old(pt.pageTable) && pt.userPageTable == old(pt.userPageTable)
    ensures var p := ExecCheck(d, cmd, old(task.activeProcesses));
      p.Load? ==>
        task.State() == Launch(old(task.State()), p.pid, CmdArgs(cmd), ebp) &&
        pt.UserWindowBoundTo(p.pid) &&
        con.terms == old(con.terms)[con.taIdx := Mirror(old(con.terms[con.taIdx]), task.State())] &&
        r.eip == EntryPoint(d, p.e.inodeIdx) &&
        image == FileData(d, p.e.inodeIdx)[..ImageLength(d, p.e)]
  {
    var name, args := ParseCommand(cmd);
    r, image := Failed, [];
    var prog := CheckProgram(d, name);
    if prog.None? {
      return;
    }
    var pid := FindFreePid(task.activeProcesses);
    if pid.None? {
      return;
    }
    r, image := Run(d, prog.value, pid.value, args, task, con, pt, ebp);
  }

  /** The respawn command has no arguments. */
  lemma ShellHasNoArgs()
    ensures ExeName(SHELL) == SHELL && CmdArgs(SHELL) == []
  {
    assert Delim(SHELL) == 5 by {
      assert DelimFrom(SHELL, 5) == 5;
    }
    NoArgs(SHELL);
  }

  /** A child started on a pid of its own (not one of the three base
      shells) and then halted hands its parent back exactly the live pids,
      current pid, current PCB and kernel stack the parent had before the
      execute. */
  lemma ExecuteThenHalt(d: Disk, cmd: seq<bv8>, s: ProcState, ebp: bv32)
    requires DiskOk(d) && ProcOk(s)
    requires ExecCheck(d, cmd, s.activeProcesses).Load?
    requires ExecCheck(d, cmd, s.activeProcesses).pid >= MAX_TERMINALS
    ensures var t := Launch(s, ExecCheck(d, cmd, s.activeProcesses).pid, CmdArgs(cmd), ebp);
      t.currentPid >= MAX_TERMINALS &&
      var u := Restore(t);
      u.activeProcesses == s.activeProcesses && u.currentPid == s.currentPid &&
      u.currentPcb == s.currentPcb && u.esp0 == s.esp0
  {
    var p := ExecCheck(d, cmd, s.activeProcesses);
    LaunchThenRestore(s, p.pid, CmdArgs(cmd), ebp);
  }

  // ---------------------------------------------------------------------
  // halt
  // ---------------------------------------------------------------------

  /** Where halt leaves control: in a respawned base shell, or back in the
      parent's execute (frame `ebp`) with the value execute returns. */
  datatype HaltOutcome = Respawned(eip: bv32) | ToParent(ebp: bv32, value: nat)

  /** The process state halt starts from once a base shell's bit is
      cleared. */
  function Released(s: ProcState): (r: ProcState)
    requires ProcOk(s)
    ensures ProcOk(r)
  {
    if s.currentPid < MAX_TERMINALS then s.(activeProcesses := s.activeProcesses - {s.currentPid}) else s
  }

  /** The value halt hands the parent's execute: 256 when an exception
      ended the process, its status otherwise. */
  function ExitValue(s: ProcState, status: bv8): (v: nat)
    ensures v == EXCEPTION_STATUS <==> s.exceptionFlag
    ensures !s.exceptionFlag ==> v == status as nat
  {
    if s.exceptionFlag then EXCEPTION_STATUS else status as nat
  }

  /** The state halt leaves when it respawns a base shell as pid `pid`,
      as the code is written: the exception flag is left as it was. */
  function RespawnAsWritten(s: ProcState, pid: nat, ebp: bv32): (r: ProcState)
    requires ProcOk(s) && pid < MAX_PROCESSES
    ensures ProcOk(r) && r.currentPid == pid
    ensures r.exceptionFlag == s.exceptionFlag
  {
    ShellHasNoArgs();
    Launch(Released(s), pid, CmdArgs(SHELL), ebp)
  }

  /** An exception that ends a base shell leaves the flag raised in the
      respawned shell, so the next child of that shell that exits normally
      is reported to it as killed by an exception: execute returns 256
      where halt was given `status`. */
  lemma StaleExceptionFlag(s: ProcState, shell: nat, child: nat, args: seq<bv8>, ebp: bv32,
                           childEbp: bv32, status: bv8)
    requires ProcOk(s) && s.exceptionFlag && s.currentPid < MAX_TERMINALS
    requires shell < MAX_PROCESSES && child < MAX_PROCESSES && |args| < CMD_ARGS_LEN
    ensures var c := Launch(RespawnAsWritten(s, shell, ebp), child, args, childEbp);
      ExitValue(c, status) == EXCEPTION_STATUS && ExitValue(c, status) != status as nat
  {
    var c := Launch(RespawnAsWritten(s, shell, ebp), child, args, childEbp);
    assert c.exceptionFlag;
  }

  /** The state halt leaves when it respawns a base shell as pid `pid`:
      the exception that ended the old shell has been dealt with, so the
      flag is lowered. */
  function RespawnState(s: ProcState, pid: nat, ebp: bv32): (r: ProcState)
    requires ProcOk(s) && pid < MAX_PROCESSES
    ensures ProcOk(r) && r.currentPid == pid && !r.exceptionFlag
  {
    ShellHasNoArgs();
    Launch(Released(s), pid, CmdArgs(SHELL), ebp).(exceptionFlag := false)
  }

  /** With the flag lowered on respawn, a child of the new shell that
      exits normally reports its own status. */
  lemma RespawnedChildReportsStatus(s: ProcState, shell: nat, child: nat, args: seq<bv8>, ebp: bv32,
                                    childEbp: bv32, status: bv8)
    requires ProcOk(s) && shell < MAX_PROCESSES && child < MAX_PROCESSES && |args| < CMD_ARGS_LEN
    ensures ExitValue(Launch(RespawnState(s, shell, ebp), child, args, childEbp), status) == status as nat
  {
    var c := Launch(RespawnState(s, shell, ebp), child, args, childEbp);
    assert !c.exceptionFlag;
  }

  /** halt: a base shell (pid below 3) gives up its pid and execute starts
      a fresh shell, which keeps the exception flag as it was
      (RespawnAsWritten); if that does not start, or for any other pid,
      the parent is restored, mirrored into the active terminal, and
      receives 256 when an exception ended the process (the flag is then
      cleared) and `status` otherwise.  `ebp` is halt's own frame, which a
      respawned shell's halt would return to. */
  method Halt(d: Disk, status: bv8, task: TaskState, con: Console, pt: PageTables, ebp: bv32)
    returns (h: HaltOutcome, image: seq<bv8>)
    requires DiskOk(d) && task.Valid() && con.Valid() && pt.Valid()
    modifies task, con, pt
    ensures task.Valid() && con.Valid() && pt.Valid()
    ensures var s1 := Released(old(task.State()));
      var p := ExecCheck(d, SHELL, s1.activeProcesses);
      (h.Respawned? <==> old(task.currentPid) < MAX_TERMINALS && p.Load?) &&
      (h.Respawned? ==> task.State() == RespawnAsWritten(old(task.State()), p.pid, ebp) &&
                        pt.UserWindowBoundTo(p.pid) &&
                        h.eip == EntryPoint(d, p.e.inodeIdx) &&
                        image == FileData(d, p.e.inodeIdx)[..ImageLength(d, p.e)] &&
                        pt.pageDir == old(pt.pageDir)[USER_MEM_PD_ENTRY := pt.pageDir[USER_MEM_PD_ENTRY]] &&
                        pt.pageTable == old(pt.pageTable) && pt.userPageTable == old(pt.userPageTable) &&
                        pt.tlbFlushes == old(pt.tlbFlushes) + 1) &&
      (h.ToParent? ==>
        pt.pageDir == old(pt.pageDir)[USER_MEM_PD_ENTRY := pt.pageDir[USER_MEM_PD_ENTRY]]
                                     [USER_MEM_PD_ENTRY + 1 := pt.pageDir[USER_MEM_PD_ENTRY + 1]] &&
        pt.userPageTable == old(pt.userPageTable)[USER_VIDEO_SLOT := pt.userPageTable[USER_VIDEO_SLOT]] &&
        pt.pageTable == old(pt.pageTable) &&
        pt.tlbFlushes == old(pt.tlbFlushes) + (if old(task.currentPid) < MAX_TERMINALS then ExecFlushes(p) else 0) + 2)
    ensures var s := old(task.State());
      h.ToParent? ==>
        task.State() == Restore(Released(s)).(exceptionFlag := false) &&
        h.ebp == s.pcbs[s.currentPid].parentEbp &&
        h.value == ExitValue(s, status) &&
        pt.UserWindowBoundTo(task.currentPid) &&
        Present(pt.userPageTable[USER_VIDEO_SLOT]) == task.pcbs[task.currentPid].vidmapInuse & 1 &&
        Frame4KB(pt.userPageTable[USER_VIDEO_SLOT]) == VideoTarget(con.taIdx, con.tsIdx) &&
        pt.pageDir[USER_MEM_PD_ENTRY + 1] ==
          Pde4KB(pt.userPageTableAddr, 0, PAGE_UNPRIVILEGED, 1, task.pcbs[task.currentPid].vidmapInuse & 1) &&
        image == []
    ensures con.terms == old(con.terms)[con.taIdx := Mirror(old(con.terms[con.taIdx]), task.State())]
    ensures con.taIdx == old(con.taIdx) && con.tsIdx == old(con.tsIdx) && con.vidPointer == old(con.vidPointer)
    ensures con.screenX == old(con.screenX) && con.screenY == old(con.screenY)
    ensures con.cursorX == old(con.cursorX) && con.cursorY == old(con.cursorY)
    ensures con.vmem == old(con.vmem) && con.output == old(con.output)
  {
    ghost var p := ExecCheck(d, SHELL, Released(task.State()).activeProcesses);
    ghost var respawnFlushes := if task.currentPid < MAX_TERMINALS then ExecFlushes(p) else 0;
    var parentEbp := task.pcbs[task.currentPid].parentEbp;
    if task.currentPid < MAX_TERMINALS {
      var r, img := Respawn(d, task, con, pt, ebp);
      if r.Entered? {
        return Respawned(r.eip), img;
      }
    }
    ghost var dir1 := pt.pageDir;
    assert dir1 == old(pt.pageDir)[USER_MEM_PD_ENTRY := dir1[USER_MEM_PD_ENTRY]];
    assert pt.tlbFlushes == old(pt.tlbFlushes) + respawnFlushes;
    h := ReturnToParent(status, parentEbp, task, con, pt);
    WindowThenUserEntries(old(pt.pageDir), dir1, pt.pageDir);
    image := [];
  }

  /** halt on a base shell: clear its bit and execute a fresh shell.
      Nothing here touches the exception flag. */
  method Respawn(d: Disk, task: TaskState, con: Console, pt: PageTables, ebp: bv32)
    returns (r: ExecOutcome, image: seq<bv8>)
    requires DiskOk(d) && task.Valid() && con.Valid() && pt.Valid()
    requires task.currentPid < MAX_TERMINALS
    modifies task, con, pt
    ensures task.Valid() && con.Valid() && pt.Valid()
    ensures con.taIdx == old(con.taIdx) && con.tsIdx == old(con.tsIdx) && con.vidPointer == old(con.vidPointer)
    ensures con.screenX == old(con.screenX) && con.screenY == old(con.screenY) && con.vmem == old(con.vmem)
    ensures con.cursorX == old(con.cursorX) && con.cursorY == old(con.cursorY) && con.output == old(con.output)
    ensures var s1 := Released(old(task.State()));
      var p := ExecCheck(d, SHELL, s1.activeProcesses);
      (r.Entered? <==> p.Load?) &&
      (r.Entered? ==> task.State() == RespawnAsWritten(old(task.State()), p.pid, ebp) &&
                      pt.UserWindowBoundTo(p.pid) &&
                      r.eip == EntryPoint(d, p.e.inodeIdx) &&
                      image == FileData(d, p.e.inodeIdx)[..ImageLength(d, p.e)] &&
                      con.terms == old(con.terms)[con.taIdx := Mirror(old(con.terms[con.taIdx]), task.State())]) &&
      (r.Failed? ==> task.State() == s1 && unchanged(con)) &&
      (p.LoadFails? ==> pt.UserWindowBoundTo(old(task.currentPid))) &&
      pt.tlbFlushes == old(pt.tlbFlushes) + ExecFlushes(p)
    ensures pt.pageDir == old(pt.pageDir)[USER_MEM_PD_ENTRY := pt.pageDir[USER_MEM_PD_ENTRY]]
    ensures pt.pageTable == old(pt.pageTable) && pt.userPageTable == old(pt.userPageTable)
  {
    ghost var s0 := task.State();
    ghost var s1 := Released(s0);
    task.activeProcesses := task.activeProcesses - {task.currentPid};
    assert task.State() == s1;
    r, image := Execute(d, SHELL, task, con, pt, ebp);
  }

  /** The end of halt: restore the parent, mirror it into the active
      terminal and choose the value the parent's execute returns. */
  method ReturnToParent(status: bv8, parentEbp: bv32, task: TaskState, con: Console, pt: PageTables)
    returns (h: HaltOutcome)
    requires task.Valid() && con.Valid() && pt.Valid()
    modifies task, con, pt
    ensures task.Valid() && con.Valid() && pt.Valid()
    ensures var s := old(task.State());
      task.State() == Restore(s).(exceptionFlag := false) &&
      h == ToParent(parentEbp, ExitValue(s, status)) &&
      pt.UserWindowBoundTo(task.currentPid) &&
      Present(pt.userPageTable[USER_VIDEO_SLOT]) == task.pcbs[task.currentPid].vidmapInuse & 1 &&
      Frame4KB(pt.userPageTable[USER_VIDEO_SLOT]) == VideoTarget(con.taIdx, con.tsIdx) &&
      pt.pageDir[USER_MEM_PD_ENTRY + 1] ==
        Pde4KB(pt.userPageTableAddr, 0, PAGE_UNPRIVILEGED, 1, task.pcbs[task.currentPid].vidmapInuse & 1)
    ensures pt.pageDir == old(pt.pageDir)[USER_MEM_PD_ENTRY := pt.pageDir[USER_MEM_PD_ENTRY]]
                                         [USER_MEM_PD_ENTRY + 1 := pt.pageDir[USER_MEM_PD_ENTRY + 1]]
    ensures pt.userPageTable == old(pt.userPageTable)[USER_VIDEO_SLOT := pt.userPageTable[USER_VIDEO_SLOT]]
    ensures pt.pageTable == old(pt.pageTable) && pt.tlbFlushes == old(pt.tlbFlushes) + 2
    ensures con.terms == old(con.terms)[con.taIdx := Mirror(old(con.terms[con.taIdx]), task.State())]
    ensures con.taIdx == old(con.taIdx) && con.tsIdx == old(con.tsIdx) && con.vidPointer == old(con.vidPointer)
    ensures con.screenX == old(con.screenX) && con.screenY == old(con.screenY)
    ensures con.cursorX == old(con.cursorX) && con.cursorY == old(con.cursorY)
    ensures con.vmem == old(con.vmem) && con.output == old(con.output)
  {
    var closed := task.RestoreParent(pt, con.taIdx, con.tsIdx);
    con.SaveContext(task);
    var value: nat := status as nat;
    if task.exceptionFlag {
      task.LowerExceptionFlag();
      value := EXCEPTION_STATUS;
    }
    h := ToParent(parentEbp, value);
  }

  // ---------------------------------------------------------------------
  // The descriptor calls
  // ---------------------------------------------------------------------

  /** The current process's PCB with `p` in its place. */
  function WithCurrent(s: ProcState, p: Pcb): (r: ProcState)
    requires ProcOk(s) && PcbShape(p)
    ensures ProcOk(r) && r.pcbs[r.currentPid] == p
  {
    s.(pcbs := s.pcbs[s.currentPid := p])
  }

  /** The slot read may use: fd in [0, 8), not stdout, bit set. */
  predicate CanRead(fd: int, p: Pcb) {
    0 <= fd < MAX_FDS && fd != 1 && fd as nat in p.openFiles
  }

  /** The slot write may use: fd in [1, 8), bit set. */
  predicate CanWrite(fd: int, p: Pcb) {
    1 <= fd < MAX_FDS && fd as nat in p.openFiles
  }

  /** The slot close may release: fd in [2, 8), bit set. */
  predicate CanClose(fd: int, p: Pcb) {
    2 <= fd < MAX_FDS && fd as nat in p.openFiles
  }

  /** The descriptor a freshly opened entry gets. */
  function OpenedDesc(e: Dentry): (desc: FileDesc)
    ensures desc.filePos == 0 && desc.flags == 0 && desc.inodeNum == e.inodeIdx
    ensures e.fileType == RTC_FILE_TYPE ==> desc.ops == RtcOps
    ensures e.fileType == DIRECTORY_FILE_TYPE ==> desc.ops == DirOps
    ensures e.fileType == REGULAR_FILE_TYPE ==> desc.ops == FileOps
  {
    var ops := if e.fileType == RTC_FILE_TYPE then RtcOps
               else if e.fileType == DIRECTORY_FILE_TYPE then DirOps
               else FileOps;
    FileDesc(ops, e.inodeIdx, 0, 0)
  }

  /** open's search for a free descriptor slot. */
  method FindFreeFd(openFiles: set<nat>) returns (fd: Option<nat>)
    ensures fd == FirstClear(openFiles, 2, MAX_FDS)
  {
    var i := 2;
    while i < MAX_FDS
      invariant 2 <= i <= MAX_FDS
      invariant FirstClear(openFiles, i, MAX_FDS) == FirstClear(openFiles, 2, MAX_FDS)
    {
      if i !in openFiles {
        return Some(i);
      }
      i := i + 1;
    }
    return None;
  }

  /** An entry of a well-formed image opens into a descriptor read and
      write can serve. */
  lemma OpenedDescOk(d: Disk, e: Dentry, fd: nat)
    requires DiskOk(d) && EntryOk(d, e) && 2 <= fd
    ensures DescOk(d, fd, OpenedDesc(e))
  {
  }

  /** open: take the lowest free slot in [2, 8), look the name up, fill the
      slot for the entry's type with position 0, run the type's open and
      set the slot's bit.  -1, with nothing changed, when every slot is
      taken or the name is missing.  Every type's open returns 0 (rtc_open
      also puts the active terminal back to 2 Hz), so the failing-open
      path of the source is never taken. */
  method Open(d: Disk, filename: seq<bv8>, task: TaskState, con: Console) returns (r: int)
    requires DiskOk(d) && task.Valid() && con.Valid()
    modifies task, con
    ensures task.Valid() && con.Valid()
    ensures var p := old(task.pcbs[task.currentPid]);
      var slot := FirstClear(p.openFiles, 2, MAX_FDS);
      var e := ReadDentryByName(d, filename);
      (slot.None? || e.None? ==> r == -1 && unchanged(task) && unchanged(con)) &&
      (slot.Some? && e.Some? ==>
        r == slot.value && slot.value < MAX_FDS &&
        task.State() == WithCurrent(old(task.State()),
          p.(openFiles := p.openFiles + {slot.value}, fds := p.fds[slot.value := OpenedDesc(e.value)])) &&
        (e.value.fileType == RTC_FILE_TYPE ==>
          con.terms == old(con.terms)[con.taIdx := old(con.terms[con.taIdx]).(rtcFreqBit := DEFAULT_FREQ_BIT)]) &&
        (e.value.fileType != RTC_FILE_TYPE ==> unchanged(con)))
  {
    var p := task.pcbs[task.currentPid];
    var slot := FindFreeFd(p.openFiles);
    if slot.None? {
      return -1;
    }
    var e := ReadDentryByName(d, filename);
    if e.None? {
      return -1;
    }
    var fd := slot.value;
    var desc := OpenedDesc(e.value);
    var result := RunOpen(desc.ops, filename, con);
    task.pcbs := task.pcbs[task.currentPid := p.(openFiles := p.openFiles + {fd}, fds := p.fds[fd := desc])];
    r := fd;
  }

  /** The open entry of a slot's operations table. */
  method RunOpen(ops: Ops, filename: seq<bv8>, con: Console) returns (r: int)
    requires con.Valid() && (ops == RtcOps || ops == DirOps || ops == FileOps)
    modifies con
    ensures con.Valid() && r == 0
    ensures ops == RtcOps ==>
      con.terms == old(con.terms)[con.taIdx := old(con.terms[con.taIdx]).(rtcFreqBit := DEFAULT_FREQ_BIT)]
    ensures ops != RtcOps ==> unchanged(con)
  {
    if ops == RtcOps {
      r := RtcOpen(con);
    } else if ops == DirOps {
      r := DirectoryOpen(filename);
    } else {
      r := FileOpen(filename);
    }
  }

  /** close: for an open slot in [2, 8), run its type's close (each returns
      0), clear the descriptor and the slot's bit; -1 otherwise. */
  method Close(d: Disk, fd: int, task: TaskState) returns (r: int)
    requires task.Valid() && FdsOk(d, task.pcbs[task.currentPid])
    modifies task
    ensures task.Valid()
    ensures var p := old(task.pcbs[task.currentPid]);
      (!CanClose(fd, p) ==> r == -1 && unchanged(task)) &&
      (CanClose(fd, p) ==>
        r == 0 &&
        task.State() == WithCurrent(old(task.State()),
          p.(openFiles := p.openFiles - {fd as nat}, fds := p.fds[fd := EmptyDesc])))
  {
    var p := task.pcbs[task.currentPid];
    if fd < 2 || MAX_FDS <= fd || fd as nat !in p.openFiles {
      return -1;
    }
    var closed: int;
    if p.fds[fd].ops == RtcOps {
      closed := RtcClose(fd);
    } else if p.fds[fd].ops == DirOps {
      closed := DirectoryClose(fd);
    } else {
      closed := FileClose(fd);
    }
    task.pcbs := task.pcbs[task.currentPid := p.(openFiles := p.openFiles - {fd as nat}, fds := p.fds[fd := EmptyDesc])];
    r := 0;
  }

  /** The slot `fd` of the current PCB with `desc` in it. */
  function WithDesc(s: ProcState, fd: nat, desc: FileDesc): (r: ProcState)
    requires ProcOk(s) && fd < MAX_FDS
    ensures ProcOk(r)
  {
    var p := s.pcbs[s.currentPid];
    WithCurrent(s, p.(fds := p.fds[fd := desc]))
  }

  /** file_read through slot `fd`, writing the advanced descriptor back. */
  method ReadFileSlot(d: Disk, fd: nat, buf: array<bv8>, nbytes: nat, task: TaskState) returns (r: nat)
    requires DiskOk(d) && task.Valid() && fd < MAX_FDS && nbytes <= buf.Length
    requires task.pcbs[task.currentPid].fds[fd].inodeNum < d.numInodes
    modifies buf, task
    ensures task.Valid()
    ensures var desc := old(task.pcbs[task.currentPid].fds[fd]);
      var size := d.inodes[desc.inodeNum].fileSize;
      r == (if desc.filePos >= size then 0
            else if nbytes < size - desc.filePos then nbytes else size - desc.filePos) &&
      task.State() == WithDesc(old(task.State()), fd, desc.(filePos := desc.filePos + r)) &&
      ((desc.filePos < size && !BadBlockPrefix(d, d.inodes[desc.inodeNum])) ==>
        buf[..r] == FileData(d, desc.inodeNum)[desc.filePos..desc.filePos + r]) &&
      ((desc.filePos >= size || BadBlockPrefix(d, d.inodes[desc.inodeNum])) ==> buf[..] == old(buf[..])) &&
      buf[r..] == old(buf[r..])
  {
    var desc := task.pcbs[task.currentPid].fds[fd];
    var next;
    r, next := FileRead(d, desc, buf, nbytes);
    ghost var post := WithDesc(task.State(), fd, next);
    var p := task.pcbs[task.currentPid];
    task.pcbs := task.pcbs[task.currentPid := p.(fds := p.fds[fd := next])];
    assert task.State() == post;
  }

  /** directory_read through slot `fd`, writing the advanced descriptor
      back. */
  method ReadDirSlot(d: Disk, fd: nat, buf: array<bv8>, nbytes: nat, task: TaskState) returns (r: nat)
    requires task.Valid() && fd < MAX_FDS && nbytes <= buf.Length
    modifies buf, task
    ensures task.Valid()
    ensures var desc := old(task.pcbs[task.currentPid].fds[fd]);
      (desc.filePos >= |d.entries| ==> r == 0 && buf[..] == old(buf[..])) &&
      (desc.filePos < |d.entries| ==>
        r == (if nbytes > NAME_LEN then NAME_LEN else nbytes) &&
        buf[..r] == Strncpy(d.entries[desc.filePos].fileName, r) && buf[r..] == old(buf[r..]))
    ensures var desc := old(task.pcbs[task.currentPid].fds[fd]);
      task.State() == WithDesc(old(task.State()), fd,
        if desc.filePos < |d.entries| then desc.(filePos := desc.filePos + 1) else desc)
  {
    ghost var s0 := task.State();
    var desc := task.pcbs[task.currentPid].fds[fd];
    var next;
    r, next := DirectoryRead(d, desc, buf, nbytes);
    ghost var post := WithDesc(s0, fd, next);
    var p := task.pcbs[task.currentPid];
    task.pcbs := task.pcbs[task.currentPid := p.(fds := p.fds[fd := next])];
    assert task.State() == post;
  }

  /** The read entry of an open slot's operations table. */
  method ReadSlot(d: Disk, fd: nat, buf: array<bv8>, nbytes: nat, task: TaskState, con: Console)
    returns (r: int)
    requires DiskOk(d) && task.Valid() && con.Valid() && nbytes <= buf.Length && fd < MAX_FDS
    requires DescOk(d, fd, task.pcbs[task.currentPid].fds[fd]) && fd != 1
    requires task.pcbs[task.currentPid].fds[fd].ops == StdinOps ==>
      LineEnd(con.terms[con.taIdx].keyboardBuffer, 0) <= buf.Length
    modifies buf, task, con
    ensures task.Valid() && con.Valid()
    ensures con.taIdx == old(con.taIdx) && con.tsIdx == old(con.tsIdx) && con.vidPointer == old(con.vidPointer)
    ensures con.screenX == old(con.screenX) && con.screenY == old(con.screenY)
    ensures con.cursorX == old(con.cursorX) && con.cursorY == old(con.cursorY)
    ensures con.vmem == old(con.vmem) && con.output == old(con.output)
    ensures var desc := old(task.pcbs[task.currentPid].fds[fd]);
      desc.ops == StdinOps ==>
        var kb := old(con.terms[con.taIdx].keyboardBuffer);
        r == ReadCountAsWritten(kb, nbytes) && 0 <= r <= buf.Length &&
        buf[..r] == kb[..r] && buf[r..] == old(buf[r..]) &&
        con.terms == old(con.terms)[con.taIdx := old(con.terms[con.taIdx]).(keyboardBuffer :=
          seq(r, _ => 0 as bv8) + kb[r..])] &&
        unchanged(task)
    ensures var desc := old(task.pcbs[task.currentPid].fds[fd]);
      desc.ops == RtcOps ==>
        r == 0 && con.terms == old(con.terms)[con.taIdx := old(con.terms[con.taIdx]).(rtcFlag := false)] &&
        unchanged(task) && buf[..] == old(buf[..])
    ensures var desc := old(task.pcbs[task.currentPid].fds[fd]);
      desc.ops == FileOps ==>
        var size := d.inodes[desc.inodeNum].fileSize;
        r == (if desc.filePos >= size then 0
              else if nbytes < size - desc.filePos then nbytes else size - desc.filePos) &&
        task.State() == WithDesc(old(task.State()), fd, desc.(filePos := desc.filePos + r)) &&
        ((desc.filePos < size && !BadBlockPrefix(d, d.inodes[desc.inodeNum])) ==>
          buf[..r] == FileData(d, desc.inodeNum)[desc.filePos..desc.filePos + r]) &&
        ((desc.filePos >= size || BadBlockPrefix(d, d.inodes[desc.inodeNum])) ==> buf[..] == old(buf[..])) &&
        buf[r..] == old(buf[r..]) &&
        unchanged(con)
    ensures var desc := old(task.pcbs[task.currentPid].fds[fd]);
      desc.ops == DirOps ==>
        r == (if desc.filePos >= |d.entries| then 0 else if nbytes > NAME_LEN then NAME_LEN else nbytes) &&
        (desc.filePos >= |d.entries| ==> buf[..] == old(buf[..])) &&
        (desc.filePos < |d.entries| ==>
          buf[..r] == Strncpy(d.entries[desc.filePos].fileName, r) && buf[r..] == old(buf[r..])) &&
        task.State() == WithDesc(old(task.State()), fd,
          if desc.filePos < |d.entries| then desc.(filePos := desc.filePos + 1) else desc) &&
        unchanged(con)
  {
    var ops := task.pcbs[task.currentPid].fds[fd].ops;
    if ops == StdinOps {
      r := con.TerminalRead(buf, nbytes);
    } else if ops == RtcOps {
      r := RtcRead(con);
    } else if ops == FileOps {
      r := ReadFileSlot(d, fd, buf, nbytes, task);
    } else {
      r := ReadDirSlot(d, fd, buf, nbytes, task);
    }
  }

  /** read: -1 for fd outside [0, 8), for stdout and for a closed slot;
      otherwise what the slot's read does (ReadSlot): the keyboard line for
      stdin, the RTC flag for an RTC, the file or the next directory
      name. */
  method Read(d: Disk, fd: int, buf: array<bv8>, nbytes: int, task: TaskState, con: Console)
    returns (r: int)
    requires DiskOk(d) && task.Valid() && con.Valid() && FdsOk(d, task.pcbs[task.currentPid])
    requires 0 <= nbytes <= buf.Length
    requires (CanRead(fd, task.pcbs[task.currentPid]) &&
              task.pcbs[task.currentPid].fds[fd].ops == StdinOps) ==>
      LineEnd(con.terms[con.taIdx].keyboardBuffer, 0) <= buf.Length
    modifies buf, task, con
    ensures task.Valid() && con.Valid()
    ensures var p := old(task.pcbs[task.currentPid]);
      !CanRead(fd, p) ==> r == -1 && unchanged(task) && unchanged(con) && buf[..] == old(buf[..])
    ensures var p := old(task.pcbs[task.currentPid]);
      CanRead(fd, p) ==> p.fds[fd].ops in {StdinOps, RtcOps, FileOps, DirOps}
  {
    var p := task.pcbs[task.currentPid];
    if fd < 0 || fd == 1 || MAX_FDS <= fd || fd as nat !in p.openFiles {
      return -1;
    }
    r := ReadSlot(d, fd, buf, nbytes, task, con);
  }

  /** write: -1 for fd outside [1, 8) and for a closed slot; otherwise the
      slot's write: the screen for stdout, the rate for an RTC (the
      uint32 in the first four bytes of `buf`), -1 for files and
      directories. */
  method Write(d: Disk, fd: int, buf: seq<bv8>, nbytes: int, task: TaskState, con: Console)
    returns (r: int)
    requires DiskOk(d) && task.Valid() && con.Valid() && FdsOk(d, task.pcbs[task.currentPid])
    requires (CanWrite(fd, task.pcbs[task.currentPid]) &&
              task.pcbs[task.currentPid].fds[fd].ops == StdoutOps) ==> 0 <= nbytes <= |buf|
    requires (CanWrite(fd, task.pcbs[task.currentPid]) &&
              task.pcbs[task.currentPid].fds[fd].ops == RtcOps) ==> |buf| >= 4
    modifies con
    ensures con.Valid()
    ensures con.taIdx == old(con.taIdx) && con.tsIdx == old(con.tsIdx) && con.vidPointer == old(con.vidPointer)
    ensures con.screenX == old(con.screenX) && con.screenY == old(con.screenY)
    ensures con.cursorX == old(con.cursorX) && con.cursorY == old(con.cursorY) && con.vmem == old(con.vmem)
    ensures var p := task.pcbs[task.currentPid];
      !CanWrite(fd, p) ==> r == -1 && unchanged(con)
    ensures var p := task.pcbs[task.currentPid];
      CanWrite(fd, p) && p.fds[fd].ops == StdoutOps ==>
        r == 0 && con.output == old(con.output) + Echo(con.vidPointer, NonNul(buf[..nbytes])) &&
        con.terms == old(con.terms)
    ensures var p := task.pcbs[task.currentPid];
      CanWrite(fd, p) && p.fds[fd].ops == RtcOps ==>
        (r == 0 <==> ValidRate(LittleEndian(buf[..4]))) && (r == 0 || r == -1) &&
        (r == 0 ==> RateOfBit(con.terms[con.taIdx].rtcFreqBit) == LittleEndian(buf[..4]) &&
                    con.terms == old(con.terms)[con.taIdx := old(con.terms[con.taIdx]).(
                      rtcFreqBit := con.terms[con.taIdx].rtcFreqBit)]) &&
        (r == -1 ==> con.terms == old(con.terms)) &&
        con.output == old(con.output)
    ensures var p := task.pcbs[task.currentPid];
      CanWrite(fd, p) && (p.fds[fd].ops == FileOps || p.fds[fd].ops == DirOps) ==>
        r == -1 && unchanged(con)
  {
    var p := task.pcbs[task.currentPid];
    if fd < 1 || MAX_FDS <= fd || fd as nat !in p.openFiles {
      return -1;
    }
    var ops := p.fds[fd].ops;
    if ops == StdoutOps {
      r := con.TerminalWrite(buf, nbytes);
    } else if ops == RtcOps {
      r := RtcWrite(con, LittleEndian(buf[..4]));
    } else if ops == FileOps {
      r := FileWrite(nbytes);
    } else {
      r := DirectoryWrite(nbytes);
    }
  }

  // ---------------------------------------------------------------------
  // getargs, vidmap and the signal stubs
  // ---------------------------------------------------------------------

  /** The arguments execute stores hold no NUL byte, so getargs' test of
      the first byte fails exactly when the command had no arguments. */
  lemma ArgsHaveNoNul(cmd: seq<bv8>)
    ensures forall j :: 0 <= j < |CmdArgs(cmd)| ==> CmdArgs(cmd)[j] != 0
    ensures At(CmdArgs(cmd), 0) == 0 <==> CmdArgs(cmd) == []
  {
    var k := Delim(cmd);
    if At(cmd, k) == SPACE && k < ARGS_LEN {
      ArgsSlice(cmd);
      SliceHasNoNul(cmd, k + 1, ArgsEnd(cmd));
    } else {
      NoArgs(cmd);
    }
  }

  lemma SliceHasNoNul(cmd: seq<bv8>, lo: nat, hi: nat)
    requires lo <= hi <= |cmd|
    requires forall j :: lo <= j < hi ==> At(cmd, j) != 0
    ensures forall j :: 0 <= j < hi - lo ==> cmd[lo..hi][j] != 0
  {
    forall j | 0 <= j < hi - lo
      ensures cmd[lo..hi][j] != 0
    {
      assert At(cmd, lo + j) != 0;
    }
  }

  /** getargs: -1 when the stored arguments are empty; otherwise strncpy
      of them into the first `nbytes` bytes of `buf`, and 0. */
  method Getargs(buf: array<bv8>, nbytes: int, task: TaskState) returns (r: int)
    requires task.Valid() && 0 <= nbytes <= buf.Length
    modifies buf
    ensures var args := task.pcbs[task.currentPid].cmdArgs;
      (r == -1 <==> At(args, 0) == 0) && (r == 0 || r == -1) &&
      (r == -1 ==> buf[..] == old(buf[..])) &&
      (r == 0 ==> buf[..nbytes] == Strncpy(args, nbytes) && buf[nbytes..] == old(buf[nbytes..]))
  {
    var args := task.pcbs[task.currentPid].cmdArgs;
    if At(args, 0) == 0 {
      return -1;
    }
    var copy := Strncpy(args, nbytes);
    forall i | 0 <= i < nbytes {
      buf[i] := copy[i];
    }
    r := 0;
  }

  /** vidmap: for a pointer inside the user window, map the video page
      (present) into the user page table, mark the PCB as using it and
      hand back its user address; -1 otherwise. */
  method Vidmap(screenStart: bv32, task: TaskState, con: Console, pt: PageTables)
    returns (r: int, mapped: Option<bv32>)
    requires task.Valid() && con.Valid() && pt.Valid()
    modifies task, pt
    ensures task.Valid() && pt.Valid()
    ensures !(USER_WINDOW_LO <= screenStart < USER_WINDOW_HI) ==>
      r == -1 && mapped.None? && unchanged(task) && unchanged(pt)
    ensures USER_WINDOW_LO <= screenStart < USER_WINDOW_HI ==>
      r == 0 && mapped == Some(VIDMAP_ADDR) &&
      task.State() == WithCurrent(old(task.State()), old(task.pcbs[task.currentPid]).(vidmapInuse := 1)) &&
      Present(pt.userPageTable[USER_VIDEO_SLOT]) == 1 &&
      Present(pt.pageDir[USER_MEM_PD_ENTRY + 1]) == 1 &&
      Frame4KB(pt.userPageTable[USER_VIDEO_SLOT]) == VideoTarget(con.taIdx, con.tsIdx) &&
      pt.pageDir == old(pt.pageDir)[USER_MEM_PD_ENTRY + 1 := pt.pageDir[USER_MEM_PD_ENTRY + 1]] &&
      pt.pageDir[USER_MEM_PD_ENTRY + 1] == Pde4KB(pt.userPageTableAddr, 0, PAGE_UNPRIVILEGED, 1, 1) &&
      pt.userPageTable == old(pt.userPageTable)[USER_VIDEO_SLOT := pt.userPageTable[USER_VIDEO_SLOT]] &&
      pt.pageTable == old(pt.pageTable) && pt.tlbFlushes == old(pt.tlbFlushes) + 1
  {
    if screenStart < USER_WINDOW_LO || USER_WINDOW_HI <= screenStart {
      return -1, None;
    }
    pt.SetVideoMemPage(1, con.taIdx, con.tsIdx);
    var p := task.pcbs[task.currentPid];
    task.pcbs := task.pcbs[task.currentPid := p.(vidmapInuse := 1)];
    r, mapped := 0, Some(VIDMAP_ADDR);
  }

  /** The user address vidmap returns is the page the user page table's
      video slot maps. */
  lemma VidmapAddressIsVideoSlot()
    ensures VIDMAP_ADDR as nat == VIRTUAL_VMEM_BASE_ADDR
    ensures (VIDMAP_ADDR as nat / KB4) % 1024 == USER_VIDEO_SLOT
    ensures USER_WINDOW_LO as nat == VIRTUAL_USER_BASE_ADDR && USER_WINDOW_HI as nat == VIRTUAL_USER_BASE_ADDR + MB4
  {
  }

  /** set_handler: signals are not supported. */
  function SetHandler(signum: int, handlerAddress: bv32): (r: int)
    ensures r == -1
  {
    -1
  }

  /** sigreturn: signals are not supported. */
  function Sigreturn(): (r: int)
    ensures r == -1
  {
    -1
  }

  // ---------------------------------------------------------------------
  // The descriptor table stays servable
  // ---------------------------------------------------------------------

  /** Every PCB's open descriptors are ones the dispatch tables serve. */
  predicate AllFdsOk(d: Disk, s: ProcState)
    requires ProcOk(s)
  {
    forall i :: 0 <= i < MAX_PROCESSES ==> FdsOk(d, s.pcbs[i])
  }

  /** execute's new PCB opens only stdin and stdout. */
  lemma LaunchKeepsFdsOk(d: Disk, s: ProcState, pid: nat, args: seq<bv8>, ebp: bv32)
    requires ProcOk(s) && AllFdsOk(d, s) && pid < MAX_PROCESSES && |args| < CMD_ARGS_LEN
    ensures AllFdsOk(d, Launch(s, pid, args, ebp))
  {
    var r := Launch(s, pid, args, ebp);
    forall i | 0 <= i < MAX_PROCESSES
      ensures FdsOk(d, r.pcbs[i])
    {
      if i == pid {
        assert r.pcbs[i].openFiles == {0, 1};
      } else {
        assert r.pcbs[i] == s.pcbs[i];
      }
    }
  }

  /** halt's restore leaves the PCBs alone. */
  lemma RestoreKeepsFdsOk(d: Disk, s: ProcState)
    requires ProcOk(s) && AllFdsOk(d, s)
    ensures AllFdsOk(d, Restore(s))
  {
  }

  /** open fills the slot it marks with a descriptor for an entry of the
      image, and close clears a mark, so both keep the current PCB
      servable. */
  lemma OpenCloseKeepFdsOk(d: Disk, p: Pcb, fd: nat, e: Dentry)
    requires DiskOk(d) && PcbShape(p) && FdsOk(d, p) && 2 <= fd < MAX_FDS
    requires e in d.entries
    ensures var q := p.(openFiles := p.openFiles + {fd}, fds := p.fds[fd := OpenedDesc(e)]);
      PcbShape(q) && FdsOk(d, q)
    ensures var q := p.(openFiles := p.openFiles - {fd}, fds := p.fds[fd := EmptyDesc]);
      PcbShape(q) && FdsOk(d, q)
  {
    OpenedDescOk(d, e, fd);
  }
}
