/** The PIT scheduler.  The timer interrupt first starts one base shell
    per terminal, then hands the CPU to the terminals in turn: each tick
    makes the next terminal active, points the user video page at its
    screen and resumes the handler frame that terminal saved when it was
    last switched away from.  Programming the chip, the EOI and the stack
    switch itself are not part of this model; the outcome of a tick says
    where control goes. */
module Scheduler {
  import opened Paging
  import opened Process
  import opened Terminal
  import opened FileSystem
  import opened Syscalls
  import opened Descriptors

  /** Where a tick leaves the CPU: in a freshly launched base shell, or in
      the handler frame (saved ebp) of the terminal made active. */
  datatype TickOutcome = EnteredShell(eip: bv32) | Resumed(ebp: bv32)

  /** One tick's effect on (pit_counter, TA_idx), given whether the
      bootstrap execute entered its shell. */
  function Schedule(counter: nat, ta: nat, entered: bool): (r: (nat, nat))
    requires counter <= MAX_TERMINALS && ta < MAX_TERMINALS
    ensures r.0 <= MAX_TERMINALS && r.1 < MAX_TERMINALS
    ensures r.0 == if counter < MAX_TERMINALS then counter + 1 else counter
    ensures counter < MAX_TERMINALS && entered ==> r.1 == counter
    ensures counter == MAX_TERMINALS ==> r.1 != ta
  {
    if counter < MAX_TERMINALS then
      (counter + 1, if entered then counter else (counter + 1) % MAX_TERMINALS)
    else
      (counter, (ta + 1) % MAX_TERMINALS)
  }

  /** (pit_counter, TA_idx) after `n` ticks from init_PIT and
      init_terminals, when every bootstrap execute enters its shell. */
  function Ticks(n: nat): (r: (nat, nat))
    ensures r.0 <= MAX_TERMINALS && r.1 < MAX_TERMINALS
  {
    if n == 0 then (0, 0)
    else
      var p := Ticks(n - 1);
      Schedule(p.0, p.1, p.0 < MAX_TERMINALS)
  }

  /** The counter stops at three: exactly three ticks run the bootstrap. */
  lemma {:induction false} CounterSaturates(n: nat)
    ensures Ticks(n).0 == if n < MAX_TERMINALS then n else MAX_TERMINALS
  {
    if n > 0 {
      CounterSaturates(n - 1);
    }
  }

  /** Round robin: tick n (counting from 0) leaves terminal n mod 3
      active, so each terminal runs once every three ticks. */
  lemma {:induction false} RoundRobin(n: nat)
    ensures Ticks(n + 1).1 == n % MAX_TERMINALS
  {
    if n > 0 {
      RoundRobin(n - 1);
      CounterSaturates(n);
    }
  }

  /** Two terminal tables that hold the same saved handler frames. */
  predicate SameFrames(a: seq<TermRec>, b: seq<TermRec>) {
    |a| == |b| && forall i :: 0 <= i < |a| ==> a[i].savedEbp == b[i].savedEbp
  }

  /** Replacing one record by one with the same saved frame keeps every
      terminal's frame; so does a chain of such replacements. */
  lemma UpdateKeepsFrames(ts: seq<TermRec>, k: nat, t: TermRec, base: seq<TermRec>)
    requires k < |ts| && t.savedEbp == ts[k].savedEbp && SameFrames(ts, base)
    ensures SameFrames(ts[k := t], base)
  {
  }

  lemma FramesChain(a: seq<TermRec>, b: seq<TermRec>, c: seq<TermRec>)
    requires SameFrames(a, b) && SameFrames(b, c)
    ensures SameFrames(a, c)
  {
  }

  /** The terminal table once the outgoing terminal `ta` has parked the
      running context `s` and the screen coordinates (x, y) in its record,
      as set_active_terminal does before it switches. */
  function SwitchedOut(ts: seq<TermRec>, ta: nat, s: ProcState, x: nat, y: nat): (r: seq<TermRec>)
    requires ta < |ts|
    ensures |r| == |ts| && r[ta].savedEbp == ts[ta].savedEbp
    ensures forall k :: 0 <= k < |ts| && k != ta ==> r[k] == ts[k]
  {
    ts[ta := Mirror(ts[ta], s).(cursorX := x, cursorY := y)]
  }

  /** Parking the context a record already holds, with the coordinates it
      already holds, leaves the table as it was: a terminal switched to
      and straight away from keeps its record. */
  lemma ParkResumed(ts: seq<TermRec>, k: nat, s: ProcState)
    requires k < |ts| && ProcOk(s) && TermOk(ts[k])
    ensures SwitchedOut(ts, k, Resume(s, ts[k]), ts[k].cursorX, ts[k].cursorY) == ts
  {
  }

  /** The console prints to the active terminal: its page is the screen
      when the terminal is shown and its shadow page otherwise, the
      coordinates are the ones its record holds, and the hardware cursor
      follows them when the active terminal is the shown one. */
  ghost predicate PrintsToActive(con: Console)
    reads con
    requires con.Valid()
  {
    con.vidPointer == VideoTarget(con.taIdx, con.tsIdx) &&
    con.screenX == con.terms[con.taIdx].cursorX && con.screenY == con.terms[con.taIdx].cursorY &&
    (con.taIdx == con.tsIdx ==> con.cursorX == con.screenX && con.cursorY == con.screenY)
  }

  /** After a round-robin switch: the process context (pid, PCB address,
      tss.esp0) is the one the active terminal holds while the live pids,
      the PCBs and the exception flag are as given; the user window maps
      that process, the user video page follows its vidmap_inuse and aims
      at the active terminal's screen, and control goes to the frame `ebp`
      the active terminal saved. */
  ghost predicate SwitchedTo(task: TaskState, con: Console, pt: PageTables,
                             active: set<nat>, pcbs: seq<Pcb>, flag: bool, ebp: bv32)
    reads task, con, pt
    requires task.Valid() && con.Valid() && pt.Valid()
  {
    var t := con.terms[con.taIdx];
    task.activeProcesses == active && task.pcbs == pcbs && task.exceptionFlag == flag &&
    task.currentPid == t.currentPid && task.currentPcb == t.currentPcb && task.esp0 == t.savedEsp0 &&
    pt.UserWindowBoundTo(task.currentPid) &&
    Present(pt.userPageTable[USER_VIDEO_SLOT]) == task.pcbs[task.currentPid].vidmapInuse & 1 &&
    Present(pt.pageDir[USER_MEM_PD_ENTRY + 1]) == task.pcbs[task.currentPid].vidmapInuse & 1 &&
    Frame4KB(pt.userPageTable[USER_VIDEO_SLOT]) == VideoTarget(con.taIdx, con.tsIdx) &&
    ebp == t.savedEbp
  }

  /** After a bootstrap execute that entered its shell: the plan's pid runs
      the shell with no arguments, its user window is mapped and control
      goes to the shell's entry point. */
  ghost predicate ShellLaunched(d: Disk, task: TaskState, pt: PageTables, active: set<nat>, eip: bv32)
    reads task, pt
    requires DiskOk(d) && task.Valid() && pt.Valid()
  {
    var p := ExecCheck(d, SHELL, active);
    p.Load? && task.currentPid == p.pid && pt.UserWindowBoundTo(p.pid) &&
    task.activeProcesses == active + {p.pid} &&
    task.pcbs[p.pid].cmdArgs == [] &&
    eip == EntryPoint(d, p.e.inodeIdx)
  }

  class Pit {
    /** pit_counter: bootstrap ticks taken so far. */
    var pitCounter: nat

    ghost predicate Valid()
      reads this
    {
      pitCounter <= MAX_TERMINALS
    }

    /** init_PIT's state part. */
    constructor ()
      ensures Valid() && pitCounter == 0
    {
      pitCounter := 0;
    }

    /** The round-robin half of PIT_Handler: make the next terminal
        active, let the user video page follow the new process's
        vidmap_inuse, and resume the new terminal's saved frame. */
    method Rotate(task: TaskState, con: Console, pt: PageTables) returns (ebp: bv32)
      requires task.Valid() && con.Valid() && pt.Valid()
      modifies task, con, pt
      ensures task.Valid() && con.Valid() && pt.Valid()
      ensures con.taIdx == (old(con.taIdx) + 1) % MAX_TERMINALS && con.tsIdx == old(con.tsIdx)
      ensures con.terms ==
        SwitchedOut(old(con.terms), old(con.taIdx), old(task.State()), old(con.screenX), old(con.screenY))
      ensures SwitchedTo(task, con, pt, old(task.activeProcesses), old(task.pcbs), old(task.exceptionFlag), ebp)
      ensures SameFrames(con.terms, old(con.terms))
      ensures PrintsToActive(con)
      ensures con.taIdx != con.tsIdx ==> con.cursorX == old(con.cursorX) && con.cursorY == old(con.cursorY)
      ensures con.vmem == old(con.vmem) && con.output == old(con.output)
      ensures pt.pageDir == old(pt.pageDir)[USER_MEM_PD_ENTRY := pt.pageDir[USER_MEM_PD_ENTRY]]
                                           [USER_MEM_PD_ENTRY + 1 := pt.pageDir[USER_MEM_PD_ENTRY + 1]]
      ensures pt.userPageTable == old(pt.userPageTable)[USER_VIDEO_SLOT := pt.userPageTable[USER_VIDEO_SLOT]]
      ensures pt.pageTable == old(pt.pageTable) && pt.tlbFlushes == old(pt.tlbFlushes) + 2
    {
      ghost var ts0 := con.terms;
      con.SetActiveTerminal((con.taIdx + 1) % MAX_TERMINALS, task, pt);
      UpdateKeepsFrames(ts0, old(con.taIdx), con.terms[old(con.taIdx)], ts0);
      pt.SetVideoMemPage(task.pcbs[task.currentPid].vidmapInuse, con.taIdx, con.tsIdx);
      ebp := con.terms[con.taIdx].savedEbp;
    }

    /** The bootstrap half of PIT_Handler: make terminal pit_counter
        active, count the tick and execute its base shell. */
    method Bootstrap(d: Disk, task: TaskState, con: Console, pt: PageTables, execEbp: bv32)
      returns (e: ExecOutcome, image: seq<bv8>)
      requires Valid() && pitCounter < MAX_TERMINALS
      requires DiskOk(d) && task.Valid() && con.Valid() && pt.Valid()
      modifies this, task, con, pt
      ensures Valid() && task.Valid() && con.Valid() && pt.Valid()
      ensures pitCounter == old(pitCounter) + 1
      ensures con.taIdx == old(pitCounter) && con.tsIdx == old(con.tsIdx)
      ensures SameFrames(con.terms, old(con.terms))
      ensures var t1 := SwitchedOut(old(con.terms), old(con.taIdx), old(task.State()), old(con.screenX), old(con.screenY));
        var p := ExecCheck(d, SHELL, old(task.activeProcesses));
        (e.Entered? <==> p.Load?) &&
        (p.Load? ==> ShellLaunched(d, task, pt, old(task.activeProcesses), e.eip) &&
                     con.terms == t1[con.taIdx := Mirror(t1[con.taIdx], task.State())]) &&
        (!p.Load? ==> task.activeProcesses == old(task.activeProcesses) &&
                      task.pcbs == old(task.pcbs) &&
                      task.exceptionFlag == old(task.exceptionFlag) &&
                      task.State() == Resume(old(task.State()), t1[con.taIdx]) &&
                      con.terms == t1) &&
        pt.tlbFlushes == old(pt.tlbFlushes) + 1 + ExecFlushes(p)
      ensures PrintsToActive(con)
      ensures con.taIdx != con.tsIdx ==> con.cursorX == old(con.cursorX) && con.cursorY == old(con.cursorY)
      ensures con.vmem == old(con.vmem) && con.output == old(con.output)
      ensures pt.pageDir == old(pt.pageDir)[USER_MEM_PD_ENTRY := pt.pageDir[USER_MEM_PD_ENTRY]]
      ensures pt.pageTable == old(pt.pageTable) && pt.userPageTable == old(pt.userPageTable)
    {
      ghost var ts0 := con.terms;
      ghost var t1 := SwitchedOut(con.terms, con.taIdx, task.State(), con.screenX, con.screenY);
      con.SetActiveTerminal(pitCounter, task, pt);
      assert con.terms == t1;
      UpdateKeepsFrames(ts0, old(con.taIdx), con.terms[old(con.taIdx)], ts0);
      ghost var s1 := task.State();
      ghost var dir1 := pt.pageDir;
      assert s1 == Resume(old(task.State()), t1[con.taIdx]);
      assert PrintsToActive(con);
      pitCounter := pitCounter + 1;
      e, image := LaunchShell(d, task, con, pt, execEbp);
      WindowTwice(old(pt.pageDir), dir1, pt.pageDir);
      FramesChain(con.terms, t1, ts0);
    }

    /** The execute("shell") of a bootstrap tick. */
    static method LaunchShell(d: Disk, task: TaskState, con: Console, pt: PageTables, execEbp: bv32)
      returns (e: ExecOutcome, image: seq<bv8>)
      requires DiskOk(d) && task.Valid() && con.Valid() && pt.Valid()
      modifies task, con, pt
      ensures task.Valid() && con.Valid() && pt.Valid()
      ensures con.taIdx == old(con.taIdx) && con.tsIdx == old(con.tsIdx) && con.vidPointer == old(con.vidPointer)
      ensures con.screenX == old(con.screenX) && con.screenY == old(con.screenY)
      ensures con.cursorX == old(con.cursorX) && con.cursorY == old(con.cursorY)
      ensures con.vmem == old(con.vmem) && con.output == old(con.output)
      ensures SameFrames(con.terms, old(con.terms))
      ensures var p := ExecCheck(d, SHELL, old(task.activeProcesses));
        (e.Entered? <==> p.Load?) &&
        (p.Load? ==> ShellLaunched(d, task, pt, old(task.activeProcesses), e.eip) &&
                     task.State() == Launch(old(task.State()), p.pid, [], execEbp) &&
                     con.terms == old(con.terms)[con.taIdx := Mirror(old(con.terms[con.taIdx]), task.State())]) &&
        (!p.Load? ==> task.State() == old(task.State()) && con.terms == old(con.terms)) &&
        pt.tlbFlushes == old(pt.tlbFlushes) + ExecFlushes(p)
      ensures pt.pageDir == old(pt.pageDir)[USER_MEM_PD_ENTRY := pt.pageDir[USER_MEM_PD_ENTRY]]
      ensures pt.pageTable == old(pt.pageTable) && pt.userPageTable == old(pt.userPageTable)
    {
      ghost var ts1 := con.terms;
      ghost var s1 := task.State();
      ShellHasNoArgs();
      e, image := Execute(d, SHELL, task, con, pt, execEbp);
      if e.Entered? {
        UpdateKeepsFrames(ts1, con.taIdx, con.terms[con.taIdx], ts1);
        var p := ExecCheck(d, SHELL, s1.activeProcesses);
        assert task.State() == Launch(s1, p.pid, [], execEbp);
      } else {
        assert con.terms == ts1;
      }
    }

    /** The first three ticks: start terminal pit_counter's base shell and
        stay there, or when it does not start fall through to the round
        robin. */
    method BootTick(d: Disk, task: TaskState, con: Console, pt: PageTables, execEbp: bv32)
      returns (r: TickOutcome, image: seq<bv8>)
      requires Valid() && pitCounter < MAX_TERMINALS
      requires DiskOk(d) && task.Valid() && con.Valid() && pt.Valid()
      modifies this, task, con, pt
      ensures Valid() && task.Valid() && con.Valid() && pt.Valid()
      ensures pitCounter == old(pitCounter) + 1
      ensures SameFrames(con.terms, old(con.terms))
      ensures r.EnteredShell? <==> ExecCheck(d, SHELL, old(task.activeProcesses)).Load?
      ensures r.EnteredShell? ==>
        con.taIdx == old(pitCounter) && ShellLaunched(d, task, pt, old(task.activeProcesses), r.eip)
      ensures r.Resumed? ==>
        con.taIdx == (old(pitCounter) + 1) % MAX_TERMINALS &&
        SwitchedTo(task, con, pt, old(task.activeProcesses), old(task.pcbs), old(task.exceptionFlag), r.ebp)
      ensures con.tsIdx == old(con.tsIdx)
      ensures var t1 := SwitchedOut(old(con.terms), old(con.taIdx), old(task.State()), old(con.screenX), old(con.screenY));
        (r.EnteredShell? ==> con.terms == t1[con.taIdx := Mirror(t1[con.taIdx], task.State())]) &&
        (r.Resumed? ==> con.terms == t1)
      ensures PrintsToActive(con)
      ensures con.taIdx != con.tsIdx && (r.EnteredShell? || old(pitCounter) != con.tsIdx) ==>
        con.cursorX == old(con.cursorX) && con.cursorY == old(con.cursorY)
      ensures con.taIdx != con.tsIdx && r.Resumed? && old(pitCounter) == con.tsIdx ==>
        con.cursorX == con.terms[con.tsIdx].cursorX && con.cursorY == con.terms[con.tsIdx].cursorY
      ensures con.vmem == old(con.vmem) && con.output == old(con.output)
      ensures var p := ExecCheck(d, SHELL, old(task.activeProcesses));
        (r.EnteredShell? ==>
          pt.pageDir == old(pt.pageDir)[USER_MEM_PD_ENTRY := pt.pageDir[USER_MEM_PD_ENTRY]] &&
          pt.userPageTable == old(pt.userPageTable) && pt.tlbFlushes == old(pt.tlbFlushes) + 2) &&
        (r.Resumed? ==>
          pt.pageDir == old(pt.pageDir)[USER_MEM_PD_ENTRY := pt.pageDir[USER_MEM_PD_ENTRY]]
                                       [USER_MEM_PD_ENTRY + 1 := pt.pageDir[USER_MEM_PD_ENTRY + 1]] &&
          pt.userPageTable == old(pt.userPageTable)[USER_VIDEO_SLOT := pt.userPageTable[USER_VIDEO_SLOT]] &&
          pt.tlbFlushes == old(pt.tlbFlushes) + 3 + ExecFlushes(p))
      ensures pt.pageTable == old(pt.pageTable)
    {
      var e;
      e, image := Bootstrap(d, task, con, pt, execEbp);
      if e.Entered? {
        return EnteredShell(e.eip), image;
      }
      ghost var dir1 := pt.pageDir;
      ghost var cx1, cy1 := con.cursorX, con.cursorY;
      assert old(pitCounter) == con.tsIdx ==>
        cx1 == con.terms[con.tsIdx].cursorX && cy1 == con.terms[con.tsIdx].cursorY;
      var next := FallThrough(task, con, pt);
      WindowThenUserEntries(old(pt.pageDir), dir1, pt.pageDir);
      r, image := Resumed(next), [];
    }

    /** The round robin reached from a bootstrap tick whose shell did not
        start: the running context and the coordinates are still the ones
        the active terminal holds, so parking them changes no record, and
        the tick resumes the next terminal. */
    method FallThrough(task: TaskState, con: Console, pt: PageTables) returns (ebp: bv32)
      requires task.Valid() && con.Valid() && pt.Valid()
      requires task.currentPid == con.terms[con.taIdx].currentPid &&
               task.currentPcb == con.terms[con.taIdx].currentPcb &&
               task.esp0 == con.terms[con.taIdx].savedEsp0
      requires con.screenX == con.terms[con.taIdx].cursorX && con.screenY == con.terms[con.taIdx].cursorY
      modifies task, con, pt
      ensures task.Valid() && con.Valid() && pt.Valid()
      ensures con.taIdx == (old(con.taIdx) + 1) % MAX_TERMINALS && con.tsIdx == old(con.tsIdx)
      ensures con.terms == old(con.terms)
      ensures SwitchedTo(task, con, pt, old(task.activeProcesses), old(task.pcbs), old(task.exceptionFlag), ebp)
      ensures PrintsToActive(con)
      ensures con.taIdx != con.tsIdx ==> con.cursorX == old(con.cursorX) && con.cursorY == old(con.cursorY)
      ensures con.vmem == old(con.vmem) && con.output == old(con.output)
      ensures pt.pageDir == old(pt.pageDir)[USER_MEM_PD_ENTRY := pt.pageDir[USER_MEM_PD_ENTRY]]
                                           [USER_MEM_PD_ENTRY + 1 := pt.pageDir[USER_MEM_PD_ENTRY + 1]]
      ensures pt.userPageTable == old(pt.userPageTable)[USER_VIDEO_SLOT := pt.userPageTable[USER_VIDEO_SLOT]]
      ensures pt.pageTable == old(pt.pageTable) && pt.tlbFlushes == old(pt.tlbFlushes) + 2
    {
      assert task.State() == Resume(task.State(), con.terms[con.taIdx]);
      ParkResumed(con.terms, con.taIdx, task.State());
      ebp := Rotate(task, con, pt);
    }

    /** PIT_Handler: record the outgoing terminal's handler frame; during
        the first three ticks start a base shell on terminal pit_counter
        (control stays there when it starts); otherwise, or when it does
        not start, switch to the next terminal round-robin. */
    method Tick(d: Disk, task: TaskState, con: Console, pt: PageTables, ebp: bv32, execEbp: bv32)
      returns (r: TickOutcome, image: seq<bv8>)
      requires Valid() && DiskOk(d) && task.Valid() && con.Valid() && pt.Valid()
      modifies this, task, con, pt
      ensures Valid() && task.Valid() && con.Valid() && pt.Valid()
      ensures pitCounter == Schedule(old(pitCounter), old(con.taIdx), r.EnteredShell?).0
      ensures con.taIdx == Schedule(old(pitCounter), old(con.taIdx), r.EnteredShell?).1
      ensures con.terms[old(con.taIdx)].savedEbp == ebp
      ensures r.EnteredShell? <==>
        old(pitCounter) < MAX_TERMINALS && ExecCheck(d, SHELL, old(task.activeProcesses)).Load?
      ensures r.EnteredShell? ==> ShellLaunched(d, task, pt, old(task.activeProcesses), r.eip)
      ensures r.Resumed? ==>
        SwitchedTo(task, con, pt, old(task.activeProcesses), old(task.pcbs), old(task.exceptionFlag), r.ebp)
      ensures con.tsIdx == old(con.tsIdx)
      ensures var t0 := old(con.terms)[old(con.taIdx) := old(con.terms[con.taIdx]).(savedEbp := ebp)];
        var t1 := SwitchedOut(t0, old(con.taIdx), old(task.State()), old(con.screenX), old(con.screenY));
        (r.EnteredShell? ==> con.terms == t1[con.taIdx := Mirror(t1[con.taIdx], task.State())]) &&
        (r.Resumed? ==> con.terms == t1)
      ensures PrintsToActive(con)
      ensures con.taIdx != con.tsIdx && (r.EnteredShell? || old(pitCounter) != con.tsIdx) ==>
        con.cursorX == old(con.cursorX) && con.cursorY == old(con.cursorY)
      ensures con.taIdx != con.tsIdx && r.Resumed? && old(pitCounter) == con.tsIdx ==>
        con.cursorX == con.terms[con.tsIdx].cursorX && con.cursorY == con.terms[con.tsIdx].cursorY
      ensures con.vmem == old(con.vmem) && con.output == old(con.output)
      ensures var p := ExecCheck(d, SHELL, old(task.activeProcesses));
        (r.EnteredShell? ==>
          pt.pageDir == old(pt.pageDir)[USER_MEM_PD_ENTRY := pt.pageDir[USER_MEM_PD_ENTRY]] &&
          pt.userPageTable == old(pt.userPageTable) && pt.tlbFlushes == old(pt.tlbFlushes) + 2) &&
        (r.Resumed? ==>
          pt.pageDir == old(pt.pageDir)[USER_MEM_PD_ENTRY := pt.pageDir[USER_MEM_PD_ENTRY]]
                                       [USER_MEM_PD_ENTRY + 1 := pt.pageDir[USER_MEM_PD_ENTRY + 1]] &&
          pt.userPageTable == old(pt.userPageTable)[USER_VIDEO_SLOT := pt.userPageTable[USER_VIDEO_SLOT]] &&
          pt.tlbFlushes == old(pt.tlbFlushes) + 2 +
            (if old(pitCounter) < MAX_TERMINALS then 1 + ExecFlushes(p) else 0))
      ensures pt.pageTable == old(pt.pageTable)
    {
      var ta := con.terms[con.taIdx].(savedEbp := ebp);
      con.terms := con.terms[con.taIdx := ta];
      r, image := Advance(d, task, con, pt, execEbp);
    }

    /** The part of PIT_Handler after the outgoing frame is saved: the
        bootstrap while pit_counter is below three, the round robin
        after. */
    method Advance(d: Disk, task: TaskState, con: Console, pt: PageTables, execEbp: bv32)
      returns (r: TickOutcome, image: seq<bv8>)
      requires Valid() && DiskOk(d) && task.Valid() && con.Valid() && pt.Valid()
      modifies this, task, con, pt
      ensures Valid() && task.Valid() && con.Valid() && pt.Valid()
      ensures SameFrames(con.terms, old(con.terms))
      ensures pitCounter == Schedule(old(pitCounter), old(con.taIdx), r.EnteredShell?).0
      ensures con.taIdx == Schedule(old(pitCounter), old(con.taIdx), r.EnteredShell?).1
      ensures r.EnteredShell? <==>
        old(pitCounter) < MAX_TERMINALS && ExecCheck(d, SHELL, old(task.activeProcesses)).Load?
      ensures r.EnteredShell? ==> ShellLaunched(d, task, pt, old(task.activeProcesses), r.eip)
      ensures r.Resumed? ==>
        SwitchedTo(task, con, pt, old(task.activeProcesses), old(task.pcbs), old(task.exceptionFlag), r.ebp)
      ensures con.tsIdx == old(con.tsIdx)
      ensures var t1 := SwitchedOut(old(con.terms), old(con.taIdx), old(task.State()), old(con.screenX), old(con.screenY));
        (r.EnteredShell? ==> con.terms == t1[con.taIdx := Mirror(t1[con.taIdx], task.State())]) &&
        (r.Resumed? ==> con.terms == t1)
      ensures PrintsToActive(con)
      ensures con.taIdx != con.tsIdx && (r.EnteredShell? || old(pitCounter) != con.tsIdx) ==>
        con.cursorX == old(con.cursorX) && con.cursorY == old(con.cursorY)
      ensures con.taIdx != con.tsIdx && r.Resumed? && old(pitCounter) == con.tsIdx ==>
        con.cursorX == con.terms[con.tsIdx].cursorX && con.cursorY == con.terms[con.tsIdx].cursorY
      ensures con.vmem == old(con.vmem) && con.output == old(con.output)
      ensures var p := ExecCheck(d, SHELL, old(task.activeProcesses));
        (r.EnteredShell? ==>
          pt.pageDir == old(pt.pageDir)[USER_MEM_PD_ENTRY := pt.pageDir[USER_MEM_PD_ENTRY]] &&
          pt.userPageTable == old(pt.userPageTable) && pt.tlbFlushes == old(pt.tlbFlushes) + 2) &&
        (r.Resumed? ==>
          pt.pageDir == old(pt.pageDir)[USER_MEM_PD_ENTRY := pt.pageDir[USER_MEM_PD_ENTRY]]
                                       [USER_MEM_PD_ENTRY + 1 := pt.pageDir[USER_MEM_PD_ENTRY + 1]] &&
          pt.userPageTable == old(pt.userPageTable)[USER_VIDEO_SLOT := pt.userPageTable[USER_VIDEO_SLOT]] &&
          pt.tlbFlushes == old(pt.tlbFlushes) + 2 +
            (if old(pitCounter) < MAX_TERMINALS then 1 + ExecFlushes(p) else 0))
      ensures pt.pageTable == old(pt.pageTable)
    {
      if pitCounter < MAX_TERMINALS {
        r, image := BootTick(d, task, con, pt, execEbp);
      } else {
        var next := Rotate(task, con, pt);
        r, image := Resumed(next), [];
      }
    }
  }
}
