/** The three terminals: each keeps its own line buffer, cursor, RTC rate
    and the process context it was running when it was last switched out.
    One terminal is shown on the screen (tsIdx) and one is active, i.e.
    running on the processor (taIdx); they need not be the same.  Video
    memory is four 4 KB pages: the real screen (page 0) and one shadow page
    per terminal (page k + 1).  The screen primitives of lib.h (putc,
    clear, the screen coordinates and the vid pointer) are not part of this
    model; what they are handed is recorded as fields and as an output
    log. */
module Terminal {
  import opened CStrings
  import opened Paging
  import opened Process

  const NUM_COLS: nat := 80
  const NUM_ROWS: nat := 25
  const KEYBOARD_BUFFER_SIZE: nat := 128
  const NEWLINE: bv8 := 0x0A
  const TAB: bv8 := 0x09
  const SPACE: bv8 := 0x20
  /** RTC rate bit a terminal starts with and rtc_open restores (2 Hz). */
  const DEFAULT_FREQ_BIT: nat := 8

  /** One terminal_t. */
  datatype TermRec = TermRec(
    savedEbp: bv32,
    savedEsp0: bv32,
    currentPid: nat,
    currentPcb: bv32,
    cursorX: nat,
    cursorY: nat,
    keyboardBuffer: seq<bv8>,
    keyboardIdx: nat,
    newline: bool,
    rtcFlag: bool,
    rtcFreqBit: nat)

  /** What the screen primitives were asked to do, and on which page. */
  datatype Emit = Put(page: bv32, ch: bv8) | ClearScreen(page: bv32)

  predicate TermOk(t: TermRec) {
    |t.keyboardBuffer| == KEYBOARD_BUFFER_SIZE && t.keyboardIdx < KEYBOARD_BUFFER_SIZE &&
    t.currentPid < MAX_PROCESSES && t.currentPcb == PcbAddr(t.currentPid) &&
    t.cursorX < NUM_COLS && t.cursorY < NUM_ROWS && t.rtcFreqBit <= DEFAULT_FREQ_BIT
  }

  predicate TermsOk(ts: seq<TermRec>) {
    |ts| == MAX_TERMINALS && forall i :: 0 <= i < MAX_TERMINALS ==> TermOk(ts[i])
  }

  /** The screen and the three shadow pages, 4 KB each. */
  predicate PagesOk(vmem: seq<seq<bv8>>) {
    |vmem| == MAX_TERMINALS + 1 && forall k :: 0 <= k < |vmem| ==> |vmem[k]| == KB4
  }

  /** Terminal `i` as init_terminals leaves it: it will run base shell
      `i`, whose PCB and kernel stack belong to pid `i`. */
  function InitialTerm(i: nat): (t: TermRec)
    requires i < MAX_TERMINALS
    ensures TermOk(t)
  {
    TermRec(0, KernelStackTop(i), i, PcbAddr(i), 0, 0,
            seq(KEYBOARD_BUFFER_SIZE, _ => 0), 0, false, false, DEFAULT_FREQ_BIT)
  }

  /** Store the running process's context (tss.esp0, the PCB address and
      the pid) into a terminal record; nothing else in the record
      changes. */
  function Mirror(t: TermRec, s: ProcState): TermRec {
    t.(savedEsp0 := s.esp0, currentPcb := s.currentPcb, currentPid := s.currentPid)
  }

  /** Make the context a terminal record holds the running one. */
  function Resume(s: ProcState, t: TermRec): (r: ProcState)
    requires ProcOk(s) && TermOk(t)
    ensures ProcOk(r)
    ensures r.activeProcesses == s.activeProcesses && r.pcbs == s.pcbs
  {
    s.(esp0 := t.savedEsp0, currentPcb := t.currentPcb, currentPid := t.currentPid)
  }

  /** Switching away from a terminal and straight back to it loses nothing
      of the process context. */
  lemma MirrorThenResume(t: TermRec, s: ProcState)
    requires ProcOk(s) && TermOk(t)
    ensures TermOk(Mirror(t, s))
    ensures Resume(s, Mirror(t, s)) == s
  {
  }

  // ---------------------------------------------------------------------
  // Video memory
  // ---------------------------------------------------------------------

  /** The two memcpys of set_shown_terminal: the screen is saved to the
      shadow page of the terminal leaving it, then filled from the shadow
      page of the terminal arriving. */
  function ShowSwap(vmem: seq<seq<bv8>>, from: nat, to: nat): (r: seq<seq<bv8>>)
    requires |vmem| == MAX_TERMINALS + 1 && from < MAX_TERMINALS && to < MAX_TERMINALS
    ensures |r| == |vmem|
    ensures r[0] == (if to == from then vmem[0] else vmem[to + 1])
    ensures r[from + 1] == vmem[0]
    ensures forall k :: 1 <= k < |vmem| && k != from + 1 ==> r[k] == vmem[k]
  {
    var saved := vmem[from + 1 := vmem[0]];
    saved[0 := saved[to + 1]]
  }

  /** Showing another terminal and then the first one again restores the
      screen and every other terminal's saved page; the first terminal's
      own page is left holding a copy of the screen. */
  lemma {:induction false} ShowSwapBack(vmem: seq<seq<bv8>>, a: nat, b: nat)
    requires |vmem| == MAX_TERMINALS + 1 && a < MAX_TERMINALS && b < MAX_TERMINALS && a != b
    ensures ShowSwap(ShowSwap(vmem, a, b), b, a) == vmem[a + 1 := vmem[0]]
  {
    var v1 := ShowSwap(vmem, a, b);
    var v2 := ShowSwap(v1, b, a);
    var w := vmem[a + 1 := vmem[0]];
    assert v2[0] == w[0];
    assert v2[b + 1] == w[b + 1];
    assert v2[a + 1] == w[a + 1];
    assert forall k :: 0 <= k < |vmem| ==> v2[k] == w[k];
  }

  // ---------------------------------------------------------------------
  // Erasing on backspace
  // ---------------------------------------------------------------------

  /** backspace's effect on a line: the last byte, if any, is removed
      and its slot cleared. */
  function DropLast(t: TermRec): (r: TermRec)
    requires TermOk(t)
    ensures TermOk(r)
    ensures t.keyboardIdx == 0 ==> r == t
    ensures t.keyboardIdx != 0 ==>
      r == t.(keyboardBuffer := t.keyboardBuffer[t.keyboardIdx - 1 := 0], keyboardIdx := r.keyboardIdx) &&
      r.keyboardIdx == t.keyboardIdx - 1
  {
    if t.keyboardIdx == 0 then t
    else t.(keyboardBuffer := t.keyboardBuffer[t.keyboardIdx - 1 := 0],
            keyboardIdx := t.keyboardIdx - 1)
  }

  /** How many cells backspace erases for the byte it removed. */
  function EraseWidth(prebp: bv8): (j: nat)
    ensures prebp == TAB ==> j == 4
    ensures prebp != TAB && prebp != 0 ==> j == 1
    ensures prebp == 0 ==> j == 0
  {
    if prebp == TAB then 4 else if prebp != 0 then 1 else 0
  }

  /** The cell `j` positions before (x, y), stepping back over line ends;
      None when the walk hits the top-left corner with steps left. */
  function StepBack(x: nat, y: nat, j: nat): Option<(nat, nat)>
    decreases j
  {
    if j == 0 then Some((x, y))
    else if x == 0 then (if y == 0 then None else StepBack(NUM_COLS - 1, y - 1, j - 1))
    else StepBack(x - 1, y, j - 1)
  }

  /** Read as a linear cell number y * 80 + x, stepping back subtracts j,
      and fails exactly when fewer than j cells precede the cursor. */
  lemma {:induction false} StepBackLinear(x: nat, y: nat, j: nat)
    requires x < NUM_COLS
    ensures StepBack(x, y, j).None? <==> y * NUM_COLS + x < j
    ensures StepBack(x, y, j).Some? ==>
      var p := StepBack(x, y, j).value;
      p.0 < NUM_COLS && p.1 <= y && p.1 * NUM_COLS + p.0 == y * NUM_COLS + x - j
    decreases j
  {
    if j == 0 {
    } else if x == 0 {
      if y != 0 {
        StepBackLinear(NUM_COLS - 1, y - 1, j - 1);
      }
    } else {
      StepBackLinear(x - 1, y, j - 1);
    }
  }

  /** The cursor walk of backspace: `j` steps back from (x, y), wrapping
      to the end of the previous row at column 0 and giving up at the
      top-left corner. */
  method WalkBack(x: nat, y: nat, j: nat) returns (p: Option<(nat, nat)>)
    requires x < NUM_COLS && y < NUM_ROWS
    ensures p == StepBack(x, y, j)
  {
    var cx: nat, cy: nat := x, y;
    var i := 0;
    while i < j
      invariant 0 <= i <= j && cx < NUM_COLS && cy < NUM_ROWS
      invariant StepBack(x, y, j) == StepBack(cx, cy, j - i)
    {
      if cx == 0 {
        if cy == 0 {
          return None;
        } else {
          cx := NUM_COLS - 1;
          cy := cy - 1;
        }
      } else {
        cx := cx - 1;
      }
      i := i + 1;
    }
    return Some((cx, cy));
  }

  // ---------------------------------------------------------------------
  // Reading a line
  // ---------------------------------------------------------------------

  /** The position just past the first newline at or after `i`; the end
      of the buffer when there is none. */
  function LineEnd(kb: seq<bv8>, i: nat): (k: nat)
    requires i <= |kb|
    ensures i <= k <= |kb|
    ensures forall p :: i <= p < k - 1 ==> kb[p] != NEWLINE
    ensures k < |kb| ==> k > i && kb[k - 1] == NEWLINE
    ensures k == |kb| && k > i ==> kb[k - 1] == NEWLINE || forall p :: i <= p < k ==> kb[p] != NEWLINE
    decreases |kb| - i
  {
    if i == |kb| then i
    else if kb[i] == NEWLINE then i + 1
    else LineEnd(kb, i + 1)
  }

  /** Bytes terminal_read copies as written: the line including its
      newline, or the whole 128-byte buffer. `nbytes` is deliberately
      ignored: it is kept only so that this count reads side by side with
      `ReadCount(kb, nbytes)`, since the source's loop never consults it. */
  function ReadCountAsWritten(kb: seq<bv8>, nbytes: int): nat {
    LineEnd(kb, 0)
  }

  /** Bytes a read that respects its count copies. */
  function ReadCount(kb: seq<bv8>, nbytes: int): (n: nat)
    ensures n <= LineEnd(kb, 0)
    ensures nbytes >= 0 ==> n <= nbytes
    ensures nbytes >= LineEnd(kb, 0) ==> n == LineEnd(kb, 0)
  {
    if nbytes <= 0 then 0
    else if nbytes < LineEnd(kb, 0) then nbytes
    else LineEnd(kb, 0)
  }

  /** The copy loop ignores nbytes: a one-byte read of the line "ab\n"
      stores three bytes into the caller's buffer. */
  lemma ReadIgnoresCount()
    ensures var kb := [0x61 as bv8, 0x62, NEWLINE] + seq(KEYBOARD_BUFFER_SIZE - 3, _ => 0 as bv8);
      ReadCountAsWritten(kb, 1) == 3 && ReadCount(kb, 1) == 1
  {
    var kb := [0x61 as bv8, 0x62, NEWLINE] + seq(KEYBOARD_BUFFER_SIZE - 3, _ => 0 as bv8);
    assert kb[0] == 0x61 && kb[1] == 0x62 && kb[2] == NEWLINE;
    assert LineEnd(kb, 2) == 3;
    assert LineEnd(kb, 1) == 3;
  }

  /** The bytes terminal_write puts on the screen: every non-NUL byte,
      in order. */
  function NonNul(s: seq<bv8>): (r: seq<bv8>)
    ensures |r| <= |s|
    ensures forall k :: 0 <= k < |r| ==> r[k] != 0
    ensures (forall k :: 0 <= k < |s| ==> s[k] != 0) ==> r == s
  {
    if s == [] then []
    else NonNul(s[..|s| - 1]) + (if s[|s| - 1] != 0 then [s[|s| - 1]] else [])
  }

  function Echo(page: bv32, s: seq<bv8>): (r: seq<Emit>)
    ensures |r| == |s|
    ensures forall k :: 0 <= k < |s| ==> r[k] == Put(page, s[k])
  {
    seq(|s|, k requires 0 <= k < |s| => Put(page, s[k]))
  }

  /** terminal_open: nothing to set up. */
  function TerminalOpen(filename: seq<bv8>): (r: int)
    ensures r == 0
  {
    0
  }

  /** terminal_close: nothing to release. */
  function TerminalClose(fd: int): (r: int)
    ensures r == 0
  {
    0
  }

  /** The copy loop of terminal_read as written: bytes of the line
      buffer `kb` go to `buf` up to and including the first newline, or
      all 128 of them, and each copied slot of the line is cleared.  The
      caller's count plays no part (see ReadIgnoresCount). */
  method CopyLine(kb: seq<bv8>, buf: array<bv8>) returns (r: nat, kb': seq<bv8>)
    requires |kb| == KEYBOARD_BUFFER_SIZE && LineEnd(kb, 0) <= buf.Length
    modifies buf
    ensures r == LineEnd(kb, 0)
    ensures buf[..r] == kb[..r] && buf[r..] == old(buf[r..])
    ensures kb' == seq(r, _ => 0 as bv8) + kb[r..]
  {
    kb' := kb;
    var i := 0;
    var done := false;
    while !done && i < KEYBOARD_BUFFER_SIZE
      invariant 0 <= i <= LineEnd(kb, 0) && |kb'| == KEYBOARD_BUFFER_SIZE
      invariant done || i == KEYBOARD_BUFFER_SIZE ==> i == LineEnd(kb, 0)
      invariant !done ==> LineEnd(kb, i) == LineEnd(kb, 0)
      invariant forall p :: 0 <= p < i ==> buf[p] == kb[p] && kb'[p] == 0
      invariant forall p :: i <= p < KEYBOARD_BUFFER_SIZE ==> kb'[p] == kb[p]
      invariant forall p :: i <= p < buf.Length ==> buf[p] == old(buf[p])
      decreases KEYBOARD_BUFFER_SIZE - i
    {
      buf[i] := kb'[i];
      kb' := kb'[i := 0];
      i := i + 1;
      if buf[i - 1] == NEWLINE {
        done := true;
      }
    }
    r := i;
    Copied(old(buf[..]), buf[..], kb, kb', r);
  }

  /** The copy loop with the count respected: at most `nbytes` bytes of
      the line reach `buf`, and only those slots of the line are
      cleared. */
  method CopyLineCounted(kb: seq<bv8>, buf: array<bv8>, nbytes: int) returns (r: nat, kb': seq<bv8>)
    requires |kb| == KEYBOARD_BUFFER_SIZE
    requires nbytes <= buf.Length || KEYBOARD_BUFFER_SIZE <= buf.Length
    modifies buf
    ensures r == ReadCount(kb, nbytes) && r <= buf.Length
    ensures buf[..r] == kb[..r] && buf[r..] == old(buf[r..])
    ensures kb' == seq(r, _ => 0 as bv8) + kb[r..]
  {
    ghost var n := ReadCount(kb, nbytes);
    kb' := kb;
    var i := 0;
    var done := false;
    while !done && i < KEYBOARD_BUFFER_SIZE && i < nbytes
      invariant 0 <= i <= KEYBOARD_BUFFER_SIZE && |kb'| == KEYBOARD_BUFFER_SIZE
      invariant i <= n && i <= buf.Length
      invariant done ==> i == n
      invariant !done ==> LineEnd(kb, i) == LineEnd(kb, 0)
      invariant forall p :: 0 <= p < i ==> buf[p] == kb[p] && kb'[p] == 0
      invariant forall p :: i <= p < KEYBOARD_BUFFER_SIZE ==> kb'[p] == kb[p]
      invariant forall p :: i <= p < buf.Length ==> buf[p] == old(buf[p])
      decreases KEYBOARD_BUFFER_SIZE - i
    {
      buf[i] := kb'[i];
      kb' := kb'[i := 0];
      i := i + 1;
      if buf[i - 1] == NEWLINE {
        done := true;
      }
    }
    r := i;
    Copied(old(buf[..]), buf[..], kb, kb', r);
  }

  /** The pointwise facts of CopyLine's loop, as sequences. */
  lemma Copied(before: seq<bv8>, after: seq<bv8>, kb: seq<bv8>, kb': seq<bv8>, r: nat)
    requires r <= |before| == |after| && r <= |kb| == |kb'|
    requires forall p :: 0 <= p < r ==> after[p] == kb[p] && kb'[p] == 0
    requires forall p :: r <= p < |kb| ==> kb'[p] == kb[p]
    requires forall p :: r <= p < |after| ==> after[p] == before[p]
    ensures after[..r] == kb[..r] && after[r..] == before[r..]
    ensures kb' == seq(r, _ => 0 as bv8) + kb[r..]
  {
    assert kb' == seq(r, _ => 0 as bv8) + kb[r..];
  }

  // ---------------------------------------------------------------------
  // The terminal globals
  // ---------------------------------------------------------------------

  class Console {
    var terms: seq<TermRec>
    /** TA_idx: the terminal whose process runs. */
    var taIdx: nat
    /** TS_idx: the terminal on the screen. */
    var tsIdx: nat
    /** lib.h's screen coordinates (getX/getY, editScreenCoords). */
    var screenX: nat
    var screenY: nat
    /** The hardware cursor (update_cursor). */
    var cursorX: nat
    var cursorY: nat
    /** Page putc writes to (setVidPointer). */
    var vidPointer: bv32
    var vmem: seq<seq<bv8>>
    var output: seq<Emit>

    ghost predicate Valid()
      reads this
    {
      TermsOk(terms) && taIdx < MAX_TERMINALS && tsIdx < MAX_TERMINALS &&
      screenX < NUM_COLS && screenY < NUM_ROWS && PagesOk(vmem)
    }

    /** init_terminals: three fresh terminals, terminal 0 active and shown. */
    constructor InitTerminals()
      ensures Valid()
      ensures forall i :: 0 <= i < MAX_TERMINALS ==> terms[i] == InitialTerm(i)
      ensures taIdx == 0 && tsIdx == 0 && vidPointer == VideoTarget(0, 0)
      ensures output == []
    {
      terms := [InitialTerm(0), InitialTerm(1), InitialTerm(2)];
      taIdx, tsIdx := 0, 0;
      screenX, screenY, cursorX, cursorY := 0, 0, 0, 0;
      vidPointer := 0xB8000;
      vmem := seq(MAX_TERMINALS + 1, _ => seq(KB4, _ => 0));
      output := [];
    }

    /** set_shown_terminal: save the shown terminal's coordinates and
        screen, bring up `next`'s screen and put the cursor where `next`
        left it. */
    method SetShownTerminal(next: nat)
      requires Valid() && next < MAX_TERMINALS
      modifies this
      ensures Valid()
      ensures tsIdx == next && taIdx == old(taIdx)
      ensures terms == old(terms)[old(tsIdx) := old(terms[tsIdx]).(cursorX := old(screenX), cursorY := old(screenY))]
      ensures vmem == ShowSwap(old(vmem), old(tsIdx), next)
      ensures cursorX == screenX == terms[next].cursorX && cursorY == screenY == terms[next].cursorY
      ensures vidPointer == old(vidPointer) && output == old(output)
    {
      var ts := terms[tsIdx].(cursorX := screenX, cursorY := screenY);
      var ts' := terms[tsIdx := ts];
      var vm := ShowSwap(vmem, tsIdx, next);
      assert PagesOk(vm);
      var t := ts'[next];
      terms, vmem, tsIdx := ts', vm, next;
      cursorX, cursorY, screenX, screenY := t.cursorX, t.cursorY, t.cursorX, t.cursorY;
    }

    /** The console half of set_active_terminal: park the process
        context and the screen coordinates in the active terminal, make
        `next` active, aim printing at its screen (the real one when it is
        shown, its shadow page otherwise) and take up its coordinates. */
    method SwitchActive(next: nat, s: ProcState)
      requires Valid() && ProcOk(s) && next < MAX_TERMINALS
      modifies this
      ensures Valid()
      ensures terms == old(terms)[old(taIdx) :=
        Mirror(old(terms[taIdx]), s).(cursorX := old(screenX), cursorY := old(screenY))]
      ensures taIdx == next && tsIdx == old(tsIdx)
      ensures vidPointer == VideoTarget(next, tsIdx)
      ensures screenX == terms[next].cursorX && screenY == terms[next].cursorY
      ensures next == tsIdx ==> cursorX == screenX && cursorY == screenY
      ensures next != tsIdx ==> cursorX == old(cursorX) && cursorY == old(cursorY)
      ensures vmem == old(vmem) && output == old(output)
    {
      var parked := Mirror(terms[taIdx], s).(cursorX := screenX, cursorY := screenY);
      var ts := terms[taIdx := parked];
      var t := ts[next];
      terms, taIdx := ts, next;
      vidPointer := if next != tsIdx then ShadowAddr(next) else 0xB8000;
      if next == tsIdx {
        cursorX, cursorY := t.cursorX, t.cursorY;
      }
      screenX, screenY := t.cursorX, t.cursorY;
    }

    /** set_active_terminal: switch the console to `next`, resume the
        process context `next` holds and rebind the user window to its
        process. */
    method SetActiveTerminal(next: nat, task: TaskState, pt: PageTables)
      requires Valid() && task.Valid() && pt.Valid() && next < MAX_TERMINALS
      modifies this, task, pt
      ensures Valid() && task.Valid() && pt.Valid()
      ensures terms == old(terms)[old(taIdx) :=
        Mirror(old(terms[taIdx]), old(task.State())).(cursorX := old(screenX), cursorY := old(screenY))]
      ensures taIdx == next && tsIdx == old(tsIdx)
      ensures vidPointer == VideoTarget(next, tsIdx)
      ensures task.State() == Resume(old(task.State()), terms[next])
      ensures screenX == terms[next].cursorX && screenY == terms[next].cursorY
      ensures next == tsIdx ==> cursorX == screenX && cursorY == screenY
      ensures next != tsIdx ==> cursorX == old(cursorX) && cursorY == old(cursorY)
      ensures pt.UserWindowBoundTo(task.currentPid)
      ensures pt.pageDir == old(pt.pageDir)[USER_MEM_PD_ENTRY := pt.pageDir[USER_MEM_PD_ENTRY]]
      ensures pt.pageTable == old(pt.pageTable) && pt.userPageTable == old(pt.userPageTable)
      ensures pt.tlbFlushes == old(pt.tlbFlushes) + 1
      ensures vmem == old(vmem) && output == old(output)
    {
      SwitchActive(next, task.State());
      var t := terms[next];
      ghost var post := Resume(task.State(), t);
      task.esp0 := t.savedEsp0;
      task.currentPcb := t.currentPcb;
      task.currentPid := t.currentPid;
      assert task.State() == post;
      pt.SetUserPage(task.currentPid);
    }

    /** The terminal_active bookkeeping of execute and halt: record the
        running process's context in the active terminal. */
    method SaveContext(task: TaskState)
      requires Valid() && task.Valid()
      modifies this
      ensures Valid()
      ensures terms == old(terms)[taIdx := Mirror(old(terms[taIdx]), task.State())]
      ensures taIdx == old(taIdx) && tsIdx == old(tsIdx) && vidPointer == old(vidPointer)
      ensures screenX == old(screenX) && screenY == old(screenY)
      ensures cursorX == old(cursorX) && cursorY == old(cursorY)
      ensures vmem == old(vmem) && output == old(output)
    {
      terms := terms[taIdx := Mirror(terms[taIdx], task.State())];
    }

    /** setIdx: restart the active terminal's line at `v` and lower its
        newline flag. */
    method SetIdx(v: nat)
      requires Valid() && v < KEYBOARD_BUFFER_SIZE
      modifies this
      ensures Valid()
      ensures terms == old(terms)[taIdx := old(terms[taIdx]).(keyboardIdx := v, newline := false)]
      ensures taIdx == old(taIdx) && tsIdx == old(tsIdx) && vidPointer == old(vidPointer)
      ensures screenX == old(screenX) && screenY == old(screenY)
      ensures cursorX == old(cursorX) && cursorY == old(cursorY)
      ensures vmem == old(vmem) && output == old(output)
    {
      terms := terms[taIdx := terms[taIdx].(keyboardIdx := v, newline := false)];
    }

    /** backspace on terminal `k`'s line: drop its last byte, then blank
        the cells that byte occupied on the screen (four for a tab, one
        otherwise) and leave coordinates and cursor on the first of them.
        When the walk back reaches the top-left corner with cells still to
        go, the screen is left alone. */
    method Backspace(k: nat)
      requires Valid() && k < MAX_TERMINALS
      modifies this
      ensures Valid()
      ensures terms == old(terms)[k := DropLast(old(terms[k]))]
      ensures var t := old(terms[k]);
        var prebp := if t.keyboardIdx != 0 then t.keyboardBuffer[t.keyboardIdx - 1] else 0;
        match StepBack(old(screenX), old(screenY), EraseWidth(prebp))
        case None =>
          screenX == old(screenX) && screenY == old(screenY) &&
          cursorX == old(cursorX) && cursorY == old(cursorY) && output == old(output)
        case Some(p) =>
          screenX == cursorX == p.0 && screenY == cursorY == p.1 &&
          output == old(output) + [Put(vidPointer, SPACE)]
      ensures taIdx == old(taIdx) && tsIdx == old(tsIdx) && vidPointer == old(vidPointer)
      ensures vmem == old(vmem)
    {
      var t := terms[k];
      var prebp: bv8 := 0;
      if t.keyboardIdx != 0 {
        prebp := t.keyboardBuffer[t.keyboardIdx - 1];
        terms := terms[k := t.(keyboardBuffer := t.keyboardBuffer[t.keyboardIdx - 1 := 0],
                               keyboardIdx := t.keyboardIdx - 1)];
      }
      assert terms == old(terms)[k := DropLast(t)];
      var p := WalkBack(screenX, screenY, EraseWidth(prebp));
      if p.Some? {
        screenX, screenY := p.value.0, p.value.1;
        output := output + [Put(vidPointer, SPACE)];
        cursorX, cursorY := p.value.0, p.value.1;
      }
    }

    /** terminal_read, from the point the active terminal's line is
        complete: copy the line through its newline (or the whole
        128-byte buffer) into `buf`, whatever `nbytes` says, clearing each
        copied slot of the line buffer, and return the number copied. */
    method TerminalRead(buf: array<bv8>, nbytes: int) returns (r: nat)
      requires Valid() && LineEnd(terms[taIdx].keyboardBuffer, 0) <= buf.Length
      modifies this, buf
      ensures Valid()
      ensures var kb := old(terms[taIdx].keyboardBuffer);
        r == ReadCountAsWritten(kb, nbytes) &&
        buf[..r] == kb[..r] && buf[r..] == old(buf[r..]) &&
        terms == old(terms)[taIdx := old(terms[taIdx]).(keyboardBuffer :=
          seq(r, _ => 0 as bv8) + kb[r..])]
      ensures taIdx == old(taIdx) && tsIdx == old(tsIdx) && vidPointer == old(vidPointer)
      ensures screenX == old(screenX) && screenY == old(screenY)
      ensures cursorX == old(cursorX) && cursorY == old(cursorY)
      ensures vmem == old(vmem) && output == old(output)
    {
      var t := terms[taIdx];
      var kb;
      r, kb := CopyLine(t.keyboardBuffer, buf);
      terms := terms[taIdx := t.(keyboardBuffer := kb)];
    }

    /** terminal_write: hand every non-NUL byte among the first `nbytes`
        to putc, in order, on the page the vid pointer selects. */
    method TerminalWrite(buf: seq<bv8>, nbytes: nat) returns (r: int)
      requires Valid() && nbytes <= |buf|
      modifies this
      ensures Valid() && r == 0
      ensures output == old(output) + Echo(vidPointer, NonNul(buf[..nbytes]))
      ensures terms == old(terms) && taIdx == old(taIdx) && tsIdx == old(tsIdx)
      ensures vidPointer == old(vidPointer) && vmem == old(vmem)
      ensures screenX == old(screenX) && screenY == old(screenY)
      ensures cursorX == old(cursorX) && cursorY == old(cursorY)
    {
      var out := output;
      var i := 0;
      while i < nbytes
        invariant 0 <= i <= nbytes
        invariant out == output + Echo(vidPointer, NonNul(buf[..i]))
      {
        assert buf[..i + 1][..i] == buf[..i];
        if buf[i] != 0 {
          out := out + [Put(vidPointer, buf[i])];
        }
        i := i + 1;
      }
      assert buf[..nbytes] == buf[..i];
      output := out;
      r := 0;
    }
  }
}
