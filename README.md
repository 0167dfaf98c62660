# student-distrib kernel core in Dafny

A model of the bookkeeping core of `student-distrib`, a small x86 teaching
kernel. It has three terminals, each running its own base shell, round-robin
scheduling on the PIT, a read-only in-memory file system, a virtualised RTC,
and a `int 0x80` system-call interface. The model covers:

- **Processes.** `execute` parses a command line, checks the ELF signature,
  takes the lowest free pid from `activeProcesses`, fills the PCB at
  0x800000 - (pid+1)*8KB and switches `tss.esp0`. `halt` respawns a base
  shell (pid < 3) or gives control back to the parent through
  `restore_parent`, handing it the exit status, or 256 after an exception.
  The globals `activeProcesses`, `currentPID`, `current_PCB`, `tss.esp0` and
  `exception_flag`, plus the PCB array, are the fields of the class
  `Process.TaskState`. The bitmasks `activeProcesses` and `open_files` are
  sets of bit positions.
- **The system-call surface.** `read`, `write`, `open`, `close`, `getargs`,
  `vidmap`, `set_handler` and `sigreturn`, on the 8-slot descriptor table
  of the current PCB (module `Syscalls`).
- **Terminals and scheduling.** The three terminal records, the active and
  shown indices, the screen with its three 4 KB shadow pages, and the
  cursor and print target are the class `Terminal.Console`. It provides
  `init_terminals`, `set_shown_terminal`, `set_active_terminal`,
  `backspace`, `terminal_read` and `terminal_write`. `PIT_Handler` is
  `Scheduler.Pit.Tick`: three bootstrap ticks that launch the base shells,
  then round-robin rotation.
- **Paging.** The page directory, the low page table and the user page table
  are arrays of packed 32-bit words in the class `Paging.PageTables`. It
  provides `init_Paging`, `set_user_page` and `set_video_mem_page`. The
  `x86_desc.h` packing macros (IDT gates, 4 KB and 4 MB directory entries,
  page-table entries, LDT and TSS segment descriptors) are in module
  `Descriptors`. They follow 32-bit paging in section 4.3 of the Intel SDM
  Vol. 3A and the IDT gate layout in section 6.11.
- **The file system.** The disk image is immutable sequences of directory
  entries, inodes and data blocks. `read_data` copies block by block into an
  array and is proved to yield a contiguous slice of the file. `file_read`
  and `directory_read` advance the descriptor's position (module
  `FileSystem`).
- **The RTC.** Frequency validation, the frequency-to-counter-bit loop, and
  the per-terminal "bit flips on increment" flag rule of `RTC_Handler`
  (module `Rtc`).
- **The keyboard.** The `shiftcaps` and `keycode` state machine, the two
  scancode tables, ctrl+L, alt+F1..F3 and the 128-byte line buffer
  (module `Keyboard`).
- **Interrupts.** `populate_IDT` fills a 256-entry array, and each of the 20
  exception handlers either freezes the machine or halts the running
  process (module `Interrupts`).

The model follows the code wherever a comment or a general description says
otherwise:

- `rtc_write` accepts frequencies up to 512 Hz (`drivers/rtc.c:156`), though
  its header comment says 1024.
- A general-protection fault, like the other non-recoverable exceptions,
  freezes the machine (`intr.c:249-256`) rather than ending the process.
- `read_data` rejects an inode when any of its first 63 block indices is out
  of range (`drivers/fsys.c:129-133`), even if the file uses fewer blocks.

The file and directory tests in `tests.c` use an older API and are not
followed.

Steps that are assembly or hardware become values and outcomes:

- What `execute_asm`, `halt_asm` and `swtch_ctx` jump to is the returned
  outcome: `ExecOutcome.Entered(eip)`, `HaltOutcome.ToParent(ebp, value)` or
  `Respawned(eip)`, and `TickOutcome`.
- The caller's `ebp` is a parameter.
- The executable image copied to 0x8048000 is a returned sequence.
- Screen output is a list of `Emit` events (`Put`, `ClearScreen`) tagged
  with the video page written.
- A TLB flush is a counter.

## Model

| member | source | states |
|---|---|---|
| Descriptors.IntGate | student-distrib/x86_desc.h:204-218 | SET_IDT_ENTRY_INT_GATE: the two offset halves recombine to the handler address. The type bits are those of an interrupt gate (reserved3 = 0, reserved2 = reserved1 = size = 1, reserved0 = reserved4 = 0) and not those of a trap gate. The selector is the segment. dpl and present are the low bits of their arguments. |
| Descriptors.TrapGate | student-distrib/x86_desc.h:223-237 | SET_IDT_ENTRY_TRAP_GATE: the same, with the trap-gate type bit reserved3 = 1. |
| Descriptors.SetIdtEntry | student-distrib/x86_desc.h:195-199 | SET_IDT_ENTRY: the offset of entry v becomes the handler. Every other field of that entry, and every other entry, is unchanged. |
| Descriptors.Pde4KB | student-distrib/x86_desc.h:295-313 | SET_4KB_PD_ENTRY: address bits 12..31 kept, present/rw/user/avail from the arguments, write-through, cache-disable, accessed, reserved and global zero, page_size 0. |
| Descriptors.Pde4MB | student-distrib/x86_desc.h:318-335 | SET_4MB_PD_ENTRY: the 19-bit field at bit 13 holds (addr & 0xFFC00000) >> 13, so the entry's bits 22..31 equal addr's and bits 12..21 are 0. Flags as for the 4 KB entry, with page_size 1. |
| Descriptors.Pte | student-distrib/x86_desc.h:340-356 | SET_PT_ENTRY: address bits 12..31 kept, present/rw/user/avail from the arguments, every other flag zero. |
| Descriptors.SegDesc.SetLdtParams | student-distrib/x86_desc.h:134-141 | The 8+8+16-bit base pieces recombine to addr and the 4+16-bit limit pieces to the low 20 bits of lim. No attribute field changes. |
| Descriptors.SegDesc.SetTssParams | student-distrib/x86_desc.h:144-151 | The same for a TSS descriptor. |
| Paging.PageTables.InitPaging | student-distrib/page.c:16-42 | Every low page-table entry is set (LowEntry): PDE 0 is a present supervisor 4 KB entry pointing at that table, and PDE 1 is the present 4 MB kernel page. The other PDEs, the user table and the flush count are unchanged. |
| Paging.PlainSlots | student-distrib/page.c:23-25 | Outside 0xB8..0xBB each low entry maps its own 4 KB frame as not present, user and read-write. |
| Paging.VideoFrames | student-distrib/page.c:27-33 | Entries 0xB8..0xBB map the video page and the three shadow pages at their own addresses. |
| Paging.VideoFlags | student-distrib/page.c:27-33 | Entries 0xB8..0xBB are present and supervisor-only. |
| Paging.KernelPage | student-distrib/page.c:28 | A supervisor present entry for a 4 KB-aligned address maps exactly that frame. |
| Paging.PageTables.SetUserPage | student-distrib/page.c:50-56 | Only PDE 32 changes. It maps the present, user, read-write 4 MB page at 0x800000 + pid*4MB. The tables are unchanged and exactly one TLB flush follows. |
| Paging.UserFramesDisjoint | student-distrib/page.c:52 | Distinct pids in [0,8) get 4 MB-aligned frames inside [8MB, 40MB) that do not overlap. |
| Paging.VideoTarget | student-distrib/page.c:73-77 | The user video page targets 0xB8000 when the active terminal is shown, and shadow page TA_idx+1 otherwise; the target is 4 KB aligned. |
| Paging.PageTables.SetVideoMemPage | student-distrib/page.c:68-81 | PDE 33 becomes a user 4 KB entry for the user table with present = present & 1. Only slot 1 of the user table changes: it maps VideoTarget(TA_idx, TS_idx) with present = present & 1. One TLB flush follows. |
| Process.KernelStacksDisjoint | student-distrib/syscall.c:188-214 | Each pid's PCB sits 8 KB below its esp0, inside [0x7F0000, 0x800000]. Distinct pids get distinct PCBs, and their 8 KB kernel stacks do not overlap. |
| Process.Launch | student-distrib/syscall.c:188-214 | After a successful execute: the pid's bit is added and currentPID = pid. The PCB has id = pid, parent_pid = old currentPID, parent_esp0 = old esp0, parent_ebp = the execute frame, vidmap_inuse = 0, cmd_args = the parsed arguments, open_files {0,1} and stdin/stdout in fds 0/1. esp0 = 0x800000 - pid*8KB, and no other PCB changes. |
| Process.Restore | student-distrib/process.c:22-30 | restore_parent: the halting process's id leaves activeProcesses, currentPID becomes parent_pid, esp0 becomes parent_esp0, and the PCBs and the exception flag are kept. |
| Process.LaunchThenRestore | student-distrib/syscall.c:188-214 | For a fresh pid, launching a child and then restoring its parent gives back activeProcesses, currentPID, current_PCB, esp0 and the exception flag. |
| Process.OpenFdsBetweenMeaning | student-distrib/process.c:16-20 | The closed descriptors are exactly the fds in [lo, hi) whose bit is set. |
| Process.OpenFdsBetweenIncreasing | student-distrib/process.c:16-20 | They are closed in increasing fd order, each inside [lo, hi). |
| Process.ClosingOrder | student-distrib/process.c:16-20 | The close loop calls close on exactly the open fds 2..7, in increasing order. |
| Process.TaskState.LowerExceptionFlag | student-distrib/syscall.c:72-73 | exception_flag = 0, and nothing else changes. |
| Process.TaskState.RestoreParent | student-distrib/process.c:12-39 | The state becomes Restore of the old one, and the closed fds are the open ones among 2..7. The user window is rebound to the parent pid. PDE 33 and the video slot are present exactly when the parent's vidmap_inuse & 1, and the video slot aims at the active terminal's screen. Only directory entries 32 and 33 and the video slot change; the kernel page table is kept, and there are two TLB flushes. |
| CStrings.StrnEqMeaning | student-distrib/drivers/fsys.c:59 | strncmp(a, b, n) == 0 exactly when a and b agree up to and including a's first NUL, or up to n bytes. |
| CStrings.Strncpy | student-distrib/syscall.c:397 | strncpy writes exactly n bytes: the source up to its first NUL, then zeros. |
| Syscalls.DelimFrom | student-distrib/syscall.c:113-115 | The scan stops at the first ' ' or NUL at or after i, and every byte it passes is neither. |
| Syscalls.Delim | student-distrib/syscall.c:111-115 | args_idx is the position of the first ' ' or NUL (the end of the command counting as NUL). |
| Syscalls.ScanName | student-distrib/syscall.c:111-115 | The scanning loop returns Delim. |
| Syscalls.ExeName | student-distrib/syscall.c:117-123 | The name is a prefix of the command of at most 32 non-delimiter bytes, ending at the delimiter unless truncated at 32. |
| Syscalls.ArgCopyCount | student-distrib/syscall.c:125 | The corrected copy count never carries the copy past the 128-byte args buffer. |
| Syscalls.ArgCopyCountCorrected | student-distrib/syscall.c:125 | The corrected count equals the source's 128 - args_idx whenever args_idx <= 128, is at most 128, and is 0 beyond. |
| Syscalls.ArgCopyCountWraps | student-distrib/syscall.c:125 | A 130-byte name makes the source's 32-bit count 0xFFFFFFFE, far beyond the buffer. |
| Syscalls.ArgsBufBytes | student-distrib/syscall.c:125 | Byte j of the local args buffer is command byte args_idx + j up to the first NUL after args_idx (at most 128 bytes in), and zero after. |
| Syscalls.ArgsAreTail | student-distrib/syscall.c:195-199 | cmd_args is empty when the name ends at NUL or at index >= 128. Otherwise it is the command after the single delimiting space, up to its NUL. |
| Syscalls.ArgsHaveNoNul | student-distrib/syscall.c:392-394 | cmd_args holds no NUL, so its first byte is NUL exactly when it is empty. |
| Syscalls.ElfCheck | student-distrib/syscall.c:138-141 | strncmp("ELF", b, 3) == 0 exactly when the three bytes read are 'E','L','F'. |
| Syscalls.FirstClear | student-distrib/syscall.c:144-149 | The first index in [i, hi) whose bit is clear, with every earlier index set; None when all are set. |
| Syscalls.LowestFree | student-distrib/syscall.c:144-149 | The new pid is the lowest pid in [0,8) whose bit is clear; None when all 8 are in use. |
| Syscalls.FindFreePid | student-distrib/syscall.c:144-154 | The pid search loop returns LowestFree. |
| Syscalls.RespawnReusesPid | student-distrib/syscall.c:57-59 | When every lower pid is in use, clearing a pid's bit makes that same pid the lowest free one again. |
| Syscalls.Program | student-distrib/syscall.c:128-141 | The program check accepts exactly when the name is found, the read of bytes 1..3 succeeds and those bytes are "ELF". |
| Syscalls.ExecCheck | student-distrib/syscall.c:128-185 | Classifies execute: no program, no free pid, a failing length/load/entry read, or a load with pid = LowestFree. |
| Syscalls.LoadedImage | student-distrib/syscall.c:162-185 | A load that passes its reads copies at most the file size, and exactly the file size when the name looks the entry up again. The entry point at bytes 24..27 lies inside the file. |
| Syscalls.ParseCommand | student-distrib/syscall.c:111-125 | The parsed name and arguments are ExeName and CmdArgs of the command. |
| Syscalls.CheckProgram | student-distrib/syscall.c:128-141 | Returns Program of the name. |
| Syscalls.LoadImage | student-distrib/syscall.c:162-185 | Succeeds exactly when the three reads succeed. Then the image is the file's first ImageLength bytes and the eip is bytes 24..27, little-endian. |
| Syscalls.Start | student-distrib/syscall.c:188-214 | The task state becomes Launch of the old state. |
| Syscalls.Run | student-distrib/syscall.c:159-220 | Loads or fails. A failure leaves the process state and the console untouched and rebinds the user window to currentPID with two flushes. On entry: the state is Launch, the window is bound to the new pid with one flush, and the active terminal mirrors esp0, PCB and pid. On both paths only directory entry 32 changes, and both page tables are kept. |
| Syscalls.Execute | student-distrib/syscall.c:91-237 | Enters the program exactly when ExecCheck says Load. Every other case leaves the process state and the console unchanged; a missing program or pid leaves the page tables untouched too, and a load failure rebinds the window to currentPID. On success: the state is Launch(old, LowestFree, CmdArgs), the active terminal mirrors it, the window is bound, and the eip and image come from the file. In every case only directory entry 32 can change, both page tables are kept, and the flush count is ExecFlushes of the plan. |
| Syscalls.ExecFlushes | student-distrib/syscall.c:153-184 | Execute flushes the TLB at most twice, and not at all exactly when it gives up before binding the window (no program, no free pid). |
| Syscalls.ShellHasNoArgs | student-distrib/syscall.c:59 | "shell" parses to the name "shell" with no arguments. |
| Syscalls.ExecuteThenHalt | student-distrib/syscall.c:188-214 | An execute that launches a pid >= 3, followed by its halt's restore, gives back activeProcesses, currentPID, current_PCB and esp0. |
| Syscalls.ExitValue | student-distrib/syscall.c:72-79 | The value handed to the parent is 256 exactly when exception_flag is set, and the status otherwise. |
| Syscalls.RespawnAsWritten | student-distrib/syscall.c:57-60 | The state after the source's base-shell respawn keeps the exception flag as it was. |
| Syscalls.StaleExceptionFlag | student-distrib/syscall.c:57-79 | After an exception in a base shell and its respawn as written, a normally exiting child of the new shell still reports 256 instead of its status. |
| Syscalls.RespawnState | student-distrib/syscall.c:57-60 | The corrected respawn: the new base shell runs as the current pid with the exception flag lowered. |
| Syscalls.RespawnedChildReportsStatus | student-distrib/syscall.c:72-79 | After the corrected respawn, a child that exits normally reports its own status. |
| Syscalls.Halt | student-distrib/syscall.c:50-83 | Respawns exactly when currentPID < 3 and a shell can be launched: the state is RespawnAsWritten (the exception flag kept), the window is bound with one flush and only directory entry 32 changes, the shell's eip and image are returned, the active terminal mirrors the new shell and the rest of the console is unchanged. Otherwise control returns to the parent's execute frame with ExitValue. The state is then Restore (after clearing the base-shell bit) with the flag lowered, the window is rebound, PDE 33 is the 4 KB user table entry present per vidmap_inuse, the video slot aims at the active terminal's screen, only entries 32, 33 and that slot change, the flushes are those of a failed respawn attempt plus two, and no image is returned; the active terminal mirrors the parent. On both paths the kernel page table, every other terminal record and every other console field (taIdx, tsIdx, vidPointer, screen and cursor coordinates, video memory, output) are unchanged. |
| Syscalls.Respawn | student-distrib/syscall.c:56-60 | Clears the base shell's bit and relaunches "shell". On success the state is RespawnAsWritten (the exception flag kept), the window is bound, the active terminal mirrors the new shell and the other console fields are unchanged; on failure the state has only that bit cleared and the console is unchanged, and a load failure rebinds the window to currentPID. Only directory entry 32 can change, both page tables are kept, and the flush count is ExecFlushes of the shell's plan. |
| Syscalls.ReturnToParent | student-distrib/syscall.c:62-79 | The state becomes Restore with the flag lowered. Control goes to the parent's frame with ExitValue. The window is rebound to the parent, PDE 33 is the 4 KB user table entry whose present bit follows its vidmap_inuse, and the video slot aims at the active terminal's screen; only entries 32, 33 and that slot change, the kernel page table is unchanged, and there are two flushes. Only the active terminal's record changes (it mirrors the parent); every other console field is unchanged. |
| Syscalls.OpenedDesc | student-distrib/syscall.c:318-332 | A new descriptor has position 0, flags 0, the entry's inode, and the RTC, directory or file table by file type. |
| Syscalls.OpenedDescOk | student-distrib/syscall.c:318-332 | Opening a well-formed entry yields a descriptor the dispatch tables can serve. |
| Syscalls.FindFreeFd | student-distrib/syscall.c:298-307 | The fd search returns the lowest clear fd in [2,8). |
| Syscalls.Open | student-distrib/syscall.c:292-344 | Returns -1 and changes nothing when no fd in [2,8) is free or the name is missing. Otherwise it returns that lowest free fd, sets exactly its bit and stores OpenedDesc there. For an RTC the active terminal's rate resets to 2 Hz. |
| Syscalls.RunOpen | student-distrib/syscall.c:335-337 | The type's open returns 0. For the RTC it resets the active terminal's frequency bit to 8; the others change nothing. |
| Syscalls.Close | student-distrib/syscall.c:352-381 | -1 with nothing changed for fd < 2, fd >= 8 or a clear bit. Otherwise 0, with exactly bit fd cleared and that descriptor zeroed. |
| Syscalls.ReadFileSlot | student-distrib/syscall.c:262 | Dispatch to file_read: returns min(nbytes, size - pos), or 0 at end of file, and advances the descriptor's position by that much. When the inode's block list is valid, the bytes read are the file's from that position on; at end of file or with a bad block number in the range, buf is unchanged. |
| Syscalls.ReadDirSlot | student-distrib/syscall.c:262 | Dispatch to directory_read: past the last entry returns 0 with nothing changed. Otherwise it copies the entry name clamped to 32 bytes and advances the position by one. |
| Syscalls.ReadSlot | student-distrib/syscall.c:262 | Per table: stdin copies the keyboard line through its newline whatever nbytes is (ReadCountAsWritten bytes), leaves the rest of buf, and zeroes that prefix of the active keyboard buffer; RTC returns 0, clears only the active terminal's flag and leaves buf; a file read returns the clamped count, copies the file's bytes from the offset when the blocks are sound, leaves buf past the count (all of it at end of file or on a bad block) and advances the offset; a directory read copies the entry's name (Strncpy) and moves to the next entry, or returns 0 with buf unchanged past the last one. The task is unchanged except for that offset, and the console fields other than the active record are unchanged. |
| Syscalls.Read | student-distrib/syscall.c:246-263 | -1 with nothing changed for fd < 0, fd == 1, fd >= 8 or a clear bit. Otherwise the call dispatches to the slot's table. |
| Syscalls.Write | student-distrib/syscall.c:271-284 | -1 with nothing changed for fd < 1, fd >= 8 or a clear bit. stdout echoes the non-NUL bytes among the first nbytes and returns 0. The RTC returns 0 exactly for a valid rate, and then changes only the active terminal's rate bit, leaving output. File and directory writes return -1. On every path the console's indices, vidPointer, screen and cursor coordinates and video memory are unchanged. |
| Syscalls.Getargs | student-distrib/syscall.c:390-399 | -1 exactly when the first byte of cmd_args is NUL (by ArgsHaveNoNul, when it is empty), and then buf is untouched. Otherwise it returns 0, buf[..nbytes] is strncpy(cmd_args, nbytes) and the rest of buf is kept. |
| Syscalls.Vidmap | student-distrib/syscall.c:407-424 | -1 with nothing changed unless the pointer lies in [0x08000000, 0x08400000). Otherwise it returns 0 and stores 0x08401000. vidmap_inuse becomes 1, and PDE 33 and the video slot are present, aimed at the active terminal's screen. No other directory entry, user page-table entry or kernel page-table entry changes, and the TLB is flushed once. |
| Syscalls.VidmapAddressIsVideoSlot | student-distrib/syscall.c:409-420 | 0x08401000 is VIRTUAL_VMEM_BASE_ADDR and lands in slot 1 of the user page table. The accepted window is [VIRTUAL_USER_BASE_ADDR, +4MB). |
| Syscalls.SetHandler | student-distrib/syscall.c:433-435 | Always -1. |
| Syscalls.Sigreturn | student-distrib/syscall.c:443-445 | Always -1. |
| Syscalls.LaunchKeepsFdsOk | student-distrib/syscall.c:191-194 | A launched PCB with only stdin and stdout open keeps every open descriptor servable. |
| Syscalls.RestoreKeepsFdsOk | student-distrib/process.c:26-30 | Restoring the parent keeps every open descriptor servable. |
| Syscalls.OpenCloseKeepFdsOk | student-distrib/syscall.c:315-377 | Setting a bit with an opened descriptor, or clearing one with a zeroed descriptor, keeps the PCB well formed. |
| FileSystem.FileByteInBlock | student-distrib/drivers/fsys.c:136-151 | Byte b*4096 + r of a file is byte r of its b-th data block, which lies inside the image. |
| FileSystem.FindName | student-distrib/drivers/fsys.c:58-63 | The first entry at or after i whose name matches within 32 bytes, with no earlier match; None when none matches. |
| FileSystem.ReadDentryByName | student-distrib/drivers/fsys.c:54-67 | Fails exactly when no entry matches. Otherwise it returns the first matching entry. |
| FileSystem.ReadDentryByIndex | student-distrib/drivers/fsys.c:77-86 | Fails exactly when index == 0 or index > num_dir_entries. Otherwise it returns entry index-1. |
| FileSystem.NameLookupHasIndex | student-distrib/drivers/fsys.c:54-86 | An entry found by name is also found by some index in [1, num_dir_entries]. |
| FileSystem.GetFileLength | student-distrib/drivers/fsys.c:187-209 | -1 unless the name exists, is a regular file and has an in-range inode; then the inode's file size. |
| FileSystem.GuardsAgreeWithoutWrap | student-distrib/drivers/fsys.c:110-133 | When offset + length fits in 32 bits, the source's guard and the corrected guard agree. |
| FileSystem.ReadDataGuardWraps | student-distrib/drivers/fsys.c:124-126 | Offset 1 and length 0xFFFFFFFF on a 10-byte file pass the source's guard, since the 32-bit sum wraps to 0, though the read runs past the end. |
| FileSystem.CopyFromBlock | student-distrib/drivers/fsys.c:149-153 | One block copy writes file bytes into buf[at..at+count) and nothing else. |
| FileSystem.CopyRange | student-distrib/drivers/fsys.c:136-176 | The block-by-block copy writes exactly file bytes [offset, offset+length) to buf[0..length) and keeps the rest of buf. |
| FileSystem.ReadData | student-distrib/drivers/fsys.c:97-184 | -1 with buf untouched for a bad inode, an offset at or past the size, a range past the end, or a bad index among the first 63 blocks. Otherwise buf[..length] is the file slice; it returns 0 at end of file and length otherwise. |
| FileSystem.FileRead | student-distrib/drivers/fsys.c:221-241 | Returns min(nbytes, size - pos), or 0 when pos >= size, and advances pos by exactly that, so pos never passes size. When the inode's block list is valid, the bytes copied are the file's from pos on. |
| FileSystem.DirectoryRead | student-distrib/drivers/fsys.c:290-309 | Returns 0 with nothing changed once pos >= num_dir_entries. Otherwise it copies entry pos's name clamped to 32 bytes, returns the clamped count and advances pos by 1. |
| FileSystem.FileWrite | student-distrib/drivers/fsys.c:252-254 | Always -1. |
| FileSystem.FileOpen | student-distrib/drivers/fsys.c:264-266 | Always 0. |
| FileSystem.FileClose | student-distrib/drivers/fsys.c:275-277 | Always 0. |
| FileSystem.DirectoryWrite | student-distrib/drivers/fsys.c:320-322 | Always -1. |
| FileSystem.DirectoryOpen | student-distrib/drivers/fsys.c:332-334 | Always 0. |
| FileSystem.DirectoryClose | student-distrib/drivers/fsys.c:344-346 | Always 0. |
| Rtc.RateOfBit | student-distrib/drivers/rtc.c:160-165 | Bit b stands for 2^(9-b) Hz, between 2 and 512. |
| Rtc.CarryFlips | student-distrib/drivers/rtc.c:107 | A power-of-two bit of the counter changes on increment exactly when counter+1 is a multiple of it. |
| Rtc.FlipsOnMultiples | student-distrib/drivers/rtc.c:105-110 | Bit rtc_freq_bit differs between counter and counter+1 exactly when counter+1 is a multiple of 2^bit. |
| Rtc.GuardAcceptsRates | student-distrib/drivers/rtc.c:156-158 | The guard accepts exactly the powers of two in [2, 512]. |
| Rtc.HalveRate | student-distrib/drivers/rtc.c:162-165 | One shift of the loop moves from bit j to bit j+1. |
| Rtc.FreqBit | student-distrib/drivers/rtc.c:160-165 | The shift loop ends with the bit b such that freq == 2^(9-b). |
| Rtc.RtcWrite | student-distrib/drivers/rtc.c:151-171 | 0 exactly for a valid rate, and then only the active terminal's rtc_freq_bit changes, to the bit for that rate. Otherwise -1 with no change. |
| Rtc.RtcOpen | student-distrib/drivers/rtc.c:179-184 | Resets only the active terminal's bit to 8 (2 Hz) and returns 0. |
| Rtc.RtcClose | student-distrib/drivers/rtc.c:192-194 | Always 0. |
| Rtc.RtcRead | student-distrib/drivers/rtc.c:130-139 | Clears only the active terminal's flag and returns 0. |
| Rtc.Ticked | student-distrib/drivers/rtc.c:105-110 | A terminal's flag is set after a tick exactly when it was set already or (counter+1) is a multiple of 2^rtc_freq_bit; nothing else in the record changes. |
| Rtc.RtcClock.Tick | student-distrib/drivers/rtc.c:95-120 | Every terminal record becomes Ticked and the 32-bit counter increases by 1. |
| Terminal.MirrorThenResume | student-distrib/drivers/terminal.c:102-132 | Storing the running context into a record and loading it back gives the same context: switching a to b to a restores a's esp0, PCB and pid. |
| Terminal.ShowSwap | student-distrib/drivers/terminal.c:76-82 | The screen is saved into shadow page TS_idx+1 and shadow page next+1 is loaded into the screen; no other shadow page changes. |
| Terminal.ShowSwapBack | student-distrib/drivers/terminal.c:76-82 | Showing b and then a again restores every page, except that a's shadow holds the screen as it was. |
| Terminal.DropLast | student-distrib/drivers/terminal.c:152-159 | With a nonzero index the index drops by one and that slot is zeroed; with index 0 the record is unchanged. |
| Terminal.EraseWidth | student-distrib/drivers/terminal.c:162-170 | Backspace moves back 4 cells for a tab, 1 for any other byte and 0 for an empty line. |
| Terminal.StepBackLinear | student-distrib/drivers/terminal.c:174-187 | The cursor walk is subtraction on the cell number y*80 + x, wrapping from column 0 to column 79 of the previous row; it stops without moving when it would pass (0,0). |
| Terminal.WalkBack | student-distrib/drivers/terminal.c:174-187 | The loop computes StepBack. |
| Terminal.LineEnd | student-distrib/drivers/terminal.c:212-219 | The copy stops just past the first newline, or at the end of the 128-byte buffer. |
| Terminal.ReadCount | student-distrib/drivers/terminal.c:212-220 | The corrected count: at most nbytes, at most the line, and the whole line when nbytes allows. |
| Terminal.ReadIgnoresCount | student-distrib/drivers/terminal.c:212-220 | A one-byte read of the line "ab\n" copies 3 bytes as written and 1 when the count is respected. |
| Terminal.NonNul | student-distrib/drivers/terminal.c:232-236 | The emitted bytes hold no NUL, and a NUL-free input is emitted whole. |
| Terminal.TerminalOpen | student-distrib/drivers/terminal.c:246-248 | Always 0. |
| Terminal.TerminalClose | student-distrib/drivers/terminal.c:256-258 | Always 0. |
| Terminal.CopyLine | student-distrib/drivers/terminal.c:212-220 | The copy loop as written moves the line through its first newline (LineEnd bytes, all 128 without one) into buf, keeps the rest of buf and zeroes exactly the copied slots. |
| Terminal.CopyLineCounted | student-distrib/drivers/terminal.c:212-220 | The corrected copy loop moves ReadCount bytes (at most nbytes) of the line into buf, keeps the rest of buf and zeroes exactly the copied slots. |
| Terminal.Console.InitTerminals | student-distrib/drivers/terminal.c:37-63 | Terminal i starts with esp0 0x800000 - i*8KB, pid i, PCB 0x800000 - (i+1)*8KB, an empty line, newline 0 and rtc bit 8. TA_idx = TS_idx = 0. |
| Terminal.Console.SetShownTerminal | student-distrib/drivers/terminal.c:70-87 | The outgoing shown record saves the screen position as its cursor, and the pages are swapped as in ShowSwap. TS_idx = next, and the cursor and screen coordinates come from the incoming record. |
| Terminal.Console.SwitchActive | student-distrib/drivers/terminal.c:100-132 | The outgoing record stores esp0, PCB, pid and cursor, and TA_idx = next. The print target is shadow page next+1 unless next is shown. The screen coordinates come from the incoming record, and the hardware cursor moves only when next is shown. |
| Terminal.Console.SetActiveTerminal | student-distrib/drivers/terminal.c:100-135 | SwitchActive, then the context is loaded from the incoming record (Resume) and the user window is rebound to its pid. |
| Terminal.Console.SaveContext | student-distrib/syscall.c:216-220 | The active terminal record mirrors esp0, PCB and pid; nothing else changes. |
| Terminal.Console.SetIdx | student-distrib/drivers/keyboard.c:32-35 | The active terminal's keyboard_idx becomes v and its newline flag is cleared; nothing else changes. |
| Terminal.Console.Backspace | student-distrib/drivers/terminal.c:143-196 | The line loses its last byte (DropLast). If the walk back stops at (0,0), nothing is drawn. Otherwise a blank is drawn at the new position and the screen and hardware cursor move there. |
| Terminal.Console.TerminalRead | student-distrib/drivers/terminal.c:204-221 | Returns ReadCountAsWritten: the active line through its newline is copied into buf whatever nbytes is, the rest of buf is kept, and exactly the copied slots of the line are zeroed; nothing else changes. |
| Terminal.Console.TerminalWrite | student-distrib/drivers/terminal.c:229-238 | Emits the non-NUL bytes among the first nbytes, in order, to the print target, and returns 0. |
| Keyboard.TablesAgree | student-distrib/drivers/keyboard.c:7-24 | In the two tables a letter's shifted byte is its upper case, and a scancode has a byte in one table exactly when it has one in the other. |
| Keyboard.Modifiers | student-distrib/drivers/keyboard.c:60-83 | A scancode that is not a modifier key leaves shiftcaps unchanged. |
| Keyboard.CapsShiftBits | student-distrib/drivers/keyboard.c:60-68 | 0x3A toggles caps; 0x2A/0x36 set and 0xAA/0xB6 clear shift; other bits are kept. |
| Keyboard.CtrlAltBits | student-distrib/drivers/keyboard.c:69-83 | 0x1D/0x9D set/clear ctrl, 0x38/0xB8 set/clear alt; other bits are kept. |
| Keyboard.KeyCode | student-distrib/drivers/keyboard.c:59-117 | Modifiers, backspace and scancodes >= 0x3E give keycode 0. With alt held the old keycode stays. Ctrl+L gives 0. A letter uses the shifted table iff shift XOR caps, any other key iff shift. |
| Keyboard.LetterCase | student-distrib/drivers/keyboard.c:93-108 | A typed letter comes out upper case exactly when shift XOR caps. |
| Keyboard.AltKeepsKeycodeClear | student-distrib/drivers/keyboard.c:78-90 | Since pressing alt clears keycode, nothing is typed while alt is held. |
| Keyboard.Typed | student-distrib/drivers/keyboard.c:120-137 | Below index 127 the keycode is stored and the index advances. At 127 only a newline or a raised flag stores '\n' in slot 127. The flag is raised by a newline and never lowered. |
| Keyboard.Cleared | student-distrib/drivers/keyboard.c:94-102 | Ctrl+L zeroes all 128 bytes and the index; the newline flag is kept. |
| Keyboard.TypeText | student-distrib/drivers/keyboard.c:129-136 | Typing fewer than 128 newline-free bytes on an empty line leaves exactly those bytes at its start, the index at their count and the line incomplete. |
| Keyboard.TypeThenRead | student-distrib/drivers/keyboard.c:120-137 | Typing a text and Enter completes the line; terminal_read then returns the text and the newline, and so does a count-respecting read of at least its length. |
| Keyboard.EnterEndsLine | student-distrib/drivers/keyboard.c:131-136 | A newline stored just after newline-free text ends the line there. |
| Keyboard.Focus | student-distrib/drivers/keyboard.c:48-54 | The active terminal's record saves the screen position as its cursor. Printing targets the screen, and the coordinates come from the shown terminal. |
| Keyboard.Unfocus | student-distrib/drivers/keyboard.c:141-150 | The shown terminal's record saves the screen position as its cursor. The print target returns to the active terminal's page, and the coordinates come from the active terminal. |
| Keyboard.ClearShown | student-distrib/drivers/keyboard.c:94-102 | The shown line is Cleared, the screen is cleared and the cursor goes to (0,0). |
| Keyboard.TypeKey | student-distrib/drivers/keyboard.c:120-137 | The shown line becomes Typed. The key is echoed unless the line is full (index 127), the key is not a newline and the line is not already complete. |
| Keyboard.ActionsDoNotType | student-distrib/drivers/keyboard.c:60-90 | While alt-held keycodes are kept clear, a scancode that erases (backspace), switches (alt+F1..F3) or clears (ctrl+L) leaves keycode 0, so it types nothing. |
| Keyboard.ActionMatchesKey | student-distrib/drivers/keyboard.c:60-137 | Splitting a scancode into an action and a keycode gives the key's effect on the shown line and the screen. |
| Keyboard.EraseEcho | student-distrib/drivers/terminal.c:172-193 | Backspace puts at most one blank on the screen, and always one on an empty line (which erases no cells). |
| Keyboard.Perform | student-distrib/drivers/keyboard.c:75-137 | Each action (show, erase, clear, type) has that effect on TS_idx, the pages, the lines and the output; backspace's output is EraseEcho. |
| Keyboard.HandlerLines | student-distrib/drivers/keyboard.c:44-157 | Saving and restoring the cursors around the key does not change its effect on the lines. |
| Keyboard.KeyboardState.Dispatch | student-distrib/drivers/keyboard.c:56-139 | shiftcaps and keycode become Modifiers and KeyCode. Alt+F1..F3 shows that terminal and swaps the pages. Otherwise the shown line gets the key's effect, echoed to the screen; backspace emits EraseEcho from the current coordinates. |
| Keyboard.KeyboardState.Handle | student-distrib/drivers/keyboard.c:44-157 | The same, bracketed by the print-target switch: the pages swap on alt+F1..F3, backspace emits EraseEcho from the shown terminal's coordinates, and afterwards the print target is the active terminal's page, with the active terminal's coordinates. |
| Scheduler.Schedule | student-distrib/drivers/pit.c:51-62 | The counter goes up by one until it reaches 3. A bootstrap tick whose shell starts makes pit_counter the active terminal, and a later tick always changes the active terminal. |
| Scheduler.CounterSaturates | student-distrib/drivers/pit.c:51-55 | After n ticks pit_counter is min(n, 3). |
| Scheduler.RoundRobin | student-distrib/drivers/pit.c:51-62 | With bootstrap shells that start, TA_idx after tick n (0-based) is n mod 3. |
| Scheduler.Pit.Rotate | student-distrib/drivers/pit.c:62-68 | TA_idx becomes (TA_idx+1) mod 3 and TS_idx is kept. The outgoing terminal's record is SwitchedOut (it mirrors the running process and keeps the screen coordinates), no other record and no saved frame changes, the context comes from the new record, and control goes to its saved_ebp. Printing then goes to the new active terminal (vidPointer, screen coordinates, and the cursor when it is shown); the cursor is otherwise kept, and video memory and output are unchanged. The window and video page follow the new process: only entries 32, 33 and the video slot change, with two flushes. |
| Scheduler.Pit.FallThrough | student-distrib/drivers/pit.c:62-68 | When the running context and screen coordinates already equal the active terminal's record, rotating changes no record at all; the rest is as for Rotate. |
| Scheduler.Pit.Bootstrap | student-distrib/drivers/pit.c:51-59 | TA_idx = pit_counter, the counter is incremented, and the outgoing record is SwitchedOut. A shell is entered exactly when ExecCheck says Load; then the new active record mirrors it, and otherwise the state is resumed from that record and the records are SwitchedOut's. Printing goes to the new active terminal, video memory and output are kept, only entry 32 changes, and there are 1 + ExecFlushes flushes. |
| Scheduler.Pit.LaunchShell | student-distrib/drivers/pit.c:58 | Executes "shell" without touching any console field other than the records or any saved frame. On Load the state is Launch and the active record mirrors it; otherwise state and records are kept. Only entry 32 changes, with ExecFlushes flushes. |
| Scheduler.Pit.BootTick | student-distrib/drivers/pit.c:51-68 | A bootstrap tick enters the new shell exactly when it can be launched (the records are then SwitchedOut with the new active one mirroring the shell, entry 32 changes, two flushes), and otherwise rotates (records SwitchedOut, entries 32, 33 and the video slot change, 3 + ExecFlushes flushes). TS_idx, video memory and output are kept, printing goes to the active terminal, and the cursor moves only onto a shown terminal's record. |
| Scheduler.Pit.Advance | student-distrib/drivers/pit.c:51-72 | After the outgoing frame is saved: pit_counter and TA_idx follow Schedule, the shell is entered exactly when the counter was below 3 and it can be launched, and otherwise control resumes at the new active terminal's frame; every saved frame is kept. The records follow SwitchedOut (plus the shell's mirror on entry), printing goes to the active terminal, video memory and output are kept, and the page-table frames and flush counts are as for BootTick or Rotate. |
| Scheduler.Pit.Tick | student-distrib/drivers/pit.c:42-72 | The outgoing terminal's saved_ebp is recorded, and pit_counter and TA_idx follow Schedule. The shell is entered exactly when the counter was below 3 and it can be launched. Otherwise control resumes at the new active terminal's frame, in its context. The records are those of SwitchedOut after the save (plus the shell's mirror on entry), TS_idx, video memory and output are kept, printing goes to the active terminal, and only entries 32, 33 and the video slot change, with the flushes of the path taken. |
| Interrupts.IdtLayout | student-distrib/intr.c:20-52 | Vectors 0x00..0x13, 0x20, 0x21, 0x28 and 0x80 are present with selector KERNEL_CS and their wrapper. Vectors 2, 0x20, 0x21 and 0x28 are interrupt gates and all others trap gates. DPL is 3 for 0x0F, 0x80 and the unused vectors, 0 otherwise; unused vectors are non-present with offset 0. |
| Interrupts.PopulateIdt | student-distrib/intr.c:16-56 | Every one of the 256 entries is IdtAt(v) and exception_flag is 0; nothing else changes. |
| Interrupts.InstallGates00To04 | student-distrib/intr.c:25-29 | Vectors 0..4 get their gates; the other entries are kept. |
| Interrupts.InstallGates05To09 | student-distrib/intr.c:30-34 | Vectors 5..9 get their gates; the other entries are kept. |
| Interrupts.InstallGates0ATo0E | student-distrib/intr.c:35-39 | Vectors 0x0A..0x0E get their gates; the other entries are kept. |
| Interrupts.InstallGates0FTo13 | student-distrib/intr.c:40-44 | Vectors 0x0F..0x13 get their gates; the other entries are kept. |
| Interrupts.InstallDeviceGates | student-distrib/intr.c:47-52 | The PIT, keyboard, RTC and system-call gates are installed; the other entries are kept. |
| Interrupts.HandleException | student-distrib/intr.c:64-339 | Freezes exactly for vectors 2, 8..13 and 16..19, changing nothing. Vectors 0, 1, 3..7, 14 and 15 set exception_flag and halt: the parent then receives 256 and the flag is lowered, or a base shell is respawned as RespawnAsWritten, with the flag still raised; it respawns exactly when the pid is below 3 and a shell can be launched. As for halt, the window is bound, the respawned shell's eip and image are returned (none on return to the parent, where PDE 33 is the vidmap entry and the video slot aims at the active screen), only directory entries 32 (respawn) or 32, 33 and the video slot (return) change with one, respectively failed-respawn-plus-two, flushes, the kernel table is kept, the active terminal mirrors the new running process and every other console field is unchanged. |

## Left out

- Assembly transfers (`execute_asm`, `halt_asm`, `swtch_ctx`) and the
  `register ... asm("ebp")` captures: the target is the returned outcome and
  the frame is a parameter.
- `flush_tlb`, `enable_paging`, `set_paging_regs`: only a flush counter
  is kept.
- `drivers/i8259.c`, `init_PIT`, `init_RTC`, `NMI_enable`/`NMI_disable`,
  `init_Keyboard`, `send_eoi` and `inb`/`outb`: device port I/O. The
  scancode and the requested frequency are parameters. The EOI at
  `drivers/pit.c:44` is not modelled.
- `cli`/`sti` and interrupt concurrency: each operation is atomic.
- The busy-waits in `rtc_read` and `terminal_read`, and the `while(1)` of the
  freezing exception handlers (the `Frozen` outcome).
- lib.h/lib.c is not part of this model. `strncpy` and `strncmp` follow the
  C library's definition (module `CStrings`). `putc`, `printf` and `clear`
  become `Emit` events. `getX`/`getY`/`editScreenCoords` are the console's
  screen coordinates and `update_cursor` its hardware cursor; how `putc`
  advances the coordinates is not modelled. The diagnostic `printf`
  messages of execute and the exception handlers are not emitted.
- `tss.ss0 = KERNEL_DS` (`syscall.c:211`): it writes a constant the model
  does not track.
- `asm_wrapper.h`, the declaration-only headers and `tests.c`.
- The exception wrapper addresses: a table of 256 values given to
  PopulateIdt.
- Syscalls.Execute: the image is returned as a sequence, not written to
  virtual 0x8048000. Its length comes from `get_file_length` on the
  dentry's name; `ImageLength` repeats that lookup, and LoadedImage shows it
  is the file size whenever the lookup finds the same entry.
- Syscalls.Read: its own contract only states the guard and that a valid fd
  names one of the four tables. The effect of each table is the contract of
  Syscalls.ReadSlot, which Read calls.
- Syscalls.Read: requires 0 <= nbytes <= buf.Length. The source trusts the
  user buffer and passes any nbytes on; a negative count is not modelled.
- Syscalls.Getargs: requires 0 <= nbytes <= buf.Length, for the same reason.
- Syscalls.Write: requires a 4-byte buffer for an RTC write, since
  `rtc_write` dereferences it as a 32-bit integer.
- Syscalls.Write: requires 0 <= nbytes <= |buf| only when the fd is stdout.
  `terminal_write` compares its unsigned index with `nbytes`, so a negative
  count would read past the buffer; that overrun is not modelled. The RTC,
  file and directory tables ignore nbytes, so any count is accepted there.
- Syscalls.Open: the "type's open fails" path is not modelled, because every
  open callback in this kernel returns 0 (Syscalls.RunOpen). Entries whose
  type is above 2, which leave a stale table pointer in the source, are
  excluded by the disk-image invariant.
- Syscalls.Close: the "close callback fails" path is not modelled, because
  every close callback returns 0.
- Terminal.Console.TerminalRead: models the copy once the line is complete.
  The `setIdx(0)` at entry is Terminal.Console.SetIdx, and the wait for the
  newline flag is left out. It copies the line whatever `nbytes` is, as
  the source does, and requires `buf` to hold the line (LineEnd bytes):
  the source writes past a shorter user buffer, which is not modelled.
  Syscalls.ReadSlot and Syscalls.Read carry the same requirement for stdin.
- Keyboard.KeyboardState.Handle: relates the terminal lines to the key's
  effect up to the saved cursor fields. Those are read back from the
  screen position after `printf`, which is not modelled.
- Scheduler.Pit.Tick: after a bootstrap tick whose shell cannot start, the
  tick falls through to the rotation, as the source does. `RoundRobin` is
  stated for bootstrap shells that start.
- FileSystem.DiskOk: the disk-image invariant excludes a regular-file
  entry whose inode number is at or above num_inodes, so the inode-range
  branches of read_data and get_file_length cannot be reached through a
  directory entry.
- FileSystem.DiskOk: it also requires every block a file's bytes occupy
  to lie inside the image, while read_data checks only the first 63 block
  slots; a file whose later blocks point outside the image is not modelled.
- Syscalls.ArgsBuf: the local `args` array of execute starts as zeros. In
  the source it is uninitialised, so when the tail of a command fills all
  128 - args_idx bytes without a NUL, the copy into cmd_args reads past the
  copied bytes; Syscalls.CmdArgs instead yields the 127 copied bytes.
- Bitmasks (`activeProcesses`, `open_files`) are sets of bit positions.
  Positions, offsets and counts are unbounded naturals, except where 32-bit
  wrap-around matters (the Findings, and the RTC counter, a `bv32`).

## Findings

| source | as written | input that shows it | evidently intended | confidence | as-written member | corrected member |
|---|---|---|---|---|---|---|
| student-distrib/drivers/fsys.c:124-126 | `offset + length > file_size` is computed in 32 bits and can wrap. | inode with a 10-byte file, offset 1, length 0xFFFFFFFF: the sum wraps to 0, so the guard passes and the copy runs far past the file. | Reject any range whose mathematical end is past the file size. The corrected guard ReadDataRejects agrees with the source whenever the sum does not wrap (GuardsAgreeWithoutWrap), and ReadData uses it. | not executed | FileSystem.ReadDataGuardWraps | FileSystem.ReadData |
| student-distrib/syscall.c:125 | `128 - args_idx` is an unsigned count; a name longer than 128 bytes makes it wrap. | A command of 130 non-space bytes: args_idx = 130 and strncpy is asked for 0xFFFFFFFE bytes into the 128-byte `args`. | Copy nothing once args_idx reaches 128; the corrected count equals the source's otherwise (ArgCopyCountCorrected). | not executed | Syscalls.ArgCopyCountWraps | Syscalls.ArgCopyCount |
| student-distrib/drivers/terminal.c:212-219 | The copy loop ignores `nbytes` and copies up to 128 bytes. | A 1-byte read of the line "ab\n" writes 3 bytes into the caller's buffer. | Copy at most `nbytes` bytes of the line. Console.TerminalRead and CopyLine copy as written (ReadCountAsWritten, and ReadIgnoresCount exhibits the difference); CopyLineCounted is the corrected copy, proved against ReadCount. | not executed | Terminal.CopyLine | Terminal.CopyLineCounted |
| student-distrib/syscall.c:57-60 | A base shell that halts after an exception is respawned by `execute`, which never returns. `exception_flag` is therefore never cleared (it is cleared only at lines 72-73). | An exception in base shell 0, then the new shell runs a program that calls halt(0): the shell's execute receives 256 instead of 0. | Lower `exception_flag` when the base shell is respawned. Halt, Respawn and HandleException follow the code (RespawnAsWritten, and StaleExceptionFlag exhibits the stale status); RespawnState is the corrected state, and RespawnedChildReportsStatus proves a child then reports its own status. | not executed | Syscalls.StaleExceptionFlag | Syscalls.RespawnedChildReportsStatus |
