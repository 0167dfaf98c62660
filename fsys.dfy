/** The read-only file system: a boot block of directory entries, an array
    of inodes and an array of 4 KB data blocks, all held in an immutable
    disk image.  Lookups are functions over the image; the reads that fill
    a caller's buffer and advance a descriptor's position are methods. */
module FileSystem {
  import opened CStrings

  const DENTRY_SIZE: nat := 64
  const DISK_BLOCK_SIZE: nat := 4096
  const RTC_FILE_TYPE: nat := 0
  const DIRECTORY_FILE_TYPE: nat := 1
  const REGULAR_FILE_TYPE: nat := 2
  /** Bytes of a file name; names of exactly this length carry no NUL. */
  const NAME_LEN: nat := 32
  /** The boot block holds the counts plus at most 63 directory entries. */
  const MAX_DENTRIES: nat := 63
  /** Block-index slots in one inode. */
  const INODE_BLOCKS: nat := 1023
  /** How many leading block indices read_data validates. */
  const CHECKED_BLOCKS: nat := 63
  const U32: nat := 0x1_0000_0000

  datatype Dentry = Dentry(fileName: seq<bv8>, fileType: nat, inodeIdx: nat)
  datatype Inode = Inode(fileSize: nat, blockIdx: seq<nat>)
  /** `numInodes`/`numDblocks` are the boot block's counts; the number of
      directory entries is |entries|. */
  datatype Disk = Disk(numInodes: nat, numDblocks: nat, entries: seq<Dentry>,
                       inodes: seq<Inode>, dblocks: seq<seq<bv8>>)

  /** The operations table a file descriptor points at. */
  datatype Ops = NoOps | StdinOps | StdoutOps | RtcOps | DirOps | FileOps

  /** One slot of a process's file-descriptor array. */
  datatype FileDesc = FileDesc(ops: Ops, inodeNum: nat, filePos: nat, flags: nat)

  /** A zeroed descriptor slot. */
  const EmptyDesc: FileDesc := FileDesc(NoOps, 0, 0, 0)

  /** An inode of a well-formed image: 1023 block slots, a size that fits
      them, and every block the file's bytes occupy inside the image. */
  predicate InodeOk(d: Disk, ino: Inode) {
    |ino.blockIdx| == INODE_BLOCKS && ino.fileSize <= INODE_BLOCKS * DISK_BLOCK_SIZE &&
    forall b :: 0 <= b < INODE_BLOCKS && b * DISK_BLOCK_SIZE < ino.fileSize ==>
      ino.blockIdx[b] < d.numDblocks
  }

  /** A directory entry of a well-formed image: a full-width name, and an
      inode inside the image for a regular file. */
  predicate EntryOk(d: Disk, e: Dentry) {
    |e.fileName| == NAME_LEN && e.fileType <= REGULAR_FILE_TYPE &&
    (e.fileType == REGULAR_FILE_TYPE ==> e.inodeIdx < d.numInodes)
  }

  /** A well-formed disk image. */
  predicate DiskOk(d: Disk) {
    |d.entries| <= MAX_DENTRIES && |d.inodes| == d.numInodes && |d.dblocks| == d.numDblocks &&
    (forall i :: 0 <= i < |d.entries| ==> EntryOk(d, d.entries[i])) &&
    (forall i :: 0 <= i < |d.inodes| ==> InodeOk(d, d.inodes[i])) &&
    (forall i :: 0 <= i < |d.dblocks| ==> |d.dblocks[i]| == DISK_BLOCK_SIZE)
  }

  /** Byte `p` of file `n`: its data blocks concatenated in inode order. */
  function FileByte(d: Disk, n: nat, p: nat): bv8
    requires DiskOk(d) && n < |d.inodes| && p < d.inodes[n].fileSize
  {
    var ino := d.inodes[n];
    var b := p / DISK_BLOCK_SIZE;
    d.dblocks[ino.blockIdx[b]][p % DISK_BLOCK_SIZE]
  }

  /** The whole contents of file `n`. */
  function FileData(d: Disk, n: nat): (s: seq<bv8>)
    requires DiskOk(d) && n < |d.inodes|
    ensures |s| == d.inodes[n].fileSize
    ensures forall p :: 0 <= p < |s| ==> s[p] == FileByte(d, n, p)
  {
    seq(d.inodes[n].fileSize, p requires 0 <= p < d.inodes[n].fileSize => FileByte(d, n, p))
  }

  /** Byte `r` of block `b` of a file is file byte b * 4 KB + r. */
  lemma FileByteInBlock(d: Disk, n: nat, b: nat, r: nat)
    requires DiskOk(d) && n < |d.inodes| && r < DISK_BLOCK_SIZE
    requires b * DISK_BLOCK_SIZE + r < d.inodes[n].fileSize
    ensures b < INODE_BLOCKS == |d.inodes[n].blockIdx| && d.inodes[n].blockIdx[b] < |d.dblocks|
    ensures |d.dblocks[d.inodes[n].blockIdx[b]]| == DISK_BLOCK_SIZE
    ensures FileByte(d, n, b * DISK_BLOCK_SIZE + r) == d.dblocks[d.inodes[n].blockIdx[b]][r]
  {
    assert (b * DISK_BLOCK_SIZE + r) / DISK_BLOCK_SIZE == b;
    assert (b * DISK_BLOCK_SIZE + r) % DISK_BLOCK_SIZE == r;
  }

  // ---------------------------------------------------------------------
  // Directory lookups
  // ---------------------------------------------------------------------

  /** Do two names agree the way strncmp(.., .., 32) == 0 says? */
  predicate NameMatches(e: Dentry, fname: seq<bv8>) {
    StrnEq(e.fileName, fname, NAME_LEN)
  }

  /** The first entry at or after `i` whose name matches `fname`. */
  function FindName(entries: seq<Dentry>, fname: seq<bv8>, i: nat): (r: Option<nat>)
    requires i <= |entries|
    ensures r.Some? ==> i <= r.value < |entries| && NameMatches(entries[r.value], fname)
    ensures r.Some? ==> forall j :: i <= j < r.value ==> !NameMatches(entries[j], fname)
    ensures r.None? ==> forall j :: i <= j < |entries| ==> !NameMatches(entries[j], fname)
    decreases |entries| - i
  {
    if i == |entries| then None
    else if NameMatches(entries[i], fname) then Some(i)
    else FindName(entries, fname, i + 1)
  }

  /** read_dentry_by_name: the first of the directory's entries whose name
      equals `fname` within 32 bytes, or None (the -1 return). */
  function ReadDentryByName(d: Disk, fname: seq<bv8>): (r: Option<Dentry>)
    ensures r.None? <==> forall j :: 0 <= j < |d.entries| ==> !NameMatches(d.entries[j], fname)
    ensures r.Some? ==> exists j :: (0 <= j < |d.entries| && r.value == d.entries[j] &&
      NameMatches(d.entries[j], fname) &&
      forall k :: 0 <= k < j ==> !NameMatches(d.entries[k], fname))
  {
    match FindName(d.entries, fname, 0)
    case None => None
    case Some(j) => Some(d.entries[j])
  }

  /** read_dentry_by_index: directory index `index` counts from 1 (0 is the
      boot entry itself); out-of-range indices give None (the -1 return). */
  function ReadDentryByIndex(d: Disk, index: nat): (r: Option<Dentry>)
    ensures r.None? <==> index == 0 || index > |d.entries|
    ensures r.Some? ==> r.value == d.entries[index - 1]
  {
    if index == 0 || index > |d.entries| then None else Some(d.entries[index - 1])
  }

  /** Every entry found by name is also reachable by index, at the position
      that follows every earlier non-matching entry. */
  lemma NameLookupHasIndex(d: Disk, fname: seq<bv8>)
    requires ReadDentryByName(d, fname).Some?
    ensures exists index :: (1 <= index <= |d.entries| &&
      ReadDentryByIndex(d, index) == ReadDentryByName(d, fname) &&
      NameMatches(d.entries[index - 1], fname))
  {
    var j := FindName(d.entries, fname, 0).value;
    assert ReadDentryByIndex(d, j + 1) == ReadDentryByName(d, fname);
  }

  /** get_file_length: the size of the regular file named `fname`, or -1
      when it is missing, not a regular file, or its inode is out of range. */
  function GetFileLength(d: Disk, fname: seq<bv8>): (r: int)
    requires |d.inodes| == d.numInodes
    ensures r == -1 || r >= 0
    ensures r >= 0 <==> (ReadDentryByName(d, fname).Some? &&
      ReadDentryByName(d, fname).value.fileType == REGULAR_FILE_TYPE &&
      ReadDentryByName(d, fname).value.inodeIdx < d.numInodes)
    ensures r >= 0 ==> r == d.inodes[ReadDentryByName(d, fname).value.inodeIdx].fileSize
  {
    match ReadDentryByName(d, fname)
    case None => -1
    case Some(e) =>
      if e.fileType != REGULAR_FILE_TYPE then -1
      else if e.inodeIdx >= d.numInodes then -1
      else d.inodes[e.inodeIdx].fileSize
  }

  // ---------------------------------------------------------------------
  // read_data
  // ---------------------------------------------------------------------

  /** One of the inode's first 63 block indices lies outside the image. */
  predicate BadBlockPrefix(d: Disk, ino: Inode)
    requires |ino.blockIdx| >= CHECKED_BLOCKS
  {
    exists i :: 0 <= i < CHECKED_BLOCKS && ino.blockIdx[i] >= d.numDblocks
  }

  /** The cases in which read_data returns -1 without touching the buffer,
      with the end of the range computed without wrap-around. */
  predicate ReadDataRejects(d: Disk, inode: nat, offset: nat, length: nat)
    requires DiskOk(d)
  {
    inode >= d.numInodes ||
    (offset >= d.inodes[inode].fileSize ||
     offset + length > d.inodes[inode].fileSize ||
     BadBlockPrefix(d, d.inodes[inode]))
  }

  /** The same guard as written, where `offset + length` is a uint32 sum. */
  predicate ReadDataRejectsAsWritten(d: Disk, inode: nat, offset: nat, length: nat)
    requires DiskOk(d) && offset < U32 && length < U32
  {
    inode >= d.numInodes ||
    (offset >= d.inodes[inode].fileSize ||
     (offset + length) % U32 > d.inodes[inode].fileSize ||
     BadBlockPrefix(d, d.inodes[inode]))
  }

  /** Without wrap-around the two guards agree. */
  lemma GuardsAgreeWithoutWrap(d: Disk, inode: nat, offset: nat, length: nat)
    requires DiskOk(d) && offset + length < U32
    ensures ReadDataRejectsAsWritten(d, inode, offset, length) ==
            ReadDataRejects(d, inode, offset, length)
  {
  }

  /** A one-file image: a 10-byte file in block 0. */
  function TenByteDisk(): (d: Disk)
    ensures DiskOk(d) && |d.inodes| == 1 && d.inodes[0].fileSize == 10
  {
    var d := Disk(1, 1, [], [Inode(10, seq(INODE_BLOCKS, _ => 0))], [seq(DISK_BLOCK_SIZE, _ => 0)]);
    d
  }

  /** The guard as written lets through a range that ends 4 GB past a
      10-byte file: 1 + 0xFFFFFFFF wraps to 0. */
  lemma ReadDataGuardWraps()
    ensures !ReadDataRejectsAsWritten(TenByteDisk(), 0, 1, 0xFFFF_FFFF)
    ensures 1 + 0xFFFF_FFFF > TenByteDisk().inodes[0].fileSize
    ensures ReadDataRejects(TenByteDisk(), 0, 1, 0xFFFF_FFFF)
  {
    var d := TenByteDisk();
    assert !BadBlockPrefix(d, d.inodes[0]);
  }

  /** memcpy of `count` bytes of block `b` of file `n`, starting at byte
      `from` of the block, into buf[at..]. */
  method CopyFromBlock(d: Disk, n: nat, b: nat, from: nat, buf: array<bv8>, at: nat, count: nat)
    requires DiskOk(d) && n < |d.inodes|
    requires from + count <= DISK_BLOCK_SIZE && at + count <= buf.Length
    requires b * DISK_BLOCK_SIZE + from + count <= d.inodes[n].fileSize
    modifies buf
    ensures forall k :: 0 <= k < buf.Length && !(at <= k < at + count) ==> buf[k] == old(buf[k])
    ensures forall k :: at <= k < at + count ==>
      buf[k] == FileByte(d, n, b * DISK_BLOCK_SIZE + from + (k - at))
  {
    var k := 0;
    while k < count
      invariant 0 <= k <= count
      invariant forall j :: 0 <= j < buf.Length && !(at <= j < at + k) ==> buf[j] == old(buf[j])
      invariant forall j :: at <= j < at + k ==>
        buf[j] == FileByte(d, n, b * DISK_BLOCK_SIZE + from + (j - at))
    {
      FileByteInBlock(d, n, b, from + k);
      buf[at + k] := d.dblocks[d.inodes[n].blockIdx[b]][from + k];
      k := k + 1;
    }
  }

  /** The copy phase of read_data: the first block from the starting byte,
      whole blocks in between, and the head of the last block. */
  method CopyRange(d: Disk, n: nat, offset: nat, buf: array<bv8>, length: nat)
    requires DiskOk(d) && n < |d.inodes| && length <= buf.Length
    requires offset + length <= d.inodes[n].fileSize
    modifies buf
    ensures forall k :: 0 <= k < length ==> buf[k] == FileByte(d, n, offset + k)
    ensures forall k :: length <= k < buf.Length ==> buf[k] == old(buf[k])
  {
    var startBlock := offset / DISK_BLOCK_SIZE;
    var startByte := offset % DISK_BLOCK_SIZE;
    var endBlock := (offset + length) / DISK_BLOCK_SIZE;
    var endByte := (offset + length) % DISK_BLOCK_SIZE;
    if startBlock == endBlock {
      CopyFromBlock(d, n, startBlock, startByte, buf, 0, length);
    } else {
      CopyFromBlock(d, n, startBlock, startByte, buf, 0, DISK_BLOCK_SIZE - startByte);
      var bytesRead := DISK_BLOCK_SIZE - startByte;
      var b := startBlock + 1;
      while b < endBlock
        invariant startBlock < b <= endBlock
        invariant bytesRead == b * DISK_BLOCK_SIZE - offset
        invariant forall k :: 0 <= k < bytesRead ==> buf[k] == FileByte(d, n, offset + k)
        invariant forall k :: length <= k < buf.Length ==> buf[k] == old(buf[k])
      {
        CopyFromBlock(d, n, b, 0, buf, bytesRead, DISK_BLOCK_SIZE);
        bytesRead := bytesRead + DISK_BLOCK_SIZE;
        b := b + 1;
      }
      CopyFromBlock(d, n, endBlock, 0, buf, bytesRead, endByte);
    }
  }

  /** read_data: copy bytes [offset, offset + length) of file `inode` into
      `buf` block by block; 0 when the copy reaches the end of the file,
      otherwise the number of bytes copied, -1 when rejected. */
  method ReadData(d: Disk, inode: nat, offset: nat, buf: array<bv8>, length: nat) returns (r: int)
    requires DiskOk(d) && length <= buf.Length
    modifies buf
    ensures ReadDataRejects(d, inode, offset, length) ==> r == -1 && buf[..] == old(buf[..])
    ensures !ReadDataRejects(d, inode, offset, length) ==>
      buf[..length] == FileData(d, inode)[offset..offset + length] &&
      buf[length..] == old(buf[length..]) &&
      r == (if offset + length == d.inodes[inode].fileSize then 0 else length)
  {
    if inode >= d.numInodes {
      return -1;
    }
    var ino := d.inodes[inode];
    if offset >= ino.fileSize {
      return -1;
    }
    if offset + length > ino.fileSize {
      return -1;
    }
    var i := 0;
    while i < CHECKED_BLOCKS
      invariant 0 <= i <= CHECKED_BLOCKS && ino == d.inodes[inode]
      invariant ino in d.inodes && |ino.blockIdx| == INODE_BLOCKS
      invariant forall j :: 0 <= j < i ==> ino.blockIdx[j] < d.numDblocks
    {
      if ino.blockIdx[i] >= d.numDblocks {
        return -1;
      }
      i := i + 1;
    }
    CopyRange(d, inode, offset, buf, length);
    assert buf[..length] == FileData(d, inode)[offset..offset + length];
    assert buf[length..] == old(buf[length..]);
    var bytesRead := length;
    if offset + bytesRead == ino.fileSize {
      return 0;
    } else {
      return bytesRead;
    }
  }

  // ---------------------------------------------------------------------
  // File and directory operations
  // ---------------------------------------------------------------------

  /** file_read: copy from the descriptor's position up to `nbytes` bytes,
      clamped at the end of the file, and advance the position by the count
      returned.  read_data's own result is not consulted, so a file with a
      bad block index in its first 63 slots leaves the buffer untouched yet
      still advances. */
  method FileRead(d: Disk, desc: FileDesc, buf: array<bv8>, nbytes: nat) returns (r: nat, next: FileDesc)
    requires DiskOk(d) && desc.inodeNum < d.numInodes && nbytes <= buf.Length
    modifies buf
    ensures var size := d.inodes[desc.inodeNum].fileSize;
      r == (if desc.filePos >= size then 0
            else if nbytes < size - desc.filePos then nbytes else size - desc.filePos)
    ensures next == desc.(filePos := desc.filePos + r)
    ensures desc.filePos <= d.inodes[desc.inodeNum].fileSize ==>
      next.filePos <= d.inodes[desc.inodeNum].fileSize
    ensures (desc.filePos < d.inodes[desc.inodeNum].fileSize &&
             !BadBlockPrefix(d, d.inodes[desc.inodeNum])) ==>
      buf[..r] == FileData(d, desc.inodeNum)[desc.filePos..desc.filePos + r]
    ensures (desc.filePos >= d.inodes[desc.inodeNum].fileSize ||
             BadBlockPrefix(d, d.inodes[desc.inodeNum])) ==> buf[..] == old(buf[..])
    ensures buf[r..] == old(buf[r..])
  {
    var size := d.inodes[desc.inodeNum].fileSize;
    if desc.filePos >= size {
      return 0, desc;
    }
    var count := nbytes;
    if desc.filePos + count >= size {
      count := size - desc.filePos;
    }
    var _ := ReadData(d, desc.inodeNum, desc.filePos, buf, count);
    r := count;
    next := desc.(filePos := desc.filePos + count);
  }

  /** directory_read: copy the name of entry `filePos` (strncpy of at most
      32 bytes) and step to the next entry; 0 once every entry was read. */
  method DirectoryRead(d: Disk, desc: FileDesc, buf: array<bv8>, nbytes: nat) returns (r: nat, next: FileDesc)
    requires (if nbytes > NAME_LEN then NAME_LEN else nbytes) <= buf.Length
    modifies buf
    ensures desc.filePos >= |d.entries| ==> r == 0 && next == desc && buf[..] == old(buf[..])
    ensures desc.filePos < |d.entries| ==>
      r == (if nbytes > NAME_LEN then NAME_LEN else nbytes) &&
      next == desc.(filePos := desc.filePos + 1) &&
      buf[..r] == Strncpy(d.entries[desc.filePos].fileName, r) &&
      buf[r..] == old(buf[r..])
  {
    var count := nbytes;
    if count > NAME_LEN {
      count := NAME_LEN;
    }
    if desc.filePos >= |d.entries| {
      return 0, desc;
    }
    var name := Strncpy(d.entries[desc.filePos].fileName, count);
    forall k | 0 <= k < count {
      buf[k] := name[k];
    }
    r := count;
    next := desc.(filePos := desc.filePos + 1);
  }

  /** file_write: the file system is read-only. */
  function FileWrite(nbytes: int): (r: int)
    ensures r == -1
  {
    -1
  }

  /** file_open: the open system call has already found and typed the file. */
  function FileOpen(filename: seq<bv8>): (r: int)
    ensures r == 0
  {
    0
  }

  /** file_close: nothing to release. */
  function FileClose(fd: int): (r: int)
    ensures r == 0
  {
    0
  }

  /** directory_write: the file system is read-only. */
  function DirectoryWrite(nbytes: int): (r: int)
    ensures r == -1
  {
    -1
  }

  /** directory_open: the open system call has already found the entry. */
  function DirectoryOpen(filename: seq<bv8>): (r: int)
    ensures r == 0
  {
    0
  }

  /** directory_close: nothing to release. */
  function DirectoryClose(fd: int): (r: int)
    ensures r == 0
  {
    0
  }
}
