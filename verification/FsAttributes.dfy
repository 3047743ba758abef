/** What does not show in the contents of the files: times and types, the fields of the superblock, and which blocks, inodes
    and directory entries are used. */
module FsAttributes {
  import opened Basics
  import opened FsTypes
  import opened FsSpec
  import opened FsInvariant
  import opened FsResize
  import opened FsWrite
  import opened FsDirectory
  import opened FsMount

  /** Resizing keeps the type of a file, and sets its time exactly if its size changes. */
  lemma ResizeStamps(fs: Fs, i: int, newSize: int, now: int)
    requires Inv(fs) && 0 <= i < |fs.nodes| && fs.nodes[i].Some? && 0 <= newSize <= MAX_FILE_SIZE
    ensures Live(fs, i)
    ensures var (fs', code) := Resize(fs, i, newSize, now);
      && |fs'.nodes| == |fs.nodes| && fs'.nodes[i].Some?
      && fs'.nodes[i].value.tipo == fs.nodes[i].value.tipo
      && fs'.nodes[i].value.mtime == if code == 0 && newSize != fs.nodes[i].value.fileSize then now else fs.nodes[i].value.mtime
  {
    hide AllocLoop, FreeLoop, Zeros, AllocOk, DirOk, Synced, ClearTail;
    ResizeOk(fs, i, newSize, now);
  }

  /** A write that succeeds keeps the type of the file and sets its time; one that fails keeps both. */
  lemma WriteStamps(fs: Fs, i: int, buf: seq<Byte>, off: int, now: int)
    requires Inv(fs) && 0 <= i < |fs.nodes| && fs.nodes[i].Some? && 0 <= off && off + |buf| <= MAX_FILE_SIZE
    ensures var (fs', code) := Write(fs, i, buf, off, now);
      && |fs'.nodes| == |fs.nodes| && fs'.nodes[i].Some?
      && fs'.nodes[i].value.tipo == fs.nodes[i].value.tipo
      && fs'.nodes[i].value.mtime == if code >= 0 then now else fs.nodes[i].value.mtime
  {
    hide Resize, Inv, Content, WriteLoop, Live;
    ResizeReady(fs, i, off + |buf|, now);
    ResizeStamps(fs, i, off + |buf|, now);
    ResizeOk(fs, i, off + |buf|, now);
  }

  /** A resize or write that is refused for lack of blocks has still cleared what the last block held behind the end of the
      file, up to the size that was asked for. */
  lemma RefusedClears(fs: Fs, i: int, newSize: int, now: int, p: int)
    requires Inv(fs) && 0 <= i < |fs.nodes| && fs.nodes[i].Some? && 0 <= newSize <= MAX_FILE_SIZE
    requires Extra(fs, i, newSize) > fs.super.freeBlocks
    ensures Live(fs, i)
    ensures var fs' := Resize(fs, i, newSize, now).0; var n := fs.nodes[i].value;
      && fs'.nodes == fs.nodes && |fs'.disk.data| == |fs.disk.data| && DataOk(fs'.disk.data) && NodeOk(n, |fs'.disk.data|)
      && (n.fileSize <= p < newSize && p < n.numBlocks * BLOCK_SIZE ==> ByteAt(fs'.disk.data, n, p) == 0)
  {
    hide AllocLoop, FreeLoop, Zeros, AllocOk, DirOk, Synced, ClearTail, ByteAt, Content, BlocksFor, Grow, Shrink;
    ResizeOk(fs, i, newSize, now);
    var n := fs.nodes[i].value;
    if newSize > n.fileSize {
      RefusedGrow(fs, i, newSize, now);
      ClearTailOk(fs, i, newSize);
    } else {
      EnoughToShrink(fs, i, newSize);
    }
  }

  lemma RefusedGrow(fs: Fs, i: int, newSize: int, now: int)
    requires Shape(fs) && Live(fs, i) && fs.nodes[i].value.fileSize < newSize <= MAX_FILE_SIZE && Extra(fs, i, newSize) > fs.super.freeBlocks
    ensures Grow(fs, i, newSize, now).0 == ClearTail(fs, i, newSize)
  {
    hide AllocLoop, ClearTail, BlocksFor;
  }

  lemma EnoughToShrink(fs: Fs, i: int, newSize: int)
    requires Inv(fs) && Live(fs, i) && 0 <= newSize <= fs.nodes[i].value.fileSize
    ensures Extra(fs, i, newSize) <= fs.super.freeBlocks
  {
    BlocksMonotone(newSize, fs.nodes[i].value.fileSize);
    FreeCountNat(fs);
  }

  /** A write that is refused does no more than the resize that it begins with. */
  lemma WriteRefused(fs: Fs, i: int, buf: seq<Byte>, off: int, now: int)
    requires Inv(fs) && 0 <= i < |fs.nodes| && fs.nodes[i].Some? && 0 <= off && off + |buf| <= MAX_FILE_SIZE
    requires Extra(fs, i, off + |buf|) > fs.super.freeBlocks
    ensures Live(fs, i) && Write(fs, i, buf, off, now) == (Resize(fs, i, off + |buf|, now).0, -EIO)
  {
    hide Resize, Inv, Content, WriteLoop, Live, FileBecomes;
    ResizeReady(fs, i, off + |buf|, now);
    ResizeOk(fs, i, off + |buf|, now);
  }

  /** A file that is created gets the first free inode and the first free entry, the type of the call, and its time. */
  lemma CreateUses(fs: Fs, name: string, tipo: int, now: int, junk: seq<int>) returns (i: int, e: int)
    requires Inv(fs) && |junk| == MAX_BLOCKS_PER_FILE && Create(fs, name, tipo, now, junk).1 == 0
    ensures 0 <= i < |fs.nodes| && fs.nodes[i].None? && forall j :: 0 <= j < i ==> fs.nodes[j].Some?
    ensures 0 <= e < |fs.dir.files| && fs.dir.files[e].free && forall f :: 0 <= f < e ==> !fs.dir.files[f].free
    ensures var fs' := Create(fs, name, tipo, now, junk).0;
      && fs'.nodes == fs.nodes[i := Some(Node(0, 0, tipo, now, junk, false))]
      && fs'.dir == Directory(fs.dir.numFiles + 1, fs.dir.files[e := Entry(i, name, false)])
  {
    hide AllocOk, DirOk, NodesOk;
    i, e := FindFreeNode(fs.nodes, 0), FindFreeFile(fs.dir.files, 0);
  }

  /** The superblock of a new file system. */
  lemma MkfsFields(diskSize: int, data: seq<Block>, now: int, junk: Node)
    requires DataOk(data) && Mkfs(diskSize, data, now, junk).Made?
    ensures var fs := Mkfs(diskSize, data, now, junk).fs;
      fs.super == Super(now, diskSize / 4096, diskSize / 4096 - 8, 4096, 15, 100) && fs.disk.super == fs.super
  {
    MkfsOk(diskSize, data, now, junk);
    hide Inv, Abs, OnDisk;
  }

  lemma FirstCollected(fs: Fs, i: int, newSize: int) returns (r: Alloc)
    requires Inv(fs) && Live(fs, i) && fs.nodes[i].value.fileSize < newSize <= MAX_FILE_SIZE && Extra(fs, i, newSize) <= fs.super.freeBlocks
    ensures var fs1 := ClearTail(fs, i, newSize); var n := fs.nodes[i].value; var a := Alloc(fs.bitMap, fs1.disk.data, n.blocks, true);
      && n.numBlocks <= BlocksFor(newSize) <= |n.blocks|
      && r == AllocLoop(a, n.numBlocks, BlocksFor(newSize), 0)
      && Collected(a, r, n.numBlocks, BlocksFor(newSize), 0)
      && FirstFit(r, n.numBlocks, BlocksFor(newSize), 0)
  {
    hide Content, ByteAt, ClearTail, Collected, FirstFit, DirOk, Synced;
    r := GrowCollects(fs, i, newSize);
    var n := fs.nodes[i].value;
    AllocFirst(Alloc(fs.bitMap, ClearTail(fs, i, newSize).disk.data, n.blocks, true), n.numBlocks, BlocksFor(newSize), 0);
  }

  /** A file that grows keeps the blocks that it has, and gets the first free ones after them: any block below one of them that
      was free is now taken. */
  lemma GrowFirstFit(fs: Fs, i: int, newSize: int, now: int, k: int, b: int)
    requires Inv(fs) && Live(fs, i) && fs.nodes[i].value.fileSize < newSize <= MAX_FILE_SIZE && Extra(fs, i, newSize) <= fs.super.freeBlocks
    requires 0 <= k < BlocksFor(newSize)
    ensures var fs' := Grow(fs, i, newSize, now).0; var n := fs.nodes[i].value;
      && |fs'.nodes| == |fs.nodes| && fs'.nodes[i].Some? && |fs'.bitMap| == |fs.bitMap|
      && var n' := fs'.nodes[i].value;
         && n'.numBlocks == BlocksFor(newSize) <= |n'.blocks| == |n.blocks|
         && (k < n.numBlocks ==> n'.blocks[k] == n.blocks[k])
         && (k >= n.numBlocks ==>
               && 0 <= n'.blocks[k] < |fs.bitMap| && fs.bitMap[n'.blocks[k]] == 0 && fs'.bitMap[n'.blocks[k]] == 1
               && (0 <= b < n'.blocks[k] ==> fs'.bitMap[b] != 0))
  {
    var r := FirstCollected(fs, i, newSize);
    hide Inv, Content, ByteAt, ClearTail, AllocLoop, BlocksFor, Grow, ZeroBlock;
    GrowShape(fs, i, newSize, now, r);
  }

  /** A block that a file gives up is free, and holds zeros. */
  lemma ShrinkCleans(fs: Fs, i: int, newSize: int, now: int, k: int)
    requires Inv(fs) && Live(fs, i) && 0 <= newSize < fs.nodes[i].value.fileSize
    requires BlocksFor(newSize) <= k < fs.nodes[i].value.numBlocks
    ensures var fs' := Shrink(fs, i, newSize, now); var b := fs.nodes[i].value.blocks[k];
      && 8 <= b < |fs'.disk.data| && b < |fs'.bitMap| && fs'.bitMap[b] == 0 && fs'.disk.bitMap[b] == 0
      && fs'.disk.data[b] == ZeroBlock()
  {
    hide DirOk, Synced, BlocksFor, FreeLoop;
    var n := fs.nodes[i].value;
    BlocksMonotone(newSize, n.fileSize);
    OwnBits(fs, i);
    FreeLoopEffect(fs.bitMap, fs.disk.data, n.blocks, n.numBlocks, BlocksFor(newSize));
  }
}
