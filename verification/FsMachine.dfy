/** The file system's own structures, updated in place: bitmap, directory, inode table and block buffers. Each method is
    proved to compute the function of modules FsSpec to FsMount that specifies it. */
module FsMachine {
  import opened Basics
  import opened FsTypes
  import opened FsSpec
  import opened FsInvariant
  import opened FsResize
  import opened FsWrite
  import opened FsDirectory
  import opened FsMount
  import opened FsRefinement

  /** NodeStruct; the block list is part of the structure. */
  class NodeStruct {
    var numBlocks: int
    var fileSize: int
    var tipo: int
    var mtime: int
    var blocks: seq<int>
    var free: bool

    constructor (n: Node)
      ensures Val() == n
    {
      numBlocks, fileSize, tipo, mtime, blocks, free := n.numBlocks, n.fileSize, n.tipo, n.mtime, n.blocks, n.free;
    }

    function Val(): Node
      reads this
    {
      Node(numBlocks, fileSize, tipo, mtime, blocks, free)
    }

    method SetBlock(k: int, b: int)
      requires 0 <= k < |blocks|
      modifies this
      ensures Val() == old(Val()).(blocks := old(blocks)[k := b])
    {
      blocks := blocks[k := b];
    }

    method SetNumBlocks(n: int)
      modifies this
      ensures Val() == old(Val()).(numBlocks := n)
    {
      numBlocks := n;
    }

    method AddSize(diff: int, now: int)
      modifies this
      ensures Val() == old(Val()).(fileSize := old(fileSize) + diff, mtime := now)
    {
      fileSize := fileSize + diff;
      mtime := now;
    }

    method Touch(now: int)
      modifies this
      ensures Val() == old(Val()).(mtime := now)
    {
      mtime := now;
    }
  }

  /** MyFileSystem, with the virtual disk that its descriptor refers to. */
  class FileSystem {
    var super: Super
    const bitMap: array<int>
    var numFiles: int
    const files: array<Entry>
    const nodes: array<NodeStruct?>
    var numFreeNodes: int
    var disk: Disk

    /** The process starts with static memory, which holds zeros; main sets the number of free inodes. */
    constructor ()
      ensures Valid() && Blank()
      ensures fresh(bitMap) && fresh(files) && fresh(nodes)
    {
      super := Super(0, 0, 0, 0, 0, 0);
      bitMap := new int[NUM_BITS](_ => 0);
      numFiles := 0;
      files := new Entry[MAX_FILES](_ => Entry(0, "", false));
      nodes := new NodeStruct?[MAX_NODES](_ => null);
      numFreeNodes := MAX_NODES;
      disk := Disk(Super(0, 0, 0, 0, 0, 0), [], Directory(0, []), [], []);
    }

    /** The arrays have their sizes, and every inode in memory is a structure of its own. */
    ghost predicate Valid()
      reads nodes
    {
      && bitMap.Length == NUM_BITS && files.Length == MAX_FILES && nodes.Length == MAX_NODES
      && forall i, j :: 0 <= i < j < nodes.Length && nodes[i] != null ==> nodes[i] != nodes[j]
    }

    /** Nothing has been formatted or mounted yet. */
    ghost predicate Blank()
      reads this, files, nodes
    {
      && (forall e :: 0 <= e < files.Length ==> files[e].nodeIdx == 0 && files[e].name == "")
      && (forall i :: 0 <= i < nodes.Length ==> nodes[i] == null)
      && numFreeNodes == MAX_NODES
    }

    ghost function Objs(): set<object>
      reads nodes
    {
      set i | 0 <= i < nodes.Length && nodes[i] != null :: nodes[i]
    }

    ghost function NodeVals(): (r: seq<Option<Node>>)
      reads nodes, Objs()
      ensures |r| == nodes.Length
    {
      seq(nodes.Length, i requires 0 <= i < nodes.Length reads nodes, Objs() =>
        if nodes[i] == null then None else Some(nodes[i].Val()))
    }

    ghost function State(): (r: Fs)
      reads this, bitMap, files, nodes, Objs()
    {
      Fs(super, bitMap[..], Directory(numFiles, files[..]), NodeVals(), numFreeNodes, disk)
    }

    /** Only inode i has changed. */
    lemma OneNode(was: seq<Option<Node>>, i: int)
      requires |was| == nodes.Length && 0 <= i < nodes.Length
      requires forall k :: 0 <= k < nodes.Length && k != i ==> NodeVals()[k] == was[k]
      ensures NodeVals() == was[i := NodeVals()[i]]
    {
    }

    // ---------------------------------------------------------------- the virtual disk

    /** `readBlock` */
    method ReadBlock(b: int, buffer: array<Byte>) returns (code: int)
      requires buffer.Length == BLOCK_SIZE && |disk.data| == super.diskBlocks && DataOk(disk.data)
      modifies buffer
      ensures code == if 0 <= b < super.diskBlocks then 0 else -1
      ensures buffer[..] == if code == 0 then disk.data[b] else old(buffer[..])
    {
      if b < 0 || b >= super.diskBlocks { return -1; }
      forall j | 0 <= j < BLOCK_SIZE { buffer[j] := disk.data[b][j]; }
      code := 0;
    }

    /** `writeBlock` */
    method WriteBlock(b: int, buffer: array<Byte>) returns (code: int)
      requires buffer.Length == BLOCK_SIZE && |disk.data| == super.diskBlocks
      modifies this`disk
      ensures code == if 0 <= b < super.diskBlocks then 0 else -1
      ensures disk == if code == 0 then old(disk).(data := old(disk.data)[b := buffer[..]]) else old(disk)
    {
      if b < 0 || b >= super.diskBlocks { return -1; }
      disk := disk.(data := disk.data[b := buffer[..]]);
      code := 0;
    }

    method UpdateSuperBlock()
      modifies this`disk
      ensures disk == old(disk).(super := super)
    {
      disk := disk.(super := super);
    }

    method UpdateBitmap()
      modifies this`disk
      ensures disk == old(disk).(bitMap := bitMap[..])
    {
      disk := disk.(bitMap := bitMap[..]);
    }

    method UpdateDirectory()
      modifies this`disk
      ensures disk == old(disk).(dir := Directory(numFiles, files[..]))
    {
      disk := disk.(dir := Directory(numFiles, files[..]));
    }

    method UpdateNode(i: int, n: Node)
      requires 0 <= i < |disk.inodes|
      modifies this`disk
      ensures disk == old(disk).(inodes := old(disk.inodes)[i := n])
    {
      disk := disk.(inodes := disk.inodes[i := n]);
    }

    // ---------------------------------------------------------------- searches

    /** `findFileByName` */
    method FindFileByName(name: string) returns (r: int)
      ensures r == FindFile(files[..], name, 0)
    {
      for i := 0 to files.Length
        invariant FindFile(files[..], name, 0) == FindFile(files[..], name, i)
      {
        if !files[i].free {
          if name == files[i].name { return i; }
        }
      }
      r := -1;
    }

    /** `findFreeFile` */
    method FindFreeEntry() returns (r: int)
      ensures r == FindFreeFile(files[..], 0)
    {
      for i := 0 to files.Length
        invariant FindFreeFile(files[..], 0) == FindFreeFile(files[..], i)
      {
        if files[i].free { return i; }
      }
      r := -1;
    }

    /** `findFreeNode` */
    method FindFreeInode() returns (r: int)
      ensures r == FindFreeNode(NodeVals(), 0)
    {
      for i := 0 to nodes.Length
        invariant FindFreeNode(NodeVals(), 0) == FindFreeNode(NodeVals(), i)
      {
        if nodes[i] == null { return i; }
      }
      r := -1;
    }

    /** `myQuota` */
    method MyQuota() returns (count: int)
      requires 0 <= super.diskBlocks <= bitMap.Length
      ensures count == Zeros(bitMap[..], 0, super.diskBlocks)
    {
      count := 0;
      for i := 0 to super.diskBlocks
        invariant count + Zeros(bitMap[..], i, super.diskBlocks) == Zeros(bitMap[..], 0, super.diskBlocks)
      {
        if bitMap[i] == 0 { count := count + 1; }
      }
    }

    // ---------------------------------------------------------------- resizeNode

    /** `count` bytes of the buffer from `off` on become zero. */
    method ZeroBytes(block: array<Byte>, off: int, count: int)
      requires block.Length == BLOCK_SIZE && 0 <= off && 0 <= count && off + count <= BLOCK_SIZE
      modifies block
      ensures block[..] == ZeroRange(old(block[..]), off, count)
    {
      ghost var was := block[..];
      for k := 0 to count
        invariant forall j :: 0 <= j < BLOCK_SIZE ==> block[j] == if off <= j < off + k then 0 else was[j]
      {
        block[off + k] := 0;
      }
    }

    /** `count` bytes of block b from `off` on become zero: the block is read, changed and written. */
    method ClearRange(b: int, off: int, count: int) returns (code: int)
      requires |disk.data| == super.diskBlocks && DataOk(disk.data) && 0 <= b < super.diskBlocks
      requires 0 <= off && 0 <= count && off + count <= BLOCK_SIZE
      modifies this`disk
      ensures disk == old(disk).(data := old(disk.data)[b := ZeroRange(old(disk.data)[b], off, count)]) && code == 0
    {
      hide ZeroRange, DataOk;
      var block := new Byte[BLOCK_SIZE](_ => 0);
      code := ReadBlock(b, block);
      if code == -1 { return -EIO; }
      ZeroBytes(block, off, count);
      code := WriteBlock(b, block);
      if code == -1 { return -EIO; }
    }

    /** The part of `resizeNode` that deletes the extra content of the last block. */
    method ClearLastBlock(i: int, newSize: int) returns (code: int)
      requires Valid() && Shape(State()) && Live(State(), i) && State().nodes[i].value.fileSize < newSize
      modifies this`disk
      ensures State() == ClearTail(old(State()), i, newSize) && code == 0
    {
      hide BlocksFor, ZeroRange, DataOk;
      code := 0;
      var node := nodes[i];
      var diff := newSize - node.fileSize;
      if node.numBlocks != 0 && node.fileSize % BLOCK_SIZE != 0 {
        var currentBlock := node.blocks[node.numBlocks - 1];
        var offBlock := node.fileSize % BLOCK_SIZE;
        var bytes2Write := if diff > BLOCK_SIZE - offBlock then BLOCK_SIZE - offBlock else diff;
        code := ClearRange(currentBlock, offBlock, bytes2Write);
      }
    }

    /** The first-fit loop of `resizeNode`. It has no bound on the bit index: it relies on the free count. */
    method CollectBlocks(node: NodeStruct, newBlocks: int) returns (code: int)
      requires |disk.data| == super.diskBlocks <= bitMap.Length && DataOk(disk.data)
      requires 0 <= node.numBlocks && 0 <= newBlocks && node.numBlocks + newBlocks <= |node.blocks|
      requires newBlocks <= Zeros(bitMap[..], 0, super.diskBlocks)
      modifies this`disk, bitMap, node
      ensures var n := old(node.Val());
        var a := AllocLoop(Alloc(old(bitMap[..]), old(disk.data), n.blocks, true), n.numBlocks, n.numBlocks + newBlocks, 0);
        && bitMap[..] == a.bitMap && disk == old(disk).(data := a.data)
        && node.Val() == n.(numBlocks := n.numBlocks + newBlocks, blocks := a.blocks)
        && code == if a.ok then 0 else -EIO
    {
      var block := new Byte[BLOCK_SIZE](_ => 0);
      assert block[..] == ZeroBlock();
      var currentBlock := node.numBlocks;
      ghost var target := currentBlock + newBlocks;
      ghost var result := AllocLoop(Alloc(bitMap[..], disk.data, node.blocks, true), currentBlock, target, 0);
      node.SetNumBlocks(node.numBlocks + newBlocks);
      var i := 0;
      while currentBlock != node.numBlocks
        invariant 0 <= i <= bitMap.Length && old(node.numBlocks) <= currentBlock <= target <= |node.blocks|
        invariant node.Val() == old(node.Val()).(numBlocks := target, blocks := node.blocks)
        invariant disk == old(disk).(data := disk.data) && |disk.data| == super.diskBlocks && DataOk(disk.data)
        invariant AllocLoop(Alloc(bitMap[..], disk.data, node.blocks, true), currentBlock, target, i) == result
        invariant target - currentBlock <= Zeros(bitMap[..], i, super.diskBlocks)
        invariant block[..] == ZeroBlock()
        decreases bitMap.Length - i
      {
        if bitMap[i] == 0 {
          ZerosSet(bitMap[..], i, 1, i + 1, super.diskBlocks);
          bitMap[i] := 1;
          node.SetBlock(currentBlock, i);
          currentBlock := currentBlock + 1;
          code := WriteBlock(i, block);
          if code == -1 { return -EIO; }
        }
        i := i + 1;
      }
      code := 0;
    }

    /** The shrinking loop of `resizeNode`. */
    method FreeBlocks(node: NodeStruct, keep: int) returns (code: int)
      requires |disk.data| == super.diskBlocks <= bitMap.Length && DataOk(disk.data)
      requires 0 <= keep <= node.numBlocks <= |node.blocks|
      requires forall k :: keep <= k < node.numBlocks ==> 0 <= node.blocks[k] < |disk.data|
      modifies this`disk, bitMap
      ensures var r := FreeLoop(old(bitMap[..]), old(disk.data), node.blocks, node.numBlocks, keep);
        code == 0 && bitMap[..] == r.0 && disk == old(disk).(data := r.1)
    {
      var block := new Byte[BLOCK_SIZE](_ => 0);
      assert block[..] == ZeroBlock();
      ghost var result := FreeLoop(bitMap[..], disk.data, node.blocks, node.numBlocks, keep);
      var i := node.numBlocks;
      while i > keep
        invariant keep <= i <= node.numBlocks
        invariant disk == old(disk).(data := disk.data) && |disk.data| == super.diskBlocks && DataOk(disk.data)
        invariant FreeLoop(bitMap[..], disk.data, node.blocks, i, keep) == result
        invariant block[..] == ZeroBlock()
      {
        var b := node.blocks[i - 1];
        bitMap[b] := 0;
        code := WriteBlock(b, block);
        if code == -1 { return -EIO; }
        i := i - 1;
      }
      code := 0;
    }

    /** `updateSuperBlock`, `updateBitmap` and `updateNode`, as they end a change of inode i. */
    method WriteBackNode(i: int)
      requires Valid() && 0 <= i < nodes.Length && nodes[i] != null && i < |disk.inodes|
      modifies this`disk
      ensures State() == WriteBack(old(State()), i)
    {
      UpdateSuperBlock();
      UpdateBitmap();
      UpdateNode(i, nodes[i].Val());
    }

    /** The end of `resizeNode`: the new size and time, and everything written back. */
    method FinishResize(i: int, diff: int, now: int)
      requires Valid() && 0 <= i < nodes.Length && nodes[i] != null && i < |disk.inodes|
      modifies this`disk, nodes[i]
      ensures var fs, n := old(State()), old(nodes[i].Val());
        State() == WriteBack(SetNode(fs, i, n.(fileSize := n.fileSize + diff, mtime := now)), i)
    {
      ghost var was := NodeVals();
      nodes[i].AddSize(diff, now);
      OneNode(was, i);
      WriteBackNode(i);
    }

    /** The free count goes down, and the blocks are collected into inode i. */
    method TakeBlocks(i: int, newBlocks: int) returns (code: int)
      requires Valid() && |disk.data| == super.diskBlocks <= bitMap.Length && DataOk(disk.data)
      requires 0 <= i < nodes.Length && nodes[i] != null
      requires 0 <= nodes[i].numBlocks && 0 <= newBlocks && nodes[i].numBlocks + newBlocks <= |nodes[i].blocks|
      requires newBlocks <= Zeros(bitMap[..], 0, super.diskBlocks)
      modifies this`super, this`disk, bitMap, nodes[i]
      ensures var fs, n := old(State()), old(nodes[i].Val());
        var a := AllocLoop(Alloc(fs.bitMap, fs.disk.data, n.blocks, true), n.numBlocks, n.numBlocks + newBlocks, 0);
        && State() == fs.(super := fs.super.(freeBlocks := fs.super.freeBlocks - newBlocks), bitMap := a.bitMap,
                          disk := fs.disk.(data := a.data),
                          nodes := fs.nodes[i := Some(n.(numBlocks := n.numBlocks + newBlocks, blocks := a.blocks))])
        && code == if a.ok then 0 else -EIO
      ensures Valid()
    {
      hide AllocLoop, DataOk, Zeros;
      ghost var was := NodeVals();
      super := super.(freeBlocks := super.freeBlocks - newBlocks);
      code := CollectBlocks(nodes[i], newBlocks);
      OneNode(was, i);
    }

    /** The growing half of `resizeNode`. */
    method GrowNode(i: int, newSize: int, now: int) returns (code: int)
      requires Valid() && Inv(State()) && Live(State(), i) && State().nodes[i].value.fileSize < newSize <= MAX_FILE_SIZE
      modifies this`super, this`disk, bitMap, nodes[i]
      ensures (State(), code) == Grow(old(State()), i, newSize, now)
      ensures Valid()
    {
      hide AllocLoop, Content, DirOk, Synced, AllocOk, ClearTail, BlocksFor, Grow, NodesOk, WriteBack, Store, Grown;
      ghost var fs := State();
      var node := nodes[i];
      var diff := newSize - node.fileSize;
      code := ClearLastBlock(i, newSize);
      if code < 0 { return; }
      ghost var fs1 := State();
      var newBlocks := BlocksFor(newSize) - node.numBlocks;
      GrowReady(fs, i, newSize);
      ghost var n := node.Val();
      ghost var r := AllocLoop(Alloc(fs.bitMap, fs1.disk.data, n.blocks, true), n.numBlocks, BlocksFor(newSize), 0);
      if newBlocks != 0 {
        if newBlocks > super.freeBlocks {
          GrowFails(fs, i, newSize, now);
          return -ENOSPC;
        }
        code := TakeBlocks(i, newBlocks);
        if code < 0 {
          GrowFails(fs, i, newSize, now);
          return;
        }
      } else {
        CollectNothing(Alloc(fs.bitMap, fs1.disk.data, n.blocks, true), n.numBlocks);
      }
      GrowShape(fs, i, newSize, now, r);
      ghost var n0 := n.(numBlocks := BlocksFor(newSize), blocks := r.blocks);
      ghost var free := fs.super.freeBlocks - newBlocks;
      ghost var fs2 := State();
      assert fs2.nodes == fs.nodes[i := Some(n0)];
      assert fs2.nodes[i] == Some(node.Val());
      assert n0.fileSize + diff == newSize;
      FinishedGrowth(fs, fs1, fs2, i, r, newSize, now, free);
      FinishResize(i, diff, now);
      assert State() == WriteBack(SetNode(fs2, i, n0.(fileSize := newSize, mtime := now)), i);
      code := 0;
    }

    /** The shrinking half of `resizeNode`. */
    method ShrinkNode(i: int, newSize: int, now: int) returns (code: int)
      requires Valid() && Inv(State()) && Live(State(), i) && 0 <= newSize < State().nodes[i].value.fileSize
      modifies this`super, this`disk, bitMap, nodes[i]
      ensures State() == Shrink(old(State()), i, newSize, now) && code == 0
      ensures Valid()
    {
      hide FreeLoop, Content, DirOk, Synced, AllocOk, BlocksFor, NodesOk;
      ghost var fs := State();
      var node := nodes[i];
      var diff := newSize - node.fileSize;
      BlocksMonotone(newSize, node.fileSize);
      var numBlocks := BlocksFor(newSize);
      super := super.(freeBlocks := super.freeBlocks + (node.numBlocks - numBlocks));
      code := FreeBlocks(node, numBlocks);
      if code < 0 { return; }
      node.SetNumBlocks(numBlocks);
      OneNode(fs.nodes, i);
      ghost var n1 := Some(Shrunk(fs.nodes[i].value, newSize, now));
      assert NodeVals()[i := n1] == fs.nodes[i := n1];
      FinishResize(i, diff, now);
      code := 0;
    }

    /** `resizeNode` */
    method ResizeNode(i: int, newSize: int, now: int) returns (code: int)
      requires Valid() && Inv(State()) && 0 <= i < nodes.Length && nodes[i] != null && 0 <= newSize <= MAX_FILE_SIZE
      modifies this`super, this`disk, bitMap, nodes[i]
      ensures Live(old(State()), i) && (State(), code) == Resize(old(State()), i, newSize, now)
      ensures Valid()
    {
      hide Grow, Shrink, Content, DirOk, Synced, AllocOk, BlocksFor;
      var diff := newSize - nodes[i].fileSize;
      assert Live(State(), i);
      if diff == 0 { return 0; }
      if diff > 0 {
        code := GrowNode(i, newSize, now);
      } else {
        code := ShrinkNode(i, newSize, now);
      }
    }

    // ---------------------------------------------------------------- my_write and my_read

    /** `bytes` go into the buffer from `off` on, as far as there is room; the number copied is returned. */
    method CopyIn(buffer: array<Byte>, off: int, bytes: seq<Byte>, from: int) returns (count: int)
      requires buffer.Length == BLOCK_SIZE && 0 <= off < BLOCK_SIZE && 0 <= from <= |bytes|
      modifies buffer
      ensures count == Min(BLOCK_SIZE - off, |bytes| - from)
      ensures buffer[..] == Overwrite(old(buffer[..]), off, bytes[from..from + count])
    {
      ghost var was := buffer[..];
      var total := from;
      var i := off;
      while i < BLOCK_SIZE && total < |bytes|
        invariant off <= i <= BLOCK_SIZE && from <= total <= |bytes| && i - off == total - from
        invariant forall j :: 0 <= j < BLOCK_SIZE ==> buffer[j] == if off <= j < i then bytes[from + (j - off)] else was[j]
      {
        buffer[i] := bytes[total];
        total := total + 1;
        i := i + 1;
      }
      count := i - off;
    }

    /** The loop of `my_write`. */
    method WriteBytes(node: NodeStruct, buf: seq<Byte>, off: int) returns (code: int)
      requires |disk.data| == super.diskBlocks && DataOk(disk.data) && 0 <= node.numBlocks <= |node.blocks|
      requires BlocksIn(Used(node.Val()), |disk.data|) && 0 <= off && off + |buf| <= node.numBlocks * BLOCK_SIZE
      modifies this`disk
      ensures disk == old(disk).(data := WriteLoop(old(disk.data), Used(node.Val()), buf, off)) && code == 0
    {
      hide DataOk, Overwrite, WriteLoop;
      var buffer := new Byte[BLOCK_SIZE](_ => 0);
      ghost var blocks := Used(node.Val());
      ghost var result := WriteLoop(disk.data, blocks, buf, off);
      var bytes2Write, totalWrite, offset := |buf|, 0, off;
      while bytes2Write != 0
        invariant 0 <= totalWrite <= |buf| && bytes2Write == |buf| - totalWrite && offset == off + totalWrite
        invariant disk == old(disk).(data := disk.data) && |disk.data| == super.diskBlocks && DataOk(disk.data)
        invariant WriteLoop(disk.data, blocks, buf[totalWrite..], offset) == result
        decreases bytes2Write
      {
        ghost var blk, from, cnt := WriteLoopStep(disk.data, blocks, buf[totalWrite..], offset);
        var currentBlock := node.blocks[offset / BLOCK_SIZE];
        var offBlock := offset % BLOCK_SIZE;
        code := ReadBlock(currentBlock, buffer);
        if code == -1 { return -EIO; }
        var count := CopyIn(buffer, offBlock, buf, totalWrite);
        DataOkUpdate(disk.data, currentBlock, buffer[..]);
        code := WriteBlock(currentBlock, buffer);
        if code == -1 { return -EIO; }
        SliceOfRest(buf, totalWrite, count);
        totalWrite := totalWrite + count;
        bytes2Write := bytes2Write - count;
        offset := offset + count;
      }
      WriteLoopEnd(disk.data, blocks, offset);
      code := 0;
    }

    /** `my_write` */
    method MyWrite(i: int, buf: seq<Byte>, off: int, now: int) returns (code: int)
      requires Valid() && Inv(State()) && 0 <= i < nodes.Length && nodes[i] != null && 0 <= off && off + |buf| <= MAX_FILE_SIZE
      modifies this`super, this`disk, bitMap, nodes[i]
      ensures (State(), code) == Write(old(State()), i, buf, off, now)
      ensures Valid()
    {
      hide Resize, Content, DirOk, Synced, AllocOk, BlocksFor, WriteLoop;
      ResizeReady(State(), i, off + |buf|, now);
      code := ResizeNode(i, off + |buf|, now);
      if code < 0 { return -EIO; }
      ghost var fs := State();
      UsedOk(fs, i);
      code := WriteBytes(nodes[i], buf, off);
      if code < 0 { return; }
      nodes[i].Touch(now);
      OneNode(fs.nodes, i);
      WriteBackNode(i);
      code := |buf|;
    }

    /** The bytes of the buffer from `off` on, at most `room` of them. */
    method CopyOut(buffer: array<Byte>, off: int, room: int) returns (bytes: seq<Byte>)
      requires buffer.Length == BLOCK_SIZE && 0 <= off < BLOCK_SIZE && 0 <= room
      ensures bytes == buffer[off..off + Min(BLOCK_SIZE - off, room)]
    {
      bytes := [];
      var i := off;
      while i < BLOCK_SIZE && |bytes| < room
        invariant off <= i <= BLOCK_SIZE && |bytes| == i - off <= room
        invariant bytes == buffer[off..i]
      {
        bytes := bytes + [buffer[i]];
        i := i + 1;
      }
    }

    /** The loop of `my_read`; None where the C code would look beyond the blocks of the file. */
    method ReadBytes(blocks: seq<int>, size: int, off: int) returns (r: Option<seq<Byte>>)
      requires |disk.data| == super.diskBlocks && DataOk(disk.data) && BlocksIn(blocks, |disk.data|) && 0 <= off && 0 <= size
      ensures r == ReadLoop(disk.data, blocks, size, off)
    {
      hide DataOk, ReadLoop;
      var buffer := new Byte[BLOCK_SIZE](_ => 0);
      var buf: seq<Byte> := [];
      AfterNothing(ReadLoop(disk.data, blocks, size, off));
      var bytes2Read, offset := size, off;
      while bytes2Read != 0
        invariant 0 <= bytes2Read && 0 <= offset
        invariant ReadLoop(disk.data, blocks, size, off) == After(buf, ReadLoop(disk.data, blocks, bytes2Read, offset))
        decreases bytes2Read
      {
        ReadLoopStep(disk.data, blocks, bytes2Read, offset, buf);
        if offset / BLOCK_SIZE >= |blocks| { return None; }
        var offBlock := offset % BLOCK_SIZE;
        var code := ReadBlock(blocks[offset / BLOCK_SIZE], buffer);
        var bytes := CopyOut(buffer, offBlock, bytes2Read);
        buf := buf + bytes;
        bytes2Read := bytes2Read - |bytes|;
        offset := offset + (offBlock + |bytes|);
      }
      ReadLoopEnd(disk.data, blocks, offset, buf);
      r := Some(buf);
    }

    /** `my_read` */
    method MyRead(i: int, size: int, off: int) returns (r: Option<seq<Byte>>)
      requires Valid() && Inv(State()) && 0 <= i < nodes.Length && nodes[i] != null && 0 <= off && 0 <= size
      ensures r == Read(old(State()), i, size, off)
    {
      hide DirOk, Synced, AllocOk, BlocksFor, ReadLoop;
      UsedOk(State(), i);
      r := ReadBytes(nodes[i].blocks[..nodes[i].numBlocks], size, off);
    }

    // ---------------------------------------------------------------- my_mknod, my_mkdir, my_truncate

    /** `my_mknod` (tipo 0) and `my_mkdir` (tipo 1); `junk` is what malloc left in the block list of the inode. */
    method MakeFile(name: string, tipo: int, now: int, junk: seq<int>) returns (code: int)
      requires Valid() && Inv(State()) && |junk| == MAX_BLOCKS_PER_FILE
      modifies this, files, nodes
      ensures (State(), code) == Create(old(State()), name, tipo, now, junk)
      ensures Valid()
    {
      hide AllocOk, DirOk, NodesOk, Synced;
      if |name| > super.maxName { return -ENAMETOOLONG; }
      if numFreeNodes <= 0 { return -ENOSPC; }
      if numFiles >= MAX_FILES { return -ENOSPC; }
      ghost var fs := State();
      var found := FindFileByName(name);
      assert State() == fs;
      if found != -1 { return -EEXIST; }
      var idxNode := FindFreeInode();
      assert State() == fs;
      var idxDir := FindFreeEntry();
      assert State() == fs && idxNode == FindFreeNode(fs.nodes, 0) && idxDir == FindFreeFile(fs.dir.files, 0);
      if idxNode == -1 || idxDir == -1 { return -ENOSPC; }
      EnterFile(idxNode, idxDir, name, Node(0, 0, tipo, now, junk, false));
      code := 0;
    }

    /** The name enters the directory, the inode is made, and both are written to the disk. */
    method EnterFile(idxNode: int, idxDir: int, name: string, n: Node)
      requires Valid() && 0 <= idxNode < nodes.Length && nodes[idxNode] == null && 0 <= idxDir < files.Length
      requires |disk.inodes| == nodes.Length
      modifies this, files, nodes
      ensures State() == Created(old(State()), idxNode, idxDir, name, n)
      ensures Valid()
    {
      ghost var fs := State();
      files[idxDir] := Entry(idxNode, name, false);
      numFiles := numFiles + 1;
      numFreeNodes := numFreeNodes - 1;
      assert NodeVals() == fs.nodes;
      AddInode(idxNode, n);
      UpdateDirectory();
      UpdateNode(idxNode, nodes[idxNode].Val());
      assert files[..] == fs.dir.files[idxDir := Entry(idxNode, name, false)];
      assert NodeVals() == fs.nodes[idxNode := Some(n)];
    }

    /** A new structure for inode i. */
    method AddInode(i: int, n: Node)
      requires Valid() && 0 <= i < nodes.Length && nodes[i] == null
      modifies nodes
      ensures Valid() && NodeVals() == old(NodeVals())[i := Some(n)]
      ensures nodes[i] != null && nodes[i].Val() == n && fresh(nodes[i])
      ensures forall k :: 0 <= k < nodes.Length && k != i ==> nodes[k] == old(nodes[k])
    {
      ghost var was := NodeVals();
      var node := new NodeStruct(n);
      nodes[i] := node;
      assert forall k :: 0 <= k < nodes.Length && k != i ==> NodeVals()[k] == was[k];
      OneNode(was, i);
    }

    /** `my_truncate` */
    method MyTruncate(name: string, size: int, now: int) returns (code: int)
      requires Valid() && Inv(State()) && 0 <= size <= MAX_FILE_SIZE
      modifies this`super, this`disk, bitMap, Objs()
      ensures (State(), code) == TruncateFile(old(State()), name, size, now)
      ensures Valid()
    {
      hide Resize, AllocOk, DirOk, NodesOk, Synced;
      var idxDir := FindFileByName(name);
      if idxDir == -1 { return -ENOENT; }
      FindsNames(files[..], name);
      assert files[idxDir].nodeIdx == InodeOf(State(), name);
      code := ResizeNode(files[idxDir].nodeIdx, size, now);
      if code < 0 { return -EIO; }
      code := 0;
    }

    /** `my_open`, which leaves the inode of the name in the file handle. */
    method MyOpen(name: string) returns (code: int, handle: int)
      requires Valid() && Inv(State())
      ensures code == if name in FileNames(old(State())) then 0 else -ENOENT
      ensures code == 0 ==> handle == InodeOf(old(State()), name)
    {
      hide AllocOk, DirOk, NodesOk, Synced;
      FindsNames(files[..], name);
      handle := 0;
      var idxDir := FindFileByName(name);
      if idxDir == -1 { return -ENOENT, 0; }
      handle := files[idxDir].nodeIdx;
      code := 0;
    }

    // ---------------------------------------------------------------- myMkfs and myMount

    /** The bitmap of `myMkfs`. */
    method FormatBitmap()
      requires bitMap.Length == NUM_BITS
      modifies bitMap
      ensures bitMap[..] == NewBits()
    {
      for i := 0 to NUM_BITS
        invariant forall b :: 0 <= b < i ==> bitMap[b] == 0
      {
        bitMap[i] := 0;
      }
      bitMap[0], bitMap[1], bitMap[2] := 1, 1, 1;
      for i := NODES_IDX to NODES_IDX + MAX_BLOCKS_WITH_NODES
        invariant forall b :: 0 <= b < NUM_BITS ==> bitMap[b] == if b < i then 1 else 0
      {
        bitMap[i] := 1;
      }
    }

    /** The directory of `myMkfs`. */
    method FormatDirectory()
      requires files.Length == MAX_FILES && forall e :: 0 <= e < files.Length ==> files[e].nodeIdx == 0 && files[e].name == ""
      modifies this`numFiles, files
      ensures Directory(numFiles, files[..]) == NewDirectory()
    {
      numFiles := 0;
      for i := 0 to MAX_FILES
        invariant numFiles == 0
        invariant forall e :: 0 <= e < MAX_FILES ==> files[e].nodeIdx == 0 && files[e].name == "" && (e < i ==> files[e].free)
      {
        files[i] := files[i].(free := true);
      }
      assert forall e :: 0 <= e < MAX_FILES ==> files[e] == Entry(0, "", true);
      assert files[..] == NewDirectory().files;
    }

    /** The inodes of `myMkfs`: the same free one in every slot. */
    method FormatInodes(node: Node)
      requires |disk.inodes| == MAX_NODES
      modifies this`disk
      ensures disk == old(disk).(inodes := seq(MAX_NODES, _ => node))
    {
      for i := 0 to MAX_NODES
        invariant disk == old(disk).(inodes := disk.inodes) && |disk.inodes| == MAX_NODES
        invariant forall k :: 0 <= k < i ==> disk.inodes[k] == node
      {
        UpdateNode(i, node);
      }
      assert disk.inodes == seq(MAX_NODES, _ => node);
    }

    /** `myMkfs` on a backup file of any length; `junk` is the local inode, of which only the free mark is set. */
    method MyMkfs(diskSize: int, backup: Disk, now: int, junk: Node, tipos: seq<int>) returns (code: int)
      requires Valid() && Blank() && |backup.inodes| == MAX_NODES == |tipos|
      requires DataOk(backup.data)
      modifies this, bitMap, files, nodes
      ensures var made := Mkfs(diskSize, backup.data, now, junk);
        if made.Made? then code == 0 && State() == made.fs
        else code == made.code && code < 0 && State() == old(State()).(disk := backup)
      ensures Valid()
    {
      hide OnDisk, DataOk;
      disk := backup;
      var numBlocks := diskSize / BLOCK_SIZE;
      if numBlocks < 3 + MAX_BLOCKS_WITH_NODES + 1 { return -1; }
      if numBlocks >= NUM_BITS { return -2; }
      disk := disk.(data := OnDisk(disk.data, numBlocks));
      FormatBitmap();
      UpdateBitmap();
      FormatDirectory();
      UpdateDirectory();
      FormatInodes(junk.(free := true));
      super := super.(diskBlocks := numBlocks);
      var quota := MyQuota();
      super := Super(now, numBlocks, quota, BLOCK_SIZE, MAX_LEN_FILE_NAME, MAX_BLOCKS_PER_FILE);
      UpdateSuperBlock();
      LoadInodes(tipos);
      NothingLoaded(disk.inodes, tipos, MAX_NODES);
      assert NodeVals() == Mkfs(diskSize, backup.data, now, junk).fs.nodes;
      code := 0;
    }

    /** The loop of `initializeNodes` and of `myMount`: the inodes that are in use are copied to memory. */
    method LoadInodes(tipos: seq<int>)
      requires Valid() && |disk.inodes| == MAX_NODES == |tipos|
      requires forall i :: 0 <= i < nodes.Length ==> nodes[i] == null
      modifies nodes, this`numFreeNodes
      ensures Valid() && NodeVals() == Loaded(disk.inodes, tipos)
      ensures numFreeNodes == old(numFreeNodes) - LiveInodes(disk.inodes, MAX_NODES)
    {
      for i := 0 to MAX_NODES
        invariant Valid() && numFreeNodes == old(numFreeNodes) - LiveInodes(disk.inodes, i)
        invariant forall k :: i <= k < nodes.Length ==> nodes[k] == null
        invariant forall k :: 0 <= k < i ==> NodeVals()[k] == Loaded(disk.inodes, tipos)[k]
        invariant forall k :: 0 <= k < i && nodes[k] != null ==> fresh(nodes[k])
      {
        var temp := disk.inodes[i];
        if !temp.free {
          AddInode(i, temp.(tipo := tipos[i]));
          numFreeNodes := numFreeNodes - 1;
        }
      }
      assert NodeVals() == Loaded(disk.inodes, tipos);
    }

    /** `myMount` in a process that has just started. */
    method MyMount(backup: Disk, tipos: seq<int>)
      requires Valid() && Blank() && |backup.inodes| == MAX_NODES == |tipos|
      requires |backup.bitMap| == NUM_BITS && |backup.dir.files| == MAX_FILES
      modifies this, bitMap, files, nodes
      ensures State() == Mount(backup, tipos)
      ensures Valid()
    {
      hide OnDisk, DataOk;
      disk := backup;
      forall b | 0 <= b < NUM_BITS { bitMap[b] := backup.bitMap[b]; }
      super := backup.super;
      LoadInodes(tipos);
      forall e | 0 <= e < MAX_FILES { files[e] := backup.dir.files[e]; }
      numFiles := backup.dir.numFiles;
      assert bitMap[..] == backup.bitMap && files[..] == backup.dir.files;
    }
  }

  lemma WriteLoopEnd(data: seq<Block>, blocks: seq<int>, off: int)
    requires DataOk(data) && BlocksIn(blocks, |data|) && 0 <= off <= |blocks| * BLOCK_SIZE
    ensures WriteLoop(data, blocks, [], off) == data
  {
  }

  lemma SliceOfRest(buf: seq<Byte>, start: int, count: int)
    requires 0 <= start && 0 <= count && start + count <= |buf|
    ensures buf[start..][..count] == buf[start..start + count] && buf[start..][count..] == buf[start + count..]
  {
  }

  lemma DataOkUpdate(data: seq<Block>, b: int, block: Block)
    requires DataOk(data) && |block| == BLOCK_SIZE
    ensures 0 <= b < |data| ==> DataOk(data[b := block])
  {
  }

  /** What has been read, followed by what remains to be read. */
  function After(buf: seq<Byte>, r: Option<seq<Byte>>): Option<seq<Byte>> {
    match r case None => None case Some(rest) => Some(buf + rest)
  }

  lemma AfterNothing(r: Option<seq<Byte>>)
    ensures After([], r) == r
  {
    if r.Some? { assert [] + r.value == r.value; }
  }

  lemma ReadLoopEnd(data: seq<Block>, blocks: seq<int>, off: int, buf: seq<Byte>)
    requires DataOk(data) && BlocksIn(blocks, |data|) && 0 <= off
    ensures After(buf, ReadLoop(data, blocks, 0, off)) == Some(buf)
  {
    assert buf + [] == buf;
  }

  lemma ReadLoopStep(data: seq<Block>, blocks: seq<int>, size: int, off: int, buf: seq<Byte>)
    requires DataOk(data) && BlocksIn(blocks, |data|) && 0 <= off && 0 < size
    ensures off / BLOCK_SIZE >= |blocks| ==> ReadLoop(data, blocks, size, off) == None
    ensures off / BLOCK_SIZE < |blocks| ==>
      var o := off % BLOCK_SIZE; var count := Min(BLOCK_SIZE - o, size);
      var chunk := data[blocks[off / BLOCK_SIZE]][o..o + count];
      After(buf, ReadLoop(data, blocks, size, off)) == After(buf + chunk, ReadLoop(data, blocks, size - count, off + o + count))
  {
    if off / BLOCK_SIZE < |blocks| {
      var o := off % BLOCK_SIZE;
      var count := Min(BLOCK_SIZE - o, size);
      var chunk := data[blocks[off / BLOCK_SIZE]][o..o + count];
      var rest := ReadLoop(data, blocks, size - count, off + o + count);
      if rest.Some? { assert buf + (chunk + rest.value) == (buf + chunk) + rest.value; }
    }
  }

  lemma {:induction false} NothingLoaded(inodes: seq<Node>, tipos: seq<int>, k: int)
    requires 0 <= k <= |inodes| == |tipos| && forall i :: 0 <= i < |inodes| ==> inodes[i].free
    ensures Loaded(inodes, tipos) == seq(|inodes|, _ => None) && LiveInodes(inodes, k) == 0
  {
    if k > 0 { NothingLoaded(inodes, tipos, k - 1); }
    assert Loaded(inodes, tipos) == seq(|inodes|, _ => None);
  }

  lemma CollectNothing(a: Alloc, cur: int)
    requires 0 <= cur <= |a.blocks| && DataOk(a.data)
    ensures AllocLoop(a, cur, cur, 0) == a
  {
  }

  lemma GrowFails(fs: Fs, i: int, newSize: int, now: int)
    requires Shape(fs) && Live(fs, i) && fs.nodes[i].value.fileSize < newSize <= MAX_FILE_SIZE
    requires fs.nodes[i].value.numBlocks <= BlocksFor(newSize) <= |fs.nodes[i].value.blocks|
    ensures var n := fs.nodes[i].value; var fs1 := ClearTail(fs, i, newSize); var newBlocks := BlocksFor(newSize) - n.numBlocks;
      var a := AllocLoop(Alloc(fs1.bitMap, fs1.disk.data, n.blocks, true), n.numBlocks, BlocksFor(newSize), 0);
      var n1 := n.(numBlocks := BlocksFor(newSize), blocks := a.blocks);
      && (newBlocks > fs.super.freeBlocks ==> Grow(fs, i, newSize, now) == (fs1, -ENOSPC))
      && var super := fs.super.(freeBlocks := fs.super.freeBlocks - newBlocks);
        var fs2 := fs1.(super := super, bitMap := a.bitMap, disk := fs1.disk.(data := a.data), nodes := fs.nodes[i := Some(n1)]);
        (newBlocks <= fs.super.freeBlocks && !a.ok ==> Grow(fs, i, newSize, now) == (fs2, -EIO))
  {
  }

  /** Storing the grown inode. */
  lemma FinishedGrowth(fs: Fs, fs1: Fs, fs2: Fs, i: int, r: Alloc, newSize: int, now: int, free: int)
    requires 0 <= i < |fs.nodes| == |fs2.nodes| && i < |fs.disk.inodes| && fs.nodes[i].Some? && 0 <= newSize
    requires fs1 == fs.(disk := fs.disk.(data := fs1.disk.data))
    requires var n0 := fs.nodes[i].value.(numBlocks := BlocksFor(newSize), blocks := r.blocks);
      fs2 == fs1.(super := fs.super.(freeBlocks := free), bitMap := r.bitMap, disk := fs1.disk.(data := r.data),
                  nodes := fs.nodes[i := Some(n0)])
    ensures var n0 := fs.nodes[i].value.(numBlocks := BlocksFor(newSize), blocks := r.blocks);
      WriteBack(SetNode(fs2, i, n0.(fileSize := newSize, mtime := now)), i)
      == Store(fs, i, Grown(fs.nodes[i].value, r, newSize, now), free, r.bitMap, r.data)
  {
    hide BlocksFor;
    var n1 := Grown(fs.nodes[i].value, r, newSize, now);
    assert fs2.nodes[i := Some(n1)] == fs.nodes[i := Some(n1)];
  }

  lemma GrowReady(fs: Fs, i: int, newSize: int)
    requires Inv(fs) && Live(fs, i) && fs.nodes[i].value.fileSize < newSize <= MAX_FILE_SIZE
    ensures 0 <= fs.nodes[i].value.numBlocks <= BlocksFor(newSize) <= |fs.nodes[i].value.blocks|
    ensures Zeros(fs.bitMap, 0, fs.super.diskBlocks) == fs.super.freeBlocks
  {
    BlocksMonotone(fs.nodes[i].value.fileSize, newSize);
  }
}
