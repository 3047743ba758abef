/** `resizeNode` keeps the invariant, and gives the file its old contents cut or extended with zeros. */
module FsResize {
  import opened Basics
  import opened FsTypes
  import opened FsSpec
  import opened FsInvariant

  /** `c` cut to `size` bytes, or extended with zeros. */
  function Resized(c: seq<Byte>, size: int): (r: seq<Byte>)
    requires 0 <= size
    ensures |r| == size
  {
    if size <= |c| then c[..size] else c + seq(size - |c|, _ => 0)
  }

  /** The contents of inode j, if it is in use. */
  function FileOf(fs: Fs, j: int): (c: seq<Byte>)
    requires Inv(fs) && 0 <= j < |fs.nodes| && fs.nodes[j].Some?
  {
    Content(fs.disk.data, fs.nodes[j].value)
  }

  /** Every inode but i has the same state and the same contents in both; so has the directory. */
  ghost predicate OthersSame(fs: Fs, fs': Fs, i: int)
    requires Inv(fs) && Inv(fs')
  {
    && |fs'.nodes| == |fs.nodes|
    && (forall j :: 0 <= j < |fs.nodes| && j != i ==>
          && fs'.nodes[j] == fs.nodes[j]
          && (fs.nodes[j].Some? ==> FileOf(fs', j) == FileOf(fs, j)))
    && fs'.dir == fs.dir && fs'.numFreeNodes == fs.numFreeNodes
  }

  /** From fs to fs', the file of inode i gets contents `c` and nothing else changes, except that the counter of free
      blocks accounts for the blocks that c needs. */
  ghost predicate FileBecomes(fs: Fs, fs': Fs, i: int, c: seq<Byte>)
    requires Inv(fs)
  {
    && Inv(fs') && OthersSame(fs, fs', i)
    && 0 <= i < |fs.nodes| && fs.nodes[i].Some? && fs'.nodes[i].Some? && fs'.nodes[i].value.tipo == fs.nodes[i].value.tipo
    && FileOf(fs', i) == c
    && fs'.super == fs.super.(freeBlocks := fs.super.freeBlocks + BlocksFor(|FileOf(fs, i)|) - BlocksFor(|c|))
  }

  lemma BecomesTwice(fs: Fs, fs1: Fs, fs2: Fs, i: int, c1: seq<Byte>, c2: seq<Byte>)
    requires Inv(fs) && FileBecomes(fs, fs1, i, c1) && FileBecomes(fs1, fs2, i, c2)
    ensures FileBecomes(fs, fs2, i, c2)
  {
    hide Inv, Content, BlocksFor, NodeOk, NodesOk;
  }

  lemma ContentSame(data: seq<Block>, data': seq<Block>, n: Node)
    requires DataOk(data) && DataOk(data') && |data| == |data'| && NodeOk(n, |data|)
    requires forall k :: 0 <= k < n.numBlocks ==> data'[n.blocks[k]] == data[n.blocks[k]]
    ensures Content(data', n) == Content(data, n)
  {
    forall j | 0 <= j < n.fileSize ensures ByteAt(data', n, j) == ByteAt(data, n, j) {
      InBlock(n, j);
    }
  }

  lemma InBlock(n: Node, j: int)
    requires 0 <= n.fileSize && n.numBlocks == BlocksFor(n.fileSize) && 0 <= j < n.numBlocks * BLOCK_SIZE
    ensures 0 <= j / BLOCK_SIZE < n.numBlocks && 0 <= j % BLOCK_SIZE < BLOCK_SIZE
  {
  }

  /** The state after inode i has been given node n1, with the superblock, the bitmap and the node written back. */
  function Store(fs: Fs, i: int, n1: Node, free: int, bitMap: seq<int>, data: seq<Block>): Fs
    requires 0 <= i < |fs.nodes| && i < |fs.disk.inodes|
  {
    var super := fs.super.(freeBlocks := free);
    fs.(super := super, bitMap := bitMap, nodes := fs.nodes[i := Some(n1)],
        disk := fs.disk.(super := super, bitMap := bitMap, inodes := fs.disk.inodes[i := n1], data := data))
  }

  function DataOnly(fs: Fs, data: seq<Block>): Fs {
    fs.(disk := fs.disk.(data := data))
  }

  /** The blocks of every inode but i hold the same bytes in `data` as in `fs`. */
  ghost predicate OthersData(fs: Fs, data: seq<Block>, i: int)
    requires |data| <= |fs.disk.data|
  {
    forall j, k, b :: j != i && Owns(fs.nodes, j, k, b) && 0 <= b < |data| ==> data[b] == fs.disk.data[b]
  }

  lemma OthersKeep(fs: Fs, fs': Fs, i: int)
    requires Inv(fs) && Inv(fs') && |fs'.nodes| == |fs.nodes| && |fs'.disk.data| == |fs.disk.data|
    requires forall j :: 0 <= j < |fs.nodes| && j != i ==> fs'.nodes[j] == fs.nodes[j]
    requires fs'.dir == fs.dir && fs'.numFreeNodes == fs.numFreeNodes
    requires OthersData(fs, fs'.disk.data, i)
    ensures OthersSame(fs, fs', i)
  {
    hide AllocOk, DirOk, Synced, Content;
    forall j | 0 <= j < |fs.nodes| && j != i && fs.nodes[j].Some? ensures FileOf(fs', j) == FileOf(fs, j) {
      var n := fs.nodes[j].value;
      assert NodeOk(n, |fs.disk.data|);
      forall l | 0 <= l < n.numBlocks ensures fs'.disk.data[n.blocks[l]] == fs.disk.data[n.blocks[l]] {
        assert Owns(fs.nodes, j, l, n.blocks[l]);
      }
      ContentSame(fs.disk.data, fs'.disk.data, n);
    }
  }

  lemma DataOnlyOk(fs: Fs, data: seq<Block>, i: int)
    requires Inv(fs) && |data| == |fs.disk.data| && DataOk(data) && OthersData(fs, data, i)
    requires 0 <= i < |fs.nodes| && fs.nodes[i].Some?
    ensures NodeOk(fs.nodes[i].value, |data|)
    ensures FileBecomes(fs, DataOnly(fs, data), i, Content(data, fs.nodes[i].value))
  {
    hide AllocOk, DirOk, Content, DataOk, NodeOk;
    assert Inv(DataOnly(fs, data));
    OthersKeep(fs, DataOnly(fs, data), i);
  }

  lemma StoreInv(fs: Fs, i: int, n1: Node, free: int, bitMap: seq<int>, data: seq<Block>)
    requires Inv(fs) && 0 <= i < |fs.nodes| && fs.nodes[i].Some?
    requires |data| == |fs.disk.data| && DataOk(data) && |bitMap| == NUM_BITS
    requires NodeOk(n1, |data|) && AllocOk(fs.nodes[i := Some(n1)], bitMap, |data|, free)
    ensures Inv(Store(fs, i, n1, free, bitMap, data))
  {
    hide AllocOk, DirOk, DataOk, NodeOk;
    DirKept(fs.dir, fs.nodes, fs.numFreeNodes, i, n1);
  }

  lemma StoreOk(fs: Fs, i: int, n1: Node, free: int, bitMap: seq<int>, data: seq<Block>)
    requires Inv(fs) && 0 <= i < |fs.nodes| && fs.nodes[i].Some? && n1.tipo == fs.nodes[i].value.tipo
    requires |data| == |fs.disk.data| && DataOk(data) && OthersData(fs, data, i) && |bitMap| == NUM_BITS
    requires NodeOk(n1, |data|) && AllocOk(fs.nodes[i := Some(n1)], bitMap, |data|, free)
    requires free == fs.super.freeBlocks + fs.nodes[i].value.numBlocks - n1.numBlocks
    ensures FileBecomes(fs, Store(fs, i, n1, free, bitMap, data), i, Content(data, n1))
  {
    hide AllocOk, DirOk, Content, DataOk, Synced, BlocksFor;
    StoreInv(fs, i, n1, free, bitMap, data);
    OthersKeep(fs, Store(fs, i, n1, free, bitMap, data), i);
  }

  // ---------------------------------------------------------------- growing

  /** Clearing the tail changes no contents, and leaves only zeros between the end of the file and the end of its
      last block (or the new size). */
  lemma ClearTailOk(fs: Fs, i: int, newSize: int)
    requires Inv(fs) && Live(fs, i) && fs.nodes[i].value.fileSize < newSize
    ensures var fs1 := ClearTail(fs, i, newSize); var n := fs.nodes[i].value;
      && fs1 == DataOnly(fs, fs1.disk.data) && OthersData(fs, fs1.disk.data, i)
      && Content(fs1.disk.data, n) == Content(fs.disk.data, n)
      && (forall p :: n.fileSize <= p < newSize && p < n.numBlocks * BLOCK_SIZE ==> ByteAt(fs1.disk.data, n, p) == 0)
  {
    hide DirOk, Synced, Content, ByteAt, BlocksFor;
    var n := fs.nodes[i].value;
    var fs1 := ClearTail(fs, i, newSize);
    if n.numBlocks != 0 && n.fileSize % BLOCK_SIZE != 0 {
      var last := n.numBlocks - 1;
      assert Owns(fs.nodes, i, last, n.blocks[last]);
      forall k | 0 <= k < last ensures n.blocks[k] != n.blocks[last] {
        assert Owns(fs.nodes, i, k, n.blocks[k]);
      }
      ClearedContent(fs.disk.data, fs1.disk.data, n, newSize);
    } else {
      NoTail(n);
    }
  }

  lemma NoTail(n: Node)
    requires 0 <= n.fileSize && n.numBlocks == BlocksFor(n.fileSize) && (n.numBlocks == 0 || n.fileSize % BLOCK_SIZE == 0)
    ensures n.fileSize == n.numBlocks * BLOCK_SIZE
  {
  }

  lemma TailBytes(data: seq<Block>, n: Node, newSize: int)
    requires DataOk(data) && NodeOk(n, |data|) && n.numBlocks > 0 && n.fileSize % BLOCK_SIZE != 0
    ensures n.fileSize / BLOCK_SIZE == n.numBlocks - 1
    ensures forall p :: n.fileSize <= p < n.numBlocks * BLOCK_SIZE ==>
      p / BLOCK_SIZE == n.numBlocks - 1 && p % BLOCK_SIZE == p - (n.numBlocks - 1) * BLOCK_SIZE
    ensures n.fileSize % BLOCK_SIZE == n.fileSize - (n.numBlocks - 1) * BLOCK_SIZE
  {
  }

  lemma ClearedContent(data: seq<Block>, data1: seq<Block>, n: Node, newSize: int)
    requires DataOk(data) && DataOk(data1) && |data1| == |data| && NodeOk(n, |data|) && n.fileSize < newSize
    requires n.numBlocks > 0 && n.fileSize % BLOCK_SIZE != 0
    requires var b := n.blocks[n.numBlocks - 1]; var off := n.fileSize % BLOCK_SIZE;
      data1 == data[b := ZeroRange(data[b], off, Min(newSize - n.fileSize, BLOCK_SIZE - off))]
    requires forall k :: 0 <= k < n.numBlocks - 1 ==> n.blocks[k] != n.blocks[n.numBlocks - 1]
    ensures Content(data1, n) == Content(data, n)
    ensures forall p :: n.fileSize <= p < newSize && p < n.numBlocks * BLOCK_SIZE ==> ByteAt(data1, n, p) == 0
  {
    TailBytes(data, n, newSize);
    var last := n.numBlocks - 1;
    forall j | 0 <= j < n.fileSize ensures ByteAt(data1, n, j) == ByteAt(data, n, j) {
      InBlock(n, j);
      if j / BLOCK_SIZE == last { assert j % BLOCK_SIZE == j - last * BLOCK_SIZE; }
    }
  }

  /** The allocator after inode i has been given the collected blocks. */
  lemma GrownAllocOk(nodes: seq<Option<Node>>, i: int, n1: Node, a: Alloc, r: Alloc, diskBlocks: int, free: int, target: int)
    requires 0 <= i < |nodes| && nodes[i].Some? && |a.data| == diskBlocks
    requires AllocOk(nodes, a.bitMap, diskBlocks, free)
    requires var n := nodes[i].value;
      && a.blocks == n.blocks && 0 <= n.numBlocks <= target && Collected(a, r, n.numBlocks, target, 0)
      && n1.blocks == r.blocks && n1.numBlocks == target
      && Zeros(r.bitMap, 0, diskBlocks) == free - (target - n.numBlocks)
    ensures AllocOk(nodes[i := Some(n1)], r.bitMap, diskBlocks, free - (target - nodes[i].value.numBlocks))
  {
    var n := nodes[i].value;
    var cur := n.numBlocks;
    var nodes' := nodes[i := Some(n1)];
    forall j, k, b | Owns(nodes', j, k, b)
      ensures Owns(nodes, j, k, b) || (j == i && cur <= k < target && a.bitMap[b] == 0)
      ensures FIRST_DATA <= b < diskBlocks && r.bitMap[b] == 1
    {
      if j == i && cur <= k < target {
      } else {
        assert Owns(nodes, j, k, b);
        assert a.bitMap[b] == 1;
      }
    }
    forall b | FIRST_DATA <= b < |r.bitMap| && r.bitMap[b] == 1 ensures exists j, k :: Owns(nodes', j, k, b) {
      if k :| cur <= k < target && r.blocks[k] == b {
        assert Owns(nodes', i, k, b);
      } else {
        assert a.bitMap[b] == 1;
        var j, k :| Owns(nodes, j, k, b);
        assert Owns(nodes', j, k, b);
      }
    }
    forall j, k, l, m, b | Owns(nodes', j, k, b) && Owns(nodes', l, m, b) ensures j == l && k == m {
      if Owns(nodes, j, k, b) && Owns(nodes, l, m, b) {
      } else if Owns(nodes, j, k, b) || Owns(nodes, l, m, b) {
      } else {
        assert r.blocks[k] == b && r.blocks[m] == b;
      }
    }
    forall b | 0 <= b < |r.bitMap| ensures r.bitMap[b] == 0 || r.bitMap[b] == 1 {
      if k :| cur <= k < target && r.blocks[k] == b {
      } else {
        assert r.bitMap[b] == a.bitMap[b];
      }
    }
    forall b | 0 <= b < FIRST_DATA ensures r.bitMap[b] == 1 {
      assert a.bitMap[b] == 1;
    }
  }

  lemma DirKept(dir: Directory, nodes: seq<Option<Node>>, free: int, i: int, n1: Node)
    requires DirOk(dir, nodes, free) && 0 <= i < |nodes| && nodes[i].Some?
    ensures DirOk(dir, nodes[i := Some(n1)], free)
  {
    SameSlots(nodes, nodes[i := Some(n1)], |nodes|);
  }

  lemma {:induction false} SameSlots(nodes: seq<Option<Node>>, nodes': seq<Option<Node>>, k: int)
    requires |nodes| == |nodes'| && 0 <= k <= |nodes| && forall i :: 0 <= i < |nodes| ==> nodes[i].Some? == nodes'[i].Some?
    ensures FreeSlots(nodes', k) == FreeSlots(nodes, k)
  {
    if k > 0 { SameSlots(nodes, nodes', k - 1); }
  }

  /** The loop of Grow collects what it needs: the bits beyond the disk are never reached. */
  lemma GrowCollects(fs: Fs, i: int, newSize: int) returns (r: Alloc)
    requires Inv(fs) && Live(fs, i) && fs.nodes[i].value.fileSize < newSize <= MAX_FILE_SIZE
    requires BlocksFor(newSize) - fs.nodes[i].value.numBlocks <= fs.super.freeBlocks
    ensures var fs1 := ClearTail(fs, i, newSize); var n := fs.nodes[i].value; var a := Alloc(fs.bitMap, fs1.disk.data, n.blocks, true);
      && n.numBlocks <= BlocksFor(newSize) <= MAX_BLOCKS_PER_FILE
      && r == AllocLoop(a, n.numBlocks, BlocksFor(newSize), 0)
      && Collected(a, r, n.numBlocks, BlocksFor(newSize), 0)
      && Zeros(r.bitMap, 0, fs.super.diskBlocks) == fs.super.freeBlocks - (BlocksFor(newSize) - n.numBlocks)
  {
    hide Content, ByteAt, ClearTail;
    var fs1 := ClearTail(fs, i, newSize);
    var n := fs.nodes[i].value;
    BlocksMonotone(n.fileSize, newSize);
    var a := Alloc(fs.bitMap, fs1.disk.data, n.blocks, true);
    AllocCollects(a, n.numBlocks, BlocksFor(newSize), 0);
    r := AllocLoop(a, n.numBlocks, BlocksFor(newSize), 0);
  }

  /** The node after a successful growth, with the blocks that the loop collected. */
  function Grown(n: Node, r: Alloc, newSize: int, now: int): Node
    requires 0 <= newSize
  {
    n.(numBlocks := BlocksFor(newSize), blocks := r.blocks, fileSize := newSize, mtime := now)
  }

  /** The state after a successful growth. */
  lemma GrowShape(fs: Fs, i: int, newSize: int, now: int, r: Alloc)
    requires Inv(fs) && Live(fs, i) && fs.nodes[i].value.fileSize < newSize <= MAX_FILE_SIZE
    requires var n := fs.nodes[i].value; var fs1 := ClearTail(fs, i, newSize);
      && BlocksFor(newSize) - n.numBlocks <= fs.super.freeBlocks
      && n.numBlocks <= BlocksFor(newSize) <= |n.blocks|
      && r == AllocLoop(Alloc(fs.bitMap, fs1.disk.data, n.blocks, true), n.numBlocks, BlocksFor(newSize), 0) && r.ok
    ensures var n := fs.nodes[i].value;
      Grow(fs, i, newSize, now)
      == (Store(fs, i, Grown(n, r, newSize, now), fs.super.freeBlocks - (BlocksFor(newSize) - n.numBlocks), r.bitMap, r.data), 0)
  {
    hide AllocLoop, ClearTail, AllocOk, DirOk, Synced, NodesOk;
    var n := fs.nodes[i].value;
    var n0 := n.(numBlocks := BlocksFor(newSize), blocks := r.blocks);
    assert fs.nodes[i := Some(n0)][i := Some(Grown(n, r, newSize, now))] == fs.nodes[i := Some(Grown(n, r, newSize, now))];
  }

  /** The blocks that were collected belonged to nobody, so the other files keep their bytes. */
  lemma GrownOthers(fs: Fs, i: int, a: Alloc, r: Alloc, cur: int, target: int)
    requires Inv(fs) && |a.data| == |fs.disk.data| && OthersData(fs, a.data, i)
    requires a.bitMap == fs.bitMap && Collected(a, r, cur, target, 0)
    ensures OthersData(fs, r.data, i)
  {
    hide DirOk, Synced, NodesOk;
  }

  /** The grown file: the old bytes are in the old blocks, the rest of the last old block was cleared, and the new
      blocks are zero blocks. */
  lemma GrownContent(n: Node, n1: Node, a: Alloc, r: Alloc, newSize: int, bitMap: seq<int>)
    requires DataOk(a.data) && DataOk(r.data) && |r.data| == |a.data| && NodeOk(n, |a.data|) && NodeOk(n1, |a.data|)
    requires n.fileSize < newSize == n1.fileSize && n1.blocks == r.blocks && a.blocks == n.blocks
    requires n.numBlocks <= n1.numBlocks && Collected(a, r, n.numBlocks, n1.numBlocks, 0)
    requires forall k :: 0 <= k < n.numBlocks ==> a.bitMap[n.blocks[k]] == 1
    requires forall p :: n.fileSize <= p < newSize && p < n.numBlocks * BLOCK_SIZE ==> ByteAt(a.data, n, p) == 0
    ensures Content(r.data, n1) == Resized(Content(a.data, n), newSize)
  {
    forall p | 0 <= p < newSize
      ensures ByteAt(r.data, n1, p) == (if p < n.fileSize then ByteAt(a.data, n, p) else 0)
    {
      InBlock(n1, p);
      var k := p / BLOCK_SIZE;
      if k < n.numBlocks {
        assert r.data[n.blocks[k]] == a.data[n.blocks[k]];
        assert p < n.numBlocks * BLOCK_SIZE;
        assert ByteAt(r.data, n1, p) == ByteAt(a.data, n, p);
      } else {
        assert r.data[n1.blocks[k]] == ZeroBlock();
      }
    }
  }

  lemma GrownNodeOk(n: Node, n1: Node, r: Alloc, a: Alloc, diskBlocks: int, newSize: int, now: int)
    requires 0 <= newSize <= MAX_FILE_SIZE && NodeOk(n, diskBlocks) && n1 == Grown(n, r, newSize, now) && n.numBlocks <= n1.numBlocks
    requires |a.data| == diskBlocks && a.blocks == n.blocks && Collected(a, r, n.numBlocks, n1.numBlocks, 0)
    requires |a.bitMap| >= FIRST_DATA && forall b :: 0 <= b < FIRST_DATA ==> a.bitMap[b] == 1
    ensures NodeOk(n1, diskBlocks)
  {
  }

  /** Growing with enough free blocks extends the file with zeros. */
  lemma GrowOk(fs: Fs, i: int, newSize: int, now: int)
    requires Inv(fs) && Live(fs, i) && fs.nodes[i].value.fileSize < newSize <= MAX_FILE_SIZE
    requires BlocksFor(newSize) - fs.nodes[i].value.numBlocks <= fs.super.freeBlocks
    ensures var (fs', code) := Grow(fs, i, newSize, now);
      code == 0 && FileBecomes(fs, fs', i, Resized(FileOf(fs, i), newSize))
  {
    hide Content, ByteAt, BlocksFor, AllocLoop, ClearTail, Resized, Collected, Store, FileBecomes, Grow, DataOk, AllocOk, DirOk, Synced, NodesOk, NodeOk, OthersData;
    var n := fs.nodes[i].value;
    ClearTailOk(fs, i, newSize);
    var r := GrowCollects(fs, i, newSize);
    CollectedEnds(Alloc(fs.bitMap, ClearTail(fs, i, newSize).disk.data, n.blocks, true), r, n.numBlocks, BlocksFor(newSize));
    GrowShape(fs, i, newSize, now, r);
    GrownOk(fs, i, newSize, now, ClearTail(fs, i, newSize).disk.data, r);
  }

  lemma CollectedEnds(a: Alloc, r: Alloc, cur: int, target: int)
    requires Collected(a, r, cur, target, 0)
    ensures r.ok && 0 <= cur <= target <= |a.blocks| && |r.data| == |a.data| && |r.bitMap| == |a.bitMap| && |r.blocks| == |a.blocks|
  {
  }

  lemma GrownOk(fs: Fs, i: int, newSize: int, now: int, data: seq<Block>, r: Alloc)
    requires Inv(fs) && Live(fs, i) && fs.nodes[i].value.fileSize < newSize <= MAX_FILE_SIZE
    requires |data| == |fs.disk.data| && DataOk(data) && OthersData(fs, data, i)
    requires Content(data, fs.nodes[i].value) == FileOf(fs, i)
    requires forall p :: fs.nodes[i].value.fileSize <= p < newSize && p < fs.nodes[i].value.numBlocks * BLOCK_SIZE ==>
               ByteAt(data, fs.nodes[i].value, p) == 0
    requires var n := fs.nodes[i].value;
      && n.numBlocks <= BlocksFor(newSize)
      && Collected(Alloc(fs.bitMap, data, n.blocks, true), r, n.numBlocks, BlocksFor(newSize), 0) && DataOk(r.data)
      && Zeros(r.bitMap, 0, fs.super.diskBlocks) == fs.super.freeBlocks - (BlocksFor(newSize) - n.numBlocks)
    ensures var n := fs.nodes[i].value; var n1 := Grown(n, r, newSize, now);
      FileBecomes(fs, Store(fs, i, n1, fs.super.freeBlocks - (BlocksFor(newSize) - n.numBlocks), r.bitMap, r.data), i,
                  Resized(FileOf(fs, i), newSize))
  {
    hide Content, ByteAt, BlocksFor, DirOk, Synced, Resized, Store, FileBecomes, DataOk, NodeOk, OthersData, Collected;
    var n := fs.nodes[i].value;
    var n1 := Grown(n, r, newSize, now);
    var a := Alloc(fs.bitMap, data, n.blocks, true);
    CollectedEnds(a, r, n.numBlocks, n1.numBlocks);
    GrownNodeOk(n, n1, r, a, fs.super.diskBlocks, newSize, now);
    OwnBits(fs, i);
    GrownContent(n, n1, a, r, newSize, fs.bitMap);
    GrownOthers(fs, i, a, r, n.numBlocks, n1.numBlocks);
    GrownAllocOk(fs.nodes, i, n1, a, r, fs.super.diskBlocks, fs.super.freeBlocks, n1.numBlocks);
    StoreOk(fs, i, n1, fs.super.freeBlocks - (BlocksFor(newSize) - n.numBlocks), r.bitMap, r.data);
  }

  lemma OwnBits(fs: Fs, i: int)
    requires Inv(fs) && 0 <= i < |fs.nodes| && fs.nodes[i].Some?
    ensures NodeOk(fs.nodes[i].value, fs.super.diskBlocks)
    ensures var n := fs.nodes[i].value;
      forall k :: 0 <= k < n.numBlocks ==> fs.bitMap[n.blocks[k]] == 1
    ensures var n := fs.nodes[i].value;
      forall k, l :: 0 <= k < l < n.numBlocks ==> n.blocks[k] != n.blocks[l]
  {
    hide DirOk, Synced;
    var n := fs.nodes[i].value;
    forall k | 0 <= k < n.numBlocks ensures Owns(fs.nodes, i, k, n.blocks[k]) {}
  }

  /** A growth that is refused leaves every file, the bitmap and the counter as they were, although the tail of the
      last block has been rewritten. */
  lemma GrowRefused(fs: Fs, i: int, newSize: int, now: int)
    requires Inv(fs) && Live(fs, i) && fs.nodes[i].value.fileSize < newSize <= MAX_FILE_SIZE
    requires BlocksFor(newSize) - fs.nodes[i].value.numBlocks > fs.super.freeBlocks
    ensures var (fs', code) := Grow(fs, i, newSize, now);
      code == -ENOSPC && FileBecomes(fs, fs', i, FileOf(fs, i)) && fs' == DataOnly(fs, fs'.disk.data)
  {
    hide Content, ByteAt, BlocksFor, AllocLoop, ClearTail, FileBecomes;
    ClearTailOk(fs, i, newSize);
    DataOnlyOk(fs, ClearTail(fs, i, newSize).disk.data, i);
  }

  // ---------------------------------------------------------------- shrinking

  /** The allocator after the last blocks of inode i have been given back. */
  lemma ShrunkAllocOk(nodes: seq<Option<Node>>, i: int, n1: Node, bitMap: seq<int>, bitMap1: seq<int>, diskBlocks: int, free: int)
    requires 0 <= i < |nodes| && nodes[i].Some? && AllocOk(nodes, bitMap, diskBlocks, free)
    requires var n := nodes[i].value;
      && n1.blocks == n.blocks && 0 <= n1.numBlocks <= n.numBlocks <= |n.blocks| && |bitMap1| == |bitMap|
      && (forall k :: n1.numBlocks <= k < n.numBlocks ==> 0 <= n.blocks[k] < |bitMap| && bitMap1[n.blocks[k]] == 0)
      && (forall b :: 0 <= b < |bitMap| && (forall k :: n1.numBlocks <= k < n.numBlocks ==> n.blocks[k] != b) ==> bitMap1[b] == bitMap[b])
      && Zeros(bitMap1, 0, diskBlocks) == free + (n.numBlocks - n1.numBlocks)
    ensures AllocOk(nodes[i := Some(n1)], bitMap1, diskBlocks, free + (nodes[i].value.numBlocks - n1.numBlocks))
  {
    var n := nodes[i].value;
    var nodes' := nodes[i := Some(n1)];
    forall k | n1.numBlocks <= k < n.numBlocks ensures Owns(nodes, i, k, n.blocks[k]) {}
    forall j, k, b | Owns(nodes', j, k, b) ensures Owns(nodes, j, k, b) && FIRST_DATA <= b < diskBlocks && bitMap1[b] == 1 {
      assert Owns(nodes, j, k, b);
      if l :| n1.numBlocks <= l < n.numBlocks && n.blocks[l] == b {
        assert false;
      }
    }
    forall b | FIRST_DATA <= b < |bitMap1| && bitMap1[b] == 1 ensures exists j, k :: Owns(nodes', j, k, b) {
      assert bitMap[b] == 1;
      var j, k :| Owns(nodes, j, k, b);
      if j == i && k >= n1.numBlocks {
        assert false;
      }
      assert Owns(nodes', j, k, b);
    }
    forall b | 0 <= b < |bitMap| ensures bitMap1[b] == bitMap[b] || (bitMap1[b] == 0 && FIRST_DATA <= b) {
      if k :| n1.numBlocks <= k < n.numBlocks && n.blocks[k] == b {
        assert Owns(nodes, i, k, b);
      }
    }
  }

  lemma ShrunkContent(data: seq<Block>, data1: seq<Block>, n: Node, n1: Node)
    requires DataOk(data) && DataOk(data1) && |data1| == |data| && NodeOk(n, |data|) && NodeOk(n1, |data|)
    requires n1.blocks == n.blocks && n1.fileSize < n.fileSize && n1.numBlocks <= n.numBlocks
    requires forall k :: 0 <= k < n1.numBlocks ==> data1[n.blocks[k]] == data[n.blocks[k]]
    ensures Content(data1, n1) == Resized(Content(data, n), n1.fileSize)
  {
    forall p | 0 <= p < n1.fileSize ensures ByteAt(data1, n1, p) == ByteAt(data, n, p) {
      InBlock(n1, p);
    }
  }

  function Shrunk(n: Node, newSize: int, now: int): Node
    requires 0 <= newSize
  {
    n.(numBlocks := BlocksFor(newSize), fileSize := newSize, mtime := now)
  }

  lemma ShrinkFrees(fs: Fs, i: int, newSize: int)
    requires Inv(fs) && Live(fs, i) && 0 <= newSize < fs.nodes[i].value.fileSize
    ensures var n := fs.nodes[i].value; var keep := BlocksFor(newSize);
      && keep <= n.numBlocks
      && var r := FreeLoop(fs.bitMap, fs.disk.data, n.blocks, n.numBlocks, keep);
      && (forall k :: keep <= k < n.numBlocks ==> r.0[n.blocks[k]] == 0)
      && (forall b :: 0 <= b < |fs.bitMap| && (forall k :: keep <= k < n.numBlocks ==> n.blocks[k] != b) ==> r.0[b] == fs.bitMap[b])
      && Zeros(r.0, 0, fs.super.diskBlocks) == fs.super.freeBlocks + (n.numBlocks - keep)
      && OthersData(fs, r.1, i)
      && (forall k :: 0 <= k < keep ==> r.1[n.blocks[k]] == fs.disk.data[n.blocks[k]])
  {
    hide DirOk, Synced, BlocksFor;
    var n := fs.nodes[i].value;
    BlocksMonotone(newSize, n.fileSize);
    OwnBits(fs, i);
    FreeLoopEffect(fs.bitMap, fs.disk.data, n.blocks, n.numBlocks, BlocksFor(newSize));
    forall k | 0 <= k < n.numBlocks ensures Owns(fs.nodes, i, k, n.blocks[k]) {}
  }

  /** Shrinking cuts the file. */
  lemma ShrinkOk(fs: Fs, i: int, newSize: int, now: int)
    requires Inv(fs) && Live(fs, i) && 0 <= newSize < fs.nodes[i].value.fileSize
    ensures FileBecomes(fs, Shrink(fs, i, newSize, now), i, Resized(FileOf(fs, i), newSize))
  {
    hide Content, ByteAt, BlocksFor, DirOk, Synced, Resized, FileBecomes, DataOk, OthersData, FreeLoop;
    var n := fs.nodes[i].value;
    var n1 := Shrunk(n, newSize, now);
    ShrinkFrees(fs, i, newSize);
    var r := FreeLoop(fs.bitMap, fs.disk.data, n.blocks, n.numBlocks, n1.numBlocks);
    ShrunkContent(fs.disk.data, r.1, n, n1);
    ShrunkAllocOk(fs.nodes, i, n1, fs.bitMap, r.0, fs.super.diskBlocks, fs.super.freeBlocks);
    StoreOk(fs, i, n1, fs.super.freeBlocks + (n.numBlocks - n1.numBlocks), r.0, r.1);
    assert Shrink(fs, i, newSize, now) == Store(fs, i, n1, fs.super.freeBlocks + (n.numBlocks - n1.numBlocks), r.0, r.1);
  }

  // ---------------------------------------------------------------- resizeNode

  /** The blocks that a file of `size` bytes would need on top of those it has. */
  function Extra(fs: Fs, i: int, size: int): int
    requires 0 <= size && 0 <= i < |fs.nodes| && fs.nodes[i].Some?
  {
    BlocksFor(size) - fs.nodes[i].value.numBlocks
  }

  /** `resizeNode` succeeds exactly when the free blocks suffice, and then the file has its old contents, cut or
      extended with zeros; otherwise it reports the lack of space and every file keeps its contents. */
  lemma ResizeOk(fs: Fs, i: int, newSize: int, now: int)
    requires Inv(fs) && 0 <= i < |fs.nodes| && fs.nodes[i].Some? && 0 <= newSize <= MAX_FILE_SIZE
    ensures Live(fs, i)
    ensures var (fs', code) := Resize(fs, i, newSize, now);
      if Extra(fs, i, newSize) <= fs.super.freeBlocks
      then code == 0 && FileBecomes(fs, fs', i, Resized(FileOf(fs, i), newSize))
      else code == -ENOSPC && FileBecomes(fs, fs', i, FileOf(fs, i)) && fs' == DataOnly(fs, fs'.disk.data)
  {
    hide Content, ByteAt, BlocksFor, DirOk, Synced, AllocOk, Grow, Shrink, FileBecomes;
    var size := fs.nodes[i].value.fileSize;
    if newSize == size {
      ResizeNothing(fs, i);
    } else if newSize > size {
      if Extra(fs, i, newSize) <= fs.super.freeBlocks { GrowOk(fs, i, newSize, now); } else { GrowRefused(fs, i, newSize, now); }
    } else {
      BlocksMonotone(newSize, size);
      FreeCountNat(fs);
      ShrinkOk(fs, i, newSize, now);
    }
  }

  lemma ResizeNothing(fs: Fs, i: int)
    requires Inv(fs) && 0 <= i < |fs.nodes| && fs.nodes[i].Some?
    ensures Resized(FileOf(fs, i), fs.nodes[i].value.fileSize) == FileOf(fs, i)
    ensures FileBecomes(fs, fs, i, FileOf(fs, i))
    ensures Extra(fs, i, fs.nodes[i].value.fileSize) <= fs.super.freeBlocks
  {
    hide Content, ByteAt, DirOk, Synced;
  }

  lemma FreeCountNat(fs: Fs)
    requires Inv(fs)
    ensures fs.super.freeBlocks >= 0
  {
    hide DirOk, Synced, NodesOk;
  }
}
