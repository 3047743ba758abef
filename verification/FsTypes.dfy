/** Values of the block file system: inodes, directory, superblock, and the virtual disk as typed regions. */
module FsTypes {
  import opened Basics

  const BLOCK_SIZE := 4096
  /** BLOCK_SIZE_BYTES / sizeof(unsigned): the bitmap spends one unsigned per block. */
  const NUM_BITS := 1024
  const MAX_BLOCKS_WITH_NODES := 5
  const MAX_BLOCKS_PER_FILE := 100
  const MAX_FILES := 100
  const MAX_LEN_FILE_NAME := 15
  /** sizeof(NodeStruct) on LP64: 4 + 4 + 2 (+ 6) + 8 + 400 + 4 (+ 4). */
  const NODE_SIZE := 432
  const NODES_PER_BLOCK := BLOCK_SIZE / NODE_SIZE
  const MAX_NODES := NODES_PER_BLOCK * MAX_BLOCKS_WITH_NODES
  const NODES_IDX := 3
  /** Superblock, bitmap, directory and the inode blocks come first. */
  const FIRST_DATA := NODES_IDX + MAX_BLOCKS_WITH_NODES
  const MAX_FILE_SIZE := MAX_BLOCKS_PER_FILE * BLOCK_SIZE

  type Block = seq<Byte>

  datatype Node = Node(numBlocks: int, fileSize: int, tipo: int, mtime: int, blocks: seq<int>, free: bool)

  datatype Entry = Entry(nodeIdx: int, name: string, free: bool)

  datatype Directory = Directory(numFiles: int, files: seq<Entry>)

  datatype Super = Super(ctime: int, diskBlocks: int, freeBlocks: int, blockSize: int, maxName: int, maxBlocks: int)

  /** The virtual disk; `data[b]` for b below FIRST_DATA is shadowed by the typed regions. */
  datatype Disk = Disk(super: Super, bitMap: seq<int>, dir: Directory, inodes: seq<Node>, data: seq<Block>)

  /** MyFileSystem in memory, together with its disk. */
  datatype Fs = Fs(super: Super, bitMap: seq<int>, dir: Directory, nodes: seq<Option<Node>>, numFreeNodes: int, disk: Disk)

  /** The error numbers that the operations return, negated. */
  const EIO := 5
  const ENOENT := 2
  const EEXIST := 17
  const ENOSPC := 28
  const ENAMETOOLONG := 36

  function ZeroBlock(): (b: Block)
    ensures |b| == BLOCK_SIZE
  {
    seq(BLOCK_SIZE, _ => 0)
  }

  /** Blocks needed for `size` bytes. */
  function BlocksFor(size: int): (n: int)
    requires size >= 0
    ensures n >= 0 && (n - 1) * BLOCK_SIZE < size <= n * BLOCK_SIZE
  {
    (size + BLOCK_SIZE - 1) / BLOCK_SIZE
  }

  function Min(a: int, b: int): int {
    if a < b then a else b
  }

  // ---------------------------------------------------------------- where the inodes are

  /** `findNodeByPos` */
  function NodePos(i: int): int
    requires 0 <= i
  {
    (NODES_IDX + i / NODES_PER_BLOCK) * BLOCK_SIZE + i % NODES_PER_BLOCK * NODE_SIZE
  }

  /** The inode slots are disjoint and stay inside the inode blocks, which justifies the typed regions. */
  lemma NodeSlots(i: int, j: int)
    requires 0 <= i < MAX_NODES && 0 <= j < MAX_NODES && i != j
    ensures NODES_IDX * BLOCK_SIZE <= NodePos(i) && NodePos(i) + NODE_SIZE <= FIRST_DATA * BLOCK_SIZE
    ensures NodePos(i) + NODE_SIZE <= NodePos(j) || NodePos(j) + NODE_SIZE <= NodePos(i)
    ensures NodePos(i) / BLOCK_SIZE == (NodePos(i) + NODE_SIZE - 1) / BLOCK_SIZE
  {
    hide NodePos;
    var a, b := SlotOf(i);
    var c, d := SlotOf(j);
    assert a == c ==> b != d;
  }

  /** Inode i is the b-th of the a-th inode block. */
  lemma SlotOf(i: int) returns (a: int, b: int)
    requires 0 <= i < MAX_NODES
    ensures i == 9 * a + b && 0 <= a < MAX_BLOCKS_WITH_NODES && 0 <= b < 9
    ensures NodePos(i) == (NODES_IDX + a) * BLOCK_SIZE + b * NODE_SIZE
    ensures NodePos(i) / BLOCK_SIZE == (NodePos(i) + NODE_SIZE - 1) / BLOCK_SIZE == NODES_IDX + a
  {
    assert NODES_PER_BLOCK == 9;
    a, b := i / 9, i % 9;
    var k := NODES_IDX + a;
    assert 0 <= b * NODE_SIZE && b * NODE_SIZE + NODE_SIZE <= 9 * NODE_SIZE <= BLOCK_SIZE;
    InBlockK(k, b * NODE_SIZE);
    InBlockK(k, b * NODE_SIZE + NODE_SIZE - 1);
  }

  lemma InBlockK(k: int, o: int)
    requires 0 <= o < BLOCK_SIZE
    ensures (k * BLOCK_SIZE + o) / BLOCK_SIZE == k && (k * BLOCK_SIZE + o) % BLOCK_SIZE == o
  {
  }
}
