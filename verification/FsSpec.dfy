/** What each file system operation does to memory and disk, as functions on values. The methods of module
    FsMachine are proved to compute exactly these functions. */
module FsSpec {
  import opened Basics
  import opened FsTypes

  predicate DataOk(data: seq<Block>) {
    forall b :: 0 <= b < |data| ==> |data[b]| == BLOCK_SIZE
  }

  /** The fixed sizes of the structures. */
  ghost predicate Shape(fs: Fs) {
    && |fs.bitMap| == NUM_BITS
    && FIRST_DATA < fs.super.diskBlocks < NUM_BITS
    && |fs.disk.data| == fs.super.diskBlocks && DataOk(fs.disk.data)
    && |fs.dir.files| == MAX_FILES
    && |fs.nodes| == MAX_NODES && |fs.disk.inodes| == MAX_NODES
  }

  /** The node of a file, as far as its own fields tell. */
  ghost predicate NodeOk(n: Node, diskBlocks: int) {
    && !n.free && |n.blocks| == MAX_BLOCKS_PER_FILE
    && 0 <= n.fileSize <= MAX_FILE_SIZE
    && n.numBlocks == BlocksFor(n.fileSize)
    && forall k :: 0 <= k < n.numBlocks ==> FIRST_DATA <= n.blocks[k] < diskBlocks
  }

  ghost predicate Live(fs: Fs, i: int) {
    0 <= i < |fs.nodes| && fs.nodes[i].Some? && NodeOk(fs.nodes[i].value, fs.super.diskBlocks)
  }

  // ---------------------------------------------------------------- resizeNode

  /** `block` with `count` bytes from `off` on set to zero. */
  function ZeroRange(block: Block, off: int, count: int): (r: Block)
    ensures |r| == |block|
  {
    seq(|block|, j requires 0 <= j < |block| => if off <= j < off + count then 0 else block[j])
  }

  /** The state of the allocation loop; `ok` is cleared when a block outside the disk would be written. */
  datatype Alloc = Alloc(bitMap: seq<int>, data: seq<Block>, blocks: seq<int>, ok: bool)

  /** The first-fit loop of `resizeNode`: from bit i on, until `target` blocks have been collected. */
  function AllocLoop(a: Alloc, cur: int, target: int, i: int): (r: Alloc)
    requires 0 <= cur <= target <= |a.blocks| && 0 <= i && DataOk(a.data)
    ensures |r.bitMap| == |a.bitMap| && |r.data| == |a.data| && |r.blocks| == |a.blocks| && DataOk(r.data)
    decreases |a.bitMap| - i
  {
    if cur == target || !a.ok then a
    else if i >= |a.bitMap| then a.(ok := false)
    else if a.bitMap[i] != 0 then AllocLoop(a, cur, target, i + 1)
    else
      var a1 := a.(bitMap := a.bitMap[i := 1], blocks := a.blocks[cur := i]);
      if i < |a.data| then AllocLoop(a1.(data := a.data[i := ZeroBlock()]), cur + 1, target, i + 1)
      else a1.(ok := false)
  }

  /** The shrinking loop: blocks i-1 down to `keep` are freed and cleaned. */
  function FreeLoop(bitMap: seq<int>, data: seq<Block>, blocks: seq<int>, i: int, keep: int): (r: (seq<int>, seq<Block>))
    requires 0 <= keep <= i <= |blocks| && DataOk(data)
    requires forall k :: keep <= k < i ==> 0 <= blocks[k] < |data| && blocks[k] < |bitMap|
    ensures |r.0| == |bitMap| && |r.1| == |data| && DataOk(r.1)
    decreases i
  {
    if i == keep then (bitMap, data)
    else
      var b := blocks[i - 1];
      FreeLoop(bitMap[b := 0], data[b := ZeroBlock()], blocks, i - 1, keep)
  }

  function SetNode(fs: Fs, i: int, n: Node): Fs
    requires 0 <= i < |fs.nodes|
  {
    fs.(nodes := fs.nodes[i := Some(n)])
  }

  /** `updateSuperBlock`, `updateBitmap` and `updateNode`. */
  function WriteBack(fs: Fs, i: int): Fs
    requires 0 <= i < |fs.nodes| && fs.nodes[i].Some? && i < |fs.disk.inodes|
  {
    fs.(disk := fs.disk.(super := fs.super, bitMap := fs.bitMap,
                         inodes := fs.disk.inodes[i := fs.nodes[i].value]))
  }

  /** "Delete the extra content of the last block": bytes after the end of the file become zero. */
  function ClearTail(fs: Fs, i: int, newSize: int): (r: Fs)
    requires Shape(fs) && Live(fs, i) && fs.nodes[i].value.fileSize < newSize
    ensures r == fs.(disk := fs.disk.(data := r.disk.data)) && |r.disk.data| == |fs.disk.data| && DataOk(r.disk.data)
  {
    var n := fs.nodes[i].value;
    if n.numBlocks == 0 || n.fileSize % BLOCK_SIZE == 0 then fs
    else
      var b := n.blocks[n.numBlocks - 1];
      var off := n.fileSize % BLOCK_SIZE;
      var count := Min(newSize - n.fileSize, BLOCK_SIZE - off);
      fs.(disk := fs.disk.(data := fs.disk.data[b := ZeroRange(fs.disk.data[b], off, count)]))
  }

  /** The growing half of `resizeNode`. */
  function Grow(fs: Fs, i: int, newSize: int, now: int): (r: (Fs, int))
    requires Shape(fs) && Live(fs, i) && fs.nodes[i].value.fileSize < newSize <= MAX_FILE_SIZE
  {
    var n := fs.nodes[i].value;
    var fs1 := ClearTail(fs, i, newSize);
    var newBlocks := BlocksFor(newSize) - n.numBlocks;
    if newBlocks > fs.super.freeBlocks then (fs1, -ENOSPC)
    else
      BlocksMonotone(n.fileSize, newSize);
      var a := AllocLoop(Alloc(fs1.bitMap, fs1.disk.data, n.blocks, true), n.numBlocks, n.numBlocks + newBlocks, 0);
      var n1 := n.(numBlocks := n.numBlocks + newBlocks, blocks := a.blocks);
      var fs2 := SetNode(fs1.(super := fs1.super.(freeBlocks := fs1.super.freeBlocks - newBlocks), bitMap := a.bitMap,
                              disk := fs1.disk.(data := a.data)), i, n1);
      if !a.ok then (fs2, -EIO)
      else (WriteBack(SetNode(fs2, i, n1.(fileSize := newSize, mtime := now)), i), 0)
  }

  lemma BlocksMonotone(a: int, b: int)
    requires 0 <= a <= b
    ensures BlocksFor(a) <= BlocksFor(b)
    ensures b <= MAX_FILE_SIZE ==> BlocksFor(b) <= MAX_BLOCKS_PER_FILE
  {
  }

  /** The shrinking half of `resizeNode`. */
  function Shrink(fs: Fs, i: int, newSize: int, now: int): (r: Fs)
    requires Shape(fs) && Live(fs, i) && 0 <= newSize < fs.nodes[i].value.fileSize
  {
    var n := fs.nodes[i].value;
    BlocksMonotone(newSize, n.fileSize);
    var keep := BlocksFor(newSize);
    var (bitMap, data) := FreeLoop(fs.bitMap, fs.disk.data, n.blocks, n.numBlocks, keep);
    WriteBack(SetNode(fs.(super := fs.super.(freeBlocks := fs.super.freeBlocks + n.numBlocks - keep),
                          bitMap := bitMap, disk := fs.disk.(data := data)),
                      i, n.(numBlocks := keep, fileSize := newSize, mtime := now)), i)
  }

  /** `resizeNode` */
  function Resize(fs: Fs, i: int, newSize: int, now: int): (r: (Fs, int))
    requires Shape(fs) && Live(fs, i) && 0 <= newSize <= MAX_FILE_SIZE
  {
    var size := fs.nodes[i].value.fileSize;
    if newSize == size then (fs, 0)
    else if newSize > size then Grow(fs, i, newSize, now)
    else (Shrink(fs, i, newSize, now), 0)
  }

  // ---------------------------------------------------------------- my_write

  /** `block` with `bytes` from `off` on. */
  function Overwrite(block: Block, off: int, bytes: seq<Byte>): (r: Block)
    requires 0 <= off && off + |bytes| <= |block|
    ensures |r| == |block|
  {
    block[..off] + bytes + block[off + |bytes|..]
  }

  /** The loop of `my_write`: the bytes of buf go to the blocks of the file, from offset `off` on. */
  function WriteLoop(data: seq<Block>, blocks: seq<int>, buf: seq<Byte>, off: int): (r: seq<Block>)
    requires DataOk(data) && 0 <= off && off + |buf| <= |blocks| * BLOCK_SIZE
    requires forall k :: 0 <= k < |blocks| ==> 0 <= blocks[k] < |data|
    ensures |r| == |data| && DataOk(r)
    decreases |buf|
  {
    if buf == [] then data
    else
      var b := blocks[off / BLOCK_SIZE];
      var offBlock := off % BLOCK_SIZE;
      var count := Min(BLOCK_SIZE - offBlock, |buf|);
      WriteLoop(data[b := Overwrite(data[b], offBlock, buf[..count])], blocks, buf[count..], off + count)
  }
}
