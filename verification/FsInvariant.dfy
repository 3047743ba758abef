/** The invariant of the file system, and the contents it gives to the files. */
module FsInvariant {
  import opened Basics
  import opened FsTypes
  import opened FsSpec

  /** Zero bits in [lo, hi). */
  function Zeros(bitMap: seq<int>, lo: int, hi: int): (n: int)
    requires 0 <= lo && hi <= |bitMap|
    ensures 0 <= n && (lo <= hi ==> n <= hi - lo)
    decreases hi - lo
  {
    if lo >= hi then 0 else (if bitMap[lo] == 0 then 1 else 0) + Zeros(bitMap, lo + 1, hi)
  }

  /** Block b is the k-th block of inode i. */
  ghost predicate Owns(nodes: seq<Option<Node>>, i: int, k: int, b: int) {
    && 0 <= i < |nodes| && nodes[i].Some?
    && 0 <= k < nodes[i].value.numBlocks && k < |nodes[i].value.blocks|
    && nodes[i].value.blocks[k] == b
  }

  /** The allocator: set bits are exactly the metadata blocks and the blocks of the files, no block belongs to two
      places, and the redundant counter counts the zero bits of the disk. */
  ghost predicate AllocOk(nodes: seq<Option<Node>>, bitMap: seq<int>, diskBlocks: int, freeBlocks: int) {
    && |bitMap| == NUM_BITS && 0 <= diskBlocks <= |bitMap|
    && (forall b :: 0 <= b < |bitMap| ==> bitMap[b] == 0 || bitMap[b] == 1)
    && (forall b :: 0 <= b < FIRST_DATA ==> bitMap[b] == 1)
    && (forall i, k, b :: Owns(nodes, i, k, b) ==> FIRST_DATA <= b < diskBlocks && bitMap[b] == 1)
    && (forall i, k, j, l, b :: Owns(nodes, i, k, b) && Owns(nodes, j, l, b) ==> i == j && k == l)
    && (forall b :: FIRST_DATA <= b < |bitMap| && bitMap[b] == 1 ==> exists i, k :: Owns(nodes, i, k, b))
    && freeBlocks == Zeros(bitMap, 0, diskBlocks)
  }

  ghost predicate NodesOk(nodes: seq<Option<Node>>, diskBlocks: int) {
    forall i :: 0 <= i < |nodes| && nodes[i].Some? ==> NodeOk(nodes[i].value, diskBlocks)
  }

  /** Live entries among the first k. */
  function LiveEntries(files: seq<Entry>, k: int): (n: int)
    requires 0 <= k <= |files|
    ensures 0 <= n <= k
  {
    if k == 0 then 0 else LiveEntries(files, k - 1) + (if files[k - 1].free then 0 else 1)
  }

  function FreeSlots(nodes: seq<Option<Node>>, k: int): (n: int)
    requires 0 <= k <= |nodes|
    ensures 0 <= n <= k
  {
    if k == 0 then 0 else FreeSlots(nodes, k - 1) + (if nodes[k - 1].None? then 1 else 0)
  }

  ghost predicate EntryLive(files: seq<Entry>, e: int) {
    0 <= e < |files| && !files[e].free
  }

  /** The directory names each inode in use exactly once. */
  ghost predicate DirOk(dir: Directory, nodes: seq<Option<Node>>, numFreeNodes: int) {
    && |dir.files| == MAX_FILES && |nodes| == MAX_NODES
    && (forall e :: EntryLive(dir.files, e) ==>
          && |dir.files[e].name| <= MAX_LEN_FILE_NAME
          && 0 <= dir.files[e].nodeIdx < |nodes| && nodes[dir.files[e].nodeIdx].Some?)
    && (forall e, f :: EntryLive(dir.files, e) && EntryLive(dir.files, f) && e != f ==>
          dir.files[e].name != dir.files[f].name && dir.files[e].nodeIdx != dir.files[f].nodeIdx)
    && (forall i :: 0 <= i < |nodes| && nodes[i].Some? ==> exists e :: EntryLive(dir.files, e) && dir.files[e].nodeIdx == i)
    && dir.numFiles == LiveEntries(dir.files, |dir.files|)
    && numFreeNodes == FreeSlots(nodes, |nodes|)
    && dir.numFiles + numFreeNodes == MAX_NODES
  }

  ghost predicate SuperOk(s: Super) {
    FIRST_DATA < s.diskBlocks < NUM_BITS && s.maxName == MAX_LEN_FILE_NAME
  }

  /** The disk holds what memory holds; `tipo` may differ, since mounting does not copy it. */
  ghost predicate Synced(fs: Fs) {
    && fs.disk.super == fs.super && fs.disk.bitMap == fs.bitMap && fs.disk.dir == fs.dir
    && |fs.disk.inodes| == |fs.nodes| == MAX_NODES
    && (forall i :: 0 <= i < |fs.nodes| ==>
          if fs.nodes[i].None? then fs.disk.inodes[i].free
          else fs.disk.inodes[i].(tipo := fs.nodes[i].value.tipo) == fs.nodes[i].value)
  }

  ghost predicate Inv(fs: Fs) {
    && Shape(fs) && SuperOk(fs.super)
    && NodesOk(fs.nodes, fs.super.diskBlocks)
    && AllocOk(fs.nodes, fs.bitMap, fs.super.diskBlocks, fs.super.freeBlocks)
    && DirOk(fs.dir, fs.nodes, fs.numFreeNodes)
    && Synced(fs)
  }

  /** Byte j of a file. */
  function ByteAt(data: seq<Block>, n: Node, j: int): Byte
    requires DataOk(data) && NodeOk(n, |data|) && 0 <= j < n.numBlocks * BLOCK_SIZE
  {
    data[n.blocks[j / BLOCK_SIZE]][j % BLOCK_SIZE]
  }

  /** The contents of a file. */
  function Content(data: seq<Block>, n: Node): (c: seq<Byte>)
    requires DataOk(data) && NodeOk(n, |data|)
    ensures |c| == n.fileSize
  {
    seq(n.fileSize, j requires 0 <= j < n.fileSize => ByteAt(data, n, j))
  }

  // ---------------------------------------------------------------- counting bits

  lemma {:induction false} ZerosSet(bitMap: seq<int>, b: int, v: int, lo: int, hi: int)
    requires 0 <= lo && hi <= |bitMap| && 0 <= b < |bitMap|
    ensures Zeros(bitMap[b := v], lo, hi)
         == Zeros(bitMap, lo, hi) + (if lo <= b < hi then (if v == 0 then 1 else 0) - (if bitMap[b] == 0 then 1 else 0) else 0)
    decreases hi - lo
  {
    if lo < hi { ZerosSet(bitMap, b, v, lo + 1, hi); }
  }

  lemma {:induction false} ZerosSplit(bitMap: seq<int>, lo: int, mid: int, hi: int)
    requires 0 <= lo <= mid <= hi <= |bitMap|
    ensures Zeros(bitMap, lo, hi) == Zeros(bitMap, lo, mid) + Zeros(bitMap, mid, hi)
    decreases mid - lo
  {
    if lo < mid { ZerosSplit(bitMap, lo + 1, mid, hi); }
  }

  // ---------------------------------------------------------------- the allocation loop

  /** What the first-fit loop has collected: blocks that were free, in ascending order, now marked and clean. */
  ghost predicate Collected(a: Alloc, r: Alloc, cur: int, target: int, i: int) {
    && r.ok && |r.bitMap| == |a.bitMap| && |r.data| == |a.data| && |r.blocks| == |a.blocks|
    && 0 <= cur <= target <= |a.blocks| && |a.data| <= |a.bitMap| && 0 <= i
    && (forall k :: 0 <= k < |a.blocks| && !(cur <= k < target) ==> r.blocks[k] == a.blocks[k])
    && (forall k :: cur <= k < target ==>
          i <= r.blocks[k] < |a.data| && a.bitMap[r.blocks[k]] == 0 && r.bitMap[r.blocks[k]] == 1
          && r.data[r.blocks[k]] == ZeroBlock())
    && (forall k, l :: cur <= k < l < target ==> r.blocks[k] < r.blocks[l])
    && (forall b :: 0 <= b < |a.bitMap| && (forall k :: cur <= k < target ==> r.blocks[k] != b) ==> r.bitMap[b] == a.bitMap[b])
    && (forall b :: 0 <= b < |a.data| && (forall k :: cur <= k < target ==> r.blocks[k] != b) ==> r.data[b] == a.data[b])
  }

  /** If enough bits of the disk are zero from i on, the loop ends inside the disk. */
  lemma {:induction false} AllocCollects(a: Alloc, cur: int, target: int, i: int)
    requires 0 <= cur <= target <= |a.blocks| && 0 <= i && DataOk(a.data) && |a.data| <= |a.bitMap| && a.ok
    requires target - cur <= Zeros(a.bitMap, i, |a.data|)
    ensures Collected(a, AllocLoop(a, cur, target, i), cur, target, i)
    ensures Zeros(AllocLoop(a, cur, target, i).bitMap, 0, |a.data|) == Zeros(a.bitMap, 0, |a.data|) - (target - cur)
    decreases |a.bitMap| - i
  {
    if cur < target {
      if a.bitMap[i] != 0 {
        AllocCollects(a, cur, target, i + 1);
      } else {
        var a1 := Alloc(a.bitMap[i := 1], a.data[i := ZeroBlock()], a.blocks[cur := i], true);
        ZerosSet(a.bitMap, i, 1, i + 1, |a.data|);
        ZerosSet(a.bitMap, i, 1, 0, |a.data|);
        AllocCollects(a1, cur + 1, target, i + 1);
        AllocStep(a, a1, AllocLoop(a1, cur + 1, target, i + 1), cur, target, i);
      }
    }
  }

  lemma AllocStep(a: Alloc, a1: Alloc, r: Alloc, cur: int, target: int, i: int)
    requires 0 <= cur < target <= |a.blocks| && 0 <= i < |a.data| <= |a.bitMap| && a.bitMap[i] == 0
    requires a1 == Alloc(a.bitMap[i := 1], a.data[i := ZeroBlock()], a.blocks[cur := i], true)
    requires Collected(a1, r, cur + 1, target, i + 1)
    ensures Collected(a, r, cur, target, i)
  {
    assert r.blocks[cur] == i;
    assert forall k :: cur + 1 <= k < target ==> r.blocks[k] != i;
    assert r.bitMap[i] == a1.bitMap[i] == 1 && r.data[i] == a1.data[i];
    forall b | 0 <= b < |a.bitMap| && (forall k :: cur <= k < target ==> r.blocks[k] != b)
      ensures r.bitMap[b] == a.bitMap[b] && (b < |a.data| ==> r.data[b] == a.data[b])
    {
      assert b != i;
    }
  }

  /** No free block from i on, below a collected one, has been passed over. */
  ghost predicate FirstFit(r: Alloc, cur: int, target: int, i: int) {
    && 0 <= cur <= target <= |r.blocks| && 0 <= i
    && forall k, b :: cur <= k < target && i <= b < r.blocks[k] && b < |r.bitMap| ==> r.bitMap[b] != 0
  }

  lemma FirstSkip(a: Alloc, r: Alloc, cur: int, target: int, i: int)
    requires Collected(a, r, cur, target, i + 1) && 0 <= i < |a.bitMap| && a.bitMap[i] != 0 && FirstFit(r, cur, target, i + 1)
    ensures FirstFit(r, cur, target, i)
  {
    assert forall k :: cur <= k < target ==> r.blocks[k] != i;
  }

  lemma FirstTake(a: Alloc, r: Alloc, cur: int, target: int, i: int)
    requires Collected(a, r, cur + 1, target, i + 1) && 0 <= cur && 0 <= i < |a.bitMap| && a.bitMap[i] != 0 && a.blocks[cur] == i
    requires FirstFit(r, cur + 1, target, i + 1)
    ensures FirstFit(r, cur, target, i)
  {
    assert forall k :: cur + 1 <= k < target ==> r.blocks[k] != i;
  }

  lemma {:induction false} AllocFirst(a: Alloc, cur: int, target: int, i: int)
    requires 0 <= cur <= target <= |a.blocks| && 0 <= i && DataOk(a.data) && |a.data| <= |a.bitMap| && a.ok
    requires target - cur <= Zeros(a.bitMap, i, |a.data|)
    ensures FirstFit(AllocLoop(a, cur, target, i), cur, target, i)
    decreases |a.bitMap| - i
  {
    hide Zeros, ZeroBlock, DataOk, Collected;
    if cur == target {
      AllocNone(a, cur, i);
    } else {
      hide FirstFit;
      ZerosFrom(a.bitMap, i, |a.data|);
      if a.bitMap[i] != 0 {
        AllocFirst(a, cur, target, i + 1);
        AllocCollects(a, cur, target, i + 1);
        FirstSkip(a, AllocLoop(a, cur, target, i), cur, target, i);
      } else {
        var a1 := Alloc(a.bitMap[i := 1], a.data[i := ZeroBlock()], a.blocks[cur := i], true);
        ZerosSet(a.bitMap, i, 1, i + 1, |a.data|);
        ClearedOk(a.data, i);
        AllocFirst(a1, cur + 1, target, i + 1);
        AllocCollects(a1, cur + 1, target, i + 1);
        FirstTake(a1, AllocLoop(a1, cur + 1, target, i + 1), cur, target, i);
      }
    }
  }

  lemma AllocNone(a: Alloc, cur: int, i: int)
    requires 0 <= cur <= |a.blocks| && 0 <= i && DataOk(a.data)
    ensures AllocLoop(a, cur, cur, i) == a
  {
  }

  lemma ZerosFrom(bitMap: seq<int>, lo: int, hi: int)
    requires 0 <= lo && hi <= |bitMap| && Zeros(bitMap, lo, hi) > 0
    ensures lo < hi && Zeros(bitMap, lo, hi) == Zeros(bitMap, lo + 1, hi) + (if bitMap[lo] == 0 then 1 else 0)
  {
  }

  lemma ClearedOk(data: seq<Block>, i: int)
    requires DataOk(data) && 0 <= i < |data|
    ensures DataOk(data[i := ZeroBlock()])
  {
  }

  // ---------------------------------------------------------------- the freeing loop

  /** The freed blocks are unmarked and clean, nothing else changes. */
  lemma {:induction false} FreeLoopEffect(bitMap: seq<int>, data: seq<Block>, blocks: seq<int>, i: int, keep: int)
    requires 0 <= keep <= i <= |blocks| && DataOk(data) && |data| <= |bitMap|
    requires forall k :: keep <= k < i ==> 0 <= blocks[k] < |data| && bitMap[blocks[k]] == 1
    requires forall k, l :: keep <= k < l < i ==> blocks[k] != blocks[l]
    ensures var r := FreeLoop(bitMap, data, blocks, i, keep);
      && (forall k :: keep <= k < i ==> r.0[blocks[k]] == 0 && r.1[blocks[k]] == ZeroBlock())
      && (forall b :: 0 <= b < |bitMap| && (forall k :: keep <= k < i ==> blocks[k] != b) ==> r.0[b] == bitMap[b])
      && (forall b :: 0 <= b < |data| && (forall k :: keep <= k < i ==> blocks[k] != b) ==> r.1[b] == data[b])
      && Zeros(r.0, 0, |data|) == Zeros(bitMap, 0, |data|) + (i - keep)
    decreases i
  {
    if i > keep {
      var b := blocks[i - 1];
      ZerosSet(bitMap, b, 0, 0, |data|);
      FreeLoopEffect(bitMap[b := 0], data[b := ZeroBlock()], blocks, i - 1, keep);
    }
  }
}
