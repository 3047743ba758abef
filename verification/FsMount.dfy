/** Formatting a disk and mounting it. */
module FsMount {
  import opened Basics
  import opened FsTypes
  import opened FsSpec
  import opened FsInvariant
  import opened FsResize
  import opened FsDirectory

  datatype Made = Made(fs: Fs) | Refused(code: int)

  /** The bitmap of a new disk: only the metadata blocks are taken. */
  function NewBits(): (r: seq<int>)
    ensures |r| == NUM_BITS
  {
    seq(NUM_BITS, b => if b < FIRST_DATA then 1 else 0)
  }

  /** The directory is static, so it holds zeros before its entries are marked free. */
  function NewDirectory(): (r: Directory)
    ensures |r.files| == MAX_FILES
  {
    Directory(0, seq(MAX_FILES, _ => Entry(0, "", true)))
  }

  /** The first n blocks of the disk in a backup file that holds `data`: behind the end of the file a block has no bytes
      yet, and holds zeros when a later one is written. */
  function OnDisk(data: seq<Block>, n: nat): (r: seq<Block>)
    requires DataOk(data)
    ensures |r| == n && DataOk(r)
  {
    var r := seq<Block>(n, b requires 0 <= b => if b < |data| then data[b] else ZeroBlock());
    assert forall b :: 0 <= b < n ==> r[b] == if b < |data| then data[b] else ZeroBlock();
    r
  }

  /** `myMkfs`: `data` is what the backup file held before, `junk` the local inode whose free mark alone is set. */
  function Mkfs(diskSize: int, data: seq<Block>, now: int, junk: Node): (r: Made)
    requires DataOk(data)
  {
    var numBlocks := diskSize / BLOCK_SIZE;
    if numBlocks < NODES_IDX + MAX_BLOCKS_WITH_NODES + 1 then Refused(-1)
    else if numBlocks >= NUM_BITS then Refused(-2)
    else
      var super := Super(now, numBlocks, Zeros(NewBits(), 0, numBlocks), BLOCK_SIZE, MAX_LEN_FILE_NAME, MAX_BLOCKS_PER_FILE);
      var inodes := seq(MAX_NODES, _ => junk.(free := true));
      Made(Fs(super, NewBits(), NewDirectory(), seq(MAX_NODES, _ => None), MAX_NODES,
              Disk(super, NewBits(), NewDirectory(), inodes, OnDisk(data, numBlocks))))
  }

  lemma {:induction false} NewBitsZeros(lo: int, hi: int)
    requires FIRST_DATA <= lo <= hi <= NUM_BITS
    ensures Zeros(NewBits(), lo, hi) == hi - lo
    decreases hi - lo
  {
    if lo < hi { NewBitsZeros(lo + 1, hi); }
  }

  lemma {:induction false} NewBitsOnes(lo: int)
    requires 0 <= lo <= FIRST_DATA
    ensures Zeros(NewBits(), lo, FIRST_DATA) == 0
    decreases FIRST_DATA - lo
  {
    if lo < FIRST_DATA { NewBitsOnes(lo + 1); }
  }

  lemma {:induction false} NoEntries(files: seq<Entry>, k: int)
    requires 0 <= k <= |files| && forall e :: 0 <= e < k ==> files[e].free
    ensures LiveEntries(files, k) == 0
  {
    if k > 0 { NoEntries(files, k - 1); }
  }

  lemma {:induction false} OnlyFreeSlots(nodes: seq<Option<Node>>, k: int)
    requires 0 <= k <= |nodes| && forall i :: 0 <= i < k ==> nodes[i].None?
    ensures FreeSlots(nodes, k) == k
  {
    if k > 0 { OnlyFreeSlots(nodes, k - 1); }
  }

  /** A disk can be formatted exactly when it has between 9 and 1023 blocks, whatever the backup file held; too few give -1 and
      too many -2. Then the invariant holds, there are no files, and all but the 8 metadata blocks are free. */
  lemma MkfsOk(diskSize: int, data: seq<Block>, now: int, junk: Node)
    requires DataOk(data)
    ensures var r, n := Mkfs(diskSize, data, now, junk), diskSize / BLOCK_SIZE;
      && (r.Made? <==> FIRST_DATA < n < NUM_BITS)
      && (r.Refused? ==> r.code == if n <= FIRST_DATA then -1 else -2)
      && (r.Made? ==> Inv(r.fs) && Abs(r.fs) == map[] && r.fs.super.freeBlocks == n - FIRST_DATA >= 1)
  {
    var r, n := Mkfs(diskSize, data, now, junk), diskSize / BLOCK_SIZE;
    if r.Made? {
      hide OnDisk;
      var fs := r.fs;
      NewBitsOnes(0);
      NewBitsZeros(FIRST_DATA, n);
      ZerosSplit(NewBits(), 0, FIRST_DATA, n);
      NoEntries(fs.dir.files, MAX_FILES);
      OnlyFreeSlots(fs.nodes, MAX_NODES);
      assert AllocOk(fs.nodes, fs.bitMap, n, fs.super.freeBlocks);
      assert DirOk(fs.dir, fs.nodes, fs.numFreeNodes);
      assert Inv(fs);
      AbsKeys(fs);
      assert FileNames(fs) == {};
    }
  }

  // ---------------------------------------------------------------- mounting

  /** Inodes in use among the first k of the disk. */
  function LiveInodes(inodes: seq<Node>, k: int): (n: int)
    requires 0 <= k <= |inodes|
    ensures 0 <= n <= k
  {
    if k == 0 then 0 else LiveInodes(inodes, k - 1) + (if inodes[k - 1].free then 0 else 1)
  }

  /** `myMount` into a process whose inode table is empty. The copy of an inode does not include `tipo`, which keeps
      what malloc left there. */
  function Mount(disk: Disk, tipos: seq<int>): (fs: Fs)
    requires |disk.inodes| == MAX_NODES == |tipos|
  {
    Fs(disk.super, disk.bitMap, disk.dir, Loaded(disk.inodes, tipos), MAX_NODES - LiveInodes(disk.inodes, MAX_NODES), disk)
  }

  function Loaded(inodes: seq<Node>, tipos: seq<int>): (nodes: seq<Option<Node>>)
    requires |inodes| == |tipos|
    ensures |nodes| == |inodes|
  {
    seq(|inodes|, i requires 0 <= i < |inodes| => if inodes[i].free then None else Some(inodes[i].(tipo := tipos[i])))
  }

  /** Equal in everything but the `tipo` of inodes. */
  ghost predicate SameButTipo(fs: Fs, fs': Fs) {
    && fs'.super == fs.super && fs'.bitMap == fs.bitMap && fs'.dir == fs.dir && fs'.numFreeNodes == fs.numFreeNodes
    && fs'.disk == fs.disk && SameNodes(fs.nodes, fs'.nodes)
  }

  ghost predicate SameNodes(nodes: seq<Option<Node>>, nodes': seq<Option<Node>>) {
    && |nodes| == |nodes'|
    && forall i :: 0 <= i < |nodes| ==>
         && (nodes[i].Some? <==> nodes'[i].Some?)
         && (nodes[i].Some? ==> nodes'[i].value == nodes[i].value.(tipo := nodes'[i].value.tipo))
  }

  lemma {:induction false} CountsAgree(inodes: seq<Node>, nodes: seq<Option<Node>>, k: int)
    requires 0 <= k <= |inodes| == |nodes| && forall i :: 0 <= i < |nodes| ==> (nodes[i].None? <==> inodes[i].free)
    ensures FreeSlots(nodes, k) == k - LiveInodes(inodes, k)
  {
    if k > 0 { CountsAgree(inodes, nodes, k - 1); }
  }

  lemma TipoAllocOk(nodes: seq<Option<Node>>, nodes': seq<Option<Node>>, bitMap: seq<int>, diskBlocks: int, free: int)
    requires AllocOk(nodes, bitMap, diskBlocks, free) && SameNodes(nodes, nodes')
    ensures AllocOk(nodes', bitMap, diskBlocks, free)
  {
    forall j, k, b ensures Owns(nodes', j, k, b) <==> Owns(nodes, j, k, b) {}
    forall b | FIRST_DATA <= b < |bitMap| && bitMap[b] == 1 ensures exists j, k :: Owns(nodes', j, k, b) {
      var j, k :| Owns(nodes, j, k, b);
      assert Owns(nodes', j, k, b);
    }
  }

  lemma TipoDirOk(dir: Directory, nodes: seq<Option<Node>>, nodes': seq<Option<Node>>, free: int)
    requires DirOk(dir, nodes, free) && SameNodes(nodes, nodes')
    ensures DirOk(dir, nodes', free)
  {
    SameSlots(nodes, nodes', |nodes|);
  }

  lemma LoadedSame(fs: Fs, tipos: seq<int>)
    requires Inv(fs) && |tipos| == MAX_NODES
    ensures SameNodes(fs.nodes, Loaded(fs.disk.inodes, tipos))
    ensures FreeSlots(fs.nodes, MAX_NODES) == MAX_NODES - LiveInodes(fs.disk.inodes, MAX_NODES)
  {
    hide AllocOk, DirOk;
    forall i | 0 <= i < |fs.nodes| ensures fs.nodes[i].None? <==> fs.disk.inodes[i].free {}
    CountsAgree(fs.disk.inodes, fs.nodes, MAX_NODES);
  }

  /** Mounting rebuilds the bitmap, the free count, the directory, the count of free inodes and every inode but its
      `tipo`; the invariant and the contents of the files are as before. */
  lemma MountRecovers(fs: Fs, tipos: seq<int>)
    requires Inv(fs) && |tipos| == MAX_NODES
    ensures |fs.disk.inodes| == MAX_NODES
    ensures var fs' := Mount(fs.disk, tipos); SameButTipo(fs, fs') && Inv(fs') && Abs(fs') == Abs(fs)
  {
    hide Loaded, LiveInodes, Abs, Content, AllocOk, DirOk, Zeros, FreeSlots, LiveEntries;
    var fs' := Mount(fs.disk, tipos);
    LoadedSame(fs, tipos);
    MountedCount(fs);
    MountedInv(fs, fs');
    MountedAbs(fs, fs');
  }

  lemma MountedCount(fs: Fs)
    requires Inv(fs)
    ensures fs.numFreeNodes == FreeSlots(fs.nodes, MAX_NODES)
  {
  }

  lemma MountedInv(fs: Fs, fs': Fs)
    requires Inv(fs) && SameButTipo(fs, fs')
    ensures Inv(fs')
  {
    hide AllocOk, DirOk;
    TipoAllocOk(fs.nodes, fs'.nodes, fs.bitMap, fs.super.diskBlocks, fs.super.freeBlocks);
    TipoDirOk(fs.dir, fs.nodes, fs'.nodes, fs.numFreeNodes);
  }

  lemma MountedAbs(fs: Fs, fs': Fs)
    requires Inv(fs) && Inv(fs') && SameButTipo(fs, fs')
    ensures Abs(fs') == Abs(fs)
  {
    hide AllocOk, DirOk, Synced, InodeOf, Content;
    forall name | name in FileNames(fs) ensures Abs(fs')[name] == Abs(fs)[name] {
      SameDirSameInode(fs, fs', name);
      ContentTipo(fs.disk.data, fs.nodes[InodeOf(fs, name)].value, fs'.nodes[InodeOf(fs, name)].value);
    }
  }

  lemma ContentTipo(data: seq<Block>, n: Node, n': Node)
    requires DataOk(data) && NodeOk(n, |data|) && NodeOk(n', |data|) && n' == n.(tipo := n'.tipo)
    ensures Content(data, n') == Content(data, n)
  {
    forall j | 0 <= j < n.fileSize ensures ByteAt(data, n', j) == ByteAt(data, n, j) {
      InBlock(n, j);
    }
  }
}
