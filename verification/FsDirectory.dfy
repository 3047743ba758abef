/** The directory: lookups by name, the creation of files, and the map from names to bytes that the structures
    represent. */
module FsDirectory {
  import opened Basics
  import opened FsTypes
  import opened FsInvariant
  import opened FsResize

  // ---------------------------------------------------------------- lookups

  /** `findFileByName`, from entry k on. */
  function FindFile(files: seq<Entry>, name: string, k: int): (r: int)
    requires 0 <= k <= |files|
    ensures r == -1 || k <= r < |files|
    ensures r >= 0 ==> EntryLive(files, r) && files[r].name == name
    ensures forall e :: k <= e < |files| && (r == -1 || e < r) ==> !(EntryLive(files, e) && files[e].name == name)
    decreases |files| - k
  {
    if k == |files| then -1
    else if !files[k].free && name == files[k].name then k
    else FindFile(files, name, k + 1)
  }

  /** `findFreeFile`, from entry k on. */
  function FindFreeFile(files: seq<Entry>, k: int): (r: int)
    requires 0 <= k <= |files|
    ensures r == -1 || (k <= r < |files| && files[r].free)
    ensures forall e :: k <= e < |files| && (r == -1 || e < r) ==> !files[e].free
    decreases |files| - k
  {
    if k == |files| then -1 else if files[k].free then k else FindFreeFile(files, k + 1)
  }

  /** `findFreeNode`, from inode k on. */
  function FindFreeNode(nodes: seq<Option<Node>>, k: int): (r: int)
    requires 0 <= k <= |nodes|
    ensures r == -1 || (k <= r < |nodes| && nodes[r].None?)
    ensures forall i :: k <= i < |nodes| && (r == -1 || i < r) ==> nodes[i].Some?
    decreases |nodes| - k
  {
    if k == |nodes| then -1 else if nodes[k].None? then k else FindFreeNode(nodes, k + 1)
  }

  // ---------------------------------------------------------------- the map that the directory represents

  /** The names in use among the first k entries. */
  function Names(files: seq<Entry>, k: int): set<string>
    requires 0 <= k <= |files|
  {
    set e | 0 <= e < k && !files[e].free :: files[e].name
  }

  ghost predicate DistinctNames(files: seq<Entry>) {
    forall e, f :: EntryLive(files, e) && EntryLive(files, f) && e != f ==> files[e].name != files[f].name
  }

  /** The redundant counter `numFiles` counts the names. */
  lemma {:induction false} NamesCounted(files: seq<Entry>, k: int)
    requires 0 <= k <= |files| && DistinctNames(files)
    ensures |Names(files, k)| == LiveEntries(files, k)
  {
    if k > 0 {
      NamesCounted(files, k - 1);
      if files[k - 1].free {
        assert Names(files, k) == Names(files, k - 1);
      } else {
        assert Names(files, k) == Names(files, k - 1) + {files[k - 1].name};
        assert EntryLive(files, k - 1);
        assert files[k - 1].name !in Names(files, k - 1) by {
          forall e | 0 <= e < k - 1 && !files[e].free ensures EntryLive(files, e) {}
        }
      }
    } else {
      assert Names(files, k) == {};
    }
  }

  /** The names of the files. */
  function FileNames(fs: Fs): set<string> {
    Names(fs.dir.files, |fs.dir.files|)
  }

  lemma FindsNames(files: seq<Entry>, name: string)
    ensures FindFile(files, name, 0) != -1 <==> name in Names(files, |files|)
  {
    forall e | 0 <= e < |files| && !files[e].free ensures EntryLive(files, e) {}
  }

  /** The inode that a name leads to. */
  function InodeOf(fs: Fs, name: string): (i: int)
    requires Inv(fs) && name in FileNames(fs)
    ensures 0 <= i < |fs.nodes| && fs.nodes[i].Some?
  {
    FindsNames(fs.dir.files, name);
    fs.dir.files[FindFile(fs.dir.files, name, 0)].nodeIdx
  }

  /** The map from names to bytes that the file system represents. */
  function Abs(fs: Fs): (m: map<string, seq<Byte>>)
    requires Inv(fs)
  {
    map name | name in FileNames(fs) :: FileOf(fs, InodeOf(fs, name))
  }

  lemma AbsSize(fs: Fs)
    requires Inv(fs)
    ensures |Abs(fs)| == fs.dir.numFiles && fs.numFreeNodes == MAX_NODES - |Abs(fs)|
    ensures forall name :: name in Abs(fs) ==> |name| <= MAX_LEN_FILE_NAME && |Abs(fs)[name]| <= MAX_FILE_SIZE
  {
    hide AllocOk, Synced, Content, InodeOf;
    NamesCounted(fs.dir.files, |fs.dir.files|);
    assert Abs(fs).Keys == FileNames(fs);
    forall name | name in Abs(fs) ensures |name| <= MAX_LEN_FILE_NAME {
      FindsNames(fs.dir.files, name);
    }
  }

  /** An entry in use decides where its name leads. */
  lemma LeadsTo(fs: Fs, name: string, e: int)
    requires Inv(fs) && EntryLive(fs.dir.files, e) && fs.dir.files[e].name == name
    ensures name in FileNames(fs) && InodeOf(fs, name) == fs.dir.files[e].nodeIdx
  {
    hide AllocOk, Synced, NodesOk;
    FindsNames(fs.dir.files, name);
  }

  /** Different names lead to different inodes. */
  lemma InodesDiffer(fs: Fs, name: string, other: string)
    requires Inv(fs) && name in FileNames(fs) && other in FileNames(fs) && name != other
    ensures InodeOf(fs, name) != InodeOf(fs, other)
  {
    hide AllocOk, Synced, NodesOk;
    FindsNames(fs.dir.files, name);
    FindsNames(fs.dir.files, other);
  }

  lemma SameDirSameInode(fs: Fs, fs': Fs, name: string)
    requires Inv(fs) && Inv(fs') && fs'.dir == fs.dir && name in FileNames(fs)
    ensures InodeOf(fs', name) == InodeOf(fs, name)
  {
    hide Inv;
  }

  /** What is written to the inode of a name is written to that name and to no other. */
  lemma AbsBecomes(fs: Fs, fs': Fs, name: string, c: seq<Byte>)
    requires Inv(fs) && name in FileNames(fs) && FileBecomes(fs, fs', InodeOf(fs, name), c)
    ensures Abs(fs') == Abs(fs)[name := c]
  {
    hide Inv, FileOf, InodeOf;
    forall other | other in FileNames(fs)
      ensures Abs(fs')[other] == if other == name then c else Abs(fs)[other]
    {
      SameDirSameInode(fs, fs', other);
      if other != name { InodesDiffer(fs, name, other); }
    }
  }

  // ---------------------------------------------------------------- my_mknod and my_mkdir

  /** `my_mknod` (tipo 0) and `my_mkdir` (tipo 1). The inode comes from malloc, so its block list holds `junk`. */
  function Create(fs: Fs, name: string, tipo: int, now: int, junk: seq<int>): (r: (Fs, int))
    requires Inv(fs) && |junk| == MAX_BLOCKS_PER_FILE
  {
    if |name| > fs.super.maxName then (fs, -ENAMETOOLONG)
    else if fs.numFreeNodes <= 0 then (fs, -ENOSPC)
    else if fs.dir.numFiles >= MAX_FILES then (fs, -ENOSPC)
    else if FindFile(fs.dir.files, name, 0) != -1 then (fs, -EEXIST)
    else
      var i := FindFreeNode(fs.nodes, 0);
      var e := FindFreeFile(fs.dir.files, 0);
      if i == -1 || e == -1 then (fs, -ENOSPC) else (Created(fs, i, e, name, Node(0, 0, tipo, now, junk, false)), 0)
  }

  /** The state after entry e has been given the name, and slot i the node; directory and inode are written back. */
  function Created(fs: Fs, i: int, e: int, name: string, n: Node): Fs
    requires 0 <= i < |fs.nodes| && 0 <= e < |fs.dir.files| && i < |fs.disk.inodes|
  {
    var dir := Directory(fs.dir.numFiles + 1, fs.dir.files[e := Entry(i, name, false)]);
    fs.(dir := dir, nodes := fs.nodes[i := Some(n)], numFreeNodes := fs.numFreeNodes - 1,
        disk := fs.disk.(dir := dir, inodes := fs.disk.inodes[i := n]))
  }

  lemma {:induction false} FreeSlotsUpdate(nodes: seq<Option<Node>>, i: int, n: Node, k: int)
    requires 0 <= i < |nodes| && nodes[i].None? && 0 <= k <= |nodes|
    ensures FreeSlots(nodes[i := Some(n)], k) == FreeSlots(nodes, k) - (if i < k then 1 else 0)
  {
    if k > 0 { FreeSlotsUpdate(nodes, i, n, k - 1); }
  }

  lemma {:induction false} LiveEntriesUpdate(files: seq<Entry>, e: int, entry: Entry, k: int)
    requires 0 <= e < |files| && files[e].free && !entry.free && 0 <= k <= |files|
    ensures LiveEntries(files[e := entry], k) == LiveEntries(files, k) + (if e < k then 1 else 0)
  {
    if k > 0 { LiveEntriesUpdate(files, e, entry, k - 1); }
  }

  lemma {:induction false} NoFreeSlot(nodes: seq<Option<Node>>, k: int)
    requires 0 <= k <= |nodes| && forall i :: 0 <= i < k ==> nodes[i].Some?
    ensures FreeSlots(nodes, k) == 0
  {
    if k > 0 { NoFreeSlot(nodes, k - 1); }
  }

  lemma {:induction false} NoFreeEntry(files: seq<Entry>, k: int)
    requires 0 <= k <= |files| && forall e :: 0 <= e < k ==> !files[e].free
    ensures LiveEntries(files, k) == k
  {
    if k > 0 { NoFreeEntry(files, k - 1); }
  }

  /** While an inode is free, so is an entry of the directory; both searches succeed. */
  lemma RoomForFile(fs: Fs)
    requires Inv(fs) && fs.numFreeNodes > 0
    ensures fs.dir.numFiles < MAX_FILES && FindFreeNode(fs.nodes, 0) != -1 && FindFreeFile(fs.dir.files, 0) != -1
  {
    hide AllocOk, Synced, NodesOk;
    if FindFreeNode(fs.nodes, 0) == -1 { NoFreeSlot(fs.nodes, |fs.nodes|); }
    if FindFreeFile(fs.dir.files, 0) == -1 { NoFreeEntry(fs.dir.files, |fs.dir.files|); }
  }

  lemma CreatedDirOk(dir: Directory, nodes: seq<Option<Node>>, free: int, i: int, e: int, name: string, n: Node)
    requires DirOk(dir, nodes, free) && 0 <= i < |nodes| && nodes[i].None? && 0 <= e < |dir.files| && dir.files[e].free
    requires |name| <= MAX_LEN_FILE_NAME && forall f :: EntryLive(dir.files, f) ==> dir.files[f].name != name
    ensures DirOk(Directory(dir.numFiles + 1, dir.files[e := Entry(i, name, false)]), nodes[i := Some(n)], free - 1)
  {
    hide EntryLive, LiveEntries, FreeSlots;
    var files' := dir.files[e := Entry(i, name, false)];
    var nodes' := nodes[i := Some(n)];
    FreeSlotsUpdate(nodes, i, n, |nodes|);
    LiveEntriesUpdate(dir.files, e, Entry(i, name, false), |dir.files|);
    CreatedEntries(dir, nodes, free, i, e, name, n);
    CreatedReached(dir, nodes, nodes', free, i, e, files');
  }

  lemma CreatedEntries(dir: Directory, nodes: seq<Option<Node>>, free: int, i: int, e: int, name: string, n: Node)
    requires DirOk(dir, nodes, free) && 0 <= i < |nodes| && nodes[i].None? && 0 <= e < |dir.files| && dir.files[e].free
    requires |name| <= MAX_LEN_FILE_NAME && forall f :: EntryLive(dir.files, f) ==> dir.files[f].name != name
    ensures var files', nodes' := dir.files[e := Entry(i, name, false)], nodes[i := Some(n)];
      && (forall f :: EntryLive(files', f) ==>
            && 0 <= f < |files'| && |files'[f].name| <= MAX_LEN_FILE_NAME
            && 0 <= files'[f].nodeIdx < |nodes'| && nodes'[files'[f].nodeIdx].Some?)
      && (forall f, g :: EntryLive(files', f) && EntryLive(files', g) && f != g ==>
            files'[f].name != files'[g].name && files'[f].nodeIdx != files'[g].nodeIdx)
  {
    hide LiveEntries, FreeSlots;
    var files' := dir.files[e := Entry(i, name, false)];
    forall f | EntryLive(files', f) && f != e
      ensures EntryLive(dir.files, f) && files'[f] == dir.files[f] && files'[f].nodeIdx != i
    {
      assert EntryLive(dir.files, f);
    }
  }

  lemma CreatedReached(dir: Directory, nodes: seq<Option<Node>>, nodes': seq<Option<Node>>, free: int, i: int, e: int, files': seq<Entry>)
    requires DirOk(dir, nodes, free) && |nodes'| == |nodes| && 0 <= i < |nodes| && 0 <= e < |dir.files| && dir.files[e].free
    requires forall j :: 0 <= j < |nodes| && j != i ==> nodes'[j] == nodes[j]
    requires |files'| == |dir.files| && files' == dir.files[e := files'[e]] && !files'[e].free && files'[e].nodeIdx == i
    ensures forall j :: 0 <= j < |nodes'| && nodes'[j].Some? ==> exists f :: EntryLive(files', f) && files'[f].nodeIdx == j
  {
    hide LiveEntries, FreeSlots;
    forall j | 0 <= j < |nodes'| && nodes'[j].Some? ensures exists f :: EntryLive(files', f) && files'[f].nodeIdx == j {
      if j == i {
        assert EntryLive(files', e);
      } else {
        var f :| EntryLive(dir.files, f) && dir.files[f].nodeIdx == j;
        assert EntryLive(files', f);
      }
    }
  }

  lemma CreatedAllocOk(nodes: seq<Option<Node>>, bitMap: seq<int>, diskBlocks: int, free: int, i: int, n: Node)
    requires AllocOk(nodes, bitMap, diskBlocks, free) && 0 <= i < |nodes| && nodes[i].None? && n.numBlocks == 0
    ensures AllocOk(nodes[i := Some(n)], bitMap, diskBlocks, free)
  {
    var nodes' := nodes[i := Some(n)];
    forall j, k, b ensures Owns(nodes', j, k, b) <==> Owns(nodes, j, k, b) {}
    forall b | FIRST_DATA <= b < |bitMap| && bitMap[b] == 1 ensures exists j, k :: Owns(nodes', j, k, b) {
      var j, k :| Owns(nodes, j, k, b);
      assert Owns(nodes', j, k, b);
    }
  }

  lemma CreatedInv(fs: Fs, i: int, e: int, name: string, n: Node)
    requires Inv(fs) && 0 <= i < |fs.nodes| && fs.nodes[i].None? && 0 <= e < |fs.dir.files| && fs.dir.files[e].free
    requires |name| <= MAX_LEN_FILE_NAME && FindFile(fs.dir.files, name, 0) == -1
    requires n.numBlocks == 0 && n.fileSize == 0 && !n.free && |n.blocks| == MAX_BLOCKS_PER_FILE
    ensures Inv(Created(fs, i, e, name, n))
  {
    hide AllocOk, DirOk;
    CreatedDirOk(fs.dir, fs.nodes, fs.numFreeNodes, i, e, name, n);
    CreatedAllocOk(fs.nodes, fs.bitMap, fs.super.diskBlocks, fs.super.freeBlocks, i, n);
  }

  lemma CreatedAbs(fs: Fs, i: int, e: int, name: string, n: Node)
    requires Inv(fs) && 0 <= i < |fs.nodes| && fs.nodes[i].None? && 0 <= e < |fs.dir.files| && fs.dir.files[e].free
    requires FindFile(fs.dir.files, name, 0) == -1 && n.fileSize == 0
    requires Inv(Created(fs, i, e, name, n))
    ensures name !in Abs(fs) && Abs(Created(fs, i, e, name, n)) == Abs(fs)[name := []]
  {
    hide Content, ByteAt, AllocOk, Synced, DirOk, NodesOk, InodeOf;
    var fs' := Created(fs, i, e, name, n);
    FindsNames(fs.dir.files, name);
    CreatedNames(fs.dir.files, e, Entry(i, name, false));
    forall other | other in FileNames(fs')
      ensures Abs(fs')[other] == if other == name then [] else Abs(fs)[other]
    {
      if other == name {
        LeadsTo(fs', name, e);
      } else {
        FindsNames(fs.dir.files, other);
        var f := FindFile(fs.dir.files, other, 0);
        LeadsTo(fs, other, f);
        LeadsTo(fs', other, f);
      }
    }
  }

  lemma CreatedNames(files: seq<Entry>, e: int, entry: Entry)
    requires 0 <= e < |files| && files[e].free && !entry.free
    ensures Names(files[e := entry], |files|) == Names(files, |files|) + {entry.name}
  {
    var files' := files[e := entry];
    forall f | 0 <= f < |files| && !files[f].free ensures files[f].name in Names(files', |files|) {
      assert files'[f] == files[f];
    }
    assert files'[e].name in Names(files', |files|);
  }

  /** What creating a file returns, and what it does to the map from names to bytes. */
  lemma CreateOk(fs: Fs, name: string, tipo: int, now: int, junk: seq<int>)
    requires Inv(fs) && |junk| == MAX_BLOCKS_PER_FILE
    ensures var (fs', code) := Create(fs, name, tipo, now, junk);
      && code == (if |name| > MAX_LEN_FILE_NAME then -ENAMETOOLONG
                  else if |Abs(fs)| >= MAX_NODES then -ENOSPC
                  else if name in Abs(fs) then -EEXIST else 0)
      && Inv(fs')
      && Abs(fs') == (if code == 0 then Abs(fs)[name := []] else Abs(fs))
      && (code != 0 ==> fs' == fs) && fs'.super == fs.super
  {
    hide AllocOk, Synced, NodesOk, Abs, DirOk, Content, Created;
    AbsSize(fs);
    FindsNames(fs.dir.files, name);
    assert name in Abs(fs) <==> name in FileNames(fs) by { AbsKeys(fs); }
    if |name| <= MAX_LEN_FILE_NAME && fs.numFreeNodes > 0 {
      RoomForFile(fs);
      if FindFile(fs.dir.files, name, 0) == -1 {
        var i, e := FindFreeNode(fs.nodes, 0), FindFreeFile(fs.dir.files, 0);
        var n := Node(0, 0, tipo, now, junk, false);
        CreatedInv(fs, i, e, name, n);
        CreatedAbs(fs, i, e, name, n);
        assert Created(fs, i, e, name, n).super == fs.super by { CreatedSuper(fs, i, e, name, n); }
      }
    }
  }

  lemma AbsKeys(fs: Fs)
    requires Inv(fs)
    ensures Abs(fs).Keys == FileNames(fs)
  {
  }

  lemma CreatedSuper(fs: Fs, i: int, e: int, name: string, n: Node)
    requires 0 <= i < |fs.nodes| && 0 <= e < |fs.dir.files| && i < |fs.disk.inodes|
    ensures Created(fs, i, e, name, n).super == fs.super
  {
  }
}
