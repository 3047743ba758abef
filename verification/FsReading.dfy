/** What reading shows of the bytes that the file system represents. `my_read` never looks at the size of the file. */
module FsReading {
  import opened Basics
  import opened FsTypes
  import opened FsSpec
  import opened FsInvariant
  import opened FsResize
  import opened FsWrite
  import opened FsDirectory
  import opened FsRefinement

  /** The bytes of a file that a request asks for: none beyond its end. */
  function InRange(c: seq<Byte>, off: int, size: int): (r: seq<Byte>)
    requires 0 <= off && 0 <= size
  {
    c[Min(off, |c|)..Min(off + size, |c|)]
  }

  /** Reading inode i gives the bytes of the file that the request asks for. */
  ghost predicate RightFor(fs: Fs, i: int, size: int, off: int)
    requires Inv(fs) && 0 <= i < |fs.nodes| && fs.nodes[i].Some? && 0 <= off && 0 <= size
  {
    Read(fs, i, size, off) == Some(InRange(FileOf(fs, i), off, size))
  }

  /** The contents of the data blocks are not part of the invariant. */
  lemma AnyData(fs: Fs, data: seq<Block>)
    requires Inv(fs) && |data| == |fs.disk.data| && DataOk(data)
    ensures Inv(DataOnly(fs, data))
  {
    hide AllocOk, DirOk, DataOk, NodesOk;
  }

  lemma PastTheEnd(c: seq<Byte>, off: int, size: int)
    requires 0 <= off && 0 < size && off + size > |c|
    ensures |InRange(c, off, size)| < size
  {
  }

  lemma Inside(c: seq<Byte>, off: int, size: int)
    requires 0 <= off && 0 <= size && off + size <= |c|
    ensures InRange(c, off, size) == c[off..off + size]
  {
  }

  /** The bytes of a file are the bytes of its blocks. */
  lemma SliceOfFile(fs: Fs, i: int, size: int, off: int)
    requires Inv(fs) && 0 <= i < |fs.nodes| && fs.nodes[i].Some? && 0 <= off && 0 <= size && off + size <= |FileOf(fs, i)|
    ensures var blocks := Used(fs.nodes[i].value);
      BlocksIn(blocks, |fs.disk.data|) && off + size <= |blocks| * BLOCK_SIZE
      && Slice(fs.disk.data, blocks, off, size) == FileOf(fs, i)[off..off + size]
  {
    hide Content, ByteAt, At, AllocOk, DirOk, Synced;
    UsedOk(fs, i);
    var n := fs.nodes[i].value;
    var r := Slice(fs.disk.data, Used(n), off, size);
    forall j | 0 <= j < size ensures r[j] == FileOf(fs, i)[off..off + size][j] {
      ContentAt(fs.disk.data, n, off + j);
    }
    assert r == FileOf(fs, i)[off..off + size];
  }

  /** On a suitable disk an unaligned request across a block border goes wrong. */
  lemma CrossingWrong(fs: Fs, i: int, size: int, off: int) returns (data: seq<Block>)
    requires Inv(fs) && 0 <= i < |fs.nodes| && fs.nodes[i].Some? && 0 <= off && 0 <= size && off + size <= |FileOf(fs, i)|
    requires !Readable(off, size)
    ensures |data| == |fs.disk.data| && DataOk(data) && Inv(DataOnly(fs, data)) && !RightFor(DataOnly(fs, data), i, size, off)
  {
    hide Content, AllocOk, DirOk, Synced, ReadLoop, Slice, Probe;
    UsedOk(fs, i);
    var blocks := Used(fs.nodes[i].value);
    SliceOfFile(fs, i, size, off);
    var q := ReadWrong(|fs.disk.data|, blocks, size, off);
    data := Probe(|fs.disk.data|, blocks[q]);
    AnyData(fs, data);
    SliceOfFile(DataOnly(fs, data), i, size, off);
    Inside(FileOf(DataOnly(fs, data), i), off, size);
  }

  /** `my_read` returns the requested bytes of the file for all contents of the disk, if and only if nothing is
      requested, or the request stays inside the file and is block-aligned or inside one block. A request that crosses the
      end of the file is never answered rightly: it returns as many bytes as were asked for. */
  lemma ReadsExactly(fs: Fs, i: int, size: int, off: int)
    requires Inv(fs) && 0 <= i < |fs.nodes| && fs.nodes[i].Some? && 0 <= off && 0 <= size
    ensures
      (forall data: seq<Block> :: |data| == |fs.disk.data| && DataOk(data) ==>
         Inv(DataOnly(fs, data)) && RightFor(DataOnly(fs, data), i, size, off))
      <==> size == 0 || (Readable(off, size) && off + size <= |FileOf(fs, i)|)
  {
    hide Content, AllocOk, DirOk, Synced, ReadLoop, NodesOk, InRange, RightFor, DataOk;
    if size == 0 || (Readable(off, size) && off + size <= |FileOf(fs, i)|) {
      forall data: seq<Block> | |data| == |fs.disk.data| && DataOk(data)
        ensures Inv(DataOnly(fs, data)) && RightFor(DataOnly(fs, data), i, size, off)
      {
        AnyData(fs, data);
        RightInside(DataOnly(fs, data), i, size, off);
      }
    } else if off + size > |FileOf(fs, i)| {
      AnyData(fs, fs.disk.data);
      assert DataOnly(fs, fs.disk.data) == fs;
      WrongPast(fs, i, size, off);
    } else {
      var data := CrossingWrong(fs, i, size, off);
    }
  }

  lemma RightInside(fs: Fs, i: int, size: int, off: int)
    requires Inv(fs) && 0 <= i < |fs.nodes| && fs.nodes[i].Some? && 0 <= off && 0 <= size
    requires size == 0 || (Readable(off, size) && off + size <= |FileOf(fs, i)|)
    ensures RightFor(fs, i, size, off)
  {
    hide Content, AllocOk, DirOk, Synced;
    if size > 0 {
      ReadsFile(fs, i, size, off);
      Inside(FileOf(fs, i), off, size);
    } else {
      assert InRange(FileOf(fs, i), off, 0) == [];
    }
  }

  lemma WrongPast(fs: Fs, i: int, size: int, off: int)
    requires Inv(fs) && 0 <= i < |fs.nodes| && fs.nodes[i].Some? && 0 <= off && 0 < size && off + size > |FileOf(fs, i)|
    ensures !RightFor(fs, i, size, off)
  {
    hide Content, AllocOk, DirOk, Synced;
    PastTheEnd(FileOf(fs, i), off, size);
  }

  /** For a single map the condition is not necessary: in a file of two blocks of zeros an unaligned request across the
      border is answered rightly, because the bytes from the wrong places are zeros too. */
  lemma ZerosHideIt(fs: Fs, i: int)
    requires Inv(fs) && 0 <= i < |fs.nodes| && fs.nodes[i].Some? && |FileOf(fs, i)| == 2 * BLOCK_SIZE
    requires forall j :: 0 <= j < 2 * BLOCK_SIZE ==> FileOf(fs, i)[j] == 0
    ensures !Readable(1, BLOCK_SIZE) && RightFor(fs, i, BLOCK_SIZE, 1)
  {
    hide AllocOk, DirOk, Synced, Content, At, ReadLoop;
    UsedOk(fs, i);
    var data, n := fs.disk.data, fs.nodes[i].value;
    var blocks := Used(n);
    assert |blocks| == 2;
    ReadTwoChunks(data, blocks);
    var r := data[blocks[0]][1..] + [data[blocks[1]][1]];
    forall j | 0 <= j < BLOCK_SIZE ensures r[j] == 0 {
      var p := if j < BLOCK_SIZE - 1 then 1 + j else BLOCK_SIZE + 1;
      ContentAt(data, n, p);
      AtBlock(data, blocks, p);
    }
    assert r == InRange(FileOf(fs, i), 1, BLOCK_SIZE);
  }

  lemma AtBlock(data: seq<Block>, blocks: seq<int>, p: int)
    requires DataOk(data) && BlocksIn(blocks, |data|) && |blocks| == 2 && 0 <= p < 2 * BLOCK_SIZE
    ensures At(data, blocks, p) == data[blocks[if p < BLOCK_SIZE then 0 else 1]][if p < BLOCK_SIZE then p else p - BLOCK_SIZE]
  {
  }

  lemma ReadOnce(data: seq<Block>, blocks: seq<int>, size: int, q: int, o: int, count: int, rest: seq<Byte>)
    requires DataOk(data) && BlocksIn(blocks, |data|) && 0 <= q < |blocks| && 0 <= o < BLOCK_SIZE && 0 < size
    requires count == Min(BLOCK_SIZE - o, size) && ReadLoop(data, blocks, size - count, q * BLOCK_SIZE + o + o + count) == Some(rest)
    ensures ReadLoop(data, blocks, size, q * BLOCK_SIZE + o) == Some(data[blocks[q]][o..o + count] + rest)
  {
    hide ReadLoop;
    InBlockK(q, o);
    ReadUnfolds(data, blocks, size, q * BLOCK_SIZE + o, q, o, count);
  }

  lemma ReadTwoChunks(data: seq<Block>, blocks: seq<int>)
    requires DataOk(data) && BlocksIn(blocks, |data|) && |blocks| == 2
    ensures ReadLoop(data, blocks, BLOCK_SIZE, 1) == Some(data[blocks[0]][1..] + [data[blocks[1]][1]])
  {
    var border := 1 * BLOCK_SIZE + 1;
    assert ReadLoop(data, blocks, 0, border + 1 + 1) == Some([]);
    hide ReadLoop;
    ReadOnce(data, blocks, 1, 1, 1, 1, []);
    ReadOnce(data, blocks, BLOCK_SIZE, 0, 1, BLOCK_SIZE - 1, data[blocks[1]][1..2] + []);
    assert data[blocks[1]][1..2] + [] == [data[blocks[1]][1]];
    assert data[blocks[0]][1..BLOCK_SIZE] == data[blocks[0]][1..];
  }

  // ---------------------------------------------------------------- is the answer decided by the map?

  /** Changing the first byte behind the end of the file. */
  lemma OtherSlack(fs: Fs, i: int, p: int) returns (data: seq<Block>)
    requires Inv(fs) && 0 <= i < |fs.nodes| && fs.nodes[i].Some?
    requires |FileOf(fs, i)| <= p < fs.nodes[i].value.numBlocks * BLOCK_SIZE
    ensures |data| == |fs.disk.data| && DataOk(data) && FileBecomes(fs, DataOnly(fs, data), i, FileOf(fs, i))
    ensures var blocks := Used(fs.nodes[i].value);
      BlocksIn(blocks, |data|) && |blocks| == fs.nodes[i].value.numBlocks && At(data, blocks, p) != At(fs.disk.data, blocks, p)
  {
    hide AllocOk, DirOk, Synced, Content, Overwrite, At, FileBecomes, Owns;
    UsedOk(fs, i);
    var n := fs.nodes[i].value;
    var blocks := Used(n);
    InList(blocks, p);
    var b := blocks[p / BLOCK_SIZE];
    var other := [if At(fs.disk.data, blocks, p) == 0 then 1 else 0];
    data := fs.disk.data[b := Overwrite(fs.disk.data[b], p % BLOCK_SIZE, other)];
    forall q | 0 <= q < |blocks| * BLOCK_SIZE ensures DataOk(data) && At(data, blocks, q) == if q == p then other[0] else At(fs.disk.data, blocks, q) {
      OverwriteOnce(fs.disk.data, blocks, p, other, q);
    }
    assert OthersData(fs, data, i) by {
      forall j, k, c | j != i && Owns(fs.nodes, j, k, c) && 0 <= c < |data| ensures data[c] == fs.disk.data[c] {
        assert b in blocks;
        assert c != b;
      }
    }
    DataOnlyOk(fs, data, i);
    var c, c' := Content(fs.disk.data, n), Content(data, n);
    forall j | 0 <= j < n.fileSize ensures c'[j] == c[j] {
      ContentAt(fs.disk.data, n, j);
      ContentAt(data, n, j);
    }
    assert c' == c;
  }

  /** Within the blocks of the file a readable request returns the bytes of the blocks. */
  lemma ReadsBlocks(fs: Fs, i: int, size: int, off: int)
    requires Inv(fs) && 0 <= i < |fs.nodes| && fs.nodes[i].Some? && 0 <= off && 0 <= size
    requires Readable(off, size) && off + size <= fs.nodes[i].value.numBlocks * BLOCK_SIZE
    ensures var blocks := Used(fs.nodes[i].value);
      && BlocksIn(blocks, |fs.disk.data|) && |blocks| == fs.nodes[i].value.numBlocks
      && Read(fs, i, size, off) == Some(Slice(fs.disk.data, blocks, off, size))
  {
    hide AllocOk, DirOk, Synced, Slice, ReadLoop;
    UsedOk(fs, i);
    ReadRight(fs.disk.data, Used(fs.nodes[i].value), size, off);
  }

  lemma SliceDiffers(data: seq<Block>, data': seq<Block>, blocks: seq<int>, off: int, size: int, p: int)
    requires DataOk(data) && DataOk(data') && BlocksIn(blocks, |data|) && |data'| == |data|
    requires 0 <= off <= p < off + size <= |blocks| * BLOCK_SIZE && At(data', blocks, p) != At(data, blocks, p)
    ensures Slice(data', blocks, off, size) != Slice(data, blocks, off, size)
  {
    hide At;
    assert Slice(data, blocks, off, size)[p - off] == At(data, blocks, p);
    assert Slice(data', blocks, off, size)[p - off] == At(data', blocks, p);
  }

  /** A request that reaches behind the end of the file gets other bytes from some disk with the same files. */
  lemma PastNotDecided(fs: Fs, i: int, size: int, off: int) returns (fs': Fs)
    requires Inv(fs) && 0 <= i < |fs.nodes| && fs.nodes[i].Some? && 0 <= off && 0 < size
    requires Readable(off, size) && |FileOf(fs, i)| < off + size <= fs.nodes[i].value.numBlocks * BLOCK_SIZE
    ensures FileBecomes(fs, fs', i, FileOf(fs, i)) && fs'.dir == fs.dir && fs'.nodes == fs.nodes
    ensures Read(fs', i, size, off) != Read(fs, i, size, off)
  {
    hide AllocOk, DirOk, Synced, Slice, Content, Read, At, FileBecomes, DataOk, NodesOk;
    var p := if off < |FileOf(fs, i)| then |FileOf(fs, i)| else off;
    var data := OtherSlack(fs, i, p);
    fs' := DataOnly(fs, data);
    BecomesInv(fs, fs', i, FileOf(fs, i));
    ReadsBlocks(fs, i, size, off);
    ReadsBlocks(fs', i, size, off);
    UsedOk(fs, i);
    SliceDiffers(fs.disk.data, data, Used(fs.nodes[i].value), off, size, p);
  }

  lemma BecomesInv(fs: Fs, fs': Fs, i: int, c: seq<Byte>)
    requires Inv(fs) && FileBecomes(fs, fs', i, c)
    ensures Inv(fs')
  {
  }

  /** `my_open` followed by `my_read`. */
  function OpenRead(fs: Fs, name: string, size: int, off: int): (r: Option<seq<Byte>>)
    requires Inv(fs) && name in FileNames(fs) && 0 <= off && 0 <= size
  {
    Read(fs, InodeOf(fs, name), size, off)
  }

  /** A readable request within a file returns that part of the bytes that the map gives to the name. */
  lemma ReadsPart(fs: Fs, name: string, size: int, off: int)
    requires Inv(fs) && name in Abs(fs) && 0 <= off && 0 <= size && off + size <= |Abs(fs)[name]| && Readable(off, size)
    ensures name in FileNames(fs) && OpenRead(fs, name, size, off) == Some(Abs(fs)[name][off..off + size])
  {
    hide Inv, Abs, FileOf, InodeOf, Read;
    AbsAt(fs, name);
    ReadsFile(fs, InodeOf(fs, name), size, off);
  }

  /** Reading a name gives the bytes of the map that the request asks for. */
  ghost predicate RightByName(fs: Fs, name: string, size: int, off: int)
    requires 0 <= off && 0 <= size
  {
    && Inv(fs) && name in FileNames(fs) && name in Abs(fs)
    && OpenRead(fs, name, size, off) == Some(InRange(Abs(fs)[name], off, size))
  }

  lemma RightByNameMeans(fs: Fs, data: seq<Block>, name: string, size: int, off: int)
    requires Inv(fs) && name in FileNames(fs) && 0 <= off && 0 <= size && |data| == |fs.disk.data| && DataOk(data)
    ensures Inv(DataOnly(fs, data))
    ensures RightByName(DataOnly(fs, data), name, size, off) <==> RightFor(DataOnly(fs, data), InodeOf(fs, name), size, off)
  {
    AnyData(fs, data);
    hide Inv, Abs, FileOf, Read, InRange, DataOk;
    SameDirectory(fs, DataOnly(fs, data), name);
    AbsAt(DataOnly(fs, data), name);
  }

  /** Reading refines the map from names to bytes on every disk with these inodes, if and only if nothing is requested, or the
      request stays inside the file and is block-aligned or inside one block. */
  lemma ReadRefines(fs: Fs, name: string, size: int, off: int)
    requires Inv(fs) && name in Abs(fs) && 0 <= off && 0 <= size
    ensures
      (forall data: seq<Block> :: |data| == |fs.disk.data| && DataOk(data) ==> RightByName(DataOnly(fs, data), name, size, off))
      <==> size == 0 || (Readable(off, size) && off + size <= |Abs(fs)[name]|)
  {
    hide Inv, Abs, FileOf, InodeOf, Read, RightFor, RightByName, DataOk, Readable;
    AbsAt(fs, name);
    var i := InodeOf(fs, name);
    ReadsExactly(fs, i, size, off);
    forall data: seq<Block> | |data| == |fs.disk.data| && DataOk(data)
      ensures Inv(DataOnly(fs, data))
      ensures RightByName(DataOnly(fs, data), name, size, off) <==> RightFor(DataOnly(fs, data), i, size, off)
    {
      RightByNameMeans(fs, data, name, size, off);
    }
  }

  /** For a readable request inside the blocks of a file: every state with the same map from names to bytes gives the same
      answer, if and only if nothing is requested or the request stays inside the file. */
  lemma MapDecides(fs: Fs, name: string, size: int, off: int)
    requires Inv(fs) && name in Abs(fs) && name in FileNames(fs) && 0 <= off && 0 <= size
    requires Readable(off, size) && off + size <= BlocksFor(|Abs(fs)[name]|) * BLOCK_SIZE
    ensures
      (forall fs': Fs :: Inv(fs') && name in FileNames(fs') && Abs(fs') == Abs(fs) ==>
         OpenRead(fs', name, size, off) == OpenRead(fs, name, size, off))
      <==> size == 0 || off + size <= |Abs(fs)[name]|
  {
    hide Inv, Abs, FileOf, InodeOf, Read, FileBecomes, FileNames, BlocksFor;
    AbsAt(fs, name);
    if size == 0 {
      forall fs': Fs | Inv(fs') && name in FileNames(fs') && Abs(fs') == Abs(fs)
        ensures OpenRead(fs', name, size, off) == OpenRead(fs, name, size, off)
      {
        ReadNothing(fs, InodeOf(fs, name), off);
        ReadNothing(fs', InodeOf(fs', name), off);
      }
    } else if off + size <= |Abs(fs)[name]| {
      forall fs': Fs | Inv(fs') && name in FileNames(fs') && Abs(fs') == Abs(fs)
        ensures OpenRead(fs', name, size, off) == OpenRead(fs, name, size, off)
      {
        ReadsPart(fs, name, size, off);
        ReadsPart(fs', name, size, off);
      }
    } else {
      var fs' := PastNotDecided(fs, InodeOf(fs, name), size, off);
      BecomesInv(fs, fs', InodeOf(fs, name), FileOf(fs, InodeOf(fs, name)));
      AbsBecomes(fs, fs', name, Abs(fs)[name]);
      SameAgain(Abs(fs), name);
      SameDirectory(fs, fs', name);
    }
  }

  lemma SameDirectory(fs: Fs, fs': Fs, name: string)
    requires Inv(fs) && Inv(fs') && name in FileNames(fs) && fs'.dir == fs.dir
    ensures name in FileNames(fs') && InodeOf(fs', name) == InodeOf(fs, name)
  {
  }

  lemma ReadNothing(fs: Fs, i: int, off: int)
    requires Inv(fs) && 0 <= i < |fs.nodes| && fs.nodes[i].Some? && 0 <= off
    ensures Read(fs, i, 0, off) == Some([])
  {
    hide Inv;
  }

  // ---------------------------------------------------------------- what was cut off comes back

  /** After a file has been shrunk, a readable request inside the blocks that it has kept still returns the old bytes,
      those that were cut off included. */
  lemma CutBytesComeBack(fs: Fs, i: int, newSize: int, now: int, size: int, off: int)
    requires Inv(fs) && 0 <= i < |fs.nodes| && fs.nodes[i].Some? && 0 <= newSize < |FileOf(fs, i)|
    requires Readable(off, size) && 0 <= off && 0 <= size
    requires off + size <= |FileOf(fs, i)| && off + size <= BlocksFor(newSize) * BLOCK_SIZE
    ensures Live(fs, i)
    ensures var fs1 := Resize(fs, i, newSize, now).0;
      && Inv(fs1) && |fs1.nodes| == |fs.nodes| && fs1.nodes[i].Some? && FileOf(fs1, i) == FileOf(fs, i)[..newSize]
      && Read(fs1, i, size, off) == Some(FileOf(fs, i)[off..off + size])
  {
    hide AllocOk, DirOk, Synced, Slice, Content, Read, FileBecomes, DataOk, FreeLoop, BlocksFor;
    LiveOk(fs, i);
    var n := fs.nodes[i].value;
    var n1 := Shrunk(n, newSize, now);
    ShrinkOk(fs, i, newSize, now);
    ShrinkFrees(fs, i, newSize);
    var fs1 := Shrink(fs, i, newSize, now);
    CutFile(fs, fs1, i, newSize);
    ShrunkNode(fs, i, newSize, now);
    ReadsBlocks(fs1, i, size, off);
    UsedOk(fs, i);
    SliceOfFile(fs, i, size, off);
    SliceKept(fs.disk.data, fs1.disk.data, n.blocks, n.numBlocks, n1.numBlocks, off, size);
  }

  lemma LiveOk(fs: Fs, i: int)
    requires Inv(fs) && 0 <= i < |fs.nodes| && fs.nodes[i].Some?
    ensures Live(fs, i)
  {
  }

  lemma CutFile(fs: Fs, fs1: Fs, i: int, newSize: int)
    requires Inv(fs) && 0 <= i < |fs.nodes| && fs.nodes[i].Some? && 0 <= newSize < |FileOf(fs, i)|
    requires FileBecomes(fs, fs1, i, Resized(FileOf(fs, i), newSize))
    ensures Inv(fs1) && |fs1.nodes| == |fs.nodes| && fs1.nodes[i].Some? && FileOf(fs1, i) == FileOf(fs, i)[..newSize]
  {
    hide AllocOk, DirOk, Synced, Content;
  }

  lemma ShrunkNode(fs: Fs, i: int, newSize: int, now: int)
    requires Inv(fs) && Live(fs, i) && 0 <= newSize < fs.nodes[i].value.fileSize
    ensures var n := fs.nodes[i].value; var fs1 := Shrink(fs, i, newSize, now);
      && |fs1.nodes| == |fs.nodes| && fs1.nodes[i] == Some(Shrunk(n, newSize, now))
      && BlocksFor(newSize) <= n.numBlocks
      && fs1.disk.data == FreeLoop(fs.bitMap, fs.disk.data, n.blocks, n.numBlocks, BlocksFor(newSize)).1
  {
    hide AllocOk, DirOk, Synced, FreeLoop, BlocksFor;
    BlocksMonotone(newSize, fs.nodes[i].value.fileSize);
    OwnBits(fs, i);
  }

  /** The blocks that a file keeps hold the same bytes. */
  lemma SliceKept(data: seq<Block>, data1: seq<Block>, blocks: seq<int>, all: int, keep: int, off: int, size: int)
    requires DataOk(data) && DataOk(data1) && |data1| == |data| && 0 <= keep <= all <= |blocks| && BlocksIn(blocks[..all], |data|)
    requires forall k :: 0 <= k < keep ==> data1[blocks[k]] == data[blocks[k]]
    requires 0 <= off && 0 <= size && off + size <= keep * BLOCK_SIZE
    ensures BlocksIn(blocks[..keep], |data1|) && off + size <= all * BLOCK_SIZE
    ensures Slice(data1, blocks[..keep], off, size) == Slice(data, blocks[..all], off, size)
  {
    forall k | 0 <= k < keep ensures blocks[..keep][k] == blocks[..all][k] {}
    var r, r1 := Slice(data, blocks[..all], off, size), Slice(data1, blocks[..keep], off, size);
    forall j | 0 <= j < size ensures r1[j] == r[j] {
      InList(blocks[..keep], off + j);
      var k := (off + j) / BLOCK_SIZE;
      assert blocks[..keep][k] == blocks[k] == blocks[..all][k];
      assert At(data1, blocks[..keep], off + j) == At(data, blocks[..all], off + j);
    }
  }

  /** A file of 100 bytes is cut to 10: its size is 10, and a read of 100 bytes returns all of the old ones. */
  lemma HundredBytesComeBack(fs: Fs, i: int, now: int)
    requires Inv(fs) && 0 <= i < |fs.nodes| && fs.nodes[i].Some? && |FileOf(fs, i)| == 100
    ensures Live(fs, i)
    ensures var fs1 := Resize(fs, i, 10, now).0;
      && Inv(fs1) && |fs1.nodes| == |fs.nodes| && fs1.nodes[i].Some? && |FileOf(fs1, i)| == 10
      && Read(fs1, i, 100, 0) == Some(FileOf(fs, i))
  {
    hide Inv, FileOf, Resize, Read;
    assert BlocksFor(10) == 1;
    CutBytesComeBack(fs, i, 10, now, 100, 0);
    assert FileOf(fs, i)[0..100] == FileOf(fs, i);
  }
}
