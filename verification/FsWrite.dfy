/** `my_write` and `my_read`: what they do to the bytes of a file. */
module FsWrite {
  import opened Basics
  import opened FsTypes
  import opened FsSpec
  import opened FsInvariant
  import opened FsResize

  // ---------------------------------------------------------------- the loop of my_write

  /** The block list names blocks of the disk. */
  ghost predicate BlocksIn(blocks: seq<int>, diskBlocks: int) {
    forall k :: 0 <= k < |blocks| ==> 0 <= blocks[k] < diskBlocks
  }

  ghost predicate Distinct(blocks: seq<int>) {
    forall k, l :: 0 <= k < l < |blocks| ==> blocks[k] != blocks[l]
  }

  /** Byte p of the bytes that a block list holds. */
  function At(data: seq<Block>, blocks: seq<int>, p: int): Byte
    requires DataOk(data) && BlocksIn(blocks, |data|) && 0 <= p < |blocks| * BLOCK_SIZE
  {
    InList(blocks, p);
    data[blocks[p / BLOCK_SIZE]][p % BLOCK_SIZE]
  }

  lemma InList(blocks: seq<int>, p: int)
    requires 0 <= p < |blocks| * BLOCK_SIZE
    ensures 0 <= p / BLOCK_SIZE < |blocks| && 0 <= p % BLOCK_SIZE < BLOCK_SIZE
  {
  }

  lemma OverwriteOnce(data: seq<Block>, blocks: seq<int>, off: int, bytes: seq<Byte>, p: int)
    requires DataOk(data) && BlocksIn(blocks, |data|) && Distinct(blocks) && 0 <= p < |blocks| * BLOCK_SIZE
    requires 0 <= off < |blocks| * BLOCK_SIZE && off % BLOCK_SIZE + |bytes| <= BLOCK_SIZE
    ensures 0 <= off / BLOCK_SIZE < |blocks|
    ensures var b := blocks[off / BLOCK_SIZE];
      var data1 := data[b := Overwrite(data[b], off % BLOCK_SIZE, bytes)];
      DataOk(data1) && At(data1, blocks, p) == if off <= p < off + |bytes| then bytes[p - off] else At(data, blocks, p)
  {
    InList(blocks, off);
    InList(blocks, p);
    var b := blocks[off / BLOCK_SIZE];
    var data1 := data[b := Overwrite(data[b], off % BLOCK_SIZE, bytes)];
    if p / BLOCK_SIZE == off / BLOCK_SIZE {
      assert p - off == p % BLOCK_SIZE - off % BLOCK_SIZE;
    } else {
      assert blocks[p / BLOCK_SIZE] != b;
      assert !(off <= p < off + |bytes|);
    }
  }

  /** One turn of the loop: `count` bytes go to block b. */
  lemma WriteLoopStep(data: seq<Block>, blocks: seq<int>, buf: seq<Byte>, off: int) returns (b: int, o: int, count: int)
    requires DataOk(data) && BlocksIn(blocks, |data|) && 0 <= off && off + |buf| <= |blocks| * BLOCK_SIZE && buf != []
    ensures 0 <= off / BLOCK_SIZE < |blocks| && b == blocks[off / BLOCK_SIZE] && b in blocks && o == off % BLOCK_SIZE
    ensures 0 < count <= |buf| && 0 <= o && o + count <= BLOCK_SIZE && 0 <= b < |data| && |data[b]| == BLOCK_SIZE
    ensures var data1 := data[b := Overwrite(data[b], o, buf[..count])];
      DataOk(data1) && WriteLoop(data, blocks, buf, off) == WriteLoop(data1, blocks, buf[count..], off + count)
    ensures count == Min(BLOCK_SIZE - off % BLOCK_SIZE, |buf|)
  {
    InList(blocks, off);
    b, o, count := blocks[off / BLOCK_SIZE], off % BLOCK_SIZE, Min(BLOCK_SIZE - off % BLOCK_SIZE, |buf|);
  }

  /** Byte p of the file after one turn. */
  lemma WriteTurn(data: seq<Block>, blocks: seq<int>, buf: seq<Byte>, off: int, p: int) returns (data1: seq<Block>, count: int)
    requires DataOk(data) && BlocksIn(blocks, |data|) && Distinct(blocks) && 0 <= off && off + |buf| <= |blocks| * BLOCK_SIZE
    requires buf != [] && 0 <= p < |blocks| * BLOCK_SIZE
    ensures 0 < count <= |buf| && |data1| == |data| && DataOk(data1)
    ensures WriteLoop(data, blocks, buf, off) == WriteLoop(data1, blocks, buf[count..], off + count)
    ensures At(data1, blocks, p) == if off <= p < off + count then buf[p - off] else At(data, blocks, p)
  {
    hide At, Overwrite, WriteLoop, DataOk;
    var b, o;
    b, o, count := WriteLoopStep(data, blocks, buf, off);
    OverwriteOnce(data, blocks, off, buf[..count], p);
    data1 := data[b := Overwrite(data[b], o, buf[..count])];
  }

  /** One byte of the file after the loop. */
  lemma {:induction false} WriteLoopAt(data: seq<Block>, blocks: seq<int>, buf: seq<Byte>, off: int, p: int)
    requires DataOk(data) && BlocksIn(blocks, |data|) && Distinct(blocks) && 0 <= off && off + |buf| <= |blocks| * BLOCK_SIZE
    requires 0 <= p < |blocks| * BLOCK_SIZE
    ensures At(WriteLoop(data, blocks, buf, off), blocks, p) == if off <= p < off + |buf| then buf[p - off] else At(data, blocks, p)
    decreases |buf|
  {
    if buf != [] {
      hide At, WriteLoop, DataOk, Distinct;
      var data1, count := WriteTurn(data, blocks, buf, off, p);
      WriteLoopAt(data1, blocks, buf[count..], off + count, p);
    }
  }

  /** A block of no concern to the loop. */
  lemma {:induction false} WriteLoopElsewhere(data: seq<Block>, blocks: seq<int>, buf: seq<Byte>, off: int, b: int)
    requires DataOk(data) && BlocksIn(blocks, |data|) && 0 <= off && off + |buf| <= |blocks| * BLOCK_SIZE
    requires 0 <= b < |data| && b !in blocks
    ensures WriteLoop(data, blocks, buf, off)[b] == data[b]
    decreases |buf|
  {
    if buf != [] {
      hide Overwrite, WriteLoop, DataOk;
      var d, o, count := WriteLoopStep(data, blocks, buf, off);
      WriteLoopElsewhere(data[d := Overwrite(data[d], o, buf[..count])], blocks, buf[count..], off + count, b);
    }
  }

  /** The loop puts the bytes of buf at off, and changes no other byte of the file and no other block. */
  lemma WriteLoopEffect(data: seq<Block>, blocks: seq<int>, buf: seq<Byte>, off: int)
    requires DataOk(data) && BlocksIn(blocks, |data|) && Distinct(blocks) && 0 <= off && off + |buf| <= |blocks| * BLOCK_SIZE
    ensures var r := WriteLoop(data, blocks, buf, off);
      && (forall p :: 0 <= p < |blocks| * BLOCK_SIZE ==>
            At(r, blocks, p) == if off <= p < off + |buf| then buf[p - off] else At(data, blocks, p))
      && (forall b :: 0 <= b < |data| && b !in blocks ==> r[b] == data[b])
  {
    hide At, WriteLoop;
    forall p | 0 <= p < |blocks| * BLOCK_SIZE
      ensures At(WriteLoop(data, blocks, buf, off), blocks, p) == if off <= p < off + |buf| then buf[p - off] else At(data, blocks, p)
    {
      WriteLoopAt(data, blocks, buf, off, p);
    }
    forall b | 0 <= b < |data| && b !in blocks ensures WriteLoop(data, blocks, buf, off)[b] == data[b] {
      WriteLoopElsewhere(data, blocks, buf, off, b);
    }
  }

  // ---------------------------------------------------------------- my_write

  /** The blocks of a file, in order. */
  function Used(n: Node): seq<int>
    requires 0 <= n.numBlocks <= |n.blocks|
  {
    n.blocks[..n.numBlocks]
  }

  lemma UsedOk(fs: Fs, i: int)
    requires Inv(fs) && 0 <= i < |fs.nodes| && fs.nodes[i].Some?
    ensures NodeOk(fs.nodes[i].value, |fs.disk.data|)
    ensures var blocks := Used(fs.nodes[i].value);
      && BlocksIn(blocks, |fs.disk.data|) && Distinct(blocks)
      && |fs.nodes[i].value.blocks| == MAX_BLOCKS_PER_FILE
      && (forall b :: b in blocks ==> forall j, k :: Owns(fs.nodes, j, k, b) ==> j == i)
  {
    hide DirOk, Synced;
    OwnBits(fs, i);
    var n := fs.nodes[i].value;
    forall k | 0 <= k < n.numBlocks ensures Owns(fs.nodes, i, k, n.blocks[k]) {}
  }

  lemma ContentAt(data: seq<Block>, n: Node, j: int)
    requires DataOk(data) && NodeOk(n, |data|) && 0 <= j < n.fileSize && BlocksIn(Used(n), |data|)
    ensures j < |Used(n)| * BLOCK_SIZE && Content(data, n)[j] == At(data, Used(n), j)
  {
    InBlock(n, j);
  }

  /** The part of `my_write` after the file has been given its size. */
  function PutBytes(fs: Fs, i: int, buf: seq<Byte>, off: int, now: int): (r: Fs)
    requires Inv(fs) && 0 <= i < |fs.nodes| && fs.nodes[i].Some? && 0 <= off && off + |buf| == |FileOf(fs, i)|
  {
    UsedOk(fs, i);
    var n := fs.nodes[i].value;
    var data := WriteLoop(fs.disk.data, Used(n), buf, off);
    WriteBack(SetNode(DataOnly(fs, data), i, n.(mtime := now)), i)
  }

  /** `my_write`; the number returned is what the caller gets. */
  function Write(fs: Fs, i: int, buf: seq<Byte>, off: int, now: int): (r: (Fs, int))
    requires Inv(fs) && 0 <= i < |fs.nodes| && fs.nodes[i].Some? && 0 <= off && off + |buf| <= MAX_FILE_SIZE
  {
    hide Resize, Content;
    ResizeReady(fs, i, off + |buf|, now);
    var (fs1, code) := Resize(fs, i, off + |buf|, now);
    if code < 0 then (fs1, -EIO) else (PutBytes(fs1, i, buf, off, now), |buf|)
  }

  lemma ResizeReady(fs: Fs, i: int, newSize: int, now: int)
    requires Inv(fs) && 0 <= i < |fs.nodes| && fs.nodes[i].Some? && 0 <= newSize <= MAX_FILE_SIZE
    ensures Live(fs, i)
    ensures var (fs1, code) := Resize(fs, i, newSize, now);
      code >= 0 ==> Inv(fs1) && |fs1.nodes| == |fs.nodes| && fs1.nodes[i].Some? && |FileOf(fs1, i)| == newSize
  {
    hide Resize, Inv, Content;
    ResizeOk(fs, i, newSize, now);
  }

  /** Rewriting the bytes of a file in the blocks it has. */
  lemma RewriteOk(fs: Fs, i: int, buf: seq<Byte>, off: int, now: int)
    requires Inv(fs) && 0 <= i < |fs.nodes| && fs.nodes[i].Some? && 0 <= off && off + |buf| == |FileOf(fs, i)|
    ensures FileBecomes(fs, PutBytes(fs, i, buf, off, now), i, FileOf(fs, i)[..off] + buf)
  {
    hide DirOk, Synced, AllocOk, WriteLoop, Content, ByteAt, At, FileBecomes, DataOk;
    UsedOk(fs, i);
    var n := fs.nodes[i].value;
    var n1 := n.(mtime := now);
    var data := WriteLoop(fs.disk.data, Used(n), buf, off);
    WriteLoopEffect(fs.disk.data, Used(n), buf, off);
    SameBlocksAllocOk(fs, i, n1);
    StoreOk(fs, i, n1, fs.super.freeBlocks, fs.bitMap, data);
    assert PutBytes(fs, i, buf, off, now) == Store(fs, i, n1, fs.super.freeBlocks, fs.bitMap, data);
    var c := Content(data, n1);
    forall j | 0 <= j < n.fileSize ensures c[j] == (FileOf(fs, i)[..off] + buf)[j] {
      ContentAt(data, n1, j);
      ContentAt(fs.disk.data, n, j);
      assert Used(n1) == Used(n);
    }
    assert c == FileOf(fs, i)[..off] + buf;
  }

  lemma SameBlocksAllocOk(fs: Fs, i: int, n1: Node)
    requires Inv(fs) && 0 <= i < |fs.nodes| && fs.nodes[i].Some?
    requires n1.blocks == fs.nodes[i].value.blocks && n1.numBlocks == fs.nodes[i].value.numBlocks
    ensures AllocOk(fs.nodes[i := Some(n1)], fs.bitMap, |fs.disk.data|, fs.super.freeBlocks)
  {
    hide DirOk, Synced, NodesOk;
    var nodes' := fs.nodes[i := Some(n1)];
    forall j, k, b ensures Owns(nodes', j, k, b) <==> Owns(fs.nodes, j, k, b) {}
  }

  /** A write makes the file its old first `off` bytes, zero-extended, followed by the buffer, when the free blocks
      suffice; a longer file is cut. Otherwise the caller gets -EIO and no file changes. */
  lemma WriteOk(fs: Fs, i: int, buf: seq<Byte>, off: int, now: int)
    requires Inv(fs) && 0 <= i < |fs.nodes| && fs.nodes[i].Some? && 0 <= off && off + |buf| <= MAX_FILE_SIZE
    ensures var (fs', code) := Write(fs, i, buf, off, now);
      if Extra(fs, i, off + |buf|) <= fs.super.freeBlocks
      then code == |buf| && FileBecomes(fs, fs', i, Resized(FileOf(fs, i), off) + buf)
      else code == -EIO && FileBecomes(fs, fs', i, FileOf(fs, i)) && fs' == DataOnly(fs, fs'.disk.data)
  {
    hide Content, PutBytes, Resize, DirOk, Synced, AllocOk;
    ResizeOk(fs, i, off + |buf|, now);
    var (fs1, code) := Resize(fs, i, off + |buf|, now);
    if code >= 0 {
      var c1 := Resized(FileOf(fs, i), off + |buf|);
      RewriteOk(fs1, i, buf, off, now);
      BecomesTwice(fs, fs1, Write(fs, i, buf, off, now).0, i, c1, c1[..off] + buf);
      assert c1[..off] == Resized(FileOf(fs, i), off);
    }
  }

  // ---------------------------------------------------------------- back-to-back writes

  function Concat(chunks: seq<seq<Byte>>): (r: seq<Byte>)
  {
    if chunks == [] then [] else chunks[0] + Concat(chunks[1..])
  }

  /** The chunks are written one after the other, each where the one before ended; the flag tells whether every write
      returned the size of its chunk. */
  function WriteAll(fs: Fs, i: int, chunks: seq<seq<Byte>>, off: int, now: int): (r: (Fs, bool))
    requires Inv(fs) && 0 <= i < |fs.nodes| && fs.nodes[i].Some? && 0 <= off && off + |Concat(chunks)| <= MAX_FILE_SIZE
    decreases |chunks|
  {
    if chunks == [] then (fs, true)
    else
      WriteOk(fs, i, chunks[0], off, now);
      var (fs1, code) := Write(fs, i, chunks[0], off, now);
      var (fs2, ok) := WriteAll(fs1, i, chunks[1..], off + |chunks[0]|, now);
      (fs2, ok && code == |chunks[0]|)
  }

  /** For any chunk sizes, back-to-back writes from `off` all succeed exactly when the disk has room for the final
      size, and then they store the concatenation of the chunks after the old first `off` bytes. */
  lemma {:induction false} WritesConcatenate(fs: Fs, i: int, chunks: seq<seq<Byte>>, off: int, now: int)
    requires Inv(fs) && 0 <= i < |fs.nodes| && fs.nodes[i].Some? && chunks != []
    requires 0 <= off && off + |Concat(chunks)| <= MAX_FILE_SIZE
    ensures var (fs', ok) := WriteAll(fs, i, chunks, off, now);
      && (ok <==> Extra(fs, i, off + |Concat(chunks)|) <= fs.super.freeBlocks)
      && (ok ==> FileBecomes(fs, fs', i, Resized(FileOf(fs, i), off) + Concat(chunks)))
    decreases |chunks|
  {
    hide Inv, Content, Write, BlocksFor, FileBecomes, Resized;
    BlocksMonotone(off + |chunks[0]|, off + |Concat(chunks)|);
    WriteOk(fs, i, chunks[0], off, now);
    var (fs1, code) := Write(fs, i, chunks[0], off, now);
    var c1 := Resized(FileOf(fs, i), off) + chunks[0];
    if |chunks| == 1 {
      assert chunks[1..] == [];
      assert Concat(chunks) == chunks[0];
    } else if code == |chunks[0]| {
      BecomesBlocks(fs, fs1, i, c1);
      WritesConcatenate(fs1, i, chunks[1..], off + |chunks[0]|, now);
      AllOfIt(c1);
      var c2 := c1 + Concat(chunks[1..]);
      var (fs2, ok) := WriteAll(fs1, i, chunks[1..], off + |chunks[0]|, now);
      if ok { BecomesTwice(fs, fs1, fs2, i, c1, c2); }
      assert c2 == Resized(FileOf(fs, i), off) + Concat(chunks);
    }
  }

  lemma AllOfIt(c: seq<Byte>)
    ensures Resized(c, |c|) == c
  {
  }

  lemma BecomesBlocks(fs: Fs, fs1: Fs, i: int, c: seq<Byte>)
    requires Inv(fs) && FileBecomes(fs, fs1, i, c)
    ensures Inv(fs1) && 0 <= i < |fs.nodes| && fs.nodes[i].Some? && |fs1.nodes| == |fs.nodes| && fs1.nodes[i].Some?
    ensures FileOf(fs1, i) == c
    ensures fs1.super.freeBlocks + fs1.nodes[i].value.numBlocks == fs.super.freeBlocks + fs.nodes[i].value.numBlocks
  {
    hide AllocOk, DirOk, Synced, Content;
  }

  // ---------------------------------------------------------------- my_read

  /** The loop of `my_read`. After each block the offset advances by the index where the block's loop stopped, not by
      the bytes it copied. None: the loop would look beyond the blocks of the file. */
  function ReadLoop(data: seq<Block>, blocks: seq<int>, size: int, off: int): (r: Option<seq<Byte>>)
    requires DataOk(data) && BlocksIn(blocks, |data|) && 0 <= off && 0 <= size
    ensures r.Some? ==> |r.value| == size
    decreases size
  {
    if size == 0 then Some([])
    else if off / BLOCK_SIZE >= |blocks| then None
    else
      var offBlock := off % BLOCK_SIZE;
      var count := Min(BLOCK_SIZE - offBlock, size);
      var chunk := data[blocks[off / BLOCK_SIZE]][offBlock..offBlock + count];
      match ReadLoop(data, blocks, size - count, off + offBlock + count)
      case None => None
      case Some(rest) => Some(chunk + rest)
  }

  /** The requested bytes. */
  function Slice(data: seq<Block>, blocks: seq<int>, off: int, size: int): (r: seq<Byte>)
    requires DataOk(data) && BlocksIn(blocks, |data|) && 0 <= off && 0 <= size && off + size <= |blocks| * BLOCK_SIZE
    ensures |r| == size
  {
    seq<Byte>(size, j requires 0 <= j < size => At(data, blocks, off + j))
  }

  lemma SliceSplits(data: seq<Block>, blocks: seq<int>, off: int, size: int, count: int)
    requires DataOk(data) && BlocksIn(blocks, |data|) && 0 <= off && 0 <= count <= size && off + size <= |blocks| * BLOCK_SIZE
    ensures Slice(data, blocks, off, size) == Slice(data, blocks, off, count) + Slice(data, blocks, off + count, size - count)
  {
  }

  lemma SliceOneBlock(data: seq<Block>, blocks: seq<int>, off: int, count: int)
    requires DataOk(data) && BlocksIn(blocks, |data|) && 0 <= off && 0 < count && off % BLOCK_SIZE + count <= BLOCK_SIZE
    requires off + count <= |blocks| * BLOCK_SIZE
    ensures 0 <= off / BLOCK_SIZE < |blocks|
    ensures Slice(data, blocks, off, count) == data[blocks[off / BLOCK_SIZE]][off % BLOCK_SIZE..off % BLOCK_SIZE + count]
  {
    InList(blocks, off);
    var chunk := data[blocks[off / BLOCK_SIZE]][off % BLOCK_SIZE..off % BLOCK_SIZE + count];
    forall j | 0 <= j < count ensures Slice(data, blocks, off, count)[j] == chunk[j] {
      Within(off, j);
      assert At(data, blocks, off + j) == data[blocks[off / BLOCK_SIZE]][off % BLOCK_SIZE + j];
    }
    assert Slice(data, blocks, off, count) == chunk;
  }

  lemma Within(off: int, j: int)
    requires 0 <= off && 0 <= j && off % BLOCK_SIZE + j < BLOCK_SIZE
    ensures (off + j) / BLOCK_SIZE == off / BLOCK_SIZE && (off + j) % BLOCK_SIZE == off % BLOCK_SIZE + j
  {
  }

  /** When reading is right: the offset is block-aligned, or the request stays inside one block. */
  predicate Readable(off: int, size: int) {
    off % BLOCK_SIZE == 0 || off % BLOCK_SIZE + size <= BLOCK_SIZE
  }

  lemma {:induction false} ReadRight(data: seq<Block>, blocks: seq<int>, size: int, off: int)
    requires DataOk(data) && BlocksIn(blocks, |data|) && 0 <= off && 0 <= size && off + size <= |blocks| * BLOCK_SIZE
    requires Readable(off, size)
    ensures ReadLoop(data, blocks, size, off) == Some(Slice(data, blocks, off, size))
    decreases size
  {
    if size == 0 {
      SliceNothing(data, blocks, off);
    } else {
      hide Slice, ReadLoop, DataOk, Readable;
      var count := ReadableTurn(off, size);
      ReadTurn(data, blocks, size, off, count);
      SliceSplits(data, blocks, off, size, count);
      if count < size {
        ReadRight(data, blocks, size - count, off + count);
      } else {
        SliceNothing(data, blocks, off + count);
      }
    }
  }

  /** A readable request that goes on behind its first block is aligned, and so is the rest of it. */
  lemma ReadableTurn(off: int, size: int) returns (count: int)
    requires 0 <= off && 0 < size && Readable(off, size)
    ensures count == Min(BLOCK_SIZE - off % BLOCK_SIZE, size) && 0 < count <= size
    ensures count < size ==> off % BLOCK_SIZE == 0 && Readable(off + count, size - count)
  {
    count := Min(BLOCK_SIZE - off % BLOCK_SIZE, size);
  }

  /** One turn of a request that starts a block or ends in this one. */
  lemma ReadTurn(data: seq<Block>, blocks: seq<int>, size: int, off: int, count: int)
    requires DataOk(data) && BlocksIn(blocks, |data|) && 0 <= off && 0 < size && off + size <= |blocks| * BLOCK_SIZE
    requires count == Min(BLOCK_SIZE - off % BLOCK_SIZE, size) && 0 < count && (count < size ==> off % BLOCK_SIZE == 0)
    ensures var first, rest := Slice(data, blocks, off, count), ReadLoop(data, blocks, size - count, off + count);
      ReadLoop(data, blocks, size, off)
      == if count == size then Some(first) else if rest.None? then None else Some(first + rest.value)
  {
    InList(blocks, off);
    var q, o := off / BLOCK_SIZE, off % BLOCK_SIZE;
    ReadUnfolds(data, blocks, size, off, q, o, count);
    hide Slice, DataOk;
    SliceOneBlock(data, blocks, off, count);
    if count == size {
      assert ReadLoop(data, blocks, 0, off + o + count) == Some([]);
      assert Slice(data, blocks, off, count) + [] == Slice(data, blocks, off, count);
    } else {
      hide ReadLoop;
      assert off + o + count == off + count;
    }
  }

  lemma SliceNothing(data: seq<Block>, blocks: seq<int>, off: int)
    requires DataOk(data) && BlocksIn(blocks, |data|) && 0 <= off <= |blocks| * BLOCK_SIZE
    ensures Slice(data, blocks, off, 0) == []
  {
  }

  function ProbeBlock(one: bool): (b: Block)
    ensures |b| == BLOCK_SIZE && b[0] == (if one then 1 else 0) && forall j :: 0 < j < BLOCK_SIZE ==> b[j] == 0
  {
    seq(BLOCK_SIZE, j => if one && j == 0 then 1 else 0)
  }

  /** A disk that holds zeros, except for a one at the start of block b. */
  function Probe(diskBlocks: int, b: int): (data: seq<Block>)
    requires 0 <= b < diskBlocks
    ensures |data| == diskBlocks && DataOk(data)
    ensures data[b][0] == 1 && forall j :: 0 < j < BLOCK_SIZE ==> data[b][j] == 0
  {
    var r := seq<Block>(diskBlocks, k => ProbeBlock(k == b));
    assert forall k :: 0 <= k < diskBlocks ==> r[k] == ProbeBlock(k == b);
    r
  }

  /** An unreadable request crosses from its first block into the next. */
  lemma Crossing(off: int, size: int, n: int) returns (q: int, o: int)
    requires 0 <= off && 0 <= size && off + size <= n * BLOCK_SIZE && !Readable(off, size)
    ensures off == q * BLOCK_SIZE + o && 0 <= q && q + 1 < n && 0 < o < BLOCK_SIZE && BLOCK_SIZE - o < size
  {
    q, o := off / BLOCK_SIZE, off % BLOCK_SIZE;
    assert (q + 1) * BLOCK_SIZE == off + (BLOCK_SIZE - o);
  }

  lemma ReadWrong(diskBlocks: int, blocks: seq<int>, size: int, off: int) returns (q: int)
    requires BlocksIn(blocks, diskBlocks) && 0 <= off && 0 <= size && off + size <= |blocks| * BLOCK_SIZE
    requires !Readable(off, size)
    ensures 0 <= q < |blocks| && 0 <= blocks[q] < diskBlocks
    ensures var data := Probe(diskBlocks, blocks[q]);
      ReadLoop(data, blocks, size, off) != Some(Slice(data, blocks, off, size))
  {
    var first, o := Crossing(off, size, |blocks|);
    q := first + 1;
    hide *;
    ReadWrongAt(diskBlocks, blocks, size, first, o);
  }

  lemma ReadWrongAt(diskBlocks: int, blocks: seq<int>, size: int, q: int, o: int)
    requires BlocksIn(blocks, diskBlocks) && 0 <= q && q + 1 < |blocks| && 0 < o < BLOCK_SIZE && BLOCK_SIZE - o < size
    requires q * BLOCK_SIZE + o + size <= |blocks| * BLOCK_SIZE
    ensures 0 <= blocks[q + 1] < diskBlocks
    ensures var data := Probe(diskBlocks, blocks[q + 1]);
      ReadLoop(data, blocks, size, q * BLOCK_SIZE + o) != Some(Slice(data, blocks, q * BLOCK_SIZE + o, size))
  {
    hide ReadLoop, Slice, Probe;
    var data := Probe(diskBlocks, blocks[q + 1]);
    ReadTwo(data, blocks, size, q, o);
    SliceTwo(data, blocks, size, q, o);
  }

  /** The first byte after the end of the first block comes from the wrong place. */
  lemma ReadTwo(data: seq<Block>, blocks: seq<int>, size: int, q: int, o: int)
    requires DataOk(data) && BlocksIn(blocks, |data|) && 0 <= q && q + 1 < |blocks| && 0 < o < BLOCK_SIZE && BLOCK_SIZE - o < size
    ensures var r := ReadLoop(data, blocks, size, q * BLOCK_SIZE + o);
      r.Some? ==> r.value[BLOCK_SIZE - o] == data[blocks[q + 1]][o]
  {
    hide ReadLoop;
    var count := BLOCK_SIZE - o;
    var off1 := q * BLOCK_SIZE + o + o + count;
    assert off1 == (q + 1) * BLOCK_SIZE + o;
    ReadStep(data, blocks, size, q, o);
    ReadStep(data, blocks, size - count, q + 1, o);
    var r, rest := ReadLoop(data, blocks, size, q * BLOCK_SIZE + o), ReadLoop(data, blocks, size - count, off1);
    if r.Some? {
      assert r.value == data[blocks[q]][o..o + count] + rest.value;
      assert rest.value[0] == data[blocks[q + 1]][o];
    }
  }

  /** The byte that belongs there. */
  lemma SliceTwo(data: seq<Block>, blocks: seq<int>, size: int, q: int, o: int)
    requires DataOk(data) && BlocksIn(blocks, |data|) && 0 <= q && q + 1 < |blocks| && 0 < o < BLOCK_SIZE && BLOCK_SIZE - o < size
    requires q * BLOCK_SIZE + o + size <= |blocks| * BLOCK_SIZE
    ensures Slice(data, blocks, q * BLOCK_SIZE + o, size)[BLOCK_SIZE - o] == data[blocks[q + 1]][0]
  {
    var p := (q + 1) * BLOCK_SIZE;
    assert p / BLOCK_SIZE == q + 1 && p % BLOCK_SIZE == 0;
    var off := q * BLOCK_SIZE + o;
    assert off + (BLOCK_SIZE - o) == p;
    assert At(data, blocks, p) == data[blocks[q + 1]][0];
    assert Slice(data, blocks, off, size)[BLOCK_SIZE - o] == At(data, blocks, off + (BLOCK_SIZE - o));
  }

  lemma ReadStep(data: seq<Block>, blocks: seq<int>, size: int, q: int, o: int)
    requires DataOk(data) && BlocksIn(blocks, |data|) && 0 < size && 0 <= q < |blocks| && 0 <= o < BLOCK_SIZE
    ensures var count := Min(BLOCK_SIZE - o, size);
      var r := ReadLoop(data, blocks, size, q * BLOCK_SIZE + o);
      var rest := ReadLoop(data, blocks, size - count, q * BLOCK_SIZE + o + o + count);
      r.Some? ==> rest.Some? && r.value == data[blocks[q]][o..o + count] + rest.value
  {
    hide ReadLoop;
    InBlockK(q, o);
    var off := q * BLOCK_SIZE + o;
    var count := Min(BLOCK_SIZE - o, size);
    ReadUnfolds(data, blocks, size, off, q, o, count);
  }

  /** One turn of the loop. */
  lemma ReadUnfolds(data: seq<Block>, blocks: seq<int>, size: int, off: int, q: int, o: int, count: int)
    requires DataOk(data) && BlocksIn(blocks, |data|) && 0 < size && 0 <= off
    requires q == off / BLOCK_SIZE < |blocks| && o == off % BLOCK_SIZE && count == Min(BLOCK_SIZE - o, size)
    ensures var r, rest := ReadLoop(data, blocks, size, off), ReadLoop(data, blocks, size - count, off + o + count);
      r == if rest.None? then None else Some(data[blocks[q]][o..o + count] + rest.value)
  {
  }

  /** Reading `size` bytes at `off` from these blocks is right whatever the disk holds. */
  ghost predicate AlwaysRight(diskBlocks: int, blocks: seq<int>, size: int, off: int)
    requires BlocksIn(blocks, diskBlocks) && 0 <= off && 0 <= size && off + size <= |blocks| * BLOCK_SIZE
  {
    forall data: seq<Block> :: |data| == diskBlocks && DataOk(data) ==>
      ReadLoop(data, blocks, size, off) == Some(Slice(data, blocks, off, size))
  }

  /** Within the blocks of the file, my_read returns the requested bytes for every contents of the disk exactly when
      the offset is block-aligned or the request stays inside one block. */
  lemma ReadExactly(diskBlocks: int, blocks: seq<int>, size: int, off: int)
    requires BlocksIn(blocks, diskBlocks) && 0 <= off && 0 <= size && off + size <= |blocks| * BLOCK_SIZE
    ensures AlwaysRight(diskBlocks, blocks, size, off) <==> Readable(off, size)
  {
    if Readable(off, size) {
      forall data: seq<Block> | |data| == diskBlocks && DataOk(data)
        ensures ReadLoop(data, blocks, size, off) == Some(Slice(data, blocks, off, size))
      {
        ReadRight(data, blocks, size, off);
      }
    } else {
      var q := ReadWrong(diskBlocks, blocks, size, off);
      assert |Probe(diskBlocks, blocks[q])| == diskBlocks;
    }
  }

  /** `my_read` */
  function Read(fs: Fs, i: int, size: int, off: int): (r: Option<seq<Byte>>)
    requires Inv(fs) && 0 <= i < |fs.nodes| && fs.nodes[i].Some? && 0 <= off && 0 <= size
  {
    UsedOk(fs, i);
    ReadLoop(fs.disk.data, Used(fs.nodes[i].value), size, off)
  }

  /** What was written is read back. */
  lemma ReadsFile(fs: Fs, i: int, size: int, off: int)
    requires Inv(fs) && 0 <= i < |fs.nodes| && fs.nodes[i].Some? && 0 <= off && 0 <= size && off + size <= |FileOf(fs, i)|
    requires Readable(off, size)
    ensures Read(fs, i, size, off) == Some(FileOf(fs, i)[off..off + size])
  {
    hide Content, ByteAt, At, AllocOk, DirOk, Synced, ReadLoop;
    UsedOk(fs, i);
    var n := fs.nodes[i].value;
    ReadRight(fs.disk.data, Used(n), size, off);
    forall j | 0 <= j < size ensures Slice(fs.disk.data, Used(n), off, size)[j] == FileOf(fs, i)[off..off + size][j] {
      ContentAt(fs.disk.data, n, off + j);
    }
    assert Slice(fs.disk.data, Used(n), off, size) == FileOf(fs, i)[off..off + size];
  }
}
