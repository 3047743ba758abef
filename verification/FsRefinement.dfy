/** Every run of the file system behaves as a map from names to bytes. */
module FsRefinement {
  import opened Basics
  import opened FsTypes
  import opened FsSpec
  import opened FsInvariant
  import opened FsResize
  import opened FsWrite
  import opened FsDirectory
  import opened FsMount

  /** The calls that change the file system. A write goes to a file that was opened by name. `now` is the clock,
      `junk` and `tipos` are what malloc left in memory; none of them shows in the result. */
  datatype Op =
    | MakeNode(name: string, now: int, junk: seq<int>)
    | MakeDir(name: string, now: int, junk: seq<int>)
    | WriteFile(name: string, buf: seq<Byte>, off: int, now: int)
    | Truncate(name: string, size: int, now: int)
    | Remount(tipos: seq<int>)

  /** The size that a file is given stays within what an inode can address. */
  predicate Allowed(op: Op) {
    match op
    case MakeNode(_, _, junk) => |junk| == MAX_BLOCKS_PER_FILE
    case MakeDir(_, _, junk) => |junk| == MAX_BLOCKS_PER_FILE
    case WriteFile(_, buf, off, _) => 0 <= off && off + |buf| <= MAX_FILE_SIZE
    case Truncate(_, size, _) => 0 <= size <= MAX_FILE_SIZE
    case Remount(tipos) => |tipos| == MAX_NODES
  }

  /** `my_open` followed by `my_write`. */
  function OpenWrite(fs: Fs, name: string, buf: seq<Byte>, off: int, now: int): (Fs, int)
    requires Inv(fs) && 0 <= off && off + |buf| <= MAX_FILE_SIZE
  {
    FindsNames(fs.dir.files, name);
    if FindFile(fs.dir.files, name, 0) == -1 then (fs, -ENOENT)
    else Write(fs, InodeOf(fs, name), buf, off, now)
  }

  /** `my_truncate` */
  function TruncateFile(fs: Fs, name: string, size: int, now: int): (Fs, int)
    requires Inv(fs) && 0 <= size <= MAX_FILE_SIZE
  {
    FindsNames(fs.dir.files, name);
    if FindFile(fs.dir.files, name, 0) == -1 then (fs, -ENOENT)
    else
      ResizeReady(fs, InodeOf(fs, name), size, now);
      var (fs1, code) := Resize(fs, InodeOf(fs, name), size, now);
      if code < 0 then (fs1, -EIO) else (fs1, 0)
  }

  function Apply(fs: Fs, op: Op): (r: (Fs, int))
    requires Inv(fs) && Allowed(op)
  {
    match op
    case MakeNode(name, now, junk) => Create(fs, name, 0, now, junk)
    case MakeDir(name, now, junk) => Create(fs, name, 1, now, junk)
    case WriteFile(name, buf, off, now) => OpenWrite(fs, name, buf, off, now)
    case Truncate(name, size, now) => TruncateFile(fs, name, size, now)
    case Remount(tipos) => (Mount(fs.disk, tipos), 0)
  }

  // ---------------------------------------------------------------- the abstract file system

  /** A map from names to bytes, and the number of blocks that are not used by any file. */
  datatype Files = Files(files: map<string, seq<Byte>>, free: int)

  /** A file is given contents c, if the blocks suffice. */
  function Put(a: Files, name: string, c: seq<Byte>, code: int): (Files, int)
    requires name in a.files
  {
    var extra := BlocksFor(|c|) - BlocksFor(|a.files[name]|);
    if extra > a.free then (a, -EIO) else (Files(a.files[name := c], a.free - extra), code)
  }

  function Make(a: Files, name: string): (Files, int) {
    if |name| > MAX_LEN_FILE_NAME then (a, -ENAMETOOLONG)
    else if |a.files| >= MAX_NODES then (a, -ENOSPC)
    else if name in a.files then (a, -EEXIST)
    else (a.(files := a.files[name := []]), 0)
  }

  function AbstractStep(a: Files, op: Op): (Files, int)
    requires Allowed(op)
  {
    match op
    case MakeNode(name, _, _) => Make(a, name)
    case MakeDir(name, _, _) => Make(a, name)
    case WriteFile(name, buf, off, _) =>
      if name !in a.files then (a, -ENOENT) else Put(a, name, Resized(a.files[name], off) + buf, |buf|)
    case Truncate(name, size, _) =>
      if name !in a.files then (a, -ENOENT) else Put(a, name, Resized(a.files[name], size), 0)
    case Remount(_) => (a, 0)
  }

  /** What a state of the file system represents. */
  function Represented(fs: Fs): Files
    requires Inv(fs)
  {
    Files(Abs(fs), fs.super.freeBlocks)
  }

  // ---------------------------------------------------------------- one step

  lemma AbsAt(fs: Fs, name: string)
    requires Inv(fs)
    ensures FindFile(fs.dir.files, name, 0) != -1 <==> name in FileNames(fs)
    ensures name in FileNames(fs) <==> name in Abs(fs)
    ensures name in Abs(fs) ==>
      Abs(fs)[name] == FileOf(fs, InodeOf(fs, name)) && BlocksFor(|Abs(fs)[name]|) == fs.nodes[InodeOf(fs, name)].value.numBlocks
  {
    hide AllocOk, DirOk, Synced;
    FindsNames(fs.dir.files, name);
  }

  lemma PutRefines(fs: Fs, fs': Fs, name: string, c: seq<Byte>)
    requires Inv(fs) && name in Abs(fs) && FindFile(fs.dir.files, name, 0) != -1 && name in FileNames(fs)
    requires FileBecomes(fs, fs', InodeOf(fs, name), c)
    ensures Inv(fs')
    ensures Represented(fs') == Files(Abs(fs)[name := c], fs.super.freeBlocks + BlocksFor(|Abs(fs)[name]|) - BlocksFor(|c|))
  {
    hide Inv, BlocksFor, FileOf, InodeOf, OthersSame;
    AbsBecomes(fs, fs', name, c);
  }

  lemma SameAgain(m: map<string, seq<Byte>>, name: string)
    requires name in m
    ensures m[name := m[name]] == m
  {
  }

  lemma WriteRefines(fs: Fs, name: string, buf: seq<Byte>, off: int, now: int)
    requires Inv(fs) && 0 <= off && off + |buf| <= MAX_FILE_SIZE
    ensures var (fs', code) := OpenWrite(fs, name, buf, off, now);
      Inv(fs') && (Represented(fs'), code) == AbstractStep(Represented(fs), WriteFile(name, buf, off, now))
  {
    hide Inv, Abs, Write, FileBecomes, BlocksFor, InodeOf, FileOf, Resized;
    AbsAt(fs, name);
    if name in Abs(fs) {
      var i := InodeOf(fs, name);
      WriteOk(fs, i, buf, off, now);
      var fs' := Write(fs, i, buf, off, now).0;
      var c := Resized(Abs(fs)[name], off) + buf;
      if Extra(fs, i, off + |buf|) <= fs.super.freeBlocks {
        PutRefines(fs, fs', name, c);
      } else {
        PutRefines(fs, fs', name, Abs(fs)[name]);
        SameAgain(Abs(fs), name);
      }
    }
  }

  lemma TruncateRefines(fs: Fs, name: string, size: int, now: int)
    requires Inv(fs) && 0 <= size <= MAX_FILE_SIZE
    ensures var (fs', code) := TruncateFile(fs, name, size, now);
      Inv(fs') && (Represented(fs'), code) == AbstractStep(Represented(fs), Truncate(name, size, now))
  {
    hide AllocOk, DirOk, Synced, NodesOk, Abs, Resize, FileBecomes, BlocksFor, InodeOf, FileOf, Resized;
    AbsAt(fs, name);
    if name in Abs(fs) {
      var i := InodeOf(fs, name);
      ResizeOk(fs, i, size, now);
      var fs' := Resize(fs, i, size, now).0;
      if Extra(fs, i, size) <= fs.super.freeBlocks {
        PutRefines(fs, fs', name, Resized(Abs(fs)[name], size));
      } else {
        PutRefines(fs, fs', name, Abs(fs)[name]);
        SameAgain(Abs(fs), name);
      }
    }
  }

  /** Every call keeps the invariant, returns what the abstract file system returns and has the same effect. */
  lemma StepRefines(fs: Fs, op: Op)
    requires Inv(fs) && Allowed(op)
    ensures var (fs', code) := Apply(fs, op);
      Inv(fs') && (Represented(fs'), code) == AbstractStep(Represented(fs), op)
  {
    hide Inv, Abs, Create, OpenWrite, TruncateFile, Mount, Put;
    match op {
      case MakeNode(name, now, junk) => CreateOk(fs, name, 0, now, junk);
      case MakeDir(name, now, junk) => CreateOk(fs, name, 1, now, junk);
      case WriteFile(name, buf, off, now) => WriteRefines(fs, name, buf, off, now);
      case Truncate(name, size, now) => TruncateRefines(fs, name, size, now);
      case Remount(tipos) =>
        MountRecovers(fs, tipos);
    }
  }

  // ---------------------------------------------------------------- whole runs

  /** The state after the calls, and what each of them returned. */
  function Run(fs: Fs, ops: seq<Op>): (r: (Fs, seq<int>))
    requires Inv(fs) && forall k :: 0 <= k < |ops| ==> Allowed(ops[k])
    decreases |ops|
  {
    if ops == [] then (fs, [])
    else
      StepRefines(fs, ops[0]);
      var (fs1, code) := Apply(fs, ops[0]);
      var (fs2, codes) := Run(fs1, ops[1..]);
      (fs2, [code] + codes)
  }

  function AbstractRun(a: Files, ops: seq<Op>): (r: (Files, seq<int>))
    requires forall k :: 0 <= k < |ops| ==> Allowed(ops[k])
    decreases |ops|
  {
    if ops == [] then (a, [])
    else
      var (a1, code) := AbstractStep(a, ops[0]);
      var (a2, codes) := AbstractRun(a1, ops[1..]);
      (a2, [code] + codes)
  }

  lemma {:induction false} RunRefinesFrom(fs: Fs, ops: seq<Op>)
    requires Inv(fs) && forall k :: 0 <= k < |ops| ==> Allowed(ops[k])
    ensures var (fs', codes) := Run(fs, ops);
      Inv(fs') && (Represented(fs'), codes) == AbstractRun(Represented(fs), ops)
    decreases |ops|
  {
    if ops != [] {
      hide Inv, Abs, Apply, AbstractStep;
      StepRefines(fs, ops[0]);
      RunRefinesFrom(Apply(fs, ops[0]).0, ops[1..]);
    }
  }

  /** From a fresh disk, every run of calls (with the disk unmounted and mounted again anywhere in it) returns what
      the map from names to bytes returns, and ends in the state that represents the same map. */
  lemma RunRefines(diskSize: int, data: seq<Block>, now: int, junk: Node, ops: seq<Op>)
    requires DataOk(data) && Mkfs(diskSize, data, now, junk).Made?
    requires forall k :: 0 <= k < |ops| ==> Allowed(ops[k])
    ensures var fs0 := Mkfs(diskSize, data, now, junk).fs;
      && Inv(fs0)
      && var (fs, codes) := Run(fs0, ops);
        && Inv(fs)
        && (Represented(fs), codes) == AbstractRun(Files(map[], diskSize / BLOCK_SIZE - FIRST_DATA), ops)
  {
    hide Inv, Abs, Apply, AbstractStep, Mkfs;
    MkfsOk(diskSize, data, now, junk);
    RunRefinesFrom(Mkfs(diskSize, data, now, junk).fs, ops);
  }

  /** After any run, mounting the disk in a new process gives the state of the old one, `tipo` excepted. */
  lemma MountAfterRun(diskSize: int, data: seq<Block>, now: int, junk: Node, ops: seq<Op>, tipos: seq<int>)
    requires DataOk(data) && Mkfs(diskSize, data, now, junk).Made?
    requires |tipos| == MAX_NODES && forall k :: 0 <= k < |ops| ==> Allowed(ops[k])
    ensures var fs0 := Mkfs(diskSize, data, now, junk).fs;
      && Inv(fs0)
      && var fs := Run(fs0, ops).0;
        && Inv(fs) && |fs.disk.inodes| == MAX_NODES
        && var fs' := Mount(fs.disk, tipos);
          SameButTipo(fs, fs') && Inv(fs') && Abs(fs') == Abs(fs)
  {
    hide Inv, Abs, Apply, AbstractStep, Mkfs, Mount, SameButTipo, Run;
    RunRefines(diskSize, data, now, junk, ops);
    MountRecovers(Run(Mkfs(diskSize, data, now, junk).fs, ops).0, tipos);
  }

  // ---------------------------------------------------------------- what the abstract file system promises

  /** A file after a series of truncations. */
  function ResizedAll(c: seq<Byte>, sizes: seq<nat>): (r: seq<Byte>)
    decreases |sizes|
  {
    if sizes == [] then c else ResizedAll(Resized(c, sizes[0]), sizes[1..])
  }

  function Least(m: nat, sizes: seq<nat>): (r: nat)
    ensures r <= m
  {
    if sizes == [] then m else Least(if sizes[0] < m then sizes[0] else m, sizes[1..])
  }

  /** Whatever the order of shrinks and grows, the bytes of the file below the smallest size are the old ones, and all
      its others are zero. */
  lemma {:induction false} OnlyZerosExposed(c: seq<Byte>, sizes: seq<nat>, keep: nat)
    requires keep <= |c| && forall j :: keep <= j < |c| ==> c[j] == 0
    ensures var r := ResizedAll(c, sizes);
      && Least(keep, sizes) <= |r| == (if sizes == [] then |c| else sizes[|sizes| - 1])
      && (forall j :: 0 <= j < Least(keep, sizes) ==> r[j] == c[j])
      && (forall j :: Least(keep, sizes) <= j < |r| ==> r[j] == 0)
    decreases |sizes|
  {
    if sizes != [] {
      OnlyZerosExposed(Resized(c, sizes[0]), sizes[1..], if sizes[0] < keep then sizes[0] else keep);
    }
  }

  function Truncations(name: string, sizes: seq<nat>, now: int): (ops: seq<Op>)
    ensures |ops| == |sizes|
    ensures (forall k :: 0 <= k < |sizes| ==> sizes[k] <= MAX_FILE_SIZE) ==> forall k :: 0 <= k < |ops| ==> Allowed(ops[k])
  {
    seq(|sizes|, k requires 0 <= k < |sizes| => Truncate(name, sizes[k], now))
  }

  predicate AllDone(codes: seq<int>) {
    forall k :: 0 <= k < |codes| ==> codes[k] == 0
  }

  lemma {:induction false} AbstractTruncations(a: Files, name: string, sizes: seq<nat>, now: int)
    requires name in a.files && forall k :: 0 <= k < |sizes| ==> sizes[k] <= MAX_FILE_SIZE
    ensures var (a', codes) := AbstractRun(a, Truncations(name, sizes, now));
      AllDone(codes) ==> name in a'.files && a'.files[name] == ResizedAll(a.files[name], sizes)
    decreases |sizes|
  {
    if sizes != [] {
      var ops := Truncations(name, sizes, now);
      assert ops[1..] == Truncations(name, sizes[1..], now);
      var (a1, code) := AbstractStep(a, ops[0]);
      AbstractTruncations(a1, name, sizes[1..], now);
      var (a', codes) := AbstractRun(a, ops);
      if AllDone(codes) {
        assert codes[0] == code && codes[1..] == AbstractRun(a1, ops[1..]).1;
        assert AllDone(codes[1..]);
      }
    }
  }

  /** Truncating a file to any series of sizes leaves, in the map, its old bytes below the smallest size, and zeros above.
      What a shrink has cut off stays on the disk in the last block, where a read behind the end of the file still finds
      it (FsReading.CutBytesComeBack), until a growth clears it. */
  lemma TruncationsExposeZeros(fs: Fs, name: string, sizes: seq<nat>, now: int)
    requires Inv(fs) && name in Abs(fs) && sizes != [] && forall k :: 0 <= k < |sizes| ==> sizes[k] <= MAX_FILE_SIZE
    ensures var (fs', codes) := Run(fs, Truncations(name, sizes, now));
      Inv(fs') && (AllDone(codes) ==>
        && name in Abs(fs') && |Abs(fs')[name]| == sizes[|sizes| - 1]
        && var old_, new_ := Abs(fs)[name], Abs(fs')[name];
          forall j :: 0 <= j < |new_| ==>
            new_[j] == if j < Least(|old_|, sizes) then old_[j] else 0)
  {
    hide Inv, Abs, Apply, AbstractStep, Run, AbstractRun;
    RunRefinesFrom(fs, Truncations(name, sizes, now));
    AbstractTruncations(Represented(fs), name, sizes, now);
    OnlyZerosExposed(Abs(fs)[name], sizes, |Abs(fs)[name]|);
  }
}
