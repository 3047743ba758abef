/** The archive program: what its functions read and write, as functions on file contents. */
module TarSpec {
  import opened Basics

  type Bytes = seq<Byte>

  const INT_MAX := 0x7fff_ffff
  const TWO_32 := 0x1_0000_0000
  /** sizeof(int) */
  const INT_SIZE := 4
  /** sizeof(stHeaderEntry) on LP64: a pointer, an unsigned and padding. */
  const ENTRY_SIZE := 16

  /** Where the data of an archive of n files starts. */
  function DataStart(n: int): int {
    INT_SIZE + ENTRY_SIZE * n
  }

  /** The files of the machine by name. */
  type Table = map<Bytes, Bytes>

  // ---------------------------------------------------------------- streams

  /** `f` after `bytes` have been written at position `pos`; a gap before it reads as zeros. */
  function WriteAt(f: Bytes, pos: int, bytes: Bytes): (r: Bytes)
    requires 0 <= pos
  {
    if bytes == [] then f
    else
      var padded: Bytes := f + Zeros(pos - |f|);
      padded[..pos] + bytes + (if pos + |bytes| < |padded| then padded[pos + |bytes|..] else [])
  }

  function Zeros(n: int): (r: Bytes)
    ensures |r| == if n > 0 then n else 0
  {
    if n > 0 then seq<Byte>(n, _ => 0) else []
  }

  /** `copynFile`: what is copied from position `pos` of f, and where reading stops. The character read is kept in a
      `char`, which is signed, so a byte 0xFF looks like the end of the file. */
  function Copyn(f: Bytes, pos: int, n: int): (r: (Bytes, int))
    requires 0 <= pos
    ensures |r.0| <= (if n > 0 then n else 0) && pos + |r.0| <= r.1
    decreases |f| - pos
  {
    if n <= 0 || pos >= |f| then ([], pos)
    else if f[pos] == 0xFF then ([], pos + 1)
    else var (rest, p) := Copyn(f, pos + 1, n - 1); ([f[pos]] + rest, p)
  }

  /** What an archive keeps of a file. */
  function Stored(c: Bytes): (r: Bytes)
    ensures |r| <= INT_MAX
  {
    Copyn(c, 0, INT_MAX).0
  }

  // ---------------------------------------------------------------- integers

  /** The four bytes of an int or unsigned, least significant first. */
  function Le32(x: int): (r: Bytes)
    requires 0 <= x < TWO_32
    ensures |r| == 4
  {
    var x1 := x / 256;
    var x2 := x1 / 256;
    [x % 256, x1 % 256, x2 % 256, x2 / 256]
  }

  function LeVal(b: Bytes): (x: int)
    requires |b| == 4
    ensures 0 <= x < TWO_32
  {
    var b0: int, b1: int, b2: int, b3: int := b[0], b[1], b[2], b[3];
    b0 + b1 * 256 + b2 * 65536 + b3 * 16777216
  }

  /** An unsigned that is used as an int. */
  function Signed(x: int): int
    requires 0 <= x < TWO_32
  {
    if x > INT_MAX then x - TWO_32 else x
  }

  /** The four bytes give the integer back, the first one counting ones and the last one 2^24. */
  lemma LeRoundTrip(x: int)
    requires 0 <= x < TWO_32
    ensures LeVal(Le32(x)) == x
    ensures var b := Le32(x); var b0: int, b1: int, b2: int, b3: int := b[0], b[1], b[2], b[3];
      x == b0 + 0x100 * b1 + 0x1_0000 * b2 + 0x100_0000 * b3
  {
  }

  // ---------------------------------------------------------------- writing an archive

  /** A (name, size) pair of the header. */
  function PairBytes(name: Bytes, size: int): (r: Bytes)
    requires 0 <= size < TWO_32
    ensures |r| == |name| + 5
  {
    name + [0] + Le32(size)
  }

  /** The (name, size) pairs of the header. */
  function EntryBytes(names: seq<Bytes>, sizes: seq<int>): (r: Bytes)
    requires |names| == |sizes| && forall i :: 0 <= i < |sizes| ==> 0 <= sizes[i] < TWO_32
    decreases |names|
  {
    if names == [] then [] else PairBytes(names[0], sizes[0]) + EntryBytes(names[1..], sizes[1..])
  }

  lemma {:induction false} EntryBytesSnoc(names: seq<Bytes>, sizes: seq<int>, name: Bytes, size: int)
    requires |names| == |sizes| && 0 <= size < TWO_32 && forall i :: 0 <= i < |sizes| ==> 0 <= sizes[i] < TWO_32
    ensures EntryBytes(names + [name], sizes + [size]) == EntryBytes(names, sizes) + PairBytes(name, size)
    decreases |names|
  {
    if names == [] {
      assert [name][1..] == [] && [size][1..] == [];
    } else {
      assert (names + [name])[1..] == names[1..] + [name] && (sizes + [size])[1..] == sizes[1..] + [size];
      EntryBytesSnoc(names[1..], sizes[1..], name, size);
    }
  }

  function Header(names: seq<Bytes>, sizes: seq<int>): (r: Bytes)
    requires |names| == |sizes| <= INT_MAX && forall i :: 0 <= i < |sizes| ==> 0 <= sizes[i] < TWO_32
  {
    Le32(|names|) + EntryBytes(names, sizes)
  }

  function Concat(parts: seq<Bytes>): (r: Bytes)
  {
    if parts == [] then [] else parts[0] + Concat(parts[1..])
  }

  lemma {:induction false} ConcatSnoc(parts: seq<Bytes>, part: Bytes)
    ensures Concat(parts + [part]) == Concat(parts) + part
  {
    if parts == [] {
      assert [part][1..] == [];
    } else {
      assert (parts + [part])[1..] == parts[1..] + [part];
      ConcatSnoc(parts[1..], part);
    }
  }

  function Sizes(parts: seq<Bytes>): (r: seq<int>)
    ensures |r| == |parts|
  {
    seq(|parts|, i requires 0 <= i < |parts| => |parts[i]|)
  }

  /** The parts that the archive stores for these names. */
  function Parts(files: Table, names: seq<Bytes>): (r: seq<Bytes>)
    requires forall i :: 0 <= i < |names| ==> names[i] in files
    ensures |r| == |names| && forall i :: 0 <= i < |r| ==> |r[i]| <= INT_MAX
  {
    seq(|names|, i requires 0 <= i < |names| => Stored(files[names[i]]))
  }

  /** The archive: the data after the room reserved for the header, then the header over the start. */
  function Archive(names: seq<Bytes>, parts: seq<Bytes>): (r: Bytes)
    requires |names| == |parts| <= INT_MAX && forall i :: 0 <= i < |parts| ==> |parts[i]| <= INT_MAX
  {
    WriteAt(WriteAt([], DataStart(|names|), Concat(parts)), 0, Header(names, Sizes(parts)))
  }

  ghost predicate AllThere(files: Table, names: seq<Bytes>) {
    forall i :: 0 <= i < |names| ==> names[i] in files
  }

  /** `createTar`: the files of the machine afterwards, and the exit code. A missing input removes the archive. */
  ghost function CreateTar(files: Table, names: seq<Bytes>, tarName: Bytes): (r: (Table, int))
    requires |names| <= INT_MAX && tarName !in names
  {
    if AllThere(files, names) then (files[tarName := Archive(names, Parts(files, names))], 0)
    else (files - {tarName}, 1)
  }

  // ---------------------------------------------------------------- reading an archive

  /** The first zero byte from position `pos` on, or the length of the file. */
  function FindNul(f: Bytes, pos: int): (k: int)
    requires 0 <= pos
    ensures pos <= k && (pos <= |f| ==> k <= |f|)
    ensures k < |f| ==> f[k] == 0
    ensures forall j :: pos <= j < k && j < |f| ==> f[j] != 0
    decreases |f| - pos
  {
    if pos >= |f| then pos else if f[pos] == 0 then pos else FindNul(f, pos + 1)
  }

  lemma FirstNul(f: Bytes, pos: int, k: int)
    requires 0 <= pos <= k < |f| && f[k] == 0 && forall j :: pos <= j < k ==> f[j] != 0
    ensures FindNul(f, pos) == k
  {
    var i := FindNul(f, pos);
  }

  /** `loadstr`: a string and the position after it. */
  function LoadStr(f: Bytes, pos: int): (r: Option<(Bytes, int)>)
    requires 0 <= pos
    ensures r.Some? ==> pos < r.value.1 <= |f|
  {
    var k := FindNul(f, pos);
    if k >= |f| then None else Some((f[pos..k], k + 1))
  }

  datatype HeaderEntry = HeaderEntry(name: Bytes, size: int)

  /** The loop of `readHeader`. None: the file ends too early. */
  function ReadEntries(f: Bytes, pos: int, n: int): (r: Option<seq<HeaderEntry>>)
    requires 0 <= pos
    ensures r.Some? ==> |r.value| == (if n > 0 then n else 0) && forall i :: 0 <= i < |r.value| ==> 0 <= r.value[i].size < TWO_32
    decreases n
  {
    if n <= 0 then Some([])
    else
      match LoadStr(f, pos)
      case None => None
      case Some((name, p)) =>
        if p + 4 > |f| then None
        else
          match ReadEntries(f, p + 4, n - 1)
          case None => None
          case Some(rest) => Some([HeaderEntry(name, LeVal(f[p..p + 4]))] + rest)
  }

  /** `readHeader` */
  function ReadHeader(f: Bytes): (r: Option<seq<HeaderEntry>>)
    ensures r.Some? ==> forall i :: 0 <= i < |r.value| ==> 0 <= r.value[i].size < TWO_32
  {
    if |f| < 4 then None else ReadEntries(f, 4, Signed(LeVal(f[..4])))
  }

  /** The loop of `extractTar`. A file without a name cannot be opened. None: the archive would be overwritten while it
      is being read. */
  function ExtractLoop(files: Table, tarName: Bytes, f: Bytes, entries: seq<HeaderEntry>, pos: int): (r: Option<(Table, int)>)
    requires 0 <= pos && forall i :: 0 <= i < |entries| ==> 0 <= entries[i].size < TWO_32
    decreases |entries|
  {
    if entries == [] then Some((files, 0))
    else if entries[0].name == tarName then None
    else if entries[0].name == [] then Some((files, -1))
    else
      var (bytes, p) := Copyn(f, pos, Signed(entries[0].size));
      ExtractLoop(files[entries[0].name := bytes], tarName, f, entries[1..], p)
  }

  /** `extractTar`. None where the C program goes on with a header that it could not read, or overwrites the archive. */
  function ExtractTar(files: Table, tarName: Bytes): (r: Option<(Table, int)>)
  {
    if tarName !in files then Some((files, -1))
    else
      match ReadHeader(files[tarName])
      case None => None
      case Some(entries) => ExtractLoop(files, tarName, files[tarName], entries, DataStart(|entries|))
  }
}
