/** The archive program on streams whose positions advance, proved to compute the functions of module TarSpec. */
module TarMachine {
  import opened Basics
  import opened TarSpec

  const EOF := -1

  /** FILE */
  class Stream {
    var bytes: Bytes
    var pos: int

    constructor (bytes: Bytes)
      ensures this.bytes == bytes && pos == 0
    {
      this.bytes, pos := bytes, 0;
    }

    method Getc() returns (c: int)
      requires 0 <= pos
      modifies this`pos
      ensures c == (if old(pos) < |bytes| then bytes[old(pos)] else EOF)
      ensures pos == old(pos) + (if c == EOF then 0 else 1)
    {
      if pos >= |bytes| { return EOF; }
      c := bytes[pos];
      pos := pos + 1;
    }

    method Write(b: Bytes)
      requires 0 <= pos
      modifies this
      ensures bytes == WriteAt(old(bytes), old(pos), b) && pos == old(pos) + |b|
    {
      bytes := WriteAt(bytes, pos, b);
      pos := pos + |b|;
    }

    /** All n bytes, if the file has them. */
    method Read(n: int) returns (r: Option<Bytes>)
      requires 0 <= pos && 0 <= n
      modifies this`pos
      ensures r == (if old(pos) + n <= |bytes| then Some(bytes[old(pos)..old(pos) + n]) else None)
      ensures pos == if r.Some? then old(pos) + n else old(pos)
    {
      if pos + n > |bytes| { return None; }
      r := Some(bytes[pos..pos + n]);
      pos := pos + n;
    }

    method Seek(p: int)
      modifies this`pos
      ensures pos == p
    {
      pos := p;
    }
  }

  /** A value of getc kept in a signed `char`. */
  function ToChar(n: int): int {
    if n > 127 then n - 256 else n
  }

  /** The bytes of a stream after a write. */
  lemma WrittenBytes(f: Bytes, pos: int, bytes: Bytes)
    requires 0 <= pos && bytes != []
    ensures var r := WriteAt(f, pos, bytes); var end := pos + |bytes|;
      && |r| == (if end < |f| then |f| else end)
      && forall j :: 0 <= j < |r| ==> r[j] == if pos <= j < end then bytes[j - pos] else if j < |f| then f[j] else 0
  {
  }

  lemma WrittenTwice(f: Bytes, pos: int, a: Bytes, b: Bytes, j: int)
    requires 0 <= pos && a != [] && b != []
    ensures var once, twice := WriteAt(f, pos, a + b), WriteAt(WriteAt(f, pos, a), pos + |a|, b);
      |once| == |twice| && (0 <= j < |once| ==> once[j] == twice[j])
  {
    hide WriteAt;
    WrittenBytes(f, pos, a);
    WrittenBytes(WriteAt(f, pos, a), pos + |a|, b);
    WrittenBytes(f, pos, a + b);
  }

  /** Writing in two goes is writing at once. */
  lemma WriteTwice(f: Bytes, pos: int, a: Bytes, b: Bytes)
    requires 0 <= pos
    ensures WriteAt(WriteAt(f, pos, a), pos + |a|, b) == WriteAt(f, pos, a + b)
  {
    if a == [] {
      assert a + b == b;
    } else if b == [] {
      assert a + b == a;
    } else {
      hide WriteAt;
      var once, twice := WriteAt(f, pos, a + b), WriteAt(WriteAt(f, pos, a), pos + |a|, b);
      WrittenTwice(f, pos, a, b, 0);
      forall j | 0 <= j < |once| ensures once[j] == twice[j] { WrittenTwice(f, pos, a, b, j); }
    }
  }

  /** What remains to be copied after `done` has been. */
  lemma CopynStep(f: Bytes, pos: int, n: int, done: Bytes)
    requires 0 <= pos < |f| && 0 < n && f[pos] != 0xFF
    ensures var (rest, p) := Copyn(f, pos + 1, n - 1);
      var (all, q) := Copyn(f, pos, n);
      done + all == (done + [f[pos]]) + rest && p == q
  {
  }

  lemma CopynStop(f: Bytes, pos: int, n: int, done: Bytes)
    requires 0 <= pos && (n <= 0 || pos >= |f| || f[pos] == 0xFF)
    ensures Copyn(f, pos, n) == ([], if n > 0 && pos < |f| then pos + 1 else pos)
    ensures done + Copyn(f, pos, n).0 == done
  {
  }

  lemma WriteNothing(f: Bytes, pos: int)
    requires 0 <= pos
    ensures WriteAt(f, pos, []) == f
  {
  }

  /** `copynFile` */
  method CopynFile(origin: Stream, destination: Stream, nBytes: int) returns (nCopy: int)
    requires origin != destination && 0 <= origin.pos && 0 <= destination.pos
    modifies origin`pos, destination
    ensures var (copied, p) := Copyn(origin.bytes, old(origin.pos), nBytes);
      && nCopy == |copied| && origin.pos == p
      && destination.bytes == WriteAt(old(destination.bytes), old(destination.pos), copied)
      && destination.pos == old(destination.pos) + |copied|
  {
    hide Copyn, WriteAt;
    nCopy := 0;
    WriteNothing(destination.bytes, destination.pos);
    ghost var f, was, start := origin.bytes, destination.bytes, destination.pos;
    ghost var all := Copyn(f, origin.pos, nBytes);
    ghost var done: Bytes := [];
    while nCopy < nBytes
      invariant nCopy == |done| && (nCopy <= nBytes || nCopy == 0) && 0 <= origin.pos
      invariant destination.bytes == WriteAt(was, start, done) && destination.pos == start + nCopy
      invariant done + Copyn(f, origin.pos, nBytes - nCopy).0 == all.0 && Copyn(f, origin.pos, nBytes - nCopy).1 == all.1
      decreases nBytes - nCopy
    {
      ghost var pos := origin.pos;
      var n := origin.Getc();
      var c := ToChar(n);
      if c == EOF {
        CopynStop(f, pos, nBytes - nCopy, done);
        return;
      }
      CopynStep(f, pos, nBytes - nCopy, done);
      WriteTwice(was, start, done, [f[pos]]);
      done := done + [f[pos]];
      var b: Byte := c % 256;
      destination.Write([b]);
      nCopy := nCopy + 1;
    }
    CopynStop(f, origin.pos, nBytes - nCopy, done);
  }

  /** `loadstr`: counts the characters up to the terminator, goes back and reads them. */
  method LoadString(file: Stream) returns (r: Option<Bytes>)
    requires 0 <= file.pos
    modifies file`pos
    ensures var s := LoadStr(file.bytes, old(file.pos));
      if s.None? then r == None else r == Some(s.value.0) && file.pos == s.value.1
  {
    ghost var start := file.pos;
    var n := file.Getc();
    var size := 1;
    while n != 0 && n != EOF
      invariant 1 <= size
      invariant n != EOF ==> file.pos == start + size && file.pos <= |file.bytes| && n == file.bytes[file.pos - 1]
      invariant n == EOF ==> file.pos == start + size - 1 && file.pos >= |file.bytes|
      invariant forall j :: start <= j < start + size - 1 && j < |file.bytes| ==> file.bytes[j] != 0
      decreases |file.bytes| + 1 - start - size
    {
      n := file.Getc();
      size := size + 1;
    }
    if n == EOF { return None; }
    FirstNul(file.bytes, start, start + size - 1);
    file.Seek(file.pos - size);
    var buf := file.Read(size);
    PrefixOfPart(file.bytes, start, size);
    r := Some(buf.value[..size - 1]);
  }

  lemma PrefixOfPart(f: Bytes, start: int, size: int)
    requires 0 <= start && 1 <= size && start + size <= |f|
    ensures f[start..start + size][..size - 1] == f[start..start + size - 1]
  {
  }

  /** `readHeader`; None where the file ends too early. */
  method ReadTarHeader(tarFile: Stream) returns (r: Option<seq<HeaderEntry>>)
    requires tarFile.pos == 0
    modifies tarFile`pos
    ensures r == ReadHeader(tarFile.bytes)
  {
    hide LeVal, LoadStr, ReadEntries;
    var first := tarFile.Read(4);
    if first == None { return None; }
    ghost var f := tarFile.bytes;
    assert f[0..4] == f[..4];
    var nFiles := Signed(LeVal(first.value));
    var header: seq<HeaderEntry> := [];
    var i := 0;
    ContinuedNothing(ReadEntries(f, 4, nFiles));
    while i < nFiles
      invariant |header| == i && (i <= nFiles || i == 0) && 4 <= tarFile.pos
      invariant ReadHeader(f) == Continued(header, ReadEntries(f, tarFile.pos, nFiles - i))
    {
      ghost var pos := tarFile.pos;
      ReadEntriesStep(f, pos, nFiles - i);
      var name := LoadString(tarFile);
      if name == None { return None; }
      var size := tarFile.Read(4);
      if size == None { return None; }
      var entry := HeaderEntry(name.value, LeVal(size.value));
      ContinuedStep(header, entry, ReadEntries(f, tarFile.pos, nFiles - i - 1));
      header := header + [entry];
      i := i + 1;
    }
    NoEntriesLeft(f, tarFile.pos, nFiles - i, header);
    r := Some(header);
  }

  lemma ReadEntriesStep(f: Bytes, pos: int, n: int)
    requires 0 <= pos && 0 < n
    ensures var s := LoadStr(f, pos);
      ReadEntries(f, pos, n) ==
        if s.None? || s.value.1 + 4 > |f| then None
        else Continued([HeaderEntry(s.value.0, LeVal(f[s.value.1..s.value.1 + 4]))], ReadEntries(f, s.value.1 + 4, n - 1))
  {
  }

  lemma NoEntriesLeft(f: Bytes, pos: int, n: int, header: seq<HeaderEntry>)
    requires 0 <= pos && n <= 0
    ensures Continued(header, ReadEntries(f, pos, n)) == Some(header)
  {
    assert header + [] == header;
  }

  lemma ContinuedNothing(r: Option<seq<HeaderEntry>>)
    ensures Continued([], r) == r
  {
    if r.Some? { assert [] + r.value == r.value; }
  }

  function Continued(header: seq<HeaderEntry>, r: Option<seq<HeaderEntry>>): Option<seq<HeaderEntry>> {
    match r case None => None case Some(rest) => Some(header + rest)
  }

  lemma ContinuedStep(header: seq<HeaderEntry>, entry: HeaderEntry, r: Option<seq<HeaderEntry>>)
    ensures Continued(header + [entry], r) == Continued(header, Continued([entry], r))
  {
    if r.Some? { assert (header + [entry]) + r.value == header + ([entry] + r.value); }
  }

  // ---------------------------------------------------------------- the two commands

  lemma PartsNone(files: Table, names: seq<Bytes>, f: Bytes, pos: int)
    requires 0 <= pos
    ensures AllThere(files, names[..0]) && Parts(files, names[..0]) == [] && Sizes(Parts(files, names[..0])) == []
    ensures Concat(Parts(files, names[..0])) == [] && WriteAt(f, pos, []) == f
  {
  }

  lemma PartsMore(files: Table, names: seq<Bytes>, i: int)
    requires 0 <= i < |names| && AllThere(files, names[..i]) && names[i] in files
    ensures AllThere(files, names[..i + 1])
    ensures var parts, part := Parts(files, names[..i]), Stored(files[names[i]]);
      && Parts(files, names[..i + 1]) == parts + [part]
      && Sizes(Parts(files, names[..i + 1])) == Sizes(parts) + [|part|]
  {
    hide Stored;
    var some := names[..i + 1];
    forall j | 0 <= j < |some| ensures some[j] in files {
      if j < i { assert names[..i][j] == some[j]; }
    }
    var parts, part := Parts(files, names[..i]), Stored(files[names[i]]);
    assert Parts(files, names[..i + 1]) == parts + [part];
  }

  lemma EntryBytesNone()
    ensures EntryBytes([], []) == []
  {
  }

  lemma WrittenAlone(f: Bytes, bytes: Bytes)
    requires f == WriteAt([], 0, bytes)
    ensures f == bytes
  {
  }

  lemma ExtractStep(files: Table, tarName: Bytes, f: Bytes, entries: seq<HeaderEntry>, pos: int)
    requires 0 <= pos && entries != [] && forall i :: 0 <= i < |entries| ==> 0 <= entries[i].size < TWO_32
    ensures ExtractLoop(files, tarName, f, entries, pos) ==
      if entries[0].name == tarName then None
      else if entries[0].name == [] then Some((files, -1))
      else
        var (bytes, p) := Copyn(f, pos, Signed(entries[0].size));
        ExtractLoop(files[entries[0].name := bytes], tarName, f, entries[1..], p)
  {
  }

  lemma ExtractDone(files: Table, tarName: Bytes, f: Bytes, pos: int)
    requires 0 <= pos
    ensures ExtractLoop(files, tarName, f, [], pos) == Some((files, 0))
  {
  }

  /** The directory in which the program runs. */
  class Directory {
    var files: Table

    constructor (files: Table)
      ensures this.files == files
    {
      this.files := files;
    }

    /** The data section: the inputs are copied one after the other, and their sizes noted. Fails at the first input
        that is missing. */
    method PackData(fileNames: seq<Bytes>, mtar: Stream) returns (ok: bool, sizes: seq<int>)
      requires 0 <= mtar.pos
      modifies mtar
      ensures ok == AllThere(files, fileNames)
      ensures ok ==> sizes == Sizes(Parts(files, fileNames))
      ensures ok ==> mtar.bytes == WriteAt(old(mtar.bytes), old(mtar.pos), Concat(Parts(files, fileNames)))
    {
      hide Parts, Sizes, Concat, WriteAt;
      ghost var was, start := mtar.bytes, mtar.pos;
      ok, sizes := true, [];
      PartsNone(files, fileNames, was, start);
      for i := 0 to |fileNames|
        invariant AllThere(files, fileNames[..i]) && ok
        invariant sizes == Sizes(Parts(files, fileNames[..i]))
        invariant mtar.bytes == WriteAt(was, start, Concat(Parts(files, fileNames[..i])))
        invariant mtar.pos == start + |Concat(Parts(files, fileNames[..i]))|
      {
        if fileNames[i] !in files { return false, []; }
        ghost var parts, part := Parts(files, fileNames[..i]), Stored(files[fileNames[i]]);
        PartsMore(files, fileNames, i);
        var inputFile := new Stream(files[fileNames[i]]);
        var size := CopynFile(inputFile, mtar, INT_MAX);
        ConcatSnoc(parts, part);
        WriteTwice(was, start, Concat(parts), part);
        sizes := sizes + [size];
      }
      assert fileNames[..|fileNames|] == fileNames;
    }

    /** The header section. */
    method WriteHeader(fileNames: seq<Bytes>, sizes: seq<int>, mtar: Stream)
      requires mtar.pos == 0 && |fileNames| == |sizes| <= INT_MAX && forall i :: 0 <= i < |sizes| ==> 0 <= sizes[i] < TWO_32
      modifies mtar
      ensures mtar.bytes == WriteAt(old(mtar.bytes), 0, Header(fileNames, sizes))
    {
      hide WriteAt, Le32, EntryBytes;
      ghost var was := mtar.bytes;
      EntryBytesNone();
      mtar.Write(Le32(|fileNames|));
      assert fileNames[..0] == [] && sizes[..0] == [];
      assert Le32(|fileNames|) + [] == Le32(|fileNames|);
      for i := 0 to |fileNames|
        invariant mtar.bytes == WriteAt(was, 0, Le32(|fileNames|) + EntryBytes(fileNames[..i], sizes[..i]))
        invariant mtar.pos == |Le32(|fileNames|) + EntryBytes(fileNames[..i], sizes[..i])|
      {
        ghost var before := Le32(|fileNames|) + EntryBytes(fileNames[..i], sizes[..i]);
        ghost var name, size := fileNames[i] + [0], Le32(sizes[i]);
        mtar.Write(fileNames[i] + [0]);
        mtar.Write(Le32(sizes[i]));
        WriteTwice(was, 0, before, name);
        WriteTwice(was, 0, before + name, size);
        assert fileNames[..i + 1] == fileNames[..i] + [fileNames[i]] && sizes[..i + 1] == sizes[..i] + [sizes[i]];
        EntryBytesSnoc(fileNames[..i], sizes[..i], fileNames[i], sizes[i]);
        assert (before + name) + size == Le32(|fileNames|) + EntryBytes(fileNames[..i + 1], sizes[..i + 1]);
      }
      assert fileNames[..|fileNames|] == fileNames && sizes[..|sizes|] == sizes;
    }

    /** `createTar` */
    method Create(fileNames: seq<Bytes>, tarName: Bytes) returns (code: int)
      requires |fileNames| <= INT_MAX && tarName !in fileNames
      modifies this
      ensures (files, code) == CreateTar(old(files), fileNames, tarName)
    {
      hide WriteAt, Header, Concat, Stored;
      var mtar := new Stream([]);
      files := files[tarName := []];
      mtar.Seek(DataStart(|fileNames|));
      var ok, sizes := PackData(fileNames, mtar);
      if !ok {
        files := files - {tarName};
        assert files == old(files) - {tarName};
        return 1;
      }
      assert Parts(files, fileNames) == Parts(old(files), fileNames);
      mtar.Seek(0);
      WriteHeader(fileNames, sizes, mtar);
      assert mtar.bytes == Archive(fileNames, Parts(old(files), fileNames));
      files := files[tarName := mtar.bytes];
      assert files == old(files)[tarName := mtar.bytes];
      code := 0;
    }

    /** `extractTar`; None where the C program goes on with a header that it could not read, or overwrites the archive
        that it is reading. */
    method Extract(tarName: Bytes) returns (r: Option<int>)
      modifies this
      ensures var e := ExtractTar(old(files), tarName);
        if e.None? then r == None else r == Some(e.value.1) && files == e.value.0
    {
      hide ReadHeader, ExtractLoop, Copyn, WriteAt;
      if tarName !in files { return Some(-1); }
      var mtar := new Stream(files[tarName]);
      var header := ReadTarHeader(mtar);
      if header == None { return None; }
      var entries := header.value;
      mtar.Seek(DataStart(|entries|));
      ghost var result := ExtractLoop(files, tarName, mtar.bytes, entries, mtar.pos);
      for i := 0 to |entries|
        invariant 0 <= mtar.pos && mtar.bytes == old(files)[tarName]
        invariant ExtractLoop(files, tarName, mtar.bytes, entries[i..], mtar.pos) == result
      {
        var name := entries[i].name;
        ExtractStep(files, tarName, mtar.bytes, entries[i..], mtar.pos);
        if name == tarName { return None; }
        if name == [] { return Some(-1); }
        var outputFile := new Stream([]);
        ghost var before := mtar.pos;
        var n := CopynFile(mtar, outputFile, Signed(entries[i].size));
        assert entries[i..][1..] == entries[i + 1..];
        WrittenAlone(outputFile.bytes, Copyn(mtar.bytes, before, Signed(entries[i].size)).0);
        files := files[name := outputFile.bytes];
      }
      ExtractDone(files, tarName, mtar.bytes, mtar.pos);
      r := Some(0);
    }
  }
}
