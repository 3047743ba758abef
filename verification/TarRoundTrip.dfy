/** When extracting a created archive gives back what was stored. */
module TarRoundTrip {
  import opened Basics
  import opened TarSpec

  // ---------------------------------------------------------------- copying

  /** What is copied: the bytes before the first 0xFF, and at most n of them; a 0xFF that stops the copy is read. */
  lemma {:induction false} CopynKeeps(c: Bytes, pos: int, n: int)
    requires 0 <= pos <= |c| && 0 <= n
    ensures var (r, p) := Copyn(c, pos, n);
      && |r| <= |c| - pos && r == c[pos..pos + |r|] && 0xFF !in r
      && (|r| == n || pos + |r| == |c| || c[pos + |r|] == 0xFF)
      && p == pos + |r| + (if |r| < n && pos + |r| < |c| then 1 else 0)
    decreases |c| - pos
  {
    if n > 0 && pos < |c| && c[pos] != 0xFF {
      CopynKeeps(c, pos + 1, n - 1);
    }
  }

  /** What is kept of a file: the bytes before the first 0xFF, and at most INT_MAX of them. */
  lemma StoredIs(c: Bytes)
    ensures var r := Stored(c);
      && |r| <= |c| && r == c[..|r|] && 0xFF !in r
      && (|r| == INT_MAX || |r| == |c| || c[|r|] == 0xFF)
    ensures Stored(c) == c <==> 0xFF !in c && |c| <= INT_MAX
  {
    CopynKeeps(c, 0, INT_MAX);
  }

  /** `bytes` are in f from position pos on. */
  ghost predicate Holds(f: Bytes, pos: int, bytes: Bytes) {
    0 <= pos && (bytes == [] || (pos + |bytes| <= |f| && f[pos..pos + |bytes|] == bytes))
  }

  lemma HoldsParts(f: Bytes, pos: int, a: Bytes, b: Bytes)
    requires Holds(f, pos, a + b)
    ensures Holds(f, pos, a) && Holds(f, pos + |a|, b)
  {
    if a + b != [] {
      var whole := f[pos..pos + |a + b|];
      assert whole[..|a|] == a && whole[|a|..] == b;
    }
  }

  /** A part without 0xFF is copied as it is, and reading stops right after it. */
  lemma {:induction false} CopynPart(f: Bytes, pos: int, part: Bytes)
    requires Holds(f, pos, part) && 0xFF !in part
    ensures 0 <= pos && Copyn(f, pos, |part|) == (part, pos + |part|)
    decreases |part|
  {
    if part != [] {
      assert [part[0]] + part[1..] == part;
      HoldsParts(f, pos, [part[0]], part[1..]);
      assert f[pos] == f[pos..pos + 1][0] == part[0];
      CopynPart(f, pos + 1, part[1..]);
    }
  }

  // ---------------------------------------------------------------- the header

  ghost predicate NulFree(name: Bytes) {
    0 !in name
  }

  ghost predicate AllNulFree(names: seq<Bytes>) {
    forall i :: 0 <= i < |names| ==> NulFree(names[i])
  }

  lemma LoadStrBack(f: Bytes, pos: int, name: Bytes)
    requires NulFree(name) && Holds(f, pos, name + [0])
    ensures LoadStr(f, pos) == Some((name, pos + |name| + 1))
  {
    HoldsParts(f, pos, name, [0]);
    var k := FindNul(f, pos);
    assert f[pos..pos + |name|] == name;
    assert f[pos + |name|] == f[pos + |name|..pos + |name| + 1][0] == 0;
    assert k <= pos + |name|;
    assert forall j :: 0 <= j < |name| ==> name[j] == f[pos + j];
  }

  lemma LeBack(f: Bytes, pos: int, x: int)
    requires 0 <= x < TWO_32 && Holds(f, pos, Le32(x))
    ensures pos + 4 <= |f| && LeVal(f[pos..pos + 4]) == x
  {
    LeRoundTrip(x);
  }

  function Entries(names: seq<Bytes>, sizes: seq<int>): (r: seq<HeaderEntry>)
    requires |names| == |sizes|
    ensures |r| == |names|
  {
    seq(|names|, i requires 0 <= i < |names| => HeaderEntry(names[i], sizes[i]))
  }

  /** The pairs that are read are the pairs that were written. */
  lemma {:induction false} EntriesBack(f: Bytes, pos: int, names: seq<Bytes>, sizes: seq<int>)
    requires |names| == |sizes| && AllNulFree(names) && forall i :: 0 <= i < |sizes| ==> 0 <= sizes[i] < TWO_32
    requires Holds(f, pos, EntryBytes(names, sizes))
    ensures ReadEntries(f, pos, |names|) == Some(Entries(names, sizes))
    decreases |names|
  {
    if names == [] {
      assert Entries(names, sizes) == [];
    } else {
      hide *;
      var rest := EntryBytes(names[1..], sizes[1..]);
      var p := pos + |names[0]| + 1;
      PairsCons(names, sizes);
      HoldsParts(f, pos, PairBytes(names[0], sizes[0]), rest);
      PairBack(f, pos, names[0], sizes[0]);
      EntriesBack(f, p + 4, names[1..], sizes[1..]);
      OneEntry(f, pos, |names|, names[0], p, sizes[0], Entries(names[1..], sizes[1..]));
    }
  }

  lemma PairBack(f: Bytes, pos: int, name: Bytes, size: int)
    requires 0 <= size < TWO_32 && NulFree(name) && Holds(f, pos, PairBytes(name, size))
    ensures 0 <= pos && LoadStr(f, pos) == Some((name, pos + |name| + 1))
    ensures pos + |name| + 5 <= |f| && LeVal(f[pos + |name| + 1..pos + |name| + 5]) == size
  {
    hide LoadStr, LeVal, Le32;
    HoldsParts(f, pos, name + [0], Le32(size));
    LoadStrBack(f, pos, name);
    LeBack(f, pos + |name| + 1, size);
  }

  lemma PairsCons(names: seq<Bytes>, sizes: seq<int>)
    requires |names| == |sizes| && names != [] && AllNulFree(names) && forall i :: 0 <= i < |sizes| ==> 0 <= sizes[i] < TWO_32
    ensures EntryBytes(names, sizes) == PairBytes(names[0], sizes[0]) + EntryBytes(names[1..], sizes[1..])
    ensures Entries(names, sizes) == [HeaderEntry(names[0], sizes[0])] + Entries(names[1..], sizes[1..])
    ensures NulFree(names[0]) && AllNulFree(names[1..])
  {
  }

  lemma OneEntry(f: Bytes, pos: int, n: int, name: Bytes, p: int, size: int, rest: seq<HeaderEntry>)
    requires 0 <= pos && 0 < n && LoadStr(f, pos) == Some((name, p)) && p + 4 <= |f| && LeVal(f[p..p + 4]) == size
    requires ReadEntries(f, p + 4, n - 1) == Some(rest)
    ensures ReadEntries(f, pos, n) == Some([HeaderEntry(name, size)] + rest)
  {
  }

  lemma HeaderBack(f: Bytes, names: seq<Bytes>, sizes: seq<int>)
    requires |names| == |sizes| <= INT_MAX && AllNulFree(names) && forall i :: 0 <= i < |sizes| ==> 0 <= sizes[i] < TWO_32
    requires Holds(f, 0, Header(names, sizes))
    ensures ReadHeader(f) == Some(Entries(names, sizes))
  {
    HoldsParts(f, 0, Le32(|names|), EntryBytes(names, sizes));
    LeBack(f, 0, |names|);
    assert f[0..4] == f[..4];
    EntriesBack(f, 4, names, sizes);
  }

  // ---------------------------------------------------------------- the archive

  lemma Written(f: Bytes, pos: int, bytes: Bytes)
    requires 0 <= pos
    ensures var r := WriteAt(f, pos, bytes);
      && Holds(r, pos, bytes)
      && (forall j :: 0 <= j < |f| && !(pos <= j < pos + |bytes|) ==> j < |r| && r[j] == f[j])
      && (forall j :: |f| <= j < pos && j < |r| ==> r[j] == 0)
      && |r| == if bytes == [] || pos + |bytes| < |f| then |f| else pos + |bytes|
  {
  }

  /** The room that the header needs; it depends on the names alone. */
  function HeaderRoom(names: seq<Bytes>): (n: int)
    ensures n >= 4
  {
    if names == [] then 4 else HeaderRoom(names[1..]) + |names[0]| + 1 + 4
  }

  predicate Fits(names: seq<Bytes>) {
    HeaderRoom(names) <= DataStart(|names|)
  }

  lemma {:induction false} HeaderLength(names: seq<Bytes>, sizes: seq<int>)
    requires |names| == |sizes| && forall i :: 0 <= i < |sizes| ==> 0 <= sizes[i] < TWO_32
    ensures 4 + |EntryBytes(names, sizes)| == HeaderRoom(names)
    decreases |names|
  {
    if names != [] { HeaderLength(names[1..], sizes[1..]); }
  }

  lemma ArchiveHolds(names: seq<Bytes>, parts: seq<Bytes>)
    requires |names| == |parts| <= INT_MAX && forall i :: 0 <= i < |parts| ==> |parts[i]| <= INT_MAX
    ensures var f := Archive(names, parts);
      && Holds(f, 0, Header(names, Sizes(parts)))
      && (Fits(names) ==> Holds(f, DataStart(|names|), Concat(parts)))
  {
    hide EntryBytes, Concat, WriteAt;
    var data := WriteAt([], DataStart(|names|), Concat(parts));
    Written([], DataStart(|names|), Concat(parts));
    Written(data, 0, Header(names, Sizes(parts)));
    HeaderLength(names, Sizes(parts));
  }

  // ---------------------------------------------------------------- the round trip

  /** The files after every part has been written under its name. */
  function Restored(files: Table, names: seq<Bytes>, parts: seq<Bytes>): (r: Table)
    requires |names| == |parts|
    decreases |names|
  {
    if names == [] then files else Restored(files[names[0] := parts[0]], names[1..], parts[1..])
  }

  lemma {:induction false} ExtractsParts(files: Table, tarName: Bytes, f: Bytes, names: seq<Bytes>, parts: seq<Bytes>, pos: int)
    requires |names| == |parts| && tarName !in names && [] !in names
    requires forall i :: 0 <= i < |parts| ==> |parts[i]| <= INT_MAX && 0xFF !in parts[i]
    requires Holds(f, pos, Concat(parts))
    ensures ExtractLoop(files, tarName, f, Entries(names, Sizes(parts)), pos) == Some((Restored(files, names, parts), 0))
    decreases |names|
  {
    if names != [] {
      hide Holds, Copyn;
      var entries := Entries(names, Sizes(parts));
      assert entries[1..] == Entries(names[1..], Sizes(parts[1..]));
      HoldsParts(f, pos, parts[0], Concat(parts[1..]));
      CopynPart(f, pos, parts[0]);
      ExtractsParts(files[names[0] := parts[0]], tarName, f, names[1..], parts[1..], pos + |parts[0]|);
    }
  }

  /** Every name has the stored part of its contents, and no other file has changed. */
  lemma {:induction false} RestoredIs(files: Table, from: Table, names: seq<Bytes>, parts: seq<Bytes>)
    requires |names| == |parts| && forall i :: 0 <= i < |names| ==> names[i] in from && parts[i] == Stored(from[names[i]])
    ensures var r := Restored(files, names, parts);
      && (forall i :: 0 <= i < |names| ==> names[i] in r && r[names[i]] == Stored(from[names[i]]))
      && (forall x :: x !in names ==> (x in r <==> x in files) && (x in files ==> r[x] == files[x]))
    decreases |names|
  {
    if names != [] {
      var files1 := files[names[0] := parts[0]];
      RestoredIs(files1, from, names[1..], parts[1..]);
      forall i | 0 <= i < |names| ensures names[i] in Restored(files, names, parts) && Restored(files, names, parts)[names[i]] == Stored(from[names[i]]) {
        if names[i] in names[1..] {
          var k :| 0 <= k < |names| - 1 && names[1..][k] == names[i];
        } else {
          assert i == 0;
        }
      }
    }
  }

  /** What the caller relies on: the inputs exist, the names are C strings, and the archive is none of its inputs. */
  ghost predicate Sound(files: Table, names: seq<Bytes>, tarName: Bytes) {
    && |names| <= INT_MAX && AllThere(files, names) && AllNulFree(names)
    && tarName !in names && [] !in names
  }

  /** Extracting gives every name what was stored of it, and changes no other file. */
  ghost predicate GivesBack(files: Table, names: seq<Bytes>, tarName: Bytes, later: Table)
    requires Sound(files, names, tarName)
  {
    match ExtractTar(later, tarName)
    case None => false
    case Some((r, code)) =>
      && code == 0
      && (forall i :: 0 <= i < |names| ==> names[i] in r && r[names[i]] == Stored(files[names[i]]))
      && (forall x :: x !in names ==> (x in r <==> x in later) && (x in later ==> r[x] == later[x]))
  }

  /** If the header fits in the room reserved for it, the archive can be extracted at any later time, whatever has
      become of the other files: every name gets its bytes up to the first 0xFF back. */
  lemma RoundTrip(files: Table, names: seq<Bytes>, tarName: Bytes, later: Table)
    requires Sound(files, names, tarName) && Fits(names)
    requires tarName in later && later[tarName] == CreateTar(files, names, tarName).0[tarName]
    ensures CreateTar(files, names, tarName).1 == 0
    ensures GivesBack(files, names, tarName, later)
  {
    hide ExtractLoop, Archive, Holds, Fits, ReadHeader, Restored, Copyn, Stored;
    var parts := Parts(files, names);
    var f := Archive(names, parts);
    ArchiveHolds(names, parts);
    HeaderBack(f, names, Sizes(parts));
    forall i | 0 <= i < |parts| ensures 0xFF !in parts[i] { StoredIs(files[names[i]]); }
    ExtractsParts(later, tarName, f, names, parts, DataStart(|names|));
    RestoredIs(later, files, names, parts);
  }

  /** A file without 0xFF that is not longer than INT_MAX comes back whole. */
  lemma WholeFile(files: Table, names: seq<Bytes>, tarName: Bytes, later: Table, i: int)
    requires Sound(files, names, tarName) && Fits(names) && 0 <= i < |names|
    requires tarName in later && later[tarName] == CreateTar(files, names, tarName).0[tarName]
    ensures var r := ExtractTar(later, tarName);
      r.Some? && names[i] in r.value.0
      && (r.value.0[names[i]] == files[names[i]] <==> 0xFF !in files[names[i]] && |files[names[i]]| <= INT_MAX)
  {
    hide ExtractTar, Stored, CreateTar;
    RoundTrip(files, names, tarName, later);
    StoredIs(files[names[i]]);
  }

  // ---------------------------------------------------------------- when the header does not fit

  /** Whatever the files contain, an archive of these names gives them back. */
  ghost predicate AlwaysGivesBack(names: seq<Bytes>, tarName: Bytes) {
    forall files: Table :: Sound(files, names, tarName) ==>
      GivesBack(files, names, tarName, CreateTar(files, names, tarName).0)
  }

  /** Files in which the first name holds one byte and the others nothing. */
  function Probe(names: seq<Bytes>, v: Byte): (files: Table)
    requires names != []
    ensures files.Keys == set x | x in names
  {
    map x | x in names :: if x == names[0] then [v] else []
  }

  function ProbeSizes(n: int): (sizes: seq<int>)
    requires 0 < n
    ensures |sizes| == n
  {
    seq(n, i => if i == 0 then 1 else 0)
  }

  lemma ProbeParts(names: seq<Bytes>, v: Byte)
    requires names != [] && v != 0xFF && forall i :: 0 < i < |names| ==> names[i] != names[0]
    ensures AllThere(Probe(names, v), names) && Stored([v]) == [v]
    ensures Sizes(Parts(Probe(names, v), names)) == ProbeSizes(|names|)
  {
    StoredIs([v]);
    StoredIs([]);
    var files := Probe(names, v);
    forall i | 0 <= i < |names| ensures Sizes(Parts(files, names))[i] == ProbeSizes(|names|)[i] {
      assert files[names[i]] == if i == 0 then [v] else [];
    }
  }

  /** Extraction does not touch a name that the header does not list. */
  lemma {:induction false} ExtractLeaves(files: Table, tarName: Bytes, f: Bytes, entries: seq<HeaderEntry>, pos: int, x: Bytes)
    requires 0 <= pos && x in files && forall i :: 0 <= i < |entries| ==> 0 <= entries[i].size < TWO_32 && entries[i].name != x
    ensures var r := ExtractLoop(files, tarName, f, entries, pos);
      r.Some? ==> x in r.value.0 && r.value.0[x] == files[x]
    decreases |entries|
  {
    if entries != [] && entries[0].name != tarName && entries[0].name != [] {
      var (bytes, p) := Copyn(f, pos, Signed(entries[0].size));
      ExtractLeaves(files[entries[0].name := bytes], tarName, f, entries[1..], p, x);
    }
  }

  /** The header covers the first byte of the data, and that byte is what comes back. */
  lemma Overlaid(names: seq<Bytes>, tarName: Bytes) returns (v: Byte)
    requires |names| <= INT_MAX && AllNulFree(names) && tarName !in names && [] !in names && !Fits(names)
    requires forall i :: 0 < i < |names| ==> names[i] != names[0]
    ensures names != [] && Sound(Probe(names, v), names, tarName)
    ensures !GivesBack(Probe(names, v), names, tarName, CreateTar(Probe(names, v), names, tarName).0)
  {
    var sizes := ProbeSizes(|names|);
    var header := Header(names, sizes);
    HeaderLength(names, sizes);
    v := if header[DataStart(|names|)] == 0 then 1 else 0;
    var files := Probe(names, v);
    ProbeParts(names, v);
    var f := Archive(names, Parts(files, names));
    OverlaidFile(files, names, tarName, f, v);
  }

  lemma OverlaidFile(files: Table, names: seq<Bytes>, tarName: Bytes, f: Bytes, v: Byte)
    requires |names| <= INT_MAX && AllNulFree(names) && tarName !in names && [] !in names && names != []
    requires forall i :: 0 < i < |names| ==> names[i] != names[0]
    requires AllThere(files, names) && f == Archive(names, Parts(files, names))
    requires Sizes(Parts(files, names)) == ProbeSizes(|names|) && Stored(files[names[0]]) == [v]
    requires var header := Header(names, ProbeSizes(|names|));
      DataStart(|names|) < |header| && header[DataStart(|names|)] != v
    ensures !GivesBack(files, names, tarName, CreateTar(files, names, tarName).0)
  {
    hide Archive, ReadHeader, Header, Stored, ExtractLoop, Fits;
    var sizes := ProbeSizes(|names|);
    var start := DataStart(|names|);
    ArchiveHolds(names, Parts(files, names));
    HeaderBack(f, names, sizes);
    var later := files[tarName := f];
    assert f[start] == f[0..|Header(names, sizes)|][start];
    FirstExtracted(later, tarName, f, names, v);
  }

  lemma FirstExtracted(later: Table, tarName: Bytes, f: Bytes, names: seq<Bytes>, v: Byte)
    requires names != [] && names[0] != tarName && names[0] != [] && forall i :: 0 < i < |names| ==> names[i] != names[0]
    requires DataStart(|names|) < |f| && f[DataStart(|names|)] != v
    ensures var r := ExtractLoop(later, tarName, f, Entries(names, ProbeSizes(|names|)), DataStart(|names|));
      r.Some? ==> names[0] in r.value.0 && r.value.0[names[0]] != [v]
  {
    var entries := Entries(names, ProbeSizes(|names|));
    var start := DataStart(|names|);
    var (bytes, p) := Copyn(f, start, 1);
    assert bytes == (if f[start] == 0xFF then [] else [f[start]]);
    ExtractLeaves(later[names[0] := bytes], tarName, f, entries[1..], p, names[0]);
  }

  /** For distinct names, extraction gives back the files whatever they contain exactly when the header fits in the
      room reserved for it, that is, when the names have at most eleven bytes on average. */
  lemma FitsExactly(names: seq<Bytes>, tarName: Bytes)
    requires |names| <= INT_MAX && AllNulFree(names) && tarName !in names && [] !in names
    requires forall i, j :: 0 <= i < j < |names| ==> names[i] != names[j]
    ensures AlwaysGivesBack(names, tarName) <==> Fits(names)
  {
    if Fits(names) {
      forall files: Table | Sound(files, names, tarName)
        ensures GivesBack(files, names, tarName, CreateTar(files, names, tarName).0)
      {
        RoundTrip(files, names, tarName, CreateTar(files, names, tarName).0);
      }
    } else {
      var v := Overlaid(names, tarName);
    }
  }

  function TotalLength(names: seq<Bytes>): (n: int)
  {
    if names == [] then 0 else |names[0]| + TotalLength(names[1..])
  }

  lemma {:induction false} FitsMeans(names: seq<Bytes>)
    ensures HeaderRoom(names) == 4 + TotalLength(names) + 5 * |names|
    ensures Fits(names) <==> TotalLength(names) <= 11 * |names|
  {
    if names != [] { FitsMeans(names[1..]); }
  }
}
