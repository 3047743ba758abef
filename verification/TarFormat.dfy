/** The layout of an archive, byte by byte, and what the two commands do when something is missing. */
module TarFormat {
  import opened Basics
  import opened TarSpec
  import opened TarRoundTrip

  // ---------------------------------------------------------------- creating

  /** `createTar` for every table of files: it succeeds exactly if every input is there; if one is missing no archive is left,
      whatever was there before, and extracting it fails; in both cases every other file is as it was. */
  lemma CreateExactly(files: Table, names: seq<Bytes>, tarName: Bytes)
    requires |names| <= INT_MAX && tarName !in names
    ensures var (r, code) := CreateTar(files, names, tarName);
      && (code == 0 || code == 1)
      && (code == 0 <==> forall i :: 0 <= i < |names| ==> names[i] in files)
      && (tarName in r <==> code == 0)
      && (code == 1 ==> ExtractTar(r, tarName) == Some((r, -1)))
      && forall x :: x != tarName ==> (x in r <==> x in files) && (x in files ==> r[x] == files[x])
  {
    hide Archive, Parts;
  }

  /** Where the i-th (name, size) pair of a header begins. */
  function EntryAt(names: seq<Bytes>, i: nat): (p: int)
    requires i <= |names|
    ensures p >= 4
  {
    if i == 0 then 4 else EntryAt(names, i - 1) + |names[i - 1]| + 5
  }

  /** Where the i-th file of an archive begins. */
  function DataAt(parts: seq<Bytes>, i: nat): (p: int)
    requires i <= |parts|
    ensures p >= 4 + 16 * |parts|
  {
    if i == 0 then 4 + 16 * |parts| else DataAt(parts, i - 1) + |parts[i - 1]|
  }

  lemma {:induction false} EntriesSplit(names: seq<Bytes>, sizes: seq<int>, i: nat)
    requires |names| == |sizes| && i <= |names| && forall j :: 0 <= j < |sizes| ==> 0 <= sizes[j] < TWO_32
    ensures EntryBytes(names, sizes) == EntryBytes(names[..i], sizes[..i]) + EntryBytes(names[i..], sizes[i..])
    ensures 4 + |EntryBytes(names[..i], sizes[..i])| == EntryAt(names, i)
    decreases i
  {
    if i == 0 {
      assert names[0..] == names && sizes[0..] == sizes && names[..0] == [] && sizes[..0] == [];
    } else {
      hide EntryBytes, Le32;
      EntriesSplit(names, sizes, i - 1);
      var a, b := names[..i - 1], sizes[..i - 1];
      assert names[i - 1..][1..] == names[i..] && sizes[i - 1..][1..] == sizes[i..];
      assert names[..i] == a + [names[i - 1]] && sizes[..i] == b + [sizes[i - 1]];
      EntryBytesSnoc(a, b, names[i - 1], sizes[i - 1]);
      EntryBytesFirst(names[i - 1..], sizes[i - 1..]);
    }
  }

  lemma EntryBytesFirst(names: seq<Bytes>, sizes: seq<int>)
    requires |names| == |sizes| > 0 && forall i :: 0 <= i < |sizes| ==> 0 <= sizes[i] < TWO_32
    ensures EntryBytes(names, sizes) == PairBytes(names[0], sizes[0]) + EntryBytes(names[1..], sizes[1..])
  {
  }

  lemma {:induction false} DataSplit(parts: seq<Bytes>, i: nat)
    requires i <= |parts|
    ensures Concat(parts) == Concat(parts[..i]) + Concat(parts[i..])
    ensures 4 + 16 * |parts| + |Concat(parts[..i])| == DataAt(parts, i)
    decreases i
  {
    if i == 0 {
      assert parts[0..] == parts && parts[..0] == [];
    } else {
      DataSplit(parts, i - 1);
      assert parts[i - 1..][1..] == parts[i..] && parts[..i] == parts[..i - 1] + [parts[i - 1]];
      ConcatSnoc(parts[..i - 1], parts[i - 1]);
      assert Concat(parts[i - 1..]) == parts[i - 1] + Concat(parts[i..]);
    }
  }

  lemma EntryHeld(f: Bytes, names: seq<Bytes>, sizes: seq<int>, i: nat)
    requires |names| == |sizes| && i < |names| && forall j :: 0 <= j < |sizes| ==> 0 <= sizes[j] < TWO_32
    requires Holds(f, 4, EntryBytes(names, sizes))
    ensures Holds(f, EntryAt(names, i), names[i] + [0] + Le32(sizes[i]))
  {
    hide EntryBytes, Le32, Holds, EntryAt;
    EntriesSplit(names, sizes, i);
    HoldsParts(f, 4, EntryBytes(names[..i], sizes[..i]), EntryBytes(names[i..], sizes[i..]));
    EntryBytesFirst(names[i..], sizes[i..]);
    HoldsParts(f, EntryAt(names, i), PairBytes(names[i], sizes[i]), EntryBytes(names[i..][1..], sizes[i..][1..]));
  }

  lemma PartHeld(f: Bytes, parts: seq<Bytes>, i: nat)
    requires i < |parts| && Holds(f, 4 + 16 * |parts|, Concat(parts))
    ensures Holds(f, DataAt(parts, i), parts[i])
  {
    hide Concat, Holds, DataAt;
    DataSplit(parts, i);
    HoldsParts(f, 4 + 16 * |parts|, Concat(parts[..i]), Concat(parts[i..]));
    ConcatFirst(parts[i..]);
    HoldsParts(f, DataAt(parts, i), parts[i], Concat(parts[i..][1..]));
  }

  /** The archive of these names and stored parts: the number of files; for each the name, a zero byte and the size; and from
      byte 4 + 16 n on, if the header ends before it, the parts one after the other. */
  lemma ArchiveLayout(names: seq<Bytes>, parts: seq<Bytes>, i: nat)
    requires |names| == |parts| <= INT_MAX && i < |names| && forall j :: 0 <= j < |parts| ==> |parts[j]| <= INT_MAX
    ensures var f := Archive(names, parts);
      && Holds(f, 0, Le32(|names|))
      && Holds(f, EntryAt(names, i), names[i] + [0] + Le32(|parts[i]|))
      && (TotalLength(names) <= 11 * |names| ==> Holds(f, DataAt(parts, i), parts[i]))
  {
    hide Archive, Fits, Concat, EntryBytes, Le32, Holds, TotalLength, EntryAt, DataAt;
    var f := Archive(names, parts);
    var sizes := Sizes(parts);
    ArchiveHolds(names, parts);
    FitsMeans(names);
    HoldsParts(f, 0, Le32(|names|), EntryBytes(names, sizes));
    EntryHeld(f, names, sizes, i);
    if Fits(names) { PartHeld(f, parts, i); }
  }

  /** The rest of an archive whose header fits: its length, and zeros between the header and the first file. */
  lemma ArchiveRest(names: seq<Bytes>, parts: seq<Bytes>, j: int)
    requires |names| == |parts| <= INT_MAX && forall i :: 0 <= i < |parts| ==> |parts[i]| <= INT_MAX
    requires TotalLength(names) <= 11 * |names|
    ensures var f := Archive(names, parts); var header := 4 + TotalLength(names) + 5 * |names|;
      && |f| == (if Concat(parts) == [] then header else 4 + 16 * |names| + |Concat(parts)|)
      && (0 <= header <= j < 4 + 16 * |names| && j < |f| ==> f[j] == 0)
  {
    hide EntryBytes, Concat, WriteAt, TotalLength;
    FitsMeans(names);
    HeaderLength(names, Sizes(parts));
    var data := WriteAt([], DataStart(|names|), Concat(parts));
    Written([], DataStart(|names|), Concat(parts));
    Written(data, 0, Header(names, Sizes(parts)));
  }

  lemma ConcatFirst(parts: seq<Bytes>)
    requires parts != []
    ensures Concat(parts) == parts[0] + Concat(parts[1..])
  {
  }

  // ---------------------------------------------------------------- reading the header

  function Names(entries: seq<HeaderEntry>): (r: seq<Bytes>)
    ensures |r| == |entries|
  {
    seq(|entries|, i requires 0 <= i < |entries| => entries[i].name)
  }

  function SizesOf(entries: seq<HeaderEntry>): (r: seq<int>)
    ensures |r| == |entries|
  {
    seq(|entries|, i requires 0 <= i < |entries| => entries[i].size)
  }

  /** The entries were written at position pos. */
  ghost predicate Lists(f: Bytes, pos: int, entries: seq<HeaderEntry>) {
    && (forall i :: 0 <= i < |entries| ==> NulFree(entries[i].name) && 0 <= entries[i].size < TWO_32)
    && Holds(f, pos, EntryBytes(Names(entries), SizesOf(entries)))
  }

  lemma HoldsJoined(f: Bytes, pos: int, a: Bytes, b: Bytes)
    requires Holds(f, pos, a) && Holds(f, pos + |a|, b)
    ensures Holds(f, pos, a + b)
  {
    if a == [] {
      assert a + b == b;
    } else if b == [] {
      assert a + b == a;
    } else {
      assert f[pos..pos + |a + b|] == f[pos..pos + |a|] + f[pos + |a|..pos + |a| + |b|];
    }
  }

  lemma LoadedString(f: Bytes, pos: int)
    requires 0 <= pos && LoadStr(f, pos).Some?
    ensures var (name, p) := LoadStr(f, pos).value; NulFree(name) && p == pos + |name| + 1 && Holds(f, pos, name + [0])
  {
    var k := FindNul(f, pos);
    assert f[pos..k + 1] == f[pos..k] + [0];
  }

  lemma LeOfVal(b: Bytes)
    requires |b| == 4
    ensures Le32(LeVal(b)) == b
  {
    var b0: int, b1: int, b2: int, b3: int := b[0], b[1], b[2], b[3];
    var x := LeVal(b);
    assert x == b0 + 256 * (b1 + 256 * (b2 + 256 * b3));
    assert x / 256 == b1 + 256 * (b2 + 256 * b3);
    assert x / 256 / 256 == b2 + 256 * b3;
  }

  lemma ValueHeld(f: Bytes, pos: int)
    requires 0 <= pos && pos + 4 <= |f|
    ensures Holds(f, pos, Le32(LeVal(f[pos..pos + 4])))
  {
    LeOfVal(f[pos..pos + 4]);
  }

  lemma NoneListed(f: Bytes, pos: int)
    requires 0 <= pos
    ensures ReadEntries(f, pos, 0) == Some([]) && Lists(f, pos, [])
  {
    assert Names([]) == [];
  }

  /** Reading one entry and then the rest. */
  lemma FirstEntry(f: Bytes, pos: int, n: int) returns (entry: HeaderEntry, p: int)
    requires 0 <= pos && 0 < n && ReadEntries(f, pos, n).Some?
    ensures NulFree(entry.name) && 0 <= entry.size < TWO_32 && p == pos + |entry.name| + 5
    ensures Holds(f, pos, PairBytes(entry.name, entry.size))
    ensures ReadEntries(f, p, n - 1).Some? && ReadEntries(f, pos, n).value == [entry] + ReadEntries(f, p, n - 1).value
  {
    hide LoadStr, LeVal, Le32, Holds, NulFree;
    var (name, q) := LoadStr(f, pos).value;
    var size := LeVal(f[q..q + 4]);
    LoadedString(f, pos);
    ValueHeld(f, q);
    HoldsJoined(f, pos, name + [0], Le32(size));
    entry, p := HeaderEntry(name, size), q + 4;
  }

  lemma {:induction false} EntriesRead(f: Bytes, pos: int, n: int)
    requires 0 <= pos && 0 <= n && ReadEntries(f, pos, n).Some?
    ensures var entries := ReadEntries(f, pos, n).value; |entries| == n && Lists(f, pos, entries)
    decreases n
  {
    hide *;
    if n == 0 {
      NoneListed(f, pos);
    } else {
      var entry, p := FirstEntry(f, pos, n);
      EntriesRead(f, p, n - 1);
      OneMoreListed(f, pos, entry, ReadEntries(f, p, n - 1).value);
    }
  }

  lemma OneMoreListed(f: Bytes, pos: int, entry: HeaderEntry, rest: seq<HeaderEntry>)
    requires NulFree(entry.name) && 0 <= entry.size < TWO_32 && Holds(f, pos, PairBytes(entry.name, entry.size))
    requires Lists(f, pos + |entry.name| + 5, rest)
    ensures Lists(f, pos, [entry] + rest)
  {
    hide LeVal, Le32, Holds, NulFree;
    var entries := [entry] + rest;
    assert Names(entries)[1..] == Names(rest) && SizesOf(entries)[1..] == SizesOf(rest);
    HoldsJoined(f, pos, PairBytes(entry.name, entry.size), EntryBytes(Names(rest), SizesOf(rest)));
  }

  /** `readHeader` returns exactly the header that stands at the start of the file: the number, as a signed integer, and that
      many (name, size) pairs; it finds none if the number is negative, and fails if the file does not begin with a header. */
  lemma HeaderExactly(f: Bytes, entries: seq<HeaderEntry>)
    requires |f| >= 4
    ensures ReadHeader(f) == Some(entries) <==>
      var n := LeVal(f[..4]);
      |entries| == (if n > INT_MAX then 0 else n) && Lists(f, 4, entries)
  {
    hide ReadEntries, LeVal, Holds, EntryBytes, NulFree;
    var n := Signed(LeVal(f[..4]));
    if n < 0 {
      NoEntries(f, n, entries);
    } else {
      if ReadHeader(f).Some? { EntriesRead(f, 4, n); }
      if |entries| == n && Lists(f, 4, entries) {
        EntriesBack(f, 4, Names(entries), SizesOf(entries));
        assert Entries(Names(entries), SizesOf(entries)) == entries;
      }
    }
  }

  lemma NoEntries(f: Bytes, n: int, entries: seq<HeaderEntry>)
    requires n < 0
    ensures ReadEntries(f, 4, n) == Some([])
    ensures |entries| == 0 ==> entries == [] && Lists(f, 4, entries)
  {
    assert Names([]) == [];
  }

  // ---------------------------------------------------------------- extracting

  /** Entry i is the first that is not extracted. */
  ghost predicate FirstStop(entries: seq<HeaderEntry>, tarName: Bytes, i: int) {
    && 0 <= i <= |entries|
    && (forall j :: 0 <= j < i ==> entries[j].name != [] && entries[j].name != tarName)
    && (i < |entries| ==> entries[i].name == [] || entries[i].name == tarName)
  }

  /** How the loop of `extractTar` ends: with 0 if every entry can be extracted, with -1 at an entry without a name, and
      overwriting the archive at one with its name, whichever comes first. Files that are not listed do not change. */
  lemma {:induction false} ExtractCode(files: Table, tarName: Bytes, f: Bytes, entries: seq<HeaderEntry>, pos: int, i: int, x: Bytes)
    requires 0 <= pos && (forall j :: 0 <= j < |entries| ==> 0 <= entries[j].size < TWO_32) && FirstStop(entries, tarName, i)
    ensures var r := ExtractLoop(files, tarName, f, entries, pos);
      && (i == |entries| ==> r.Some? && r.value.1 == 0)
      && (i < |entries| && entries[i].name == tarName ==> r.None?)
      && (i < |entries| && entries[i].name != tarName ==> r.Some? && r.value.1 == -1)
      && (r.Some? && (forall j :: 0 <= j < |entries| ==> entries[j].name != x) ==>
            (x in r.value.0 <==> x in files) && (x in files ==> r.value.0[x] == files[x]))
    decreases |entries|
  {
    if i > 0 {
      var (bytes, p) := Copyn(f, pos, Signed(entries[0].size));
      assert forall j :: 0 <= j < |entries| - 1 ==> entries[1..][j] == entries[j + 1];
      ExtractCode(files[entries[0].name := bytes], tarName, f, entries[1..], p, i - 1, x);
    }
  }
}
