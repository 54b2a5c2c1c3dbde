/**
 * Writing the TIFF data that cameras put into photos, and reading the orientation back (TIFF 6.0, section 2). The
 * writer covers both byte orders, a directory anywhere in the file and any entries in it.
 */
module Tiff {
  import opened Exif

  /** value holds four bytes, with shorter values at their start. */
  datatype Entry = Entry(tag: nat, kind: nat, count: nat, value: seq<byte>)
  {
    predicate Valid() {
      tag < 0x1_0000 && kind < 0x1_0000 && count < 0x1_0000_0000 && |value| == 4
    }
  }

  function Bytes16(little: bool, n: nat): (r: seq<byte>)
    requires n < 0x1_0000
    ensures |r| == 2
  {
    if little then [(n % 256) as byte, (n / 256) as byte] else [(n / 256) as byte, (n % 256) as byte]
  }

  function Bytes32(little: bool, n: nat): (r: seq<byte>)
    requires n < 0x1_0000_0000
    ensures |r| == 4
  {
    var (low, high) := (Bytes16(little, n % 0x1_0000), Bytes16(little, n / 0x1_0000));
    if little then low + high else high + low
  }

  function EntryBytes(little: bool, e: Entry): (r: seq<byte>)
    requires e.Valid()
    ensures |r| == 12
  {
    Bytes16(little, e.tag) + Bytes16(little, e.kind) + Bytes32(little, e.count) + e.value
  }

  function Joined(parts: seq<seq<byte>>): (r: seq<byte>)
    requires forall i :: 0 <= i < |parts| ==> |parts[i]| == 12
    ensures |r| == 12 * |parts|
  {
    if parts == [] then [] else Joined(parts[..|parts| - 1]) + parts[|parts| - 1]
  }

  function Entries(little: bool, entries: seq<Entry>): (r: seq<byte>)
    requires forall i :: 0 <= i < |entries| ==> entries[i].Valid()
    ensures |r| == 12 * |entries|
  {
    Joined(seq(|entries|, i requires 0 <= i < |entries| => EntryBytes(little, entries[i])))
  }

  /** A header, anything up to the directory, as many entries as announced or fewer, and anything after them. */
  datatype File = File(little: bool, gap: seq<byte>, announced: nat, entries: seq<Entry>, rest: seq<byte>)
  {
    predicate Valid() {
      && 8 + |gap| < 0x1_0000_0000 && |entries| <= announced < 0x1_0000
      && forall i :: 0 <= i < |entries| ==> entries[i].Valid()
    }

    function Directory(): Header {
      Header(little, 8 + |gap|, announced)
    }

    /** Everything before the directory. */
    function Start(): (r: seq<byte>)
      requires Valid()
      ensures |r| == 8 + |gap|
    {
      Mark(little) + Bytes16(little, 42) + Bytes32(little, 8 + |gap|) + gap
    }

    function Bytes(): seq<byte>
      requires Valid()
    {
      Start() + Bytes16(little, announced) + (Entries(little, entries) + rest)
    }
  }

  /** "II" or "MM". */
  function Mark(little: bool): (r: seq<byte>)
    ensures |r| == 2
  {
    if little then ['I' as int as byte, 'I' as int as byte] else ['M' as int as byte, 'M' as int as byte]
  }

  // ---------------------------------------------------------------- reading it back

  lemma Reads16(little: bool, before: seq<byte>, n: nat, after: seq<byte>)
    requires n < 0x1_0000
    ensures Uint16(little, before + Bytes16(little, n) + after, |before|) == n
  {
    var d := before + Bytes16(little, n) + after;
    assert d[|before|] == Bytes16(little, n)[0] && d[|before| + 1] == Bytes16(little, n)[1];
  }

  lemma Reads32(little: bool, before: seq<byte>, n: nat, after: seq<byte>)
    requires n < 0x1_0000_0000
    ensures Uint32(little, before + Bytes32(little, n) + after, |before|) == n
  {
    var (low, high) := (Bytes16(little, n % 0x1_0000), Bytes16(little, n / 0x1_0000));
    var (first, second) := if little then (low, high) else (high, low);
    var d := before + Bytes32(little, n) + after;
    assert d == before + first + (second + after) && d == before + first + second + after;
    Reads16(little, before, if little then n % 0x1_0000 else n / 0x1_0000, second + after);
    Reads16(little, before + first, if little then n / 0x1_0000 else n % 0x1_0000, after);
  }

  lemma MarkIsRead(little: bool, after: seq<byte>)
    ensures var d := Mark(little) + after; (d[..2] == LITTLE <==> little) && (d[..2] == BIG <==> !little)
  {
    assert (Mark(little) + after)[..2] == Mark(little);
    assert Mark(little)[0] == if little then 0x49 else 0x4D;
  }

  lemma Regrouped(a: seq<byte>, b: seq<byte>, c: seq<byte>, d: seq<byte>, e: seq<byte>)
    ensures a + b + c + d + e == a + b + c + (d + e) && a + b + c + d + e == a + (b + c + d + e)
  {
  }

  lemma CountIsRead(f: File)
    requires f.Valid()
    ensures Uint16(f.little, f.Bytes(), 8 + |f.gap|) == f.announced
  {
    Reads16(f.little, f.Start(), f.announced, Entries(f.little, f.entries) + f.rest);
  }

  /** What follows the byte order mark, and what follows the offset of the directory. */
  lemma HeaderParts(f: File) returns (after: seq<byte>, behind: seq<byte>)
    requires f.Valid()
    ensures f.Bytes() == Mark(f.little) + after
    ensures f.Bytes() == Mark(f.little) + Bytes16(f.little, 42) + Bytes32(f.little, 8 + |f.gap|) + behind
  {
    var mark, magic, offset := Mark(f.little), Bytes16(f.little, 42), Bytes32(f.little, 8 + |f.gap|);
    var directory := Bytes16(f.little, f.announced) + (Entries(f.little, f.entries) + f.rest);
    Regrouped([], [], f.Start(), Bytes16(f.little, f.announced), Entries(f.little, f.entries) + f.rest);
    Regrouped(mark, magic, offset, f.gap, directory);
    after, behind := magic + offset + f.gap + directory, f.gap + directory;
  }

  lemma HeaderIsRead(f: File)
    requires f.Valid()
    ensures Readable(f.Bytes()) && HeaderOf(f.Bytes()) == f.Directory()
  {
    var after, behind := HeaderParts(f);
    MarkIsRead(f.little, after);
    Reads32(f.little, Mark(f.little) + Bytes16(f.little, 42), 8 + |f.gap|, behind);
    CountIsRead(f);
  }

  lemma SliceOfFirst(a: seq<byte>, b: seq<byte>, first: nat, end: nat)
    requires first <= end <= |a|
    ensures (a + b)[first..end] == a[first..end]
  {
  }

  lemma {:induction false} PartLies(parts: seq<seq<byte>>, i: nat)
    requires i < |parts| && forall j :: 0 <= j < |parts| ==> |parts[j]| == 12
    ensures Joined(parts)[12 * i..12 * i + 12] == parts[i]
  {
    var n := |parts| - 1;
    if i < n {
      PartLies(parts[..n], i);
      SliceOfFirst(Joined(parts[..n]), parts[n], 12 * i, 12 * i + 12);
    }
  }

  lemma EntryLies(little: bool, entries: seq<Entry>, i: nat)
    requires i < |entries| && forall j :: 0 <= j < |entries| ==> entries[j].Valid()
    ensures Entries(little, entries)[12 * i..12 * i + 12] == EntryBytes(little, entries[i])
  {
    PartLies(seq(|entries|, j requires 0 <= j < |entries| => EntryBytes(little, entries[j])), i);
  }

  lemma TagAndValue(tag: seq<byte>, kind: seq<byte>, count: seq<byte>, value: seq<byte>)
    requires |tag| == |kind| == 2 && |count| == |value| == 4
    ensures var e := tag + kind + count + value; e[..2] == tag && e[8..] == value
  {
  }

  lemma EntryRead(little: bool, e: Entry)
    requires e.Valid()
    ensures Uint16(little, EntryBytes(little, e), 0) == e.tag
    ensures Uint16(little, EntryBytes(little, e), 8) == Uint16(little, e.value, 0)
  {
    TagAndValue(Bytes16(little, e.tag), Bytes16(little, e.kind), Bytes32(little, e.count), e.value);
    Reads16(little, [], e.tag, []);
    assert [] + Bytes16(little, e.tag) + [] == EntryBytes(little, e)[..2];
  }

  /** The directory and what surrounds it. */
  lemma FileParts(f: File) returns (start: seq<byte>, entries: seq<byte>)
    requires f.Valid()
    ensures entries == Entries(f.little, f.entries) && |start| == 10 + |f.gap| && |entries| == 12 * |f.entries|
    ensures f.Bytes() == start + entries + f.rest
  {
    start, entries := f.Start() + Bytes16(f.little, f.announced), Entries(f.little, f.entries);
    Regrouped([], [], start, entries, f.rest);
  }

  /** Where in the directory the entry lies, and what it starts with and holds. */
  lemma EntryPart(f: File, i: nat, entries: seq<byte>) returns (part: seq<byte>)
    requires f.Valid() && i < |f.entries| && entries == Entries(f.little, f.entries)
    ensures 12 * i + 12 <= |entries| && entries[12 * i..12 * i + 12] == part
    ensures |part| == 12 && Uint16(f.little, part, 0) == f.entries[i].tag
    ensures Uint16(f.little, part, 8) == Uint16(f.little, f.entries[i].value, 0)
  {
    part := EntryBytes(f.little, f.entries[i]);
    EntryLies(f.little, f.entries, i);
    EntryRead(f.little, f.entries[i]);
  }

  lemma PartInFile(little: bool, start: seq<byte>, entries: seq<byte>, rest: seq<byte>, first: nat, part: seq<byte>,
                   at: nat)
    requires first + 12 <= |entries| && at + 2 <= |part| && entries[first..first + 12] == part
    ensures Uint16(little, start + entries + rest, |start| + first + at) == Uint16(little, part, at)
  {
    assert part[at] == entries[first + at] && part[at + 1] == entries[first + at + 1];
  }

  lemma PartsAreRead(h: Header, d: seq<byte>, start: seq<byte>, entries: seq<byte>, rest: seq<byte>, i: nat,
                     part: seq<byte>)
    requires d == start + entries + rest && |start| == h.ifd + 2 && |part| == 12
    requires 12 * i + 12 <= |entries| && entries[12 * i..12 * i + 12] == part
    ensures EntryAt(h, i) + 12 <= |d|
    ensures Uint16(h.little, d, EntryAt(h, i)) == Uint16(h.little, part, 0)
    ensures ValueAt(d, h, i) == Uint16(h.little, part, 8)
  {
    PartInFile(h.little, start, entries, rest, 12 * i, part, 0);
    PartInFile(h.little, start, entries, rest, 12 * i, part, 8);
  }

  /** Each entry is read where the directory says, with its tag and the first half of its value. */
  lemma EntryIsRead(f: File, i: nat)
    requires f.Valid() && i < |f.entries|
    ensures var h := f.Directory();
            && EntryAt(h, i) + 12 <= |f.Bytes()|
            && Uint16(f.little, f.Bytes(), EntryAt(h, i)) == f.entries[i].tag
            && ValueAt(f.Bytes(), h, i) == Uint16(f.little, f.entries[i].value, 0)
  {
    var start, entries := FileParts(f);
    var part := EntryPart(f, i, entries);
    PartsAreRead(f.Directory(), f.Bytes(), start, entries, f.rest, i, part);
  }

  /** Nothing behind the entries is taken for one, as long as there are as many as announced or no room for more. */
  predicate Complete(f: File) {
    |f.entries| == f.announced || |f.rest| < 12
  }

  /** The entry of each place in the directory: the announced ones that are missing are none. */
  lemma OrientationEntries(f: File, i: nat)
    requires f.Valid()
    ensures i < |f.entries| ==>
              (IsOrientation(f.Bytes(), f.Directory(), i) <==> f.entries[i].tag == 0x0112)
    ensures i >= |f.entries| && Complete(f) ==> !IsOrientation(f.Bytes(), f.Directory(), i)
  {
    HeaderIsRead(f);
    if i < |f.entries| {
      EntryIsRead(f, i);
    }
  }

  /**
   * In files of either byte order, wherever the directory lies and whatever else it holds, the value of the first
   * orientation entry is read back if it is one of 1 to 8, and taken for 1 otherwise.
   */
  lemma FirstEntryIsRead(f: File, i: nat, value: nat)
    requires f.Valid() && i < |f.entries| && value < 0x1_0000
    requires f.entries[i].tag == 0x0112 && f.entries[i].value[..2] == Bytes16(f.little, value)
    requires forall j :: 0 <= j < i ==> f.entries[j].tag != 0x0112
    ensures OrientationIs(f.Bytes(), if 1 <= value <= 8 then value else 1)
  {
    var d := f.Bytes();
    HeaderIsRead(f);
    EntryIsRead(f, i);
    assert ValueAt(d, HeaderOf(d), i) == value by {
      assert f.entries[i].value == [] + Bytes16(f.little, value) + f.entries[i].value[2..];
      Reads16(f.little, [], value, f.entries[i].value[2..]);
    }
    forall j: nat | j <= i
      ensures IsOrientation(d, HeaderOf(d), j) <==> j == i
    {
      OrientationEntries(f, j);
    }
    assert FirstOrientation(d, i);
    forall j: nat | FirstOrientation(d, j)
      ensures j == i
    {
    }
  }

  /** Without such an entry a photo is upright. */
  lemma UprightWithoutEntry(f: File)
    requires f.Valid() && Complete(f) && forall j :: 0 <= j < |f.entries| ==> f.entries[j].tag != 0x0112
    ensures OrientationIs(f.Bytes(), 1)
  {
    HeaderIsRead(f);
    forall j: nat
      ensures !IsOrientation(f.Bytes(), f.Directory(), j)
    {
      OrientationEntries(f, j);
    }
  }

  /** So is one whose data is too short or names no byte order. */
  lemma UprightWithoutByteOrder(tiff: seq<byte>)
    requires |tiff| < 8 || tiff[..2] !in {Mark(true), Mark(false)}
    ensures OrientationIs(tiff, 1)
  {
    if |tiff| >= 8 {
      assert Mark(true) == LITTLE && Mark(false) == BIG;
    }
  }

  /** And one whose directory would lie in the header or reach out of the data. */
  lemma UprightWithoutDirectory(little: bool, magic: seq<byte>, offset: nat, rest: seq<byte>)
    requires |magic| == 2 && offset < 0x1_0000_0000 && !(8 <= offset <= 6 + |rest|)
    ensures OrientationIs(Mark(little) + magic + Bytes32(little, offset) + rest, 1)
  {
    var d := Mark(little) + magic + Bytes32(little, offset) + rest;
    Reads32(little, Mark(little) + magic, offset, rest);
    Regrouped(Mark(little), magic, Bytes32(little, offset), rest, []);
    assert d == d + [];
    MarkIsRead(little, magic + Bytes32(little, offset) + rest + []);
  }

  /** The data put into a JPEG file behind other segments is the data whose orientation counts. */
  lemma WrittenOrientationCounts(segments: seq<Segment>, f: File, i: nat, value: nat, rest: seq<byte>)
    requires forall j :: 0 <= j < |segments| ==> segments[j].Valid() && !segments[j].IsExif()
    requires f.Valid() && |f.Bytes()| < 0x1_0000 - 8 && i < |f.entries| && 1 <= value <= 8
    requires f.entries[i].tag == 0x0112 && f.entries[i].value[..2] == Bytes16(f.little, value)
    requires forall j :: 0 <= j < i ==> f.entries[j].tag != 0x0112
    ensures var exif := Segment(0xE1, EXIF_MARK + f.Bytes());
            && exif.Valid() && Scan(SOI + Stream(segments) + exif.Bytes() + rest, 2) == Tiff(f.Bytes())
            && forall r :: OrientationIs(f.Bytes(), r) <==> r == value
  {
    var exif := Segment(0xE1, EXIF_MARK + f.Bytes());
    assert exif.payload[6..] == f.Bytes() && exif.payload[..6] == EXIF_MARK;
    FirstExifSegmentIsFound(segments, exif, rest);
    FirstEntryIsRead(f, i, value);
    forall r | OrientationIs(f.Bytes(), r)
      ensures r == value
    {
      OrientationIsUnique(f.Bytes(), r, value);
    }
  }
}
