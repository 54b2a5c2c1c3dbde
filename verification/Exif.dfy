/**
 * Reading the EXIF orientation out of arbitrary bytes (internal/services/imaging.go): the scan of a JPEG file's
 * segments for TIFF data, and the search of its first directory. Neither may read outside the bytes it is given.
 */
module Exif {
  newtype byte = x: int | 0 <= x < 256

  const EXIF_MARK: seq<byte> := [0x45, 0x78, 0x69, 0x66, 0, 0]
  const LITTLE: seq<byte> := [0x49, 0x49]
  const BIG: seq<byte> := [0x4D, 0x4D]
  const ORIENTATION_TAG: int := 0x0112

  function Uint16(little: bool, d: seq<byte>, at: nat): (r: nat)
    requires at + 2 <= |d|
    ensures r < 0x1_0000
  {
    if little then d[at] as nat + 256 * d[at + 1] as nat else 256 * d[at] as nat + d[at + 1] as nat
  }

  function Uint32(little: bool, d: seq<byte>, at: nat): nat
    requires at + 4 <= |d|
  {
    if little then Uint16(true, d, at) + 0x1_0000 * Uint16(true, d, at + 2)
    else 0x1_0000 * Uint16(false, d, at) + Uint16(false, d, at + 2)
  }

  // ---------------------------------------------------------------- the TIFF directory

  /** A readable header: the byte order, and where the first directory starts. */
  datatype Header = Header(little: bool, ifd: nat, entries: nat)

  predicate Readable(tiff: seq<byte>) {
    && |tiff| >= 8 && (tiff[..2] == LITTLE || tiff[..2] == BIG)
    && var ifd := Uint32(tiff[..2] == LITTLE, tiff, 4); 8 <= ifd && ifd + 2 <= |tiff|
  }

  function HeaderOf(tiff: seq<byte>): Header
    requires Readable(tiff)
  {
    var little := tiff[..2] == LITTLE;
    var ifd := Uint32(little, tiff, 4);
    Header(little, ifd, Uint16(little, tiff, ifd))
  }

  function EntryAt(h: Header, i: nat): nat {
    h.ifd + 2 + i * 12
  }

  /** Entry i lies wholly within the data and carries the orientation tag. */
  predicate IsOrientation(tiff: seq<byte>, h: Header, i: nat) {
    i < h.entries && EntryAt(h, i) + 12 <= |tiff| && Uint16(h.little, tiff, EntryAt(h, i)) == ORIENTATION_TAG
  }

  function ValueAt(tiff: seq<byte>, h: Header, i: nat): int
    requires EntryAt(h, i) + 12 <= |tiff|
  {
    Uint16(h.little, tiff, EntryAt(h, i) + 8)
  }

  /**
   * What the orientation of TIFF data is: the first orientation entry's value if it is one of 1 to 8, and 1 otherwise.
   */
  ghost predicate OrientationIs(tiff: seq<byte>, r: int) {
    && 1 <= r <= 8
    && (r != 1 ==>
          Readable(tiff) && exists i: nat :: FirstOrientation(tiff, i) && ValueAt(tiff, HeaderOf(tiff), i) == r)
    && (Readable(tiff) ==> forall i: nat :: FirstOrientation(tiff, i) ==>
          var v := ValueAt(tiff, HeaderOf(tiff), i); r == if 1 <= v <= 8 then v else 1)
  }

  ghost predicate FirstOrientation(tiff: seq<byte>, i: nat)
    requires Readable(tiff)
  {
    IsOrientation(tiff, HeaderOf(tiff), i) && forall j: nat :: j < i ==> !IsOrientation(tiff, HeaderOf(tiff), j)
  }

  lemma OrientationIsUnique(tiff: seq<byte>, r: int, q: int)
    requires OrientationIs(tiff, r) && OrientationIs(tiff, q)
    ensures r == q
  {
  }

  method ExifOrientation(tiff: seq<byte>) returns (r: int)
    ensures OrientationIs(tiff, r)
  {
    if |tiff| < 8 {
      return 1;
    }
    var little := tiff[..2] == LITTLE;
    if !little && tiff[..2] != BIG {
      return 1;
    }
    var ifd := Uint32(little, tiff, 4);
    if ifd < 8 || ifd + 2 > |tiff| {
      return 1;
    }
    var entries := Uint16(little, tiff, ifd);
    ghost var h := HeaderOf(tiff);
    for i := 0 to entries
      invariant forall j: nat :: j < i ==> !IsOrientation(tiff, h, j)
    {
      var entry := ifd + 2 + i * 12;
      if entry + 12 > |tiff| {
        assert forall j: nat :: i <= j ==> EntryAt(h, i) <= EntryAt(h, j);
        return 1;
      }
      if Uint16(little, tiff, entry) == ORIENTATION_TAG {
        assert FirstOrientation(tiff, i);
        assert forall j: nat :: FirstOrientation(tiff, j) ==> j == i;
        var value := Uint16(little, tiff, entry + 8);
        if value >= 1 && value <= 8 {
          return value;
        }
        return 1;
      }
    }
    return 1;
  }

  // ---------------------------------------------------------------- the JPEG segments

  /** A marker segment other than the ones that end the scan. */
  datatype Segment = Segment(marker: byte, payload: seq<byte>)
  {
    /** ITU-T T.81 section B.1.1.4: the length counts itself and fits 16 bits. */
    predicate Valid() {
      |payload| + 2 < 0x1_0000 && marker != 0xDA && marker != 0xD9
    }

    /** An APP1 segment holding TIFF data after the mark. */
    predicate IsExif() {
      marker == 0xE1 && |payload| > 6 && payload[..6] == EXIF_MARK
    }

    function Bytes(): seq<byte>
      requires Valid()
    {
      var n := |payload| + 2;
      [0xFF, marker, (n / 256) as byte, (n % 256) as byte] + payload
    }
  }

  function Stream(segments: seq<Segment>): seq<byte>
    requires forall i :: 0 <= i < |segments| ==> segments[i].Valid()
  {
    if segments == [] then [] else Stream(segments[..|segments| - 1]) + segments[|segments| - 1].Bytes()
  }

  /** Where the scan ends: at TIFF data, or nowhere. */
  datatype Found = Nothing | Tiff(data: seq<byte>)

  function Scan(data: seq<byte>, pos: nat): Found
    decreases |data| - pos
  {
    if pos + 4 > |data| || data[pos] != 0xFF || data[pos + 1] == 0xDA || data[pos + 1] == 0xD9 then Nothing
    else
      var segLen := Uint16(false, data, pos + 2);
      if segLen < 2 || pos + 2 + segLen > |data| then Nothing
      else
        var s := Segment(data[pos + 1], data[pos + 4..pos + 2 + segLen]);
        if s.IsExif() then Tiff(s.payload[6..]) else Scan(data, pos + 2 + segLen)
  }

  method JpegOrientation(data: seq<byte>) returns (r: int)
    ensures 1 <= r <= 8
    ensures |data| < 4 || data[0] != 0xFF || data[1] != 0xD8 ==> r == 1
    ensures |data| >= 4 && data[0] == 0xFF && data[1] == 0xD8 ==>
              match Scan(data, 2)
              case Nothing => r == 1
              case Tiff(tiff) => OrientationIs(tiff, r)
  {
    if |data| < 4 || data[0] != 0xFF || data[1] != 0xD8 {
      return 1;
    }
    var pos := 2;
    while pos + 4 <= |data|
      invariant 2 <= pos <= |data| && Scan(data, pos) == Scan(data, 2)
    {
      if data[pos] != 0xFF {
        return 1;
      }
      var marker := data[pos + 1];
      if marker == 0xDA || marker == 0xD9 {
        return 1;
      }
      var segLen := Uint16(false, data, pos + 2);
      if segLen < 2 || pos + 2 + segLen > |data| {
        return 1;
      }
      var segment := data[pos + 4..pos + 2 + segLen];
      if marker == 0xE1 && |segment| > 6 && segment[..6] == EXIF_MARK {
        assert Scan(data, pos) == Tiff(segment[6..]);
        r := ExifOrientation(segment[6..]);
        return;
      }
      assert Scan(data, pos) == Scan(data, pos + 2 + segLen);
      pos := pos + 2 + segLen;
    }
    return 1;
  }

  lemma HeadAndPayload(before: seq<byte>, head: seq<byte>, payload: seq<byte>, after: seq<byte>)
    requires |head| == 4
    ensures var data, pos := before + (head + payload) + after, |before|;
            && data[pos] == head[0] && data[pos + 1] == head[1] && data[pos + 2] == head[2] && data[pos + 3] == head[3]
            && data[pos + 4..pos + 4 + |payload|] == payload && pos + 4 + |payload| == |before + (head + payload)|
  {
  }

  lemma LengthIsRead(n: nat)
    requires n < 0x1_0000
    ensures 256 * ((n / 256) as byte) as nat + ((n % 256) as byte) as nat == n
  {
  }

  /** The scan reads back one segment it did not stop at, whatever surrounds it. */
  lemma ScanReadsSegment(before: seq<byte>, s: Segment, after: seq<byte>)
    requires s.Valid()
    ensures Scan(before + s.Bytes() + after, |before|)
         == if s.IsExif() then Tiff(s.payload[6..]) else Scan(before + s.Bytes() + after, |before + s.Bytes()|)
  {
    var n := |s.payload| + 2;
    HeadAndPayload(before, [0xFF, s.marker, (n / 256) as byte, (n % 256) as byte], s.payload, after);
    LengthIsRead(n);
  }

  lemma {:induction false} ScanSkipsSegments(before: seq<byte>, segments: seq<Segment>, after: seq<byte>)
    requires forall i :: 0 <= i < |segments| ==> segments[i].Valid() && !segments[i].IsExif()
    ensures Scan(before + Stream(segments) + after, |before|)
              == Scan(before + Stream(segments) + after, |before + Stream(segments)|)
  {
    if segments == [] {
      assert before + Stream(segments) == before;
    } else {
      var n := |segments| - 1;
      var (init, last) := (segments[..n], segments[n]);
      ScanSkipsSegments(before, init, last.Bytes() + after);
      ScanReadsSegment(before + Stream(init), last, after);
      Regroup(before, Stream(init), last.Bytes(), after);
    }
  }

  lemma Regroup(a: seq<byte>, b: seq<byte>, c: seq<byte>, d: seq<byte>)
    ensures a + b + (c + d) == a + (b + c) + d == a + b + c + d
    ensures a + b + c == a + (b + c)
  {
  }

  const SOI: seq<byte> := [0xFF, 0xD8]

  /** In a well-formed file the first Exif segment is found behind any other segments, whatever follows it. */
  lemma FirstExifSegmentIsFound(segments: seq<Segment>, exif: Segment, rest: seq<byte>)
    requires forall i :: 0 <= i < |segments| ==> segments[i].Valid() && !segments[i].IsExif()
    requires exif.Valid() && exif.IsExif()
    ensures Scan(SOI + Stream(segments) + exif.Bytes() + rest, 2) == Tiff(exif.payload[6..])
  {
    ScanSkipsSegments(SOI, segments, exif.Bytes() + rest);
    assert SOI + Stream(segments) + (exif.Bytes() + rest) == SOI + Stream(segments) + exif.Bytes() + rest;
    ScanReadsSegment(SOI + Stream(segments), exif, rest);
  }

  /**
   * And where image data or the end of the file comes first, nothing is found, however much looks like Exif after it.
   */
  lemma NothingBehindTheImageData(segments: seq<Segment>, marker: byte, rest: seq<byte>)
    requires forall i :: 0 <= i < |segments| ==> segments[i].Valid() && !segments[i].IsExif()
    requires marker == 0xDA || marker == 0xD9
    ensures Scan(SOI + Stream(segments) + [0xFF, marker] + rest, 2) == Nothing
  {
    ScanSkipsSegments(SOI, segments, [0xFF, marker] + rest);
    assert SOI + Stream(segments) + ([0xFF, marker] + rest) == SOI + Stream(segments) + [0xFF, marker] + rest;
  }

  /** Nor behind bytes that are no whole segment. */
  lemma NothingBehindDamage(segments: seq<Segment>, rest: seq<byte>)
    requires forall i :: 0 <= i < |segments| ==> segments[i].Valid() && !segments[i].IsExif()
    requires |rest| < 4 || rest[0] != 0xFF
          || var length := 256 * rest[2] as int + rest[3] as int; length < 2 || length + 2 > |rest|
    ensures Scan(SOI + Stream(segments) + rest, 2) == Nothing
  {
    ScanSkipsSegments(SOI, segments, rest);
    var before := SOI + Stream(segments);
    assert |rest| >= 1 ==> (before + rest)[|before|] == rest[0];
    assert |rest| >= 4 ==> (before + rest)[|before| + 2] == rest[2] && (before + rest)[|before| + 3] == rest[3];
  }
}
