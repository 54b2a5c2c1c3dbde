/**
 * Turning a decoded photo upright and fitting it to a size (internal/services/imaging.go). Pixels are numbers, and an
 * image is its rows, top to bottom; TIFF 6.0 says which side of the picture each row and column shows.
 */
module Orientation {
  import opened Prelude

  type Pixel = int

  // ---------------------------------------------------------------- where a pixel goes

  predicate Swaps(o: int) {
    o >= 5
  }

  /** Where the loop writes pixel (x, y) of a w by h image. */
  function Place(o: int, w: int, h: int, x: int, y: int): (int, int) {
    match o
    case 2 => (w - 1 - x, y)
    case 3 => (w - 1 - x, h - 1 - y)
    case 4 => (x, h - 1 - y)
    case 5 => (y, x)
    case 6 => (h - 1 - y, x)
    case 7 => (h - 1 - y, w - 1 - x)
    case 8 => (y, w - 1 - x)
    case _ => (x, y)
  }

  function Undo(o: int): int {
    if o == 6 then 8 else if o == 8 then 6 else o
  }

  function Width(o: int, w: int, h: int): int {
    if Swaps(o) then h else w
  }

  function Height(o: int, w: int, h: int): int {
    if Swaps(o) then w else h
  }

  predicate Inside(w: int, h: int, p: (int, int)) {
    0 <= p.0 < w && 0 <= p.1 < h
  }

  datatype Side = Top | Bottom | Left | Right

  /** TIFF 6.0 section 8, tag Orientation: the visual side of the 0th row. */
  function RowSide(o: int): Side {
    match o
    case 3 => Bottom
    case 4 => Bottom
    case 5 => Left
    case 8 => Left
    case 6 => Right
    case 7 => Right
    case _ => Top
  }

  /** And the visual side of the 0th column. */
  function ColumnSide(o: int): Side {
    match o
    case 2 => Right
    case 3 => Right
    case 5 => Top
    case 6 => Top
    case 7 => Bottom
    case 8 => Bottom
    case _ => Left
  }

  function DistanceFrom(side: Side, w: int, h: int, p: (int, int)): int {
    match side
    case Top => p.1
    case Bottom => h - 1 - p.1
    case Left => p.0
    case Right => w - 1 - p.0
  }

  /**
   * The mapping is the one the TIFF table prescribes, and the only one: a pixel lies as far from the side that
   * shows row 0 as its row number, and as far from the side that shows column 0 as its column number.
   */
  lemma PlaceFollowsTiff(o: int, w: int, h: int, x: int, y: int, p: (int, int))
    requires 1 <= o <= 8 && 0 <= x < w && 0 <= y < h
    ensures Inside(Width(o, w, h), Height(o, w, h), Place(o, w, h, x, y))
    ensures p == Place(o, w, h, x, y) <==>
            && DistanceFrom(RowSide(o), Width(o, w, h), Height(o, w, h), p) == y
            && DistanceFrom(ColumnSide(o), Width(o, w, h), Height(o, w, h), p) == x
  {
  }

  /**
   * 6 and 8 undo each other, every other orientation undoes itself; so no two pixels share a place and none stays
   * empty.
   */
  lemma PlacesUndo(o: int, w: int, h: int, x: int, y: int)
    requires 1 <= o <= 8 && 0 <= x < w && 0 <= y < h
    ensures var (dx, dy) := Place(o, w, h, x, y);
            Place(Undo(o), Width(o, w, h), Height(o, w, h), dx, dy) == (x, y)
  {
  }

  lemma PlacesDiffer(o: int, w: int, h: int, x: int, y: int)
    requires 1 <= o <= 8 && 0 <= x < w && 0 <= y < h
    ensures Inside(Width(o, w, h), Height(o, w, h), Place(o, w, h, x, y))
    ensures forall i, j :: 0 <= i < w && 0 <= j < h && (i, j) != (x, y) ==> Place(o, w, h, i, j) != Place(o, w, h, x, y)
  {
    forall i, j | 0 <= i < w && 0 <= j < h && (i, j) != (x, y)
      ensures Place(o, w, h, i, j) != Place(o, w, h, x, y)
    {
      PlacesUndo(o, w, h, i, j);
      PlacesUndo(o, w, h, x, y);
    }
  }

  // ---------------------------------------------------------------- whole images

  /** Pixel rows, top to bottom. */
  datatype Image = Image(w: nat, h: nat, rows: seq<seq<Pixel>>)
  {
    ghost predicate Valid() {
      |rows| == h && forall y :: 0 <= y < h ==> |rows[y]| == w
    }
  }

  /** The image seen upright: each output pixel is fetched from where Undo says it came from. */
  function Oriented(img: Image, o: int): (r: Image)
    requires img.Valid() && 1 <= o <= 8
    ensures r.Valid() && r.w == Width(o, img.w, img.h) && r.h == Height(o, img.w, img.h)
  {
    var (w, h) := (Width(o, img.w, img.h), Height(o, img.w, img.h));
    Image(w, h, seq(h, y requires 0 <= y < h => seq(w, x requires 0 <= x < w =>
      var (sx, sy) := Place(Undo(o), w, h, x, y);
      assert Inside(img.w, img.h, (sx, sy)) by { PlaceFollowsTiff(Undo(o), w, h, x, y, (0, 0)); }
      img.rows[sy][sx])))
  }

  /** Turning an image and turning it back gives the image. */
  lemma OrientedUndone(img: Image, o: int)
    requires img.Valid() && 1 <= o <= 8
    ensures Oriented(Oriented(img, o), Undo(o)) == img
  {
    var turned := Oriented(img, o);
    var back := Oriented(turned, Undo(o));
    forall y | 0 <= y < img.h
      ensures back.rows[y] == img.rows[y]
    {
      forall x | 0 <= x < img.w
        ensures back.rows[y][x] == img.rows[y][x]
      {
        PlaceFollowsTiff(o, img.w, img.h, x, y, (0, 0));
        PlacesUndo(o, img.w, img.h, x, y);
      }
    }
    assert back.rows == img.rows;
  }

  /** An array indexed [x, y] as an image. */
  ghost function Contents(a: array2<Pixel>): (r: Image)
    reads a
    ensures r.Valid()
  {
    Image(a.Length0, a.Length1,
          seq(a.Length1, y requires 0 <= y < a.Length1 reads a =>
            seq(a.Length0, x requires 0 <= x < a.Length0 reads a => a[x, y])))
  }

  /** The output holds, pixel for pixel, what was scattered into it so far. */
  ghost predicate Scattered(src: array2<Pixel>, dst: array2<Pixel>, o: int, x: int, y: int)
    requires 1 <= o <= 8 && 0 <= x < src.Length0 && 0 <= y < src.Length1
    requires dst.Length0 == Width(o, src.Length0, src.Length1) && dst.Length1 == Height(o, src.Length0, src.Length1)
    reads src, dst
  {
    var p := Place(o, src.Length0, src.Length1, x, y);
    Inside(dst.Length0, dst.Length1, p) && dst[p.0, p.1] == src[x, y]
  }

  /** The switch inside the loops. */
  method Destination(o: int, w: int, h: int, x: int, y: int) returns (dx: int, dy: int)
    requires 2 <= o <= 8
    ensures (dx, dy) == Place(o, w, h, x, y)
  {
    match o {
      case 2 => dx, dy := w - 1 - x, y;
      case 3 => dx, dy := w - 1 - x, h - 1 - y;
      case 4 => dx, dy := x, h - 1 - y;
      case 5 => dx, dy := y, x;
      case 6 => dx, dy := h - 1 - y, x;
      case 7 => dx, dy := h - 1 - y, w - 1 - x;
      case _ => dx, dy := y, w - 1 - x;
    }
  }

  method ApplyOrientation(src: array2<Pixel>, o: int) returns (dst: array2<Pixel>)
    ensures !(1 <= o <= 8) ==> dst == src
    ensures 1 <= o <= 8 ==> Contents(dst) == Oriented(Contents(src), o)
  {
    if o < 1 || o > 8 {
      return src;
    }
    if o == 1 {
      dst := src;
      AllScattered(src, dst, o);
      return;
    }
    var w, h := src.Length0, src.Length1;
    var dw, dh := w, h;
    if o >= 5 {
      dw, dh := h, w;
    }
    dst := new Pixel[dw, dh];
    for y := 0 to h
      invariant forall j, i :: 0 <= j < y && 0 <= i < w ==> Scattered(src, dst, o, i, j)
    {
      for x := 0 to w
        invariant forall j, i :: 0 <= j < y && 0 <= i < w ==> Scattered(src, dst, o, i, j)
        invariant forall i :: 0 <= i < x ==> Scattered(src, dst, o, i, y)
      {
        var dx, dy := Destination(o, w, h, x, y);
        PlacesDiffer(o, w, h, x, y);
        label before:
        dst[dx, dy] := src[x, y];
        forall j, i | 0 <= i < w && (0 <= j < y || (j == y && i < x))
          ensures Scattered(src, dst, o, i, j)
        {
          assert old@before(Scattered(src, dst, o, i, j));
        }
      }
    }
    AllScattered(src, dst, o);
  }

  lemma AllScattered(src: array2<Pixel>, dst: array2<Pixel>, o: int)
    requires 1 <= o <= 8
    requires dst.Length0 == Width(o, src.Length0, src.Length1) && dst.Length1 == Height(o, src.Length0, src.Length1)
    requires forall j, i :: 0 <= j < src.Length1 && 0 <= i < src.Length0 ==> Scattered(src, dst, o, i, j)
    ensures Contents(dst) == Oriented(Contents(src), o)
  {
    var got, want := Contents(dst), Oriented(Contents(src), o);
    forall y | 0 <= y < dst.Length1
      ensures got.rows[y] == want.rows[y]
    {
      forall x | 0 <= x < dst.Length0
        ensures got.rows[y][x] == want.rows[y][x]
      {
        PlaceFollowsTiff(Undo(o), dst.Length0, dst.Length1, x, y, (0, 0));
        PlacesUndo(Undo(o), dst.Length0, dst.Length1, x, y);
        var (sx, sy) := Place(Undo(o), dst.Length0, dst.Length1, x, y);
        assert Scattered(src, dst, o, sx, sy);
      }
    }
    assert got.rows == want.rows;
  }

  // ---------------------------------------------------------------- fitting a size

  /** The shorter edge keeps the proportion to the longer one, which is brought to maxEdge, to less than a pixel. */
  ghost predicate InProportion(short': int, short: int, maxEdge: int, long: int) {
    short' * long < short * maxEdge + long && short * maxEdge < (short' + 1) * long
  }

  /** encodeResized's output size: the longer edge is brought down to maxEdge, rounding the other one down. */
  method FitSize(width: int, height: int, maxEdge: int) returns (w: int, h: int)
    requires width > 0 && height > 0 && maxEdge > 0
    ensures 1 <= w <= MinInt(width, maxEdge) && 1 <= h <= MinInt(height, maxEdge)
    ensures width <= maxEdge && height <= maxEdge ==> w == width && h == height
    ensures MaxInt(width, height) > maxEdge ==> MaxInt(w, h) == maxEdge
    ensures width >= height && width > maxEdge ==> InProportion(h, height, maxEdge, width)
    ensures height > width && height > maxEdge ==> InProportion(w, width, maxEdge, height)
  {
    w, h := width, height;
    if w > maxEdge || h > maxEdge {
      if w >= h {
        ShrunkEdge(h, maxEdge, w);
        h := h * maxEdge / w;
        w := maxEdge;
      } else {
        ShrunkEdge(w, maxEdge, h);
        w := w * maxEdge / h;
        h := maxEdge;
      }
    }
    if w < 1 {
      w := 1;
    }
    if h < 1 {
      h := 1;
    }
  }

  lemma ShrunkEdge(short: int, maxEdge: int, long: int)
    requires 0 < short <= long && 0 < maxEdge < long
    ensures var r := short * maxEdge / long;
            0 <= r <= MinInt(short, maxEdge) && InProportion(MaxInt(r, 1), short, maxEdge, long)
  {
    var t := short * maxEdge;
    IntMulMono(1, short, maxEdge);
    assert t / long <= maxEdge by {
      IntMulMono(short, long, maxEdge);
      Quotient(t, long, maxEdge);
    }
    assert t / long <= short by {
      IntMulMono(maxEdge, long, short);
      Quotient(t, long, short);
    }
    AtLeastOne(t, long);
  }

  /** A quotient that is raised to one where it is zero is still within one of the exact ratio. */
  lemma AtLeastOne(t: int, d: int)
    requires 0 < t && 0 < d
    ensures var r := MaxInt(t / d, 1); 0 <= t / d && r * d < t + d && t < (r + 1) * d
  {
    DivBounds(t, d);
    assert (0 + 1) * d == d && (1 + 1) * d == d + d;
  }

  lemma Quotient(t: int, d: int, most: int)
    requires 0 <= t <= d * most && 0 < d
    ensures t / d <= most
  {
    DivBounds(t, d);
    assert (most + 1) * d == d * most + d;
    var q := t / d;
    if most < q {
      IntMulMono(most + 1, q, d);
    }
  }

  lemma DivBounds(t: int, d: int)
    requires 0 <= t && 0 < d
    ensures 0 <= t / d && t / d * d <= t < (t / d + 1) * d
  {
    var q := t / d;
    assert q * d + t % d == t && (q + 1) * d == q * d + d;
  }

  lemma IntMulMono(a: int, b: int, r: int)
    requires a <= b && 0 <= r
    ensures a * r <= b * r
  {
    assert 0 <= (b - a) * r;
  }
}
