/** The two coordinate spaces of the annotation canvas.

    An answer region is stored in image pixels, relative to the top-left corner of the
    background image. On the canvas it is drawn as a box in absolute canvas coordinates,
    offset by the position of the background image element (the "anchor"). JavaScript
    numbers are modelled as `real`: only `+`, `-`, `/ 2`, `Math.min` and `Math.max`
    are applied to them. */
module Geometry {

  /** A box as the drawing engine stores it: top-left corner and extent. */
  datatype Box = Box(x: real, y: real, width: real, height: real)

  /** An `answer_location` `[x1, y1, x2, y2]` in image pixels. */
  datatype Region = Region(x1: real, y1: real, x2: real, y2: real)

  /** A stored `answer_location`: missing or the empty list (`Absent`), or four numbers. */
  datatype Location = Absent | At(region: Region)

  function Max(a: real, b: real): (r: real)
    ensures r >= a && r >= b && (r == a || r == b)
  {
    if a >= b then a else b
  }

  function Min(a: real, b: real): (r: real)
    ensures r <= a && r <= b && (r == a || r == b)
  {
    if a <= b then a else b
  }

  /** The region lies inside the image drawn by `anchor`, corners in order. */
  predicate InImage(r: Region, anchor: Box) {
    && 0.0 <= r.x1 <= r.x2 <= anchor.width
    && 0.0 <= r.y1 <= r.y2 <= anchor.height
  }

  /** Where the scene builder draws a region: shifted by the anchor's corner,
      extent `x2 - x1` by `y2 - y1`. */
  function ToCanvas(r: Region, anchor: Box): Box {
    Box(anchor.x + r.x1, anchor.y + r.y1, r.x2 - r.x1, r.y2 - r.y1)
  }

  /** How the scene differ reads a box back into image coordinates. The start of the
      region is clamped from below only (at 0) and the end from above only (at the
      image's extent), and the end is computed from the clamped start. */
  function ReadBack(b: Box, anchor: Box): (r: Region)
    ensures 0.0 <= r.x1 && 0.0 <= r.y1
    ensures r.x2 <= anchor.width && r.y2 <= anchor.height
    ensures r.x1 <= r.x2 <==> r.x1 <= anchor.width && b.width >= 0.0
    ensures r.y1 <= r.y2 <==> r.y1 <= anchor.height && b.height >= 0.0
  {
    var x1 := Max(0.0, b.x - anchor.x);
    var y1 := Max(0.0, b.y - anchor.y);
    Region(x1, y1, Min(anchor.width, x1 + b.width), Min(anchor.height, y1 + b.height))
  }

  /** Where a label is placed for a highlight box: centred 40 units wide, 25 above. */
  function LabelCorner(rect: Box): (real, real) {
    (rect.x + rect.width / 2.0 - 20.0, rect.y - 25.0)
  }

  /** A box lying inside the image (with non-negative extent) reads back exactly,
      with no clamping. */
  lemma ReadBackInside(b: Box, anchor: Box)
    requires 0.0 <= b.x - anchor.x && 0.0 <= b.width && b.x - anchor.x + b.width <= anchor.width
    requires 0.0 <= b.y - anchor.y && 0.0 <= b.height && b.y - anchor.y + b.height <= anchor.height
    ensures ReadBack(b, anchor) == Region(b.x - anchor.x, b.y - anchor.y,
                                          b.x - anchor.x + b.width, b.y - anchor.y + b.height)
  {
  }

  /** Placing a region on the canvas and reading it back gives the region again. */
  lemma RoundTrip(r: Region, anchor: Box)
    requires InImage(r, anchor)
    ensures ReadBack(ToCanvas(r, anchor), anchor) == r
  {
    ReadBackInside(ToCanvas(r, anchor), anchor);
  }

  /** Reading back is idempotent: a region that was read back, drawn again and read
      again is unchanged, for every box, including one dragged past the image's edge
      or with its corners out of order. */
  lemma ReadBackIdempotent(b: Box, anchor: Box)
    ensures ReadBack(ToCanvas(ReadBack(b, anchor), anchor), anchor) == ReadBack(b, anchor)
  {
  }

  /** A box with non-negative extent that does not start past the image's right or
      bottom edge reads back into a region lying in the image, which then survives
      drawing and reading again by the round trip. */
  lemma ReadBackStable(b: Box, anchor: Box)
    requires b.width >= 0.0 && b.height >= 0.0
    requires Max(0.0, b.x - anchor.x) <= anchor.width && Max(0.0, b.y - anchor.y) <= anchor.height
    ensures InImage(ReadBack(b, anchor), anchor)
    ensures ReadBack(ToCanvas(ReadBack(b, anchor), anchor), anchor) == ReadBack(b, anchor)
  {
    RoundTrip(ReadBack(b, anchor), anchor);
  }
}
