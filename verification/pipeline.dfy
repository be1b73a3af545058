/** The integer part of the per-frame transform: forcing the zoom rectangle
    into the canvas, cutting it out of the normalized frame, and choosing
    what the perspective warp is applied to. The resampling itself
    (resize, perspective solve, warp) is floating point and is not modelled. */
module Pipeline {
  import opened Geometry

  /** Size of the normalized working canvas every frame is resized to. */
  const CanvasWidth: int := 640
  const CanvasHeight: int := 480
  /** Smallest side the crop step lets the zoom rectangle have. */
  const MinCropSide: int := 10
  /** Colour channels of a captured frame. */
  const Channels: int := 3

  /** The canvas corners the four calibration points are warped onto,
      in the order top-left, top-right, bottom-right, bottom-left. */
  const WarpCorners: seq<Point> :=
    [Point(0, 0), Point(CanvasWidth, 0), Point(CanvasWidth, CanvasHeight), Point(0, CanvasHeight)]

  /** A rectangle lying inside the canvas with both sides at least MinCropSide. */
  predicate InCanvas(r: Roi) {
    0 <= r.x && 0 <= r.y && MinCropSide <= r.w && MinCropSide <= r.h &&
    r.x + r.w <= CanvasWidth && r.y + r.h <= CanvasHeight
  }

  /** The clamp applied to `zoom_roi` before cropping: the corner is first
      clamped to [0, 630] x [0, 470], then the sides to [10, room left]. */
  function ClampRoi(r: Roi): (c: Roi)
    ensures 0 <= c.x <= CanvasWidth - MinCropSide && 0 <= c.y <= CanvasHeight - MinCropSide
    ensures c.w >= MinCropSide && c.h >= MinCropSide
    ensures InCanvas(c)
    ensures c == r <==> InCanvas(r)
    ensures 0 <= r.x <= CanvasWidth - MinCropSide ==> c.x == r.x
    ensures 0 <= r.y <= CanvasHeight - MinCropSide ==> c.y == r.y
    ensures MinCropSide <= r.w <= CanvasWidth - c.x ==> c.w == r.w
    ensures MinCropSide <= r.h <= CanvasHeight - c.y ==> c.h == r.h
    ensures r.x < 0 ==> c.x == 0
    ensures r.x > CanvasWidth - MinCropSide ==> c.x == CanvasWidth - MinCropSide
    ensures r.y < 0 ==> c.y == 0
    ensures r.y > CanvasHeight - MinCropSide ==> c.y == CanvasHeight - MinCropSide
    ensures r.w < MinCropSide ==> c.w == MinCropSide
    ensures r.w > CanvasWidth - c.x ==> c.w == CanvasWidth - c.x
    ensures r.h < MinCropSide ==> c.h == MinCropSide
    ensures r.h > CanvasHeight - c.y ==> c.h == CanvasHeight - c.y
  {
    var x := Max(0, Min(r.x, CanvasWidth - MinCropSide));
    var y := Max(0, Min(r.y, CanvasHeight - MinCropSide));
    Roi(x, y, Max(MinCropSide, Min(r.w, CanvasWidth - x)), Max(MinCropSide, Min(r.h, CanvasHeight - y)))
  }

  /** Clamping twice is clamping once. */
  lemma ClampIdempotent(r: Roi)
    ensures ClampRoi(ClampRoi(r)) == ClampRoi(r)
  {
  }

  /** The two clamp examples: a tiny rectangle off the top-left corner, and
      the full canvas. */
  lemma ClampExamples()
    ensures ClampRoi(Roi(-50, -50, 5, 5)) == Roi(0, 0, 10, 10)
    ensures ClampRoi(Roi(0, 0, CanvasWidth, CanvasHeight)) == Roi(0, 0, CanvasWidth, CanvasHeight)
  {
  }

  /** Where a slice bound `i` lands on an axis of length n, as Python
      adjusts slice indices: negatives count from the end, then the bound
      is clipped to [0, n]. */
  function SliceBound(i: int, n: nat): (b: int)
    ensures 0 <= b <= n
    ensures 0 <= i <= n ==> b == i
    ensures i > n ==> b == n
    ensures i < 0 ==> b == Max(i + n, 0)
  {
    if i < 0 then Max(i + n, 0) else Min(i, n)
  }

  /** Number of elements Python's `s[start:stop]` selects from an axis of length n. */
  function SliceLen(start: int, stop: int, n: nat): (len: nat)
    ensures len <= n
    ensures 0 <= start <= stop <= n ==> len == stop - start
  {
    var a, b := SliceBound(start, n), SliceBound(stop, n);
    if b <= a then 0 else b - a
  }

  /** Element count of `full_frame[y:y+h, x:x+w]` on a 480x640x3 frame. */
  function CropSize(c: Roi): (size: int)
    ensures size >= 0
    ensures size == 0 <==>
      SliceLen(c.y, c.y + c.h, CanvasHeight) == 0 || SliceLen(c.x, c.x + c.w, CanvasWidth) == 0
  {
    SliceLen(c.y, c.y + c.h, CanvasHeight) * SliceLen(c.x, c.x + c.w, CanvasWidth) * Channels
  }

  /** The image the perspective warp is applied to. */
  datatype KeystoneInput =
    | ResizedCrop(crop: Roi)   // the clamped crop, scaled back up to the canvas
    | FullFrame                // the whole normalized frame (zero-size crop fallback)

  /** The choice made after cropping: fall back to the full frame when the
      crop holds no pixel, else warp the resized crop. The fallback is
      never taken: after the clamp the crop is exactly w x h pixels. */
  function SelectKeystoneInput(roi: Roi): (k: KeystoneInput)
    ensures k == ResizedCrop(ClampRoi(roi))
  {
    var c := ClampRoi(roi);
    CropExact(c);
    if CropSize(c) == 0 then FullFrame else ResizedCrop(c)
  }

  /** Any rectangle inside the canvas is cut out exactly: h rows and w
      columns, so the crop holds at least 10 x 10 x 3 elements. */
  lemma CropExact(c: Roi)
    requires InCanvas(c)
    ensures SliceLen(c.y, c.y + c.h, CanvasHeight) == c.h
    ensures SliceLen(c.x, c.x + c.w, CanvasWidth) == c.w
    ensures CropSize(c) == c.w * c.h * Channels
    ensures CropSize(c) >= MinCropSide * MinCropSide * Channels
  {
    assert c.w * c.h >= MinCropSide * c.w >= MinCropSide * MinCropSide;
  }
}
