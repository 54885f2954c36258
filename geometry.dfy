/**
 * The geometry value types of the canonical schema (src/annox/schema/geometry.py):
 * boxes, polygons, run-length masks and keypoint sets. Each `New...` function is
 * the checked construction: it either yields the value or the error that
 * construction raises. The `Valid...` predicates state the invariant every
 * constructed value satisfies.
 */
module Geometry {
  import opened Wrappers

  datatype GeometryError =
    | NegativeSize         // w or h below 0 (field constraint ge=0)
    | OutsideUnitRange     // a normalized coordinate outside [0,1]
    | TooFewCoordinates    // a polygon with fewer than 6 numbers (field constraint min_length=6)
    | OddCoordinateCount   // a polygon whose numbers do not pair up
    | NotTriplets          // a keypoint list whose length is not a multiple of 3

  predicate InUnit(v: real) {
    0.0 <= v <= 1.0
  }

  /** The `for v in values: if v < 0 or v > 1: raise` loop, as a scan. */
  function AllInUnit(s: seq<real>): (b: bool)
    ensures b <==> forall i :: 0 <= i < |s| ==> InUnit(s[i])
  {
    if s == [] then true else InUnit(s[0]) && AllInUnit(s[1..])
  }

  /**
   * The keypoint scan from index `start` on: visibility entries (index mod 3 == 2)
   * are skipped, every other entry must lie in [0,1].
   */
  function XYInUnitFrom(s: seq<real>, start: nat): (b: bool)
    ensures b <==> forall i :: start <= i < |s| && i % 3 != 2 ==> InUnit(s[i])
    decreases |s| - start
  {
    if start >= |s| then true
    else (start % 3 == 2 || InUnit(s[start])) && XYInUnitFrom(s, start + 1)
  }

  // ---------------------------------------------------------------- BBox

  datatype BBox = BBox(x: real, y: real, w: real, h: real, normalized: bool)

  predicate ValidBBox(b: BBox) {
    && b.w >= 0.0 && b.h >= 0.0
    && (b.normalized ==> InUnit(b.x) && InUnit(b.y) && InUnit(b.w) && InUnit(b.h))
  }

  function NewBBox(x: real, y: real, w: real, h: real, normalized: bool): (r: Result<BBox, GeometryError>)
    ensures r.Success? <==> ValidBBox(BBox(x, y, w, h, normalized))
    ensures r.Success? ==> r.value == BBox(x, y, w, h, normalized)
  {
    if w < 0.0 || h < 0.0 then Failure(NegativeSize)
    else
      var fields := [x, y, w, h];
      assert fields[0] == x && fields[1] == y && fields[2] == w && fields[3] == h;
      if normalized && !AllInUnit(fields) then Failure(OutsideUnitRange)
      else Success(BBox(x, y, w, h, normalized))
  }

  // ------------------------------------------------------------- Polygon

  /** Flat coordinate pairs x0, y0, x1, y1, ... */
  datatype Polygon = Polygon(points: seq<real>, normalized: bool)

  predicate ValidPolygon(p: Polygon) {
    && |p.points| >= 6
    && |p.points| % 2 == 0
    && (p.normalized ==> forall i :: 0 <= i < |p.points| ==> InUnit(p.points[i]))
  }

  function NewPolygon(points: seq<real>, normalized: bool): (r: Result<Polygon, GeometryError>)
    ensures r.Success? <==> ValidPolygon(Polygon(points, normalized))
    ensures r.Success? ==> r.value == Polygon(points, normalized)
    ensures |points| < 6 ==> r == Failure(TooFewCoordinates)
  {
    if |points| < 6 then Failure(TooFewCoordinates)
    else if |points| % 2 != 0 then Failure(OddCoordinateCount)
    else if normalized && !AllInUnit(points) then Failure(OutsideUnitRange)
    else Success(Polygon(points, normalized))
  }

  // ----------------------------------------------------------------- RLE

  /** The run-length payload, carried verbatim: compressed bytes or text, or explicit runs. */
  datatype RleCounts =
    | CountsBytes(bytes: seq<bv8>)
    | CountsText(text: string)
    | CountsRuns(runs: seq<int>)

  /** A COCO run-length mask; `height` and `width` are the `size` pair (h, w). No check is made. */
  datatype Rle = Rle(counts: RleCounts, height: int, width: int)

  // ----------------------------------------------------------- Keypoints

  /** Flat triplets x, y, visibility. */
  datatype Keypoints = Keypoints(points: seq<real>, normalized: bool)

  predicate ValidKeypoints(k: Keypoints) {
    && |k.points| % 3 == 0
    && (k.normalized ==> forall i :: 0 <= i < |k.points| && i % 3 != 2 ==> InUnit(k.points[i]))
  }

  function NewKeypoints(points: seq<real>, normalized: bool): (r: Result<Keypoints, GeometryError>)
    ensures r.Success? <==> ValidKeypoints(Keypoints(points, normalized))
    ensures r.Success? ==> r.value == Keypoints(points, normalized)
  {
    if |points| % 3 != 0 then Failure(NotTriplets)
    else if normalized && !XYInUnitFrom(points, 0) then Failure(OutsideUnitRange)
    else Success(Keypoints(points, normalized))
  }

  // ------------------------------------------------------------- Lemmas

  /** A box with a negative width or height is rejected, normalized or not. */
  lemma NegativeSizeRejected(x: real, y: real, w: real, h: real, normalized: bool)
    requires w < 0.0 || h < 0.0
    ensures NewBBox(x, y, w, h, normalized) == Failure(NegativeSize)
  {
  }

  /** A normalized box is rejected as soon as one of its four numbers leaves [0,1]. */
  lemma NormalizedBBoxOutOfRangeRejected(x: real, y: real, w: real, h: real)
    requires w >= 0.0 && h >= 0.0
    requires !InUnit(x) || !InUnit(y) || !InUnit(w) || !InUnit(h)
    ensures NewBBox(x, y, w, h, true) == Failure(OutsideUnitRange)
  {
  }

  /** The example of the unit tests: x = 1.2 in a normalized box. */
  lemma NormalizedBBoxExample()
    ensures NewBBox(1.2, 0.0, 0.1, 0.1, true).Failure?
  {
  }

  /** A box that is not normalized places no bound on its origin. */
  lemma PlainBBoxOriginUnbounded(x: real, y: real, w: real, h: real)
    ensures NewBBox(x, y, w, h, false).Success? <==> w >= 0.0 && h >= 0.0
  {
  }

  /** Polygons need at least three vertices given as pairs. */
  lemma PolygonShapeRequired(points: seq<real>, normalized: bool)
    ensures NewPolygon(points, normalized).Success? ==> |points| >= 6 && |points| % 2 == 0
    ensures |points| >= 6 && |points| % 2 != 0 ==> NewPolygon(points, normalized) == Failure(OddCoordinateCount)
  {
  }

  /** A normalized polygon is rejected when any one coordinate is outside [0,1]. */
  lemma NormalizedPolygonOutOfRangeRejected(points: seq<real>, i: nat)
    requires |points| >= 6 && |points| % 2 == 0
    requires i < |points| && !InUnit(points[i])
    ensures NewPolygon(points, true) == Failure(OutsideUnitRange)
    ensures NewPolygon(points, false).Success?
  {
  }

  /** Keypoint lists must come in triplets. */
  lemma KeypointsTripletsRequired(points: seq<real>, normalized: bool)
    requires |points| % 3 != 0
    ensures NewKeypoints(points, normalized) == Failure(NotTriplets)
  {
  }

  /**
   * In normalized keypoints only x and y are range-checked: changing the visibility
   * entries (index mod 3 == 2) to any values never changes the outcome.
   */
  lemma KeypointsVisibilityUnconstrained(p: seq<real>, q: seq<real>, normalized: bool)
    requires |p| == |q|
    requires forall i :: 0 <= i < |p| && i % 3 != 2 ==> p[i] == q[i]
    ensures NewKeypoints(p, normalized).Success? <==> NewKeypoints(q, normalized).Success?
  {
  }

  /** An x or y outside [0,1] rejects normalized keypoints. */
  lemma NormalizedKeypointsOutOfRangeRejected(p: seq<real>, i: nat)
    requires |p| % 3 == 0 && i < |p| && i % 3 != 2 && !InUnit(p[i])
    ensures NewKeypoints(p, true) == Failure(OutsideUnitRange)
  {
  }
}
