/**
 * The geometric helpers of the COCO adapter (src/annox/adapters/coco/coco.py):
 * the shoelace area of a flat coordinate list, strided slices `s[start::step]`,
 * minimum and maximum, and the axis-aligned boxes derived from polygons and keypoints.
 */
module CocoGeometry {

  // ------------------------------------------------------------- slices

  /**
   * `s[r::m]` for `0 <= r < m`: the entries whose index is `r` modulo `m`, in order.
   */
  function Stride(s: seq<real>, r: nat, m: nat): seq<real>
    requires r < m
  {
    if s == [] then []
    else
      var n := |s| - 1;
      Stride(s[..n], r, m) + (if n % m == r then [s[n]] else [])
  }

  lemma {:induction false} StrideContains(s: seq<real>, r: nat, m: nat, i: nat)
    requires r < m && i < |s| && i % m == r
    ensures s[i] in Stride(s, r, m)
  {
    var n := |s| - 1;
    if i < n {
      StrideContains(s[..n], r, m, i);
      assert s[..n][i] == s[i];
    }
  }

  lemma {:induction false} StrideFrom(s: seq<real>, r: nat, m: nat, v: real)
    requires r < m && v in Stride(s, r, m)
    ensures exists i :: 0 <= i < |s| && i % m == r && s[i] == v
  {
    var n := |s| - 1;
    if v in Stride(s[..n], r, m) {
      StrideFrom(s[..n], r, m, v);
      var i :| 0 <= i < n && i % m == r && s[..n][i] == v;
      assert s[i] == v;
    }
  }

  /** A list no longer than `r` has an empty slice. */
  lemma {:induction false} StrideShort(s: seq<real>, r: nat, m: nat)
    requires r < m && |s| <= r
    ensures Stride(s, r, m) == []
  {
    if s != [] {
      var n := |s| - 1;
      assert n % m == n;
      StrideShort(s[..n], r, m);
    }
  }

  /** The slices starting at 0 and 1 are non-empty once there are two entries. */
  lemma StrideHeads(s: seq<real>, m: nat)
    requires 2 <= m && 2 <= |s|
    ensures s[0] in Stride(s, 0, m) && s[1] in Stride(s, 1, m)
  {
    StrideContains(s, 0, m, 0);
    StrideContains(s, 1, m, 1);
  }

  /** Two lists that agree at every index the slice visits have the same slice. */
  lemma {:induction false} StrideAgree(s: seq<real>, t: seq<real>, r: nat, m: nat)
    requires r < m && |s| == |t|
    requires forall i :: 0 <= i < |s| && i % m == r ==> s[i] == t[i]
    ensures Stride(s, r, m) == Stride(t, r, m)
  {
    if s != [] {
      var n := |s| - 1;
      forall i | 0 <= i < n && i % m == r ensures s[..n][i] == t[..n][i] {
        assert s[i] == t[i];
      }
      StrideAgree(s[..n], t[..n], r, m);
    }
  }

  // ------------------------------------------------------------ min, max

  function SeqMin(s: seq<real>): (m: real)
    requires |s| > 0
    ensures m in s && forall k :: 0 <= k < |s| ==> m <= s[k]
  {
    if |s| == 1 then s[0]
    else
      var rest := SeqMin(s[1..]);
      if s[0] <= rest then s[0] else rest
  }

  function SeqMax(s: seq<real>): (m: real)
    requires |s| > 0
    ensures m in s && forall k :: 0 <= k < |s| ==> s[k] <= m
  {
    if |s| == 1 then s[0]
    else
      var rest := SeqMax(s[1..]);
      if s[0] >= rest then s[0] else rest
  }

  // ----------------------------------------------------------- shoelace

  function Abs(r: real): (a: real)
    ensures a >= 0.0 && (a == r || a == -r)
  {
    if r < 0.0 then -r else r
  }

  /** The cross product of vertices i and j, vertex i being (points[2i], points[2i+1]). */
  function Cross(points: seq<real>, i: nat, j: nat): real
    requires 2 * i + 1 < |points| && 2 * j + 1 < |points|
  {
    points[2 * i] * points[2 * j + 1] - points[2 * j] * points[2 * i + 1]
  }

  /** The sum of the first k terms of the closed vertex cycle of n vertices. */
  function CrossSum(points: seq<real>, n: nat, k: nat): real
    requires 0 < n && k <= n && 2 * n <= |points|
  {
    if k == 0 then 0.0 else CrossSum(points, n, k - 1) + Cross(points, k - 1, k % n)
  }

  /**
   * `_shoelace_area`: the vertices are the pairs of `zip(points[0::2], points[1::2])`
   * (a trailing unpaired number is dropped); fewer than three of them give 0.
   */
  function ShoelaceArea(points: seq<real>): (area: real)
    ensures area >= 0.0
    ensures |points| / 2 < 3 ==> area == 0.0
  {
    var n := |points| / 2;
    if n < 3 then 0.0 else Abs(CrossSum(points, n, n)) / 2.0
  }

  /** The accumulating loop of `_shoelace_area`. */
  method ComputeShoelaceArea(points: seq<real>) returns (area: real)
    ensures area == ShoelaceArea(points)
  {
    var n := |points| / 2;
    if n < 3 {
      return 0.0;
    }
    var s := 0.0;
    var i := 0;
    while i < n
      invariant 0 <= i <= n
      invariant s == CrossSum(points, n, i)
    {
      var x1, y1 := points[2 * i], points[2 * i + 1];
      var j := (i + 1) % n;
      var x2, y2 := points[2 * j], points[2 * j + 1];
      assert x1 * y2 - x2 * y1 == Cross(points, i, j);
      assert CrossSum(points, n, i + 1) == CrossSum(points, n, i) + Cross(points, i, j);
      s := s + (x1 * y2 - x2 * y1);
      i := i + 1;
    }
    area := (if s < 0.0 then -s else s) / 2.0;
  }

  /** An axis-aligned rectangle traced corner to corner has the area of its box. */
  lemma RectangleArea(x0: real, y0: real, x1: real, y1: real)
    ensures ShoelaceArea([x0, y0, x1, y0, x1, y1, x0, y1]) == Abs((x1 - x0) * (y1 - y0))
  {
    var p := [x0, y0, x1, y0, x1, y1, x0, y1];
    assert CrossSum(p, 4, 1) == Cross(p, 0, 1);
    assert CrossSum(p, 4, 2) == CrossSum(p, 4, 1) + Cross(p, 1, 2);
    assert CrossSum(p, 4, 3) == CrossSum(p, 4, 2) + Cross(p, 2, 3);
    assert CrossSum(p, 4, 4) == CrossSum(p, 4, 3) + Cross(p, 3, 0);
    assert Cross(p, 0, 1) + Cross(p, 1, 2) + Cross(p, 2, 3) + Cross(p, 3, 0) == 2.0 * ((x1 - x0) * (y1 - y0));
  }

  /** The 4 x 3 rectangle of the design notes has area 12. */
  lemma RectangleExample()
    ensures ShoelaceArea([0.0, 0.0, 4.0, 0.0, 4.0, 3.0, 0.0, 3.0]) == 12.0
  {
    RectangleArea(0.0, 0.0, 4.0, 3.0);
  }

  // --------------------------------------------------------------- boxes

  /** [min x, min y, max x - min x, max y - min y], or the zero box when either list is empty. */
  function MinMaxBox(xs: seq<real>, ys: seq<real>): (box: seq<real>)
    ensures |box| == 4
  {
    if |xs| > 0 && |ys| > 0 then
      var minx, maxx := SeqMin(xs), SeqMax(xs);
      var miny, maxy := SeqMin(ys), SeqMax(ys);
      [minx, miny, maxx - minx, maxy - miny]
    else
      [0.0, 0.0, 0.0, 0.0]
  }

  /** `_poly_bbox`: the min/max box over `points[0::2]` and `points[1::2]`. */
  function PolyBBox(points: seq<real>): (box: seq<real>)
    requires |points| >= 2
    ensures |box| == 4
  {
    MinMaxBox(Stride(points, 0, 2), Stride(points, 1, 2))
  }

  /** Size of a box laid out as [x, y, w, h]. */
  predicate NonNegativeSize(box: seq<real>) {
    |box| == 4 && box[2] >= 0.0 && box[3] >= 0.0
  }

  /** The derived box of a polygon has a non-negative size and holds every vertex. */
  lemma PolyBBoxContains(points: seq<real>)
    requires |points| >= 2
    ensures NonNegativeSize(PolyBBox(points))
    ensures forall i :: 0 <= i < |points| && i % 2 == 0 ==>
      PolyBBox(points)[0] <= points[i] <= PolyBBox(points)[0] + PolyBBox(points)[2]
    ensures forall i :: 0 <= i < |points| && i % 2 == 1 ==>
      PolyBBox(points)[1] <= points[i] <= PolyBBox(points)[1] + PolyBBox(points)[3]
    ensures exists i :: 0 <= i < |points| && i % 2 == 0 && points[i] == PolyBBox(points)[0]
  {
    var box := PolyBBox(points);
    var xs, ys := Stride(points, 0, 2), Stride(points, 1, 2);
    StrideHeads(points, 2);
    assert SeqMin(xs) <= SeqMax(xs) && SeqMin(ys) <= SeqMax(ys) by {
      assert xs[0] in xs && ys[0] in ys;
    }
    forall i | 0 <= i < |points| && i % 2 == 0
      ensures box[0] <= points[i] <= box[0] + box[2]
    {
      StrideContains(points, 0, 2, i);
    }
    forall i | 0 <= i < |points| && i % 2 == 1
      ensures box[1] <= points[i] <= box[1] + box[3]
    {
      StrideContains(points, 1, 2, i);
    }
    StrideFrom(points, 0, 2, SeqMin(xs));
  }

  /**
   * The box `_ann_to_coco` derives from flat keypoint triplets: min/max over
   * `pts[0::3]` and `pts[1::3]` when both are non-empty, else [0, 0, 0, 0].
   */
  function KeypointsBBox(pts: seq<real>): (box: seq<real>)
    ensures |box| == 4
  {
    MinMaxBox(Stride(pts, 0, 3), Stride(pts, 1, 3))
  }

  /**
   * The keypoint box has a non-negative size and holds every x (index mod 3 == 0)
   * and every y (index mod 3 == 1); it is the zero box for fewer than two numbers.
   */
  lemma KeypointsBBoxContains(pts: seq<real>)
    ensures NonNegativeSize(KeypointsBBox(pts))
    ensures |pts| < 2 ==> KeypointsBBox(pts) == [0.0, 0.0, 0.0, 0.0]
    ensures forall i :: 0 <= i < |pts| && i % 3 == 0 && |pts| >= 2 ==>
      KeypointsBBox(pts)[0] <= pts[i] <= KeypointsBBox(pts)[0] + KeypointsBBox(pts)[2]
    ensures forall i :: 0 <= i < |pts| && i % 3 == 1 && |pts| >= 2 ==>
      KeypointsBBox(pts)[1] <= pts[i] <= KeypointsBBox(pts)[1] + KeypointsBBox(pts)[3]
  {
    var box := KeypointsBBox(pts);
    var xs, ys := Stride(pts, 0, 3), Stride(pts, 1, 3);
    if |pts| < 2 {
      StrideShort(pts, 1, 3);
    } else {
      StrideHeads(pts, 3);
      assert xs[0] in xs && ys[0] in ys;
      forall i | 0 <= i < |pts| && i % 3 == 0
        ensures box[0] <= pts[i] <= box[0] + box[2]
      {
        StrideContains(pts, 0, 3, i);
      }
      forall i | 0 <= i < |pts| && i % 3 == 1
        ensures box[1] <= pts[i] <= box[1] + box[3]
      {
        StrideContains(pts, 1, 3, i);
      }
    }
  }

  /** The keypoint box ignores the visibility channel entirely. */
  lemma KeypointsBBoxIgnoresVisibility(p: seq<real>, q: seq<real>)
    requires |p| == |q|
    requires forall i :: 0 <= i < |p| && i % 3 != 2 ==> p[i] == q[i]
    ensures KeypointsBBox(p) == KeypointsBBox(q)
  {
    forall i | 0 <= i < |p| && i % 3 == 0 ensures p[i] == q[i] {
      assert i % 3 != 2;
    }
    StrideAgree(p, q, 0, 3);
    forall i | 0 <= i < |p| && i % 3 == 1 ensures p[i] == q[i] {
      assert i % 3 != 2;
    }
    StrideAgree(p, q, 1, 3);
  }
}
