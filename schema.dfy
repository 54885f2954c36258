/**
 * The canonical dataset schema (src/annox/schema/dataset.py): categories, images,
 * the five annotation variants as one closed sum type, items and the dataset,
 * with the construction checks of Category and MaskAnnotation, the per-variant
 * consistency checks, and the wiring of the id -> category map into every item
 * that building a Dataset performs.
 */
module Schema {
  import opened Wrappers
  import opened Geometry

  datatype SchemaError =
    | SkeletonOutOfRange   // a skeleton endpoint outside [0, |keypoint_names|)
    | MaskWithoutSource    // a mask with neither an RLE nor a PNG path

  // ------------------------------------------------------------ Category

  /** Endpoint pairs into the keypoint names, 0-based. */
  type Skeleton = seq<(int, int)>

  datatype Category = Category(
    id: int,
    name: string,
    supercategory: Option<string>,
    keypointNames: Option<seq<string>>,
    skeleton: Option<Skeleton>)

  predicate SkeletonInRange(skeleton: Skeleton, n: int) {
    forall k :: 0 <= k < |skeleton| ==> 0 <= skeleton[k].0 < n && 0 <= skeleton[k].1 < n
  }

  /** The construction invariant: with both fields present, every endpoint names a keypoint. */
  predicate ValidCategory(c: Category) {
    c.skeleton.Some? && c.keypointNames.Some? ==> SkeletonInRange(c.skeleton.value, |c.keypointNames.value|)
  }

  /** The `for a, b in skeleton` scan of the category check. */
  function PairsInRange(skeleton: Skeleton, n: int): (b: bool)
    ensures b <==> SkeletonInRange(skeleton, n)
  {
    if skeleton == [] then true
    else
      var (a, b) := skeleton[0];
      0 <= a < n && 0 <= b < n && PairsInRange(skeleton[1..], n)
  }

  function NewCategory(id: int, name: string, supercategory: Option<string>,
                       keypointNames: Option<seq<string>>, skeleton: Option<Skeleton>): (r: Result<Category, SchemaError>)
    ensures r.Success? <==> ValidCategory(Category(id, name, supercategory, keypointNames, skeleton))
    ensures r.Success? ==> r.value == Category(id, name, supercategory, keypointNames, skeleton)
    ensures skeleton.None? || keypointNames.None? ==> r.Success?
  {
    if skeleton.Some? && keypointNames.Some? && !PairsInRange(skeleton.value, |keypointNames.value|) then
      Failure(SkeletonOutOfRange)
    else
      Success(Category(id, name, supercategory, keypointNames, skeleton))
  }

  // ---------------------------------------------------------- Annotation

  datatype Image = Image(fileName: string, width: int, height: int)

  /**
   * The annotation sum type. `categoryId` is the optional weak reference into the
   * dataset's categories; the panoptic variant carries a required one instead.
   */
  datatype Annotation =
    | BBoxAnnotation(id: int, categoryId: Option<int>, bbox: BBox)
    | PolygonAnnotation(id: int, categoryId: Option<int>, polygons: seq<Polygon>)
    | MaskAnnotation(id: int, categoryId: Option<int>, rle: Option<Rle>, pngPath: Option<string>)
    | KeypointsAnnotation(id: int, categoryId: Option<int>, keypoints: Keypoints)
    | PanopticSegmentAnnotation(id: int, segmentId: int, segmentCategoryId: int, area: int)

  /** The category id an annotation refers to, whichever variant it is. */
  function CategoryIdOf(a: Annotation): Option<int> {
    if a.PanopticSegmentAnnotation? then Some(a.segmentCategoryId) else a.categoryId
  }

  function NewMaskAnnotation(id: int, categoryId: Option<int>, rle: Option<Rle>, pngPath: Option<string>): (r: Result<Annotation, SchemaError>)
    ensures r.Failure? <==> rle.None? && pngPath.None?
    ensures r.Success? ==> r.value == MaskAnnotation(id, categoryId, rle, pngPath)
  {
    if rle.None? && pngPath.None? then Failure(MaskWithoutSource)
    else Success(MaskAnnotation(id, categoryId, rle, pngPath))
  }

  /** Every geometry of an annotation satisfies its construction invariant. */
  predicate ValidAnnotation(a: Annotation) {
    match a
    case BBoxAnnotation(_, _, b) => ValidBBox(b)
    case PolygonAnnotation(_, _, ps) => forall k :: 0 <= k < |ps| ==> ValidPolygon(ps[k])
    case MaskAnnotation(_, _, rle, png) => rle.Some? || png.Some?
    case KeypointsAnnotation(_, _, kp) => ValidKeypoints(kp)
    case PanopticSegmentAnnotation(_, _, _, _) => true
  }

  // ---------------------------------------------------------------- Item

  /**
   * An item; `categoryMap` is the id -> category lookup a Dataset attaches to
   * each of its items (absent until then).
   */
  datatype Item = Item(id: string, image: Image, annotations: seq<Annotation>,
                       categoryMap: Option<map<int, Category>>)

  datatype Dataset = Dataset(categories: seq<Category>, items: seq<Item>)

  /** `{c.id: c for c in categories}`: a later category with the same id replaces an earlier one. */
  function CategoryMap(categories: seq<Category>): map<int, Category> {
    if categories == [] then map[]
    else
      var last := categories[|categories| - 1];
      CategoryMap(categories[..|categories| - 1])[last.id := last]
  }

  function CategoryIds(categories: seq<Category>): set<int> {
    set k | 0 <= k < |categories| :: categories[k].id
  }

  /** The items of a Dataset built from `categories` and `items`: every item gets the same map. */
  function Wired(categories: seq<Category>, items: seq<Item>): seq<Item> {
    seq(|items|, k requires 0 <= k < |items| => items[k].(categoryMap := Some(CategoryMap(categories))))
  }

  function WiredDataset(categories: seq<Category>, items: seq<Item>): Dataset {
    Dataset(categories, Wired(categories, items))
  }

  /** The map holds exactly the ids of the categories. */
  lemma {:induction false} CategoryMapKeys(categories: seq<Category>)
    ensures CategoryMap(categories).Keys == CategoryIds(categories)
  {
    if categories != [] {
      var n := |categories| - 1;
      CategoryMapKeys(categories[..n]);
      assert CategoryIds(categories) == CategoryIds(categories[..n]) + {categories[n].id} by {
        forall id | id in CategoryIds(categories) ensures id in CategoryIds(categories[..n]) + {categories[n].id} {
          var k :| 0 <= k < |categories| && categories[k].id == id;
          if k < n { assert categories[..n][k] == categories[k]; }
        }
        forall id | id in CategoryIds(categories[..n]) ensures id in CategoryIds(categories) {
          var k :| 0 <= k < n && categories[..n][k].id == id;
          assert categories[k].id == id;
        }
      }
    }
  }

  /** Looking an id up gives the last category carrying it. */
  lemma {:induction false} CategoryMapLastWins(categories: seq<Category>, k: nat)
    requires k < |categories|
    requires forall j :: k < j < |categories| ==> categories[j].id != categories[k].id
    ensures categories[k].id in CategoryMap(categories)
    ensures CategoryMap(categories)[categories[k].id] == categories[k]
  {
    var n := |categories| - 1;
    if k < n {
      var prefix := categories[..n];
      forall j | k < j < |prefix| ensures prefix[j].id != prefix[k].id {
        assert prefix[j] == categories[j];
      }
      CategoryMapLastWins(prefix, k);
      assert prefix[k] == categories[k];
    }
  }

  /** Every category in the map is one of the dataset's categories. */
  lemma {:induction false} CategoryMapValues(categories: seq<Category>, id: int)
    requires id in CategoryMap(categories)
    ensures exists k :: 0 <= k < |categories| && categories[k] == CategoryMap(categories)[id] && categories[k].id == id
  {
    var n := |categories| - 1;
    if categories[n].id != id {
      CategoryMapValues(categories[..n], id);
      var k :| 0 <= k < n && categories[..n][k] == CategoryMap(categories[..n])[id] && categories[..n][k].id == id;
      assert categories[k] == categories[..n][k];
    }
  }

  /**
   * The `_wire_category_map` validator of Dataset: builds the map once and assigns it
   * to every item in turn.
   */
  method NewDataset(categories: seq<Category>, items: seq<Item>) returns (ds: Dataset)
    ensures ds == WiredDataset(categories, items)
    ensures |ds.items| == |items|
    ensures forall k :: 0 <= k < |items| ==>
      ds.items[k].categoryMap == Some(CategoryMap(categories)) &&
      ds.items[k] == items[k].(categoryMap := ds.items[k].categoryMap)
  {
    var cmap: map<int, Category> := map[];
    var i := 0;
    while i < |categories|
      invariant 0 <= i <= |categories|
      invariant cmap == CategoryMap(categories[..i])
    {
      assert categories[..i + 1][..i] == categories[..i];
      cmap := cmap[categories[i].id := categories[i]];
      i := i + 1;
    }
    assert categories[..i] == categories;
    var wired := items;
    var j := 0;
    while j < |items|
      invariant 0 <= j <= |items|
      invariant |wired| == |items|
      invariant forall k :: 0 <= k < j ==> wired[k] == items[k].(categoryMap := Some(cmap))
      invariant forall k :: j <= k < |items| ==> wired[k] == items[k]
    {
      wired := wired[j := wired[j].(categoryMap := Some(cmap))];
      j := j + 1;
    }
    ds := Dataset(categories, wired);
  }

  // ---------------------------------------------------------- Consistency

  datatype ConsistencyError =
    | NegativeBBoxOrigin(itemId: string)
    | KeypointsLengthMismatch(actual: nat, expected: nat, categoryName: string)

  /**
   * `validate_consistency(item)`: the error it raises, if any. Only boxes and
   * keypoints override the no-op check of the base class.
   */
  function CheckConsistency(a: Annotation, item: Item): (r: Option<ConsistencyError>)
    ensures a.BBoxAnnotation? ==>
      (r.Some? <==> !a.bbox.normalized && (a.bbox.x < 0.0 || a.bbox.y < 0.0))
    ensures a.KeypointsAnnotation? ==>
      (r.Some? <==>
        && a.categoryId.Some?
        && item.categoryMap.Some?
        && a.categoryId.value in item.categoryMap.value
        && item.categoryMap.value[a.categoryId.value].keypointNames.Some?
        && |a.keypoints.points| != 3 * |item.categoryMap.value[a.categoryId.value].keypointNames.value|)
    ensures a.PolygonAnnotation? || a.MaskAnnotation? || a.PanopticSegmentAnnotation? ==> r.None?
  {
    match a
    case BBoxAnnotation(_, _, b) =>
      // a box reaching past the image's right or bottom edge is tolerated
      if !b.normalized && (b.x < 0.0 || b.y < 0.0) then Some(NegativeBBoxOrigin(item.id)) else None
    case KeypointsAnnotation(_, cid, kp) =>
      if cid.None? || item.categoryMap.None? then None
      else if cid.value !in item.categoryMap.value then None
      else
        var cat := item.categoryMap.value[cid.value];
        if cat.keypointNames.None? then None
        else
          var expected := |cat.keypointNames.value| * 3;
          if |kp.points| != expected then Some(KeypointsLengthMismatch(|kp.points|, expected, cat.name))
          else None
    case _ => None
  }

  /** A box extending past the image's width or height is not an error. */
  lemma OverhangingBBoxConsistent(a: Annotation, item: Item)
    requires a.BBoxAnnotation? && a.bbox.x >= 0.0 && a.bbox.y >= 0.0
    requires a.bbox.x + a.bbox.w > item.image.width as real
    ensures CheckConsistency(a, item).None?
  {
  }

  /** With no categories wired in, keypoint lengths are never checked. */
  lemma NoCategoriesNoKeypointError(a: Annotation, item: Item)
    requires item.categoryMap == Some(CategoryMap([]))
    ensures CheckConsistency(a, item).Some? ==> a.BBoxAnnotation?
  {
  }
}
