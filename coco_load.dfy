/**
 * `COCOAdapter.load` (src/annox/adapters/coco/coco.py): a parsed COCO document
 * becomes a canonical Dataset. Categories are converted first (skeletons from
 * 1-based to 0-based), then one item per image, then every annotation whose image
 * is known is split into its sibling canonical annotations, numbered per item
 * with a counter starting at 1. The first construction that fails aborts the
 * load; that is the Failure of the result.
 */
module CocoLoad {
  import opened Wrappers
  import opened Decimal
  import opened Geometry
  import opened Schema
  import opened CocoFormat

  datatype LoadError =
    | InvalidGeometry(geometry: GeometryError)  // a BBox, Polygon or Keypoints construction failed
    | InvalidCategory(schema: SchemaError)      // the Category check failed
    | BBoxNotFourValues                         // unpacking `x, y, w, h` from the `bbox` list failed
    | InvalidRle                                // an RLE without counts, or whose size is not a pair

  // ---------------------------------------------------------- categories

  /** Adds `d` to both endpoints of every skeleton pair. */
  function ShiftSkeleton(sk: seq<(int, int)>, d: int): (r: seq<(int, int)>)
    ensures |r| == |sk|
  {
    seq(|sk|, k requires 0 <= k < |sk| => (sk[k].0 + d, sk[k].1 + d))
  }

  /** Shifting down and back up, or up and back down, gives the skeleton back. */
  lemma ShiftSkeletonRoundTrip(sk: seq<(int, int)>)
    ensures ShiftSkeleton(ShiftSkeleton(sk, -1), 1) == sk
    ensures ShiftSkeleton(ShiftSkeleton(sk, 1), -1) == sk
  {
  }

  /** Every endpoint lies in [1, n]: the 1-based form of a valid skeleton over n keypoints. */
  predicate OneBasedInRange(sk: seq<(int, int)>, n: int) {
    forall k :: 0 <= k < |sk| ==> 1 <= sk[k].0 <= n && 1 <= sk[k].1 <= n
  }

  /** A 1-based skeleton is in range exactly when its 0-based translation is. */
  lemma ShiftedInRange(sk: seq<(int, int)>, n: int)
    ensures SkeletonInRange(ShiftSkeleton(sk, -1), n) <==> OneBasedInRange(sk, n)
  {
    var sh := ShiftSkeleton(sk, -1);
    if SkeletonInRange(sh, n) {
      forall k | 0 <= k < |sk| ensures 1 <= sk[k].0 <= n && 1 <= sk[k].1 <= n {
        assert sh[k] == (sk[k].0 - 1, sk[k].1 - 1);
      }
    }
  }

  /** One entry of `categories`: the name defaults to `str(id)`. */
  function LoadCategory(c: CocoCategory): (r: Result<Category, LoadError>)
    ensures r.Success? <==>
      (c.skeleton.Some? && c.keypoints.Some? ==> OneBasedInRange(c.skeleton.value, |c.keypoints.value|))
    ensures r.Success? ==>
      && r.value.id == c.id
      && r.value.keypointNames == c.keypoints
      && r.value.supercategory == c.supercategory
      && r.value.skeleton.Some? == c.skeleton.Some?
      && ValidCategory(r.value)
    ensures r.Failure? ==> r.error == InvalidCategory(SkeletonOutOfRange)
  {
    ShiftedInRange(c.skeleton.GetOr([]), |c.keypoints.GetOr([])|);
    var skeleton := if c.skeleton.Some? then Some(ShiftSkeleton(c.skeleton.value, -1)) else None;
    var name := c.name.GetOr(IntToDecimal(c.id));
    match NewCategory(c.id, name, c.supercategory, c.keypoints, skeleton)
    case Success(cat) => Success(cat)
    case Failure(e) => Failure(InvalidCategory(e))
  }

  /** The category loop: every entry in order, stopping at the first that fails. */
  function LoadCategories(cats: seq<CocoCategory>): (r: Result<seq<Category>, LoadError>)
    ensures r.Success? <==> forall k :: 0 <= k < |cats| ==> LoadCategory(cats[k]).Success?
    ensures r.Success? ==> |r.value| == |cats| && forall k :: 0 <= k < |cats| ==> LoadCategory(cats[k]) == Success(r.value[k])
  {
    if cats == [] then Success([])
    else
      var n := |cats| - 1;
      var init := cats[..n];
      var prev :- LoadCategories(init);
      PrefixAt(cats, n);
      var c :- LoadCategory(cats[n]);
      Success(prev + [c])
  }

  lemma PrefixAt(cats: seq<CocoCategory>, n: nat)
    requires n <= |cats|
    ensures forall k :: 0 <= k < n ==> cats[..n][k] == cats[k]
  {
  }

  /** Entry `k` is the first whose load fails. */
  predicate FirstFailure(cats: seq<CocoCategory>, k: int) {
    && 0 <= k < |cats| && LoadCategory(cats[k]).Failure?
    && forall j :: 0 <= j < k ==> LoadCategory(cats[j]).Success?
  }

  /** A failing load of the categories reports the error of the first category that fails. */
  lemma {:induction false} LoadCategoriesFirstError(cats: seq<CocoCategory>)
    requires LoadCategories(cats).Failure?
    ensures exists k :: FirstFailure(cats, k) && LoadCategories(cats).error == LoadCategory(cats[k]).error
  {
    var n := |cats| - 1;
    LoadCategoriesSnoc(cats, n);
    assert cats[..n + 1] == cats;
    if LoadCategories(cats[..n]).Failure? {
      LoadCategoriesFirstError(cats[..n]);
      var k :| FirstFailure(cats[..n], k) && LoadCategories(cats[..n]).error == LoadCategory(cats[..n][k]).error;
      FirstFailurePrefix(cats, n, k);
    } else {
      forall j | 0 <= j < n ensures LoadCategory(cats[j]).Success? {
        assert cats[..n][j] == cats[j];
      }
      assert FirstFailure(cats, n);
    }
  }

  lemma FirstFailurePrefix(cats: seq<CocoCategory>, n: nat, k: int)
    requires n <= |cats| && FirstFailure(cats[..n], k)
    ensures FirstFailure(cats, k) && cats[..n][k] == cats[k]
  {
    forall j | 0 <= j < k ensures LoadCategory(cats[j]).Success? {
      assert cats[..n][j] == cats[j];
    }
  }

  method LoadCategoryList(cats: seq<CocoCategory>) returns (r: Result<seq<Category>, LoadError>)
    ensures r == LoadCategories(cats)
  {
    var categories: seq<Category> := [];
    var i := 0;
    while i < |cats|
      invariant 0 <= i <= |cats|
      invariant LoadCategories(cats[..i]) == Success(categories)
    {
      LoadCategoriesSnoc(cats, i);
      var c := LoadCategory(cats[i]);
      if c.Failure? {
        LoadCategoriesFailureSticks(cats, i + 1);
        return Failure(c.error);
      }
      categories := categories + [c.value];
      i := i + 1;
    }
    assert cats[..i] == cats;
    return Success(categories);
  }

  /** One more entry: a failure so far stays, else the entry's own load decides. */
  lemma LoadCategoriesSnoc(cats: seq<CocoCategory>, i: nat)
    requires i < |cats|
    ensures LoadCategories(cats[..i]).Failure? ==> LoadCategories(cats[..i + 1]) == LoadCategories(cats[..i])
    ensures LoadCategories(cats[..i]).Success? && LoadCategory(cats[i]).Failure? ==>
      LoadCategories(cats[..i + 1]) == Failure(LoadCategory(cats[i]).error)
    ensures LoadCategories(cats[..i]).Success? && LoadCategory(cats[i]).Success? ==>
      LoadCategories(cats[..i + 1]) == Success(LoadCategories(cats[..i]).value + [LoadCategory(cats[i]).value])
  {
    assert cats[..i + 1][..i] == cats[..i];
    assert cats[..i + 1][i] == cats[i];
  }

  lemma {:induction false} LoadCategoriesFailureSticks(cats: seq<CocoCategory>, i: nat)
    requires i <= |cats| && LoadCategories(cats[..i]).Failure?
    ensures LoadCategories(cats) == LoadCategories(cats[..i])
    decreases |cats| - i
  {
    if i < |cats| {
      LoadCategoriesSnoc(cats, i);
      LoadCategoriesFailureSticks(cats, i + 1);
    } else {
      assert cats[..i] == cats;
    }
  }

  // --------------------------------------------------------------- items

  /** The item of one image: id `str(image id)`, file name `"<id>.jpg"` and size 0 by default. */
  function ItemOfImage(im: CocoImage): (it: Item)
    ensures it.annotations == [] && it.categoryMap.None?
    ensures ParseInt(it.id) == Some(im.id)
  {
    ParseIntOfDecimal(im.id);
    Item(IntToDecimal(im.id),
         Image(im.fileName.GetOr(IntToDecimal(im.id) + ".jpg"), im.width.GetOr(0), im.height.GetOr(0)),
         [], None)
  }

  function ImageItems(images: seq<CocoImage>): (items: seq<Item>)
    ensures |items| == |images|
  {
    seq(|images|, k requires 0 <= k < |images| => ItemOfImage(images[k]))
  }

  function ImageIds(images: seq<CocoImage>): set<int> {
    set k | 0 <= k < |images| :: images[k].id
  }

  lemma ImageIdsSnoc(images: seq<CocoImage>)
    requires images != []
    ensures ImageIds(images) == ImageIds(images[..|images| - 1]) + {images[|images| - 1].id}
  {
    var n := |images| - 1;
    forall iid | iid in ImageIds(images) ensures iid in ImageIds(images[..n]) + {images[n].id} {
      var k :| 0 <= k < |images| && images[k].id == iid;
      if k < n { assert images[..n][k] == images[k]; }
    }
    forall iid | iid in ImageIds(images[..n]) ensures iid in ImageIds(images) {
      var k :| 0 <= k < n && images[..n][k].id == iid;
      assert images[k].id == iid;
    }
  }

  /** The position of the last image carrying `iid` is `p`. */
  predicate LastWith(images: seq<CocoImage>, iid: int, p: nat) {
    p < |images| && images[p].id == iid && forall j :: p < j < |images| ==> images[j].id != iid
  }

  /** `by_image_id`: image id -> position of the LAST image carrying it. */
  function ImageIndex(images: seq<CocoImage>): (index: map<int, nat>)
    ensures index.Keys == ImageIds(images)
    ensures forall iid :: iid in index ==> LastWith(images, iid, index[iid])
  {
    if images == [] then map[]
    else
      var n := |images| - 1;
      var prev := ImageIndex(images[..n]);
      ImageIdsSnoc(images);
      LastWithSnoc(images, prev);
      prev[images[n].id := n]
  }

  lemma LastWithSnoc(images: seq<CocoImage>, prev: map<int, nat>)
    requires images != []
    requires forall iid :: iid in prev ==> LastWith(images[..|images| - 1], iid, prev[iid])
    ensures forall iid :: iid in prev && iid != images[|images| - 1].id ==> LastWith(images, iid, prev[iid])
    ensures LastWith(images, images[|images| - 1].id, |images| - 1)
  {
    var n := |images| - 1;
    forall iid | iid in prev && iid != images[n].id ensures LastWith(images, iid, prev[iid]) {
      assert images[..n][prev[iid]] == images[prev[iid]];
      forall j | prev[iid] < j < |images| ensures images[j].id != iid {
        if j < n { assert images[..n][j] == images[j]; }
      }
    }
  }

  /** The item loop: the items in image order together with `by_image_id`. */
  method BuildItems(images: seq<CocoImage>) returns (items: seq<Item>, byImageId: map<int, nat>)
    ensures items == ImageItems(images)
    ensures byImageId == ImageIndex(images)
  {
    items := [];
    byImageId := map[];
    var i := 0;
    while i < |images|
      invariant 0 <= i <= |images|
      invariant items == ImageItems(images[..i])
      invariant byImageId == ImageIndex(images[..i])
    {
      assert images[..i + 1][..i] == images[..i];
      var item := ItemOfImage(images[i]);
      byImageId := byImageId[images[i].id := i];
      items := items + [item];
      i := i + 1;
    }
    assert images[..i] == images;
  }

  // --------------------------------------------------------- annotations

  /** `[Polygon(points=...) for pts in seg]`, stopping at the first invalid polygon. */
  function PolygonsOf(ps: seq<seq<real>>): (r: Result<seq<Polygon>, LoadError>)
    ensures r.Success? <==> forall k :: 0 <= k < |ps| ==> ValidPolygon(Polygon(ps[k], false))
    ensures r.Success? ==> |r.value| == |ps| && forall k :: 0 <= k < |ps| ==> r.value[k] == Polygon(ps[k], false)
  {
    if ps == [] then Success([])
    else
      var n := |ps| - 1;
      var prev :- PolygonsOf(ps[..n]);
      assert forall k :: 0 <= k < n ==> ps[..n][k] == ps[k];
      match NewPolygon(ps[n], false)
      case Failure(e) => Failure(InvalidGeometry(e))
      case Success(p) => Success(prev + [p])
  }

  /** The segmentation sibling: a Polygon for a non-empty list, a Mask for a non-empty object. */
  function SegmentationPart(a: CocoAnnotation, id: int): Result<seq<Annotation>, LoadError> {
    match a.segmentation
    case NoSegmentation => Success([])
    case PolygonList(ps) =>
      if ps == [] then Success([])
      else
        var polys :- PolygonsOf(ps);
        Success([PolygonAnnotation(id, a.categoryId, polys)])
    case RleObject(counts, size, _) =>
      if !a.segmentation.NonEmpty() then Success([])
      else
        var sz := size.GetOr([0, 0]);
        if !counts.Given? || |sz| != 2 then Failure(InvalidRle)
        else
          // the mask has an RLE, so its own check always passes
          Success([MaskAnnotation(id, a.categoryId, Some(Rle(counts.value, sz[0], sz[1])), None)])
  }

  /**
   * An object whose `counts` is null or missing but which has some key is truthy,
   * so a mask is attempted, and its RLE cannot be built.
   */
  lemma NullCountsRejected(a: CocoAnnotation, id: int)
    requires a.segmentation.RleObject? && a.segmentation.NonEmpty() && !a.segmentation.counts.Given?
    ensures SegmentationPart(a, id) == Failure(InvalidRle)
    ensures Siblings(a, id) == Failure(InvalidRle)
  {
  }

  /** `{"counts": null}` alone is such an object. */
  lemma NullCountsOnlyRejected(a: CocoAnnotation, id: int)
    requires a.segmentation == RleObject(Null, None, false)
    ensures Siblings(a, id) == Failure(InvalidRle)
  {
    NullCountsRejected(a, id);
  }

  /** The box sibling: one BBox whenever the `bbox` key is present. */
  function BBoxPart(a: CocoAnnotation, id: int): Result<seq<Annotation>, LoadError> {
    if a.bbox.None? then Success([])
    else
      var b := a.bbox.value;
      if |b| != 4 then Failure(BBoxNotFourValues)
      else
        match NewBBox(b[0], b[1], b[2], b[3], false)
        case Failure(e) => Failure(InvalidGeometry(e))
        case Success(box) => Success([BBoxAnnotation(id, a.categoryId, box)])
  }

  /** The keypoint sibling: one Keypoints for a non-empty `keypoints` list. */
  function KeypointsPart(a: CocoAnnotation, id: int): Result<seq<Annotation>, LoadError> {
    if a.keypoints.None? || a.keypoints.value == [] then Success([])
    else
      match NewKeypoints(a.keypoints.value, false)
      case Failure(e) => Failure(InvalidGeometry(e))
      case Success(kp) => Success([KeypointsAnnotation(id, a.categoryId, kp)])
  }

  /** All canonical annotations of one COCO annotation, numbered from `next` on. */
  function Siblings(a: CocoAnnotation, next: int): Result<seq<Annotation>, LoadError> {
    var seg :- SegmentationPart(a, next);
    var box :- BBoxPart(a, next + |seg|);
    var kps :- KeypointsPart(a, next + |seg| + |box|);
    Success(seg + box + kps)
  }

  /**
   * The annotation loop: each annotation whose image is known appends its siblings
   * to the item of that image (the last image with that id); the next id of an item
   * is one more than the number of annotations it already holds.
   */
  function Attach(anns: seq<CocoAnnotation>, items: seq<Item>, index: map<int, nat>): (r: Result<seq<Item>, LoadError>)
    requires forall iid :: iid in index ==> index[iid] < |items|
    ensures r.Success? ==> |r.value| == |items|
    ensures r.Success? ==> forall k :: 0 <= k < |items| ==>
      r.value[k] == items[k].(annotations := r.value[k].annotations)
  {
    if anns == [] then Success(items)
    else
      var n := |anns| - 1;
      var prev :- Attach(anns[..n], items, index);
      var a := anns[n];
      if a.imageId !in index then Success(prev)
      else
        var pos := index[a.imageId];
        var sib :- Siblings(a, |prev[pos].annotations| + 1);
        Success(prev[pos := prev[pos].(annotations := prev[pos].annotations + sib)])
  }

  /** The whole of `load` on a parsed document. */
  function LoadDataset(coco: Coco): Result<Dataset, LoadError> {
    var cats :- LoadCategories(coco.categories);
    var filled :- Attach(coco.annotations, ImageItems(coco.images), ImageIndex(coco.images));
    Success(WiredDataset(cats, filled))
  }

  lemma {:induction false} AttachFailureSticks(anns: seq<CocoAnnotation>, items: seq<Item>, index: map<int, nat>, i: nat)
    requires forall iid :: iid in index ==> index[iid] < |items|
    requires i <= |anns| && Attach(anns[..i], items, index).Failure?
    ensures Attach(anns, items, index) == Attach(anns[..i], items, index)
    decreases |anns| - i
  {
    if i < |anns| {
      assert anns[..i + 1][..i] == anns[..i];
      AttachFailureSticks(anns, items, index, i + 1);
    } else {
      assert anns[..i] == anns;
    }
  }

  /** One more annotation: dropped when its image is unknown, else its siblings are appended. */
  lemma AttachSnoc(anns: seq<CocoAnnotation>, items0: seq<Item>, index: map<int, nat>, i: nat, items: seq<Item>)
    requires forall iid :: iid in index ==> index[iid] < |items0|
    requires i < |anns| && Attach(anns[..i], items0, index) == Success(items)
    ensures anns[i].imageId !in index ==> Attach(anns[..i + 1], items0, index) == Success(items)
    ensures anns[i].imageId in index ==>
      var pos := index[anns[i].imageId];
      var sib := Siblings(anns[i], |items[pos].annotations| + 1);
      && (sib.Failure? ==> Attach(anns[..i + 1], items0, index) == Failure(sib.error))
      && (sib.Success? ==>
            Attach(anns[..i + 1], items0, index) ==
            Success(items[pos := items[pos].(annotations := items[pos].annotations + sib.value)]))
  {
    assert anns[..i + 1][..i] == anns[..i];
  }

  /** The counters: for every known image, the id of the next annotation of its item. */
  predicate CountersAgree(counters: map<string, int>, items: seq<Item>, index: map<int, nat>)
    requires forall iid :: iid in index ==> index[iid] < |items|
  {
    forall iid :: iid in index ==>
      items[index[iid]].id in counters && counters[items[index[iid]].id] == |items[index[iid]].annotations| + 1
  }

  /** Bumping the counter of the item that grew keeps every counter right. */
  lemma CountersAfterAppend(counters: map<string, int>, items: seq<Item>, index: map<int, nat>,
                            aid: int, added: seq<Annotation>)
    requires forall iid :: iid in index ==> index[iid] < |items| && items[index[iid]].id == IntToDecimal(iid)
    requires CountersAgree(counters, items, index) && aid in index
    ensures
      var pos := index[aid];
      var item := items[pos];
      CountersAgree(counters[item.id := |item.annotations| + 1 + |added|],
                    items[pos := item.(annotations := item.annotations + added)], index)
  {
    var pos := index[aid];
    forall iid | iid in index && index[iid] != pos ensures iid != aid {
    }
    forall iid | iid in index && iid != aid ensures IntToDecimal(iid) != IntToDecimal(aid) {
      IntToDecimalInjective(iid, aid);
    }
  }

  /** `{it.id: 1 for it in items}`. */
  function InitialCounters(items: seq<Item>): map<string, int> {
    map k | 0 <= k < |items| :: items[k].id := 1
  }

  /** The counters start at 1 for every item. */
  lemma CountersInit(items0: seq<Item>, index: map<int, nat>)
    requires forall iid :: iid in index ==> index[iid] < |items0|
    requires forall k :: 0 <= k < |items0| ==> items0[k].annotations == []
    ensures CountersAgree(InitialCounters(items0), items0, index)
  {
    forall iid | iid in index ensures items0[index[iid]].id in InitialCounters(items0) {
      var k := index[iid];
      assert items0[k].id in InitialCounters(items0);
    }
  }

  /** The body of the annotation loop for a known image: the parts in order, each with the next id. */
  method ConvertOne(a: CocoAnnotation, next: int) returns (r: Result<seq<Annotation>, LoadError>)
    ensures r == Siblings(a, next)
  {
    var seg := SegmentationPart(a, next);
    if seg.Failure? {
      return Failure(seg.error);
    }
    var box := BBoxPart(a, next + |seg.value|);
    if box.Failure? {
      return Failure(box.error);
    }
    var kps := KeypointsPart(a, next + |seg.value| + |box.value|);
    if kps.Failure? {
      return Failure(kps.error);
    }
    return Success(seg.value + box.value + kps.value);
  }

  /** What the annotation loop keeps after the first `i` annotations. */
  predicate LoopState(anns: seq<CocoAnnotation>, items0: seq<Item>, index: map<int, nat>, i: nat,
                      items: seq<Item>, counters: map<string, int>)
    requires forall iid :: iid in index ==> index[iid] < |items0|
  {
    && i <= |anns|
    && Attach(anns[..i], items0, index) == Success(items)
    && |items| == |items0|
    && (forall iid :: iid in index ==> items[index[iid]].id == IntToDecimal(iid))
    && CountersAgree(counters, items, index)
  }

  /** An annotation of a known image, converted without error, keeps the loop state. */
  lemma KnownImageStep(anns: seq<CocoAnnotation>, items0: seq<Item>, index: map<int, nat>, i: nat,
                       items: seq<Item>, counters: map<string, int>, pos: nat, item: Item, next: int,
                       r: Result<seq<Annotation>, LoadError>, items': seq<Item>, counters': map<string, int>)
    requires forall iid :: iid in index ==> index[iid] < |items0|
    requires LoopState(anns, items0, index, i, items, counters)
    requires i < |anns| && anns[i].imageId in index && pos == index[anns[i].imageId]
    requires pos < |items| && item == items[pos] && item.id in counters && next == counters[item.id]
    requires r == Siblings(anns[i], next) && r.Success?
    requires items' == items[pos := item.(annotations := item.annotations + r.value)]
    requires counters' == counters[item.id := next + |r.value|]
    ensures LoopState(anns, items0, index, i + 1, items', counters')
  {
    var added := r.value;
    AttachSnoc(anns, items0, index, i, items);
    CountersAfterAppend(counters, items, index, anns[i].imageId, added);
  }

  /** An annotation of an unknown image is skipped and keeps the loop state. */
  lemma UnknownImageStep(anns: seq<CocoAnnotation>, items0: seq<Item>, index: map<int, nat>, i: nat,
                         items: seq<Item>, counters: map<string, int>)
    requires forall iid :: iid in index ==> index[iid] < |items0|
    requires LoopState(anns, items0, index, i, items, counters)
    requires i < |anns| && anns[i].imageId !in index
    ensures LoopState(anns, items0, index, i + 1, items, counters)
  {
    AttachSnoc(anns, items0, index, i, items);
  }

  /** An annotation of a known image whose conversion fails makes the whole pass fail with that error. */
  lemma FailedImageStep(anns: seq<CocoAnnotation>, items0: seq<Item>, index: map<int, nat>, i: nat,
                        items: seq<Item>, counters: map<string, int>)
    requires forall iid :: iid in index ==> index[iid] < |items0|
    requires LoopState(anns, items0, index, i, items, counters)
    requires i < |anns| && anns[i].imageId in index
    requires Siblings(anns[i], counters[items[index[anns[i].imageId]].id]).Failure?
    ensures Attach(anns, items0, index) == Failure(Siblings(anns[i], counters[items[index[anns[i].imageId]].id]).error)
  {
    AttachSnoc(anns, items0, index, i, items);
    AttachFailureSticks(anns, items0, index, i + 1);
  }

  /** The annotation loop with its per-item counters and the `_next_id` calls. */
  method ConvertAnnotations(anns: seq<CocoAnnotation>, items0: seq<Item>, index: map<int, nat>)
    returns (r: Result<seq<Item>, LoadError>)
    requires forall iid :: iid in index ==> index[iid] < |items0| && items0[index[iid]].id == IntToDecimal(iid)
    requires forall k :: 0 <= k < |items0| ==> items0[k].annotations == []
    ensures r == Attach(anns, items0, index)
  {
    var counters := InitialCounters(items0);
    CountersInit(items0, index);
    var items := items0;
    var i := 0;
    while i < |anns|
      invariant LoopState(anns, items0, index, i, items, counters)
    {
      var a := anns[i];
      if a.imageId in index {
        var pos := index[a.imageId];
        var item := items[pos];
        var next := counters[item.id];
        var added := ConvertOne(a, next);
        if added.Failure? {
          FailedImageStep(anns, items0, index, i, items, counters);
          return Failure(added.error);
        }
        var items', counters' := items[pos := item.(annotations := item.annotations + added.value)],
                                 counters[item.id := next + |added.value|];
        KnownImageStep(anns, items0, index, i, items, counters, pos, item, next, added, items', counters');
        items, counters := items', counters';
      } else {
        UnknownImageStep(anns, items0, index, i, items, counters);
      }
      i := i + 1;
    }
    assert anns[..i] == anns;
    return Success(items);
  }

  /** `load` as the adapter runs it. */
  method Load(coco: Coco) returns (r: Result<Dataset, LoadError>)
    ensures r == LoadDataset(coco)
  {
    var cats := LoadCategoryList(coco.categories);
    if cats.Failure? {
      return Failure(cats.error);
    }
    var items, byImageId := BuildItems(coco.images);
    var filled := ConvertAnnotations(coco.annotations, items, byImageId);
    if filled.Failure? {
      return Failure(filled.error);
    }
    var ds := NewDataset(cats.value, filled.value);
    return Success(ds);
  }

  // -------------------------------------------------------------- lemmas

  /** `load` yields one item per image, in order, with id `str(image id)` and the defaults filled in. */
  lemma LoadedItems(coco: Coco)
    requires LoadDataset(coco).Success?
    ensures var ds := LoadDataset(coco).value;
      && |ds.items| == |coco.images|
      && forall k :: 0 <= k < |coco.images| ==>
        && ds.items[k].id == IntToDecimal(coco.images[k].id)
        && ds.items[k].image == ItemOfImage(coco.images[k]).image
        && ds.items[k].categoryMap == Some(CategoryMap(ds.categories))
  {
    var items := ImageItems(coco.images);
    var filled := Attach(coco.annotations, items, ImageIndex(coco.images)).value;
    assert forall k :: 0 <= k < |items| ==> filled[k] == items[k].(annotations := filled[k].annotations);
  }

  /** An annotation whose image id names no image is skipped, however malformed it is. */
  lemma UnknownImageDropped(anns: seq<CocoAnnotation>, a: CocoAnnotation, items: seq<Item>, index: map<int, nat>)
    requires forall iid :: iid in index ==> index[iid] < |items|
    requires a.imageId !in index
    ensures Attach(anns + [a], items, index) == Attach(anns, items, index)
  {
    assert (anns + [a])[..|anns|] == anns;
  }

  /** The kind of a canonical annotation, for stating which siblings are produced. */
  datatype Kind = PolygonKind | MaskKind | BBoxKind | KeypointsKind | PanopticKind

  function KindOf(a: Annotation): Kind {
    match a
    case BBoxAnnotation(_, _, _) => BBoxKind
    case PolygonAnnotation(_, _, _) => PolygonKind
    case MaskAnnotation(_, _, _, _) => MaskKind
    case KeypointsAnnotation(_, _, _) => KeypointsKind
    case PanopticSegmentAnnotation(_, _, _, _) => PanopticKind
  }

  /** A Polygon for a non-empty list of polygons, a Mask for a non-empty RLE object. */
  function SegmentationKinds(a: CocoAnnotation): seq<Kind> {
    match a.segmentation
    case PolygonList(ps) => if ps != [] then [PolygonKind] else []
    case RleObject(_, _, _) => if a.segmentation.NonEmpty() then [MaskKind] else []
    case NoSegmentation => []
  }

  /**
   * The siblings an annotation yields, in order: the segmentation sibling, a BBox
   * when `bbox` is present, Keypoints when `keypoints` is non-empty.
   */
  function ExpectedKinds(a: CocoAnnotation): seq<Kind> {
    SegmentationKinds(a)
    + (if a.bbox.Some? then [BBoxKind] else [])
    + (if a.keypoints.Some? && a.keypoints.value != [] then [KeypointsKind] else [])
  }

  /** `s` has the kinds `kinds`, consecutive ids from `next` and category `cat`. */
  predicate Shaped(s: seq<Annotation>, kinds: seq<Kind>, next: int, cat: Option<int>) {
    && |s| == |kinds|
    && forall j :: 0 <= j < |s| ==> KindOf(s[j]) == kinds[j] && s[j].id == next + j && CategoryIdOf(s[j]) == cat
  }

  lemma ShapedConcat(s1: seq<Annotation>, k1: seq<Kind>, s2: seq<Annotation>, k2: seq<Kind>, next: int, cat: Option<int>)
    requires Shaped(s1, k1, next, cat) && Shaped(s2, k2, next + |s1|, cat)
    ensures Shaped(s1 + s2, k1 + k2, next, cat)
  {
    forall j | 0 <= j < |s1 + s2|
      ensures KindOf((s1 + s2)[j]) == (k1 + k2)[j] && (s1 + s2)[j].id == next + j && CategoryIdOf((s1 + s2)[j]) == cat
    {
      if j >= |s1| {
        assert (s1 + s2)[j] == s2[j - |s1|] && (k1 + k2)[j] == k2[j - |s1|];
      }
    }
  }

  lemma SegmentationShape(a: CocoAnnotation, id: int)
    requires SegmentationPart(a, id).Success?
    ensures Shaped(SegmentationPart(a, id).value, SegmentationKinds(a), id, a.categoryId)
  {
  }

  lemma BBoxShape(a: CocoAnnotation, id: int)
    requires BBoxPart(a, id).Success?
    ensures Shaped(BBoxPart(a, id).value, if a.bbox.Some? then [BBoxKind] else [], id, a.categoryId)
  {
  }

  lemma KeypointsShape(a: CocoAnnotation, id: int)
    requires KeypointsPart(a, id).Success?
    ensures Shaped(KeypointsPart(a, id).value,
                   if a.keypoints.Some? && a.keypoints.value != [] then [KeypointsKind] else [], id, a.categoryId)
  {
  }

  /** A successful conversion is the concatenation of its three successful parts. */
  lemma SiblingsParts(a: CocoAnnotation, next: int)
    requires Siblings(a, next).Success?
    ensures SegmentationPart(a, next).Success?
    ensures BBoxPart(a, next + |SegmentationPart(a, next).value|).Success?
    ensures KeypointsPart(a, next + |SegmentationPart(a, next).value| + |BBoxPart(a, next + |SegmentationPart(a, next).value|).value|).Success?
    ensures Siblings(a, next).value ==
      SegmentationPart(a, next).value
      + BBoxPart(a, next + |SegmentationPart(a, next).value|).value
      + KeypointsPart(a, next + |SegmentationPart(a, next).value| + |BBoxPart(a, next + |SegmentationPart(a, next).value|).value|).value
  {
  }

  /** The siblings have the expected kinds, consecutive ids from `next` and the source's category. */
  lemma SiblingsShape(a: CocoAnnotation, next: int)
    requires Siblings(a, next).Success?
    ensures Shaped(Siblings(a, next).value, ExpectedKinds(a), next, a.categoryId)
  {
    SiblingsParts(a, next);
    var seg := SegmentationPart(a, next).value;
    var box := BBoxPart(a, next + |seg|).value;
    var kps := KeypointsPart(a, next + |seg| + |box|).value;
    assert Siblings(a, next).value == seg + box + kps;
    var boxKinds := if a.bbox.Some? then [BBoxKind] else [];
    var kpKinds := if a.keypoints.Some? && a.keypoints.value != [] then [KeypointsKind] else [];
    assert ExpectedKinds(a) == SegmentationKinds(a) + boxKinds + kpKinds;
    SegmentationShape(a, next);
    BBoxShape(a, next + |seg|);
    KeypointsShape(a, next + |seg| + |box|);
    ShapedConcat(seg, SegmentationKinds(a), box, boxKinds, next, a.categoryId);
    ShapedConcat(seg + box, SegmentationKinds(a) + boxKinds, kps, kpKinds, next, a.categoryId);
  }

  /** What every construction of `load` demands of one annotation. */
  predicate Convertible(a: CocoAnnotation) {
    && (a.segmentation.PolygonList? ==>
          forall k :: 0 <= k < |a.segmentation.polygons| ==> ValidPolygon(Polygon(a.segmentation.polygons[k], false)))
    && (a.segmentation.RleObject? && a.segmentation.NonEmpty() ==>
          a.segmentation.counts.Given? && |a.segmentation.size.GetOr([0, 0])| == 2)
    && (a.bbox.Some? ==> |a.bbox.value| == 4 && a.bbox.value[2] >= 0.0 && a.bbox.value[3] >= 0.0)
    && (a.keypoints.Some? ==> |a.keypoints.value| % 3 == 0)
  }

  /** Converting an annotation fails exactly when one of its constructions is invalid. */
  lemma SiblingsSucceedIff(a: CocoAnnotation, next: int)
    ensures Siblings(a, next).Success? <==> Convertible(a)
  {
    if a.bbox.Some? && |a.bbox.value| == 4 {
      var b := a.bbox.value;
      assert NewBBox(b[0], b[1], b[2], b[3], false).Success? <==> b[2] >= 0.0 && b[3] >= 0.0;
    }
  }

  /** Every sibling satisfies the construction invariant of its variant. */
  lemma SiblingsValid(a: CocoAnnotation, next: int)
    requires Siblings(a, next).Success?
    ensures forall j :: 0 <= j < |Siblings(a, next).value| ==> ValidAnnotation(Siblings(a, next).value[j])
  {
    SiblingsParts(a, next);
    var seg := SegmentationPart(a, next).value;
    var box := BBoxPart(a, next + |seg|).value;
    var kps := KeypointsPart(a, next + |seg| + |box|).value;
    var s := seg + box + kps;
    forall j | 0 <= j < |s| ensures ValidAnnotation(s[j]) {
      if j < |seg| {
        assert s[j] == seg[j];
      } else if j < |seg| + |box| {
        assert s[j] == box[j - |seg|];
      } else {
        assert s[j] == kps[j - |seg| - |box|];
      }
    }
  }

  /** The annotations of `load` succeed exactly when every annotation of a known image converts. */
  lemma {:induction false} AttachSucceedsIff(anns: seq<CocoAnnotation>, items: seq<Item>, index: map<int, nat>)
    requires forall iid :: iid in index ==> index[iid] < |items|
    ensures Attach(anns, items, index).Success? <==>
      forall j :: 0 <= j < |anns| && anns[j].imageId in index ==> Convertible(anns[j])
  {
    if anns != [] {
      var n := |anns| - 1;
      AttachSucceedsIff(anns[..n], items, index);
      assert forall j :: 0 <= j < n ==> anns[..n][j] == anns[j];
      var prev := Attach(anns[..n], items, index);
      if prev.Success? && anns[n].imageId in index {
        SiblingsSucceedIff(anns[n], |prev.value[index[anns[n].imageId]].annotations| + 1);
      }
    }
  }

  /** `load` succeeds exactly when every category and every annotation of a known image is valid. */
  lemma LoadSucceedsIff(coco: Coco)
    ensures LoadDataset(coco).Success? <==>
      && (forall k :: 0 <= k < |coco.categories| ==> LoadCategory(coco.categories[k]).Success?)
      && (forall j :: 0 <= j < |coco.annotations| && coco.annotations[j].imageId in ImageIds(coco.images) ==>
            Convertible(coco.annotations[j]))
  {
    AttachSucceedsIff(coco.annotations, ImageItems(coco.images), ImageIndex(coco.images));
  }

  predicate Numbered(anns: seq<Annotation>) {
    forall j :: 0 <= j < |anns| ==> anns[j].id == j + 1
  }

  predicate AllValid(anns: seq<Annotation>) {
    forall j :: 0 <= j < |anns| ==> ValidAnnotation(anns[j])
  }

  /**
   * Attaching keeps every item's annotations numbered 1, 2, ..., k and valid:
   * each item has its own counter.
   */
  lemma {:induction false} AttachNumberedValid(anns: seq<CocoAnnotation>, items: seq<Item>, index: map<int, nat>)
    requires forall iid :: iid in index ==> index[iid] < |items|
    requires forall k :: 0 <= k < |items| ==> Numbered(items[k].annotations) && AllValid(items[k].annotations)
    requires Attach(anns, items, index).Success?
    ensures forall k :: 0 <= k < |items| ==>
      Numbered(Attach(anns, items, index).value[k].annotations) && AllValid(Attach(anns, items, index).value[k].annotations)
  {
    if anns != [] {
      var n := |anns| - 1;
      AttachNumberedValid(anns[..n], items, index);
      var prev := Attach(anns[..n], items, index).value;
      var a := anns[n];
      var r := Attach(anns, items, index).value;
      if a.imageId in index {
        var pos := index[a.imageId];
        var before := prev[pos].annotations;
        AppendNumberedValid(before, a);
        var sib := Siblings(a, |before| + 1).value;
        assert r == prev[pos := prev[pos].(annotations := before + sib)];
        forall k | 0 <= k < |items| ensures Numbered(r[k].annotations) && AllValid(r[k].annotations) {
          if k != pos {
            assert r[k] == prev[k];
          }
        }
      } else {
        assert r == prev;
      }
    }
  }

  /** Siblings numbered on from an item's annotations keep them numbered and valid. */
  lemma AppendNumberedValid(before: seq<Annotation>, a: CocoAnnotation)
    requires Numbered(before) && AllValid(before)
    requires Siblings(a, |before| + 1).Success?
    ensures Numbered(before + Siblings(a, |before| + 1).value)
    ensures AllValid(before + Siblings(a, |before| + 1).value)
  {
    var sib := Siblings(a, |before| + 1).value;
    SiblingsShape(a, |before| + 1);
    SiblingsValid(a, |before| + 1);
    var after := before + sib;
    forall j | 0 <= j < |after| ensures after[j].id == j + 1 && ValidAnnotation(after[j]) {
      if j >= |before| {
        assert after[j] == sib[j - |before|];
        assert sib[j - |before|].id == |before| + 1 + (j - |before|);
      }
    }
  }

  /** Every item of a loaded dataset holds valid annotations numbered 1, 2, ..., k. */
  lemma LoadedAnnotationsNumberedValid(coco: Coco)
    requires LoadDataset(coco).Success?
    ensures forall k :: 0 <= k < |LoadDataset(coco).value.items| ==>
      Numbered(LoadDataset(coco).value.items[k].annotations) &&
      AllValid(LoadDataset(coco).value.items[k].annotations)
  {
    var items := ImageItems(coco.images);
    AttachNumberedValid(coco.annotations, items, ImageIndex(coco.images));
  }

  /** An item whose image id is repeated later never receives annotations. */
  lemma {:induction false} AttachUntouched(anns: seq<CocoAnnotation>, items: seq<Item>, index: map<int, nat>, k: nat)
    requires forall iid :: iid in index ==> index[iid] < |items|
    requires k < |items| && forall iid :: iid in index ==> index[iid] != k
    requires Attach(anns, items, index).Success?
    ensures Attach(anns, items, index).value[k] == items[k]
  {
    if anns != [] {
      AttachUntouched(anns[..|anns| - 1], items, index, k);
    }
  }

  lemma ShadowedImageGetsNothing(coco: Coco, k: nat)
    requires LoadDataset(coco).Success?
    requires k < |coco.images| && exists j :: k < j < |coco.images| && coco.images[j].id == coco.images[k].id
    ensures LoadDataset(coco).value.items[k].annotations == []
  {
    var index := ImageIndex(coco.images);
    assert forall iid :: iid in index ==> index[iid] != k;
    AttachUntouched(coco.annotations, ImageItems(coco.images), index, k);
  }
}
