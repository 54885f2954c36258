/**
 * What survives a COCO load followed by a dump, or a dump followed by a load
 * (src/annox/adapters/coco/coco.py): skeletons, categories and image ids come
 * back unchanged, while every lowered Polygon, Mask or Keypoints record reloads
 * as two canonical annotations because its box is read back as a sibling.
 */
module CocoRoundTrip {
  import opened Wrappers
  import opened Decimal
  import opened Geometry
  import opened Schema
  import opened CocoFormat
  import opened CocoGeometry
  import opened CocoLoad
  import opened CocoDump

  // ---------------------------------------------------------- categories

  /** A valid category dumps and loads back to itself. */
  lemma CategoryRoundTrip(c: Category)
    requires ValidCategory(c)
    ensures LoadCategory(DumpCategory(c)) == Success(c)
  {
    if c.skeleton.Some? {
      ShiftSkeletonRoundTrip(c.skeleton.value);
      ShiftedInRange(ShiftSkeleton(c.skeleton.value, 1), |c.keypointNames.GetOr([])|);
    }
  }

  /** Dumping valid categories and loading them again gives the same categories. */
  lemma CategoriesRoundTrip(cats: seq<Category>)
    requires forall k :: 0 <= k < |cats| ==> ValidCategory(cats[k])
    ensures LoadCategories(DumpCategories(cats)) == Success(cats)
  {
    var out := DumpCategories(cats);
    forall k | 0 <= k < |cats| ensures LoadCategory(out[k]) == Success(cats[k]) {
      CategoryRoundTrip(cats[k]);
    }
    var back := LoadCategories(out).value;
    assert back == cats by {
      forall k | 0 <= k < |cats| ensures back[k] == cats[k] {
        assert LoadCategory(out[k]) == Success(back[k]);
      }
    }
  }

  /**
   * Loading categories and dumping them gives the records back, skeletons
   * included, except that a missing name is now `str(id)`.
   */
  lemma LoadedCategoriesDumpBack(cs: seq<CocoCategory>)
    requires LoadCategories(cs).Success?
    ensures DumpCategories(LoadCategories(cs).value) ==
      seq(|cs|, k requires 0 <= k < |cs| => cs[k].(name := Some(cs[k].name.GetOr(IntToDecimal(cs[k].id)))))
  {
    var cats := LoadCategories(cs).value;
    forall k | 0 <= k < |cs|
      ensures DumpCategory(cats[k]) == cs[k].(name := Some(cs[k].name.GetOr(IntToDecimal(cs[k].id))))
    {
      assert LoadCategory(cs[k]) == Success(cats[k]);
      if cs[k].skeleton.Some? {
        ShiftSkeletonRoundTrip(cs[k].skeleton.value);
      }
    }
  }

  // -------------------------------------------------------------- images

  /** Polygons of at least six numbers each flatten to no numbers or to at least six. */
  lemma {:induction false} FlattenLength(polys: seq<Polygon>)
    requires forall k :: 0 <= k < |polys| ==> |polys[k].points| >= 6
    ensures polys != [] ==> |Flatten(polys)| >= 6
  {
    if |polys| > 1 {
      FlattenLength(polys[..|polys| - 1]);
    }
  }

  /** A valid annotation can always be lowered. */
  lemma ValidIsLowerable(a: Annotation)
    requires ValidAnnotation(a)
    ensures Lowerable(a)
  {
    if a.PolygonAnnotation? {
      FlattenLength(a.polygons);
    }
  }

  /** Whatever `load` produced, `dump` can lower. */
  lemma LoadedIsLowerable(coco: Coco)
    requires LoadDataset(coco).Success?
    ensures AllLowerable(LoadDataset(coco).value.items)
  {
    var items := LoadDataset(coco).value.items;
    LoadedAnnotationsNumberedValid(coco);
    forall k, j | 0 <= k < |items| && 0 <= j < |items[k].annotations| ensures Lowerable(items[k].annotations[j]) {
      ValidIsLowerable(items[k].annotations[j]);
    }
  }

  /**
   * Loading and dumping gives every image its own id back (the item id is
   * `str(id)`, which reads back as the id), with the defaults of `load` filled in.
   */
  lemma ImagesRoundTrip(coco: Coco)
    requires LoadDataset(coco).Success?
    ensures AllLowerable(LoadDataset(coco).value.items)
    ensures var out := DumpDataset(LoadDataset(coco).value);
      && |out.images| == |coco.images|
      && forall k :: 0 <= k < |coco.images| ==>
        out.images[k] == CocoImage(coco.images[k].id,
                                   Some(coco.images[k].fileName.GetOr(IntToDecimal(coco.images[k].id) + ".jpg")),
                                   Some(coco.images[k].width.GetOr(0)),
                                   Some(coco.images[k].height.GetOr(0)))
  {
    LoadedIsLowerable(coco);
    LoadedItems(coco);
    var ds := LoadDataset(coco).value;
    DumpedImages(ds);
    var images := DumpImages(ds.items);
    forall k | 0 <= k < |coco.images|
      ensures images[k] == CocoImage(coco.images[k].id,
                                     Some(coco.images[k].fileName.GetOr(IntToDecimal(coco.images[k].id) + ".jpg")),
                                     Some(coco.images[k].width.GetOr(0)),
                                     Some(coco.images[k].height.GetOr(0)))
    {
      DumpImagesAt(ds.items, k);
      ImageOfLoadedItem(coco.images[k], ds.items[k], k + 1);
    }
  }

  lemma DumpImagesAt(items: seq<Item>, k: nat)
    requires k < |items|
    ensures DumpImages(items)[k] == DumpImage(items[k], k + 1)
  {
  }

  lemma DumpedImages(ds: Dataset)
    requires AllLowerable(ds.items)
    ensures DumpDataset(ds).images == DumpImages(ds.items)
  {
  }

  /** The image record of an item loaded from `im` gives `im`'s id back. */
  lemma ImageOfLoadedItem(im: CocoImage, item: Item, pos: int)
    requires item.id == IntToDecimal(im.id) && item.image == ItemOfImage(im).image
    ensures DumpImage(item, pos) == CocoImage(im.id, Some(im.fileName.GetOr(IntToDecimal(im.id) + ".jpg")),
                                              Some(im.width.GetOr(0)), Some(im.height.GetOr(0)))
  {
    ParseIntOfDecimal(im.id);
  }

  // --------------------------------------------------------- annotations

  /** Three successful parts make successful siblings, in the order segmentation, box, keypoints. */
  lemma SiblingsOfParts(a: CocoAnnotation, next: int, seg: seq<Annotation>, box: seq<Annotation>, kps: seq<Annotation>)
    requires SegmentationPart(a, next) == Success(seg)
    requires BBoxPart(a, next + |seg|) == Success(box)
    requires KeypointsPart(a, next + |seg| + |box|) == Success(kps)
    ensures Siblings(a, next) == Success(seg + box + kps)
  {
  }

  /** A non-normalized box record reloads as the same box, with a missing category now 0. */
  lemma ReloadBBox(a: Annotation, imageId: int, id: int, next: int)
    requires a.BBoxAnnotation? && ValidBBox(a.bbox) && !a.bbox.normalized
    ensures Siblings(Record(a, imageId, id), next) ==
      Success([BBoxAnnotation(next, Some(a.categoryId.GetOr(0)), a.bbox)])
  {
    var r := Record(a, imageId, id);
    assert SegmentationPart(r, next) == Success([]);
    assert BBoxPart(r, next) == Success([BBoxAnnotation(next, r.categoryId, a.bbox)]);
    assert KeypointsPart(r, next + 1) == Success([]);
    SiblingsOfParts(r, next, [], [BBoxAnnotation(next, r.categoryId, a.bbox)], []);
    assert r.categoryId == Some(a.categoryId.GetOr(0));
    assert [] + [BBoxAnnotation(next, r.categoryId, a.bbox)] + [] == [BBoxAnnotation(next, r.categoryId, a.bbox)];
  }

  /** Polygons that are valid as loaded: unnormalized, at least six numbers, paired. */
  predicate LoadablePolygons(polys: seq<Polygon>) {
    forall k :: 0 <= k < |polys| ==> ValidPolygon(polys[k]) && !polys[k].normalized
  }

  lemma PolygonsReload(polys: seq<Polygon>)
    requires LoadablePolygons(polys)
    ensures PolygonsOf(PolygonPoints(polys)) == Success(polys)
  {
    var r := PolygonsOf(PolygonPoints(polys));
    assert r.Success?;
    assert r.value == polys by {
      forall k | 0 <= k < |polys| ensures r.value[k] == polys[k] {
        assert PolygonPoints(polys)[k] == polys[k].points;
      }
    }
  }

  /**
   * A polygon record reloads as TWO annotations: the polygons and, next, the box
   * derived from them.
   */
  lemma ReloadPolygon(a: Annotation, imageId: int, id: int, next: int)
    requires a.PolygonAnnotation? && a.polygons != [] && LoadablePolygons(a.polygons)
    ensures Lowerable(a)
    ensures var box := PolygonsBox(a.polygons);
      Siblings(Record(a, imageId, id), next) ==
        Success([PolygonAnnotation(next, Some(a.categoryId.GetOr(0)), a.polygons),
                 BBoxAnnotation(next + 1, Some(a.categoryId.GetOr(0)), BBox(box[0], box[1], box[2], box[3], false))])
  {
    FlattenLength(a.polygons);
    var r := Record(a, imageId, id);
    assert r.categoryId == Some(a.categoryId.GetOr(0));
    var box := PolygonsBox(a.polygons);
    var p, b := PolygonAnnotation(next, r.categoryId, a.polygons),
                BBoxAnnotation(next + 1, r.categoryId, BBox(box[0], box[1], box[2], box[3], false));
    PolygonRecordSegmentation(a, imageId, id, next);
    PolygonRecordBox(a, imageId, id, next + 1);
    assert KeypointsPart(r, next + 2) == Success([]);
    SiblingsOfParts(r, next, [p], [b], []);
    assert [p] + [b] + [] == [p, b];
  }

  lemma PolygonRecordSegmentation(a: Annotation, imageId: int, id: int, next: int)
    requires a.PolygonAnnotation? && a.polygons != [] && LoadablePolygons(a.polygons)
    requires Lowerable(a)
    ensures SegmentationPart(Record(a, imageId, id), next) ==
      Success([PolygonAnnotation(next, Some(a.categoryId.GetOr(0)), a.polygons)])
  {
    PolygonsReload(a.polygons);
    assert |PolygonPoints(a.polygons)| > 0;
  }

  lemma PolygonRecordBox(a: Annotation, imageId: int, id: int, next: int)
    requires a.PolygonAnnotation? && a.polygons != [] && LoadablePolygons(a.polygons)
    requires |Flatten(a.polygons)| >= 6
    ensures Lowerable(a)
    ensures var box := PolygonsBox(a.polygons);
      BBoxPart(Record(a, imageId, id), next) ==
        Success([BBoxAnnotation(next, Some(a.categoryId.GetOr(0)), BBox(box[0], box[1], box[2], box[3], false))])
  {
    PolyBBoxContains(Flatten(a.polygons));
  }

  /**
   * A mask record with an RLE reloads as the mask (without its PNG path) and,
   * next, a zero box; a mask with only a PNG path reloads as the zero box alone.
   */
  lemma ReloadMask(a: Annotation, imageId: int, id: int, next: int)
    requires a.MaskAnnotation?
    ensures a.rle.Some? ==>
      Siblings(Record(a, imageId, id), next) ==
        Success([MaskAnnotation(next, Some(a.categoryId.GetOr(0)), a.rle, None),
                 BBoxAnnotation(next + 1, Some(a.categoryId.GetOr(0)), BBox(0.0, 0.0, 0.0, 0.0, false))])
    ensures a.rle.None? ==>
      Siblings(Record(a, imageId, id), next) ==
        Success([BBoxAnnotation(next, Some(a.categoryId.GetOr(0)), BBox(0.0, 0.0, 0.0, 0.0, false))])
  {
    var r := Record(a, imageId, id);
    assert r.categoryId == Some(a.categoryId.GetOr(0));
    var zero := BBox(0.0, 0.0, 0.0, 0.0, false);
    if a.rle.Some? {
      assert SegmentationPart(r, next) == Success([MaskAnnotation(next, r.categoryId, a.rle, None)]);
      assert BBoxPart(r, next + 1) == Success([BBoxAnnotation(next + 1, r.categoryId, zero)]);
      assert KeypointsPart(r, next + 2) == Success([]);
      var m, b := MaskAnnotation(next, r.categoryId, a.rle, None), BBoxAnnotation(next + 1, r.categoryId, zero);
      SiblingsOfParts(r, next, [m], [b], []);
      assert [m] + [b] + [] == [m, b];
    } else {
      assert SegmentationPart(r, next) == Success([]);
      assert BBoxPart(r, next) == Success([BBoxAnnotation(next, r.categoryId, zero)]);
      assert KeypointsPart(r, next + 1) == Success([]);
      SiblingsOfParts(r, next, [], [BBoxAnnotation(next, r.categoryId, zero)], []);
      assert [] + [BBoxAnnotation(next, r.categoryId, zero)] + [] == [BBoxAnnotation(next, r.categoryId, zero)];
    }
  }

  /**
   * A keypoint record reloads as TWO annotations: the box over its x and y entries
   * and, next, the keypoints.
   */
  lemma ReloadKeypoints(a: Annotation, imageId: int, id: int, next: int)
    requires a.KeypointsAnnotation? && ValidKeypoints(a.keypoints) && !a.keypoints.normalized
    requires a.keypoints.points != []
    ensures var box := KeypointsBBox(a.keypoints.points);
      Siblings(Record(a, imageId, id), next) ==
        Success([BBoxAnnotation(next, Some(a.categoryId.GetOr(0)), BBox(box[0], box[1], box[2], box[3], false)),
                 KeypointsAnnotation(next + 1, Some(a.categoryId.GetOr(0)), a.keypoints)])
  {
    KeypointsBBoxContains(a.keypoints.points);
    var r := Record(a, imageId, id);
    assert r.categoryId == Some(a.categoryId.GetOr(0));
    var box := KeypointsBBox(a.keypoints.points);
    assert SegmentationPart(r, next) == Success([]);
    assert BBoxPart(r, next) == Success([BBoxAnnotation(next, r.categoryId, BBox(box[0], box[1], box[2], box[3], false))]);
    assert KeypointsPart(r, next + 1) == Success([KeypointsAnnotation(next + 1, r.categoryId, a.keypoints)]);
    var b, k := BBoxAnnotation(next, r.categoryId, BBox(box[0], box[1], box[2], box[3], false)),
                KeypointsAnnotation(next + 1, r.categoryId, a.keypoints);
    SiblingsOfParts(r, next, [], [b], [k]);
    assert [] + [b] + [k] == [b, k];
  }

  // ------------------------------------------------------------- counts

  /** The number of annotations over all items. */
  function AnnotationCount(items: seq<Item>): nat {
    if items == [] then 0 else AnnotationCount(items[..|items| - 1]) + |items[|items| - 1].annotations|
  }

  /** The number of canonical annotations the COCO annotations whose image is in `ids` split into. */
  function SiblingCount(anns: seq<CocoAnnotation>, ids: set<int>): nat {
    if anns == [] then 0
    else
      var a := anns[|anns| - 1];
      SiblingCount(anns[..|anns| - 1], ids) + (if a.imageId in ids then |ExpectedKinds(a)| else 0)
  }

  lemma {:induction false} AnnotationCountUpdate(items: seq<Item>, pos: nat, it: Item)
    requires pos < |items|
    ensures AnnotationCount(items[pos := it]) == AnnotationCount(items) - |items[pos].annotations| + |it.annotations|
  {
    var n := |items| - 1;
    if pos < n {
      AnnotationCountUpdate(items[..n], pos, it);
      assert items[pos := it][..n] == items[..n][pos := it];
    } else {
      assert items[pos := it][..n] == items[..n];
    }
  }

  /** Attaching adds exactly the siblings of the annotations whose image is known. */
  lemma {:induction false} AttachCount(anns: seq<CocoAnnotation>, items: seq<Item>, index: map<int, nat>)
    requires forall iid :: iid in index ==> index[iid] < |items|
    requires Attach(anns, items, index).Success?
    ensures AnnotationCount(Attach(anns, items, index).value) == AnnotationCount(items) + SiblingCount(anns, index.Keys)
  {
    if anns != [] {
      var n := |anns| - 1;
      AttachCount(anns[..n], items, index);
      var prev := Attach(anns[..n], items, index).value;
      var a := anns[n];
      if a.imageId in index {
        var pos := index[a.imageId];
        var sib := Siblings(a, |prev[pos].annotations| + 1).value;
        SiblingsShape(a, |prev[pos].annotations| + 1);
        AnnotationCountUpdate(prev, pos, prev[pos].(annotations := prev[pos].annotations + sib));
      }
    }
  }

  predicate NoPanoptic(anns: seq<Annotation>) {
    forall j :: 0 <= j < |anns| ==> !anns[j].PanopticSegmentAnnotation?
  }

  /** `load` never produces a panoptic segment. */
  lemma {:induction false} AttachNoPanoptic(anns: seq<CocoAnnotation>, items: seq<Item>, index: map<int, nat>)
    requires forall iid :: iid in index ==> index[iid] < |items|
    requires forall k :: 0 <= k < |items| ==> NoPanoptic(items[k].annotations)
    requires Attach(anns, items, index).Success?
    ensures forall k :: 0 <= k < |items| ==> NoPanoptic(Attach(anns, items, index).value[k].annotations)
  {
    if anns != [] {
      var n := |anns| - 1;
      AttachNoPanoptic(anns[..n], items, index);
      var prev := Attach(anns[..n], items, index).value;
      var a := anns[n];
      var r := Attach(anns, items, index).value;
      if a.imageId in index {
        var pos := index[a.imageId];
        var before := prev[pos].annotations;
        AppendNoPanoptic(before, a);
        var sib := Siblings(a, |before| + 1).value;
        assert r == prev[pos := prev[pos].(annotations := before + sib)];
        forall k | 0 <= k < |items| ensures NoPanoptic(r[k].annotations) {
          if k != pos {
            assert r[k] == prev[k];
          }
        }
      } else {
        assert r == prev;
      }
    }
  }

  /** Loading never makes a panoptic annotation. */
  lemma AppendNoPanoptic(before: seq<Annotation>, a: CocoAnnotation)
    requires NoPanoptic(before)
    requires Siblings(a, |before| + 1).Success?
    ensures NoPanoptic(before + Siblings(a, |before| + 1).value)
  {
    var sib := Siblings(a, |before| + 1).value;
    SiblingsShape(a, |before| + 1);
    var after := before + sib;
    forall j | 0 <= j < |after| ensures !after[j].PanopticSegmentAnnotation? {
      if j >= |before| {
        assert after[j] == sib[j - |before|];
        assert KindOf(sib[j - |before|]) == ExpectedKinds(a)[j - |before|];
      }
    }
  }

  lemma {:induction false} LoweredCountAll(anns: seq<Annotation>)
    requires NoPanoptic(anns)
    ensures LoweredCount(anns) == |anns|
  {
    if anns != [] {
      LoweredCountAll(anns[..|anns| - 1]);
    }
  }

  /** With no panoptic segment, every annotation is lowered to one record. */
  lemma {:induction false} TotalLoweredAll(items: seq<Item>)
    requires forall k :: 0 <= k < |items| ==> NoPanoptic(items[k].annotations)
    ensures TotalLowered(items) == AnnotationCount(items)
  {
    if items != [] {
      var n := |items| - 1;
      TotalLoweredAll(items[..n]);
      LoweredCountAll(items[n].annotations);
    }
  }

  lemma {:induction false} WiredCount(categories: seq<Category>, items: seq<Item>)
    ensures AnnotationCount(Wired(categories, items)) == AnnotationCount(items)
  {
    if items != [] {
      var n := |items| - 1;
      WiredCount(categories, items[..n]);
      assert Wired(categories, items)[..n] == Wired(categories, items[..n]);
    }
  }

  /**
   * Load followed by dump keeps the number of images and of categories, and
   * writes one record per canonical annotation: as many as the annotations
   * whose image is known split into.
   */
  lemma RoundTripCounts(coco: Coco)
    requires LoadDataset(coco).Success?
    ensures AllLowerable(LoadDataset(coco).value.items)
    ensures var ds := LoadDataset(coco).value;
      && AnnotationCount(ds.items) == SiblingCount(coco.annotations, ImageIds(coco.images))
      && |DumpDataset(ds).images| == |coco.images|
      && |DumpDataset(ds).categories| == |coco.categories|
      && |DumpDataset(ds).annotations| == SiblingCount(coco.annotations, ImageIds(coco.images))
  {
    LoadedIsLowerable(coco);
    var ds := LoadDataset(coco).value;
    var items := ImageItems(coco.images);
    var index := ImageIndex(coco.images);
    var filled := Attach(coco.annotations, items, index).value;
    assert AnnotationCount(items) == 0 by {
      forall k | 0 <= k < |items| ensures NoPanoptic(items[k].annotations) && items[k].annotations == [] {}
      AllEmptyCount(items);
    }
    AttachCount(coco.annotations, items, index);
    AttachNoPanoptic(coco.annotations, items, index);
    WiredCount(ds.categories, filled);
    TotalLoweredAll(ds.items);
    DumpShape(ds);
  }

  lemma {:induction false} AllEmptyCount(items: seq<Item>)
    requires forall k :: 0 <= k < |items| ==> items[k].annotations == []
    ensures AnnotationCount(items) == 0
  {
    if items != [] {
      AllEmptyCount(items[..|items| - 1]);
    }
  }

  // ------------------------------------------------------------ fixture

  /** One image, a keypoint category and a box category, and three annotations. */
  const Fixture: Coco := Coco(
    [CocoImage(1, Some("a.jpg"), Some(100), Some(80))],
    [CocoAnnotation(101, 1, Some(2), PolygonList([]), Some([10.0, 20.0, 30.0, 40.0]), None, Some(0), None, None),
     CocoAnnotation(102, 1, Some(2), PolygonList([[10.0, 20.0, 40.0, 20.0, 40.0, 60.0, 10.0, 60.0]]),
                    Some([10.0, 20.0, 30.0, 40.0]), None, Some(0), None, None),
     CocoAnnotation(103, 1, Some(1), NoSegmentation, Some([1.0, 2.0, 1.0, 1.0]), None, None,
                    Some([1.0, 2.0, 2.0, 5.0, 6.0, 2.0]), None)],
    [CocoCategory(1, Some("person"), None, Some(["nose", "eye"]), Some([(1, 2)])),
     CocoCategory(2, Some("box"), None, None, None)])

  lemma FixtureLoads()
    ensures LoadDataset(Fixture).Success?
  {
    var c := Fixture;
    assert LoadCategory(c.categories[0]).Success? && LoadCategory(c.categories[1]).Success?;
    forall j | 0 <= j < |c.annotations| ensures Convertible(c.annotations[j]) {
      if j == 1 {
        assert ValidPolygon(Polygon(c.annotations[1].segmentation.polygons[0], false));
      }
    }
    LoadSucceedsIff(c);
  }

  lemma FixtureSiblingCount()
    ensures SiblingCount(Fixture.annotations, ImageIds(Fixture.images)) == 5
  {
    var c := Fixture;
    assert ImageIds(c.images) == {1} by {
      assert c.images[0].id in ImageIds(c.images);
    }
    assert c.annotations[..2][..1] == c.annotations[..1];
    assert c.annotations[..1][..0] == [];
    assert ExpectedKinds(c.annotations[0]) == [BBoxKind];
    assert ExpectedKinds(c.annotations[1]) == [PolygonKind, BBoxKind];
    assert ExpectedKinds(c.annotations[2]) == [BBoxKind, KeypointsKind];
    var ids := ImageIds(c.images);
    assert SiblingCount(c.annotations[..1], ids) == 1;
    assert SiblingCount(c.annotations[..2], ids) == 3;
  }

  /**
   * The three annotations load as five: the box of the polygon and the box of
   * the keypoints become siblings. The dump then writes one image, five
   * annotations and both categories, the skeleton back as [[1, 2]].
   */
  lemma FixtureRoundTrip()
    ensures LoadDataset(Fixture).Success?
    ensures var ds := LoadDataset(Fixture).value;
      && |ds.items| == 1
      && |ds.items[0].annotations| == 5
      && AllLowerable(ds.items)
      && |DumpDataset(ds).images| == 1
      && |DumpDataset(ds).annotations| == 5
      && |DumpDataset(ds).categories| == 2
      && DumpDataset(ds).categories[0].skeleton == Some([(1, 2)])
  {
    FixtureLoads();
    FixtureSiblingCount();
    RoundTripCounts(Fixture);
    LoadedItems(Fixture);
    var ds := LoadDataset(Fixture).value;
    assert AnnotationCount(ds.items) == |ds.items[0].annotations| by {
      assert ds.items[..0] == [];
    }
    LoadedCategoriesDumpBack(Fixture.categories);
  }
}
