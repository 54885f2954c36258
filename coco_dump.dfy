/**
 * `COCOAdapter.dump` and `_ann_to_coco` (src/annox/adapters/coco/coco.py): a
 * canonical Dataset becomes a COCO document. Skeletons go back to 1-based,
 * each item becomes an image whose id is the item id read as an integer (or the
 * item's 1-based position when it does not read as one), and every annotation is
 * lowered to at most one record, numbered 1, 2, ... across the whole document.
 * Also `COCOAdapter.capabilities` over the base adapter's defaults
 * (src/annox/adapters/base.py).
 */
module CocoDump {
  import opened Wrappers
  import opened Decimal
  import opened Geometry
  import opened Schema
  import opened CocoFormat
  import opened CocoGeometry
  import opened CocoLoad

  // -------------------------------------------------------- capabilities

  /** `BaseAdapter.capabilities`: nothing supported except attributes. */
  function BaseCapabilities(): map<string, bool> {
    map["det" := false, "segm_poly" := false, "segm_rle" := false, "panoptic" := false,
        "keypoints" := false, "attributes" := true]
  }

  /** `COCOAdapter.capabilities`: the base map with the five task flags overridden. */
  function Capabilities(): (caps: map<string, bool>)
    ensures caps.Keys == BaseCapabilities().Keys
    ensures caps["attributes"] == BaseCapabilities()["attributes"]
    ensures forall k :: k in caps && k != "attributes" ==> (caps[k] <==> k != "panoptic")
  {
    BaseCapabilities() + map["det" := true, "segm_poly" := true, "segm_rle" := true,
                             "panoptic" := false, "keypoints" := true]
  }

  // ---------------------------------------------------------- categories

  /** One category record: the skeleton back to 1-based. */
  function DumpCategory(c: Category): CocoCategory {
    CocoCategory(c.id, Some(c.name), c.supercategory, c.keypointNames,
                 if c.skeleton.Some? then Some(ShiftSkeleton(c.skeleton.value, 1)) else None)
  }

  function DumpCategories(cats: seq<Category>): (out: seq<CocoCategory>)
    ensures |out| == |cats|
  {
    seq(|cats|, k requires 0 <= k < |cats| => DumpCategory(cats[k]))
  }

  method DumpCategoryList(cats: seq<Category>) returns (out: seq<CocoCategory>)
    ensures out == DumpCategories(cats)
  {
    out := [];
    var i := 0;
    while i < |cats|
      invariant 0 <= i <= |cats|
      invariant out == DumpCategories(cats[..i])
    {
      assert cats[..i + 1][..i] == cats[..i];
      out := out + [DumpCategory(cats[i])];
      i := i + 1;
    }
    assert cats[..i] == cats;
  }

  // -------------------------------------------------------------- images

  /**
   * `int(item.id)`, or the 1-based position `pos` when the id does not read as an
   * integer: an item whose id is the decimal form of `n` dumps with image id `n`.
   */
  function ImageIdFor(item: Item, pos: int): (iid: int)
    ensures forall n :: item.id == IntToDecimal(n) ==> iid == n
    ensures ParseInt(item.id).None? ==> iid == pos
  {
    DecimalReadsBack(item.id);
    match ParseInt(item.id)
    case Some(v) => v
    case None => pos
  }

  lemma DecimalReadsBack(s: string)
    ensures forall n :: s == IntToDecimal(n) ==> ParseInt(s) == Some(n)
  {
    forall n | s == IntToDecimal(n) ensures ParseInt(s) == Some(n) {
      ParseIntOfDecimal(n);
    }
  }

  function DumpImage(item: Item, pos: int): CocoImage {
    CocoImage(ImageIdFor(item, pos), Some(item.image.fileName), Some(item.image.width), Some(item.image.height))
  }

  function DumpImages(items: seq<Item>): (out: seq<CocoImage>)
    ensures |out| == |items|
  {
    seq(|items|, k requires 0 <= k < |items| => DumpImage(items[k], k + 1))
  }

  function ItemIds(items: seq<Item>): set<string> {
    set k | 0 <= k < |items| :: items[k].id
  }

  /** The position of the last item carrying `id` is `p`. */
  predicate LastItemWith(items: seq<Item>, id: string, p: nat) {
    p < |items| && items[p].id == id && forall j :: p < j < |items| ==> items[j].id != id
  }

  /** `img_id_map`: item id -> image id of the LAST item carrying that id. */
  function ImageIdMap(items: seq<Item>): (m: map<string, int>)
    ensures m.Keys == ItemIds(items)
    ensures forall k :: 0 <= k < |items| && LastItemWith(items, items[k].id, k) ==>
      m[items[k].id] == ImageIdFor(items[k], k + 1)
  {
    if items == [] then map[]
    else
      var n := |items| - 1;
      var prev := ImageIdMap(items[..n]);
      ItemIdsSnoc(items);
      LastItemWithSnoc(items);
      prev[items[n].id := ImageIdFor(items[n], n + 1)]
  }

  lemma ItemIdsSnoc(items: seq<Item>)
    requires items != []
    ensures ItemIds(items) == ItemIds(items[..|items| - 1]) + {items[|items| - 1].id}
  {
    var n := |items| - 1;
    forall id | id in ItemIds(items) ensures id in ItemIds(items[..n]) + {items[n].id} {
      var k :| 0 <= k < |items| && items[k].id == id;
      if k < n { assert items[..n][k] == items[k]; }
    }
    forall id | id in ItemIds(items[..n]) ensures id in ItemIds(items) {
      var k :| 0 <= k < n && items[..n][k].id == id;
      assert items[k].id == id;
    }
  }

  /** An earlier item that is last with its id in the whole list is so in the prefix as well. */
  lemma LastItemWithSnoc(items: seq<Item>)
    requires items != []
    ensures forall k :: 0 <= k < |items| - 1 && LastItemWith(items, items[k].id, k) ==>
      items[k].id != items[|items| - 1].id && items[..|items| - 1][k] == items[k] &&
      LastItemWith(items[..|items| - 1], items[k].id, k)
  {
  }

  /** One more item adds one image record and one map entry. */
  lemma DumpImagesSnoc(items: seq<Item>, i: nat)
    requires i < |items|
    ensures DumpImages(items[..i + 1]) == DumpImages(items[..i]) + [DumpImage(items[i], i + 1)]
    ensures ImageIdMap(items[..i + 1]) == ImageIdMap(items[..i])[items[i].id := ImageIdFor(items[i], i + 1)]
  {
    assert items[..i + 1][..i] == items[..i];
  }

  /** The image loop: the image records together with `img_id_map`. */
  method DumpImageList(items: seq<Item>) returns (images: seq<CocoImage>, imgIdMap: map<string, int>)
    ensures images == DumpImages(items)
    ensures imgIdMap == ImageIdMap(items)
  {
    images := [];
    imgIdMap := map[];
    var idx := 1;
    while idx <= |items|
      invariant 1 <= idx <= |items| + 1
      invariant images == DumpImages(items[..idx - 1])
      invariant imgIdMap == ImageIdMap(items[..idx - 1])
    {
      var item := items[idx - 1];
      DumpImagesSnoc(items, idx - 1);
      var iid := match ParseInt(item.id) case Some(v) => v case None => idx;
      assert iid == ImageIdFor(item, idx);
      imgIdMap := imgIdMap[item.id := iid];
      images := images + [CocoImage(iid, Some(item.image.fileName), Some(item.image.width), Some(item.image.height))];
      idx := idx + 1;
    }
    assert items[..idx - 1] == items;
  }

  // --------------------------------------------------------- annotations

  /** `[pt for poly in polygons for pt in poly.points]`. */
  function Flatten(polys: seq<Polygon>): (flat: seq<real>)
    ensures polys == [] ==> flat == []
  {
    if polys == [] then [] else Flatten(polys[..|polys| - 1]) + polys[|polys| - 1].points
  }

  /** `sum(_shoelace_area(poly.points) for poly in polygons)`. */
  function AreaSum(polys: seq<Polygon>): (area: real)
    ensures area >= 0.0
  {
    if polys == [] then 0.0 else AreaSum(polys[..|polys| - 1]) + ShoelaceArea(polys[|polys| - 1].points)
  }

  function PolygonPoints(polys: seq<Polygon>): seq<seq<real>> {
    seq(|polys|, k requires 0 <= k < |polys| => polys[k].points)
  }

  /** A flattened polygon list of exactly one number would make `_poly_bbox` fail. */
  predicate Lowerable(a: Annotation) {
    a.PolygonAnnotation? ==> |Flatten(a.polygons)| != 1
  }

  const ZeroBox: seq<real> := [0.0, 0.0, 0.0, 0.0]

  /** The area w * h of a w by h rectangle. */
  function Area(w: real, h: real): real {
    w * h
  }

  /** `bbox[2] * bbox[3]` of a box laid out as [x, y, w, h]. */
  function BoxArea(box: seq<real>): real
    requires |box| == 4
  {
    Area(box[2], box[3])
  }

  /** The box of a polygon annotation: over all its points, or the zero box when it has none. */
  function PolygonsBox(polys: seq<Polygon>): (box: seq<real>)
    requires |Flatten(polys)| != 1
    ensures |box| == 4
  {
    var flat := Flatten(polys);
    if flat != [] then PolyBBox(flat) else ZeroBox
  }

  /** The segmentation of a mask record: the RLE object, or an empty list without one. */
  function MaskSegmentation(rle: Option<Rle>): Segmentation {
    if rle.Some? then RleObject(Given(rle.value.counts), Some([rle.value.height, rle.value.width]), false)
    else PolygonList([])
  }

  /** The record a BBox, Polygon, Mask or Keypoints annotation lowers to. */
  function Record(a: Annotation, imageId: int, id: int): CocoAnnotation
    requires Lowerable(a) && !a.PanopticSegmentAnnotation?
  {
    var cat := Some(a.categoryId.GetOr(0));
    match a
    case BBoxAnnotation(_, _, b) =>
      CocoAnnotation(id, imageId, cat, PolygonList([]), Some([b.x, b.y, b.w, b.h]), Some(Area(b.w, b.h)), Some(0), None, None)
    case PolygonAnnotation(_, _, polys) =>
      CocoAnnotation(id, imageId, cat, PolygonList(PolygonPoints(polys)),
                     Some(PolygonsBox(polys)), Some(AreaSum(polys)), Some(0), None, None)
    case MaskAnnotation(_, _, rle, _) =>
      CocoAnnotation(id, imageId, cat, MaskSegmentation(rle), Some(ZeroBox), Some(0.0),
                     Some(if rle.Some? then 1 else 0), None, None)
    case KeypointsAnnotation(_, _, kp) =>
      var box := KeypointsBBox(kp.points);
      CocoAnnotation(id, imageId, cat, PolygonList([]), Some(box), Some(BoxArea(box)), Some(0),
                     Some(kp.points), Some(|kp.points| / 3))
  }

  /**
   * `_ann_to_coco(ann, image_id, item, start_id)`: one record for a BBox, Polygon,
   * Mask or Keypoints annotation; none for a panoptic segment.
   */
  function AnnToCoco(a: Annotation, imageId: int, startId: int): (out: seq<CocoAnnotation>)
    requires Lowerable(a)
    ensures |out| == (if a.PanopticSegmentAnnotation? then 0 else 1)
    ensures out != [] ==>
      && out[0].id == startId && out[0].imageId == imageId
      && out[0].categoryId == Some(a.categoryId.GetOr(0))
      && out[0].bbox.Some? && |out[0].bbox.value| == 4 && out[0].area.Some?
  {
    if a.PanopticSegmentAnnotation? then [] else [Record(a, imageId, startId)]
  }

  predicate AllLowerable(items: seq<Item>) {
    forall k, j :: 0 <= k < |items| && 0 <= j < |items[k].annotations| ==> Lowerable(items[k].annotations[j])
  }

  /** The records of one item's annotations, the first numbered `start`. */
  function ItemRecords(anns: seq<Annotation>, imageId: int, start: int): (out: seq<CocoAnnotation>)
    requires forall j :: 0 <= j < |anns| ==> Lowerable(anns[j])
  {
    if anns == [] then []
    else
      var n := |anns| - 1;
      var prev := ItemRecords(anns[..n], imageId, start);
      prev + AnnToCoco(anns[n], imageId, start + |prev|)
  }

  /** The annotation records of the whole dump; the image id of an item comes from `idMap`. */
  function DumpAnnotations(items: seq<Item>, idMap: map<string, int>): seq<CocoAnnotation>
    requires AllLowerable(items)
    requires forall k :: 0 <= k < |items| ==> items[k].id in idMap
  {
    if items == [] then []
    else
      var n := |items| - 1;
      assert AllLowerable(items[..n]) by {
        forall k, j | 0 <= k < n && 0 <= j < |items[..n][k].annotations| ensures Lowerable(items[..n][k].annotations[j]) {
          assert items[..n][k] == items[k];
        }
      }
      var prev := DumpAnnotations(items[..n], idMap);
      prev + ItemRecords(items[n].annotations, idMap[items[n].id], |prev| + 1)
  }

  /** The whole of `dump`, before the JSON is written. */
  function DumpDataset(ds: Dataset): Coco
    requires AllLowerable(ds.items)
  {
    var idMap := ImageIdMap(ds.items);
    assert forall k :: 0 <= k < |ds.items| ==> ds.items[k].id in ItemIds(ds.items);
    Coco(DumpImages(ds.items), DumpAnnotations(ds.items, idMap), DumpCategories(ds.categories))
  }

  /** The inner loop: one item's annotations extend the records, `ann_id` following the count. */
  method AppendItemRecords(acc: seq<CocoAnnotation>, anns: seq<Annotation>, imageId: int)
    returns (out: seq<CocoAnnotation>)
    requires forall j :: 0 <= j < |anns| ==> Lowerable(anns[j])
    ensures out == acc + ItemRecords(anns, imageId, |acc| + 1)
  {
    out := acc;
    var annId := |acc| + 1;
    var j := 0;
    while j < |anns|
      invariant 0 <= j <= |anns|
      invariant out == acc + ItemRecords(anns[..j], imageId, |acc| + 1)
      invariant annId == |out| + 1
    {
      AppendStep(acc, anns, imageId, j, out);
      out := out + AnnToCoco(anns[j], imageId, annId);
      annId := |out| + 1;
      j := j + 1;
    }
    assert anns[..j] == anns;
  }

  /** One pass of the inner loop extends the records by the next annotation's record. */
  lemma AppendStep(acc: seq<CocoAnnotation>, anns: seq<Annotation>, imageId: int, j: nat, out: seq<CocoAnnotation>)
    requires forall i :: 0 <= i < |anns| ==> Lowerable(anns[i])
    requires j < |anns| && out == acc + ItemRecords(anns[..j], imageId, |acc| + 1)
    ensures out + AnnToCoco(anns[j], imageId, |out| + 1) == acc + ItemRecords(anns[..j + 1], imageId, |acc| + 1)
  {
    ItemRecordsSnoc(anns, imageId, |acc| + 1, j);
  }

  lemma ItemRecordsSnoc(anns: seq<Annotation>, imageId: int, start: int, j: nat)
    requires forall i :: 0 <= i < |anns| ==> Lowerable(anns[i])
    requires j < |anns|
    ensures var prev := ItemRecords(anns[..j], imageId, start);
      ItemRecords(anns[..j + 1], imageId, start) == prev + AnnToCoco(anns[j], imageId, start + |prev|)
  {
    assert anns[..j + 1][..j] == anns[..j];
  }

  method DumpAnnotationList(items: seq<Item>, imgIdMap: map<string, int>) returns (out: seq<CocoAnnotation>)
    requires AllLowerable(items)
    requires forall k :: 0 <= k < |items| ==> items[k].id in imgIdMap
    ensures out == DumpAnnotations(items, imgIdMap)
  {
    out := [];
    var i := 0;
    while i < |items|
      invariant 0 <= i <= |items|
      invariant out == DumpAnnotations(items[..i], imgIdMap)
    {
      assert items[..i + 1][..i] == items[..i];
      out := AppendItemRecords(out, items[i].annotations, imgIdMap[items[i].id]);
      i := i + 1;
    }
    assert items[..i] == items;
  }

  /** `dump` as the adapter runs it, up to writing the document. */
  method Dump(ds: Dataset) returns (coco: Coco)
    requires AllLowerable(ds.items)
    ensures coco == DumpDataset(ds)
  {
    var categories := DumpCategoryList(ds.categories);
    var images, imgIdMap := DumpImageList(ds.items);
    assert forall k :: 0 <= k < |ds.items| ==> ds.items[k].id in ItemIds(ds.items);
    var annotations := DumpAnnotationList(ds.items, imgIdMap);
    coco := Coco(images, annotations, categories);
  }

  // -------------------------------------------------------------- lemmas

  /** How many records an item list lowers to: one per annotation that is not a panoptic segment. */
  function LoweredCount(anns: seq<Annotation>): nat {
    if anns == [] then 0
    else LoweredCount(anns[..|anns| - 1]) + (if anns[|anns| - 1].PanopticSegmentAnnotation? then 0 else 1)
  }

  function TotalLowered(items: seq<Item>): nat {
    if items == [] then 0 else TotalLowered(items[..|items| - 1]) + LoweredCount(items[|items| - 1].annotations)
  }

  /** The records of one item are numbered `start`, `start + 1`, ... and carry its image id. */
  lemma {:induction false} ItemRecordsNumbered(anns: seq<Annotation>, imageId: int, start: int)
    requires forall j :: 0 <= j < |anns| ==> Lowerable(anns[j])
    ensures |ItemRecords(anns, imageId, start)| == LoweredCount(anns)
    ensures forall j :: 0 <= j < |ItemRecords(anns, imageId, start)| ==>
      ItemRecords(anns, imageId, start)[j].id == start + j &&
      ItemRecords(anns, imageId, start)[j].imageId == imageId
  {
    if anns != [] {
      var n := |anns| - 1;
      ItemRecordsNumbered(anns[..n], imageId, start);
    }
  }

  /** `iid` is the image id `idMap` gives to one of the items. */
  predicate MapsSomeItem(iid: int, items: seq<Item>, idMap: map<string, int>) {
    exists k :: 0 <= k < |items| && items[k].id in idMap && iid == idMap[items[k].id]
  }

  /** `iid` is the id of one of the images. */
  predicate IsImageId(iid: int, images: seq<CocoImage>) {
    exists k :: 0 <= k < |images| && iid == images[k].id
  }

  lemma AllLowerablePrefix(items: seq<Item>, n: nat)
    requires AllLowerable(items) && n <= |items|
    ensures AllLowerable(items[..n])
  {
    forall k, j | 0 <= k < n && 0 <= j < |items[..n][k].annotations| ensures Lowerable(items[..n][k].annotations[j]) {
      assert items[..n][k] == items[k];
    }
  }

  lemma DumpAnnotationsSnoc(items: seq<Item>, idMap: map<string, int>)
    requires AllLowerable(items) && items != []
    requires forall k :: 0 <= k < |items| ==> items[k].id in idMap
    ensures AllLowerable(items[..|items| - 1])
    ensures var n := |items| - 1;
      var prev := DumpAnnotations(items[..n], idMap);
      DumpAnnotations(items, idMap) == prev + ItemRecords(items[n].annotations, idMap[items[n].id], |prev| + 1)
  {
    AllLowerablePrefix(items, |items| - 1);
  }

  /** The records of the whole dump are numbered 1, 2, ..., N, N being the number of lowered annotations. */
  lemma {:induction false} DumpAnnotationsNumbered(items: seq<Item>, idMap: map<string, int>)
    requires AllLowerable(items)
    requires forall k :: 0 <= k < |items| ==> items[k].id in idMap
    ensures |DumpAnnotations(items, idMap)| == TotalLowered(items)
    ensures forall j :: 0 <= j < |DumpAnnotations(items, idMap)| ==> DumpAnnotations(items, idMap)[j].id == j + 1
  {
    if items != [] {
      var init := items[..|items| - 1];
      assert forall k :: 0 <= k < |init| ==> init[k].id in idMap by {
        forall k | 0 <= k < |init| ensures init[k].id in idMap { assert init[k] == items[k]; }
      }
      AllLowerablePrefix(items, |items| - 1);
      DumpAnnotationsNumbered(init, idMap);
      NumberedStep(items, idMap);
    }
  }

  /** The step of `DumpAnnotationsNumbered`: one more item keeps the numbering. */
  lemma NumberedStep(items: seq<Item>, idMap: map<string, int>)
    requires AllLowerable(items) && items != []
    requires forall k :: 0 <= k < |items| ==> items[k].id in idMap
    requires var init := items[..|items| - 1];
      && AllLowerable(init)
      && |DumpAnnotations(init, idMap)| == TotalLowered(init)
      && forall j :: 0 <= j < |DumpAnnotations(init, idMap)| ==> DumpAnnotations(init, idMap)[j].id == j + 1
    ensures |DumpAnnotations(items, idMap)| == TotalLowered(items)
    ensures forall j :: 0 <= j < |DumpAnnotations(items, idMap)| ==> DumpAnnotations(items, idMap)[j].id == j + 1
  {
    var n := |items| - 1;
    DumpAnnotationsSnoc(items, idMap);
    var prev := DumpAnnotations(items[..n], idMap);
    var recs := ItemRecords(items[n].annotations, idMap[items[n].id], |prev| + 1);
    ItemRecordsNumbered(items[n].annotations, idMap[items[n].id], |prev| + 1);
    NumberedConcat(prev, recs);
  }

  /** Records numbered from 1 followed by records numbered on from there are numbered from 1. */
  lemma NumberedConcat(prev: seq<CocoAnnotation>, recs: seq<CocoAnnotation>)
    requires forall j :: 0 <= j < |prev| ==> prev[j].id == j + 1
    requires forall j :: 0 <= j < |recs| ==> recs[j].id == |prev| + 1 + j
    ensures forall j :: 0 <= j < |prev + recs| ==> (prev + recs)[j].id == j + 1
  {
    var all := prev + recs;
    forall j | 0 <= j < |all| ensures all[j].id == j + 1 {
      if j < |prev| {
        assert all[j] == prev[j];
      } else {
        assert all[j] == recs[j - |prev|];
      }
    }
  }

  /** Every record of the dump carries the image id the map gives one of the items. */
  lemma {:induction false} DumpAnnotationsImageIds(items: seq<Item>, idMap: map<string, int>)
    requires AllLowerable(items)
    requires forall k :: 0 <= k < |items| ==> items[k].id in idMap
    ensures forall j :: 0 <= j < |DumpAnnotations(items, idMap)| ==>
      MapsSomeItem(DumpAnnotations(items, idMap)[j].imageId, items, idMap)
  {
    if items != [] {
      var n := |items| - 1;
      DumpAnnotationsSnoc(items, idMap);
      DumpAnnotationsImageIds(items[..n], idMap);
      var prev := DumpAnnotations(items[..n], idMap);
      var recs := ItemRecords(items[n].annotations, idMap[items[n].id], |prev| + 1);
      ItemRecordsNumbered(items[n].annotations, idMap[items[n].id], |prev| + 1);
      var all := prev + recs;
      forall j | 0 <= j < |all| ensures MapsSomeItem(all[j].imageId, items, idMap) {
        if j < |prev| {
          var k :| 0 <= k < n && items[..n][k].id in idMap && prev[j].imageId == idMap[items[..n][k].id];
          assert items[..n][k] == items[k];
        } else {
          assert all[j] == recs[j - |prev|];
          assert all[j].imageId == idMap[items[n].id];
        }
      }
    }
  }

  /**
   * `dump`: one image per item; annotation ids 1..N over the lowered annotations;
   * every record points at one of the dumped images; one category record per category.
   */
  lemma DumpShape(ds: Dataset)
    requires AllLowerable(ds.items)
    ensures var out := DumpDataset(ds);
      && |out.images| == |ds.items|
      && |out.categories| == |ds.categories|
      && |out.annotations| == TotalLowered(ds.items)
      && (forall j :: 0 <= j < |out.annotations| ==> out.annotations[j].id == j + 1)
      && (forall j :: 0 <= j < |out.annotations| ==> IsImageId(out.annotations[j].imageId, out.images))
  {
    var idMap := ImageIdMap(ds.items);
    assert forall k :: 0 <= k < |ds.items| ==> ds.items[k].id in ItemIds(ds.items);
    DumpAnnotationsNumbered(ds.items, idMap);
    DumpAnnotationsImageIds(ds.items, idMap);
    var out := DumpDataset(ds);
    forall j | 0 <= j < |out.annotations|
      ensures IsImageId(out.annotations[j].imageId, out.images)
    {
      var k :| 0 <= k < |ds.items| && ds.items[k].id in idMap && out.annotations[j].imageId == idMap[ds.items[k].id];
      var p := LastOf(ds.items, ds.items[k].id, k);
      MapEntryIsImageId(ds.items, k, p);
      assert out.images[p].id == out.annotations[j].imageId;
    }
  }

  /** The map entry of an item id is the image id of one of the dumped images. */
  lemma MapEntryIsImageId(items: seq<Item>, k: nat, p: nat)
    requires k < |items| && LastItemWith(items, items[k].id, p)
    ensures p < |DumpImages(items)| && ImageIdMap(items)[items[k].id] == DumpImages(items)[p].id
  {
    assert LastItemWith(items, items[p].id, p);
    assert DumpImages(items)[p] == DumpImage(items[p], p + 1);
  }

  /** The position of the last item with a given id, at or after one that has it. */
  function LastOf(items: seq<Item>, id: string, k: nat): (p: nat)
    requires k < |items| && items[k].id == id
    ensures LastItemWith(items, id, p) && k <= p
    decreases |items| - k
  {
    if exists j :: k < j < |items| && items[j].id == id then
      var j :| k < j < |items| && items[j].id == id;
      LastOf(items, id, j)
    else k
  }

  /** The image id of an item is its id read as an integer, else its 1-based position. */
  lemma DumpImageIds(items: seq<Item>, k: nat)
    requires k < |items|
    ensures ParseInt(items[k].id).Some? ==> DumpImages(items)[k].id == ParseInt(items[k].id).value
    ensures ParseInt(items[k].id).None? ==> DumpImages(items)[k].id == k + 1
  {
  }

  /**
   * The positional fallback can repeat a parsed id: items "2" and "x" both get
   * image id 2, so the image ids of a dump need not be unique.
   */
  lemma FallbackIdCollision(img: Image)
    ensures var items := [Item("2", img, [], None), Item("x", img, [], None)];
      DumpImages(items)[0].id == 2 && DumpImages(items)[1].id == 2
  {
    var items := [Item("2", img, [], None), Item("x", img, [], None)];
    assert ParseInt("2") == Some(2) by {
      assert DigitsValue("2") == DigitValue('2');
    }
    assert ParseInt("x").None? by {
      assert !IsDigit('x');
    }
  }

  /** Lowering a box keeps its numbers; the area is w * h and the record is never a crowd. */
  lemma LowerBBox(a: Annotation, imageId: int, startId: int)
    requires a.BBoxAnnotation?
    ensures var r := AnnToCoco(a, imageId, startId)[0];
      && r.bbox == Some([a.bbox.x, a.bbox.y, a.bbox.w, a.bbox.h])
      && r.area == Some(Area(a.bbox.w, a.bbox.h))
      && r.iscrowd == Some(0)
      && r.segmentation == PolygonList([]) && r.keypoints.None?
  {
  }

  /**
   * Lowering polygons: the area is the sum of the shoelace areas; the box is the zero
   * box without points and otherwise contains every vertex of every polygon.
   */
  lemma LowerPolygon(a: Annotation, imageId: int, startId: int)
    requires a.PolygonAnnotation? && Lowerable(a)
    ensures var r := AnnToCoco(a, imageId, startId)[0];
      && r.area == Some(AreaSum(a.polygons))
      && r.iscrowd == Some(0)
      && r.segmentation == PolygonList(PolygonPoints(a.polygons))
      && (Flatten(a.polygons) == [] ==> r.bbox == Some(ZeroBox))
      && (Flatten(a.polygons) != [] ==>
            && NonNegativeSize(r.bbox.value)
            && forall i :: 0 <= i < |Flatten(a.polygons)| && i % 2 == 0 ==>
                 r.bbox.value[0] <= Flatten(a.polygons)[i] <= r.bbox.value[0] + r.bbox.value[2])
  {
    if Flatten(a.polygons) != [] {
      PolyBBoxContains(Flatten(a.polygons));
    }
  }

  /** A polygon annotation with no polygons lowers to the zero box with area 0. */
  lemma LowerEmptyPolygon(id: int, cat: Option<int>, imageId: int, startId: int)
    ensures var r := AnnToCoco(PolygonAnnotation(id, cat, []), imageId, startId)[0];
      r.bbox == Some(ZeroBox) && r.area == Some(0.0)
  {
  }

  /** Lowering a mask: zero box, area 0, and a crowd record exactly when it has an RLE. */
  lemma LowerMask(a: Annotation, imageId: int, startId: int)
    requires a.MaskAnnotation?
    ensures var r := AnnToCoco(a, imageId, startId)[0];
      && r.bbox == Some(ZeroBox) && r.area == Some(0.0)
      && (r.iscrowd == Some(1) <==> a.rle.Some?)
      && (r.iscrowd == Some(0) <==> a.rle.None?)
      && (a.rle.Some? ==> r.segmentation == RleObject(Given(a.rle.value.counts), Some([a.rle.value.height, a.rle.value.width]), false))
  {
  }

  /**
   * Lowering keypoints: the box spans the x and y entries only, its area is its
   * w * h, and `num_keypoints` is the number of triplets.
   */
  lemma LowerKeypoints(a: Annotation, imageId: int, startId: int)
    requires a.KeypointsAnnotation?
    ensures var r := AnnToCoco(a, imageId, startId)[0];
      && r.bbox == Some(KeypointsBBox(a.keypoints.points))
      && r.area == Some(BoxArea(r.bbox.value)) && r.area.value >= 0.0
      && r.numKeypoints == Some(|a.keypoints.points| / 3)
      && r.keypoints == Some(a.keypoints.points)
  {
    var box := KeypointsBBox(a.keypoints.points);
    KeypointsBBoxContains(a.keypoints.points);
    ProductNonNegative(box[2], box[3]);
  }

  lemma ProductNonNegative(x: real, y: real)
    requires x >= 0.0 && y >= 0.0
    ensures x * y >= 0.0
  {
  }

  /** Every record of a valid annotation has a non-negative area. */
  lemma LoweredAreaNonNegative(a: Annotation, imageId: int, startId: int)
    requires Lowerable(a) && ValidAnnotation(a) && !a.PanopticSegmentAnnotation?
    ensures AnnToCoco(a, imageId, startId)[0].area.value >= 0.0
  {
    if a.KeypointsAnnotation? {
      LowerKeypoints(a, imageId, startId);
    } else if a.BBoxAnnotation? {
      ProductNonNegative(a.bbox.w, a.bbox.h);
    }
  }
}
