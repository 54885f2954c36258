/**
 * The COCO document as the adapter reads and writes it, already parsed from JSON
 * (src/annox/adapters/coco/coco.py). A field that is optional in the document is
 * an Option. For a key the adapter reads with a default (a category's `name`, an
 * image's `file_name`, `width` and `height`) None stands for an absent key only;
 * for a key read with a plain `.get` (`supercategory`, `keypoints`, `skeleton`,
 * `category_id`) it stands for an absent key or a null.
 */
module CocoFormat {
  import opened Wrappers
  import opened Geometry

  datatype CocoImage = CocoImage(id: int, fileName: Option<string>, width: Option<int>, height: Option<int>)

  /** `skeleton` holds 1-based endpoint pairs. */
  datatype CocoCategory = CocoCategory(
    id: int,
    name: Option<string>,
    supercategory: Option<string>,
    keypoints: Option<seq<string>>,
    skeleton: Option<seq<(int, int)>>)

  /** A key of a JSON object that may be missing, present with `null`, or present with a value. */
  datatype Entry<T> = Absent | Null | Given(value: T)

  /**
   * The `segmentation` value:
   * - NoSegmentation: absent, null, or neither a list nor an object;
   * - PolygonList: a list of flat coordinate lists (possibly empty);
   * - RleObject: an object; `counts` is its entry for that key, `size` its value
   *   for that key (None when absent) and `otherKeys` says whether it has any
   *   other key.
   */
  datatype Segmentation =
    | NoSegmentation
    | PolygonList(polygons: seq<seq<real>>)
    | RleObject(counts: Entry<RleCounts>, size: Option<seq<int>>, otherKeys: bool)
  {
    /** The truth value of the JSON value in Python: an empty list or object is false. */
    predicate NonEmpty() {
      match this
      case NoSegmentation => false
      case PolygonList(ps) => |ps| > 0
      case RleObject(c, sz, other) => !c.Absent? || sz.Some? || other
    }
  }

  /**
   * `bbox` is None when the key is absent; `keypoints` is None when it is absent or null.
   * `area`, `iscrowd` and `numKeypoints` are written by the exporter and never read back.
   */
  datatype CocoAnnotation = CocoAnnotation(
    id: int,
    imageId: int,
    categoryId: Option<int>,
    segmentation: Segmentation,
    bbox: Option<seq<real>>,
    area: Option<real>,
    iscrowd: Option<int>,
    keypoints: Option<seq<real>>,
    numKeypoints: Option<int>)

  datatype Coco = Coco(images: seq<CocoImage>, annotations: seq<CocoAnnotation>, categories: seq<CocoCategory>)
}
