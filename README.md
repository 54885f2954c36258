# annox core in Dafny

This project models the conversion core of annox (FanFeast/labelx), an annotation-format
toolkit. It proves properties of that model.

The model covers five parts:

- **Geometry value types.** `BBox`, `Polygon`, `RLE` and `Keypoints` each come with their
  construction checks (module `Geometry`).
- **Canonical schema.** `Category`, the five annotation variants, `Dataset.Item` and `Dataset`.
  It includes the skeleton check, the mask-source check, both `validate_consistency` rules and the
  wiring of the id→category map into every item (module `Schema`).
- **Dataset validator.** `_validate_dataset` is a single pass that collects errors. It also covers
  the `.jsonl` suffix dispatch of `validate_dataset_file` (module `Validate`).
- **COCO adapter.** The model works over an already-parsed COCO document (module `CocoFormat`):
  - the polygon helpers (module `CocoGeometry`);
  - `load` (module `CocoLoad`);
  - `dump` and `_ann_to_coco` (module `CocoDump`);
  - how the two compose (module `CocoRoundTrip`).
- **Legacy YOLO → COCO converter.** It works over already-parsed label files with their image
  sizes (module `YoloToCoco`).

Two helper modules support the rest:

- `Wrappers` holds `Option` and `Result`.
- `Decimal` models `str(int)` and the decimal part of `int(str)`.

Every loop of the source is a `method` with a `while` loop and its invariants. Its `ensures`
equates the result with a specification function, which is a fold defined from the back of the
sequence. The properties are then lemmas about those functions. The loops modelled this way:

- the shoelace accumulation;
- in `load`: the category loop, the item loop with `by_image_id`, and the annotation loop with
  the per-item `counters`;
- in `dump`: the category, image and annotation loops;
- the validator's pass;
- both loops of `convert_yolo_to_coco`.

Construction that pydantic would raise on becomes a `Result` with an error kind, so every
construction path has an error case. `load` stops at the first failing construction, as the
source does.

Coordinates are `real`, and the arithmetic on them is exact.

## Model

| member | source | states |
|---|---|---|
| Geometry.NewBBox | src/annox/schema/geometry.py:8-21 | A box is built exactly when its size is non-negative and, if normalized, all four fields lie in [0,1]; the built box carries the given fields |
| Geometry.NegativeSizeRejected | src/annox/schema/geometry.py:11-12 | A negative width or height is always rejected with the size error, normalized or not |
| Geometry.NormalizedBBoxOutOfRangeRejected | src/annox/schema/geometry.py:15-21 | A normalized box with any field outside [0,1] is rejected with the range error |
| Geometry.NormalizedBBoxExample | tests/unit/test_geometry.py:6-8 | The normalized box with x = 1.2 is rejected |
| Geometry.PlainBBoxOriginUnbounded | src/annox/schema/geometry.py:15-21 | A plain box is accepted iff w, h >= 0, whatever x and y are |
| Geometry.NewPolygon | src/annox/schema/geometry.py:24-37 | A polygon is built iff it has at least 6 coordinates, an even count and, when normalized, all coordinates in [0,1]; fewer than 6 gives the too-few error |
| Geometry.PolygonShapeRequired | src/annox/schema/geometry.py:26-32 | An accepted polygon has >= 6 and an even number of coordinates; an odd count of 6 or more gets the parity error |
| Geometry.NormalizedPolygonOutOfRangeRejected | src/annox/schema/geometry.py:33-36 | One coordinate outside [0,1] rejects the normalized polygon, while the same points unnormalized are accepted |
| Geometry.NewKeypoints | src/annox/schema/geometry.py:46-61 | Keypoints are built iff their length is a multiple of 3 and, when normalized, every x and y lies in [0,1] |
| Geometry.KeypointsTripletsRequired | src/annox/schema/geometry.py:53-54 | A length that is not a multiple of 3 is rejected with the triplet error |
| Geometry.KeypointsVisibilityUnconstrained | src/annox/schema/geometry.py:55-61 | Two point lists that differ only in visibility slots are accepted or rejected alike |
| Geometry.NormalizedKeypointsOutOfRangeRejected | src/annox/schema/geometry.py:57-61 | One x or y outside [0,1] rejects normalized keypoints |
| Schema.NewCategory | src/annox/schema/dataset.py:21-35 | A category is built iff, when both skeleton and names are given, every skeleton index lies in [0, n); with either absent it is always built |
| Schema.NewMaskAnnotation | src/annox/schema/dataset.py:72-81 | A mask is rejected exactly when it has neither an RLE nor a PNG path |
| Schema.CheckConsistency | src/annox/schema/dataset.py:50-101 | A box fails only if it is unnormalized with x < 0 or y < 0. Keypoints fail iff the category id is set, the map is present, the category is found, it has names, and the length is not 3 times their count. Polygon, mask and panoptic annotations never fail |
| Schema.OverhangingBBoxConsistent | src/annox/schema/dataset.py:62-64 | A box reaching past the image's width is not an error |
| Schema.NoCategoriesNoKeypointError | src/annox/schema/dataset.py:92-96 | With an empty category map, only a box can fail consistency |
| Schema.CategoryMapKeys | src/annox/schema/dataset.py:131 | The category map's keys are exactly the category ids |
| Schema.CategoryMapLastWins | src/annox/schema/dataset.py:131 | When ids repeat, the map holds the last category with that id |
| Schema.CategoryMapValues | src/annox/schema/dataset.py:131 | Every map entry is one of the categories, filed under its own id |
| Schema.NewDataset | src/annox/schema/dataset.py:129-134 | Building a dataset gives every item the same id→category map and changes nothing else about the items |
| Validate.ValidateDataset | src/annox/core/validate.py:10-31 | The loop's report equals the specification report: the item count, the total annotation count and the errors in pass order. ok holds iff the error list is empty |
| Validate.AnnotationPass | src/annox/core/validate.py:19-29 | The inner loop returns one item's annotation errors and counts its annotations |
| Validate.CleanReportIff | src/annox/core/validate.py:14-30 | The error list is empty iff item ids are distinct, annotation ids are distinct within each item, and every annotation passes its consistency check |
| Validate.DuplicateItemErrorCount | src/annox/core/validate.py:15-18 | The number of duplicate-item errors is the item count minus the number of distinct item ids, so each repeat adds exactly one |
| Validate.DistinctIdsCount | src/annox/core/validate.py:15-18 | Item ids are distinct iff there are as many distinct ids as items |
| Validate.DuplicateAnnotationScopedPerItem | src/annox/core/validate.py:19-25 | A duplicate-annotation error for (aid, item) appears iff some item with that id repeats aid among its own annotations; the same id in two items is not an error |
| Validate.ConsistencyFailuresCollected | src/annox/core/validate.py:26-29 | A consistency error is reported iff some annotation of some item fails its check with it; a failure does not stop the pass |
| Validate.ErrorsInItemOrder | src/annox/core/validate.py:14-29 | The errors of a prefix of the items are a prefix of all errors |
| Validate.SuffixOfFileName | src/annox/core/validate.py:35 | The suffix of dir/stem.ext is .ext (empty for a dot-file), and the path takes the JSONL branch iff its lower-cased extension is .jsonl |
| Validate.JsonlPathExample | src/annox/core/validate.py:35 | An upper-case .JSONL path takes the JSONL branch |
| Validate.ValidateDatasetFile | src/annox/core/validate.py:34-42 | A .jsonl path validates its line items with no categories; any other path validates the document's categories and items |
| Validate.JsonlNeverKeypointErrors | src/annox/core/validate.py:35-38 | In JSONL mode the only consistency error that can appear is a negative box origin |
| Decimal.ParseIntOfDecimal | src/annox/adapters/coco/coco.py:191 | Parsing the decimal text of any integer gives that integer back, so a loaded item id parses to its image id |
| Decimal.IntToDecimalInjective | src/annox/adapters/coco/coco.py:102 | Distinct image ids give distinct item ids |
| Decimal.ParseIntDefinedIff | src/annox/adapters/coco/coco.py:190-193 | The id parse succeeds exactly on an optional sign followed by one or more digits |
| CocoGeometry.ShoelaceArea | src/annox/adapters/coco/coco.py:24-33 | The polygon area is never negative, and is 0 with fewer than three vertices |
| CocoGeometry.ComputeShoelaceArea | src/annox/adapters/coco/coco.py:24-33 | The accumulating loop computes the shoelace area |
| CocoGeometry.RectangleArea | src/annox/adapters/coco/coco.py:24-33 | An axis-aligned rectangle's shoelace area is the absolute product of its sides |
| CocoGeometry.RectangleExample | src/annox/adapters/coco/coco.py:24-33 | The 4×3 rectangle has area 12 |
| CocoGeometry.PolyBBoxContains | src/annox/adapters/coco/coco.py:36-41 | The polygon box has w, h >= 0, every x lies in [x, x+w] and every y in [y, y+h], and the left edge is some vertex's x |
| CocoGeometry.KeypointsBBoxContains | src/annox/adapters/coco/coco.py:271-279 | The keypoint box has non-negative size, holds every x and y of the points, and is the zero box when there is no full (x, y) pair |
| CocoGeometry.KeypointsBBoxIgnoresVisibility | src/annox/adapters/coco/coco.py:272-273 | Changing only visibility values leaves the keypoint box unchanged |
| CocoGeometry.SeqMin | src/annox/adapters/coco/coco.py:39-40 | min returns an element that is at most every element |
| CocoGeometry.SeqMax | src/annox/adapters/coco/coco.py:39-40 | max returns an element that is at least every element |
| CocoLoad.ShiftSkeletonRoundTrip | src/annox/adapters/coco/coco.py:83-85 | Subtracting then adding 1 to every skeleton endpoint, or the reverse, is the identity |
| CocoLoad.ShiftedInRange | src/annox/adapters/coco/coco.py:83-85 | The 0-based skeleton is in range for n names iff the 1-based one lies in [1, n] |
| CocoLoad.LoadCategory | src/annox/adapters/coco/coco.py:80-94 | A category loads iff its 1-based skeleton fits its keypoint names. The loaded category keeps the id, names and supercategory, has a skeleton iff the source does, and is valid |
| CocoLoad.LoadCategories | src/annox/adapters/coco/coco.py:79-94 | The category list loads iff every category does, and then is the per-category results in order |
| CocoLoad.LoadCategoriesFirstError | src/annox/adapters/coco/coco.py:79-94 | A failing list reports the error of its first failing category |
| CocoLoad.LoadCategoryList | src/annox/adapters/coco/coco.py:79-94 | The category loop computes the category list or its first error |
| CocoLoad.ItemOfImage | src/annox/adapters/coco/coco.py:100-109 | An image becomes an item with no annotations whose id parses back to the image id |
| CocoLoad.ImageIndex | src/annox/adapters/coco/coco.py:98-110 | `by_image_id` has exactly the image ids as keys, and each key maps to the last image with that id |
| CocoLoad.BuildItems | src/annox/adapters/coco/coco.py:97-111 | The item loop builds one item per image and the id index |
| CocoLoad.PolygonsOf | src/annox/adapters/coco/coco.py:131 | A segmentation list converts iff every polygon is valid, and then converts point list by point list |
| CocoLoad.ConvertOne | src/annox/adapters/coco/coco.py:127-159 | The per-annotation body computes the siblings one source annotation yields |
| CocoLoad.NullCountsRejected | src/annox/adapters/coco/coco.py:135-143 | A truthy segmentation object whose counts is missing or null makes the annotation fail with InvalidRle |
| CocoLoad.NullCountsOnlyRejected | src/annox/adapters/coco/coco.py:135-143 | `{"counts": null}` alone is truthy, so the annotation fails with InvalidRle instead of yielding no mask |
| CocoLoad.ConvertAnnotations | src/annox/adapters/coco/coco.py:113-159 | The annotation loop with its per-item counters computes the specification of attaching siblings to items |
| CocoLoad.UnknownImageStep | src/annox/adapters/coco/coco.py:122-126 | An annotation whose image id names no image is skipped: items and per-item counters stay as they were |
| CocoLoad.FailedImageStep | src/annox/adapters/coco/coco.py:127-159 | When one annotation of a known image fails to convert, the whole annotation pass fails with that error |
| CocoLoad.Load | src/annox/adapters/coco/coco.py:65-162 | `load` computes the specification dataset or its first construction error |
| CocoLoad.LoadedItems | src/annox/adapters/coco/coco.py:97-111 | A loaded dataset has one item per image, in order, with id str(image id), the image's name and size (defaults included) and the dataset's category map |
| CocoLoad.UnknownImageDropped | src/annox/adapters/coco/coco.py:122-126 | An annotation whose image id is unknown changes nothing and raises nothing |
| CocoLoad.SiblingsShape | src/annox/adapters/coco/coco.py:129-159 | One source annotation yields, in order: a polygon (non-empty list) or a mask (an object with any key, a null `counts` included) or neither; a box iff `bbox` is present; keypoints iff they are non-empty. Nothing else is yielded, and all share the category id and take consecutive ids |
| CocoLoad.SiblingsSucceedIff | src/annox/adapters/coco/coco.py:129-159 | Converting one annotation succeeds iff each of its parts is constructible; a truthy segmentation object needs a given `counts` and a two-number `size` |
| CocoLoad.SiblingsValid | src/annox/adapters/coco/coco.py:129-159 | Every sibling satisfies its geometry's construction invariant |
| CocoLoad.AttachSucceedsIff | src/annox/adapters/coco/coco.py:121-159 | The annotation loop succeeds iff every annotation of a known image is constructible |
| CocoLoad.LoadSucceedsIff | src/annox/adapters/coco/coco.py:65-162 | `load` succeeds iff every category loads and every annotation of a known image is constructible |
| CocoLoad.LoadedAnnotationsNumberedValid | src/annox/adapters/coco/coco.py:113-119 | In every loaded item the annotation ids are exactly 1..k in append order, and all annotations are valid |
| CocoLoad.ShadowedImageGetsNothing | src/annox/adapters/coco/coco.py:110 | An item whose image id reappears later gets no annotations, since the later item takes them |
| CocoDump.Capabilities | src/annox/adapters/coco/coco.py:54-63 | The COCO adapter reports the base keys. det, segm_poly, segm_rle and keypoints are true, panoptic is false, and attributes stays true as in the base |
| CocoDump.DumpCategoryList | src/annox/adapters/coco/coco.py:172-185 | The category loop writes one record per category, skeleton back to 1-based |
| CocoDump.ImageIdFor | src/annox/adapters/coco/coco.py:190-193 | An item whose id is the decimal form of n dumps with image id n; an id that does not read as an integer takes its 1-based position |
| CocoDump.ImageIdMap | src/annox/adapters/coco/coco.py:188-194 | `img_id_map` has the item ids as keys, each mapping to the id computed for its last item |
| CocoDump.DumpImageList | src/annox/adapters/coco/coco.py:187-202 | The image loop computes the image records and the id map |
| CocoDump.AnnToCoco | src/annox/adapters/coco/coco.py:221-293 | A panoptic annotation lowers to nothing and every other one to one record. That record carries the start id, the image id and the category id (0 when missing), plus a box of four numbers and an area |
| CocoDump.AppendItemRecords | src/annox/adapters/coco/coco.py:208-210 | The inner loop appends one item's records, numbered on from the records so far |
| CocoDump.DumpAnnotationList | src/annox/adapters/coco/coco.py:204-210 | The annotation loop computes all records |
| CocoDump.DumpAnnotationsImageIds | src/annox/adapters/coco/coco.py:204-210 | Every dumped record carries the image id that the id map gives to one of the items |
| CocoDump.Dump | src/annox/adapters/coco/coco.py:164-219 | `dump` computes the specification document |
| CocoDump.ItemRecordsNumbered | src/annox/adapters/coco/coco.py:208-210 | One item's records number on consecutively from the start id, one per non-panoptic annotation |
| CocoDump.DumpAnnotationsNumbered | src/annox/adapters/coco/coco.py:204-210 | The dumped record ids are exactly 1..N across all items, one record per non-panoptic annotation |
| CocoDump.DumpShape | src/annox/adapters/coco/coco.py:164-219 | The dump has one image per item and one category per category. Its record ids are 1..N, and each record carries the id-map image id of its item |
| CocoDump.DumpImageIds | src/annox/adapters/coco/coco.py:189-197 | Image k's id is the parsed item id, or k+1 when the id does not parse |
| CocoDump.FallbackIdCollision | src/annox/adapters/coco/coco.py:189-194 | Items "2" and "x" both dump with image id 2: the positional fallback can collide with a parsed id |
| CocoDump.LowerBBox | src/annox/adapters/coco/coco.py:224-236 | A box record keeps [x, y, w, h] and has area w·h, iscrowd 0, an empty segmentation and no keypoints |
| CocoDump.LowerPolygon | src/annox/adapters/coco/coco.py:237-252 | A polygon record's area is the sum of the shoelace areas and its segmentation is the point lists, with iscrowd 0. Its box is the box of all points, or the zero box when there are no points |
| CocoDump.LowerEmptyPolygon | src/annox/adapters/coco/coco.py:240 | A polygon annotation without polygons lowers with the zero box and area 0 |
| CocoDump.LowerMask | src/annox/adapters/coco/coco.py:253-269 | A mask record has the zero box and area 0, and iscrowd 1 iff an RLE is present. With an RLE its segmentation carries counts and [h, w]; without one it is empty |
| CocoDump.LowerKeypoints | src/annox/adapters/coco/coco.py:270-292 | A keypoints record's box covers x and y only, its area is the box's w·h, it carries the points, and num_keypoints is len/3 |
| CocoDump.LoweredAreaNonNegative | src/annox/adapters/coco/coco.py:224-292 | A lowered valid annotation never has a negative area |
| CocoRoundTrip.CategoryRoundTrip | src/annox/adapters/coco/coco.py:80-94 | Dumping a valid category and loading the record gives the same category back |
| CocoRoundTrip.CategoriesRoundTrip | src/annox/adapters/coco/coco.py:172-185 | Dumping valid categories and loading them gives the same list back |
| CocoRoundTrip.LoadedCategoriesDumpBack | src/annox/adapters/coco/coco.py:80-94 | Loading then dumping categories gives the source records back, except that a missing name becomes str(id) |
| CocoRoundTrip.ValidIsLowerable | src/annox/adapters/coco/coco.py:237-241 | Every valid annotation can be lowered |
| CocoRoundTrip.LoadedIsLowerable | src/annox/adapters/coco/coco.py:65-162 | Everything `load` produces can be given to `dump` |
| CocoRoundTrip.ImagesRoundTrip | src/annox/adapters/coco/coco.py:187-202 | Load then dump gives back each image's id, with name and size filled in by their defaults |
| CocoRoundTrip.ReloadBBox | src/annox/adapters/coco/coco.py:224-236 | Reloading a dumped plain box gives back that box alone, with its category made explicit |
| CocoRoundTrip.PolygonsReload | src/annox/adapters/coco/coco.py:250 | Reloading dumped valid plain polygons gives them back |
| CocoRoundTrip.ReloadPolygon | src/annox/adapters/coco/coco.py:237-252 | Reloading a dumped polygon annotation gives the polygons and then their bounding box as a second sibling |
| CocoRoundTrip.ReloadMask | src/annox/adapters/coco/coco.py:253-269 | Reloading a dumped mask gives the RLE mask, without its PNG path, and then a zero box. A mask without an RLE comes back as only the zero box |
| CocoRoundTrip.ReloadKeypoints | src/annox/adapters/coco/coco.py:270-292 | Reloading dumped plain keypoints gives their box and then the same keypoints |
| CocoRoundTrip.AttachCount | src/annox/adapters/coco/coco.py:121-159 | The annotation loop adds exactly the siblings of the annotations whose image is known |
| CocoRoundTrip.RoundTripCounts | src/annox/adapters/coco/coco.py:65-219 | After loading, the annotation total is the sibling count of the known-image annotations. Dumping keeps the image and category counts and writes one record per loaded annotation |
| CocoRoundTrip.FixtureSiblingCount | tests/unit/adapters/test_coco.py:13-43 | The test document's three annotations yield five siblings |
| CocoRoundTrip.FixtureRoundTrip | tests/unit/adapters/test_coco.py:45-56 | The test document loads to 1 item with 5 annotations. It dumps to 1 image, 5 records and 2 categories, the skeleton back as [(1, 2)] |
| YoloToCoco.YoloBoxCentred | annex/converters/yolo2coco.py:69-74 | The COCO box is centred at (xc·W, yc·H), and its size is (w·W, h·H) |
| YoloToCoco.YoloBoxRoundTrip | annex/converters/yolo2coco.py:69-74 | For positive image sizes, the inverse conversion recovers the YOLO box |
| YoloToCoco.CocoBoxRoundTrip | annex/converters/yolo2coco.py:69-74 | For positive image sizes, converting an inverted COCO box gives it back |
| YoloToCoco.Trunc | annex/converters/yolo2coco.py:47 | `int()` on a float truncates toward zero |
| YoloToCoco.TruncatedNamesCollide | annex/converters/yolo2coco.py:42-47 | Class ids 1.0 and 1.5 are distinct keys but get the same name, and -0.5 and 0.5 are both class_0 |
| YoloToCoco.TxtFiles | annex/converters/yolo2coco.py:7 | Every kept entry ends in .txt and is an entry, every .txt entry is kept, and no more entries than listed |
| YoloToCoco.TxtFilesConcat | annex/converters/yolo2coco.py:7 | The filter distributes over concatenation, so kept entries stay in listing order with their repeats |
| YoloToCoco.TxtFilesSingle | annex/converters/yolo2coco.py:7 | A single entry is kept exactly when its name ends in .txt |
| YoloToCoco.ImageNameOfLabel | annex/converters/yolo2coco.py:20 | The image name of stem.txt is the image name of stem followed by .jpg |
| YoloToCoco.ImageNameUnchanged | annex/converters/yolo2coco.py:20 | A name without ".txt" is its own image name |
| YoloToCoco.ImageNameReplacesAll | annex/converters/yolo2coco.py:20 | Every ".txt" is replaced, so a.txt.txt names a.jpg.jpg |
| YoloToCoco.FlatPlacement | annex/converters/yolo2coco.py:18-38 | Line l of file k is at position LineCount(files[..k]) + l of the line stream, placed in image k+1 with that file's size |
| YoloToCoco.SeeClass | annex/converters/yolo2coco.py:42-50 | After a line's class check, its class id is mapped; earlier mappings and the annotations are unchanged |
| YoloToCoco.ConvertFileLines | annex/converters/yolo2coco.py:36-63 | The line loop of one file extends the state exactly as the specification run over that file's lines |
| YoloToCoco.ConvertLine | annex/converters/yolo2coco.py:39-63 | One label line registers its class id as category `len(mapping) + 1` when unseen and then emits its box with the next annotation id: the state after it is one step of the specification run |
| YoloToCoco.ConvertYoloToCoco | annex/converters/yolo2coco.py:6-63 | The converter's loops compute the specification document |
| YoloToCoco.FirstSeenProperties | annex/converters/yolo2coco.py:42-44 | The first-seen list of class ids has no repeats and holds exactly the ids that occur |
| YoloToCoco.AnnotationIdsSequential | annex/converters/yolo2coco.py:16-63 | There is one annotation per line across all files, with ids 1, 2, … in line order |
| YoloToCoco.ImageIds | annex/converters/yolo2coco.py:18-33 | The image of the file at position idx has id idx+1, the .jpg name and the given size |
| YoloToCoco.LineAnnotation | annex/converters/yolo2coco.py:52-63 | The annotation of line l of file k has the next id, image id k+1 and the converted box. Its category id names one of the created categories, whose name is class_<int(class id)> |
| YoloToCoco.AnnotationForFields | annex/converters/yolo2coco.py:54-61 | An annotation's area is bbox[2]·bbox[3] and its iscrowd is 0 |
| YoloToCoco.CategoriesFirstSeen | annex/converters/yolo2coco.py:42-50 | There is one category per distinct class id, in first-seen order, with id i+1, name class_<int(c)> and supercategory none. Every class id that occurs has one |
| YoloToCoco.CategoryIdsSequential | annex/converters/yolo2coco.py:43 | Category ids are 1, 2, … in creation order |

## Behaviour that differs from the prose description and the tests

- **Five annotations, not three.** The round-trip test at tests/unit/adapters/test_coco.py:49-55
  asserts 3 annotations after loading and after dumping. The code appends one sibling per part:
  - annotation 102 yields a polygon and a box;
  - annotation 103 yields a box and keypoints.

  So the fixture loads to 5. The model follows the code (`CocoRoundTrip.FixtureRoundTrip`).
- **Dumped image ids can collide.** The fallback to the 1-based position can give an item the same
  COCO image id as an item whose id parses (`CocoDump.FallbackIdCollision`). When item ids repeat,
  all their records carry the last such item's image id.
- **Item and image order.** Every item keeps its place in the item list, and the last image with a
  given id takes that id's annotations (`CocoLoad.ShadowedImageGetsNothing`).

## Left out

- File system and JSON: the `is_dir`/`annotations.json` lookup, `mkdir`, `load_json`/`dump_json`
  and JSONL reading. `load` and `dump` work on an already-parsed document, and
  `validate_dataset_file` receives what would be read as a parameter.
- Pydantic coercion: `int(...)`/`float(...)` on JSON values, `model_validate`, and the `KeyError`
  on a missing `id` or `image_id`. Records arrive with the types the code converts them to.
- `Decimal.ParseInt`: models `int(str)` as an optional sign plus ASCII digits only. It does not
  model surrounding whitespace, underscores or non-ASCII digits.
- An RLE object with any key whose `counts` is missing or null (`{"counts": null}` included), or
  whose `size` is not two numbers, is one rejection (`InvalidRle`) rather than pydantic's distinct
  messages. RLE `counts` are opaque.
- CocoLoad.LoadCategory: an explicit `"name": null` is not representable (the field is absent or a
  string); the source passes None to a `str` field and pydantic raises, the model never sees it.
- CocoLoad.ItemOfImage: an explicit null `file_name`, `width` or `height` is not representable
  either; in the source it reaches pydantic or `int(None)` and raises.
- `schema_version`, licenses, splits and annotation `attributes` are not modelled: no core
  operation reads them. The `info`/`licenses` keys of the dumped document are constants and are
  left out.
- `CocoDump.Dump` requires that every annotation can be lowered: polygons not of length 1 in
  total. Every loaded or validly built annotation meets this (`CocoRoundTrip.ValidIsLowerable`).
  The `ValueError` the Python raises on a lone coordinate is not modelled.
- Items that `load` shares through `by_image_id` are modelled by their index in the item list,
  not as aliased objects.
- The image-size width and height are not constrained to be non-negative, since the source
  does not check them.
- YOLO converter: `os.listdir` order is an input (the entry sequence), and PIL's image size is a
  field of each file. An unparsable line or a NaN/infinite class id is not modelled. The name is
  taken as the `basename` of the joined path, since entry names hold no directory separators.
- The plugin registry, CLI, process pool, Rust shim and panoptic placeholder are outside this
  core. The panoptic annotation variant is modelled, but only as a record that passes through.
- Floating point: coordinates and areas are exact reals, so rounding is not modelled.
