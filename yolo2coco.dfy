/**
 * The legacy YOLO to COCO converter (annex/converters/yolo2coco.py): every `.txt`
 * label file of a directory becomes one COCO image, every label line one box
 * annotation, and every distinct class id one category.
 *
 * The directory listing, the image sizes read with PIL and the parsed label
 * lines are inputs; the JSON document written at the end is the returned `Coco`.
 */
module YoloToCoco {
  import opened Wrappers
  import opened Decimal
  import opened CocoFormat
  import CocoDump

  // ------------------------------------------------------------ the box

  /**
   * `yolo_box_to_coco_box`: a centre/size box in image fractions becomes a
   * corner/size box in pixels of a `width` by `height` image.
   */
  function YoloBoxToCocoBox(yoloBox: seq<real>, width: real, height: real): (box: seq<real>)
    requires |yoloBox| == 4
    ensures |box| == 4
  {
    var xCenter, yCenter, w, h := yoloBox[0], yoloBox[1], yoloBox[2], yoloBox[3];
    [(xCenter - w / 2.0) * width, (yCenter - h / 2.0) * height, w * width, h * height]
  }

  /** The inverse conversion, from a pixel corner/size box back to YOLO fractions. */
  function CocoBoxToYoloBox(box: seq<real>, width: real, height: real): (yoloBox: seq<real>)
    requires |box| == 4 && width != 0.0 && height != 0.0
    ensures |yoloBox| == 4
  {
    [(box[0] + box[2] / 2.0) / width, (box[1] + box[3] / 2.0) / height, box[2] / width, box[3] / height]
  }

  /** The COCO box has the YOLO centre and size, scaled to pixels. */
  lemma YoloBoxCentred(yoloBox: seq<real>, width: real, height: real)
    requires |yoloBox| == 4
    ensures var box := YoloBoxToCocoBox(yoloBox, width, height);
      && box[0] + box[2] / 2.0 == yoloBox[0] * width
      && box[1] + box[3] / 2.0 == yoloBox[1] * height
      && box[2] == yoloBox[2] * width
      && box[3] == yoloBox[3] * height
  {
  }

  /** For a non-empty image, converting to COCO and back gives the YOLO box again. */
  lemma YoloBoxRoundTrip(yoloBox: seq<real>, width: real, height: real)
    requires |yoloBox| == 4 && width > 0.0 && height > 0.0
    ensures CocoBoxToYoloBox(YoloBoxToCocoBox(yoloBox, width, height), width, height) == yoloBox
  {
    YoloBoxCentred(yoloBox, width, height);
    var box := YoloBoxToCocoBox(yoloBox, width, height);
    var back := CocoBoxToYoloBox(box, width, height);
    ScaleBack(yoloBox[0], width);
    ScaleBack(yoloBox[1], height);
    ScaleBack(yoloBox[2], width);
    ScaleBack(yoloBox[3], height);
    assert back[0] == (yoloBox[0] * width) / width;
    assert back[1] == (yoloBox[1] * height) / height;
    assert back[2] == (yoloBox[2] * width) / width;
    assert back[3] == (yoloBox[3] * height) / height;
    assert forall i :: 0 <= i < 4 ==> back[i] == yoloBox[i];
  }

  lemma ScaleBack(x: real, scale: real)
    requires scale != 0.0
    ensures (x * scale) / scale == x
  {
  }

  lemma ScaleForth(x: real, scale: real)
    requires scale != 0.0
    ensures (x / scale) * scale == x
  {
  }

  /** And converting a COCO box to YOLO and back gives the COCO box again. */
  lemma CocoBoxRoundTrip(box: seq<real>, width: real, height: real)
    requires |box| == 4 && width > 0.0 && height > 0.0
    ensures YoloBoxToCocoBox(CocoBoxToYoloBox(box, width, height), width, height) == box
  {
    var y := CocoBoxToYoloBox(box, width, height);
    var again := YoloBoxToCocoBox(y, width, height);
    ScaleForth(box[0] + box[2] / 2.0, width);
    ScaleForth(box[1] + box[3] / 2.0, height);
    ScaleForth(box[2], width);
    ScaleForth(box[3], height);
    YoloBoxCentred(y, width, height);
    assert y[0] * width == box[0] + box[2] / 2.0 && y[2] * width == box[2];
    assert y[1] * height == box[1] + box[3] / 2.0 && y[3] * height == box[3];
    assert again[0] + again[2] / 2.0 == box[0] + box[2] / 2.0;
    assert again[1] + again[3] / 2.0 == box[1] + box[3] / 2.0;
  }

  // ------------------------------------------------------------ classes

  /** `int(x)` of a float: truncation toward zero. */
  function Trunc(x: real): (t: int)
    ensures x >= 0.0 ==> t as real <= x < t as real + 1.0
    ensures x < 0.0 ==> t as real - 1.0 < x <= t as real
  {
    if x >= 0.0 then x.Floor else -((-x).Floor)
  }

  /** `f"class_{int(class_id)}"`. */
  function ClassName(classId: real): string {
    "class_" + IntToDecimal(Trunc(classId))
  }

  function CategoryFor(classId: real, id: int): CocoCategory {
    CocoCategory(id, Some(ClassName(classId)), Some("none"), None, None)
  }

  /** Two class ids that truncate alike get two categories with the same name. */
  lemma TruncatedNamesCollide()
    ensures ClassName(1.0) == ClassName(1.5) && 1.0 != 1.5
    ensures ClassName(-0.5) == ClassName(0.5) == "class_0"
  {
  }

  // ----------------------------------------------------- files and names

  datatype YoloLine = YoloLine(classId: real, xCenter: real, yCenter: real, width: real, height: real)

  /**
   * One directory entry: its name and, for a `.txt` label file, the size of the
   * image with the same stem and the parsed lines of the file.
   */
  datatype YoloFile = YoloFile(name: string, imageWidth: nat, imageHeight: nat, lines: seq<YoloLine>)

  predicate EndsWith(s: string, suffix: string) {
    |suffix| <= |s| && s[|s| - |suffix|..] == suffix
  }

  /** `[f for f in os.listdir(input_dir) if f.endswith('.txt')]`, in listing order. */
  function TxtFiles(entries: seq<YoloFile>): (files: seq<YoloFile>)
    ensures |files| <= |entries|
    ensures forall k :: 0 <= k < |files| ==> EndsWith(files[k].name, ".txt") && files[k] in entries
    ensures forall k :: 0 <= k < |entries| && EndsWith(entries[k].name, ".txt") ==> entries[k] in files
  {
    if entries == [] then []
    else
      var n := |entries| - 1;
      var prev := TxtFiles(entries[..n]);
      assert forall k :: 0 <= k < n ==> entries[..n][k] == entries[k];
      prev + (if EndsWith(entries[n].name, ".txt") then [entries[n]] else [])
  }

  /**
   * The filter keeps listing order and repeats: it distributes over concatenation,
   * and one entry is kept exactly when its name ends in ".txt".
   */
  lemma {:induction false} TxtFilesConcat(a: seq<YoloFile>, b: seq<YoloFile>)
    ensures TxtFiles(a + b) == TxtFiles(a) + TxtFiles(b)
  {
    if b == [] {
      assert a + b == a;
    } else {
      var n := |b| - 1;
      assert (a + b)[..|a + b| - 1] == a + b[..n];
      assert (a + b)[|a + b| - 1] == b[n];
      TxtFilesConcat(a, b[..n]);
    }
  }

  lemma TxtFilesSingle(e: YoloFile)
    ensures TxtFiles([e]) == if EndsWith(e.name, ".txt") then [e] else []
  {
    assert [e][..0] == [];
  }

  /** `s.replace(pattern, replacement)`: every non-overlapping occurrence, from the left. */
  function ReplaceAll(s: string, pattern: string, replacement: string): string
    requires |pattern| > 0
    decreases |s|
  {
    if |s| < |pattern| then s
    else if s[..|pattern|] == pattern then replacement + ReplaceAll(s[|pattern|..], pattern, replacement)
    else [s[0]] + ReplaceAll(s[1..], pattern, replacement)
  }

  /** The image of a label file: its name with every `.txt` replaced by `.jpg`. */
  function ImageName(labelName: string): string {
    ReplaceAll(labelName, ".txt", ".jpg")
  }

  /** A trailing `.txt` becomes `.jpg`, whatever precedes it. */
  lemma {:induction false} ImageNameOfLabel(stem: string)
    ensures ImageName(stem + ".txt") == ImageName(stem) + ".jpg"
    decreases |stem|
  {
    var s := stem + ".txt";
    if |stem| == 0 {
      assert s == ".txt";
      assert s[4..] == [];
    } else if |stem| < 4 {
      assert s[..4] != ".txt" by {
        assert s[|stem|] == '.';
        assert ".txt"[|stem|] != '.';
      }
      assert s[1..] == stem[1..] + ".txt";
      ImageNameOfLabel(stem[1..]);
      assert ImageName(stem[1..]) == stem[1..];
      assert ImageName(stem) == stem;
      assert [stem[0]] + stem[1..] == stem;
    } else if s[..4] == ".txt" {
      assert stem[..4] == s[..4];
      assert s[4..] == stem[4..] + ".txt";
      ImageNameOfLabel(stem[4..]);
    } else {
      assert stem[..4] == s[..4];
      assert s[1..] == stem[1..] + ".txt";
      ImageNameOfLabel(stem[1..]);
    }
  }

  /** `s` has no occurrence of `.txt`. */
  predicate NoTxt(s: string)
    decreases |s|
  {
    |s| < 4 || (s[..4] != ".txt" && NoTxt(s[1..]))
  }

  /** A name without `.txt` in it is left alone. */
  lemma {:induction false} ImageNameUnchanged(s: string)
    requires NoTxt(s)
    ensures ImageName(s) == s
    decreases |s|
  {
    if |s| >= 4 {
      ImageNameUnchanged(s[1..]);
    }
  }

  lemma ImageNameExample()
    ensures ImageName("img.txt") == "img.jpg"
  {
    assert "img.txt" == "img" + ".txt";
    ImageNameOfLabel("img");
    assert ImageName("img") == "img";
  }

  /** Every occurrence is replaced, not only the last one. */
  lemma ImageNameReplacesAll()
    ensures ImageName("a.txt.txt") == "a.jpg.jpg"
  {
    assert ImageName("a.txt") == "a.jpg" by {
      assert "a.txt" == "a" + ".txt";
      ImageNameOfLabel("a");
      assert ImageName("a") == "a";
    }
    assert "a.txt.txt" == "a.txt" + ".txt";
    ImageNameOfLabel("a.txt");
  }

  /** `image_info` of the file at position `idx`. */
  function ImageOf(f: YoloFile, idx: nat): CocoImage {
    CocoImage(idx + 1, Some(ImageName(f.name)), Some(f.imageWidth), Some(f.imageHeight))
  }

  function Images(files: seq<YoloFile>): (images: seq<CocoImage>)
    ensures |images| == |files|
  {
    seq(|files|, k requires 0 <= k < |files| => ImageOf(files[k], k))
  }

  // ---------------------------------------------------- the line stream

  /** A label line together with the id and size of the image it belongs to. */
  datatype Placed = Placed(imageId: int, imageWidth: nat, imageHeight: nat, line: YoloLine)

  function PlacedLines(f: YoloFile, imageId: int): (ps: seq<Placed>)
    ensures |ps| == |f.lines|
  {
    seq(|f.lines|, l requires 0 <= l < |f.lines| => Placed(imageId, f.imageWidth, f.imageHeight, f.lines[l]))
  }

  /** All label lines in processing order: file by file, line by line. */
  function Flat(files: seq<YoloFile>): seq<Placed> {
    if files == [] then []
    else
      var n := |files| - 1;
      Flat(files[..n]) + PlacedLines(files[n], n + 1)
  }

  /** The number of label lines of the files. */
  function LineCount(files: seq<YoloFile>): nat {
    if files == [] then 0 else LineCount(files[..|files| - 1]) + |files[|files| - 1].lines|
  }

  /** Line `l` of file `k` is entry `LineCount(files[..k]) + l` of the stream, placed on image `k + 1`. */
  lemma {:induction false} FlatPlacement(files: seq<YoloFile>, k: nat, l: nat)
    requires k < |files| && l < |files[k].lines|
    ensures |Flat(files)| == LineCount(files)
    ensures LineCount(files[..k]) + l < |Flat(files)|
    ensures Flat(files)[LineCount(files[..k]) + l] ==
      Placed(k + 1, files[k].imageWidth, files[k].imageHeight, files[k].lines[l])
  {
    var n := |files| - 1;
    FlatLength(files[..n]);
    if k < n {
      FlatPlacement(files[..n], k, l);
      assert files[..n][..k] == files[..k];
    } else {
      assert files[..n] == files[..k];
    }
  }

  lemma {:induction false} FlatLength(files: seq<YoloFile>)
    ensures |Flat(files)| == LineCount(files)
  {
    if files != [] {
      FlatLength(files[..|files| - 1]);
    }
  }

  // ------------------------------------------------ the conversion state

  /** The records written so far, `category_mapping` and `annotation_id`. */
  datatype Acc = Acc(annotations: seq<CocoAnnotation>, categories: seq<CocoCategory>, mapping: map<real, int>, nextId: int)

  /** `annotation_info`: a box annotation with its area and `iscrowd` 0. */
  function AnnotationFor(id: int, imageId: int, categoryId: int, bbox: seq<real>): CocoAnnotation
    requires |bbox| == 4
  {
    CocoAnnotation(id, imageId, Some(categoryId), NoSegmentation, Some(bbox), Some(CocoDump.BoxArea(bbox)), Some(0), None, None)
  }

  /** The COCO box of a label line on a `width` by `height` image. */
  function LineBox(line: YoloLine, width: nat, height: nat): (box: seq<real>)
    ensures |box| == 4
  {
    YoloBoxToCocoBox([line.xCenter, line.yCenter, line.width, line.height], width as real, height as real)
  }

  function PlacedBox(p: Placed): (box: seq<real>)
    ensures |box| == 4
  {
    LineBox(p.line, p.imageWidth, p.imageHeight)
  }

  /** `if class_id not in category_mapping`: a new category, numbered one past the mapping. */
  function SeeClass(acc: Acc, c: real): (r: Acc)
    ensures c in r.mapping
    ensures forall d :: d in acc.mapping ==> d in r.mapping && r.mapping[d] == acc.mapping[d]
    ensures r.annotations == acc.annotations && r.nextId == acc.nextId
  {
    if c in acc.mapping then acc
    else
      var id := |acc.mapping| + 1;
      Acc(acc.annotations, acc.categories + [CategoryFor(c, id)], acc.mapping[c := id], acc.nextId)
  }

  /** The box annotation of one line, with the next annotation id. */
  function Emit(acc: Acc, p: Placed): Acc
    requires p.line.classId in acc.mapping
  {
    Acc(acc.annotations + [AnnotationFor(acc.nextId, p.imageId, acc.mapping[p.line.classId], PlacedBox(p))],
        acc.categories, acc.mapping, acc.nextId + 1)
  }

  /** One line: a new category for an unseen class id, then the box annotation. */
  function Step(acc: Acc, p: Placed): Acc {
    Emit(SeeClass(acc, p.line.classId), p)
  }

  function Initial(): Acc {
    Acc([], [], map[], 1)
  }

  /** The state after the given lines, starting from nothing and `annotation_id = 1`. */
  function Run(ps: seq<Placed>): Acc {
    if ps == [] then Initial() else Step(Run(ps[..|ps| - 1]), ps[|ps| - 1])
  }

  /** `convert_yolo_to_coco` on a directory listing, as the document it writes. */
  function Convert(entries: seq<YoloFile>): Coco {
    var files := TxtFiles(entries);
    var acc := Run(Flat(files));
    Coco(Images(files), acc.annotations, acc.categories)
  }

  lemma RunSnoc(ps: seq<Placed>, p: Placed)
    ensures Run(ps + [p]) == Step(Run(ps), p)
  {
    assert (ps + [p])[..|ps|] == ps;
  }

  lemma ImagesSnoc(files: seq<YoloFile>)
    requires files != []
    ensures Images(files) == Images(files[..|files| - 1]) + [ImageOf(files[|files| - 1], |files| - 1)]
  {
  }

  /** One more file adds its image record and its lines to the stream. */
  lemma FileStep(files: seq<YoloFile>, idx: nat)
    requires idx < |files|
    ensures Images(files[..idx + 1]) == Images(files[..idx]) + [ImageOf(files[idx], idx)]
    ensures Flat(files[..idx + 1]) == Flat(files[..idx]) + PlacedLines(files[idx], idx + 1)
  {
    assert files[..idx + 1][..idx] == files[..idx];
    ImagesSnoc(files[..idx + 1]);
  }

  /** One label line: register its class if new, then emit its box annotation. */
  method ConvertLine(line: YoloLine, imageId: int, width: nat, height: nat,
                     annotations0: seq<CocoAnnotation>, categories0: seq<CocoCategory>,
                     mapping0: map<real, int>, annotationId0: int)
    returns (annotations: seq<CocoAnnotation>, categories: seq<CocoCategory>, mapping: map<real, int>, annotationId: int)
    ensures Acc(annotations, categories, mapping, annotationId) ==
      Step(Acc(annotations0, categories0, mapping0, annotationId0), Placed(imageId, width, height, line))
  {
    annotations, categories, mapping, annotationId := annotations0, categories0, mapping0, annotationId0;
    var classId := line.classId;
    if classId !in mapping {
      var categoryId := |mapping| + 1;
      mapping := mapping[classId := categoryId];
      categories := categories + [CategoryFor(classId, categoryId)];
    }
    assert Acc(annotations, categories, mapping, annotationId) ==
      SeeClass(Acc(annotations0, categories0, mapping0, annotationId0), classId);
    var bbox := YoloBoxToCocoBox([line.xCenter, line.yCenter, line.width, line.height], width as real, height as real);
    assert bbox == PlacedBox(Placed(imageId, width, height, line));
    annotations := annotations + [AnnotationFor(annotationId, imageId, mapping[classId], bbox)];
    annotationId := annotationId + 1;
  }

  /**
   * The inner loop of `convert_yolo_to_coco` over the lines of the label file at
   * position `idx`, continuing the state reached after the lines `before`.
   */
  method ConvertFileLines(f: YoloFile, idx: nat, ghost before: seq<Placed>,
                          annotations0: seq<CocoAnnotation>, categories0: seq<CocoCategory>,
                          mapping0: map<real, int>, annotationId0: int)
    returns (annotations: seq<CocoAnnotation>, categories: seq<CocoCategory>, mapping: map<real, int>, annotationId: int)
    requires Acc(annotations0, categories0, mapping0, annotationId0) == Run(before)
    ensures Acc(annotations, categories, mapping, annotationId) == Run(before + PlacedLines(f, idx + 1))
  {
    annotations, categories, mapping, annotationId := annotations0, categories0, mapping0, annotationId0;
    ghost var placed := PlacedLines(f, idx + 1);
    var lines := f.lines;
    var j := 0;
    ghost var seen := before;
    assert before + placed[..0] == before;
    while j < |lines|
      invariant 0 <= j <= |lines|
      invariant seen == before + placed[..j]
      invariant Acc(annotations, categories, mapping, annotationId) == Run(seen)
    {
      ghost var p := placed[j];
      assert p == Placed(idx + 1, f.imageWidth, f.imageHeight, lines[j]);
      annotations, categories, mapping, annotationId :=
        ConvertLine(lines[j], idx + 1, f.imageWidth, f.imageHeight, annotations, categories, mapping, annotationId);
      RunSnoc(seen, p);
      assert seen + [p] == before + placed[..j + 1];
      seen := seen + [p];
      j := j + 1;
    }
    assert placed[..|lines|] == placed;
  }

  /** `convert_yolo_to_coco`: the loop over the label files. */
  method ConvertYoloToCoco(entries: seq<YoloFile>) returns (coco: Coco)
    ensures coco == Convert(entries)
  {
    var files := TxtFiles(entries);
    var images: seq<CocoImage> := [];
    var annotations: seq<CocoAnnotation> := [];
    var categories: seq<CocoCategory> := [];
    var mapping: map<real, int> := map[];
    var annotationId := 1;
    var idx := 0;
    while idx < |files|
      invariant 0 <= idx <= |files|
      invariant images == Images(files[..idx])
      invariant Acc(annotations, categories, mapping, annotationId) == Run(Flat(files[..idx]))
    {
      var f := files[idx];
      FileStep(files, idx);
      images := images + [ImageOf(f, idx)];
      annotations, categories, mapping, annotationId :=
        ConvertFileLines(f, idx, Flat(files[..idx]), annotations, categories, mapping, annotationId);
      idx := idx + 1;
    }
    assert files[..idx] == files;
    coco := Coco(images, annotations, categories);
  }

  // ------------------------------------------------- what the run builds

  /** The class ids in order of first appearance, each once. */
  function FirstSeen(cs: seq<real>): seq<real> {
    if cs == [] then []
    else
      var prev := FirstSeen(cs[..|cs| - 1]);
      prev + (if cs[|cs| - 1] in prev then [] else [cs[|cs| - 1]])
  }

  predicate Distinct(s: seq<real>) {
    forall i, j :: 0 <= i < j < |s| ==> s[i] != s[j]
  }

  /** The first-seen list has no repeats and holds exactly the class ids that occur. */
  lemma {:induction false} FirstSeenProperties(cs: seq<real>)
    ensures Distinct(FirstSeen(cs))
    ensures forall c :: c in FirstSeen(cs) <==> c in cs
  {
    if cs != [] {
      var n := |cs| - 1;
      FirstSeenProperties(cs[..n]);
      assert cs == cs[..n] + [cs[n]];
    }
  }

  function ClassIds(ps: seq<Placed>): (cs: seq<real>)
    ensures |cs| == |ps|
  {
    seq(|ps|, j requires 0 <= j < |ps| => ps[j].line.classId)
  }

  /**
   * The categories built so far: one per distinct class id in first-seen order,
   * numbered 1, 2, ...; the mapping sends each class id to its category id.
   */
  ghost predicate CategoriesFor(acc: Acc, seen: seq<real>) {
    && |acc.categories| == |seen| == |acc.mapping|
    && (forall c :: c in acc.mapping <==> c in seen)
    && (forall i :: 0 <= i < |seen| ==> acc.mapping[seen[i]] == i + 1)
    && (forall i :: 0 <= i < |seen| ==> acc.categories[i] == CategoryFor(seen[i], i + 1))
  }

  /** Annotation `j` is numbered `j + 1` and holds the box and image of line `j`. */
  predicate AnnotationsFor(acc: Acc, ps: seq<Placed>) {
    && |acc.annotations| == |ps|
    && acc.nextId == |ps| + 1
    && forall j :: 0 <= j < |ps| ==>
      && ps[j].line.classId in acc.mapping
      && acc.annotations[j] == AnnotationFor(j + 1, ps[j].imageId, acc.mapping[ps[j].line.classId], PlacedBox(ps[j]))
  }

  lemma {:induction false} RunShape(ps: seq<Placed>)
    ensures CategoriesFor(Run(ps), FirstSeen(ClassIds(ps)))
    ensures AnnotationsFor(Run(ps), ps)
  {
    if ps != [] {
      var n := |ps| - 1;
      assert ps[..n] + [ps[n]] == ps;
      RunShape(ps[..n]);
      FirstSeenProperties(ClassIds(ps[..n]));
      StepShape(Run(ps[..n]), ps[..n], ps[n]);
    }
  }

  lemma SeeShape(acc: Acc, seen: seq<real>, c: real)
    requires CategoriesFor(acc, seen) && Distinct(seen)
    ensures CategoriesFor(SeeClass(acc, c), seen + (if c in seen then [] else [c]))
  {
    if c !in seen {
      assert forall i :: 0 <= i < |seen| ==> seen[i] != c;
    }
  }

  /** Growing the mapping keeps the earlier annotations described. */
  lemma SeeKeepsAnnotations(acc: Acc, ps: seq<Placed>, c: real)
    requires AnnotationsFor(acc, ps)
    ensures AnnotationsFor(SeeClass(acc, c), ps)
  {
  }

  lemma EmitShape(acc: Acc, ps: seq<Placed>, p: Placed)
    requires AnnotationsFor(acc, ps) && p.line.classId in acc.mapping
    ensures AnnotationsFor(Emit(acc, p), ps + [p])
  {
    var after := Emit(acc, p);
    forall j | 0 <= j < |ps| + 1
      ensures (ps + [p])[j].line.classId in after.mapping
      ensures after.annotations[j] ==
        AnnotationFor(j + 1, (ps + [p])[j].imageId, after.mapping[(ps + [p])[j].line.classId], PlacedBox((ps + [p])[j]))
    {
      if j < |ps| {
        assert (ps + [p])[j] == ps[j];
      }
    }
  }

  lemma FirstSeenSnoc(ps: seq<Placed>, p: Placed)
    ensures FirstSeen(ClassIds(ps + [p])) ==
      FirstSeen(ClassIds(ps)) + (if p.line.classId in FirstSeen(ClassIds(ps)) then [] else [p.line.classId])
  {
    assert ClassIds(ps + [p])[..|ps|] == ClassIds(ps);
  }

  lemma StepShape(acc: Acc, ps: seq<Placed>, p: Placed)
    requires CategoriesFor(acc, FirstSeen(ClassIds(ps))) && AnnotationsFor(acc, ps)
    requires Distinct(FirstSeen(ClassIds(ps)))
    ensures CategoriesFor(Step(acc, p), FirstSeen(ClassIds(ps + [p])))
    ensures AnnotationsFor(Step(acc, p), ps + [p])
  {
    var c := p.line.classId;
    var seen := FirstSeen(ClassIds(ps));
    var seen' := seen + (if c in seen then [] else [c]);
    var mid := SeeClass(acc, c);
    assert Step(acc, p) == Emit(mid, p);
    FirstSeenSnoc(ps, p);
    assert FirstSeen(ClassIds(ps + [p])) == seen';
    SeeShape(acc, seen, c);
    EmitKeepsCategories(mid, seen', p);
    SeeKeepsAnnotations(acc, ps, c);
    EmitShape(mid, ps, p);
  }

  lemma EmitKeepsCategories(acc: Acc, seen: seq<real>, p: Placed)
    requires CategoriesFor(acc, seen) && p.line.classId in acc.mapping
    ensures CategoriesFor(Emit(acc, p), seen)
  {
    var after := Emit(acc, p);
    assert after.categories == acc.categories && after.mapping == acc.mapping;
  }

  // ------------------------------------------------------ the properties

  /** Annotation ids run 1, 2, ... over all lines of all files. */
  lemma AnnotationIdsSequential(entries: seq<YoloFile>)
    ensures var files := TxtFiles(entries);
      && |Convert(entries).annotations| == LineCount(files)
      && forall j :: 0 <= j < |Convert(entries).annotations| ==> Convert(entries).annotations[j].id == j + 1
  {
    var files := TxtFiles(entries);
    RunShape(Flat(files));
    FlatLength(files);
  }

  /** The image of the label file at position `k` has id `k + 1` and the `.jpg` name. */
  lemma ImageIds(entries: seq<YoloFile>)
    ensures var files := TxtFiles(entries);
      && |Convert(entries).images| == |files|
      && forall k :: 0 <= k < |files| ==>
        Convert(entries).images[k] == CocoImage(k + 1, Some(ImageName(files[k].name)),
                                                Some(files[k].imageWidth), Some(files[k].imageHeight))
  {
  }

  /**
   * Line `l` of label file `k` becomes annotation `LineCount(files[..k]) + l` of the
   * run over all lines (the annotations `Convert` writes for `files == TxtFiles(entries)`):
   * the record numbered one more, on image `k + 1`, with the converted box and the
   * category made for its class id (see `AnnotationForFields` for its fields).
   */
  lemma LineAnnotation(files: seq<YoloFile>, k: nat, l: nat)
    requires k < |files| && l < |files[k].lines|
    ensures var acc := Run(Flat(files));
      var j := LineCount(files[..k]) + l;
      && j < |acc.annotations|
      && acc.annotations[j].categoryId.Some?
      && acc.annotations[j] == AnnotationFor(j + 1, k + 1, acc.annotations[j].categoryId.value,
                                             LineBox(files[k].lines[l], files[k].imageWidth, files[k].imageHeight))
      && 1 <= acc.annotations[j].categoryId.value <= |acc.categories|
      && acc.categories[acc.annotations[j].categoryId.value - 1].name == Some(ClassName(files[k].lines[l].classId))
  {
    var j := LineCount(files[..k]) + l;
    var line := files[k].lines[l];
    var p := Placed(k + 1, files[k].imageWidth, files[k].imageHeight, line);
    FlatPlacement(files, k, l);
    PlacedAnnotation(Flat(files), j, p);
  }

  /** `RunAnnotation` for a line whose placement is known. */
  lemma PlacedAnnotation(ps: seq<Placed>, j: nat, p: Placed)
    requires j < |ps| && ps[j] == p
    ensures var acc := Run(ps);
      && j < |acc.annotations|
      && acc.annotations[j].categoryId.Some?
      && acc.annotations[j] == AnnotationFor(j + 1, p.imageId, acc.annotations[j].categoryId.value,
                                             LineBox(p.line, p.imageWidth, p.imageHeight))
      && 1 <= acc.annotations[j].categoryId.value <= |acc.categories|
      && acc.categories[acc.annotations[j].categoryId.value - 1].name == Some(ClassName(p.line.classId))
  {
    RunAnnotation(ps, j);
    var acc := Run(ps);
    var cat := acc.mapping[p.line.classId];
    assert acc.annotations[j] == AnnotationFor(j + 1, p.imageId, cat, PlacedBox(p));
    assert acc.annotations[j].categoryId == Some(cat);
  }

  /** An annotation record carries its ids, its box, the box's area and `iscrowd` 0. */
  lemma AnnotationForFields(id: int, imageId: int, categoryId: int, bbox: seq<real>)
    requires |bbox| == 4
    ensures var a := AnnotationFor(id, imageId, categoryId, bbox);
      && a.id == id && a.imageId == imageId && a.categoryId == Some(categoryId)
      && a.bbox == Some(bbox) && a.area == Some(bbox[2] * bbox[3]) && a.iscrowd == Some(0)
      && a.segmentation == NoSegmentation && a.keypoints.None?
  {
  }

  /** Annotation `j` of a run: line `j`'s record, whose category is the one made for its class id. */
  lemma RunAnnotation(ps: seq<Placed>, j: nat)
    requires j < |ps|
    ensures var acc := Run(ps);
      var c := ps[j].line.classId;
      && j < |acc.annotations| && c in acc.mapping
      && acc.annotations[j] == AnnotationFor(j + 1, ps[j].imageId, acc.mapping[c], PlacedBox(ps[j]))
      && 1 <= acc.mapping[c] <= |acc.categories|
      && acc.categories[acc.mapping[c] - 1] == CategoryFor(c, acc.mapping[c])
  {
    RunShape(ps);
    var seen := FirstSeen(ClassIds(ps));
    FirstSeenProperties(ClassIds(ps));
    var c := ps[j].line.classId;
    assert c == ClassIds(ps)[j];
    var i :| 0 <= i < |seen| && seen[i] == c;
  }

  /**
   * The categories are one per distinct class id, in first-seen order, numbered
   * 1, 2, ...; every class id that occurs has exactly one.
   */
  lemma CategoriesFirstSeen(entries: seq<YoloFile>)
    ensures var cs := ClassIds(Flat(TxtFiles(entries)));
      var cats := Convert(entries).categories;
      && |cats| == |FirstSeen(cs)|
      && Distinct(FirstSeen(cs))
      && (forall i :: 0 <= i < |cats| ==> cats[i] == CategoryFor(FirstSeen(cs)[i], i + 1))
      && (forall c :: c in cs <==> c in FirstSeen(cs))
  {
    var cs := ClassIds(Flat(TxtFiles(entries)));
    RunShape(Flat(TxtFiles(entries)));
    FirstSeenProperties(cs);
  }

  /** Category ids are 1, 2, ... in the order the categories are written. */
  lemma CategoryIdsSequential(entries: seq<YoloFile>)
    ensures var cats := Convert(entries).categories;
      forall i :: 0 <= i < |cats| ==> cats[i].id == i + 1
  {
    CategoriesFirstSeen(entries);
  }
}
