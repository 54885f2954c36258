/**
 * The dataset validator (src/annox/core/validate.py): one pass over the items and
 * their annotations that counts them and collects, in order, every duplicate item
 * id, every duplicate annotation id within an item and every consistency failure,
 * without stopping at the first.
 */
module Validate {
  import opened Wrappers
  import opened Decimal
  import opened Schema

  datatype ValidationError =
    | DuplicateItemId(itemId: string)
    | DuplicateAnnotationId(annotationId: int, itemId: string)
    | Inconsistent(failure: ConsistencyError)

  /** The text each error is reported with. */
  function Message(e: ValidationError): string {
    match e
    case DuplicateItemId(iid) => "Duplicate item id: " + iid
    case DuplicateAnnotationId(aid, iid) => "Duplicate annotation id " + IntToDecimal(aid) + " in item " + iid
    case Inconsistent(NegativeBBoxOrigin(iid)) => "bbox has negative coords in item " + iid
    case Inconsistent(KeypointsLengthMismatch(n, expected, name)) =>
      "keypoints length " + IntToDecimal(n) + " != expected " + IntToDecimal(expected) + " for category " + name
  }

  datatype Report = Report(items: nat, annotations: nat, errors: seq<ValidationError>)

  // ------------------------------------------------------- specification

  function ItemIds(items: seq<Item>): set<string> {
    set k | 0 <= k < |items| :: items[k].id
  }

  function AnnotationIds(anns: seq<Annotation>): set<int> {
    set k | 0 <= k < |anns| :: anns[k].id
  }

  function ConsistencyErrors(a: Annotation, item: Item): seq<ValidationError> {
    match CheckConsistency(a, item)
    case Some(e) => [Inconsistent(e)]
    case None => []
  }

  /** The errors of the inner loop after it has visited `anns`, a prefix of the item's annotations. */
  function AnnotationErrors(item: Item, anns: seq<Annotation>): seq<ValidationError> {
    if anns == [] then []
    else
      var prefix := anns[..|anns| - 1];
      var a := anns[|anns| - 1];
      AnnotationErrors(item, prefix)
        + (if a.id in AnnotationIds(prefix) then [DuplicateAnnotationId(a.id, item.id)] else [])
        + ConsistencyErrors(a, item)
  }

  /** The errors one item adds, given the items visited before it. */
  function ItemErrors(item: Item, earlier: seq<Item>): seq<ValidationError> {
    (if item.id in ItemIds(earlier) then [DuplicateItemId(item.id)] else [])
      + AnnotationErrors(item, item.annotations)
  }

  function DatasetErrors(items: seq<Item>): seq<ValidationError> {
    if items == [] then []
    else
      var prefix := items[..|items| - 1];
      DatasetErrors(prefix) + ItemErrors(items[|items| - 1], prefix)
  }

  /** The total number of annotations over all items. */
  function AnnotationCount(items: seq<Item>): nat {
    if items == [] then 0
    else AnnotationCount(items[..|items| - 1]) + |items[|items| - 1].annotations|
  }

  function ValidationReport(ds: Dataset): Report {
    Report(|ds.items|, AnnotationCount(ds.items), DatasetErrors(ds.items))
  }

  // ---------------------------------------------------------- the pass

  lemma ItemIdsSnoc(items: seq<Item>, i: nat)
    requires i < |items|
    ensures ItemIds(items[..i + 1]) == ItemIds(items[..i]) + {items[i].id}
  {
    var p, q := items[..i], items[..i + 1];
    forall id | id in ItemIds(q) ensures id in ItemIds(p) + {items[i].id} {
      var k :| 0 <= k < |q| && q[k].id == id;
      if k < i { assert p[k] == q[k]; }
    }
    forall id | id in ItemIds(p) ensures id in ItemIds(q) {
      var k :| 0 <= k < |p| && p[k].id == id;
      assert q[k] == p[k];
    }
  }

  lemma AnnotationIdsSnoc(anns: seq<Annotation>, i: nat)
    requires i < |anns|
    ensures AnnotationIds(anns[..i + 1]) == AnnotationIds(anns[..i]) + {anns[i].id}
  {
    var p, q := anns[..i], anns[..i + 1];
    forall id | id in AnnotationIds(q) ensures id in AnnotationIds(p) + {anns[i].id} {
      var k :| 0 <= k < |q| && q[k].id == id;
      if k < i { assert p[k] == q[k]; }
    }
    forall id | id in AnnotationIds(p) ensures id in AnnotationIds(q) {
      var k :| 0 <= k < |p| && p[k].id == id;
      assert q[k] == p[k];
    }
  }

  lemma AnnotationErrorsSnoc(item: Item, anns: seq<Annotation>, i: nat)
    requires i < |anns|
    ensures AnnotationErrors(item, anns[..i + 1]) == AnnotationErrors(item, anns[..i])
      + (if anns[i].id in AnnotationIds(anns[..i]) then [DuplicateAnnotationId(anns[i].id, item.id)] else [])
      + ConsistencyErrors(anns[i], item)
  {
    assert anns[..i + 1][..i] == anns[..i];
  }

  lemma DatasetSnoc(items: seq<Item>, i: nat)
    requires i < |items|
    ensures DatasetErrors(items[..i + 1]) == DatasetErrors(items[..i]) + ItemErrors(items[i], items[..i])
    ensures AnnotationCount(items[..i + 1]) == AnnotationCount(items[..i]) + |items[i].annotations|
  {
    assert items[..i + 1][..i] == items[..i];
  }

  /** The inner loop of `_validate_dataset` over one item's annotations. */
  method AnnotationPass(item: Item) returns (errors: seq<ValidationError>, count: nat)
    ensures errors == AnnotationErrors(item, item.annotations)
    ensures count == |item.annotations|
  {
    errors := [];
    count := 0;
    var seenAnn: set<int> := {};
    var j := 0;
    while j < |item.annotations|
      invariant 0 <= j <= |item.annotations|
      invariant errors == AnnotationErrors(item, item.annotations[..j])
      invariant seenAnn == AnnotationIds(item.annotations[..j])
      invariant count == j
    {
      var ann := item.annotations[j];
      AnnotationErrorsSnoc(item, item.annotations, j);
      AnnotationIdsSnoc(item.annotations, j);
      count := count + 1;
      if ann.id in seenAnn {
        errors := errors + [DuplicateAnnotationId(ann.id, item.id)];
      } else {
        seenAnn := seenAnn + {ann.id};
      }
      var failure := CheckConsistency(ann, item);
      if failure.Some? {
        errors := errors + [Inconsistent(failure.value)];
      }
      j := j + 1;
    }
    assert item.annotations[..j] == item.annotations;
  }

  /** `_validate_dataset`: the report and whether it is free of errors. */
  method ValidateDataset(ds: Dataset) returns (ok: bool, report: Report)
    ensures report == ValidationReport(ds)
    ensures ok <==> report.errors == []
  {
    var errors: seq<ValidationError> := [];
    var itemIds: set<string> := {};
    var annCount: nat := 0;
    var i := 0;
    while i < |ds.items|
      invariant 0 <= i <= |ds.items|
      invariant errors == DatasetErrors(ds.items[..i])
      invariant itemIds == ItemIds(ds.items[..i])
      invariant annCount == AnnotationCount(ds.items[..i])
    {
      var item := ds.items[i];
      DatasetSnoc(ds.items, i);
      ItemIdsSnoc(ds.items, i);
      var idErrors: seq<ValidationError> := [];
      if item.id in itemIds {
        idErrors := [DuplicateItemId(item.id)];
      } else {
        itemIds := itemIds + {item.id};
      }
      var annErrors, n := AnnotationPass(item);
      errors := errors + (idErrors + annErrors);
      annCount := annCount + n;
      i := i + 1;
    }
    assert ds.items[..i] == ds.items;
    ok := |errors| == 0;
    report := Report(|ds.items|, annCount, errors);
  }

  // ------------------------------------------------------------ lemmas

  function CountDuplicateItemErrors(errors: seq<ValidationError>): nat {
    if errors == [] then 0
    else CountDuplicateItemErrors(errors[..|errors| - 1]) + (if errors[|errors| - 1].DuplicateItemId? then 1 else 0)
  }

  lemma {:induction false} CountDuplicateItemErrorsAppend(a: seq<ValidationError>, b: seq<ValidationError>)
    ensures CountDuplicateItemErrors(a + b) == CountDuplicateItemErrors(a) + CountDuplicateItemErrors(b)
  {
    if b != [] {
      var n := |b| - 1;
      assert (a + b)[..|a + b| - 1] == a + b[..n];
      CountDuplicateItemErrorsAppend(a, b[..n]);
    } else {
      assert a + b == a;
    }
  }

  lemma {:induction false} NoDuplicateItemNoCount(errors: seq<ValidationError>)
    requires forall k :: 0 <= k < |errors| ==> !errors[k].DuplicateItemId?
    ensures CountDuplicateItemErrors(errors) == 0
  {
    if errors != [] {
      NoDuplicateItemNoCount(errors[..|errors| - 1]);
    }
  }

  lemma {:induction false} AnnotationErrorsHaveNoDuplicateItem(item: Item, anns: seq<Annotation>)
    ensures forall k :: 0 <= k < |AnnotationErrors(item, anns)| ==> !AnnotationErrors(item, anns)[k].DuplicateItemId?
  {
    if anns != [] {
      AnnotationErrorsHaveNoDuplicateItem(item, anns[..|anns| - 1]);
    }
  }

  /**
   * Every repeat occurrence of an item id adds exactly one duplicate-item error and a
   * first occurrence none: their number is the number of items less the number of
   * distinct ids.
   */
  lemma {:induction false} DuplicateItemErrorCount(items: seq<Item>)
    ensures CountDuplicateItemErrors(DatasetErrors(items)) == |items| - |ItemIds(items)|
    ensures |ItemIds(items)| <= |items|
  {
    if items != [] {
      var n := |items| - 1;
      var prefix := items[..n];
      var item := items[n];
      DuplicateItemErrorCount(prefix);
      assert items[..n + 1] == items;
      ItemIdsSnoc(items, n);
      var dup := if item.id in ItemIds(prefix) then [DuplicateItemId(item.id)] else [];
      CountDuplicateItemErrorsAppend(DatasetErrors(prefix), ItemErrors(item, prefix));
      CountDuplicateItemErrorsAppend(dup, AnnotationErrors(item, item.annotations));
      AnnotationErrorsHaveNoDuplicateItem(item, item.annotations);
      NoDuplicateItemNoCount(AnnotationErrors(item, item.annotations));
      if item.id in ItemIds(prefix) {
        assert ItemIds(items) == ItemIds(prefix);
        assert dup[..0] == [];
      } else {
        assert |ItemIds(items)| == |ItemIds(prefix)| + 1;
      }
    }
  }

  /** Some index in `anns` other than the first occurrence carries `aid`. */
  predicate RepeatsId(anns: seq<Annotation>, aid: int) {
    exists i, j :: 0 <= i < j < |anns| && anns[i].id == aid && anns[j].id == aid
  }

  lemma {:induction false} AnnotationDuplicateIff(item: Item, anns: seq<Annotation>, aid: int, iid: string)
    ensures DuplicateAnnotationId(aid, iid) in AnnotationErrors(item, anns) <==> iid == item.id && RepeatsId(anns, aid)
  {
    if anns != [] {
      var n := |anns| - 1;
      var prefix := anns[..n];
      var a := anns[n];
      var dup := if a.id in AnnotationIds(prefix) then [DuplicateAnnotationId(a.id, item.id)] else [];
      assert AnnotationErrors(item, anns) == AnnotationErrors(item, prefix) + dup + ConsistencyErrors(a, item);
      assert DuplicateAnnotationId(aid, iid) !in ConsistencyErrors(a, item);
      AnnotationDuplicateIff(item, prefix, aid, iid);
      assert anns == prefix + [a];
      RepeatsSnoc(prefix, a, aid);
    }
  }

  /** An id repeats after one more annotation iff it repeated before, or the new one reuses a seen id. */
  lemma RepeatsSnoc(prefix: seq<Annotation>, a: Annotation, aid: int)
    ensures RepeatsId(prefix + [a], aid) <==> RepeatsId(prefix, aid) || (a.id == aid && aid in AnnotationIds(prefix))
  {
    var anns := prefix + [a];
    var n := |prefix|;
    if RepeatsId(anns, aid) {
      var i, j :| 0 <= i < j < |anns| && anns[i].id == aid && anns[j].id == aid;
      if j < n {
        assert prefix[i].id == aid && prefix[j].id == aid;
      } else {
        assert prefix[i].id == aid;
        assert aid in AnnotationIds(prefix);
      }
    }
    if RepeatsId(prefix, aid) {
      var i, j :| 0 <= i < j < |prefix| && prefix[i].id == aid && prefix[j].id == aid;
      assert anns[i].id == aid && anns[j].id == aid;
    }
    if a.id == aid && aid in AnnotationIds(prefix) {
      var i :| 0 <= i < n && prefix[i].id == aid;
      assert anns[i].id == aid && anns[n].id == aid;
    }
  }

  lemma {:induction false} DatasetErrorsFrom(items: seq<Item>, e: ValidationError)
    requires e in DatasetErrors(items)
    ensures exists k :: 0 <= k < |items| && e in ItemErrors(items[k], items[..k])
  {
    var n := |items| - 1;
    var prefix := items[..n];
    assert DatasetErrors(items) == DatasetErrors(prefix) + ItemErrors(items[n], prefix);
    if e in DatasetErrors(prefix) {
      DatasetErrorsFrom(prefix, e);
      var k :| 0 <= k < n && e in ItemErrors(prefix[k], prefix[..k]);
      assert prefix[..k] == items[..k] && prefix[k] == items[k];
    } else {
      assert e in ItemErrors(items[n], items[..n]);
    }
  }

  lemma {:induction false} DatasetErrorsInclude(items: seq<Item>, e: ValidationError, k: nat)
    requires k < |items| && e in ItemErrors(items[k], items[..k])
    ensures e in DatasetErrors(items)
  {
    var n := |items| - 1;
    var prefix := items[..n];
    assert DatasetErrors(items) == DatasetErrors(prefix) + ItemErrors(items[n], prefix);
    if k < n {
      assert prefix[..k] == items[..k] && prefix[k] == items[k];
      DatasetErrorsInclude(prefix, e, k);
    }
  }

  lemma DatasetErrorsMember(items: seq<Item>, e: ValidationError)
    ensures e in DatasetErrors(items) <==> exists k :: 0 <= k < |items| && e in ItemErrors(items[k], items[..k])
  {
    if e in DatasetErrors(items) {
      DatasetErrorsFrom(items, e);
    }
    if exists k :: 0 <= k < |items| && e in ItemErrors(items[k], items[..k]) {
      var k :| 0 <= k < |items| && e in ItemErrors(items[k], items[..k]);
      DatasetErrorsInclude(items, e, k);
    }
  }

  /**
   * Duplicate annotation ids are looked for within each item only: an error for id
   * `aid` in item `iid` is reported exactly when some item with that id repeats
   * `aid` among its own annotations. The same id in two different items is no error.
   */
  lemma DuplicateAnnotationScopedPerItem(items: seq<Item>, aid: int, iid: string)
    ensures DuplicateAnnotationId(aid, iid) in DatasetErrors(items) <==>
      exists k :: 0 <= k < |items| && items[k].id == iid && RepeatsId(items[k].annotations, aid)
  {
    var e := DuplicateAnnotationId(aid, iid);
    DatasetErrorsMember(items, e);
    forall k | 0 <= k < |items|
      ensures e in ItemErrors(items[k], items[..k]) <==> items[k].id == iid && RepeatsId(items[k].annotations, aid)
    {
      AnnotationDuplicateIff(items[k], items[k].annotations, aid, iid);
    }
  }

  lemma {:induction false} AnnotationConsistencyIff(item: Item, anns: seq<Annotation>, f: ConsistencyError)
    ensures Inconsistent(f) in AnnotationErrors(item, anns) <==>
      exists j :: 0 <= j < |anns| && CheckConsistency(anns[j], item) == Some(f)
  {
    if anns != [] {
      var n := |anns| - 1;
      var prefix := anns[..n];
      var a := anns[n];
      var dup := if a.id in AnnotationIds(prefix) then [DuplicateAnnotationId(a.id, item.id)] else [];
      assert AnnotationErrors(item, anns) == AnnotationErrors(item, prefix) + dup + ConsistencyErrors(a, item);
      assert Inconsistent(f) !in dup;
      assert Inconsistent(f) in ConsistencyErrors(a, item) <==> CheckConsistency(a, item) == Some(f);
      AnnotationConsistencyIff(item, prefix, f);
      assert anns == prefix + [a];
      FailsSnoc(item, prefix, a, f);
    }
  }

  /** Some annotation fails with `f` after one more iff one did before or the new one does. */
  lemma FailsSnoc(item: Item, prefix: seq<Annotation>, a: Annotation, f: ConsistencyError)
    ensures (exists j :: 0 <= j < |prefix + [a]| && CheckConsistency((prefix + [a])[j], item) == Some(f)) <==>
      (exists j :: 0 <= j < |prefix| && CheckConsistency(prefix[j], item) == Some(f)) || CheckConsistency(a, item) == Some(f)
  {
    var anns := prefix + [a];
    if exists j :: 0 <= j < |prefix| && CheckConsistency(prefix[j], item) == Some(f) {
      var j :| 0 <= j < |prefix| && CheckConsistency(prefix[j], item) == Some(f);
      assert anns[j] == prefix[j];
    }
    if CheckConsistency(a, item) == Some(f) {
      assert anns[|prefix|] == a;
    }
    if exists j :: 0 <= j < |anns| && CheckConsistency(anns[j], item) == Some(f) {
      var j :| 0 <= j < |anns| && CheckConsistency(anns[j], item) == Some(f);
      if j < |prefix| { assert anns[j] == prefix[j]; }
    }
  }

  /**
   * Consistency failures never abort the pass: every failing annotation of every
   * item is reported, and nothing else is reported as a consistency failure.
   */
  lemma ConsistencyFailuresCollected(items: seq<Item>, f: ConsistencyError)
    ensures Inconsistent(f) in DatasetErrors(items) <==>
      exists k, j :: 0 <= k < |items| && 0 <= j < |items[k].annotations| &&
        CheckConsistency(items[k].annotations[j], items[k]) == Some(f)
  {
    DatasetErrorsMember(items, Inconsistent(f));
    forall k | 0 <= k < |items|
      ensures Inconsistent(f) in ItemErrors(items[k], items[..k]) <==>
        exists j :: 0 <= j < |items[k].annotations| && CheckConsistency(items[k].annotations[j], items[k]) == Some(f)
    {
      AnnotationConsistencyIff(items[k], items[k].annotations, f);
    }
  }

  /** The errors come item by item, each item's in annotation order, after the errors of earlier items. */
  lemma {:induction false} ErrorsInItemOrder(items: seq<Item>, i: nat)
    requires i <= |items|
    ensures DatasetErrors(items[..i]) <= DatasetErrors(items)
  {
    if i < |items| {
      var n := |items| - 1;
      assert items[..n][..i] == items[..i];
      ErrorsInItemOrder(items[..n], i);
    } else {
      assert items[..i] == items;
    }
  }

  predicate DistinctItemIds(items: seq<Item>) {
    forall i, j :: 0 <= i < j < |items| ==> items[i].id != items[j].id
  }

  predicate DistinctAnnotationIds(anns: seq<Annotation>) {
    forall i, j :: 0 <= i < j < |anns| ==> anns[i].id != anns[j].id
  }

  lemma DistinctSnoc(items: seq<Item>)
    requires items != []
    ensures DistinctItemIds(items) <==>
      DistinctItemIds(items[..|items| - 1]) && items[|items| - 1].id !in ItemIds(items[..|items| - 1])
  {
    var n := |items| - 1;
    var prefix := items[..n];
    if DistinctItemIds(items) {
      forall i, j | 0 <= i < j < |prefix| ensures prefix[i].id != prefix[j].id {
        assert prefix[i] == items[i] && prefix[j] == items[j];
      }
    }
    if DistinctItemIds(prefix) && items[n].id !in ItemIds(prefix) {
      forall i, j | 0 <= i < j < |items| ensures items[i].id != items[j].id {
        assert prefix[i] == items[i];
        if j < n { assert prefix[j] == items[j]; } else { assert items[i].id in ItemIds(prefix); }
      }
    }
  }

  lemma {:induction false} ItemIdsBound(items: seq<Item>)
    ensures |ItemIds(items)| <= |items|
  {
    if items != [] {
      var n := |items| - 1;
      ItemIdsBound(items[..n]);
      assert items[..n + 1] == items;
      ItemIdsSnoc(items, n);
    }
  }

  lemma {:induction false} DistinctIdsCount(items: seq<Item>)
    ensures DistinctItemIds(items) <==> |ItemIds(items)| == |items|
  {
    if items != [] {
      var n := |items| - 1;
      var prefix := items[..n];
      DistinctIdsCount(prefix);
      ItemIdsBound(prefix);
      DistinctSnoc(items);
      assert items[..n + 1] == items;
      ItemIdsSnoc(items, n);
    }
  }

  /**
   * The report is clean exactly when item ids are distinct, annotation ids are
   * distinct within each item, and every annotation passes its consistency check.
   */
  lemma CleanReportIff(ds: Dataset)
    ensures ValidationReport(ds).errors == [] <==>
      && DistinctItemIds(ds.items)
      && (forall k :: 0 <= k < |ds.items| ==> DistinctAnnotationIds(ds.items[k].annotations))
      && (forall k, j :: 0 <= k < |ds.items| && 0 <= j < |ds.items[k].annotations| ==>
            CheckConsistency(ds.items[k].annotations[j], ds.items[k]).None?)
  {
    var items := ds.items;
    var errs := DatasetErrors(items);
    DuplicateItemErrorCount(items);
    DistinctIdsCount(items);
    if errs == [] {
      forall k | 0 <= k < |items| ensures DistinctAnnotationIds(items[k].annotations) {
        forall i, j | 0 <= i < j < |items[k].annotations|
          ensures items[k].annotations[i].id != items[k].annotations[j].id
        {
          var aid := items[k].annotations[i].id;
          if items[k].annotations[j].id == aid {
            DuplicateAnnotationScopedPerItem(items, aid, items[k].id);
            assert false;
          }
        }
      }
      forall k, j | 0 <= k < |items| && 0 <= j < |items[k].annotations|
        ensures CheckConsistency(items[k].annotations[j], items[k]).None?
      {
        var c := CheckConsistency(items[k].annotations[j], items[k]);
        if c.Some? {
          ConsistencyFailuresCollected(items, c.value);
          assert false;
        }
      }
    } else {
      var e := errs[0];
      assert e in errs;
      match e
      case DuplicateItemId(_) =>
        if !DistinctItemIds(items) {
        } else {
          assert CountDuplicateItemErrors(errs) == 0;
          DuplicateItemCountPositive(errs, 0);
        }
      case DuplicateAnnotationId(aid, iid) =>
        DuplicateAnnotationScopedPerItem(items, aid, iid);
      case Inconsistent(f) =>
        ConsistencyFailuresCollected(items, f);
    }
  }

  lemma {:induction false} DuplicateItemCountPositive(errors: seq<ValidationError>, i: nat)
    requires i < |errors| && errors[i].DuplicateItemId?
    ensures CountDuplicateItemErrors(errors) > 0
  {
    var n := |errors| - 1;
    if i < n {
      assert errors[..n][i] == errors[i];
      DuplicateItemCountPositive(errors[..n], i);
    }
  }

  // ------------------------------------------------- file-level dispatch

  /** The text after the last '/' of a path, trailing slashes ignored (a POSIX path's name). */
  function PathName(path: string): string {
    if path == [] then []
    else if path[|path| - 1] == '/' then PathName(path[..|path| - 1])
    else NameAfterSlash(path)
  }

  function NameAfterSlash(s: string): string {
    if s == [] then []
    else if s[|s| - 1] == '/' then []
    else NameAfterSlash(s[..|s| - 1]) + [s[|s| - 1]]
  }

  /** The index of the last '.' in `s`, or -1. */
  function LastDot(s: string): (i: int)
    ensures -1 <= i < |s|
    ensures i >= 0 ==> s[i] == '.' && forall j :: i < j < |s| ==> s[j] != '.'
    ensures i == -1 ==> forall j :: 0 <= j < |s| ==> s[j] != '.'
  {
    if s == [] then -1
    else if s[|s| - 1] == '.' then |s| - 1
    else LastDot(s[..|s| - 1])
  }

  /** A path's suffix: from the last '.' of its name, unless that dot leads or ends the name. */
  function Suffix(path: string): string {
    var name := PathName(path);
    var i := LastDot(name);
    if 0 < i < |name| - 1 then name[i..] else []
  }

  function AsciiLower(s: string): (r: string)
    ensures |r| == |s|
  {
    if s == [] then []
    else
      var c := s[0];
      [if 'A' <= c <= 'Z' then (c as int + 32) as char else c] + AsciiLower(s[1..])
  }

  predicate IsJsonlPath(path: string) {
    AsciiLower(Suffix(path)) == ".jsonl"
  }

  lemma {:induction false} NameAfterSlashOfJoin(dir: string, name: string)
    requires forall k :: 0 <= k < |name| ==> name[k] != '/'
    ensures NameAfterSlash(dir + "/" + name) == name
  {
    if name == [] {
      assert dir + "/" + name == dir + "/";
    } else {
      var n := |name| - 1;
      assert (dir + "/" + name)[..|dir + "/" + name| - 1] == dir + "/" + name[..n];
      NameAfterSlashOfJoin(dir, name[..n]);
      assert name[..n] + [name[n]] == name;
    }
  }

  lemma {:induction false} LastDotOfExtension(stem: string, ext: string)
    requires |ext| > 0 && ext[0] == '.'
    requires forall k :: 0 < k < |ext| ==> ext[k] != '.'
    ensures LastDot(stem + ext) == |stem|
  {
    if |ext| > 1 {
      var n := |ext| - 1;
      assert (stem + ext)[..|stem + ext| - 1] == stem + ext[..n];
      LastDotOfExtension(stem, ext[..n]);
    } else {
      assert (stem + ext)[..|stem + ext| - 1] == stem;
    }
  }

  /**
   * The dispatch looks only at the extension of the last path component: the part
   * from its last dot, unless that dot starts the name (a hidden file has no suffix).
   */
  lemma SuffixOfFileName(dir: string, stem: string, ext: string)
    requires |ext| > 1 && ext[0] == '.'
    requires forall k :: 0 < k < |ext| ==> ext[k] != '.' && ext[k] != '/'
    requires forall k :: 0 <= k < |stem| ==> stem[k] != '/'
    ensures Suffix(dir + "/" + stem + ext) == (if stem == [] then [] else ext)
    ensures stem != [] ==> (IsJsonlPath(dir + "/" + stem + ext) <==> AsciiLower(ext) == ".jsonl")
    ensures stem == [] ==> !IsJsonlPath(dir + "/" + stem + ext)
  {
    var name := stem + ext;
    assert dir + "/" + stem + ext == dir + "/" + name;
    NameAfterSlashOfJoin(dir, name);
    LastDotOfExtension(stem, ext);
    assert name[|stem|..] == ext;
  }

  lemma JsonlPathExample()
    ensures IsJsonlPath("data/train.JSONL")
  {
    SuffixOfFileName("data", "train", ".JSONL");
    assert "data" + "/" + "train" + ".JSONL" == "data/train.JSONL";
  }

  /**
   * What the two readers make of a dataset file: the items of a JSON-lines file, one
   * per line, and the categories and items of a single JSON document.
   */
  datatype FileReadings = FileReadings(lineItems: seq<Item>, document: Dataset)

  /**
   * `validate_dataset_file`: a `.jsonl` path (any letter case) is read as items and
   * wrapped in a Dataset without categories; any other path is read as one document.
   */
  method ValidateDatasetFile(path: string, readings: FileReadings) returns (ok: bool, report: Report)
    ensures IsJsonlPath(path) ==> report == ValidationReport(WiredDataset([], readings.lineItems))
    ensures !IsJsonlPath(path) ==>
      report == ValidationReport(WiredDataset(readings.document.categories, readings.document.items))
    ensures ok <==> report.errors == []
  {
    var ds: Dataset;
    if AsciiLower(Suffix(path)) == ".jsonl" {
      ds := NewDataset([], readings.lineItems);
    } else {
      ds := NewDataset(readings.document.categories, readings.document.items);
    }
    ok, report := ValidateDataset(ds);
  }

  /** Read from a JSON-lines file, no keypoint-length error can be reported. */
  lemma JsonlNeverKeypointErrors(items: seq<Item>, f: ConsistencyError)
    requires Inconsistent(f) in ValidationReport(WiredDataset([], items)).errors
    ensures f.NegativeBBoxOrigin?
  {
    var wired := Wired([], items);
    ConsistencyFailuresCollected(wired, f);
    var k, j :| 0 <= k < |wired| && 0 <= j < |wired[k].annotations| &&
      CheckConsistency(wired[k].annotations[j], wired[k]) == Some(f);
    NoCategoriesNoKeypointError(wired[k].annotations[j], wired[k]);
  }
}
