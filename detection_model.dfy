/** Detection values shared by agent/pipeline.py and agent/processors/detection_processor.py:
    the `DetectedObject` record of agent/processors/events.py, the part of a supervision
    `Detections` value the code reads (`xyxy` boxes and the optional `class_id` column), and
    the conversions between them (`_filter_detections`, `_build_objects`). */
module DetectionModel {
  import opened Util

  /** One detected entity of the current frame: a class label and integer box corners. */
  datatype DetectedObject = DetectedObject(classLabel: string, x1: int, y1: int, x2: int, y2: int)

  /** A float bounding box `[x1, y1, x2, y2]` as the detector returns it. */
  datatype Box = Box(x1: real, y1: real, x2: real, y2: real)

  /** One detection that carries a class id. */
  datatype Row = Row(box: Box, classId: int)

  /** A detector result: either every box has a class id (`class_id` is an array), or
      `class_id` is None and only the boxes are known. */
  datatype Detections = Labelled(rows: seq<Row>) | Unlabelled(boxes: seq<Box>)
  {
    function Boxes(): (r: seq<Box>)
    {
      match this
      case Labelled(rows) => seq(|rows|, k requires 0 <= k < |rows| => rows[k].box)
      case Unlabelled(boxes) => boxes
    }

    /** `int(class_id[i])`, or 0 when there is no class id column. */
    function ClassIdAt(i: nat): int
    {
      match this
      case Labelled(rows) => if i < |rows| then rows[i].classId else 0
      case Unlabelled(_) => 0
    }
  }

  /** Python `int(x)` of a float: truncation toward zero. */
  function Trunc(r: real): (i: int)
    ensures r >= 0.0 ==> i as real <= r < i as real + 1.0
    ensures r < 0.0 ==> i as real - 1.0 < r <= i as real
  {
    if r >= 0.0 then r.Floor else -((-r).Floor)
  }

  /** The detector's `class_name_map` dict, as its items in insertion order. */
  type ClassNames = seq<(int, string)>

  /** A dict never holds a key twice. */
  predicate UniqueKeys(m: ClassNames)
  {
    forall i, j :: 0 <= i < j < |m| ==> m[i].0 != m[j].0
  }

  /** `class_name_map.get(cid)`. */
  function Get(m: ClassNames, cid: int): (r: Option<string>)
    ensures r.None? <==> forall k :: 0 <= k < |m| ==> m[k].0 != cid
    ensures r.Some? ==> exists k :: 0 <= k < |m| && m[k] == (cid, r.value)
    decreases |m|
  {
    if m == [] then None
    else if m[0].0 == cid then Some(m[0].1)
    else
      var r := Get(m[1..], cid);
      assert forall k :: 1 <= k < |m| ==> m[k] == m[1..][k - 1];
      r
  }

  /** With unique keys, `get` returns the value stored with the key. */
  lemma {:induction false} GetFinds(m: ClassNames, k: nat)
    requires UniqueKeys(m) && k < |m|
    ensures Get(m, m[k].0) == Some(m[k].1)
    decreases |m|
  {
    if k > 0 {
      assert m[1..][k - 1] == m[k];
      GetFinds(m[1..], k - 1);
    }
  }

  /** `i` is `r` with its fractional part dropped, toward zero. */
  predicate TruncatedFrom(i: int, r: real)
  {
    (r >= 0.0 ==> i as real <= r < i as real + 1.0) && (r < 0.0 ==> i as real - 1.0 < r <= i as real)
  }

  /** `class_name_map.get(cid, f"class_{cid}")`. */
  function ClassLabel(m: ClassNames, cid: int): string
  {
    match Get(m, cid)
    case Some(name) => name
    case None => "class_" + IntToString(cid)
  }

  /** Two different class ids that the class map does not know get different fallback
      labels, so a fallback label still identifies its class id. */
  lemma FallbackLabelsDistinct(classNames: ClassNames, a: int, b: int)
    requires Get(classNames, a).None? && Get(classNames, b).None? && a != b
    ensures ClassLabel(classNames, a) != ClassLabel(classNames, b)
  {
    var la, lb := ClassLabel(classNames, a), ClassLabel(classNames, b);
    ParseIntToString(a);
    ParseIntToString(b);
    assert la[6..] == IntToString(a);
    assert lb[6..] == IntToString(b);
  }

  function ToObject(classNames: ClassNames, box: Box, cid: int): DetectedObject
  {
    DetectedObject(ClassLabel(classNames, cid), Trunc(box.x1), Trunc(box.y1), Trunc(box.x2), Trunc(box.y2))
  }

  /** The objects `_build_objects` returns. */
  function Objects(classNames: ClassNames, d: Detections): seq<DetectedObject>
  {
    seq(|d.Boxes()|, i requires 0 <= i < |d.Boxes()| => ToObject(classNames, d.Boxes()[i], d.ClassIdAt(i)))
  }

  /** One object per box, in box order; no boxes give no objects; each corner is the box
      corner truncated toward zero; the label is the mapped class name, or `class_{cid}`
      (with cid 0 when the column is absent) for an id the map lacks. */
  lemma ObjectsFacts(classNames: ClassNames, d: Detections, i: nat)
    ensures |Objects(classNames, d)| == |d.Boxes()|
    ensures d.Boxes() == [] ==> Objects(classNames, d) == []
    ensures i < |d.Boxes()| ==>
              var o, b := Objects(classNames, d)[i], d.Boxes()[i];
              && TruncatedFrom(o.x1, b.x1) && TruncatedFrom(o.y1, b.y1)
              && TruncatedFrom(o.x2, b.x2) && TruncatedFrom(o.y2, b.y2)
              && (Get(classNames, d.ClassIdAt(i)).Some? ==> o.classLabel == Get(classNames, d.ClassIdAt(i)).value)
              && (Get(classNames, d.ClassIdAt(i)).None? ==> o.classLabel == "class_" + IntToString(d.ClassIdAt(i)))
              && (d.Unlabelled? ==> d.ClassIdAt(i) == 0)
  {
  }

  /** `_build_objects`. */
  method BuildObjects(classNames: ClassNames, d: Detections) returns (objects: seq<DetectedObject>)
    ensures objects == Objects(classNames, d)
  {
    objects := [];
    var boxes := d.Boxes();
    if |boxes| == 0 {
      return;
    }
    var i := 0;
    while i < |boxes|
      invariant 0 <= i <= |boxes|
      invariant |objects| == i
      invariant forall k :: 0 <= k < i ==> objects[k] == ToObject(classNames, boxes[k], d.ClassIdAt(k))
    {
      var cid := d.ClassIdAt(i);
      objects := objects + [ToObject(classNames, boxes[i], cid)];
      i := i + 1;
    }
    assert |objects| == |Objects(classNames, d)|;
  }

  /** The ids of every class-map entry whose name is one of `names`. */
  function AllowedSet(m: ClassNames, names: seq<string>): set<int>
  {
    set k | 0 <= k < |m| && m[k].1 in names :: m[k].0
  }

  /** The `allowed_ids` loop over `class_name_map.items()`. */
  method AllowedIds(m: ClassNames, names: seq<string>) returns (ids: set<int>)
    ensures ids == AllowedSet(m, names)
  {
    ids := {};
    var i := 0;
    while i < |m|
      invariant 0 <= i <= |m|
      invariant ids == AllowedSet(m[..i], names)
    {
      assert forall k :: 0 <= k < i ==> m[..i + 1][k] == m[..i][k];
      if m[i].1 in names {
        ids := ids + {m[i].0};
      }
      i := i + 1;
    }
    assert m[..i] == m;
  }

  /** With unique keys an id is allowed exactly when `get` names one of `names`. */
  lemma AllowedByGet(m: ClassNames, names: seq<string>, cid: int)
    requires UniqueKeys(m)
    ensures cid in AllowedSet(m, names) <==> Get(m, cid).Some? && Get(m, cid).value in names
  {
    if cid in AllowedSet(m, names) {
      var k :| 0 <= k < |m| && m[k].1 in names && m[k].0 == cid;
      GetFinds(m, k);
    } else if Get(m, cid).Some? {
      var k :| 0 <= k < |m| && m[k] == (cid, Get(m, cid).value);
      GetFinds(m, k);
    }
  }

  /** `detections[mask]` with `mask = [cid in allowed for cid in class_id]`. */
  function KeepAllowed(d: Detections, allowed: set<int>): (r: Detections)
    requires d.Labelled?
    ensures r.Labelled?
    ensures forall k :: 0 <= k < |r.rows| ==> r.rows[k] in d.rows && r.rows[k].classId in allowed
    ensures forall k :: 0 <= k < |d.rows| && d.rows[k].classId in allowed ==> d.rows[k] in r.rows
  {
    Labelled(Filter(d.rows, (row: Row) => row.classId in allowed))
  }

  /** The mask neither reorders nor duplicates: masking a concatenation masks each part. */
  lemma KeepAllowedAppend(a: seq<Row>, b: seq<Row>, allowed: set<int>)
    ensures KeepAllowed(Labelled(a + b), allowed).rows
            == KeepAllowed(Labelled(a), allowed).rows + KeepAllowed(Labelled(b), allowed).rows
  {
    FilterAppend(a, b, (row: Row) => row.classId in allowed);
  }
}
