/** database.js: the parts of saving a file that are not storage. A course
    keeps a down-sampled preview of its points, and the stored entry is the
    merge of the fixed fields, the statistics and the extra metadata, with
    every key whose value is `undefined` removed. */
module Database {
  import opened Numeric
  import opened Track

  /** The default size of a preview. */
  const MAX_PREVIEW_POINTS := 2500

  // ---------------------------------------------------------------------
  // simplifyPointsForPreview

  /** The sampling step (n − 1)/(maxPoints − 1). */
  function Step(n: nat, maxPoints: int): real
    requires maxPoints != 1
  {
    (n - 1) as real / (maxPoints - 1) as real
  }

  /** The position i · step of the i-th sample along the points. */
  function Position(i: nat, n: nat, maxPoints: int): real
    requires maxPoints != 1
  {
    i as real * Step(n, maxPoints)
  }

  /** The index of the i-th sample: ⌊i · step⌋, always a valid index when
      there are more points than samples. */
  function SampleIndex(i: nat, n: nat, maxPoints: int): (k: int)
    requires 2 <= maxPoints < n && i < maxPoints
    ensures 0 <= k < n
  {
    SampleWithin(i, n, maxPoints);
    Floor(Position(i, n, maxPoints))
  }

  /** With more points than samples the step exceeds 1, and the last sample
      sits on the last point. */
  lemma StepFacts(n: nat, maxPoints: int)
    requires 2 <= maxPoints < n
    ensures Step(n, maxPoints) > 1.0
    ensures Position(maxPoints - 1, n, maxPoints) == (n - 1) as real
  {
    var step := Step(n, maxPoints);
    var m := (maxPoints - 1) as real;
    assert step * m == (n - 1) as real;
    if step <= 1.0 {
      MulNonneg(1.0 - step, m);
      assert false;
    }
  }

  lemma SampleWithin(i: nat, n: nat, maxPoints: int)
    requires 2 <= maxPoints < n && i < maxPoints
    ensures 0.0 <= Position(i, n, maxPoints) <= (n - 1) as real
  {
    StepFacts(n, maxPoints);
    var step := Step(n, maxPoints);
    var m := (maxPoints - 1) as real;
    MulNonneg(i as real, step);
    MulNonneg(m - i as real, step);
    assert m * step == (n - 1) as real;
  }

  /** Samples further apart in rank are at least one step apart in position. */
  lemma PositionGap(i: nat, j: nat, n: nat, maxPoints: int)
    requires 2 <= maxPoints < n && i < j
    ensures Position(j, n, maxPoints) >= Position(i, n, maxPoints) + Step(n, maxPoints)
  {
    StepFacts(n, maxPoints);
    var step := Step(n, maxPoints);
    var g := (j - i - 1) as real;
    MulNonneg(g, step);
    assert j as real * step == i as real * step + step + g * step;
  }

  /** The preview as a value: None for no points, the points themselves when
      they fit, else maxPoints samples (none when maxPoints is not positive). */
  function Preview<T>(points: seq<T>, maxPoints: int): (r: Option<seq<T>>)
    requires maxPoints != 1
  {
    if |points| == 0 then None
    else if |points| <= maxPoints then Some(points)
    else if maxPoints <= 0 then Some([])
    else Some(seq(maxPoints, i requires 0 <= i < maxPoints => points[SampleIndex(i, |points|, maxPoints)]))
  }

  /** simplifyPointsForPreview. A maxPoints of 1 divides by zero in the
      source and is excluded. */
  method SimplifyPointsForPreview<T>(points: seq<T>, maxPoints: int) returns (r: Option<seq<T>>)
    requires maxPoints != 1
    ensures r == Preview(points, maxPoints)
  {
    if |points| == 0 {
      return None;
    }
    if |points| <= maxPoints {
      return Some(points);
    }
    var simplified: seq<T> := [];
    var i := 0;
    while i < maxPoints
      invariant 0 <= i && (maxPoints > 0 ==> i <= maxPoints) && (maxPoints <= 0 ==> i == 0)
      invariant |simplified| == i
      invariant forall k :: 0 <= k < i ==> simplified[k] == points[SampleIndex(k, |points|, maxPoints)]
    {
      simplified := simplified + [points[SampleIndex(i, |points|, maxPoints)]];
      i := i + 1;
    }
    if maxPoints > 0 {
      assert simplified == seq(maxPoints, k requires 0 <= k < maxPoints => points[SampleIndex(k, |points|, maxPoints)]);
    }
    return Some(simplified);
  }

  /** What a preview is: None exactly for no points; the points unchanged
      when they fit; otherwise exactly maxPoints samples taken at strictly
      increasing positions, starting with the first point and ending with the
      last. */
  lemma PreviewFacts<T>(points: seq<T>, maxPoints: int)
    requires maxPoints != 1
    ensures Preview(points, maxPoints).None? <==> |points| == 0
    ensures 0 < |points| <= maxPoints ==> Preview(points, maxPoints) == Some(points)
    ensures |points| > maxPoints >= 2 ==>
      var r := Preview(points, maxPoints).value;
      |r| == maxPoints && r[0] == points[0] && r[maxPoints - 1] == points[|points| - 1] &&
      forall i :: 0 <= i < maxPoints ==> r[i] == points[SampleIndex(i, |points|, maxPoints)]
  {
    if |points| > maxPoints >= 2 {
      SampleEnds(|points|, maxPoints);
    }
  }

  /** The first sample is index 0 and the last is index n − 1. */
  lemma SampleEnds(n: nat, maxPoints: int)
    requires 2 <= maxPoints < n
    ensures SampleIndex(0, n, maxPoints) == 0
    ensures SampleIndex(maxPoints - 1, n, maxPoints) == n - 1
  {
    StepFacts(n, maxPoints);
  }

  /** With more points than samples the step exceeds 1, so no point is
      sampled twice: the sample indices strictly increase. */
  lemma SampleIncreasing(i: nat, j: nat, n: nat, maxPoints: int)
    requires 2 <= maxPoints < n && i < j < maxPoints
    ensures SampleIndex(i, n, maxPoints) < SampleIndex(j, n, maxPoints)
  {
    StepFacts(n, maxPoints);
    PositionGap(i, j, n, maxPoints);
  }

  // ---------------------------------------------------------------------
  // saveFileToDB: the entry

  /** A JavaScript value as far as an entry holds it. */
  datatype JsValue = Undefined | Null | Num(n: real) | Str(s: string) | PointList(pts: seq<TrackPoint>) | Date(ms: int)

  /** A plain object: keys to values. */
  type JsObject = map<string, JsValue>

  /** Property access: a missing key reads `undefined`. */
  function Get(o: JsObject, key: string): JsValue
  {
    if key in o then o[key] else Undefined
  }

  /** A preview is made only for a course whose statistics hold more than one
      point. */
  function PreviewFor(fileType: string, stats: Option<JsObject>): (r: Option<seq<TrackPoint>>)
    ensures r.Some? ==> fileType == "course" && stats.Some? && Get(stats.value, "points").PointList?
  {
    if fileType == "course" && stats.Some? && Get(stats.value, "points").PointList? &&
       |Get(stats.value, "points").pts| > 1
    then Preview(Get(stats.value, "points").pts, MAX_PREVIEW_POINTS)
    else None
  }

  /** A statistic copied into a fixed field: 0 without statistics. */
  function StatField(stats: Option<JsObject>, key: string): JsValue
  {
    if stats.None? then Num(0.0) else Get(stats.value, key)
  }

  /** The fields every entry starts from. */
  function FixedFields(fileType: string, fileName: string, data: string, added: int, stats: Option<JsObject>,
                       preview: Option<seq<TrackPoint>>): (r: JsObject)
    ensures "type" in r && r["type"] == Str(fileType)
    ensures "dist" in r && r["dist"] == StatField(stats, "totalDistance")
    ensures "preview" in r && r["preview"] != Undefined && (r["preview"].PointList? <==> preview.Some?)
  {
    map[
      "type" := Str(fileType),
      "name" := Str(fileName),
      "data" := Str(data),
      "added" := Date(added),
      "dist" := StatField(stats, "totalDistance"),
      "elev" := StatField(stats, "totalElevGain"),
      "avgPower" := StatField(stats, "avgPower"),
      "avgSpeed" := StatField(stats, "avgSpeed"),
      "avgHr" := StatField(stats, "avgHr"),
      "preview" := if preview.Some? then PointList(preview.value) else Null]
  }

  /** `stats || {}`. */
  function StatsObject(stats: Option<JsObject>): JsObject
  {
    if stats.Some? then stats.value else map[]
  }

  /** The entry before cleaning: the fixed fields, then every statistic, then
      the extra metadata, a later key overriding an earlier one. */
  function Merged(fileType: string, fileName: string, data: string, added: int, stats: Option<JsObject>,
                  extra: JsObject): JsObject
  {
    FixedFields(fileType, fileName, data, added, stats, PreviewFor(fileType, stats)) + StatsObject(stats) + extra
  }

  /** The object with its `undefined` keys removed. */
  function Defined(o: JsObject): (r: JsObject)
    ensures forall k :: k in r <==> k in o && o[k] != Undefined
  {
    map k | k in o && o[k] != Undefined :: o[k]
  }

  /** Deletes, key by key, every key whose value is `undefined`. */
  method RemoveUndefined(entry: JsObject) returns (cleaned: JsObject)
    ensures cleaned == Defined(entry)
  {
    cleaned := entry;
    var keys := entry.Keys;
    while keys != {}
      invariant keys <= entry.Keys
      invariant forall k :: k in cleaned ==> k in entry && cleaned[k] == entry[k]
      invariant forall k :: k in keys ==> k in cleaned
      invariant forall k :: k in entry && k !in keys ==> (k in cleaned <==> entry[k] != Undefined)
      decreases |keys|
    {
      var k :| k in keys;
      if cleaned[k] == Undefined {
        cleaned := cleaned - {k};
      }
      keys := keys - {k};
    }
  }

  /** The entry saveFileToDB stores, `added` being the clock reading. It
      holds no `undefined` value; the extra metadata wins over the
      statistics, which win over the fixed fields; without statistics the
      distance is 0; the preview stays as set unless overridden, and is a
      point list exactly for a course with more than one point. */
  method BuildEntry(fileType: string, fileName: string, data: string, added: int, stats: Option<JsObject>,
                    extra: JsObject) returns (entry: JsObject)
    ensures entry == Defined(Merged(fileType, fileName, data, added, stats, extra))
    ensures forall k :: k in entry ==> entry[k] != Undefined
    ensures forall k :: k in extra && extra[k] != Undefined ==> k in entry && entry[k] == extra[k]
    ensures stats.Some? ==> forall k :: k in stats.value && k !in extra && stats.value[k] != Undefined ==>
      k in entry && entry[k] == stats.value[k]
    ensures stats.None? && "dist" !in extra ==> "dist" in entry && entry["dist"] == Num(0.0)
    ensures (stats.None? || "preview" !in stats.value) && "preview" !in extra ==>
      "preview" in entry && (entry["preview"].PointList? <==> PreviewFor(fileType, stats).Some?)
    ensures "type" !in extra && (stats.None? || "type" !in stats.value) ==>
      "type" in entry && entry["type"] == Str(fileType)
  {
    var preview: Option<seq<TrackPoint>> := None;
    if fileType == "course" && stats.Some? && Get(stats.value, "points").PointList? &&
       |Get(stats.value, "points").pts| > 1 {
      preview := SimplifyPointsForPreview(Get(stats.value, "points").pts, MAX_PREVIEW_POINTS);
    }
    assert preview == PreviewFor(fileType, stats);
    var fixed := FixedFields(fileType, fileName, data, added, stats, preview);
    var statsObj := StatsObject(stats);
    var merged := fixed + statsObj + extra;
    entry := RemoveUndefined(merged);
    DefinedMerge(fixed, statsObj, extra);
  }

  /** Cleaning a merge keeps each defined value of the last object that
      has the key. */
  lemma DefinedMerge(a: JsObject, b: JsObject, c: JsObject)
    ensures var e := Defined(a + b + c);
      forall k :: k in c && c[k] != Undefined ==> k in e && e[k] == c[k]
    ensures var e := Defined(a + b + c);
      forall k :: k in b && k !in c && b[k] != Undefined ==> k in e && e[k] == b[k]
    ensures var e := Defined(a + b + c);
      forall k :: k in a && k !in b && k !in c && a[k] != Undefined ==> k in e && e[k] == a[k]
  {
  }
}
