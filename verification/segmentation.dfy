/** segmentation.js: cutting a route into contiguous segments of homogeneous
    slope with a single forward scan and a running mean. */
module Segmentation {
  import opened Numeric
  import opened Track

  /** The initial speed a fresh segment is given: 25 km/h in m/s. */
  const DEFAULT_SPEED: real := 25.0 / 3.6

  /** One segment of the route. The points it covers are the inclusive index
      range startIdx .. endIdx (see SegmentPoints); adjacent segments share
      their boundary point. The pacing engine later rewrites power, speed,
      time and fills kcal and the W′ values, which are None (unset) on a
      fresh segment. `avgGrade` is a fraction, not a percentage. */
  datatype Segment = Segment(
    startIdx: nat,
    endIdx: nat,
    distance: real,
    elevGain: real,
    avgGrade: real,
    power: real,
    speed: real,
    time: real,
    kcal: Option<real>,
    wPrimeStart: Option<real>,
    wPrimeEnd: Option<real>
  )

  /** The `points` array of a segment: an inclusive slice of the route. */
  function SegmentPoints(pts: seq<TrackPoint>, s: Segment): (r: seq<TrackPoint>)
    requires s.startIdx <= s.endIdx < |pts|
    ensures |r| == s.endIdx - s.startIdx + 1
    ensures r[0] == pts[s.startIdx] && r[|r| - 1] == pts[s.endIdx]
  {
    pts[s.startIdx..s.endIdx + 1]
  }

  /** Mean smoothed slope (percent) of the points s .. i-1, the running mean
      the scan holds when it reaches point i. */
  function RunningMean(pts: seq<TrackPoint>, s: nat, i: nat): real
    requires s < i <= |pts|
  {
    SlopeSum(pts, s, i) / (i - s) as real
  }

  /** The slope-change cut rule at point i for a segment opened at s: the
      segment is at least minLength long and the slope at i departs from the
      running mean by more than the threshold. */
  predicate SlopeCut(pts: seq<TrackPoint>, s: nat, i: nat, slopeThreshold: real, minLength: real)
    requires s < i < |pts|
  {
    pts[i].dist - pts[s].dist >= minLength &&
    Abs(pts[i].smoothedSlope - RunningMean(pts, s, i)) > slopeThreshold
  }

  /** The segment the scan pushes when it closes the range s .. e. */
  function FreshSegment(pts: seq<TrackPoint>, s: nat, e: nat): (seg: Segment)
    requires s < e < |pts|
  {
    var d := pts[e].dist - pts[s].dist;
    Segment(s, e, d, PositiveGain(pts, s, e), RunningMean(pts, s, e) / 100.0,
            0.0, DEFAULT_SPEED, if d > 0.0 then d / DEFAULT_SPEED else 0.0,
            None, None, None)
  }

  /** Each segment spans at least two points and starts where the previous ended. */
  ghost predicate Contiguous(segs: seq<Segment>)
  {
    (forall k :: 0 <= k < |segs| ==> segs[k].startIdx < segs[k].endIdx) &&
    (forall k :: 0 < k < |segs| ==> segs[k].startIdx == segs[k - 1].endIdx)
  }

  /** What the scan has established about the segments it has pushed:
      contiguous, inside the route, built by FreshSegment, every one but the
      last closed by the slope-change rule, and none passing over a point
      where the rule held. */
  ghost predicate ScannedSegments(pts: seq<TrackPoint>, segs: seq<Segment>, slopeThreshold: real, minLength: real)
  {
    Contiguous(segs) &&
    (forall k :: 0 <= k < |segs| ==>
      segs[k].endIdx < |pts| && segs[k] == FreshSegment(pts, segs[k].startIdx, segs[k].endIdx)) &&
    (forall k :: 0 <= k < |segs| - 1 ==>
      SlopeCut(pts, segs[k].startIdx, segs[k].endIdx, slopeThreshold, minLength)) &&
    (forall k, j :: 0 <= k < |segs| && segs[k].startIdx < j < segs[k].endIdx ==>
      j < |pts| && !SlopeCut(pts, segs[k].startIdx, j, slopeThreshold, minLength))
  }

  /** The scan's loop invariant at point i with the open segment starting at
      s: what has been pushed is a correct prefix ending at s, no point after
      s so far meets the cut rule, and the last pushed segment was closed by
      the rule unless the route has ended. */
  ghost predicate ScanInvariant(pts: seq<TrackPoint>, segs: seq<Segment>, s: nat, i: nat, slopeThreshold: real, minLength: real)
  {
    1 <= i <= |pts| && s < i &&
    (|segs| == 0 ==> s == 0) &&
    (|segs| > 0 ==> segs[0].startIdx == 0 && segs[|segs| - 1].endIdx == s) &&
    ScannedSegments(pts, segs, slopeThreshold, minLength) &&
    (forall j :: s < j < i ==> !SlopeCut(pts, s, j, slopeThreshold, minLength)) &&
    (|segs| > 0 && i < |pts| ==> SlopeCut(pts, segs[|segs| - 1].startIdx, s, slopeThreshold, minLength))
  }

  /** Closing the open segment at point i, because the cut rule holds there
      or because i is the last point, keeps the invariant. */
  lemma CloseKeeps(pts: seq<TrackPoint>, segs: seq<Segment>, s: nat, i: nat, slopeThreshold: real, minLength: real)
    requires ScanInvariant(pts, segs, s, i, slopeThreshold, minLength) && i < |pts|
    requires SlopeCut(pts, s, i, slopeThreshold, minLength) || i == |pts| - 1
    ensures ScanInvariant(pts, segs + [FreshSegment(pts, s, i)], i, i + 1, slopeThreshold, minLength)
  {
    PushPreserves(pts, segs, s, i, slopeThreshold, minLength);
  }

  /** Passing over a point where the cut rule does not hold keeps the invariant. */
  lemma ExtendKeeps(pts: seq<TrackPoint>, segs: seq<Segment>, s: nat, i: nat, slopeThreshold: real, minLength: real)
    requires ScanInvariant(pts, segs, s, i, slopeThreshold, minLength) && i < |pts|
    requires !SlopeCut(pts, s, i, slopeThreshold, minLength)
    ensures ScanInvariant(pts, segs, s, i + 1, slopeThreshold, minLength)
  {
  }

  /** The segment pushed when the scan closes s .. i, built the way the
      source builds it from the running mean of the slopes. */
  method CloseSegment(pts: seq<TrackPoint>, s: nat, i: nat, avgSlope: real) returns (seg: Segment)
    requires s < i < |pts| && avgSlope == RunningMean(pts, s, i)
    ensures seg == FreshSegment(pts, s, i)
  {
    var gain := SegmentElevGain(pts, s, i);
    var dist := pts[i].dist - pts[s].dist;
    seg := Segment(s, i, dist, gain, avgSlope / 100.0,
                   0.0, DEFAULT_SPEED, if dist > 0.0 then dist / DEFAULT_SPEED else 0.0,
                   None, None, None);
  }

  /** One step of the scan at point i: close the open segment there when the
      cut rule holds or i is the last point, otherwise extend it. */
  method ScanStep(pts: seq<TrackPoint>, segs: seq<Segment>, startIdx: nat, i: nat, slopeSum: real, count: nat,
                  slopeThreshold: real, minLength: real)
    returns (segs': seq<Segment>, startIdx': nat, slopeSum': real, count': nat)
    requires i < |pts| && ScanInvariant(pts, segs, startIdx, i, slopeThreshold, minLength)
    requires count == i - startIdx && slopeSum == SlopeSum(pts, startIdx, i)
    ensures ScanInvariant(pts, segs', startIdx', i + 1, slopeThreshold, minLength)
    ensures count' == i + 1 - startIdx' && slopeSum' == SlopeSum(pts, startIdx', i + 1)
    ensures i + 1 == |pts| ==> |segs'| > 0 && startIdx' == |pts| - 1
  {
    var slope := pts[i].smoothedSlope;
    var distSinceStart := pts[i].dist - pts[startIdx].dist;
    var avgSlope := slopeSum / count as real;
    var slopeDiff := Abs(slope - avgSlope);
    var longEnough := distSinceStart >= minLength;
    assert avgSlope == RunningMean(pts, startIdx, i);
    assert longEnough && slopeDiff > slopeThreshold <==> SlopeCut(pts, startIdx, i, slopeThreshold, minLength);
    if (longEnough && slopeDiff > slopeThreshold) || i == |pts| - 1 {
      var seg := CloseSegment(pts, startIdx, i, avgSlope);
      CloseKeeps(pts, segs, startIdx, i, slopeThreshold, minLength);
      segs', startIdx', slopeSum', count' := segs + [seg], i, slope, 1;
    } else {
      ExtendKeeps(pts, segs, startIdx, i, slopeThreshold, minLength);
      segs', startIdx', slopeSum', count' := segs, startIdx, slopeSum + slope, count + 1;
    }
  }

  /** The slope threshold, in percent, and the minimum segment length, in
      metres, that segmentTrackBySlope uses when its caller passes none. */
  const DEFAULT_SLOPE_THRESHOLD: real := 3.0
  const DEFAULT_MIN_LENGTH: real := 200.0

  /** segmentTrackBySlope: no segment for fewer than two points; otherwise
      contiguous segments from point 0 to the last point, each closed either
      by the slope-change rule or by the last point, never cut before a
      point where the rule holds, with its fields as FreshSegment gives. */
  method SegmentTrackBySlope(pts: seq<TrackPoint>, slopeThreshold: real, minLength: real)
    returns (segs: seq<Segment>)
    ensures |pts| < 2 ==> segs == []
    ensures |pts| >= 2 ==> |segs| >= 1 && segs[0].startIdx == 0 && segs[|segs| - 1].endIdx == |pts| - 1
    ensures ScannedSegments(pts, segs, slopeThreshold, minLength)
  {
    segs := [];
    if |pts| < 2 {
      return;
    }
    var startIdx := 0;
    var slopeSum := pts[0].smoothedSlope;
    var count := 1;
    var i := 1;
    while i < |pts|
      invariant ScanInvariant(pts, segs, startIdx, i, slopeThreshold, minLength)
      invariant count == i - startIdx
      invariant slopeSum == SlopeSum(pts, startIdx, i)
      invariant i == |pts| ==> |segs| > 0 && startIdx == |pts| - 1
    {
      segs, startIdx, slopeSum, count := ScanStep(pts, segs, startIdx, i, slopeSum, count, slopeThreshold, minLength);
      i := i + 1;
    }
  }

  /** Closing the open segment s .. i keeps what the scan has established. */
  lemma PushPreserves(pts: seq<TrackPoint>, segs: seq<Segment>, s: nat, i: nat, slopeThreshold: real, minLength: real)
    requires s < i < |pts|
    requires ScannedSegments(pts, segs, slopeThreshold, minLength)
    requires |segs| > 0 ==> segs[|segs| - 1].endIdx == s && SlopeCut(pts, segs[|segs| - 1].startIdx, s, slopeThreshold, minLength)
    requires forall j :: s < j < i ==> !SlopeCut(pts, s, j, slopeThreshold, minLength)
    ensures ScannedSegments(pts, segs + [FreshSegment(pts, s, i)], slopeThreshold, minLength)
  {
    var segs' := segs + [FreshSegment(pts, s, i)];
    assert forall k :: 0 <= k < |segs| ==> segs'[k] == segs[k];
  }

  /** The inner loop of segmentTrackBySlope: the sum of the strictly
      positive elevation steps between points s and e. */
  method SegmentElevGain(pts: seq<TrackPoint>, s: nat, e: nat) returns (gain: real)
    requires s < e < |pts|
    ensures gain == PositiveGain(pts, s, e)
  {
    gain := 0.0;
    var j := s + 1;
    while j <= e
      invariant s + 1 <= j <= e + 1
      invariant gain == PositiveGain(pts, s, j - 1)
    {
      var diff := pts[j].ele - pts[j - 1].ele;
      if diff > 0.0 {
        gain := gain + diff;
      }
      j := j + 1;
    }
  }

  /** Every segment spans at least two points, so a route of n points has at
      most n - 1 segments. */
  lemma {:induction false} SegmentCountBound(segs: seq<Segment>)
    requires Contiguous(segs) && |segs| > 0
    ensures |segs| <= segs[|segs| - 1].endIdx - segs[0].startIdx
    decreases |segs|
  {
    if |segs| > 1 {
      var init := segs[..|segs| - 1];
      assert Contiguous(init);
      SegmentCountBound(init);
    }
  }

  /** Total distance of a list of segments. */
  function TotalDistance(segs: seq<Segment>): real
  {
    if |segs| == 0 then 0.0 else TotalDistance(segs[..|segs| - 1]) + segs[|segs| - 1].distance
  }

  /** Total elevation gain of a list of segments. */
  function TotalGain(segs: seq<Segment>): real
  {
    if |segs| == 0 then 0.0 else TotalGain(segs[..|segs| - 1]) + segs[|segs| - 1].elevGain
  }

  /** Segments as the scan builds them: contiguous, inside the route, with
      the distance and elevation gain of their point range. */
  ghost predicate MeasuredPartition(pts: seq<TrackPoint>, segs: seq<Segment>)
  {
    Contiguous(segs) &&
    forall k :: 0 <= k < |segs| ==>
      segs[k].endIdx < |pts| &&
      segs[k].distance == pts[segs[k].endIdx].dist - pts[segs[k].startIdx].dist &&
      segs[k].elevGain == PositiveGain(pts, segs[k].startIdx, segs[k].endIdx)
  }

  /** Segment distances telescope to the distance from the first segment's
      start to the last segment's end, and segment gains add up to the
      positive elevation gain over the same range: no metre is lost or
      counted twice at the shared boundary points. */
  lemma {:induction false} PartitionTotals(pts: seq<TrackPoint>, segs: seq<Segment>)
    requires MeasuredPartition(pts, segs) && |segs| > 0
    requires segs[0].startIdx <= segs[|segs| - 1].endIdx
    ensures TotalDistance(segs) == pts[segs[|segs| - 1].endIdx].dist - pts[segs[0].startIdx].dist
    ensures TotalGain(segs) == PositiveGain(pts, segs[0].startIdx, segs[|segs| - 1].endIdx)
    decreases |segs|
  {
    var last := segs[|segs| - 1];
    if |segs| > 1 {
      var init := segs[..|segs| - 1];
      assert MeasuredPartition(pts, init);
      SegmentCountBound(init);
      PartitionTotals(pts, init);
      PositiveGainSplit(pts, segs[0].startIdx, last.startIdx, last.endIdx);
    }
  }

  /** For the scan's output on a route of n >= 2 points: at most n - 1
      segments, distances summing to last.dist - first.dist, gains summing to
      the route's positive elevation gain, and every segment but the last at
      least minLength long. */
  lemma ScanTotals(pts: seq<TrackPoint>, segs: seq<Segment>, slopeThreshold: real, minLength: real)
    requires |pts| >= 2 && |segs| >= 1
    requires segs[0].startIdx == 0 && segs[|segs| - 1].endIdx == |pts| - 1
    requires ScannedSegments(pts, segs, slopeThreshold, minLength)
    ensures |segs| <= |pts| - 1
    ensures TotalDistance(segs) == pts[|pts| - 1].dist - pts[0].dist
    ensures TotalGain(segs) == PositiveGain(pts, 0, |pts| - 1)
    ensures forall k :: 0 <= k < |segs| - 1 ==> segs[k].distance >= minLength
  {
    SegmentCountBound(segs);
    assert MeasuredPartition(pts, segs);
    PartitionTotals(pts, segs);
  }

  /** A fresh segment's average grade is bounded by the smallest and largest
      smoothed slope among the points that form its running mean. */
  lemma FreshGradeBounds(pts: seq<TrackPoint>, s: nat, e: nat, lo: real, hi: real)
    requires s < e < |pts|
    requires forall k :: s <= k < e ==> lo <= pts[k].smoothedSlope <= hi
    ensures lo / 100.0 <= FreshSegment(pts, s, e).avgGrade <= hi / 100.0
  {
    SlopeSumBounds(pts, s, e, lo, hi);
    var n := (e - s) as real;
    assert SlopeSum(pts, s, e) / n >= lo by { assert SlopeSum(pts, s, e) >= n * lo; }
    assert SlopeSum(pts, s, e) / n <= hi by { assert SlopeSum(pts, s, e) <= n * hi; }
  }
}
