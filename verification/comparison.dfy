/** comparison.js: how a recorded ride is scored against a simulation. Each
    simulated segment and each climb gets a power score, a speed score and a
    global score out of 100 from the averages of the recorded points it
    covers; the final score is the mean over the segments longer than 100 m. */
module Comparison {
  import opened Numeric
  import opened Track

  // ---------------------------------------------------------------------
  // calculateMetricScore

  /** The score of a ratio real/simulated: 100 within ±10 %, falling linearly
      to 0 at a ratio of 2.0 above and of 0.5 below. */
  function RatioScore(ratio: real): (score: real)
  {
    if 0.9 <= ratio <= 1.1 then 100.0
    else if ratio > 1.1 then (if ratio >= 2.0 then 0.0 else 100.0 - (ratio - 1.1) / (2.0 - 1.1) * 100.0)
    else if ratio <= 0.5 then 0.0
    else (ratio - 0.5) / (0.9 - 0.5) * 100.0
  }

  /** A missing value (`null`, `undefined`, NaN) is None; 0 and negative
      values score 0 like missing ones. */
  function CalculateMetricScore(simValue: Option<real>, realValue: Option<real>): (score: real)
    ensures 0.0 <= score <= 100.0
    ensures realValue.None? || realValue.value <= 0.0 || simValue.None? || simValue.value <= 0.0 ==> score == 0.0
    ensures realValue.Some? && realValue.value > 0.0 && simValue.Some? && simValue.value > 0.0 ==>
      score == RatioScore(realValue.value / simValue.value)
  {
    if realValue.None? || realValue.value <= 0.0 then 0.0
    else if simValue.None? || simValue.value <= 0.0 then 0.0
    else
      var ratio := realValue.value / simValue.value;
      RatioScoreBounds(ratio);
      RatioScore(ratio)
  }

  /** Every ratio scores between 0 and 100. */
  lemma RatioScoreBounds(ratio: real)
    ensures 0.0 <= RatioScore(ratio) <= 100.0
  {
    if 1.1 < ratio < 2.0 {
      UnitRamp(ratio - 1.1, 0.9);
    } else if 0.5 < ratio < 0.9 {
      UnitRamp(ratio - 0.5, 0.4);
    }
  }

  lemma UnitRamp(x: real, w: real)
    requires w > 0.0 && 0.0 <= x <= w
    ensures 0.0 <= x / w * 100.0 <= 100.0
  {
    var y := x / w;
    assert y * w == x;
  }

  /** The bands: 100 from 0.9 to 1.1, 0 from 2.0 up and up to 0.5; the ramps
      meet the bands at 0.5, 0.9, 1.1 and 2.0, the upper ramp falls and the
      lower one rises. */
  lemma RatioScoreBands(r1: real, r2: real)
    ensures 0.9 <= r1 <= 1.1 ==> RatioScore(r1) == 100.0
    ensures r1 >= 2.0 || r1 <= 0.5 ==> RatioScore(r1) == 0.0
    ensures 1.1 <= r1 <= r2 ==> RatioScore(r2) <= RatioScore(r1)
    ensures r1 <= r2 <= 0.9 ==> RatioScore(r1) <= RatioScore(r2)
  {
    if 1.1 <= r1 <= r2 && r2 < 2.0 {
      RampMonotone(r1 - 1.1, r2 - 1.1, 0.9);
    }
    if r1 <= r2 <= 0.9 && 0.5 < r1 {
      RampMonotone(r1 - 0.5, r2 - 0.5, 0.4);
    }
  }

  lemma RampMonotone(x1: real, x2: real, w: real)
    requires w > 0.0 && x1 <= x2
    ensures x1 / w * 100.0 <= x2 / w * 100.0
  {
    var y1 := x1 / w;
    var y2 := x2 / w;
    assert y1 * w == x1 && y2 * w == x2;
  }

  /** The ramps join the bands: the upper ramp leaves 100 at 1.1 and reaches
      0 at 2.0, the lower ramp leaves 0 at 0.5 and reaches 100 at 0.9. */
  lemma RatioScoreContinuous()
    ensures 100.0 - (1.1 - 1.1) / (2.0 - 1.1) * 100.0 == RatioScore(1.1)
    ensures 100.0 - (2.0 - 1.1) / (2.0 - 1.1) * 100.0 == RatioScore(2.0)
    ensures (0.5 - 0.5) / (0.9 - 0.5) * 100.0 == RatioScore(0.5)
    ensures (0.9 - 0.5) / (0.9 - 0.5) * 100.0 == RatioScore(0.9)
  {
  }

  // ---------------------------------------------------------------------
  // calculateAverage

  /** The two properties averaged over recorded points. */
  datatype AvgProperty = PowerProp | SpeedProp

  function PropValue(p: TrackPoint, prop: AvgProperty): Option<real>
  {
    if prop.PowerProp? then p.power else p.speedMs
  }

  /** The value a point contributes: present, and not 0 for power. */
  function Counted(p: TrackPoint, prop: AvgProperty): (r: seq<real>)
    ensures |r| <= 1
  {
    var v := PropValue(p, prop);
    if v.Some? && !(prop.PowerProp? && v.value == 0.0) then [v.value] else []
  }

  /** The values that enter the average, in order. */
  function CountedValues(pts: seq<TrackPoint>, prop: AvgProperty): (r: seq<real>)
    ensures |r| <= |pts|
  {
    if |pts| == 0 then [] else CountedValues(pts[..|pts| - 1], prop) + Counted(pts[|pts| - 1], prop)
  }

  /** The mean of the counted values, 0 when there is none. */
  function AverageOf(pts: seq<TrackPoint>, prop: AvgProperty): real
  {
    var vs := CountedValues(pts, prop);
    if |vs| > 0 then Mean(vs) else 0.0
  }

  lemma CountedStep(pts: seq<TrackPoint>, i: nat, prop: AvgProperty)
    requires i < |pts|
    ensures CountedValues(pts[..i + 1], prop) == CountedValues(pts[..i], prop) + Counted(pts[i], prop)
    ensures Sum(CountedValues(pts[..i + 1], prop)) ==
      Sum(CountedValues(pts[..i], prop)) + (if |Counted(pts[i], prop)| == 1 then Counted(pts[i], prop)[0] else 0.0)
    ensures |CountedValues(pts[..i + 1], prop)| == |CountedValues(pts[..i], prop)| + |Counted(pts[i], prop)|
  {
    assert pts[..i + 1][..i] == pts[..i];
    var c := Counted(pts[i], prop);
    SumAppend(CountedValues(pts[..i], prop), c);
    if |c| == 1 {
      assert c[..0] == [];
    }
  }

  /** The running sum and count of calculateAverage's loop. */
  method SumCounted(pts: seq<TrackPoint>, prop: AvgProperty) returns (sum: real, count: nat)
    ensures sum == Sum(CountedValues(pts, prop)) && count == |CountedValues(pts, prop)|
  {
    sum := 0.0;
    count := 0;
    var i := 0;
    while i < |pts|
      invariant 0 <= i <= |pts|
      invariant sum == Sum(CountedValues(pts[..i], prop))
      invariant count == |CountedValues(pts[..i], prop)|
    {
      sum, count := AddCounted(pts, i, prop, sum, count);
      i := i + 1;
    }
    assert pts[..i] == pts;
  }

  /** The loop body at point i: its value, when it counts, joins the sum. */
  method AddCounted(pts: seq<TrackPoint>, i: nat, prop: AvgProperty, sum: real, count: nat)
    returns (sum': real, count': nat)
    requires i < |pts|
    requires sum == Sum(CountedValues(pts[..i], prop)) && count == |CountedValues(pts[..i], prop)|
    ensures sum' == Sum(CountedValues(pts[..i + 1], prop)) && count' == |CountedValues(pts[..i + 1], prop)|
  {
    var value := Counted(pts[i], prop);
    CountedStep(pts, i, prop);
    sum', count' := sum, count;
    if |value| == 1 {
      sum' := sum + value[0];
      count' := count + 1;
    }
  }

  /** calculateAverage: the mean of the present values of the property,
      leaving out zero powers; 0 when nothing qualifies. */
  method CalculateAverage(pts: seq<TrackPoint>, prop: AvgProperty) returns (avg: real)
    ensures avg == AverageOf(pts, prop)
  {
    if |pts| == 0 {
      return 0.0;
    }
    var sum, count := SumCounted(pts, prop);
    avg := if count > 0 then sum / count as real else 0.0;
  }

  /** Points without the value, and zero powers, do not move the average;
      with values it lies between the least and the greatest of them. */
  lemma AverageBounds(pts: seq<TrackPoint>, prop: AvgProperty, lo: real, hi: real)
    requires forall k :: 0 <= k < |pts| && PropValue(pts[k], prop).Some? ==> lo <= PropValue(pts[k], prop).value <= hi
    ensures |CountedValues(pts, prop)| > 0 ==> lo <= AverageOf(pts, prop) <= hi
  {
    CountedWithin(pts, prop, lo, hi);
    if |CountedValues(pts, prop)| > 0 {
      MeanBounds(CountedValues(pts, prop), lo, hi);
    }
  }

  lemma {:induction false} CountedWithin(pts: seq<TrackPoint>, prop: AvgProperty, lo: real, hi: real)
    requires forall k :: 0 <= k < |pts| && PropValue(pts[k], prop).Some? ==> lo <= PropValue(pts[k], prop).value <= hi
    ensures forall k :: 0 <= k < |CountedValues(pts, prop)| ==> lo <= CountedValues(pts, prop)[k] <= hi
  {
    if |pts| > 0 {
      var q := pts[..|pts| - 1];
      assert forall k :: 0 <= k < |q| ==> q[k] == pts[k];
      CountedWithin(q, prop, lo, hi);
    }
  }

  /** A recorded zero power is not a value of the power average. */
  lemma ZeroPowerIgnored(pts: seq<TrackPoint>, p: TrackPoint)
    requires p.power == Some(0.0)
    ensures CountedValues(pts + [p], PowerProp) == CountedValues(pts, PowerProp)
  {
    assert (pts + [p])[..|pts|] == pts;
  }

  // ---------------------------------------------------------------------
  // calculateWeightedAverage

  /** The fields of a saved simulated segment the comparison reads. */
  datatype SimSegment = SimSegment(startDist: real, endDist: real, distance: real, power: real, speedKmh: real,
                                   gradePct: real)

  /** The two properties averaged over simulated segments. */
  datatype SegProperty = PowerW | SpeedKmh

  function SegValue(s: SimSegment, prop: SegProperty): real
  {
    if prop.PowerW? then s.power else s.speedKmh
  }

  /** A segment as the weighted average sees it: the value averaged and the
      distance it is weighted by. */
  datatype Weighted = Weighted(value: real, distance: real)

  /** The value and distance of each segment for one property. */
  function Weighing(segs: seq<SimSegment>, prop: SegProperty): (ws: seq<Weighted>)
    ensures |ws| == |segs|
    ensures forall k :: 0 <= k < |segs| ==> ws[k] == Weighted(SegValue(segs[k], prop), segs[k].distance)
  {
    seq(|segs|, k requires 0 <= k < |segs| => Weighted(SegValue(segs[k], prop), segs[k].distance))
  }

  /** The weight of a segment: its distance when positive, else 0. */
  function Weight(w: Weighted): real
  {
    if w.distance > 0.0 then w.distance else 0.0
  }

  /** value × distance for a segment of positive distance, else 0. */
  function Share(w: Weighted): real
  {
    if w.distance > 0.0 then w.value * w.distance else 0.0
  }

  /** Sum of value × distance over the segments of positive distance. */
  function ValueDist(ws: seq<Weighted>): real
  {
    if |ws| == 0 then 0.0 else ValueDist(ws[..|ws| - 1]) + Share(ws[|ws| - 1])
  }

  /** Sum of the positive distances. */
  function WeightDist(ws: seq<Weighted>): real
  {
    if |ws| == 0 then 0.0 else WeightDist(ws[..|ws| - 1]) + Weight(ws[|ws| - 1])
  }

  /** The distance-weighted mean of a property, 0 without any segment of
      positive distance. */
  function WeightedAverageOf(segs: seq<SimSegment>, prop: SegProperty): real
  {
    var ws := Weighing(segs, prop);
    GuardedRatio(ValueDist(ws), WeightDist(ws))
  }

  /** calculateWeightedAverage over the segments of positive distance. */
  method CalculateWeightedAverage(segs: seq<SimSegment>, prop: SegProperty) returns (avg: real)
    ensures avg == WeightedAverageOf(segs, prop)
  {
    ghost var ws := Weighing(segs, prop);
    var totalValueDist := 0.0;
    var totalDist := 0.0;
    var i := 0;
    while i < |segs|
      invariant 0 <= i <= |segs|
      invariant totalValueDist == ValueDist(ws[..i])
      invariant totalDist == WeightDist(ws[..i])
    {
      assert ws[..i + 1][..i] == ws[..i];
      var seg := segs[i];
      if seg.distance > 0.0 {
        totalValueDist := totalValueDist + SegValue(seg, prop) * seg.distance;
        totalDist := totalDist + seg.distance;
      }
      i := i + 1;
    }
    assert ws[..i] == ws;
    avg := if totalDist > 0.0 then totalValueDist / totalDist else 0.0;
  }

  /** The distance sum is never negative, and it is positive exactly when
      some segment has a positive distance. */
  lemma {:induction false} PositiveWeight(ws: seq<Weighted>)
    ensures WeightDist(ws) >= 0.0
    ensures WeightDist(ws) > 0.0 <==> exists k :: 0 <= k < |ws| && ws[k].distance > 0.0
  {
    if |ws| > 0 {
      var q := ws[..|ws| - 1];
      PositiveWeight(q);
      if exists k :: 0 <= k < |q| && q[k].distance > 0.0 {
        var k :| 0 <= k < |q| && q[k].distance > 0.0;
        assert ws[k] == q[k];
      }
      if exists k :: 0 <= k < |ws| && ws[k].distance > 0.0 {
        var k :| 0 <= k < |ws| && ws[k].distance > 0.0;
        if k < |q| {
          assert q[k] == ws[k];
        }
      }
    }
  }

  /** The sums keep the bounds of the values per unit of distance. */
  lemma {:induction false} WeightedSumsBounds(ws: seq<Weighted>, lo: real, hi: real)
    requires forall k :: 0 <= k < |ws| && ws[k].distance > 0.0 ==> lo <= ws[k].value <= hi
    ensures Within(lo, hi, WeightDist(ws), ValueDist(ws))
  {
    if |ws| == 0 {
      AddBounds(lo, hi, 0.0, 0.0, 0.0, 0.0, WeightDist(ws), ValueDist(ws));
    } else {
      var q := ws[..|ws| - 1];
      var w := ws[|ws| - 1];
      assert forall k :: 0 <= k < |q| ==> q[k] == ws[k];
      WeightedSumsBounds(q, lo, hi);
      ShareBounds(w, lo, hi);
      AddBounds(lo, hi, WeightDist(q), ValueDist(q), Weight(w), Share(w), WeightDist(ws), ValueDist(ws));
    }
  }

  /** One segment's share lies between its weight times the bounds. */
  lemma ShareBounds(w: Weighted, lo: real, hi: real)
    requires w.distance > 0.0 ==> lo <= w.value <= hi
    ensures Within(lo, hi, Weight(w), Share(w))
  {
    if w.distance > 0.0 {
      assert lo * w.distance <= w.value * w.distance;
      assert w.value * w.distance <= hi * w.distance;
    }
  }

  /** With some segment of positive distance, the weighted mean lies between
      the least and the greatest value of those segments; without one it is 0. */
  lemma WeightedAverageBounds(segs: seq<SimSegment>, prop: SegProperty, lo: real, hi: real)
    requires forall k :: 0 <= k < |segs| && segs[k].distance > 0.0 ==> lo <= SegValue(segs[k], prop) <= hi
    ensures (exists k :: 0 <= k < |segs| && segs[k].distance > 0.0) ==> lo <= WeightedAverageOf(segs, prop) <= hi
    ensures (forall k :: 0 <= k < |segs| ==> segs[k].distance <= 0.0) ==> WeightedAverageOf(segs, prop) == 0.0
  {
    var ws := Weighing(segs, prop);
    assert forall k :: 0 <= k < |ws| ==> ws[k].distance == segs[k].distance;
    WeightedSumsBounds(ws, lo, hi);
    GuardedRatioBounds(ValueDist(ws), WeightDist(ws), lo, hi);
    PositiveWeight(ws);
  }

  // ---------------------------------------------------------------------
  // simpleMovingAverage and movingNoteAverage

  /** simpleMovingAverage: each entry is the mean over the window
      [i − ⌊w/2⌋, i + ⌊w/2⌋] clamped to the data. */
  method SimpleMovingAverage(data: seq<real>, windowSize: int) returns (smoothed: seq<real>)
    requires windowSize >= 0
    ensures |smoothed| == |data|
    ensures forall i :: 0 <= i < |data| ==> smoothed[i] == WindowMean(data, i, windowSize / 2)
  {
    smoothed := [];
    var i := 0;
    while i < |data|
      invariant 0 <= i <= |data| && |smoothed| == i
      invariant forall k :: 0 <= k < i ==> smoothed[k] == WindowMean(data, k, windowSize / 2)
    {
      var mean := MeanOver(data, i - windowSize / 2, i + windowSize / 2);
      smoothed := smoothed + [mean];
      i := i + 1;
    }
  }

  /** movingNoteAverage: the running mean, entry i the mean of the first
      i + 1 values. */
  method MovingNoteAverage(data: seq<real>) returns (avgs: seq<real>)
    ensures |avgs| == |data|
    ensures forall i :: 0 <= i < |data| ==> avgs[i] == Mean(data[..i + 1])
  {
    avgs := [];
    var sum := 0.0;
    var i := 0;
    while i < |data|
      invariant 0 <= i <= |data| && |avgs| == i
      invariant sum == Sum(data[..i])
      invariant forall k :: 0 <= k < i ==> avgs[k] == Mean(data[..k + 1])
    {
      SumAppend(data[..i], [data[i]]);
      assert data[..i] + [data[i]] == data[..i + 1];
      assert Sum([data[i]]) == data[i] by { assert [data[i]][..0] == []; }
      sum := sum + data[i];
      avgs := avgs + [sum / (i + 1) as real];
      i := i + 1;
    }
  }

  /** Scores between 0 and 100 keep both averages between 0 and 100. */
  lemma ScoreAveragesBounded(data: seq<real>, i: nat, w: int)
    requires i < |data| && w >= 0
    requires forall k :: 0 <= k < |data| ==> 0.0 <= data[k] <= 100.0
    ensures 0.0 <= Mean(data[..i + 1]) <= 100.0
    ensures 0.0 <= WindowMean(data, i, w / 2) <= 100.0
  {
    MeanBounds(data[..i + 1], 0.0, 100.0);
    WindowMeanBounds(data, i, w / 2, 0.0, 100.0);
  }

  // ---------------------------------------------------------------------
  // findPointIndex

  /** findPointIndex: binary search for the first point at or past a
      distance. Whatever the order of the points, a found index is at or past
      the distance; on points in distance order it is the first such, and −1
      means none is. */
  method FindPointIndex(pts: seq<TrackPoint>, dist: real) returns (result: int)
    ensures result == -1 || (0 <= result < |pts| && pts[result].dist >= dist)
    ensures DistNonDecreasing(pts) && result >= 0 ==> forall j :: 0 <= j < result ==> pts[j].dist < dist
    ensures DistNonDecreasing(pts) && result == -1 ==> forall j :: 0 <= j < |pts| ==> pts[j].dist < dist
  {
    var low, high := 0, |pts| - 1;
    result := -1;
    while low <= high
      invariant 0 <= low <= high + 1 <= |pts|
      invariant result == -1 ==> high == |pts| - 1
      invariant result != -1 ==> result == high + 1 && result < |pts| && pts[result].dist >= dist
      invariant DistNonDecreasing(pts) ==> forall j :: 0 <= j < low ==> pts[j].dist < dist
      decreases high - low
    {
      var mid := (low + high) / 2;
      if pts[mid].dist >= dist {
        result := mid;
        high := mid - 1;
      } else {
        low := mid + 1;
      }
    }
  }

  // ---------------------------------------------------------------------
  // runComparison: the scoring rules

  /** The recorded points whose distance lies in [start, end], in order. */
  function PointsIn(pts: seq<TrackPoint>, start: real, end: real): (r: seq<TrackPoint>)
    ensures |r| <= |pts|
    ensures forall p :: p in r <==> p in pts && start <= p.dist <= end
  {
    if |pts| == 0 then []
    else (if start <= pts[0].dist <= end then [pts[0]] else []) + PointsIn(pts[1..], start, end)
  }

  /** The simulated segments that overlap (start, end): starting before its
      end and ending after its start. */
  function SegmentsOverlapping(segs: seq<SimSegment>, start: real, end: real): (r: seq<SimSegment>)
    ensures |r| <= |segs|
    ensures forall s :: s in r <==> s in segs && s.startDist < end && s.endDist > start
  {
    if |segs| == 0 then []
    else (if segs[0].startDist < end && segs[0].endDist > start then [segs[0]] else []) +
         SegmentsOverlapping(segs[1..], start, end)
  }

  /** The global score of a power and a speed score, power weighing three
      times as much; it lies between the two. */
  function Blend(powerScore: real, speedScore: real): (g: real)
    ensures Min(powerScore, speedScore) <= g <= Max(powerScore, speedScore)
  {
    (3.0 * powerScore + 1.0 * speedScore) / 4.0
  }

  /** A segment's global score: the speed score alone on descents of 5.5 %
      or steeper, the blend otherwise. */
  function SegmentGlobal(powerScore: real, speedScore: real, gradePct: real): real
  {
    if gradePct <= -5.5 then speedScore else Blend(powerScore, speedScore)
  }

  /** A scored segment: the saved segment, the recorded averages, the three
      scores, whether the segment is long enough to count, and whether it had
      recorded points (a segment without any is pushed before the running sum
      is reached, so it never counts). */
  datatype SegmentResult = SegmentResult(seg: SimSegment, realPower: real, realSpeedKmh: real,
                                         powerScore: real, speedScore: real, globalScore: real, valid: bool,
                                         scored: bool)

  /** A result enters the final score: long enough and with recorded points. */
  predicate Counts(r: SegmentResult)
  {
    r.valid && r.scored
  }

  /** The scores of one simulated segment against the recorded points. */
  function ScoreSegment(seg: SimSegment, pts: seq<TrackPoint>): SegmentResult
  {
    var inSeg := PointsIn(pts, seg.startDist, seg.endDist);
    var valid := seg.distance > 100.0;
    if |inSeg| == 0 then SegmentResult(seg, 0.0, 0.0, 0.0, 0.0, 0.0, valid, false)
    else
      var realPower := AverageOf(inSeg, PowerProp);
      var realSpeed := AverageOf(inSeg, SpeedProp);
      var powerScore := CalculateMetricScore(Some(seg.power), Some(realPower));
      var speedScore := CalculateMetricScore(Some(seg.speedKmh / 3.6), Some(realSpeed));
      SegmentResult(seg, realPower, realSpeed * 3.6, powerScore, speedScore,
                    SegmentGlobal(powerScore, speedScore, seg.gradePct), valid, true)
  }

  /** What a segment's scores mean: all three lie in [0, 100]; a segment
      without recorded points scores 0 everywhere; a segment is valid exactly
      when it is longer than 100 m, and enters the final score exactly when it
      is valid and has recorded points; a steep descent is judged on speed alone,
      any other segment on the blend; recorded averages within 10 % of the
      simulated power score 100 for power. */
  lemma ScoreSegmentFacts(seg: SimSegment, pts: seq<TrackPoint>)
    ensures var r := ScoreSegment(seg, pts);
      0.0 <= r.powerScore <= 100.0 && 0.0 <= r.speedScore <= 100.0 && 0.0 <= r.globalScore <= 100.0
    ensures ScoreSegment(seg, pts).valid <==> seg.distance > 100.0
    ensures Counts(ScoreSegment(seg, pts)) <==> seg.distance > 100.0 && |PointsIn(pts, seg.startDist, seg.endDist)| > 0
    ensures ScoreSegment(seg, pts).seg == seg
    ensures |PointsIn(pts, seg.startDist, seg.endDist)| == 0 ==>
      var r := ScoreSegment(seg, pts);
      r.powerScore == 0.0 && r.speedScore == 0.0 && r.globalScore == 0.0 && r.realPower == 0.0
    ensures |PointsIn(pts, seg.startDist, seg.endDist)| > 0 ==>
      var r := ScoreSegment(seg, pts);
      r.globalScore == (if seg.gradePct <= -5.5 then r.speedScore else (3.0 * r.powerScore + r.speedScore) / 4.0)
    ensures (|PointsIn(pts, seg.startDist, seg.endDist)| > 0 && seg.power > 0.0 &&
             0.9 * seg.power <= ScoreSegment(seg, pts).realPower <= 1.1 * seg.power) ==>
      ScoreSegment(seg, pts).powerScore == 100.0
  {
    var r := ScoreSegment(seg, pts);
    if |PointsIn(pts, seg.startDist, seg.endDist)| > 0 && seg.power > 0.0 &&
       0.9 * seg.power <= r.realPower <= 1.1 * seg.power {
      RatioWithin(r.realPower, seg.power);
      RatioScoreBands(r.realPower / seg.power, r.realPower / seg.power);
    }
  }

  lemma RatioWithin(x: real, s: real)
    requires s > 0.0 && 0.9 * s <= x <= 1.1 * s
    ensures x > 0.0 && 0.9 <= x / s <= 1.1
  {
    QuotientBounds(x, s, 0.9, 1.1);
  }

  /** The global scores of the segments that count, in order. */
  function ValidGlobals(results: seq<SegmentResult>): (r: seq<real>)
    ensures |r| <= |results|
  {
    if |results| == 0 then []
    else ValidGlobals(results[..|results| - 1]) +
         (if Counts(results[|results| - 1]) then [results[|results| - 1].globalScore] else [])
  }

  /** The final score: the mean global score of the segments that count, 0
      when none does. */
  function FinalScore(results: seq<SegmentResult>): real
  {
    var gs := ValidGlobals(results);
    if |gs| > 0 then Mean(gs) else 0.0
  }

  lemma {:induction false} ValidGlobalsWithin(results: seq<SegmentResult>)
    requires forall k :: 0 <= k < |results| ==> 0.0 <= results[k].globalScore <= 100.0
    ensures forall k :: 0 <= k < |ValidGlobals(results)| ==> 0.0 <= ValidGlobals(results)[k] <= 100.0
  {
    if |results| > 0 {
      var q := results[..|results| - 1];
      assert forall k :: 0 <= k < |q| ==> q[k] == results[k];
      ValidGlobalsWithin(q);
    }
  }

  /** With every global score out of 100, so is the final score. */
  lemma FinalScoreBounds(results: seq<SegmentResult>)
    requires forall k :: 0 <= k < |results| ==> 0.0 <= results[k].globalScore <= 100.0
    ensures 0.0 <= FinalScore(results) <= 100.0
  {
    ValidGlobalsWithin(results);
    if |ValidGlobals(results)| > 0 {
      MeanBounds(ValidGlobals(results), 0.0, 100.0);
    }
  }

  /** A segment that is not valid leaves the final score as it was. */
  lemma ShortSegmentIgnored(results: seq<SegmentResult>, r: SegmentResult)
    requires !r.valid
    ensures FinalScore(results + [r]) == FinalScore(results)
  {
    ValidGlobalsStep(results, r);
    assert ValidGlobals(results) + [] == ValidGlobals(results);
  }

  /** A segment without recorded points leaves the final score as it was,
      however long it is. */
  lemma UnrecordedSegmentIgnored(results: seq<SegmentResult>, seg: SimSegment, pts: seq<TrackPoint>)
    requires |PointsIn(pts, seg.startDist, seg.endDist)| == 0
    ensures FinalScore(results + [ScoreSegment(seg, pts)]) == FinalScore(results)
  {
    ValidGlobalsStep(results, ScoreSegment(seg, pts));
    assert ValidGlobals(results) + [] == ValidGlobals(results);
  }

  /** The loop body over one simulated segment. */
  method ScoreOneSegment(seg: SimSegment, pts: seq<TrackPoint>) returns (r: SegmentResult)
    ensures r == ScoreSegment(seg, pts)
  {
    var inSeg := PointsIn(pts, seg.startDist, seg.endDist);
    var valid := seg.distance > 100.0;
    if |inSeg| == 0 {
      return SegmentResult(seg, 0.0, 0.0, 0.0, 0.0, 0.0, valid, false);
    }
    var realPower := CalculateAverage(inSeg, PowerProp);
    var realSpeed := CalculateAverage(inSeg, SpeedProp);
    var powerScore := CalculateMetricScore(Some(seg.power), Some(realPower));
    var speedScore := CalculateMetricScore(Some(seg.speedKmh / 3.6), Some(realSpeed));
    var globalScore;
    if seg.gradePct <= -5.5 {
      globalScore := speedScore;
    } else {
      globalScore := Blend(powerScore, speedScore);
    }
    r := SegmentResult(seg, realPower, realSpeed * 3.6, powerScore, speedScore, globalScore, valid, true);
  }

  /** A saved climb: where it starts and ends. */
  datatype SimClimb = SimClimb(startDist: real, endDist: real)

  /** A scored climb: the recorded and the distance-weighted simulated
      averages, and the three scores. */
  datatype ClimbResult = ClimbResult(climb: SimClimb, realPower: real, realSpeedKmh: real, simPower: real,
                                     simSpeedKmh: real, powerScore: real, speedScore: real, globalScore: real)

  /** The scores of one climb, None when no recorded point lies on it or no
      simulated segment overlaps it. */
  function ScoreClimb(c: SimClimb, pts: seq<TrackPoint>, segs: seq<SimSegment>): (r: Option<ClimbResult>)
    ensures r.None? <==> |PointsIn(pts, c.startDist, c.endDist)| == 0 || |SegmentsOverlapping(segs, c.startDist, c.endDist)| == 0
  {
    var inClimb := PointsIn(pts, c.startDist, c.endDist);
    var over := SegmentsOverlapping(segs, c.startDist, c.endDist);
    if |inClimb| == 0 || |over| == 0 then None
    else
      var realPower := AverageOf(inClimb, PowerProp);
      var realSpeed := AverageOf(inClimb, SpeedProp);
      var simPower := WeightedAverageOf(over, PowerW);
      var simSpeed := WeightedAverageOf(over, SpeedKmh);
      var powerScore := CalculateMetricScore(Some(simPower), Some(realPower));
      var speedScore := CalculateMetricScore(Some(simSpeed / 3.6), Some(realSpeed));
      Some(ClimbResult(c, realPower, realSpeed * 3.6, simPower, simSpeed, powerScore, speedScore,
                       Blend(powerScore, speedScore)))
  }

  /** What a climb's scores mean: all in [0, 100], and the global score the
      blend whatever the grade. */
  lemma ClimbScoreFacts(c: SimClimb, pts: seq<TrackPoint>, segs: seq<SimSegment>)
    ensures ScoreClimb(c, pts, segs).Some? ==>
      var r := ScoreClimb(c, pts, segs).value;
      r.climb == c && 0.0 <= r.powerScore <= 100.0 && 0.0 <= r.speedScore <= 100.0 &&
      0.0 <= r.globalScore <= 100.0 && r.globalScore == (3.0 * r.powerScore + r.speedScore) / 4.0
  {
  }

  /** The simulated power of a scored climb lies between the least and the
      greatest power of the overlapping segments of positive distance. */
  lemma ClimbPowerBounds(c: SimClimb, pts: seq<TrackPoint>, segs: seq<SimSegment>, lo: real, hi: real)
    requires forall k :: 0 <= k < |segs| && segs[k].distance > 0.0 ==> lo <= segs[k].power <= hi
    ensures ScoreClimb(c, pts, segs).Some? &&
            (exists k :: 0 <= k < |segs| && segs[k].startDist < c.endDist && segs[k].endDist > c.startDist &&
                         segs[k].distance > 0.0) ==>
      lo <= ScoreClimb(c, pts, segs).value.simPower <= hi
  {
    ClimbSimPower(c, pts, segs);
    OverlapPowerBounds(segs, c, lo, hi);
  }

  lemma ClimbSimPower(c: SimClimb, pts: seq<TrackPoint>, segs: seq<SimSegment>)
    ensures ScoreClimb(c, pts, segs).Some? ==>
      ScoreClimb(c, pts, segs).value.simPower == WeightedAverageOf(SegmentsOverlapping(segs, c.startDist, c.endDist), PowerW)
  {
  }

  /** The weighted power over the segments overlapping a climb keeps the
      bounds of their powers, once one of them has a positive distance. */
  lemma {:induction false} OverlapPowerBounds(segs: seq<SimSegment>, c: SimClimb, lo: real, hi: real)
    requires forall k :: 0 <= k < |segs| && segs[k].distance > 0.0 ==> lo <= segs[k].power <= hi
    ensures (exists k :: 0 <= k < |segs| && segs[k].startDist < c.endDist && segs[k].endDist > c.startDist &&
                         segs[k].distance > 0.0) ==>
      lo <= WeightedAverageOf(SegmentsOverlapping(segs, c.startDist, c.endDist), PowerW) <= hi
  {
    var over := SegmentsOverlapping(segs, c.startDist, c.endDist);
    forall k | 0 <= k < |over| && over[k].distance > 0.0
      ensures lo <= SegValue(over[k], PowerW) <= hi
    {
      assert over[k] in segs;
    }
    WeightedAverageBounds(over, PowerW, lo, hi);
    forall k | 0 <= k < |segs| && segs[k].startDist < c.endDist && segs[k].endDist > c.startDist && segs[k].distance > 0.0
      ensures lo <= WeightedAverageOf(over, PowerW) <= hi
    {
      assert segs[k] in over;
      var j :| 0 <= j < |over| && over[j] == segs[k];
      assert over[j].distance > 0.0;
    }
  }

  /** The climb results, in climb order, of the climbs that could be scored. */
  function ClimbResults(climbs: seq<SimClimb>, pts: seq<TrackPoint>, segs: seq<SimSegment>): (r: seq<ClimbResult>)
    ensures |r| <= |climbs|
  {
    if |climbs| == 0 then []
    else
      var last := ScoreClimb(climbs[|climbs| - 1], pts, segs);
      ClimbResults(climbs[..|climbs| - 1], pts, segs) + (if last.Some? then [last.value] else [])
  }

  /** The loop body over one climb. */
  method ScoreOneClimb(c: SimClimb, pts: seq<TrackPoint>, segs: seq<SimSegment>) returns (r: Option<ClimbResult>)
    ensures r == ScoreClimb(c, pts, segs)
  {
    var inClimb := PointsIn(pts, c.startDist, c.endDist);
    var over := SegmentsOverlapping(segs, c.startDist, c.endDist);
    if |inClimb| == 0 || |over| == 0 {
      return None;
    }
    var realPower := CalculateAverage(inClimb, PowerProp);
    var realSpeed := CalculateAverage(inClimb, SpeedProp);
    var simPower := CalculateWeightedAverage(over, PowerW);
    var simSpeed := CalculateWeightedAverage(over, SpeedKmh);
    var powerScore := CalculateMetricScore(Some(simPower), Some(realPower));
    var speedScore := CalculateMetricScore(Some(simSpeed / 3.6), Some(realSpeed));
    var globalScore := Blend(powerScore, speedScore);
    r := Some(ClimbResult(c, realPower, realSpeed * 3.6, simPower, simSpeed, powerScore, speedScore, globalScore));
  }

  /** The results of the segments, in order. */
  function ScoreAll(segs: seq<SimSegment>, pts: seq<TrackPoint>): (rs: seq<SegmentResult>)
    ensures |rs| == |segs|
  {
    seq(|segs|, k requires 0 <= k < |segs| => ScoreSegment(segs[k], pts))
  }

  lemma ScoreAllStep(segs: seq<SimSegment>, i: nat, pts: seq<TrackPoint>)
    requires i < |segs|
    ensures ScoreAll(segs[..i + 1], pts) == ScoreAll(segs[..i], pts) + [ScoreSegment(segs[i], pts)]
  {
    assert segs[..i + 1][..i] == segs[..i];
  }

  lemma GlobalScoreBounds(seg: SimSegment, pts: seq<TrackPoint>)
    ensures 0.0 <= ScoreSegment(seg, pts).globalScore <= 100.0
  {
    ScoreSegmentFacts(seg, pts);
  }

  /** Every global score of the results is out of 100. */
  lemma ScoreAllBounds(segs: seq<SimSegment>, pts: seq<TrackPoint>)
    ensures forall k :: 0 <= k < |segs| ==> 0.0 <= ScoreAll(segs, pts)[k].globalScore <= 100.0
  {
    forall k | 0 <= k < |segs|
      ensures 0.0 <= ScoreAll(segs, pts)[k].globalScore <= 100.0
    {
      GlobalScoreBounds(segs[k], pts);
    }
  }

  /** The segment loop of runComparison: one result per simulated segment,
      with the running sum and count of the global scores that count. */
  method ScoreSegments(pts: seq<TrackPoint>, segs: seq<SimSegment>)
    returns (results: seq<SegmentResult>, totalScoreSum: real, segmentsCounted: nat)
    ensures results == ScoreAll(segs, pts)
    ensures totalScoreSum == Sum(ValidGlobals(results)) && segmentsCounted == |ValidGlobals(results)|
  {
    results := [];
    totalScoreSum := 0.0;
    segmentsCounted := 0;
    var i := 0;
    while i < |segs|
      invariant 0 <= i <= |segs|
      invariant Tallied(segs[..i], pts, results, totalScoreSum, segmentsCounted)
    {
      var r := ScoreOneSegment(segs[i], pts);
      TalliedStep(segs, i, pts, results, r, totalScoreSum, segmentsCounted);
      if r.scored && r.valid {
        totalScoreSum := totalScoreSum + r.globalScore;
        segmentsCounted := segmentsCounted + 1;
      }
      results := results + [r];
      i := i + 1;
    }
    assert segs[..i] == segs;
  }

  /** The state of the segment loop: the results of the segments so far and
      the sum and count of the global scores that count. */
  ghost predicate Tallied(segs: seq<SimSegment>, pts: seq<TrackPoint>, results: seq<SegmentResult>,
                          totalScoreSum: real, segmentsCounted: nat)
  {
    results == ScoreAll(segs, pts) &&
    totalScoreSum == Sum(ValidGlobals(results)) && segmentsCounted == |ValidGlobals(results)|
  }

  lemma TalliedStep(segs: seq<SimSegment>, i: nat, pts: seq<TrackPoint>, results: seq<SegmentResult>,
                    r: SegmentResult, totalScoreSum: real, segmentsCounted: nat)
    requires i < |segs| && r == ScoreSegment(segs[i], pts)
    requires Tallied(segs[..i], pts, results, totalScoreSum, segmentsCounted)
    ensures Tallied(segs[..i + 1], pts, results + [r], totalScoreSum + (if Counts(r) then r.globalScore else 0.0),
                    segmentsCounted + (if Counts(r) then 1 else 0))
  {
    ScoreAllStep(segs, i, pts);
    ValidGlobalsStep(results, r);
  }

  /** The climb loop of runComparison. */
  method ScoreClimbs(pts: seq<TrackPoint>, segs: seq<SimSegment>, climbs: seq<SimClimb>)
    returns (climbResults: seq<ClimbResult>)
    ensures climbResults == ClimbResults(climbs, pts, segs)
  {
    climbResults := [];
    var j := 0;
    while j < |climbs|
      invariant 0 <= j <= |climbs|
      invariant climbResults == ClimbResults(climbs[..j], pts, segs)
    {
      climbResults := CollectClimb(climbs, j, pts, segs, climbResults);
      j := j + 1;
    }
    assert climbs[..j] == climbs;
  }

  /** The loop body over climb j: its result is kept when it could be scored. */
  method CollectClimb(climbs: seq<SimClimb>, j: nat, pts: seq<TrackPoint>, segs: seq<SimSegment>,
                      climbResults: seq<ClimbResult>) returns (climbResults': seq<ClimbResult>)
    requires j < |climbs| && climbResults == ClimbResults(climbs[..j], pts, segs)
    ensures climbResults' == ClimbResults(climbs[..j + 1], pts, segs)
  {
    var c := ScoreOneClimb(climbs[j], pts, segs);
    ClimbResultsStep(climbs, j, pts, segs);
    climbResults' := climbResults;
    if c.Some? {
      climbResults' := climbResults + [c.value];
    }
  }

  lemma ClimbResultsStep(climbs: seq<SimClimb>, j: nat, pts: seq<TrackPoint>, segs: seq<SimSegment>)
    requires j < |climbs|
    ensures var last := ScoreClimb(climbs[j], pts, segs);
      ClimbResults(climbs[..j + 1], pts, segs) == ClimbResults(climbs[..j], pts, segs) + (if last.Some? then [last.value] else [])
  {
    assert climbs[..j + 1][..j] == climbs[..j];
  }

  /** What one comparison produces. */
  datatype Report = Report(segments: seq<SegmentResult>, climbs: seq<ClimbResult>, finalScore: real,
                           segmentsCounted: nat)

  /** The scoring of runComparison: nothing without recorded points; else one
      result per simulated segment, the climbs that could be scored, and the
      final score, the mean global score of the segments longer than 100 m
      that have recorded points, which lies in [0, 100]. */
  method RunComparison(pts: seq<TrackPoint>, segs: seq<SimSegment>, climbs: seq<SimClimb>) returns (report: Option<Report>)
    ensures |pts| == 0 <==> report.None?
    ensures report.Some? ==>
      var rep := report.value;
      |rep.segments| == |segs| &&
      (forall k :: 0 <= k < |segs| ==> rep.segments[k] == ScoreSegment(segs[k], pts)) &&
      rep.climbs == ClimbResults(climbs, pts, segs) &&
      rep.segmentsCounted == |ValidGlobals(rep.segments)| &&
      rep.finalScore == FinalScore(rep.segments) &&
      0.0 <= rep.finalScore <= 100.0
  {
    if |pts| == 0 {
      return None;
    }
    var results, totalScoreSum, segmentsCounted := ScoreSegments(pts, segs);
    ScoreAllBounds(segs, pts);
    var climbResults := ScoreClimbs(pts, segs, climbs);
    FinalScoreBounds(results);
    var finalScore := if segmentsCounted > 0 then totalScoreSum / segmentsCounted as real else 0.0;
    report := Some(Report(results, climbResults, finalScore, segmentsCounted));
  }

  lemma ValidGlobalsStep(results: seq<SegmentResult>, r: SegmentResult)
    ensures ValidGlobals(results + [r]) == ValidGlobals(results) + (if Counts(r) then [r.globalScore] else [])
    ensures Sum(ValidGlobals(results + [r])) == Sum(ValidGlobals(results)) + (if Counts(r) then r.globalScore else 0.0)
  {
    assert (results + [r])[..|results|] == results;
    SumAppend(ValidGlobals(results), if Counts(r) then [r.globalScore] else []);
    assert [r.globalScore][..0] == [];
  }

  // ---------------------------------------------------------------------
  // colorForScore

  datatype ScoreColor = Green | Yellow | Red

  /** Green from 90, yellow from 60, red below. */
  function ColorForScore(score: real): (c: ScoreColor)
    ensures c == Green <==> score >= 90.0
    ensures c == Yellow <==> 60.0 <= score < 90.0
    ensures c == Red <==> score < 60.0
  {
    if score >= 90.0 then Green else if score >= 60.0 then Yellow else Red
  }
}
