/** metrics.js: slope smoothing, route totals and the activity metrics
    (normalized power, averages, power zones, best effort, smoothing of
    series, power histogram). */
module Metrics {
  import opened Numeric
  import opened Track

  // ---------------------------------------------------------------------
  // Slope smoothing

  /** The forward-difference slope (percent) from a to b, or 0 when the two
      points are at most 0.1 m apart. */
  function ForwardSlope(a: TrackPoint, b: TrackPoint): real
  {
    var d := b.dist - a.dist;
    var e := b.ele - a.ele;
    if d > 0.1 then e / d * 100.0 else 0.0
  }

  /** The forward slope is the elevation change per 100 m of distance. */
  lemma ForwardSlopeMeaning(a: TrackPoint, b: TrackPoint)
    ensures b.dist - a.dist > 0.1 ==> ForwardSlope(a, b) * (b.dist - a.dist) == (b.ele - a.ele) * 100.0
    ensures b.dist - a.dist <= 0.1 ==> ForwardSlope(a, b) == 0.0
  {
    var d := b.dist - a.dist;
    if d > 0.1 {
      var q := (b.ele - a.ele) / d;
      assert (q * 100.0) * d == (q * d) * 100.0;
    }
  }

  /** The local slope of every point: the forward difference to the next
      point, the last point copying the one before it. */
  function LocalSlopes(pts: seq<TrackPoint>): (ls: seq<real>)
    requires |pts| >= 2
    ensures |ls| == |pts|
    ensures forall i {:trigger ls[i]} :: 0 <= i < |pts| - 1 ==> ls[i] == ForwardSlope(pts[i], pts[i + 1])
    ensures ls[|pts| - 1] == ls[|pts| - 2]
  {
    seq(|pts|, i requires 0 <= i < |pts| =>
      if i < |pts| - 1 then ForwardSlope(pts[i], pts[i + 1]) else ForwardSlope(pts[|pts| - 2], pts[|pts| - 1]))
  }

  /** `Math.floor(windowSize) || 1`: the half-width of the smoothing window. */
  function WindowRadius(windowSize: real): (w: int)
    ensures w != 0
    ensures Floor(windowSize) != 0 ==> w == Floor(windowSize)
    ensures 0.0 <= windowSize < 1.0 ==> w == 1
  {
    if Floor(windowSize) == 0 then 1 else Floor(windowSize)
  }

  /** The window smoothSlopes uses when its caller passes none. */
  const DEFAULT_SMOOTH_WINDOW: real := 10.0

  /** The route after smoothSlopes: for two points or more, each point gets
      its local slope and, as smoothed slope, the mean local slope over the
      clamped window of half-width WindowRadius(windowSize). */
  function SmoothSlopesSpec(pts: seq<TrackPoint>, windowSize: real): (r: seq<TrackPoint>)
    ensures |r| == |pts|
  {
    if |pts| < 2 then pts
    else
      var ls := LocalSlopes(pts);
      var w := WindowRadius(windowSize);
      seq(|pts|, i requires 0 <= i < |pts| =>
        pts[i].(localSlope := ls[i], smoothedSlope := WindowMean(ls, i, w)))
  }

  /** smoothSlopes, in place on the array of points. */
  method SmoothSlopes(a: array<TrackPoint>, windowSize: real)
    modifies a
    ensures a[..] == SmoothSlopesSpec(old(a[..]), windowSize)
  {
    var n := a.Length;
    if n < 2 {
      return;
    }
    ghost var orig := a[..];
    ghost var ls := LocalSlopes(orig);
    WriteLocalSlopes(a);
    var w := Floor(windowSize);
    if w == 0 {
      w := 1;
    }
    WriteSmoothedSlopes(a, w, orig, ls);
    assert a[..] == SmoothSlopesSpec(orig, windowSize);
  }

  /** The first pass of smoothSlopes: forward differences, the last point
      copying the one before. */
  method WriteLocalSlopes(a: array<TrackPoint>)
    requires a.Length >= 2
    modifies a
    ensures forall k :: 0 <= k < a.Length ==> a[k] == old(a[k]).(localSlope := LocalSlopes(old(a[..]))[k])
  {
    var n := a.Length;
    ghost var orig := a[..];
    ghost var ls := LocalSlopes(orig);
    var i := 1;
    while i < n
      invariant 1 <= i <= n
      invariant a[..] == SlopesUpTo(orig, ls, i - 1)
    {
      assert a[i - 1] == orig[i - 1] && a[i] == orig[i];
      var slope := ForwardSlope(a[i - 1], a[i]);
      a[i - 1] := a[i - 1].(localSlope := slope);
      SlopesUpToStep(orig, ls, i - 1);
      i := i + 1;
    }
    assert a[n - 2].localSlope == ls[n - 1];
    a[n - 1] := a[n - 1].(localSlope := a[n - 2].localSlope);
    SlopesUpToStep(orig, ls, n - 1);
  }

  /** The points with the first i given their local slopes. */
  ghost function SlopesUpTo(orig: seq<TrackPoint>, ls: seq<real>, i: nat): (r: seq<TrackPoint>)
    requires |ls| == |orig|
    ensures |r| == |orig|
  {
    seq(|orig|, k requires 0 <= k < |orig| => if k < i then orig[k].(localSlope := ls[k]) else orig[k])
  }

  lemma SlopesUpToStep(orig: seq<TrackPoint>, ls: seq<real>, i: nat)
    requires |ls| == |orig| && i < |orig|
    ensures SlopesUpTo(orig, ls, i)[i := orig[i].(localSlope := ls[i])] == SlopesUpTo(orig, ls, i + 1)
  {
  }

  /** The second pass of smoothSlopes: the clamped window mean of the local
      slopes, with half-width w. */
  method WriteSmoothedSlopes(a: array<TrackPoint>, w: int, ghost orig: seq<TrackPoint>, ghost ls: seq<real>)
    requires a.Length == |orig| == |ls|
    requires forall k :: 0 <= k < a.Length ==> a[k] == orig[k].(localSlope := ls[k])
    modifies a
    ensures forall k :: 0 <= k < a.Length ==>
      a[k] == orig[k].(localSlope := ls[k], smoothedSlope := WindowMean(ls, k, w))
  {
    var n := a.Length;
    var i := 0;
    while i < n
      invariant 0 <= i <= n
      invariant forall k :: 0 <= k < i ==> a[k] == orig[k].(localSlope := ls[k], smoothedSlope := WindowMean(ls, k, w))
      invariant forall k :: i <= k < n ==> a[k] == orig[k].(localSlope := ls[k])
    {
      var mean := WindowAverage(a, i, w, ls);
      a[i] := a[i].(smoothedSlope := mean);
      i := i + 1;
    }
  }

  /** The inner loop of the second pass: the mean local slope over the window
      of half-width w around point i, clamped to the route. */
  method WindowAverage(a: array<TrackPoint>, i: int, w: int, ghost ls: seq<real>) returns (mean: real)
    requires 0 <= i < a.Length == |ls|
    requires forall k :: 0 <= k < a.Length ==> a[k].localSlope == ls[k]
    ensures mean == WindowMean(ls, i, w)
  {
    var n := a.Length;
    var start := MaxInt(0, i - w);
    var end := MinInt(n - 1, i + w);
    var sum := 0.0;
    var count := 0;
    var j := start;
    while j <= end
      invariant start <= end ==> start <= j <= end + 1 && count == j - start && sum == Sum(ls[start..j])
      invariant start > end ==> j == start && count == 0 && sum == 0.0
    {
      assert ls[start..j + 1][..j - start] == ls[start..j];
      assert Sum(ls[start..j + 1]) == Sum(ls[start..j]) + ls[j];
      sum := sum + a[j].localSlope;
      count := count + 1;
      j := j + 1;
    }
    if start <= end {
      assert ls[start..j] == ls[start..end + 1];
    }
    mean := if count > 0 then sum / count as real else 0.0;
  }

  /** Smoothing writes only the two slope fields. */
  lemma SmoothSlopesWritesOnlySlopes(pts: seq<TrackPoint>, windowSize: real, i: nat)
    requires i < |pts|
    ensures SmoothSlopesSpec(pts, windowSize)[i].(localSlope := 0.0, smoothedSlope := 0.0)
         == pts[i].(localSlope := 0.0, smoothedSlope := 0.0)
  {
  }

  /** Smoothing twice gives the same route as smoothing once: both slopes are
      recomputed from distance and elevation, which smoothing leaves alone. */
  lemma SmoothSlopesIdempotent(pts: seq<TrackPoint>, windowSize: real)
    ensures SmoothSlopesSpec(SmoothSlopesSpec(pts, windowSize), windowSize) == SmoothSlopesSpec(pts, windowSize)
  {
    if |pts| >= 2 {
      var once := SmoothSlopesSpec(pts, windowSize);
      var twice := SmoothSlopesSpec(once, windowSize);
      forall k | 0 <= k < |pts|
        ensures once[k].dist == pts[k].dist && once[k].ele == pts[k].ele
      {
        SmoothSlopesWritesOnlySlopes(pts, windowSize, k);
      }
      LocalSlopesFollowGeometry(pts, once);
      var ls := LocalSlopes(pts);
      var w := WindowRadius(windowSize);
      forall k | 0 <= k < |pts|
        ensures twice[k] == once[k]
      {
        assert once[k] == pts[k].(localSlope := ls[k], smoothedSlope := WindowMean(ls, k, w));
        assert twice[k] == once[k].(localSlope := ls[k], smoothedSlope := WindowMean(ls, k, w));
      }
    }
  }

  /** Local slopes depend only on the distances and elevations of the points. */
  lemma LocalSlopesFollowGeometry(p: seq<TrackPoint>, q: seq<TrackPoint>)
    requires |p| == |q| >= 2
    requires forall k :: 0 <= k < |p| ==> p[k].dist == q[k].dist && p[k].ele == q[k].ele
    ensures LocalSlopes(p) == LocalSlopes(q)
  {
    var lp := LocalSlopes(p);
    var lq := LocalSlopes(q);
    forall k | 0 <= k < |p|
      ensures lp[k] == lq[k]
    {
      if k < |p| - 1 {
        assert lp[k] == ForwardSlope(p[k], p[k + 1]);
        assert lq[k] == ForwardSlope(q[k], q[k + 1]);
      } else {
        assert lp[k - 1] == ForwardSlope(p[k - 1], p[k]);
        assert lq[k - 1] == ForwardSlope(q[k - 1], q[k]);
      }
    }
  }

  /** A smoothed slope lies between any bounds on the local slopes inside its window. */
  lemma SmoothedWithinWindow(pts: seq<TrackPoint>, windowSize: real, i: nat, lo: real, hi: real)
    requires |pts| >= 2 && i < |pts| && WindowRadius(windowSize) > 0
    requires forall j :: MaxInt(0, i - WindowRadius(windowSize)) <= j <= MinInt(|pts| - 1, i + WindowRadius(windowSize)) ==>
      lo <= LocalSlopes(pts)[j] <= hi
    ensures lo <= SmoothSlopesSpec(pts, windowSize)[i].smoothedSlope <= hi
  {
    WindowMeanBounds(LocalSlopes(pts), i, WindowRadius(windowSize), lo, hi);
  }

  // ---------------------------------------------------------------------
  // Route totals

  /** Sum of the great-circle distances between consecutive points up to index e. */
  function PathLength(pts: seq<TrackPoint>, e: nat, math: Elementary): real
    requires e < |pts|
  {
    if e == 0 then 0.0
    else PathLength(pts, e - 1, math) + math.haversine(pts[e - 1].lat, pts[e - 1].lon, pts[e].lat, pts[e].lon)
  }

  /** Route length never decreases along the route. */
  lemma {:induction false} PathLengthMonotone(pts: seq<TrackPoint>, i: nat, e: nat, math: Elementary)
    requires i <= e < |pts| && HaversineNonNegative(math)
    ensures 0.0 <= PathLength(pts, i, math) <= PathLength(pts, e, math)
    decreases e
  {
    if e > i {
      PathLengthMonotone(pts, i, e - 1, math);
    } else if e > 0 {
      PathLengthMonotone(pts, 0, e - 1, math);
    }
  }

  /** calculateTrackStats: total distance and positive elevation gain. */
  method CalculateTrackStats(pts: seq<TrackPoint>, math: Elementary) returns (totalDistance: real, totalElevGain: real)
    ensures |pts| == 0 ==> totalDistance == 0.0 && totalElevGain == 0.0
    ensures |pts| > 0 ==> totalDistance == PathLength(pts, |pts| - 1, math)
    ensures |pts| > 0 ==> totalElevGain == PositiveGain(pts, 0, |pts| - 1)
  {
    totalDistance := 0.0;
    totalElevGain := 0.0;
    var i := 1;
    while i < |pts|
      invariant |pts| > 0 ==> 1 <= i <= |pts|
      invariant |pts| > 0 ==> totalDistance == PathLength(pts, i - 1, math) && totalElevGain == PositiveGain(pts, 0, i - 1)
      invariant |pts| == 0 ==> totalDistance == 0.0 && totalElevGain == 0.0
    {
      var a := pts[i - 1];
      var b := pts[i];
      var d := math.haversine(a.lat, a.lon, b.lat, b.lon);
      var dh := b.ele - a.ele;
      totalDistance := totalDistance + d;
      if dh > 0.0 {
        totalElevGain := totalElevGain + dh;
      }
      i := i + 1;
    }
  }

  // ---------------------------------------------------------------------
  // Normalized power

  const NP_WINDOW: nat := 30

  /** `p.power || 0` */
  function PowerOrZero(p: TrackPoint): real
  {
    match p.power
    case None => 0.0
    case Some(v) => v
  }

  /** The power of points i, i-1, ..., i-k+1 added in that order. */
  function TrailingSum(pts: seq<TrackPoint>, i: nat, k: nat): real
    requires k <= i + 1 <= |pts|
  {
    if k == 0 then 0.0 else TrailingSum(pts, i, k - 1) + PowerOrZero(pts[i - (k - 1)])
  }

  /** The fourth power of every trailing 30-point mean, from point 29 on. */
  function RollingPow4(pts: seq<TrackPoint>): (r: seq<real>)
    requires |pts| >= NP_WINDOW
    ensures |r| == |pts| - (NP_WINDOW - 1)
  {
    seq(|pts| - (NP_WINDOW - 1), k requires 0 <= k < |pts| - (NP_WINDOW - 1) =>
      Pow4(TrailingSum(pts, k + NP_WINDOW - 1, NP_WINDOW) / NP_WINDOW as real))
  }

  /** Normalized power: 0 below 30 points, otherwise the rounded fourth root
      of the mean fourth power of the trailing 30-point means. */
  function NormalizedPowerSpec(pts: seq<TrackPoint>, math: Elementary): int
  {
    if |pts| < NP_WINDOW then 0 else Round(math.root4(Mean(RollingPow4(pts))))
  }

  /** calculateNormalizedPower */
  method CalculateNormalizedPower(pts: seq<TrackPoint>, math: Elementary) returns (np: int)
    ensures |pts| < NP_WINDOW ==> np == 0
    ensures np == NormalizedPowerSpec(pts, math)
  {
    if |pts| < NP_WINDOW {
      return 0;
    }
    var rolling: seq<real> := [];
    var i := NP_WINDOW - 1;
    while i < |pts|
      invariant NP_WINDOW - 1 <= i <= |pts|
      invariant rolling == RollingPow4(pts)[..i - (NP_WINDOW - 1)]
    {
      var sum := 0.0;
      var count := 0;
      var j := 0;
      while j < NP_WINDOW
        invariant 0 <= j <= NP_WINDOW
        invariant sum == TrailingSum(pts, i, j) && count == j
      {
        sum := sum + PowerOrZero(pts[i - j]);
        count := count + 1;
        j := j + 1;
      }
      var rollingAvg := sum / count as real;
      rolling := rolling + [Pow4(rollingAvg)];
      i := i + 1;
    }
    assert rolling == RollingPow4(pts);
    var avgPow4 := Sum(rolling) / |rolling| as real;
    np := Round(math.root4(avgPow4));
  }

  lemma {:induction false} TrailingSumConstant(pts: seq<TrackPoint>, i: nat, k: nat, c: real)
    requires k <= i + 1 <= |pts|
    requires forall j :: 0 <= j < |pts| ==> PowerOrZero(pts[j]) == c
    ensures TrailingSum(pts, i, k) == k as real * c
  {
    if k > 0 {
      TrailingSumConstant(pts, i, k - 1, c);
    }
  }

  /** A steady effort at c watts (missing power counted as 0) has normalized
      power round(c). */
  lemma SteadyNormalizedPower(pts: seq<TrackPoint>, c: real, math: Elementary)
    requires |pts| >= NP_WINDOW && c >= 0.0
    requires forall j :: 0 <= j < |pts| ==> PowerOrZero(pts[j]) == c
    requires Root4Inverts(math)
    ensures NormalizedPowerSpec(pts, math) == Round(c)
  {
    var r := RollingPow4(pts);
    forall k | 0 <= k < |r|
      ensures r[k] == Pow4(c)
    {
      TrailingSumConstant(pts, k + NP_WINDOW - 1, NP_WINDOW, c);
    }
    MeanBounds(r, Pow4(c), Pow4(c));
  }

  // ---------------------------------------------------------------------
  // Average of a point property

  /** The point properties the program averages. Points carry no `speed`
      property, so averaging it finds no value. */
  datatype PointField = PowerField | HrField | CadField | SpeedField

  function FieldValue(p: TrackPoint, f: PointField): Option<real>
  {
    match f
    case PowerField => p.power
    case HrField => p.hr
    case CadField => p.cad
    case SpeedField => None
  }

  /** The value of a property as a sequence of zero or one element. */
  function Values(o: Option<real>): (r: seq<real>)
    ensures |r| <= 1
  {
    if o.Some? then [o.value] else []
  }

  /** The values of a property that are present, in route order. */
  function Present(pts: seq<TrackPoint>, f: PointField): (r: seq<real>)
    ensures |r| <= |pts|
  {
    if |pts| == 0 then [] else Present(pts[..|pts| - 1], f) + Values(FieldValue(pts[|pts| - 1], f))
  }

  /** getAverageParam: mean of the present values, 0 when there is none. */
  method GetAverageParam(pts: seq<TrackPoint>, f: PointField) returns (avg: real)
    ensures |Present(pts, f)| == 0 ==> avg == 0.0
    ensures |Present(pts, f)| > 0 ==> avg == Mean(Present(pts, f))
  {
    var sum := 0.0;
    var count := 0;
    var i := 0;
    while i < |pts|
      invariant 0 <= i <= |pts|
      invariant sum == Sum(Present(pts[..i], f)) && count == |Present(pts[..i], f)|
    {
      PresentStep(pts, i, f);
      var value := FieldValue(pts[i], f);
      if value.Some? {
        sum := sum + value.value;
        count := count + 1;
      }
      i := i + 1;
    }
    assert pts[..i] == pts;
    avg := if count > 0 then sum / count as real else 0.0;
  }

  /** One more point adds its value, when present, to the sum and the count. */
  lemma PresentStep(pts: seq<TrackPoint>, i: nat, f: PointField)
    requires i < |pts|
    ensures Present(pts[..i + 1], f) == Present(pts[..i], f) + Values(FieldValue(pts[i], f))
    ensures Sum(Present(pts[..i + 1], f)) ==
      Sum(Present(pts[..i], f)) + (if FieldValue(pts[i], f).Some? then FieldValue(pts[i], f).value else 0.0)
    ensures |Present(pts[..i + 1], f)| == |Present(pts[..i], f)| + (if FieldValue(pts[i], f).Some? then 1 else 0)
  {
    assert pts[..i + 1][..i] == pts[..i];
    var v := Values(FieldValue(pts[i], f));
    SumAppend(Present(pts[..i], f), v);
    if |v| == 1 {
      assert v[..0] == [];
    }
  }

  /** The average lies between any bounds on the present values. */
  lemma AverageParamBounds(pts: seq<TrackPoint>, f: PointField, lo: real, hi: real)
    requires |Present(pts, f)| > 0
    requires forall k :: 0 <= k < |Present(pts, f)| ==> lo <= Present(pts, f)[k] <= hi
    ensures lo <= Mean(Present(pts, f)) <= hi
  {
    MeanBounds(Present(pts, f), lo, hi);
  }

  // ---------------------------------------------------------------------
  // Power zones

  const ZONE_COUNT: nat := 7
  /** Intervals this long or longer are taken for recording gaps and skipped. */
  const MAX_ZONE_INTERVAL: real := 10.0

  /** The zone (1 to 6) of a power given as a percentage of FTP, by the
      strict thresholds 55, 75, 90, 105 and 120 %. */
  function ZoneOf(pct: real): (z: nat)
    ensures 1 <= z <= 6
    ensures z == 1 <==> pct < 55.0
    ensures z == 6 <==> pct >= 120.0
  {
    if pct < 55.0 then 1
    else if pct < 75.0 then 2
    else if pct < 90.0 then 3
    else if pct < 105.0 then 4
    else if pct < 120.0 then 5
    else 6
  }

  /** A higher power never falls in a lower zone. */
  lemma ZoneOfMonotone(p: real, q: real)
    requires p <= q
    ensures ZoneOf(p) <= ZoneOf(q)
  {
  }

  /** `p.time` is truthy: a present time is a Date, and a Date is truthy
      whatever instant it holds, the epoch included. */
  predicate HasTime(p: TrackPoint)
  {
    p.time.Some?
  }

  /** The seconds the interval from a to b counts for: a carries a power, both
      carry a time, and the gap is positive and under 10 s. */
  function ZoneInterval(a: TrackPoint, b: TrackPoint): (d: Option<real>)
    ensures d.Some? ==> a.power.Some? && 0.0 < d.value < MAX_ZONE_INTERVAL
    ensures d.Some? ==> a.time.Some? && b.time.Some? && d.value * 1000.0 == b.time.value - a.time.value
    ensures (a.power.Some? && a.time.Some? && b.time.Some? &&
             a.time.value < b.time.value < a.time.value + MAX_ZONE_INTERVAL * 1000.0) ==> d.Some?
  {
    if a.power.Some? && HasTime(a) && HasTime(b) then
      var duration := (b.time.value - a.time.value) / 1000.0;
      if 0.0 < duration < MAX_ZONE_INTERVAL then Some(duration) else None
    else None
  }

  /** Seconds spent in zone z over the intervals between the first k points. */
  function ZoneSeconds(pts: seq<TrackPoint>, ftp: real, z: nat, k: nat): (t: real)
    requires k <= |pts| && ftp > 0.0
    ensures t >= 0.0
  {
    if k <= 1 then 0.0
    else
      var d := ZoneInterval(pts[k - 2], pts[k - 1]);
      ZoneSeconds(pts, ftp, z, k - 1) +
      (if d.Some? && ZoneOf(pts[k - 2].power.value / ftp * 100.0) == z then d.value else 0.0)
  }

  /** An interval whose first time is the epoch itself (0 ms) still counts
      in the zone of its power. */
  lemma EpochIntervalCounts(a: TrackPoint, b: TrackPoint, ftp: real)
    requires ftp > 0.0 && a.power.Some? && a.time == Some(0.0)
    requires b.time.Some? && 0.0 < b.time.value < MAX_ZONE_INTERVAL * 1000.0
    ensures ZoneSeconds([a, b], ftp, ZoneOf(a.power.value / ftp * 100.0), 2) == b.time.value / 1000.0
  {
    assert ZoneInterval(a, b) == Some(b.time.value / 1000.0);
  }

  /** Seconds of all the counted intervals between the first k points. */
  function CountedSeconds(pts: seq<TrackPoint>, k: nat): real
    requires k <= |pts|
  {
    if k <= 1 then 0.0
    else
      var d := ZoneInterval(pts[k - 2], pts[k - 1]);
      CountedSeconds(pts, k - 1) + (if d.Some? then d.value else 0.0)
  }

  /** calculatePowerZones: no result without a positive FTP; otherwise the
      minutes (rounded) spent in each of the 7 buckets. */
  method CalculatePowerZones(pts: seq<TrackPoint>, ftp: Option<real>) returns (r: Option<seq<int>>)
    ensures r.None? <==> ftp.None? || ftp.value <= 0.0
    ensures r.Some? ==> |r.value| == ZONE_COUNT
    ensures r.Some? ==> forall z :: 0 <= z < ZONE_COUNT ==> r.value[z] == Round(ZoneSeconds(pts, ftp.value, z, |pts|) / 60.0)
  {
    if ftp.None? || ftp.value <= 0.0 {
      return None;
    }
    var f := ftp.value;
    var zones: seq<real> := [0.0, 0.0, 0.0, 0.0, 0.0, 0.0, 0.0];
    var i := 1;
    while i < |pts|
      invariant 1 <= i <= MaxInt(1, |pts|)
      invariant |zones| == ZONE_COUNT
      invariant forall z :: 0 <= z < ZONE_COUNT ==> zones[z] == ZoneSeconds(pts, f, z, MinInt(i, |pts|))
    {
      var d := ZoneInterval(pts[i - 1], pts[i]);
      if d.Some? {
        var pct := pts[i - 1].power.value / f * 100.0;
        var zoneIndex := ZoneOf(pct);
        zones := zones[zoneIndex := zones[zoneIndex] + d.value];
      }
      i := i + 1;
    }
    assert forall z :: 0 <= z < ZONE_COUNT ==> zones[z] == ZoneSeconds(pts, f, z, |pts|);
    r := Some(seq(ZONE_COUNT, z requires 0 <= z < ZONE_COUNT => Round(zones[z] / 60.0)));
  }

  /** Bucket 0 never receives time. */
  lemma {:induction false} ZoneZeroEmpty(pts: seq<TrackPoint>, ftp: real, k: nat)
    requires k <= |pts| && ftp > 0.0
    ensures ZoneSeconds(pts, ftp, 0, k) == 0.0
  {
    if k > 1 {
      ZoneZeroEmpty(pts, ftp, k - 1);
    }
  }

  /** The buckets share out exactly the counted seconds. */
  lemma {:induction false} ZonesPartition(pts: seq<TrackPoint>, ftp: real, k: nat)
    requires k <= |pts| && ftp > 0.0
    ensures ZoneSeconds(pts, ftp, 0, k) + ZoneSeconds(pts, ftp, 1, k) + ZoneSeconds(pts, ftp, 2, k)
      + ZoneSeconds(pts, ftp, 3, k) + ZoneSeconds(pts, ftp, 4, k) + ZoneSeconds(pts, ftp, 5, k)
      + ZoneSeconds(pts, ftp, 6, k) == CountedSeconds(pts, k)
  {
    if k > 1 {
      ZonesPartition(pts, ftp, k - 1);
    }
  }

  // ---------------------------------------------------------------------
  // Best effort over a duration

  /** The best window found: its rounded mean power and its first and last point. */
  datatype BestEffort = BestEffort(watts: int, startIndex: nat, endIndex: nat)

  /** `p.time` as the subtraction sees it: `null` counts as 0. */
  function Ms(p: TrackPoint): real
  {
    if p.time.Some? then p.time.value else 0.0
  }

  /** Seconds from point s to point e. */
  function SpanSeconds(pts: seq<TrackPoint>, s: nat, e: nat): real
    requires s < |pts| && e < |pts|
  {
    (Ms(pts[e]) - Ms(pts[s])) / 1000.0
  }

  /** The left end after the shrinking loop: moved right past every start
      whose window to e lasts more than d seconds, but never past e. */
  function Shrink(pts: seq<TrackPoint>, d: real, s: nat, e: nat): (r: nat)
    requires s <= e < |pts|
    ensures s <= r <= e
    ensures r == e || SpanSeconds(pts, r, e) <= d
    decreases e - s
  {
    if s < e && SpanSeconds(pts, s, e) > d then Shrink(pts, d, s + 1, e) else s
  }

  /** The left end of the window once the points before k have been scanned:
      points without a numeric power leave it where it is. */
  function StartAfter(pts: seq<TrackPoint>, d: real, k: nat): (r: nat)
    requires k <= |pts|
    ensures r == 0 || r < k
  {
    if k == 0 then 0
    else if pts[k - 1].power.None? then StartAfter(pts, d, k - 1)
    else Shrink(pts, d, StartAfter(pts, d, k - 1), k - 1)
  }

  /** `p.power` when it is a number, else nothing is added. */
  function PowerVal(p: TrackPoint): real
  {
    if p.power.Some? then p.power.value else 0.0
  }

  /** Sum of the numeric powers of points s .. e-1. */
  function NumSum(pts: seq<TrackPoint>, s: nat, e: nat): real
    requires s <= e <= |pts|
    decreases e - s
  {
    if e == s then 0.0 else NumSum(pts, s, e - 1) + PowerVal(pts[e - 1])
  }

  /** Number of the points s .. e-1 whose power is a number. */
  function NumCount(pts: seq<TrackPoint>, s: nat, e: nat): nat
    requires s <= e <= |pts|
    decreases e - s
  {
    if e == s then 0 else NumCount(pts, s, e - 1) + (if pts[e - 1].power.Some? then 1 else 0)
  }

  /** Dropping the first point of a window takes its power out of the sum and the count. */
  lemma {:induction false} NumDropFirst(pts: seq<TrackPoint>, s: nat, e: nat)
    requires s < e <= |pts|
    ensures NumSum(pts, s, e) == PowerVal(pts[s]) + NumSum(pts, s + 1, e)
    ensures NumCount(pts, s, e) == (if pts[s].power.Some? then 1 else 0) + NumCount(pts, s + 1, e)
    decreases e - s
  {
    if e > s + 1 {
      NumDropFirst(pts, s, e - 1);
    }
  }

  /** The scan accepts the window ending at e: e has a numeric power, and the
      window from its left end lasts at least 90 % of d seconds and holds a
      numeric power. */
  predicate Accepted(pts: seq<TrackPoint>, d: real, e: nat)
    requires e < |pts|
  {
    var s := StartAfter(pts, d, e + 1);
    pts[e].power.Some? && SpanSeconds(pts, s, e) >= d * 0.9 && NumCount(pts, s, e + 1) > 0
  }

  /** Mean numeric power of the window ending at e. */
  function AvgAt(pts: seq<TrackPoint>, d: real, e: nat): real
    requires e < |pts| && Accepted(pts, d, e)
  {
    var s := StartAfter(pts, d, e + 1);
    NumSum(pts, s, e + 1) / NumCount(pts, s, e + 1) as real
  }

  /** b is the first accepted window of highest mean power, and that mean is positive. */
  predicate IsBestEffort(pts: seq<TrackPoint>, d: real, b: BestEffort)
  {
    b.endIndex < |pts| && Accepted(pts, d, b.endIndex) &&
    b.startIndex == StartAfter(pts, d, b.endIndex + 1) &&
    AvgAt(pts, d, b.endIndex) > 0.0 &&
    b.watts == Round(AvgAt(pts, d, b.endIndex)) &&
    (forall e :: 0 <= e < |pts| && Accepted(pts, d, e) ==> AvgAt(pts, d, e) <= AvgAt(pts, d, b.endIndex)) &&
    (forall e :: 0 <= e < b.endIndex && Accepted(pts, d, e) ==> AvgAt(pts, d, e) < AvgAt(pts, d, b.endIndex))
  }

  /** findBestPowerOverDuration: the two-index sliding scan over the points. */
  method FindBestPowerOverDuration(pts: seq<TrackPoint>, durationSeconds: real) returns (best: Option<BestEffort>)
    ensures |pts| < 2 || durationSeconds <= 0.0 ==> best.None?
    ensures best.Some? ==> IsBestEffort(pts, durationSeconds, best.value)
    ensures best.None? && |pts| >= 2 && durationSeconds > 0.0 ==>
      forall e :: 0 <= e < |pts| && Accepted(pts, durationSeconds, e) ==> AvgAt(pts, durationSeconds, e) <= 0.0
  {
    if |pts| < 2 || durationSeconds <= 0.0 {
      return None;
    }
    var d := durationSeconds;
    var maxWatts := 0.0;
    var bestStart := -1;
    var bestEnd := -1;
    var currentSumPower := 0.0;
    var currentCount := 0;
    var startI := 0;
    var endI := 0;
    while endI < |pts|
      invariant 0 <= endI <= |pts|
      invariant startI == StartAfter(pts, d, endI)
      invariant startI <= endI
      invariant currentSumPower == NumSum(pts, startI, endI) && currentCount == NumCount(pts, startI, endI)
      invariant BestSoFar(pts, d, endI, maxWatts, bestStart, bestEnd)
    {
      if pts[endI].power.None? {
        BestSkip(pts, d, endI, maxWatts, bestStart, bestEnd);
        endI := endI + 1;
        continue;
      }
      startI, currentSumPower, currentCount, maxWatts, bestStart, bestEnd :=
        ScanWindowEnd(pts, d, endI, startI, currentSumPower, currentCount, maxWatts, bestStart, bestEnd);
      endI := endI + 1;
    }
    if maxWatts > 0.0 {
      best := Some(BestEffort(Round(maxWatts), bestStart, bestEnd));
    } else {
      best := None;
    }
  }

  /** One pass of the scan at a point with a numeric power: the window takes
      the point in, drops the points too far behind, and competes for the
      best when it lasts long enough. */
  method ScanWindowEnd(pts: seq<TrackPoint>, d: real, endI: nat, startI: nat, sum: real, count: nat,
                       maxWatts: real, bestStart: int, bestEnd: int)
    returns (startI': nat, sum': real, count': nat, maxWatts': real, bestStart': int, bestEnd': int)
    requires endI < |pts| && pts[endI].power.Some?
    requires startI == StartAfter(pts, d, endI) && startI <= endI
    requires sum == NumSum(pts, startI, endI) && count == NumCount(pts, startI, endI)
    requires BestSoFar(pts, d, endI, maxWatts, bestStart, bestEnd)
    ensures startI' == StartAfter(pts, d, endI + 1) && startI' <= endI + 1
    ensures sum' == NumSum(pts, startI', endI + 1) && count' == NumCount(pts, startI', endI + 1)
    ensures BestSoFar(pts, d, endI + 1, maxWatts', bestStart', bestEnd')
  {
    maxWatts', bestStart', bestEnd' := maxWatts, bestStart, bestEnd;
    sum' := sum + pts[endI].power.value;
    count' := count + 1;
    startI', sum', count' := ShrinkWindow(pts, d, startI, endI, sum', count');
    var currentDuration := (Ms(pts[endI]) - Ms(pts[startI'])) / 1000.0;
    if currentDuration >= d * 0.9 && count' > 0 {
      var avg := sum' / count' as real;
      assert Accepted(pts, d, endI) && avg == AvgAt(pts, d, endI);
      BestStep(pts, d, endI, maxWatts, bestStart, bestEnd);
      if avg > maxWatts {
        maxWatts' := avg;
        bestStart' := startI';
        bestEnd' := endI;
      }
    } else {
      BestSkip(pts, d, endI, maxWatts, bestStart, bestEnd);
    }
  }

  /** The scan state after the points before k: maxWatts is 0 while no
      accepted window has a positive mean, and otherwise the mean of the
      first best window, which starts at bestStart and ends at bestEnd. */
  predicate BestSoFar(pts: seq<TrackPoint>, d: real, k: nat, maxWatts: real, bestStart: int, bestEnd: int)
    requires k <= |pts|
  {
    maxWatts >= 0.0 &&
    (maxWatts == 0.0 ==> forall e :: 0 <= e < k && Accepted(pts, d, e) ==> AvgAt(pts, d, e) <= 0.0) &&
    (maxWatts > 0.0 ==>
      0 <= bestEnd < k && Accepted(pts, d, bestEnd) && bestStart == StartAfter(pts, d, bestEnd + 1) &&
      AvgAt(pts, d, bestEnd) == maxWatts &&
      (forall e :: 0 <= e < k && Accepted(pts, d, e) ==> AvgAt(pts, d, e) <= maxWatts) &&
      (forall e :: 0 <= e < bestEnd && Accepted(pts, d, e) ==> AvgAt(pts, d, e) < maxWatts))
  }

  /** The shrinking loop of the scan, once point e has been added to the
      window starting at s. */
  method ShrinkWindow(pts: seq<TrackPoint>, d: real, s: nat, e: nat, sum: real, count: nat)
    returns (startI: nat, currentSumPower: real, currentCount: nat)
    requires s <= e < |pts|
    requires sum == NumSum(pts, s, e + 1) && count == NumCount(pts, s, e + 1)
    ensures startI == Shrink(pts, d, s, e)
    ensures currentSumPower == NumSum(pts, startI, e + 1) && currentCount == NumCount(pts, startI, e + 1)
  {
    startI, currentSumPower, currentCount := s, sum, count;
    while startI < e && (Ms(pts[e]) - Ms(pts[startI])) / 1000.0 > d
      invariant s <= startI <= e
      invariant Shrink(pts, d, startI, e) == Shrink(pts, d, s, e)
      invariant currentSumPower == NumSum(pts, startI, e + 1) && currentCount == NumCount(pts, startI, e + 1)
    {
      NumDropFirst(pts, startI, e + 1);
      if pts[startI].power.Some? {
        currentSumPower := currentSumPower - pts[startI].power.value;
        currentCount := currentCount - 1;
      }
      startI := startI + 1;
    }
  }

  /** A window the scan does not accept leaves the best so far unchanged. */
  lemma BestSkip(pts: seq<TrackPoint>, d: real, k: nat, maxWatts: real, bestStart: int, bestEnd: int)
    requires k < |pts| && BestSoFar(pts, d, k, maxWatts, bestStart, bestEnd)
    requires !Accepted(pts, d, k)
    ensures BestSoFar(pts, d, k + 1, maxWatts, bestStart, bestEnd)
  {
  }

  /** An accepted window replaces the best so far exactly when its mean is higher. */
  lemma BestStep(pts: seq<TrackPoint>, d: real, k: nat, maxWatts: real, bestStart: int, bestEnd: int)
    requires k < |pts| && BestSoFar(pts, d, k, maxWatts, bestStart, bestEnd)
    requires Accepted(pts, d, k)
    ensures AvgAt(pts, d, k) > maxWatts ==> BestSoFar(pts, d, k + 1, AvgAt(pts, d, k), StartAfter(pts, d, k + 1), k)
    ensures AvgAt(pts, d, k) <= maxWatts ==> BestSoFar(pts, d, k + 1, maxWatts, bestStart, bestEnd)
  {
  }

  /** An accepted window lasts at least 90 % of the duration and, unless it is
      a single point, at most the duration. */
  lemma AcceptedWindowSpan(pts: seq<TrackPoint>, d: real, e: nat)
    requires e < |pts| && Accepted(pts, d, e)
    ensures SpanSeconds(pts, StartAfter(pts, d, e + 1), e) >= d * 0.9
    ensures StartAfter(pts, d, e + 1) == e || SpanSeconds(pts, StartAfter(pts, d, e + 1), e) <= d
  {
  }

  // ---------------------------------------------------------------------
  // Moving average of a series

  /** movingAverage: the mean over the clamped window of half-width
      floor(windowSize / 2) around each entry. The division by
      end - start + 1 of the source gives 0 on an empty window, as
      ClampedMean does. */
  method MovingAverage(data: seq<real>, windowSize: real) returns (r: seq<real>)
    ensures |r| == |data|
    ensures forall i :: 0 <= i < |data| ==> r[i] == WindowMean(data, i, Floor(windowSize / 2.0))
  {
    r := [];
    var half := Floor(windowSize / 2.0);
    var i := 0;
    while i < |data|
      invariant 0 <= i <= |data| && |r| == i
      invariant forall k :: 0 <= k < i ==> r[k] == WindowMean(data, k, half)
    {
      var mean := MeanOver(data, i - half, i + half);
      r := r + [mean];
      i := i + 1;
    }
  }

  /** Each averaged value lies between any bounds on the data in its window,
      so a constant series is left unchanged. */
  lemma MovingAverageBounds(data: seq<real>, windowSize: real, i: nat, lo: real, hi: real)
    requires i < |data| && windowSize >= 0.0
    requires forall j :: MaxInt(0, i - Floor(windowSize / 2.0)) <= j <= MinInt(|data| - 1, i + Floor(windowSize / 2.0)) ==>
      lo <= data[j] <= hi
    ensures lo <= WindowMean(data, i, Floor(windowSize / 2.0)) <= hi
  {
    WindowMeanBounds(data, i, Floor(windowSize / 2.0), lo, hi);
  }

  // ---------------------------------------------------------------------
  // Power histogram

  /** The bin of a power: its lower bound floor(p / binSize) * binSize. */
  function BinOf(p: real, binSize: real): real
    requires binSize != 0.0
  {
    Floor(p / binSize) as real * binSize
  }

  /** Number of points whose power is a number falling in bin b. */
  function BinCount(pts: seq<TrackPoint>, binSize: real, b: real): (c: nat)
    requires binSize != 0.0
    ensures c <= |pts|
  {
    if |pts| == 0 then 0
    else
      var p := pts[|pts| - 1];
      BinCount(pts[..|pts| - 1], binSize, b) + (if p.power.Some? && BinOf(p.power.value, binSize) == b then 1 else 0)
  }

  /** Number of points whose power is a number. */
  function PowerCount(pts: seq<TrackPoint>): (c: nat)
    ensures c <= |pts|
  {
    if |pts| == 0 then 0 else PowerCount(pts[..|pts| - 1]) + (if pts[|pts| - 1].power.Some? then 1 else 0)
  }

  predicate StrictlyIncreasing(s: seq<real>)
  {
    forall i, j :: 0 <= i < j < |s| ==> s[i] < s[j]
  }

  /** A least element of a finite non-empty set of numbers. */
  lemma {:induction false} SetHasMinimum(s: set<real>)
    requires s != {}
    ensures exists m :: m in s && forall y :: y in s ==> m <= y
    decreases |s|
  {
    assert !(forall y :: y !in s) by {
      if forall y :: y !in s {
        assert false;
      }
    }
    var x :| x in s;
    if s != {x} {
      SetHasMinimum(s - {x});
      var m :| m in s - {x} && forall y :: y in s - {x} ==> m <= y;
      if x < m {
        forall y | y in s
          ensures x <= y
        {
          if y != x {
            assert y in s - {x};
          }
        }
      } else {
        forall y | y in s
          ensures m <= y
        {
          if y != x {
            assert y in s - {x};
          }
        }
      }
    } else {
      assert forall y :: y in s ==> x <= y;
    }
  }

  /** The elements of a finite set of numbers in ascending order, the order
      `sort((a, b) => a - b)` puts the bin keys in. */
  function SortedKeys(s: set<real>): (r: seq<real>)
    ensures |r| == |s|
    ensures forall x :: x in r <==> x in s
    ensures StrictlyIncreasing(r)
    decreases |s|
  {
    if s == {} then []
    else
      SetHasMinimum(s);
      var m :| m in s && forall y :: y in s ==> m <= y;
      var rest := SortedKeys(s - {m});
      SortedCons(s, m, rest);
      [m] + rest
  }

  /** The least element of s in front of the others in ascending order lists
      s in ascending order. */
  lemma SortedCons(s: set<real>, m: real, rest: seq<real>)
    requires m in s && forall y :: y in s ==> m <= y
    requires |rest| == |s - {m}| && (forall x :: x in rest <==> x in s - {m}) && StrictlyIncreasing(rest)
    ensures |[m] + rest| == |s|
    ensures forall x :: x in [m] + rest <==> x in s
    ensures StrictlyIncreasing([m] + rest)
  {
    assert |s - {m}| == |s| - 1;
    var r := [m] + rest;
    forall i, j | 0 <= i < j < |r|
      ensures r[i] < r[j]
    {
      assert r[j] == rest[j - 1];
      if i > 0 {
        assert r[i] == rest[i - 1];
      } else {
        assert rest[j - 1] in s - {m};
      }
    }
  }

  /** The histogram: bins in ascending order and the minutes in each (one
      point taken for one second). */
  datatype Distribution = Distribution(bins: seq<real>, minutes: seq<real>)

  /** The bin width, in watts, calculatePowerDistribution uses when its
      caller passes none. */
  const DEFAULT_BIN_SIZE: real := 25.0

  /** calculatePowerDistribution */
  method CalculatePowerDistribution(pts: seq<TrackPoint>, binSize: real) returns (r: Distribution)
    requires binSize != 0.0
    ensures |r.bins| == |r.minutes|
    ensures StrictlyIncreasing(r.bins)
    ensures forall i :: 0 <= i < |r.bins| ==> BinCount(pts, binSize, r.bins[i]) > 0
    ensures forall j :: 0 <= j < |pts| && pts[j].power.Some? ==> BinOf(pts[j].power.value, binSize) in r.bins
    ensures forall i :: 0 <= i < |r.bins| ==> r.minutes[i] * 60.0 == BinCount(pts, binSize, r.bins[i]) as real
    ensures CountsOver(pts, binSize, r.bins) == PowerCount(pts)
  {
    var bins := CountBins(pts, binSize);
    forall j | 0 <= j < |pts| && pts[j].power.Some?
      ensures BinOf(pts[j].power.value, binSize) in bins
    {
      BinCountPositive(pts, binSize, j);
    }
    var sortedBins := SortedKeys(bins.Keys);
    var dataMinutes := seq(|sortedBins|, k requires 0 <= k < |sortedBins| => bins[sortedBins[k]] as real / 60.0);
    r := Distribution(sortedBins, dataMinutes);
    BinCountsSum(pts, binSize, sortedBins);
  }

  /** bins maps exactly the non-empty bins of pts to their counts. */
  ghost predicate BinsCounted(pts: seq<TrackPoint>, binSize: real, bins: map<real, nat>)
    requires binSize != 0.0
  {
    (forall b :: b in bins <==> BinCount(pts, binSize, b) > 0) &&
    forall b :: b in bins ==> bins[b] == BinCount(pts, binSize, b)
  }

  /** The counting loop of calculatePowerDistribution: one more point in the
      bin of each numeric power. */
  method CountBins(pts: seq<TrackPoint>, binSize: real) returns (bins: map<real, nat>)
    requires binSize != 0.0
    ensures BinsCounted(pts, binSize, bins)
  {
    bins := map[];
    var i := 0;
    while i < |pts|
      invariant 0 <= i <= |pts|
      invariant BinsCounted(pts[..i], binSize, bins)
    {
      var p := pts[i];
      ghost var before := bins;
      if p.power.Some? {
        var bin := BinOf(p.power.value, binSize);
        bins := bins[bin := (if bin in bins then bins[bin] else 0) + 1];
      }
      BinsStep(pts, binSize, i, before, bins);
      i := i + 1;
    }
    assert pts[..i] == pts;
  }

  lemma BinsStep(pts: seq<TrackPoint>, binSize: real, i: nat, bins: map<real, nat>, bins': map<real, nat>)
    requires binSize != 0.0 && i < |pts|
    requires BinsCounted(pts[..i], binSize, bins)
    requires pts[i].power.None? ==> bins' == bins
    requires pts[i].power.Some? ==>
      var bin := BinOf(pts[i].power.value, binSize);
      bins' == bins[bin := (if bin in bins then bins[bin] else 0) + 1]
    ensures BinsCounted(pts[..i + 1], binSize, bins')
  {
    assert pts[..i + 1][..i] == pts[..i];
  }

  /** The bin of a point with a numeric power holds at least one point. */
  lemma {:induction false} BinCountPositive(pts: seq<TrackPoint>, binSize: real, j: nat)
    requires binSize != 0.0 && j < |pts| && pts[j].power.Some?
    ensures BinCount(pts, binSize, BinOf(pts[j].power.value, binSize)) > 0
    decreases |pts|
  {
    if j < |pts| - 1 {
      var q := pts[..|pts| - 1];
      assert q[j] == pts[j];
      BinCountPositive(q, binSize, j);
    }
  }

  /** The bin counts over distinct keys covering every bin add up to the
      number of points with a numeric power. */
  lemma {:induction false} BinCountsSum(pts: seq<TrackPoint>, binSize: real, keys: seq<real>)
    requires binSize != 0.0 && StrictlyIncreasing(keys)
    requires forall j :: 0 <= j < |pts| && pts[j].power.Some? ==> BinOf(pts[j].power.value, binSize) in keys
    ensures CountsOver(pts, binSize, keys) == PowerCount(pts)
    decreases |pts|
  {
    if |pts| > 0 {
      var q := pts[..|pts| - 1];
      var p := pts[|pts| - 1];
      forall j | 0 <= j < |q| && q[j].power.Some?
        ensures BinOf(q[j].power.value, binSize) in keys
      {
        assert q[j] == pts[j];
      }
      BinCountsSum(q, binSize, keys);
      CountsOverStep(pts, binSize, keys);
      assert PowerCount(pts) == PowerCount(q) + (if p.power.Some? then 1 else 0);
      if p.power.Some? {
        assert BinOf(p.power.value, binSize) in keys;
        HitsOnce(keys, BinOf(p.power.value, binSize));
      }
    } else {
      CountsOverNoPoints(pts, binSize, keys);
    }
  }

  lemma {:induction false} CountsOverNoPoints(pts: seq<TrackPoint>, binSize: real, keys: seq<real>)
    requires binSize != 0.0 && |pts| == 0
    ensures CountsOver(pts, binSize, keys) == 0
    decreases |keys|
  {
    if |keys| > 0 {
      CountsOverNoPoints(pts, binSize, keys[..|keys| - 1]);
    }
  }

  /** Sum of the bin counts of the given keys. */
  function CountsOver(pts: seq<TrackPoint>, binSize: real, keys: seq<real>): nat
    requires binSize != 0.0
  {
    if |keys| == 0 then 0 else CountsOver(pts, binSize, keys[..|keys| - 1]) + BinCount(pts, binSize, keys[|keys| - 1])
  }

  /** Number of keys equal to b. */
  function Hits(keys: seq<real>, b: real): nat
  {
    if |keys| == 0 then 0 else Hits(keys[..|keys| - 1], b) + (if keys[|keys| - 1] == b then 1 else 0)
  }

  /** A key occurs once in a strictly increasing sequence. */
  lemma {:induction false} HitsOnce(keys: seq<real>, b: real)
    requires StrictlyIncreasing(keys)
    ensures b in keys ==> Hits(keys, b) == 1
    ensures b !in keys ==> Hits(keys, b) == 0
  {
    if |keys| > 0 {
      var q := keys[..|keys| - 1];
      assert StrictlyIncreasing(q);
      HitsOnce(q, b);
      assert keys == q + [keys[|keys| - 1]];
      if keys[|keys| - 1] == b {
        assert b !in q;
      }
    }
  }

  /** Adding a last point adds, to the bin counts over the keys, one per key
      equal to its bin. */
  lemma {:induction false} CountsOverStep(pts: seq<TrackPoint>, binSize: real, keys: seq<real>)
    requires binSize != 0.0 && |pts| > 0
    ensures CountsOver(pts, binSize, keys) == CountsOver(pts[..|pts| - 1], binSize, keys) +
      (if pts[|pts| - 1].power.Some? then Hits(keys, BinOf(pts[|pts| - 1].power.value, binSize)) else 0)
    decreases |keys|
  {
    if |keys| > 0 {
      CountsOverStep(pts, binSize, keys[..|keys| - 1]);
    }
  }
}
