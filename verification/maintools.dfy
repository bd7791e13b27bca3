/** The helpers of main.js that compute rather than draw: the H:MM:SS clock,
    the rules that turn a simulated segment into a ZWO workout step, the
    nearest point to a distance, the speed-chart smoothing, the resampling
    of a stretch of route for its profile chart, and the cutting of a climb
    into kilometre marks. */
module MainTools {
  import opened Numeric
  import opened Track
  import opened Segmentation

  // ---------------------------------------------------------------------
  // secondsToHHMMSS

  /** Hours, minutes and seconds of a duration. */
  datatype Clock = Clock(hours: int, minutes: int, seconds: int)

  /** `floor(t / 3600)`, `floor((t % 3600) / 60)`, `floor(t % 60)` with the
      remainder of JavaScript's `%`. */
  function ClockOf(t: real): Clock
  {
    Clock(Floor(t / 3600.0), Floor(JsMod(t, 3600.0) / 60.0), Floor(JsMod(t, 60.0)))
  }

  /** `hours:mm:ss`, minutes and seconds padded to two characters. */
  function SecondsToHHMMSS(t: real): (r: string)
    ensures t >= 0.0 ==> r == NatToString(ClockOf(t).hours) + ":" + TwoDigits(ClockOf(t).minutes) + ":" +
                             TwoDigits(ClockOf(t).seconds)
  {
    var c := ClockOf(t);
    if t >= 0.0 then
      ClockOfFacts(t);
      PadTwoDigits(c.minutes);
      PadTwoDigits(c.seconds);
      IntToString(c.hours) + ":" + PadTwo(IntToString(c.minutes)) + ":" + PadTwo(IntToString(c.seconds))
    else
      IntToString(c.hours) + ":" + PadTwo(IntToString(c.minutes)) + ":" + PadTwo(IntToString(c.seconds))
  }

  /** The two decimal digits of a number below 100. */
  function TwoDigits(n: int): (r: string)
    requires 0 <= n < 100
    ensures |r| == 2
  {
    [Digit(n / 10), Digit(n % 10)]
  }

  /** Padding a number below 100 gives exactly its two decimal digits. */
  lemma PadTwoDigits(n: int)
    requires 0 <= n < 100
    ensures PadTwo(IntToString(n)) == TwoDigits(n)
  {
    if n >= 10 {
      assert NatToString(n) == NatToString(n / 10) + [Digit(n % 10)];
      assert NatToString(n / 10) == [Digit(n / 10)];
    }
  }

  /** For a duration of zero or more seconds the clock reads whole hours,
      minutes below 60 and seconds below 60, and adds up to the whole seconds
      of the duration. */
  lemma ClockOfFacts(t: real)
    requires t >= 0.0
    ensures ClockOf(t).hours >= 0
    ensures 0 <= ClockOf(t).minutes < 60 && 0 <= ClockOf(t).seconds < 60
    ensures ClockOf(t).hours * 3600 + ClockOf(t).minutes * 60 + ClockOf(t).seconds == Floor(t)
  {
    var n := Floor(t);
    FloorDivInt(t, 3600);
    FloorDivInt(t, 60);
    var h := n / 3600;
    var a := n % 3600;
    JsModIsFloorMod(t, 3600.0);
    JsModIsFloorMod(t, 60.0);
    var u := JsMod(t, 3600.0);
    assert u == (a as real) + (t - n as real);
    assert Floor(u) == a;
    FloorDivInt(u, 60);
    assert ClockOf(t).minutes == a / 60;
    var v := JsMod(t, 60.0);
    assert v == (n % 60) as real + (t - n as real);
    assert ClockOf(t).seconds == n % 60;
    SecondsOfHour(n);
  }

  /** Whole hours, then whole minutes of what is left, then seconds. */
  lemma SecondsOfHour(n: int)
    requires n >= 0
    ensures (n / 3600) * 3600 + ((n % 3600) / 60) * 60 + n % 60 == n
  {
    var h := n / 3600;
    var a := n % 3600;
    var q := a / 60;
    var s := a % 60;
    assert n == 60 * (60 * h + q) + s;
    assert n % 60 == s;
  }

  /** The floor of t / c is the integer quotient of the floor of t by c. */
  lemma FloorDivInt(t: real, c: int)
    requires t >= 0.0 && c > 0
    ensures Floor(t / c as real) == Floor(t) / c
  {
    var n := Floor(t);
    var q := n / c;
    var cr := c as real;
    assert (q * c) as real <= t < (q * c + c) as real;
    assert (q * c) as real == q as real * cr && (q * c + c) as real == (q as real + 1.0) * cr;
    DivBounds(t, cr, q as real, q as real + 1.0);
  }

  /** Bounds on a product by a positive divisor give bounds on the quotient. */
  lemma DivBounds(x: real, c: real, lo: real, hi: real)
    requires c > 0.0 && lo * c <= x < hi * c
    ensures lo <= x / c < hi
  {
    var y := x / c;
    assert y * c == x;
  }

  // ---------------------------------------------------------------------
  // exportToZWO

  /** Segments shorter than this many seconds are left out of the workout. */
  const ZWO_MIN_SECONDS: real := 20.0
  /** Below this power a step is a free ride. */
  const FREE_RIDE_BELOW: real := 100.0
  /** Reference FTP when neither CP nor the target power is set. */
  const DEFAULT_FTP: real := 250.0

  /** One step of a ZWO workout: a free ride, or a steady effort at a share
      of the reference FTP. Durations are whole seconds. */
  datatype ZwoStep = FreeRide(duration: int) | SteadyState(duration: int, relPower: real)

  /** `CP || puissance || 250`: the first of the two that is set and not 0. */
  function FtpRef(cp: Option<real>, puissance: Option<real>): (f: real)
    ensures f != 0.0
    ensures f == 250.0 || (cp.Some? && f == cp.value) || (puissance.Some? && f == puissance.value)
  {
    OrDefault(cp, OrDefault(puissance, DEFAULT_FTP))
  }

  /** Durations are rounded to 10 s above 500 W, to 30 s (at least 30) from
      300 W, and to a minute (at least one) below. */
  function RoundedDuration(power: real, duration: real): int
  {
    if power > 500.0 then Round(duration / 10.0) * 10
    else if power >= 300.0 then MaxInt(30, Round(duration / 30.0) * 30)
    else MaxInt(60, Round(duration / 60.0) * 60)
  }

  /** The workout step of a segment of the given power and duration, or None
      when the segment is skipped. */
  function ZwoStepFor(power: real, duration: real, ftp: real): Option<ZwoStep>
    requires ftp != 0.0
  {
    if duration < ZWO_MIN_SECONDS then None
    else
      var rounded := RoundedDuration(power, duration);
      if rounded <= 0 then None
      else if power < FREE_RIDE_BELOW then Some(FreeRide(rounded))
      else Some(SteadyState(rounded, (Round(power / 5.0) * 5) as real / ftp))
  }

  /** A rounded duration is a multiple of 10 s (of 30 s up to 500 W, of 60 s
      below 300 W), at least 20 s for a segment of 20 s or more, and within
      half a unit of the duration unless the floor of its band applies. */
  lemma RoundedDurationFacts(power: real, duration: real)
    requires duration >= ZWO_MIN_SECONDS
    ensures RoundedDuration(power, duration) >= 20 && RoundedDuration(power, duration) % 10 == 0
    ensures power > 500.0 ==> Abs(RoundedDuration(power, duration) as real - duration) <= 5.0
    ensures 300.0 <= power <= 500.0 ==> RoundedDuration(power, duration) % 30 == 0
    ensures 300.0 <= power <= 500.0 ==>
      RoundedDuration(power, duration) == 30 || Abs(RoundedDuration(power, duration) as real - duration) <= 15.0
    ensures power < 300.0 ==> RoundedDuration(power, duration) % 60 == 0
    ensures power < 300.0 ==>
      RoundedDuration(power, duration) == 60 || Abs(RoundedDuration(power, duration) as real - duration) <= 30.0
  {
    if power > 500.0 {
      TenSecondBand(duration);
    } else if power >= 300.0 {
      FloorBand(duration, 30);
    } else {
      FloorBand(duration, 60);
    }
  }

  /** Above 500 W: a multiple of 10 s, at least 20 s, within 5 s. */
  lemma TenSecondBand(duration: real)
    requires duration >= ZWO_MIN_SECONDS
    ensures var r := Round(duration / 10.0) * 10; r >= 20 && r % 10 == 0 && Abs(r as real - duration) <= 5.0
  {
    var k := Round(duration / 10.0);
    assert k as real > duration / 10.0 - 0.5 >= 1.5;
    RoundWithin(duration, 10.0);
  }

  /** The bands with a floor of one unit u (30 s or 60 s): a multiple of u,
      and within half a unit unless the floor applies. */
  lemma FloorBand(duration: real, u: int)
    requires u == 30 || u == 60
    ensures var r := MaxInt(u, Round(duration / u as real) * u);
      r >= 20 && r % 10 == 0 && r % u == 0 && (r == u || Abs(r as real - duration) <= u as real / 2.0)
  {
    var k := Round(duration / u as real);
    RoundWithin(duration, u as real);
    if k < 1 {
      assert MaxInt(u, k * u) == u;
    } else {
      assert MaxInt(u, k * u) == k * u;
      if u == 30 {
        assert (k * 30) % 30 == 0 && (k * 30) % 10 == 0;
      } else {
        assert (k * 60) % 60 == 0 && (k * 60) % 10 == 0;
      }
    }
  }

  /** A steady effort asks for the power rounded to 5 W, as a share of the FTP. */
  lemma SteadyPowerFacts(power: real, ftp: real)
    requires ftp != 0.0
    ensures Abs((Round(power / 5.0) * 5) as real - power) <= 2.5
    ensures (Round(power / 5.0) * 5) as real / ftp * ftp == (Round(power / 5.0) * 5) as real
  {
    RoundWithin(power, 5.0);
  }

  /** A segment gives a step exactly when it lasts 20 s or more, and the step
      is a free ride exactly below 100 W. */
  lemma ZwoStepFacts(power: real, duration: real, ftp: real)
    requires ftp != 0.0
    ensures ZwoStepFor(power, duration, ftp).Some? <==> duration >= ZWO_MIN_SECONDS
    ensures ZwoStepFor(power, duration, ftp).Some? ==>
      ZwoStepFor(power, duration, ftp).value.duration == RoundedDuration(power, duration) &&
      (ZwoStepFor(power, duration, ftp).value.FreeRide? <==> power < FREE_RIDE_BELOW)
    ensures ZwoStepFor(power, duration, ftp).Some? && ZwoStepFor(power, duration, ftp).value.SteadyState? ==>
      ZwoStepFor(power, duration, ftp).value.relPower * ftp == (Round(power / 5.0) * 5) as real
  {
    if duration >= ZWO_MIN_SECONDS {
      RoundedDurationFacts(power, duration);
      SteadyPowerFacts(power, ftp);
    }
  }

  /** Rounding to a multiple of u moves a value by at most half of u. */
  lemma RoundWithin(x: real, u: real)
    requires u > 0.0
    ensures Abs((Round(x / u) as real) * u - x) <= u / 2.0
  {
    var y := x / u;
    var k := Round(y) as real;
    assert y * u == x;
    var e := k - y;
    assert -0.5 <= e <= 0.5;
    assert e * u == k * u - x;
    HalfUnit(e, u);
  }

  lemma HalfUnit(e: real, u: real)
    requires u > 0.0 && -0.5 <= e <= 0.5
    ensures -(u / 2.0) <= e * u <= u / 2.0
  {
  }

  /** The steps of the workout, in route order. */
  function ZwoSteps(segs: seq<Segment>, ftp: real): (steps: seq<ZwoStep>)
    requires ftp != 0.0
    ensures |steps| <= |segs|
  {
    if |segs| == 0 then []
    else
      var last := segs[|segs| - 1];
      var before := ZwoSteps(segs[..|segs| - 1], ftp);
      match ZwoStepFor(last.power, last.time, ftp)
      case None => before
      case Some(st) => before + [st]
  }

  /** Number of segments lasting at least 20 s. */
  function LongSegments(segs: seq<Segment>): nat
  {
    if |segs| == 0 then 0
    else LongSegments(segs[..|segs| - 1]) + (if segs[|segs| - 1].time >= ZWO_MIN_SECONDS then 1 else 0)
  }

  /** The workout has one step per segment of 20 s or more, each lasting a
      positive multiple of 10 s. */
  lemma {:induction false} ZwoStepsShape(segs: seq<Segment>, ftp: real)
    requires ftp != 0.0
    ensures |ZwoSteps(segs, ftp)| == LongSegments(segs)
    ensures forall k :: 0 <= k < |ZwoSteps(segs, ftp)| ==>
      ZwoSteps(segs, ftp)[k].duration >= 20 && ZwoSteps(segs, ftp)[k].duration % 10 == 0
  {
    if |segs| > 0 {
      var last := segs[|segs| - 1];
      ZwoStepsShape(segs[..|segs| - 1], ftp);
      ZwoStepFacts(last.power, last.time, ftp);
      if last.time >= ZWO_MIN_SECONDS {
        RoundedDurationFacts(last.power, last.time);
      }
    }
  }

  /** The loop of exportToZWO, collecting steps instead of XML lines. */
  method ExportToZwo(segs: seq<Segment>, cp: Option<real>, puissance: Option<real>) returns (steps: seq<ZwoStep>)
    ensures steps == ZwoSteps(segs, FtpRef(cp, puissance))
  {
    var ftpRef := FtpRef(cp, puissance);
    steps := [];
    var i := 0;
    while i < |segs|
      invariant 0 <= i <= |segs|
      invariant steps == ZwoSteps(segs[..i], ftpRef)
    {
      assert segs[..i + 1][..i] == segs[..i];
      var seg := segs[i];
      if seg.time >= ZWO_MIN_SECONDS {
        var rounded := RoundedDuration(seg.power, seg.time);
        if rounded > 0 {
          if seg.power < FREE_RIDE_BELOW {
            steps := steps + [FreeRide(rounded)];
          } else {
            var roundedPower := Round(seg.power / 5.0) * 5;
            steps := steps + [SteadyState(rounded, roundedPower as real / ftpRef)];
          }
        }
      }
      i := i + 1;
    }
    assert segs[..i] == segs;
  }

  // ---------------------------------------------------------------------
  // findPointIndexByDistance

  /** The index of the first point whose distance is nearest the target, or
      −1 for an empty route. */
  method FindPointIndexByDistance(pts: seq<TrackPoint>, targetDist: real) returns (closest: int)
    ensures |pts| == 0 <==> closest == -1
    ensures |pts| > 0 ==> 0 <= closest < |pts|
    ensures |pts| > 0 ==> forall j :: 0 <= j < |pts| ==> Abs(pts[closest].dist - targetDist) <= Abs(pts[j].dist - targetDist)
    ensures |pts| > 0 ==> forall j :: 0 <= j < closest ==> Abs(pts[closest].dist - targetDist) < Abs(pts[j].dist - targetDist)
  {
    if |pts| == 0 {
      return -1;
    }
    closest := 0;
    var minDiff := Abs(pts[0].dist - targetDist);
    var i := 1;
    while i < |pts|
      invariant 1 <= i <= |pts| && 0 <= closest < i
      invariant minDiff == Abs(pts[closest].dist - targetDist)
      invariant forall j :: 0 <= j < i ==> minDiff <= Abs(pts[j].dist - targetDist)
      invariant forall j :: 0 <= j < closest ==> minDiff < Abs(pts[j].dist - targetDist)
    {
      var diff := Abs(pts[i].dist - targetDist);
      if diff < minDiff {
        minDiff := diff;
        closest := i;
      }
      i := i + 1;
    }
  }

  // ---------------------------------------------------------------------
  // smoothData

  /** A point of a chart. */
  datatype ChartPoint = ChartPoint(x: real, y: real)

  function Ys(data: seq<ChartPoint>): (ys: seq<real>)
    ensures |ys| == |data| && forall i {:trigger ys[i]} :: 0 <= i < |data| ==> ys[i] == data[i].y
  {
    seq(|data|, i requires 0 <= i < |data| => data[i].y)
  }

  /** `Math.ceil(w / 2)` for a whole w. */
  function HalfUp(w: int): int
  {
    if w % 2 == 0 then w / 2 else w / 2 + 1
  }

  /** The smoothed value at i: the mean of y over [i − ⌊w/2⌋, i + ⌈w/2⌉ − 1]
      clamped to the data, a window of w points where it fits. */
  function SmoothedAt(data: seq<ChartPoint>, i: int, w: int): real
  {
    ClampedMean(Ys(data), i - w / 2, i + HalfUp(w) - 1)
  }

  /** smoothData: each point keeps its x and gets the mean of the y values
      in its window. */
  method SmoothData(data: seq<ChartPoint>, windowSize: int) returns (smoothed: seq<ChartPoint>)
    requires windowSize >= 1
    ensures |smoothed| == |data|
    ensures forall i :: 0 <= i < |data| ==> smoothed[i] == ChartPoint(data[i].x, SmoothedAt(data, i, windowSize))
  {
    var ys := Ys(data);
    smoothed := [];
    var i := 0;
    while i < |data|
      invariant 0 <= i <= |data| && |smoothed| == i
      invariant forall k :: 0 <= k < i ==> smoothed[k] == ChartPoint(data[k].x, SmoothedAt(data, k, windowSize))
    {
      var mean := MeanOver(ys, i - windowSize / 2, i + HalfUp(windowSize) - 1);
      smoothed := smoothed + [ChartPoint(data[i].x, mean)];
      i := i + 1;
    }
  }

  /** The window of a point always holds the point itself, so a smoothed
      value lies between the least and the greatest y of the data. */
  lemma SmoothedWithinRange(data: seq<ChartPoint>, i: int, w: int, lo: real, hi: real)
    requires 0 <= i < |data| && w >= 1
    requires forall j :: 0 <= j < |data| ==> lo <= data[j].y <= hi
    ensures lo <= SmoothedAt(data, i, w) <= hi
  {
    var ys := Ys(data);
    assert MaxInt(0, i - w / 2) <= i <= MinInt(|ys| - 1, i + HalfUp(w) - 1);
    ClampedMeanBounds(ys, i - w / 2, i + HalfUp(w) - 1, lo, hi);
  }

  // ---------------------------------------------------------------------
  // interpolateSegmentPoints

  /** Points closer than this (m) are not interpolated between. */
  const MIN_GAP: real := 0.01

  /** Distance between consecutive resampled points: the length of the
      stretch over targetPointCount − 1 when both are positive, else 0. */
  function StepDistance(points: seq<TrackPoint>, targetPointCount: int): (step: real)
    requires |points| >= 2
    ensures step >= 0.0
  {
    var total := points[|points| - 1].dist - points[0].dist;
    if total > 0.0 && targetPointCount > 1 then total / (targetPointCount - 1) as real else 0.0
  }

  /** The first index k from `from` on (and at least 1) whose point is at or
      past the distance cur, or the last index. */
  function BracketFrom(points: seq<TrackPoint>, cur: real, from: nat): (k: nat)
    requires 1 <= from < |points|
    ensures from <= k < |points|
    ensures k == |points| - 1 || points[k].dist >= cur
    ensures forall j :: from <= j < k ==> points[j].dist < cur
    decreases |points| - from
  {
    if from == |points| - 1 || points[from].dist >= cur then from else BracketFrom(points, cur, from + 1)
  }

  /** Linear interpolation at distance cur between two points: position,
      elevation and both slopes; the other fields are not carried over. */
  function Lerp(p1: TrackPoint, p2: TrackPoint, cur: real): TrackPoint
    requires p2.dist - p1.dist >= MIN_GAP
  {
    var t := (cur - p1.dist) / (p2.dist - p1.dist);
    TrackPoint(Interpolate(p1.lat, p2.lat, t), Interpolate(p1.lon, p2.lon, t), Interpolate(p1.ele, p2.ele, t),
               cur, Interpolate(p1.localSlope, p2.localSlope, t),
               Interpolate(p1.smoothedSlope, p2.smoothedSlope, t), None, None, None, None, None)
  }

  /** The resampled point at distance cur: between the bracketing points, or
      a copy of the earlier one moved to cur when they are closer than 1 cm. */
  function InterpAt(points: seq<TrackPoint>, cur: real, k: nat): (r: TrackPoint)
    requires 1 <= k < |points|
    ensures r.dist == cur
  {
    var p1 := points[k - 1];
    var p2 := points[k];
    if p2.dist - p1.dist < MIN_GAP then p1.(dist := cur) else Lerp(p1, p2, cur)
  }

  /** Distance of the m-th point of the evenly spaced grid. */
  function GridDist(points: seq<TrackPoint>, targetPointCount: int, m: int): real
    requires |points| >= 2
  {
    points[0].dist + m as real * StepDistance(points, targetPointCount)
  }

  /** The m-th inner point of the resampled stretch. */
  function GridPoint(points: seq<TrackPoint>, targetPointCount: int, m: int): TrackPoint
    requires |points| >= 2
  {
    var cur := GridDist(points, targetPointCount, m);
    InterpAt(points, cur, BracketFrom(points, cur, 1))
  }

  lemma GridStep(points: seq<TrackPoint>, targetPointCount: int, m: int)
    requires |points| >= 2
    ensures GridDist(points, targetPointCount, m + 1) ==
            GridDist(points, targetPointCount, m) + StepDistance(points, targetPointCount)
  {
    var step := StepDistance(points, targetPointCount);
    assert (m + 1) as real * step == m as real * step + step;
  }

  /** interpolateSegmentPoints: a stretch of two points or more becomes its
      first point, targetPointCount − 2 points evenly spaced in distance, and
      its last point; each inner point is interpolated in the pair of points
      that brackets its distance. Shorter stretches are returned as they are. */
  method InterpolateSegmentPoints(points: seq<TrackPoint>, targetPointCount: int) returns (r: seq<TrackPoint>)
    ensures |points| < 2 ==> r == points
    ensures |points| >= 2 ==> |r| == MaxInt(2, targetPointCount)
    ensures |points| >= 2 ==> r[0] == points[0] && r[|r| - 1] == points[|points| - 1]
    ensures |points| >= 2 ==> forall i :: 0 < i < |r| - 1 ==> r[i] == GridPoint(points, targetPointCount, i)
  {
    if |points| < 2 {
      return points;
    }
    var n := |points|;
    var step := StepDistance(points, targetPointCount);
    var currentDist := points[0].dist;
    var pointIndex := 1;
    r := [points[0]];
    var i := 1;
    while i < targetPointCount - 1
      invariant 1 <= i <= MaxInt(1, targetPointCount - 1) && |r| == i && r[0] == points[0]
      invariant currentDist == GridDist(points, targetPointCount, i - 1)
      invariant 1 <= pointIndex < n
      invariant forall j :: 1 <= j < pointIndex ==> points[j].dist < currentDist + step
      invariant forall m :: 0 < m < i ==> r[m] == GridPoint(points, targetPointCount, m)
    {
      GridStep(points, targetPointCount, i - 1);
      currentDist := currentDist + step;
      pointIndex := Advance(points, pointIndex, currentDist);
      r := r + [InterpAt(points, currentDist, pointIndex)];
      i := i + 1;
    }
    r := r + [points[n - 1]];
  }

  /** The inner loop: move the bracket forward past the points before cur. */
  method Advance(points: seq<TrackPoint>, pointIndex: nat, cur: real) returns (k: nat)
    requires 1 <= pointIndex < |points|
    requires forall j :: 1 <= j < pointIndex ==> points[j].dist < cur
    ensures k == BracketFrom(points, cur, 1)
    ensures forall j :: 1 <= j < k ==> points[j].dist < cur
  {
    k := pointIndex;
    while k < |points| - 1 && points[k].dist < cur
      invariant pointIndex <= k < |points|
      invariant forall j :: 1 <= j < k ==> points[j].dist < cur
    {
      k := k + 1;
    }
    BracketSkip(points, cur, 1, k);
  }

  /** The bracket search may start past points known to lie before cur. */
  lemma {:induction false} BracketSkip(points: seq<TrackPoint>, cur: real, from: nat, k: nat)
    requires 1 <= from <= k < |points|
    requires forall j :: from <= j < k ==> points[j].dist < cur
    ensures BracketFrom(points, cur, from) == BracketFrom(points, cur, k)
    decreases k - from
  {
    if from < k {
      BracketSkip(points, cur, from + 1, k);
    }
  }

  /** The evenly spaced grid ends on the last point: targetPointCount − 1
      steps cover the stretch exactly. */
  lemma StepCoversStretch(points: seq<TrackPoint>, targetPointCount: int)
    requires |points| >= 2 && targetPointCount > 1
    requires points[|points| - 1].dist > points[0].dist
    ensures points[0].dist + (targetPointCount - 1) as real * StepDistance(points, targetPointCount) ==
            points[|points| - 1].dist
  {
  }

  /** On a route whose distance never decreases, the bracket of a distance
      within the stretch holds it: the earlier point is at or before it and
      the later point at or after it. */
  lemma BracketHolds(points: seq<TrackPoint>, cur: real)
    requires |points| >= 2 && DistNonDecreasing(points)
    requires points[0].dist <= cur <= points[|points| - 1].dist
    ensures points[BracketFrom(points, cur, 1) - 1].dist <= cur <= points[BracketFrom(points, cur, 1)].dist
  {
    var k := BracketFrom(points, cur, 1);
    if k > 1 {
      assert points[k - 1].dist < cur;
    }
  }

  /** An interpolated point lies between the elevations of its bracket when
      its distance does. */
  lemma InterpolatedElevation(points: seq<TrackPoint>, cur: real, k: nat)
    requires 1 <= k < |points|
    requires points[k - 1].dist <= cur <= points[k].dist
    ensures Min(points[k - 1].ele, points[k].ele) <= InterpAt(points, cur, k).ele <= Max(points[k - 1].ele, points[k].ele)
  {
    var p1 := points[k - 1];
    var p2 := points[k];
    if p2.dist - p1.dist >= MIN_GAP {
      var g := p2.dist - p1.dist;
      var t := (cur - p1.dist) / g;
      DivBounds(cur - p1.dist, g, 0.0, 2.0);
      UnitFraction(cur - p1.dist, g);
      LerpBetween(p1.ele, p2.ele, t);
    }
  }

  lemma UnitFraction(x: real, g: real)
    requires g > 0.0 && 0.0 <= x <= g
    ensures 0.0 <= x / g <= 1.0
  {
    var y := x / g;
    assert y * g == x;
  }

  // ---------------------------------------------------------------------
  // segmentColForProfile

  /** The chart data of a climb cut into marks: distance from the start of
      the climb (km), elevation and average grade (%) of the stretch that
      ends at each mark. The first mark is the start, with grade 0. */
  datatype ColProfile = ColProfile(distKm: seq<real>, altitude: seq<real>, rawSlopes: seq<real>)

  /** Average grade in percent from a to b, or 0 when b is not further. */
  function Grade(a: TrackPoint, b: TrackPoint): (g: real)
    ensures b.dist - a.dist > 0.0 ==> g * (b.dist - a.dist) == (b.ele - a.ele) * 100.0
    ensures b.dist - a.dist <= 0.0 ==> g == 0.0
  {
    var d := b.dist - a.dist;
    var e := b.ele - a.ele;
    if d > 0.0 then (e / d) * 100.0 else 0.0
  }

  /** The marks from point i on, the next one due once the distance from the
      start reaches `next`: a point is a mark when it reaches the due distance
      or is the last point, and each mark pushes the due distance one
      segment length further. */
  function MarksFrom(points: seq<TrackPoint>, segLen: real, next: real, i: nat): (ms: seq<nat>)
    requires 1 <= i <= |points|
    ensures IndexRun(ms, i, |points|)
    ensures i < |points| ==> |ms| > 0 && ms[|ms| - 1] == |points| - 1
    decreases |points| - i
  {
    if i == |points| then []
    else if points[i].dist - points[0].dist >= next || i == |points| - 1 then
      var rest := MarksFrom(points, segLen, next + segLen, i + 1);
      ConsIncreasing(i, rest, |points|);
      [i] + rest
    else MarksFrom(points, segLen, next, i + 1)
  }

  /** A strictly increasing list of indices in [lo, n). */
  predicate IndexRun(ms: seq<nat>, lo: nat, n: nat)
  {
    (forall j :: 0 <= j < |ms| ==> lo <= ms[j] < n) &&
    (forall j :: 0 < j < |ms| ==> ms[j - 1] < ms[j])
  }

  /** Putting index i in front of a run above i keeps it a run. */
  lemma ConsIncreasing(i: nat, rest: seq<nat>, n: nat)
    requires i < n && IndexRun(rest, i + 1, n)
    ensures IndexRun([i] + rest, i, n)
  {
    var ms := [i] + rest;
    assert forall j :: 0 < j < |ms| ==> ms[j] == rest[j - 1];
  }

  /** j segment lengths. */
  function SegLengths(j: nat, segLen: real): real
  {
    j as real * segLen
  }

  lemma SegLengthsStep(j: nat, segLen: real)
    requires j >= 1
    ensures SegLengths(j, segLen) == SegLengths(j - 1, segLen) + segLen
  {
    var r := (j - 1) as real;
    assert j as real == r + 1.0;
  }

  /** Every mark of ms, unless it is the last point, lies at least `next`
      plus its rank in segment lengths from the start. */
  ghost predicate MarksDue(points: seq<TrackPoint>, ms: seq<nat>, segLen: real, next: real)
  {
    forall j :: 0 <= j < |ms| && ms[j] < |points| - 1 ==>
      points[ms[j]].dist - points[0].dist >= next + SegLengths(j, segLen)
  }

  /** Putting a point that reaches `next`, or is the last point, in front of
      marks due from one segment length further keeps them due from `next`. */
  lemma MarksDueShift(points: seq<TrackPoint>, i: nat, rest: seq<nat>, segLen: real, next: real)
    requires i < |points|
    requires points[i].dist - points[0].dist >= next || i == |points| - 1
    requires MarksDue(points, rest, segLen, next + segLen)
    ensures MarksDue(points, [i] + rest, segLen, next)
  {
    var ms := [i] + rest;
    forall j | 0 <= j < |ms| && ms[j] < |points| - 1
      ensures points[ms[j]].dist - points[0].dist >= next + SegLengths(j, segLen)
    {
      if j == 0 {
        assert SegLengths(0, segLen) == 0.0;
      } else {
        assert ms[j] == rest[j - 1];
        SegLengthsStep(j, segLen);
      }
    }
  }

  /** The j-th mark from point i on, unless it is the last point, lies at
      least `next` plus j segment lengths from the start. */
  lemma {:induction false} MarksReach(points: seq<TrackPoint>, segLen: real, next: real, i: nat)
    requires 1 <= i <= |points|
    ensures MarksDue(points, MarksFrom(points, segLen, next, i), segLen, next)
    decreases |points| - i
  {
    if i < |points| {
      var ms := MarksFrom(points, segLen, next, i);
      if points[i].dist - points[0].dist >= next || i == |points| - 1 {
        var rest := MarksFrom(points, segLen, next + segLen, i + 1);
        assert ms == [i] + rest;
        MarksReach(points, segLen, next + segLen, i + 1);
        MarksDueShift(points, i, rest, segLen, next);
      } else {
        assert ms == MarksFrom(points, segLen, next, i + 1);
        MarksReach(points, segLen, next, i + 1);
      }
    }
  }

  /** All the marks of a climb: its first point, then the marks from the
      second point on, the first one due one segment length in. */
  function ColMarks(points: seq<TrackPoint>, segLen: real): seq<nat>
    requires |points| >= 2
  {
    [0] + MarksFrom(points, segLen, segLen, 1)
  }

  /** The marks start at the first point, end at the last one and go forward;
      the j-th mark, unless it is the last point, lies at least j segment
      lengths from the start. */
  lemma ColMarksShape(points: seq<TrackPoint>, segLen: real)
    requires |points| >= 2
    ensures |ColMarks(points, segLen)| >= 2
    ensures ColMarks(points, segLen)[0] == 0 && ColMarks(points, segLen)[|ColMarks(points, segLen)| - 1] == |points| - 1
    ensures forall j :: 0 < j < |ColMarks(points, segLen)| ==> ColMarks(points, segLen)[j - 1] < ColMarks(points, segLen)[j]
    ensures MarksDue(points, ColMarks(points, segLen), segLen, 0.0)
  {
    var rest := MarksFrom(points, segLen, segLen, 1);
    MarksReach(points, segLen, segLen, 1);
    MarksDueShift(points, 0, rest, segLen, 0.0);
  }

  /** The profile over a list of marks. */
  predicate ProfileOf(points: seq<TrackPoint>, ms: seq<nat>, prof: ColProfile)
    requires |ms| > 0 && ms[0] == 0 && forall j :: 0 <= j < |ms| ==> ms[j] < |points|
  {
    |prof.distKm| == |ms| && |prof.altitude| == |ms| && |prof.rawSlopes| == |ms| &&
    (forall j :: 0 <= j < |ms| ==> prof.distKm[j] == (points[ms[j]].dist - points[0].dist) / 1000.0) &&
    (forall j :: 0 <= j < |ms| ==> prof.altitude[j] == points[ms[j]].ele) &&
    prof.rawSlopes[0] == 0.0 &&
    (forall j :: 0 < j < |ms| ==> prof.rawSlopes[j] == Grade(points[ms[j - 1]], points[ms[j]]))
  }

  /** The distance between profile marks, in metres, segmentColForProfile
      uses when its caller passes none. */
  const DEFAULT_SEGMENT_LENGTH: real := 1000.0

  /** segmentColForProfile: fewer than two points give an empty profile;
      otherwise one entry per mark, the grade of each entry taken from the
      previous mark. */
  method SegmentColForProfile(points: seq<TrackPoint>, segmentLength: real) returns (prof: ColProfile)
    ensures |points| < 2 ==> prof == ColProfile([], [], [])
    ensures |points| >= 2 ==> ColMarksValid(points, segmentLength) && ProfileOf(points, ColMarks(points, segmentLength), prof)
  {
    if |points| < 2 {
      return ColProfile([], [], []);
    }
    ColMarksShape(points, segmentLength);
    var nextMarker := segmentLength;
    var segmentStart := points[0];
    ghost var done: seq<nat> := [0];
    prof := ColProfile([0.0], [points[0].ele], [0.0]);
    var i := 1;
    while i < |points|
      invariant 1 <= i <= |points|
      invariant ColScan(points, segmentLength, i, nextMarker, segmentStart, done, prof)
    {
      nextMarker, segmentStart, done, prof := ColStep(points, segmentLength, i, nextMarker, segmentStart, done, prof);
      i := i + 1;
    }
    assert MarksFrom(points, segmentLength, nextMarker, i) == [];
    assert done == ColMarks(points, segmentLength);
  }

  /** The state of the scan of segmentColForProfile before point i: the
      marks found so far, the distance the next one is due at, the point the
      current stretch starts from and the profile of the marks so far. */
  ghost predicate ColScan(points: seq<TrackPoint>, segLen: real, i: nat, nextMarker: real, segmentStart: TrackPoint,
                          done: seq<nat>, prof: ColProfile)
    requires 1 <= i <= |points|
  {
    |points| >= 2 && |done| > 0 && done[0] == 0 &&
    (forall j :: 0 <= j < |done| ==> done[j] < i) &&
    done + MarksFrom(points, segLen, nextMarker, i) == ColMarks(points, segLen) &&
    segmentStart == points[done[|done| - 1]] &&
    ProfileOf(points, done, prof)
  }

  /** One pass of the loop of segmentColForProfile, at point i. */
  method ColStep(points: seq<TrackPoint>, segLen: real, i: nat, nextMarker: real, segmentStart: TrackPoint,
                 ghost done: seq<nat>, prof: ColProfile)
    returns (nextMarker': real, segmentStart': TrackPoint, ghost done': seq<nat>, prof': ColProfile)
    requires 1 <= i < |points|
    requires ColScan(points, segLen, i, nextMarker, segmentStart, done, prof)
    ensures ColScan(points, segLen, i + 1, nextMarker', segmentStart', done', prof')
  {
    var point := points[i];
    var distInClimb := point.dist - points[0].dist;
    if distInClimb >= nextMarker || i == |points| - 1 {
      var avgGrade := Grade(segmentStart, point);
      prof' := ColProfile(prof.distKm + [distInClimb / 1000.0], prof.altitude + [point.ele], prof.rawSlopes + [avgGrade]);
      done' := done + [i];
      nextMarker' := nextMarker + segLen;
      segmentStart' := point;
      ColScanMark(points, segLen, i, nextMarker, segmentStart, done, prof);
    } else {
      nextMarker', segmentStart', done', prof' := nextMarker, segmentStart, done, prof;
      ColScanSkip(points, segLen, i, nextMarker, segmentStart, done, prof);
    }
  }

  /** A point that is a mark adds its entry and pushes the due distance on. */
  lemma ColScanMark(points: seq<TrackPoint>, segLen: real, i: nat, nextMarker: real, segmentStart: TrackPoint,
                    done: seq<nat>, prof: ColProfile)
    requires 1 <= i < |points|
    requires ColScan(points, segLen, i, nextMarker, segmentStart, done, prof)
    requires points[i].dist - points[0].dist >= nextMarker || i == |points| - 1
    ensures ColScan(points, segLen, i + 1, nextMarker + segLen, points[i], done + [i],
      ColProfile(prof.distKm + [(points[i].dist - points[0].dist) / 1000.0], prof.altitude + [points[i].ele],
                 prof.rawSlopes + [Grade(segmentStart, points[i])]))
  {
    ProfileStep(points, done, prof, i);
    var rest := MarksFrom(points, segLen, nextMarker + segLen, i + 1);
    assert MarksFrom(points, segLen, nextMarker, i) == [i] + rest;
    assert (done + [i]) + rest == done + ([i] + rest);
  }

  /** A point that is not a mark changes nothing. */
  lemma ColScanSkip(points: seq<TrackPoint>, segLen: real, i: nat, nextMarker: real, segmentStart: TrackPoint,
                    done: seq<nat>, prof: ColProfile)
    requires 1 <= i < |points|
    requires ColScan(points, segLen, i, nextMarker, segmentStart, done, prof)
    requires !(points[i].dist - points[0].dist >= nextMarker || i == |points| - 1)
    ensures ColScan(points, segLen, i + 1, nextMarker, segmentStart, done, prof)
  {
    assert MarksFrom(points, segLen, nextMarker, i) == MarksFrom(points, segLen, nextMarker, i + 1);
  }

  /** One more mark adds its entry to the profile. */
  lemma ProfileStep(points: seq<TrackPoint>, done: seq<nat>, prof: ColProfile, i: nat)
    requires |done| > 0 && done[0] == 0 && i < |points| && forall j :: 0 <= j < |done| ==> done[j] < |points|
    requires ProfileOf(points, done, prof)
    ensures ProfileOf(points, done + [i], ColProfile(prof.distKm + [(points[i].dist - points[0].dist) / 1000.0],
      prof.altitude + [points[i].ele], prof.rawSlopes + [Grade(points[done[|done| - 1]], points[i])]))
  {
  }

  /** The marks are indices of the points, the first one 0. */
  predicate ColMarksValid(points: seq<TrackPoint>, segLen: real)
    requires |points| >= 2
  {
    var ms := ColMarks(points, segLen);
    |ms| > 0 && ms[0] == 0 && forall j :: 0 <= j < |ms| ==> ms[j] < |points|
  }
}
