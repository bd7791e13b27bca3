/** analysis.js: the overview of a recorded activity. One pass over the
    points accumulates distance, climbing, moving and coasting time, the top
    speed, the work and, per property, sums, counts and maxima; closing
    formulas turn them into averages, pause time, intensity factor, training
    stress score and calories. The power heat map colours a stretch by its
    power on a hue scale. */
module Analysis {
  import opened Numeric
  import opened Track
  import Metrics
  import MainTools

  /** Intervals of this many seconds or more are recording gaps. */
  const MAX_INTERVAL_SECONDS := 120.0
  /** Below this speed (km/h) the rider is stopped. */
  const MIN_MOVING_KMH := 1.0
  /** Speeds from this one (km/h) up are GPS glitches and never the top speed. */
  const MAX_PLAUSIBLE_KMH := 130.0
  /** Cadence (rpm) or power (W) below this is coasting. */
  const COASTING_LIMIT := 5.0

  // ---------------------------------------------------------------------
  // The interval between two consecutive points

  /** The seconds between two points, when both carry a timestamp. */
  function Seconds(prev: TrackPoint, p: TrackPoint): Option<real>
  {
    if p.time.Some? && prev.time.Some? then Some((p.time.value - prev.time.value) / 1000.0) else None
  }

  /** Freewheeling: a cadence under 5, or no cadence and a power under 5. */
  predicate Coasting(p: TrackPoint)
  {
    (p.cad.Some? && p.cad.value < COASTING_LIMIT) || (p.cad.None? && p.power.Some? && p.power.value < COASTING_LIMIT)
  }

  /** What the overview takes from one interval: its length, its duration
      when it is timed (0 < dt < 120 s), its speed, whether the rider moved
      (over 1 km/h) and coasted, and the work done in kJ. */
  datatype Interval = Interval(d: real, dt: real, speed: real, timed: bool, moving: bool, coasting: bool, workKj: real)

  /** The interval ending at point i. */
  function IntervalAt(pts: seq<TrackPoint>, i: nat, math: Elementary): (iv: Interval)
    requires 0 < i < |pts|
    ensures iv.moving ==> iv.timed && 0.0 < iv.dt < MAX_INTERVAL_SECONDS && iv.speed > MIN_MOVING_KMH
    ensures iv.coasting ==> iv.moving
    ensures !iv.timed ==> iv.dt == 0.0 && iv.workKj == 0.0 && !iv.moving
    ensures iv.timed <==> Seconds(pts[i - 1], pts[i]).Some? &&
                          0.0 < Seconds(pts[i - 1], pts[i]).value < MAX_INTERVAL_SECONDS
    ensures iv.timed ==> iv.dt == Seconds(pts[i - 1], pts[i]).value
  {
    var prev := pts[i - 1];
    var p := pts[i];
    IntervalOf(prev, p, math.haversine(p.lat, p.lon, prev.lat, prev.lon))
  }

  /** The interval from prev to p, d metres apart. */
  function IntervalOf(prev: TrackPoint, p: TrackPoint, d: real): Interval
  {
    var sec := Seconds(prev, p);
    if sec.Some? && 0.0 < sec.value < MAX_INTERVAL_SECONDS then
      var dt := sec.value;
      var speed := d / dt * 3.6;
      var moving := speed > MIN_MOVING_KMH;
      var work := if p.power.Some? && p.power.value != 0.0 then p.power.value * dt / 1000.0 else 0.0;
      Interval(d, dt, speed, true, moving, moving && Coasting(p), work)
    else
      Interval(d, 0.0, 0.0, false, false, false, 0.0)
  }

  /** The quantities summed over intervals. */
  datatype IntervalPart = DistPart | MovingPart | CoastingPart | WorkPart

  function PartOf(iv: Interval, part: IntervalPart): real
  {
    match part
    case DistPart => iv.d
    case MovingPart => if iv.moving then iv.dt else 0.0
    case CoastingPart => if iv.coasting then iv.dt else 0.0
    case WorkPart => iv.workKj
  }

  /** The sum of a part over the intervals ending at points 1 to k − 1. */
  function IntervalTotal(pts: seq<TrackPoint>, k: nat, math: Elementary, part: IntervalPart): real
    requires k <= |pts|
  {
    if k <= 1 then 0.0 else IntervalTotal(pts, k - 1, math, part) + PartOf(IntervalAt(pts, k - 1, math), part)
  }

  /** The speed an interval offers as top speed: a moving one under 130 km/h. */
  function SpeedCandidate(iv: Interval): real
  {
    if iv.moving && iv.speed < MAX_PLAUSIBLE_KMH then iv.speed else 0.0
  }

  /** The top speed over the intervals ending at points 1 to k − 1. */
  function TopSpeed(pts: seq<TrackPoint>, k: nat, math: Elementary): real
    requires k <= |pts|
  {
    if k <= 1 then 0.0 else Max(TopSpeed(pts, k - 1, math), SpeedCandidate(IntervalAt(pts, k - 1, math)))
  }

  /** Climbing over the first k points. */
  function ElevGain(pts: seq<TrackPoint>, k: nat): real
    requires k <= |pts|
  {
    if k <= 1 then 0.0 else PositiveGain(pts, 0, k - 1)
  }

  /** The lowest and the highest elevation over the first k points (the
      first point's for k ≤ 1: the ±Infinity the source starts from is gone
      after the first point). */
  function LowestEle(pts: seq<TrackPoint>, k: nat): real
    requires 0 < |pts| && k <= |pts|
  {
    if k <= 1 then pts[0].ele else Min(LowestEle(pts, k - 1), pts[k - 1].ele)
  }

  function HighestEle(pts: seq<TrackPoint>, k: nat): real
    requires 0 < |pts| && k <= |pts|
  {
    if k <= 1 then pts[0].ele else Max(HighestEle(pts, k - 1), pts[k - 1].ele)
  }

  /** The route accumulators of the overview. */
  datatype RideTotals = RideTotals(dist: real, elev: real, minAlt: real, maxAlt: real, maxSpeed: real,
                                   moving: real, coasting: real, workKj: real)

  /** Their values after the first k points. */
  function RideTotalsAt(pts: seq<TrackPoint>, k: nat, math: Elementary): RideTotals
    requires 0 < |pts| && k <= |pts|
  {
    RideTotals(IntervalTotal(pts, k, math, DistPart), ElevGain(pts, k), LowestEle(pts, k), HighestEle(pts, k),
               TopSpeed(pts, k, math), IntervalTotal(pts, k, math, MovingPart),
               IntervalTotal(pts, k, math, CoastingPart), IntervalTotal(pts, k, math, WorkPart))
  }

  // ---------------------------------------------------------------------
  // Per-property sums, counts and maxima

  /** The positive values, in order. */
  function Positives(s: seq<real>): (r: seq<real>)
    ensures |r| <= |s|
    ensures forall v :: v in r <==> v in s && v > 0.0
  {
    if |s| == 0 then []
    else Positives(s[..|s| - 1]) + (if s[|s| - 1] > 0.0 then [s[|s| - 1]] else [])
  }

  /** The greatest value, starting from 0. */
  function MaxFrom(s: seq<real>): (m: real)
    ensures m >= 0.0 && forall k :: 0 <= k < |s| ==> s[k] <= m
    ensures m == 0.0 || m in s
  {
    if |s| == 0 then 0.0 else Max(MaxFrom(s[..|s| - 1]), s[|s| - 1])
  }

  /** Sum, count and maximum of a property. */
  datatype Tally = Tally(sum: real, count: nat, max: real)

  function TallyOf(vals: seq<real>): Tally
  {
    Tally(Sum(vals), |vals|, MaxFrom(vals))
  }

  /** Sum and count of the non-zero values of a property. */
  datatype NzTally = NzTally(sum: real, count: nat)

  function NzTallyOf(vals: seq<real>): NzTally
  {
    NzTally(Sum(Positives(vals)), |Positives(vals)|)
  }

  /** The per-property accumulators: power, power above 0, heart rate,
      cadence and cadence above 0. */
  datatype PointTallies = PointTallies(power: Tally, powerNz: NzTally, hr: Tally, cad: Tally, cadNz: NzTally)

  /** Their values over a run of points. */
  function PointTalliesOf(pts: seq<TrackPoint>): PointTallies
  {
    var powers := Metrics.Present(pts, Metrics.PowerField);
    var cads := Metrics.Present(pts, Metrics.CadField);
    PointTallies(TallyOf(powers), NzTallyOf(powers), TallyOf(Metrics.Present(pts, Metrics.HrField)),
                 TallyOf(cads), NzTallyOf(cads))
  }

  // ---------------------------------------------------------------------
  // The loop

  /** How the route accumulators move from point k to point k + 1. */
  lemma RideStep(pts: seq<TrackPoint>, k: nat, math: Elementary)
    requires 0 < k < |pts|
    ensures var t := RideTotalsAt(pts, k, math);
      var iv := IntervalAt(pts, k, math);
      RideTotalsAt(pts, k + 1, math) ==
        RideTotals(t.dist + iv.d, t.elev + Rise(pts[k - 1], pts[k]), Min(t.minAlt, pts[k].ele),
                   Max(t.maxAlt, pts[k].ele), Max(t.maxSpeed, SpeedCandidate(iv)),
                   t.moving + PartOf(iv, MovingPart), t.coasting + PartOf(iv, CoastingPart),
                   t.workKj + PartOf(iv, WorkPart))
  {
    if k > 1 {
      assert ElevGain(pts, k) == PositiveGain(pts, 0, k - 1);
    }
  }

  /** The loop body for the route accumulators at point i. */
  method AddPoint(pts: seq<TrackPoint>, i: nat, math: Elementary, t: RideTotals) returns (next: RideTotals)
    requires i < |pts| && t == RideTotalsAt(pts, i, math)
    ensures next == RideTotalsAt(pts, i + 1, math)
  {
    var p := pts[i];
    var minAlt := if p.ele < t.minAlt then p.ele else t.minAlt;
    var maxAlt := if p.ele > t.maxAlt then p.ele else t.maxAlt;
    next := t.(minAlt := minAlt, maxAlt := maxAlt);
    if i > 0 {
      RideStep(pts, i, math);
      TopSpeedBounds(pts, i, math);
      var prev := pts[i - 1];
      var d := math.haversine(p.lat, p.lon, prev.lat, prev.lon);
      next := AddInterval(prev, p, d, next);
    }
  }

  /** The loop body's interval part: distance, climbing, and, for a timed
      interval, moving and coasting time, top speed and work. */
  method AddInterval(prev: TrackPoint, p: TrackPoint, d: real, t: RideTotals) returns (next: RideTotals)
    requires t.maxSpeed >= 0.0
    ensures var iv := IntervalOf(prev, p, d);
      next == t.(dist := t.dist + iv.d, elev := t.elev + Rise(prev, p),
                 maxSpeed := Max(t.maxSpeed, SpeedCandidate(iv)),
                 moving := t.moving + PartOf(iv, MovingPart), coasting := t.coasting + PartOf(iv, CoastingPart),
                 workKj := t.workKj + PartOf(iv, WorkPart))
  {
    ghost var iv := IntervalOf(prev, p, d);
    var dist, elev, maxSpeed, moving, coasting, work := t.dist + d, t.elev, t.maxSpeed, t.moving, t.coasting, t.workKj;
    if p.ele > prev.ele {
      elev := elev + (p.ele - prev.ele);
    }
    if p.time.Some? && prev.time.Some? {
      var dt := (p.time.value - prev.time.value) / 1000.0;
      if 0.0 < dt < MAX_INTERVAL_SECONDS {
        var speed := d / dt * 3.6;
        assert iv.timed && iv.dt == dt && iv.speed == speed;
        if speed > MIN_MOVING_KMH {
          moving := moving + dt;
          if speed < MAX_PLAUSIBLE_KMH && speed > maxSpeed {
            maxSpeed := speed;
          }
          if Coasting(p) {
            coasting := coasting + dt;
          }
        }
        if p.power.Some? && p.power.value != 0.0 {
          work := work + p.power.value * dt / 1000.0;
        }
      }
    }
    next := RideTotals(dist, elev, t.minAlt, t.maxAlt, maxSpeed, moving, coasting, work);
  }

  /** One more value of a property, when present. */
  method AddValue(t: Tally, v: Option<real>, ghost vals: seq<real>) returns (next: Tally)
    requires t == TallyOf(vals)
    ensures next == TallyOf(vals + Metrics.Values(v))
  {
    next := t;
    if v.Some? {
      SumAppend(vals, [v.value]);
      assert [v.value][..0] == [];
      assert (vals + [v.value])[..|vals|] == vals;
      next := Tally(t.sum + v.value, t.count + 1, if v.value > t.max then v.value else t.max);
    } else {
      assert vals + [] == vals;
    }
  }

  /** One more value of a property, when present and positive. */
  method AddPositive(t: NzTally, v: Option<real>, ghost vals: seq<real>) returns (next: NzTally)
    requires t == NzTallyOf(vals)
    ensures next == NzTallyOf(vals + Metrics.Values(v))
  {
    next := t;
    if v.Some? {
      assert (vals + [v.value])[..|vals|] == vals;
      if v.value > 0.0 {
        SumAppend(Positives(vals), [v.value]);
        assert [v.value][..0] == [];
        next := NzTally(t.sum + v.value, t.count + 1);
      } else {
        assert Positives(vals) + [] == Positives(vals);
      }
    } else {
      assert vals + [] == vals;
    }
  }

  /** The loop body for the per-property accumulators at point i. */
  method AddValues(pts: seq<TrackPoint>, i: nat, t: PointTallies) returns (next: PointTallies)
    requires i < |pts| && t == PointTalliesOf(pts[..i])
    ensures next == PointTalliesOf(pts[..i + 1])
  {
    Metrics.PresentStep(pts, i, Metrics.PowerField);
    Metrics.PresentStep(pts, i, Metrics.HrField);
    Metrics.PresentStep(pts, i, Metrics.CadField);
    var power := AddValue(t.power, pts[i].power, Metrics.Present(pts[..i], Metrics.PowerField));
    var powerNz := AddPositive(t.powerNz, pts[i].power, Metrics.Present(pts[..i], Metrics.PowerField));
    var hr := AddValue(t.hr, pts[i].hr, Metrics.Present(pts[..i], Metrics.HrField));
    var cad := AddValue(t.cad, pts[i].cad, Metrics.Present(pts[..i], Metrics.CadField));
    var cadNz := AddPositive(t.cadNz, pts[i].cad, Metrics.Present(pts[..i], Metrics.CadField));
    next := PointTallies(power, powerNz, hr, cad, cadNz);
  }

  /** What the overview shows. */
  datatype Overview = Overview(
    ride: RideTotals,
    elapsed: real,
    pauseTime: real,
    avgMovingSpeed: real,
    avgTotalSpeed: real,
    avgPower: real,
    avgNzPower: real,
    maxPower: real,
    np: int,
    avgCadTotal: real,
    avgCadNz: real,
    maxCad: real,
    avgHr: Option<real>,
    maxHr: real,
    intensity: real,
    tss: real,
    coastingPct: real,
    totalKcal: real,
    kcalPerHour: real
  )

  /** `count > 0 ? sum / count : 0`. */
  function AverageOr0(sum: real, count: nat): real
  {
    if count > 0 then sum / count as real else 0.0
  }

  /** Kilometres per hour over a distance in metres and a time in seconds,
      0 without time. */
  function KmPerHour(dist: real, seconds: real): real
  {
    if seconds > 0.0 then (dist / 1000.0) / (seconds / 3600.0) else 0.0
  }

  /** The time not spent moving, never negative. */
  function PauseTime(elapsed: real, moving: real): real
  {
    Max(0.0, elapsed - moving)
  }

  /** The intensity factor NP/FTP, 0 without a positive FTP. */
  function IntensityFactor(np: int, ftp: real): real
  {
    if ftp > 0.0 then np as real / ftp else 0.0
  }

  /** The training stress score, 0 without a positive FTP or moving time. */
  function StressScore(moving: real, np: int, ftp: real): real
  {
    if ftp > 0.0 && moving > 0.0 then (moving * np as real * IntensityFactor(np, ftp)) / (ftp * 3600.0) * 100.0
    else 0.0
  }

  /** The share of the moving time spent coasting, in percent. */
  function CoastingPercent(coasting: real, moving: real): real
  {
    if moving > 0.0 then (coasting / moving) * 100.0 else 0.0
  }

  /** Calories from the work in kJ. */
  function Kcal(workKj: real): real
  {
    workKj / 0.24 / 4.184
  }

  /** Calories per moving hour, 0 without moving time. */
  function KcalPerHour(kcal: real, moving: real): real
  {
    if moving > 0.0 then kcal / (moving / 3600.0) else 0.0
  }

  /** The closing formulas, from the accumulators, the elapsed time, the
      normalized power and the FTP. */
  function Finish(ride: RideTotals, tallies: PointTallies, elapsed: real, np: int, ftp: real): Overview
  {
    var power, powerNz, hr, cad, cadNz := tallies.power, tallies.powerNz, tallies.hr, tallies.cad, tallies.cadNz;
    var moving := ride.moving;
    Overview(
      ride,
      elapsed,
      PauseTime(elapsed, moving),
      KmPerHour(ride.dist, moving),
      KmPerHour(ride.dist, elapsed),
      AverageOr0(power.sum, power.count),
      AverageOr0(powerNz.sum, powerNz.count),
      power.max,
      np,
      AverageOr0(cad.sum, cad.count),
      AverageOr0(cadNz.sum, cadNz.count),
      cad.max,
      if hr.count > 0 then Some(hr.sum / hr.count as real) else None,
      hr.max,
      IntensityFactor(np, ftp),
      StressScore(moving, np, ftp),
      CoastingPercent(ride.coasting, moving),
      Kcal(ride.workKj),
      KcalPerHour(Kcal(ride.workKj), moving))
  }

  /** The elapsed time from the first to the last timestamp, a missing one
      read as 0. */
  function ElapsedSeconds(pts: seq<TrackPoint>): real
    requires |pts| > 0
  {
    var startTime := if pts[0].time.Some? then pts[0].time.value else 0.0;
    var endTime := if pts[|pts| - 1].time.Some? then pts[|pts| - 1].time.value else 0.0;
    (endTime - startTime) / 1000.0
  }

  /** The overview of an activity of at least two points. */
  function OverviewOf(pts: seq<TrackPoint>, math: Elementary, cp: Option<real>, puissance: Option<real>): Overview
    requires |pts| >= 2
  {
    Finish(RideTotalsAt(pts, |pts|, math), PointTalliesOf(pts), ElapsedSeconds(pts), Metrics.NormalizedPowerSpec(pts, math), MainTools.FtpRef(cp, puissance))
  }

  /** renderAnalysisOverview without the page: nothing for fewer than two
      points, else the overview. The FTP is CP, else the power setting,
      else 250 W. */
  method RenderAnalysisOverview(pts: seq<TrackPoint>, math: Elementary, cp: Option<real>, puissance: Option<real>)
    returns (r: Option<Overview>)
    ensures |pts| < 2 <==> r.None?
    ensures |pts| >= 2 ==> r == Some(OverviewOf(pts, math, cp, puissance))
  {
    if |pts| < 2 {
      return None;
    }
    var ride := RideTotals(0.0, 0.0, pts[0].ele, pts[0].ele, 0.0, 0.0, 0.0, 0.0);
    var zero := Tally(0.0, 0, 0.0);
    var tallies := PointTallies(zero, NzTally(0.0, 0), zero, zero, NzTally(0.0, 0));
    var i := 0;
    while i < |pts|
      invariant 0 <= i <= |pts|
      invariant ride == RideTotalsAt(pts, i, math)
      invariant tallies == PointTalliesOf(pts[..i])
    {
      ride := AddPoint(pts, i, math, ride);
      tallies := AddValues(pts, i, tallies);
      i := i + 1;
    }
    assert pts[..i] == pts;
    var np := Metrics.CalculateNormalizedPower(pts, math);
    var ftp := MainTools.FtpRef(cp, puissance);
    r := Some(Finish(ride, tallies, ElapsedSeconds(pts), np, ftp));
  }

  // ---------------------------------------------------------------------
  // What the accumulators mean

  /** Coasting is counted only inside moving intervals: it never exceeds the
      moving time, and neither is negative. */
  lemma {:induction false} CoastingWithinMoving(pts: seq<TrackPoint>, k: nat, math: Elementary)
    requires k <= |pts|
    ensures 0.0 <= IntervalTotal(pts, k, math, CoastingPart) <= IntervalTotal(pts, k, math, MovingPart)
  {
    if k > 1 {
      CoastingWithinMoving(pts, k - 1, math);
    }
  }

  /** The top speed is under 130 km/h, at least every moving speed under
      130 km/h, and either 0 or one of them. */
  lemma {:induction false} TopSpeedBounds(pts: seq<TrackPoint>, k: nat, math: Elementary)
    requires k <= |pts|
    ensures 0.0 <= TopSpeed(pts, k, math) < MAX_PLAUSIBLE_KMH
    ensures forall j :: 1 <= j < k && IntervalAt(pts, j, math).moving && IntervalAt(pts, j, math).speed < MAX_PLAUSIBLE_KMH ==>
      IntervalAt(pts, j, math).speed <= TopSpeed(pts, k, math)
    ensures TopSpeed(pts, k, math) == 0.0 ||
      exists j :: 1 <= j < k && IntervalAt(pts, j, math).moving && TopSpeed(pts, k, math) == IntervalAt(pts, j, math).speed
  {
    if k > 1 {
      TopSpeedBounds(pts, k - 1, math);
    }
  }

  /** With every point timed and the timestamps in order, the moving time
      fits in the time from the first point to point k − 1. */
  lemma {:induction false} MovingWithinElapsed(pts: seq<TrackPoint>, k: nat, math: Elementary)
    requires 1 <= k <= |pts|
    requires forall j :: 0 <= j < |pts| ==> pts[j].time.Some?
    requires forall j :: 0 < j < |pts| ==> pts[j - 1].time.value <= pts[j].time.value
    ensures IntervalTotal(pts, k, math, MovingPart) <= (pts[k - 1].time.value - pts[0].time.value) / 1000.0
  {
    if k > 1 {
      MovingWithinElapsed(pts, k - 1, math);
      assert pts[k - 2].time.value <= pts[k - 1].time.value;
    }
  }

  /** The lowest and highest elevations bound every point seen, and are
      elevations of such points. */
  lemma {:induction false} AltitudeBounds(pts: seq<TrackPoint>, k: nat)
    requires 1 <= k <= |pts|
    ensures forall j :: 0 <= j < k ==> LowestEle(pts, k) <= pts[j].ele <= HighestEle(pts, k)
    ensures exists j :: 0 <= j < k && LowestEle(pts, k) == pts[j].ele
    ensures exists j :: 0 <= j < k && HighestEle(pts, k) == pts[j].ele
  {
    if k > 1 {
      AltitudeBounds(pts, k - 1);
    }
  }

  /** On values that are never negative, dropping the zeros keeps the sum. */
  lemma {:induction false} PositivesKeepSum(s: seq<real>)
    requires forall k :: 0 <= k < |s| ==> s[k] >= 0.0
    ensures Sum(Positives(s)) == Sum(s)
  {
    if |s| > 0 {
      var q := s[..|s| - 1];
      assert forall k :: 0 <= k < |q| ==> q[k] == s[k];
      PositivesKeepSum(q);
      var tail := if s[|s| - 1] > 0.0 then [s[|s| - 1]] else [];
      SumAppend(Positives(q), tail);
      if |tail| == 1 {
        assert tail[..0] == [];
      }
    }
  }

  /** Positive values have a positive sum. */
  lemma {:induction false} PositivesSumPositive(s: seq<real>)
    ensures |Positives(s)| > 0 ==> Sum(Positives(s)) > 0.0
    ensures Sum(Positives(s)) >= 0.0
  {
    if |s| > 0 {
      var q := s[..|s| - 1];
      PositivesSumPositive(q);
      var tail := if s[|s| - 1] > 0.0 then [s[|s| - 1]] else [];
      SumAppend(Positives(q), tail);
      if |tail| == 1 {
        assert tail[..0] == [];
      }
    }
  }

  /** On values that are never negative, leaving out the zeros can only
      raise the average. */
  lemma NonZeroAverageAtLeastAverage(s: seq<real>)
    requires forall k :: 0 <= k < |s| ==> s[k] >= 0.0
    requires |Positives(s)| > 0
    ensures Mean(s) <= Mean(Positives(s))
  {
    PositivesKeepSum(s);
    PositivesSumPositive(s);
    FewerRaisesQuotient(Sum(s), |s|, |Positives(s)|);
  }

  /** A sum that is not negative shared among fewer gives each more. */
  lemma FewerRaisesQuotient(total: real, n: nat, m: nat)
    requires total >= 0.0 && 0 < m <= n
    ensures total / n as real <= total / m as real
  {
    var a := total / n as real;
    assert a * n as real == total;
    assert a >= 0.0;
    assert a * m as real <= a * n as real by {
      assert a * (n as real - m as real) >= 0.0;
    }
    QuotientBounds(total, m as real, a, total / m as real);
  }

  // ---------------------------------------------------------------------
  // What the overview promises

  /** The route accumulators: coasting fits in the moving time; the top
      speed is under 130 km/h; the climbing is the positive elevation gain,
      at least the net rise; the altitude extremes bound every point. */
  lemma RideFacts(pts: seq<TrackPoint>, k: nat, math: Elementary)
    requires 1 <= k <= |pts|
    ensures var t := RideTotalsAt(pts, k, math);
      0.0 <= t.coasting <= t.moving && 0.0 <= t.maxSpeed < MAX_PLAUSIBLE_KMH
    ensures var t := RideTotalsAt(pts, k, math);
      t.elev == PositiveGain(pts, 0, k - 1) && t.elev >= pts[k - 1].ele - pts[0].ele
    ensures var t := RideTotalsAt(pts, k, math);
      forall j :: 0 <= j < k ==> t.minAlt <= pts[j].ele <= t.maxAlt
  {
    CoastingWithinMoving(pts, k, math);
    TopSpeedBounds(pts, k, math);
    AltitudeBounds(pts, k);
    NetRiseAtMostGain(pts, 0, k - 1);
  }

  /** Time: the coasting share is a percentage; the pause is never negative
      and never less than elapsed − moving, and is exactly that when the
      moving time fits in the elapsed time. */
  lemma FinishTimes(ride: RideTotals, tallies: PointTallies, elapsed: real, np: int, ftp: real)
    requires 0.0 <= ride.coasting <= ride.moving
    ensures var o := Finish(ride, tallies, elapsed, np, ftp);
      0.0 <= o.coastingPct <= 100.0 && o.pauseTime >= 0.0 && o.pauseTime >= elapsed - ride.moving
    ensures ride.moving <= elapsed ==> Finish(ride, tallies, elapsed, np, ftp).pauseTime == elapsed - ride.moving
    ensures ride.moving == 0.0 ==> Finish(ride, tallies, elapsed, np, ftp).coastingPct == 0.0
  {
    if ride.moving > 0.0 {
      QuotientBounds(ride.coasting, ride.moving, 0.0, 1.0);
    }
  }

  /** With every point timed in order, the moving time fits in the elapsed
      time. */
  lemma MovingFitsElapsed(pts: seq<TrackPoint>, math: Elementary)
    requires |pts| >= 1
    requires forall j :: 0 <= j < |pts| ==> pts[j].time.Some?
    requires forall j :: 0 < j < |pts| ==> pts[j - 1].time.value <= pts[j].time.value
    ensures RideTotalsAt(pts, |pts|, math).moving <= ElapsedSeconds(pts)
  {
    MovingWithinElapsed(pts, |pts|, math);
  }

  /** Averages: a tally's average is the mean of its values, 0 without any;
      a non-zero tally's is the mean of the positive values, itself positive,
      and never below the plain average when no value is negative; the
      maximum bounds every value. */
  lemma TallyAverages(vals: seq<real>)
    ensures |vals| > 0 ==> AverageOr0(TallyOf(vals).sum, TallyOf(vals).count) == Mean(vals)
    ensures |vals| == 0 ==> AverageOr0(TallyOf(vals).sum, TallyOf(vals).count) == 0.0
    ensures var nz := NzTallyOf(vals);
      |Positives(vals)| > 0 ==> AverageOr0(nz.sum, nz.count) == Mean(Positives(vals)) && AverageOr0(nz.sum, nz.count) > 0.0
    ensures |Positives(vals)| == 0 ==> AverageOr0(NzTallyOf(vals).sum, NzTallyOf(vals).count) == 0.0
    ensures (forall k :: 0 <= k < |vals| ==> vals[k] >= 0.0) && |Positives(vals)| > 0 ==>
      AverageOr0(TallyOf(vals).sum, TallyOf(vals).count) <= AverageOr0(NzTallyOf(vals).sum, NzTallyOf(vals).count)
    ensures forall k :: 0 <= k < |vals| ==> vals[k] <= TallyOf(vals).max
  {
    var pos := Positives(vals);
    if |pos| > 0 {
      PositivesSumPositive(vals);
      PositiveQuotient(Sum(pos), |pos| as real);
      if forall k :: 0 <= k < |vals| ==> vals[k] >= 0.0 {
        NonZeroAverageAtLeastAverage(vals);
      }
    }
  }

  lemma PositiveQuotient(a: real, b: real)
    requires a > 0.0 && b > 0.0
    ensures a / b > 0.0
  {
    var q := a / b;
    assert q * b == a;
  }

  /** Load and energy: with an FTP above 0 and some moving time, the
      intensity factor is NP/FTP and the training stress score is hours ×
      IF² × 100; without either both scores are 0. Calories are the work at
      24 % efficiency, 4.184 kJ a kcal. */
  lemma FinishLoad(ride: RideTotals, tallies: PointTallies, elapsed: real, np: int, ftp: real)
    ensures var o := Finish(ride, tallies, elapsed, np, ftp);
      (ftp <= 0.0 ==> o.intensity == 0.0 && o.tss == 0.0) &&
      (ride.moving <= 0.0 ==> o.tss == 0.0 && o.kcalPerHour == 0.0 && o.avgMovingSpeed == 0.0) &&
      (ftp > 0.0 ==> o.intensity * ftp == np as real)
    ensures var o := Finish(ride, tallies, elapsed, np, ftp);
      ftp > 0.0 && ride.moving > 0.0 ==> o.tss == ride.moving / 3600.0 * o.intensity * o.intensity * 100.0
    ensures var o := Finish(ride, tallies, elapsed, np, ftp);
      o.totalKcal * 4.184 * 0.24 == ride.workKj &&
      (ride.moving > 0.0 ==> o.kcalPerHour * (ride.moving / 3600.0) == o.totalKcal)
  {
    StressFacts(ride.moving, np, ftp);
    KcalFacts(ride.workKj, ride.moving);
  }

  /** The intensity factor times the FTP is NP, and the stress score is
      hours × IF² × 100, both 0 without a positive FTP or moving time. */
  lemma StressFacts(moving: real, np: int, ftp: real)
    ensures ftp <= 0.0 ==> IntensityFactor(np, ftp) == 0.0 && StressScore(moving, np, ftp) == 0.0
    ensures moving <= 0.0 ==> StressScore(moving, np, ftp) == 0.0
    ensures ftp > 0.0 ==> IntensityFactor(np, ftp) * ftp == np as real
    ensures ftp > 0.0 && moving > 0.0 ==>
      StressScore(moving, np, ftp) == moving / 3600.0 * IntensityFactor(np, ftp) * IntensityFactor(np, ftp) * 100.0
  {
    if ftp > 0.0 {
      var f := IntensityFactor(np, ftp);
      assert f * ftp == np as real;
      if moving > 0.0 {
        TssIdentity(moving, np as real, f, ftp);
      }
    }
  }

  /** Calories are the work at 24 % efficiency, 4.184 kJ a kcal, and the
      hourly rate times the moving hours gives them back. */
  lemma KcalFacts(workKj: real, moving: real)
    ensures Kcal(workKj) * 4.184 * 0.24 == workKj
    ensures moving > 0.0 ==> KcalPerHour(Kcal(workKj), moving) * (moving / 3600.0) == Kcal(workKj)
    ensures moving <= 0.0 ==> KcalPerHour(Kcal(workKj), moving) == 0.0
  {
    var k := Kcal(workKj);
    var a := workKj / 0.24;
    assert a * 0.24 == workKj;
    assert k * 4.184 == a;
    if moving > 0.0 {
      var h := moving / 3600.0;
      assert KcalPerHour(k, moving) * h == k;
    }
  }

  lemma TssIdentity(moving: real, np: real, f: real, ftp: real)
    requires ftp > 0.0 && f * ftp == np
    ensures (moving * np * f) / (ftp * 3600.0) * 100.0 == moving / 3600.0 * f * f * 100.0
  {
    assert moving * np * f == (moving * f * f) * ftp;
    var q := (moving * np * f) / (ftp * 3600.0);
    assert q * (ftp * 3600.0) == (moving * f * f) * ftp;
    assert q * 3600.0 == moving * f * f;
  }

  // ---------------------------------------------------------------------
  // Power heat map

  /** Powers from this one (W) up take the hottest colour. */
  const MAX_HEATMAP_POWER := 400.0

  /** A stretch's intensity: its end point's power (0 when missing) over
      400 W, capped at 1. */
  function HeatmapIntensity(power: Option<real>): (t: real)
    ensures t <= 1.0
    ensures OrDefault(power, 0.0) >= 0.0 ==> t >= 0.0
  {
    Min(OrDefault(power, 0.0) / MAX_HEATMAP_POWER, 1.0)
  }

  /** A colour as hue (degrees), saturation and lightness (percent). */
  datatype Hsl = Hsl(hue: real, saturation: real, lightness: real)

  /** getHeatmapColor: from blue (hue 240) at intensity 0 to red (hue 0) at
      intensity 1, fully saturated at half lightness. */
  function HeatmapColor(t: real): (c: Hsl)
    ensures t <= 1.0 ==> c.hue >= 0.0
    ensures t >= 0.0 ==> c.hue <= 240.0
  {
    Hsl((1.0 - t) * 240.0, 100.0, 50.0)
  }

  /** The scale: a missing or zero power is blue, 400 W and more red, any
      power that is not negative in between, and more power never a colder
      hue. */
  lemma HeatmapScale(p1: Option<real>, p2: Option<real>)
    ensures OrDefault(p1, 0.0) >= 0.0 ==> 0.0 <= HeatmapColor(HeatmapIntensity(p1)).hue <= 240.0
    ensures OrDefault(p1, 0.0) == 0.0 ==> HeatmapColor(HeatmapIntensity(p1)).hue == 240.0
    ensures OrDefault(p1, 0.0) >= MAX_HEATMAP_POWER ==> HeatmapColor(HeatmapIntensity(p1)).hue == 0.0
    ensures OrDefault(p1, 0.0) <= OrDefault(p2, 0.0) ==>
      HeatmapColor(HeatmapIntensity(p2)).hue <= HeatmapColor(HeatmapIntensity(p1)).hue
  {
  }
}
