/** The algorithmic body of runSimulation (main.js): grade-based seeding of
    power or speed, the damped rescaling rounds that bring the route average
    to the rider's target, and the forward pass that threads W′ through the
    segments in route order and totals time, distance, energy and power.
    The segments are updated in place, as the program updates the objects of
    its segment list. */
module Pacing {
  import opened Numeric
  import opened Physics
  import opened Segmentation

  /** Share of the rider's power that reaches the wheel. */
  const ETA_TRANSMISSION: real := 0.97
  /** Speed cap of the simulation, 100 km/h in m/s. */
  const SIM_VMAX: real := 100.0 / 3.6
  /** Most rescaling rounds in either mode. */
  const MAX_ROUNDS: nat := 12
  /** Share of the correction applied at each round. */
  const DAMPING: real := 0.8
  /** Relative gap to the target under which the rounds stop. */
  const CONVERGENCE: real := 0.001
  /** Floor on the divisor of a route average. */
  const MIN_TOTAL: real := 0.000001
  const UPHILL_FACTOR: real := 0.18
  const DOWNHILL_FACTOR: real := 0.25
  /** Power held on descents steeper than 8 %. */
  const DESCENT_POWER: real := 30.0
  /** Lowest power a segment is given in power mode. */
  const MIN_POWER: real := 1.0
  /** Lowest speed a segment is given in speed mode. */
  const MIN_SPEED: real := 0.5

  /** `simMode`: 'power' selects power mode, anything else speed mode. */
  datatype SimMode = PowerMode | SpeedMode

  /** The rider settings runSimulation reads: weights (kg), target power (W),
      rolling and drag coefficients, muscular efficiency, target speed
      (km/h), mode, critical power (W), W′ reserve (J) and its recovery time
      constant (s). */
  datatype UserParams = UserParams(
    poids: real,
    puissance: real,
    poidsVelo: real,
    crr: real,
    cda: real,
    etaMuscle: Option<real>,
    targetSpeed: real,
    simMode: SimMode,
    cp: real,
    wPrimeMax: real,
    tauRec: real
  )

  /** What the simulation reports besides the updated segments. The average
      speed (km/h) is missing when the total time is 0. */
  datatype Totals = Totals(totalTime: real, totalDist: real, totalKcal: real, realAvgPower: real, avgSpeedKmh: Option<real>)

  /** A segment with its simulated values blanked: the route data the
      simulation never changes. */
  function RoutePart(s: Segment): Segment
  {
    s.(power := 0.0, speed := 0.0, time := 0.0, kcal := None, wPrimeStart := None, wPrimeEnd := None)
  }

  /** A segment with its pacing values blanked: what the pacing rounds never change. */
  function Unpaced(s: Segment): Segment
  {
    s.(power := 0.0, speed := 0.0, time := 0.0)
  }

  /** `s.speed > 0.1 ? s.distance / s.speed : 0` */
  function TimeFor(distance: real, speed: real): (t: real)
    ensures speed > 0.1 ==> t * speed == distance
    ensures speed <= 0.1 ==> t == 0.0
  {
    if speed > 0.1 then distance / speed else 0.0
  }

  // ---------------------------------------------------------------------
  // Power mode

  /** The grade, in percent, clamped to ±20 %. */
  function ClampedPercent(avgGrade: real): (g: real)
    ensures -20.0 <= g <= 20.0
    ensures -20.0 <= avgGrade * 100.0 <= 20.0 ==> g == avgGrade * 100.0
  {
    Max(Min(avgGrade * 100.0, 20.0), -20.0)
  }

  /** Multiplier of the target power from the grade alone: 1 + 0.18·g/5
      uphill, 1 + 0.25·g/5 downhill, at least 0.4. */
  function GradeFactor(avgGrade: real): (f: real)
    ensures f >= 0.4
  {
    var sPerc := ClampedPercent(avgGrade);
    var f := if sPerc > 0.0 then 1.0 + UPHILL_FACTOR * (sPerc / 5.0) else 1.0 + (sPerc / 5.0) * DOWNHILL_FACTOR;
    Max(0.4, f)
  }

  /** Multiplier of the target power on a segment: the grade factor, and
      30/target below −8 %. */
  function SeedFactor(avgGrade: real, target: real): real
    requires target > 0.0
  {
    if ClampedPercent(avgGrade) < -8.0 then DESCENT_POWER / target else GradeFactor(avgGrade)
  }

  /** A multiple of the target power, floored at 1 W. */
  function FlooredScale(target: real, f: real): real
  {
    Max(MIN_POWER, target * f)
  }

  /** The seeded power of a segment. */
  function SeedPower(avgGrade: real, target: real): real
    requires target > 0.0
  {
    FlooredScale(target, SeedFactor(avgGrade, target))
  }

  /** Every seeded power is at least 1 W; below −8 % it is exactly 30 W; on
      the flat and uphill it is at least the target; past ±20 % the grade no
      longer matters. */
  lemma SeedPowerFacts(avgGrade: real, target: real)
    requires target > 0.0
    ensures SeedPower(avgGrade, target) >= MIN_POWER
    ensures avgGrade * 100.0 < -8.0 ==> SeedPower(avgGrade, target) == DESCENT_POWER
    ensures avgGrade >= 0.0 ==> SeedPower(avgGrade, target) >= target
    ensures avgGrade >= 0.2 ==> SeedPower(avgGrade, target) == SeedPower(0.2, target)
    ensures avgGrade <= -0.2 ==> SeedPower(avgGrade, target) == SeedPower(-0.2, target)
  {
    var sPerc := ClampedPercent(avgGrade);
    if sPerc < -8.0 {
      assert target * (DESCENT_POWER / target) == DESCENT_POWER;
    }
    if avgGrade >= 0.0 {
      assert SeedFactor(avgGrade, target) >= 1.0;
      MulMonotone(target, 1.0, SeedFactor(avgGrade, target));
    }
  }

  /** From −8 % up, the grade factor grows with the grade. */
  lemma GradeFactorMonotone(g1: real, g2: real)
    requires -0.08 <= g1 <= g2
    ensures GradeFactor(g1) <= GradeFactor(g2)
  {
    assert g1 * 100.0 <= g2 * 100.0;
    assert -8.0 <= ClampedPercent(g1) <= ClampedPercent(g2);
  }

  /** From −8 % up, a steeper segment is never seeded with less power. */
  lemma SeedPowerMonotone(g1: real, g2: real, target: real)
    requires target > 0.0 && -0.08 <= g1 <= g2
    ensures SeedPower(g1, target) <= SeedPower(g2, target)
  {
    SeedPowerOnGrade(g1, target);
    SeedPowerOnGrade(g2, target);
    GradeFactorMonotone(g1, g2);
    FlooredScaleMonotone(target, GradeFactor(g1), GradeFactor(g2));
  }

  lemma FlooredScaleMonotone(target: real, a: real, b: real)
    requires target > 0.0 && a <= b
    ensures FlooredScale(target, a) <= FlooredScale(target, b)
  {
    var x := target * a;
    var y := target * b;
    assert x <= y by { MulMonotone(target, a, b); }
    MaxMonotone(MIN_POWER, x, y);
  }

  lemma SeedPowerOnGrade(g: real, target: real)
    requires target > 0.0 && -0.08 <= g
    ensures SeedPower(g, target) == FlooredScale(target, GradeFactor(g))
  {
    assert g * 100.0 >= -8.0;
    assert SeedFactor(g, target) == GradeFactor(g);
  }

  /** The first loop of power mode: each segment gets its seeded power. */
  method SeedPowers(segs: array<Segment>, target: real)
    requires target > 0.0
    modifies segs
    ensures forall k :: 0 <= k < segs.Length ==> segs[k] == old(segs[k]).(power := SeedPower(old(segs[k]).avgGrade, target))
  {
    var i := 0;
    while i < segs.Length
      invariant 0 <= i <= segs.Length
      invariant forall k :: 0 <= k < i ==> segs[k] == old(segs[k]).(power := SeedPower(old(segs[k]).avgGrade, target))
      invariant forall k :: i <= k < segs.Length ==> segs[k] == old(segs[k])
    {
      segs[i] := segs[i].(power := SeedPower(segs[i].avgGrade, target));
      i := i + 1;
    }
  }

  /** The speed the solver gives for a segment at the rider's power, capped at 100 km/h. */
  function SpeedFor(s: Segment, mTotal: real, crr: real, cda: real, math: Elementary): (v: real)
    ensures V_MIN <= v <= SIM_VMAX
  {
    var q := SpeedQuery(s.power * ETA_TRANSMISSION, mTotal, s.avgGrade, crr, cda);
    SolveSpeedSpec(q, math);
    Min(SolveSpeed(q, math), SIM_VMAX)
  }

  /** The segment after the first half of a power round. */
  function Ride(s: Segment, mTotal: real, crr: real, cda: real, math: Elementary): (r: Segment)
    ensures Unpaced(r) == Unpaced(s) && r.power == s.power
    ensures V_MIN <= r.speed <= SIM_VMAX && r.time == TimeFor(r.distance, r.speed)
  {
    var v := SpeedFor(s, mTotal, crr, cda, math);
    s.(speed := v, time := TimeFor(s.distance, v))
  }

  /** Sum of the segment times. */
  function TotalTime(ss: seq<Segment>): real
  {
    if |ss| == 0 then 0.0 else TotalTime(ss[..|ss| - 1]) + ss[|ss| - 1].time
  }

  /** Sum of power × time over the segments. */
  function PowerTime(ss: seq<Segment>): real
  {
    if |ss| == 0 then 0.0 else PowerTime(ss[..|ss| - 1]) + ss[|ss| - 1].power * ss[|ss| - 1].time
  }

  /** The time-weighted average power of a route, over at least 1 s. */
  function RoutePower(ss: seq<Segment>): real
  {
    PowerTime(ss) / Max(MIN_TOTAL, TotalTime(ss))
  }

  /** Appending a segment to a list adds that segment's share to each route sum. */
  lemma AppendStep(ss: seq<Segment>, x: Segment)
    ensures TotalTime(ss + [x]) == TotalTime(ss) + x.time
    ensures PowerTime(ss + [x]) == PowerTime(ss) + x.power * x.time
    ensures TotalDistance(ss + [x]) == TotalDistance(ss) + x.distance
    ensures SpeedDistance(ss + [x]) == SpeedDistance(ss) + x.speed * x.distance
  {
    assert (ss + [x])[..|ss|] == ss;
  }

  /** One power round, first half: every segment is ridden at its power, and
      the time-weighted average power of the route is returned. */
  method PowerRound(segs: array<Segment>, mTotal: real, crr: real, cda: real, math: Elementary) returns (actualAvg: real)
    modifies segs
    ensures forall k :: 0 <= k < segs.Length ==> segs[k] == Ride(old(segs[k]), mTotal, crr, cda, math)
    ensures actualAvg == RoutePower(segs[..])
  {
    var totalTime := 0.0;
    var weightedPowerTime := 0.0;
    var i := 0;
    while i < segs.Length
      invariant 0 <= i <= segs.Length
      invariant forall k :: 0 <= k < i ==> segs[k] == Ride(old(segs[k]), mTotal, crr, cda, math)
      invariant forall k :: i <= k < segs.Length ==> segs[k] == old(segs[k])
      invariant totalTime == TotalTime(segs[..i]) && weightedPowerTime == PowerTime(segs[..i])
    {
      totalTime, weightedPowerTime := RideAt(segs, i, mTotal, crr, cda, math, totalTime, weightedPowerTime);
      i := i + 1;
    }
    assert segs[..i] == segs[..];
    actualAvg := weightedPowerTime / Max(MIN_TOTAL, totalTime);
  }

  /** The loop body of a power round at segment i: the segment ridden, and
      its share added to the sums. */
  method RideAt(segs: array<Segment>, i: nat, mTotal: real, crr: real, cda: real, math: Elementary,
                totalTime: real, weightedPowerTime: real) returns (totalTime': real, weightedPowerTime': real)
    requires i < segs.Length
    requires totalTime == TotalTime(segs[..i]) && weightedPowerTime == PowerTime(segs[..i])
    modifies segs
    ensures segs[..] == old(segs[..])[i := Ride(old(segs[i]), mTotal, crr, cda, math)]
    ensures totalTime' == TotalTime(segs[..i + 1]) && weightedPowerTime' == PowerTime(segs[..i + 1])
  {
    var s := segs[i];
    var ridden := RideSegment(s, mTotal, crr, cda, math);
    ghost var before := segs[..i];
    segs[i] := ridden;
    assert segs[..i + 1] == before + [ridden];
    AppendStep(before, ridden);
    var time := ridden.time;
    totalTime' := totalTime + time;
    weightedPowerTime' := weightedPowerTime + ridden.power * ridden.time;
  }

  /** The body of the first loop of a power round: solveVitesse at the
      wheel power, the 100 km/h cap, and the time at that speed. */
  method RideSegment(s: Segment, mTotal: real, crr: real, cda: real, math: Elementary) returns (r: Segment)
    ensures r == Ride(s, mTotal, crr, cda, math)
  {
    var pRoue := s.power * ETA_TRANSMISSION;
    var v := SolveVitesse(pRoue, mTotal, s.avgGrade, crr, cda, math);
    var speed := Min(v, SIM_VMAX);
    r := s.(speed := speed, time := TimeFor(s.distance, speed));
  }

  /** `Math.max(1, p * (1 + (scale − 1) · 0.8))` */
  function NudgePower(p: real, scale: real): real
  {
    Max(MIN_POWER, p * (1.0 + (scale - 1.0) * DAMPING))
  }

  /** A nudge never goes the wrong way: a scale above 1 never lowers a power,
      a positive scale below 1 never raises it, and a scale of 1 keeps it. */
  lemma NudgeDirection(p: real, scale: real)
    requires p >= MIN_POWER && scale > 0.0
    ensures scale >= 1.0 ==> NudgePower(p, scale) >= p
    ensures scale <= 1.0 ==> MIN_POWER <= NudgePower(p, scale) <= p
    ensures scale == 1.0 ==> NudgePower(p, scale) == p
  {
    var factor := 1.0 + (scale - 1.0) * DAMPING;
    if scale >= 1.0 {
      MulMonotone(p, 1.0, factor);
    } else {
      MulMonotone(p, factor, 1.0);
    }
  }

  /** One power round, second half: every power is nudged by the damped scale. */
  method NudgePowers(segs: array<Segment>, scale: real)
    modifies segs
    ensures forall k :: 0 <= k < segs.Length ==> segs[k] == old(segs[k]).(power := NudgePower(old(segs[k]).power, scale))
  {
    var i := 0;
    while i < segs.Length
      invariant 0 <= i <= segs.Length
      invariant forall k :: 0 <= k < i ==> segs[k] == old(segs[k]).(power := NudgePower(old(segs[k]).power, scale))
      invariant forall k :: i <= k < segs.Length ==> segs[k] == old(segs[k])
    {
      segs[i] := segs[i].(power := Max(MIN_POWER, segs[i].power * (1.0 + (scale - 1.0) * DAMPING)));
      i := i + 1;
    }
  }

  /** A segment whose speed and time come from the solver: the speed within
      [0.1, 100/3.6] m/s and the time its distance at that speed. */
  predicate Ridden(s: Segment)
  {
    V_MIN <= s.speed <= SIM_VMAX && s.time == TimeFor(s.distance, s.speed)
  }

  /** A segment whose speed and time are the solver's at its own power. */
  predicate SolvedAt(s: Segment, mTotal: real, crr: real, cda: real, math: Elementary)
  {
    s.speed == SpeedFor(s, mTotal, crr, cda, math) && s.time == TimeFor(s.distance, s.speed)
  }

  /** Riding a segment puts it at the solver's speed for its power. */
  lemma RideSolved(s: Segment, mTotal: real, crr: real, cda: real, math: Elementary)
    ensures SolvedAt(Ride(s, mTotal, crr, cda, math), mTotal, crr, cda, math)
  {
    var r := Ride(s, mTotal, crr, cda, math);
    assert r.power == s.power && r.avgGrade == s.avgGrade;
  }

  /** What the rescaling rounds of either mode leave behind: the route as it
      stood in the last round before its nudge (ridden in power mode, capped
      in speed mode), whether that round nudged it, by which scale, and how
      many rounds ran. */
  datatype Rounds = Rounds(last: seq<Segment>, nudged: bool, scale: real, count: nat)

  /** The route after the last power round: each segment carries the speed
      and time it was ridden with in that round, at the solver's speed for
      the power it had then; when the route average was not 0 its power was
      then nudged by target / average, and otherwise the rounds stopped with
      the powers as ridden. */
  ghost predicate LastPowerRound(ss: seq<Segment>, rd: Rounds, target: real,
                                 mTotal: real, crr: real, cda: real, math: Elementary)
  {
    |rd.last| == |ss| &&
    (forall k :: 0 <= k < |ss| ==>
       RoutePart(rd.last[k]) == RoutePart(ss[k]) && SolvedAt(rd.last[k], mTotal, crr, cda, math) &&
       ss[k].speed == rd.last[k].speed && ss[k].time == rd.last[k].time &&
       ss[k].power == if rd.nudged then NudgePower(rd.last[k].power, rd.scale) else rd.last[k].power) &&
    (rd.nudged <==> RoutePower(rd.last) != 0.0) &&
    (rd.nudged ==> rd.scale == target / RoutePower(rd.last))
  }

  /** The rounds stop after at most 12, and before the 12th only on a route
      average of 0 or once the average is within 0.1 % of the target. */
  predicate PowerStopped(rd: Rounds, target: real)
  {
    1 <= rd.count <= MAX_ROUNDS &&
    (rd.count < MAX_ROUNDS ==> !rd.nudged || (target != 0.0 && Abs(RoutePower(rd.last) - target) / target < CONVERGENCE))
  }

  /** When a single round ran, it rode the seeded powers. */
  predicate PowerSeeded(rd: Rounds, target: real)
    requires target > 0.0
  {
    rd.count == 1 ==> forall k :: 0 <= k < |rd.last| ==> rd.last[k].power == SeedPower(rd.last[k].avgGrade, target)
  }

  /** What the power rounds left: the last round, the stopping rule and the
      seed. */
  ghost predicate PowerRan(ss: seq<Segment>, rd: Rounds, target: real, mTotal: real, crr: real, cda: real, math: Elementary)
    requires target > 0.0
  {
    LastPowerRound(ss, rd, target, mTotal, crr, cda, math) && PowerStopped(rd, target) && PowerSeeded(rd, target)
  }

  /** Every segment keeps the route data it had at the start. */
  predicate KeepsRoute(ss: seq<Segment>, orig: seq<Segment>)
  {
    |ss| == |orig| && forall k :: 0 <= k < |ss| ==> Unpaced(ss[k]) == Unpaced(orig[k])
  }

  /** The route between power rounds: before the first round every power is
      the seeded one, and after a round the rounds so far nudged it. */
  ghost predicate PowerLoop(ss: seq<Segment>, orig: seq<Segment>, rd: Rounds, iter: nat,
                            target: real, mTotal: real, crr: real, cda: real, math: Elementary)
    requires target > 0.0
  {
    KeepsRoute(ss, orig) && (forall k :: 0 <= k < |ss| ==> ss[k].power >= MIN_POWER) &&
    (iter == 0 ==> forall k :: 0 <= k < |ss| ==> ss[k].power == SeedPower(ss[k].avgGrade, target)) &&
    (iter > 0 ==> rd.count == iter && rd.nudged && PowerPaced(ss) &&
                  LastPowerRound(ss, rd, target, mTotal, crr, cda, math) && PowerSeeded(rd, target))
  }

  /** The route right after the riding half of round `iter + 1`. */
  ghost predicate PowerRodeRound(rode: seq<Segment>, orig: seq<Segment>, iter: nat,
                                 target: real, mTotal: real, crr: real, cda: real, math: Elementary)
    requires target > 0.0
  {
    KeepsRoute(rode, orig) &&
    (forall k :: 0 <= k < |rode| ==>
       rode[k].power >= MIN_POWER && Ridden(rode[k]) && SolvedAt(rode[k], mTotal, crr, cda, math)) &&
    (iter == 0 ==> forall k :: 0 <= k < |rode| ==> rode[k].power == SeedPower(rode[k].avgGrade, target))
  }

  /** What power mode leaves. */
  ghost predicate PowerDone(ss: seq<Segment>, orig: seq<Segment>, rd: Rounds,
                            target: real, mTotal: real, crr: real, cda: real, math: Elementary)
    requires target > 0.0
  {
    KeepsRoute(ss, orig) && PowerPaced(ss) && PowerRan(ss, rd, target, mTotal, crr, cda, math)
  }

  /** Seeding starts the rounds. */
  lemma PowerSeedStarts(seeded: seq<Segment>, orig: seq<Segment>, rd: Rounds,
                        target: real, mTotal: real, crr: real, cda: real, math: Elementary)
    requires target > 0.0 && |seeded| == |orig|
    requires forall k :: 0 <= k < |seeded| ==> seeded[k] == orig[k].(power := SeedPower(orig[k].avgGrade, target))
    ensures PowerLoop(seeded, orig, rd, 0, target, mTotal, crr, cda, math)
  {
    forall k | 0 <= k < |seeded|
      ensures seeded[k].power >= MIN_POWER
    {
      SeedPowerFacts(orig[k].avgGrade, target);
    }
  }

  /** Riding every segment at its power keeps the route data and the powers,
      and puts every segment at the solver's speed. */
  lemma PowerRideStep(pre: seq<Segment>, rode: seq<Segment>, orig: seq<Segment>, rd: Rounds, iter: nat,
                      target: real, mTotal: real, crr: real, cda: real, math: Elementary)
    requires target > 0.0 && PowerLoop(pre, orig, rd, iter, target, mTotal, crr, cda, math)
    requires |rode| == |pre| && forall k :: 0 <= k < |pre| ==> rode[k] == Ride(pre[k], mTotal, crr, cda, math)
    ensures PowerRodeRound(rode, orig, iter, target, mTotal, crr, cda, math)
  {
    forall k | 0 <= k < |rode|
      ensures Unpaced(rode[k]) == Unpaced(orig[k]) && rode[k].power == pre[k].power && rode[k].avgGrade == pre[k].avgGrade
      ensures SolvedAt(rode[k], mTotal, crr, cda, math)
    {
      RideSolved(pre[k], mTotal, crr, cda, math);
    }
  }

  /** A round whose route average is 0 ends the rounds with the powers as ridden. */
  lemma PowerZeroStops(rode: seq<Segment>, orig: seq<Segment>, iter: nat,
                       target: real, mTotal: real, crr: real, cda: real, math: Elementary)
    requires target > 0.0 && iter < MAX_ROUNDS && PowerRodeRound(rode, orig, iter, target, mTotal, crr, cda, math)
    requires RoutePower(rode) == 0.0
    ensures PowerDone(rode, orig, Rounds(rode, false, 0.0, iter + 1), target, mTotal, crr, cda, math)
  {
  }

  /** Nudging a ridden route by target / average completes round `iter + 1`. */
  lemma PowerNudgeStep(rode: seq<Segment>, after: seq<Segment>, orig: seq<Segment>, iter: nat, scale: real,
                       target: real, mTotal: real, crr: real, cda: real, math: Elementary)
    requires target > 0.0 && PowerRodeRound(rode, orig, iter, target, mTotal, crr, cda, math)
    requires RoutePower(rode) != 0.0 && scale == target / RoutePower(rode)
    requires |after| == |rode| && forall k :: 0 <= k < |rode| ==> after[k] == rode[k].(power := NudgePower(rode[k].power, scale))
    ensures PowerLoop(after, orig, Rounds(rode, true, scale, iter + 1), iter + 1, target, mTotal, crr, cda, math)
  {
    forall k | 0 <= k < |after|
      ensures Unpaced(after[k]) == Unpaced(orig[k]) && RoutePart(rode[k]) == RoutePart(after[k])
    {
    }
  }

  /** The rounds end after the twelfth, or once the average is close enough. */
  lemma PowerLoopStops(ss: seq<Segment>, orig: seq<Segment>, rd: Rounds, iter: nat, avg: real,
                       target: real, mTotal: real, crr: real, cda: real, math: Elementary)
    requires target > 0.0 && 0 < iter <= MAX_ROUNDS && PowerLoop(ss, orig, rd, iter, target, mTotal, crr, cda, math)
    requires avg == RoutePower(rd.last) && (iter == MAX_ROUNDS || Abs(avg - target) / target < CONVERGENCE)
    ensures PowerDone(ss, orig, rd, target, mTotal, crr, cda, math)
  {
  }

  /** One power round: ride every segment, stop on a route average of 0,
      otherwise nudge every power by target / average and stop once the
      average is within 0.1 % of the target. */
  method PowerStep(segs: array<Segment>, iter: nat, ghost orig: seq<Segment>, ghost rd: Rounds,
                   target: real, mTotal: real, crr: real, cda: real, math: Elementary)
    returns (stop: bool, ghost next: Rounds)
    requires target > 0.0 && iter < MAX_ROUNDS && PowerLoop(segs[..], orig, rd, iter, target, mTotal, crr, cda, math)
    modifies segs
    ensures stop ==> PowerDone(segs[..], orig, next, target, mTotal, crr, cda, math)
    ensures !stop ==> PowerLoop(segs[..], orig, next, iter + 1, target, mTotal, crr, cda, math)
  {
    ghost var pre := segs[..];
    var actualAvg := PowerRound(segs, mTotal, crr, cda, math);
    ghost var rode := segs[..];
    PowerRideStep(pre, rode, orig, rd, iter, target, mTotal, crr, cda, math);
    next := Rounds(rode, false, 0.0, iter + 1);
    if actualAvg == 0.0 {
      PowerZeroStops(rode, orig, iter, target, mTotal, crr, cda, math);
      return true, next;
    }
    var factor := target / actualAvg;
    NudgePowers(segs, factor);
    next := next.(nudged := true, scale := factor);
    PowerNudgeStep(rode, segs[..], orig, iter, factor, target, mTotal, crr, cda, math);
    stop := Abs(actualAvg - target) / target < CONVERGENCE;
    if stop {
      PowerLoopStops(segs[..], orig, next, iter + 1, actualAvg, target, mTotal, crr, cda, math);
    }
  }

  /** Power mode: seed, then up to 12 rounds of riding and rescaling. A round
      whose route average is 0 ends the rounds. Every segment's speed and time
      are the solver's at the power it was ridden with in the last round, and
      its power is that power nudged by the last scale. */
  method SimulatePowerMode(segs: array<Segment>, target: real, mTotal: real, crr: real, cda: real, math: Elementary)
    returns (ghost rounds: Rounds)
    requires target > 0.0
    modifies segs
    ensures forall k :: 0 <= k < segs.Length ==> Unpaced(segs[k]) == Unpaced(old(segs[k]))
    ensures PowerPaced(segs[..])
    ensures PowerRan(segs[..], rounds, target, mTotal, crr, cda, math)
  {
    ghost var orig := segs[..];
    SeedPowers(segs, target);
    rounds := Rounds([], false, 0.0, 0);
    PowerSeedStarts(segs[..], orig, rounds, target, mTotal, crr, cda, math);
    var iter := 0;
    while iter < MAX_ROUNDS
      invariant 0 <= iter <= MAX_ROUNDS
      invariant PowerLoop(segs[..], orig, rounds, iter, target, mTotal, crr, cda, math)
    {
      var stop;
      stop, rounds := PowerStep(segs, iter, orig, rounds, target, mTotal, crr, cda, math);
      if stop {
        break;
      }
      iter := iter + 1;
    }
    if iter == MAX_ROUNDS {
      // the twelfth round ran without stopping early
      PowerLoopStops(segs[..], orig, rounds, iter, RoutePower(rounds.last), target, mTotal, crr, cda, math);
    }
    assert PowerDone(segs[..], orig, rounds, target, mTotal, crr, cda, math);
  }

  // ---------------------------------------------------------------------
  // Speed mode

  /** Multiplier of the target speed on a segment: 1 − 0.12·g/5 uphill,
      1 + 0.2·|g|/5 otherwise, clamped to [0.45, 1.8]. */
  function SpeedFactor(avgGrade: real): (g: real)
    ensures 0.45 <= g <= 1.8
  {
    var slope := avgGrade * 100.0;
    var g := if slope > 0.0 then 1.0 - 0.12 * (slope / 5.0) else 1.0 + 0.2 * (Abs(slope) / 5.0);
    Max(0.45, Min(1.8, g))
  }

  /** The seeded speed of a segment. */
  function SeedSpeed(avgGrade: real, targetMs: real): (v: real)
    ensures v >= MIN_SPEED
  {
    Max(MIN_SPEED, targetMs * SpeedFactor(avgGrade))
  }

  /** Uphill a segment is never seeded faster than the target, downhill never slower. */
  lemma SeedSpeedFacts(avgGrade: real, targetMs: real)
    requires targetMs >= MIN_SPEED / 0.45
    ensures avgGrade > 0.0 ==> SeedSpeed(avgGrade, targetMs) <= targetMs
    ensures avgGrade <= 0.0 ==> SeedSpeed(avgGrade, targetMs) >= targetMs
  {
    var g := SpeedFactor(avgGrade);
    MulMonotone(targetMs, 0.45, g);
    assert targetMs * 0.45 >= MIN_SPEED;
    if avgGrade > 0.0 {
      assert g <= 1.0;
      MulMonotone(targetMs, g, 1.0);
    } else {
      assert g >= 1.0;
      MulMonotone(targetMs, 1.0, g);
    }
  }

  method SeedSpeeds(segs: array<Segment>, targetMs: real)
    modifies segs
    ensures forall k :: 0 <= k < segs.Length ==> segs[k] == old(segs[k]).(speed := SeedSpeed(old(segs[k]).avgGrade, targetMs))
  {
    var i := 0;
    while i < segs.Length
      invariant 0 <= i <= segs.Length
      invariant forall k :: 0 <= k < i ==> segs[k] == old(segs[k]).(speed := SeedSpeed(old(segs[k]).avgGrade, targetMs))
      invariant forall k :: i <= k < segs.Length ==> segs[k] == old(segs[k])
    {
      SeedSpeedAt(segs, i, targetMs);
      i := i + 1;
    }
  }

  /** The loop body of the speed seeding at segment i. */
  method SeedSpeedAt(segs: array<Segment>, i: nat, targetMs: real)
    requires i < segs.Length
    modifies segs
    ensures segs[..] == old(segs[..])[i := old(segs[i]).(speed := SeedSpeed(old(segs[i]).avgGrade, targetMs))]
  {
    ghost var before := segs[..];
    var g := SpeedFactor(segs[i].avgGrade);
    var seeded := segs[i].(speed := Max(MIN_SPEED, targetMs * g));
    assert seeded == before[i].(speed := SeedSpeed(before[i].avgGrade, targetMs));
    segs[i] := seeded;
    assert segs[..] == before[i := seeded];
  }

  /** Sum of speed × distance over the segments. */
  function SpeedDistance(ss: seq<Segment>): real
  {
    if |ss| == 0 then 0.0 else SpeedDistance(ss[..|ss| - 1]) + ss[|ss| - 1].speed * ss[|ss| - 1].distance
  }

  /** The distance-weighted average speed of a route, over at least 1e-6 m. */
  function RouteSpeed(ss: seq<Segment>): real
  {
    SpeedDistance(ss) / Max(MIN_TOTAL, TotalDistance(ss))
  }

  /** One speed round, first half: every speed is capped at 100 km/h, and the
      distance-weighted average speed of the route is returned. */
  method SpeedRound(segs: array<Segment>) returns (actualAvgV: real)
    modifies segs
    ensures forall k :: 0 <= k < segs.Length ==> segs[k] == old(segs[k]).(speed := Min(old(segs[k]).speed, SIM_VMAX))
    ensures actualAvgV == RouteSpeed(segs[..])
  {
    var totalDist := 0.0;
    var weightedSpeedDist := 0.0;
    var i := 0;
    while i < segs.Length
      invariant 0 <= i <= segs.Length
      invariant forall k :: 0 <= k < i ==> segs[k] == old(segs[k]).(speed := Min(old(segs[k]).speed, SIM_VMAX))
      invariant forall k :: i <= k < segs.Length ==> segs[k] == old(segs[k])
      invariant totalDist == TotalDistance(segs[..i]) && weightedSpeedDist == SpeedDistance(segs[..i])
    {
      totalDist, weightedSpeedDist := CapSpeedAt(segs, i, totalDist, weightedSpeedDist);
      i := i + 1;
    }
    assert segs[..i] == segs[..];
    actualAvgV := weightedSpeedDist / Max(MIN_TOTAL, totalDist);
  }

  /** The loop body of a speed round at segment i: the speed capped, and the
      segment's share added to the sums. */
  method CapSpeedAt(segs: array<Segment>, i: nat, totalDist: real, weightedSpeedDist: real)
    returns (totalDist': real, weightedSpeedDist': real)
    requires i < segs.Length
    requires totalDist == TotalDistance(segs[..i]) && weightedSpeedDist == SpeedDistance(segs[..i])
    modifies segs
    ensures segs[..] == old(segs[..])[i := old(segs[i]).(speed := Min(old(segs[i]).speed, SIM_VMAX))]
    ensures totalDist' == TotalDistance(segs[..i + 1]) && weightedSpeedDist' == SpeedDistance(segs[..i + 1])
  {
    var s := segs[i];
    var vCand := Min(s.speed, SIM_VMAX);
    ghost var before := segs[..i];
    segs[i] := s.(speed := vCand);
    assert segs[..i + 1] == before + [segs[i]];
    AppendStep(before, segs[i]);
    totalDist' := totalDist + s.distance;
    weightedSpeedDist' := weightedSpeedDist + vCand * s.distance;
  }

  /** `Math.max(0.5, v * (1 + (scale − 1) · 0.8))` */
  function NudgeSpeed(v: real, scale: real): real
  {
    Max(MIN_SPEED, v * (1.0 + (scale - 1.0) * DAMPING))
  }

  /** One speed round, second half: every speed is nudged by the damped scale
      and kept at 0.5 m/s or more. */
  method NudgeSpeeds(segs: array<Segment>, scale: real)
    modifies segs
    ensures forall k :: 0 <= k < segs.Length ==> segs[k] == old(segs[k]).(speed := NudgeSpeed(old(segs[k]).speed, scale))
  {
    var i := 0;
    while i < segs.Length
      invariant 0 <= i <= segs.Length
      invariant forall k :: 0 <= k < i ==> segs[k] == old(segs[k]).(speed := NudgeSpeed(old(segs[k]).speed, scale))
      invariant forall k :: i <= k < segs.Length ==> segs[k] == old(segs[k])
    {
      segs[i] := segs[i].(speed := Max(MIN_SPEED, segs[i].speed * (1.0 + (scale - 1.0) * DAMPING)));
      i := i + 1;
    }
  }

  /** The force model of speed mode: the rider's mass, CdA and Crr, standard air, no wind. */
  function SimParams(mTotal: real, crr: real, cda: real): ForceParams
  {
    ForceParams(mTotal, cda, crr, RHO_PHYSICS, 0.0)
  }

  /** The rider power that holds a speed on a grade: the forward model's
      wheel power over the transmission efficiency, never negative. */
  function PowerForSpeed(speed: real, avgGrade: real, mTotal: real, crr: real, cda: real, math: Elementary): (p: real)
    ensures p >= 0.0
    ensures p * ETA_TRANSMISSION == PowerFromSpeed(speed, avgGrade, SimParams(mTotal, crr, cda), math)
  {
    Max(0.0, PowerFromSpeed(speed, avgGrade, SimParams(mTotal, crr, cda), math) / ETA_TRANSMISSION)
  }

  /** The last loop of speed mode: power and time from the final speeds. */
  method PowersFromSpeeds(segs: array<Segment>, mTotal: real, crr: real, cda: real, math: Elementary)
    modifies segs
    ensures forall k :: 0 <= k < segs.Length ==> segs[k] == old(segs[k]).(
      power := PowerForSpeed(old(segs[k]).speed, old(segs[k]).avgGrade, mTotal, crr, cda, math),
      time := TimeFor(old(segs[k]).distance, old(segs[k]).speed))
  {
    var i := 0;
    while i < segs.Length
      invariant 0 <= i <= segs.Length
      invariant forall k :: 0 <= k < i ==> segs[k] == old(segs[k]).(
        power := PowerForSpeed(old(segs[k]).speed, old(segs[k]).avgGrade, mTotal, crr, cda, math),
        time := TimeFor(old(segs[k]).distance, old(segs[k]).speed))
      invariant forall k :: i <= k < segs.Length ==> segs[k] == old(segs[k])
    {
      var s := segs[i];
      var pRoue := PowerFromSpeed(s.speed, s.avgGrade, SimParams(mTotal, crr, cda), math);
      segs[i] := s.(power := Max(0.0, pRoue / ETA_TRANSMISSION), time := TimeFor(s.distance, s.speed));
      i := i + 1;
    }
  }

  /** The route after the last speed round: each segment's speed is the one
      it was capped to in that round (at most 100 km/h), nudged by
      target / average when the route average was not 0, and as capped
      otherwise. */
  ghost predicate LastSpeedRound(ss: seq<Segment>, rd: Rounds, targetMs: real)
  {
    |rd.last| == |ss| &&
    (forall k :: 0 <= k < |ss| ==>
       RoutePart(rd.last[k]) == RoutePart(ss[k]) && rd.last[k].speed <= SIM_VMAX &&
       ss[k].speed == if rd.nudged then NudgeSpeed(rd.last[k].speed, rd.scale) else rd.last[k].speed) &&
    (rd.nudged <==> RouteSpeed(rd.last) != 0.0) &&
    (rd.nudged ==> rd.scale == targetMs / RouteSpeed(rd.last))
  }

  /** The rounds stop after at most 12, and before the 12th only on a route
      average of 0 or once the average is within 0.1 % of the target. */
  predicate SpeedStopped(rd: Rounds, targetMs: real)
  {
    1 <= rd.count <= MAX_ROUNDS &&
    (rd.count < MAX_ROUNDS ==>
       !rd.nudged || (targetMs != 0.0 && Abs(RouteSpeed(rd.last) - targetMs) / targetMs < CONVERGENCE))
  }

  /** When a single round ran, it capped the seeded speeds. */
  predicate SpeedSeeded(rd: Rounds, targetMs: real)
  {
    rd.count == 1 ==>
      forall k :: 0 <= k < |rd.last| ==> rd.last[k].speed == Min(SeedSpeed(rd.last[k].avgGrade, targetMs), SIM_VMAX)
  }

  /** What the speed rounds left: the last round, the stopping rule and the
      seed. */
  ghost predicate SpeedRan(ss: seq<Segment>, rd: Rounds, targetMs: real)
  {
    LastSpeedRound(ss, rd, targetMs) && SpeedStopped(rd, targetMs) && SpeedSeeded(rd, targetMs)
  }

  /** The route between speed rounds: before the first round every speed is
      the seeded one, and after a round the rounds so far nudged it. */
  ghost predicate SpeedLoop(ss: seq<Segment>, orig: seq<Segment>, rd: Rounds, iter: nat, targetMs: real)
  {
    KeepsRoute(ss, orig) && (forall k :: 0 <= k < |ss| ==> ss[k].speed >= MIN_SPEED) &&
    (iter == 0 ==> forall k :: 0 <= k < |ss| ==> ss[k].speed == SeedSpeed(ss[k].avgGrade, targetMs)) &&
    (iter > 0 ==> rd.count == iter && rd.nudged && LastSpeedRound(ss, rd, targetMs) && SpeedSeeded(rd, targetMs))
  }

  /** The route right after the capping half of round `iter + 1`. */
  ghost predicate SpeedCappedRound(capped: seq<Segment>, orig: seq<Segment>, iter: nat, targetMs: real)
  {
    KeepsRoute(capped, orig) &&
    (forall k :: 0 <= k < |capped| ==> MIN_SPEED <= capped[k].speed <= SIM_VMAX) &&
    (iter == 0 ==> forall k :: 0 <= k < |capped| ==>
       capped[k].speed == Min(SeedSpeed(capped[k].avgGrade, targetMs), SIM_VMAX))
  }

  /** What the speed rounds leave, before the final pass. */
  ghost predicate SpeedDone(ss: seq<Segment>, orig: seq<Segment>, rd: Rounds, targetMs: real)
  {
    KeepsRoute(ss, orig) && (forall k :: 0 <= k < |ss| ==> ss[k].speed >= MIN_SPEED) && SpeedRan(ss, rd, targetMs)
  }

  /** Seeding starts the rounds. */
  lemma SpeedSeedStarts(seeded: seq<Segment>, orig: seq<Segment>, rd: Rounds, targetMs: real)
    requires |seeded| == |orig|
    requires forall k :: 0 <= k < |seeded| ==> seeded[k] == orig[k].(speed := SeedSpeed(orig[k].avgGrade, targetMs))
    ensures SpeedLoop(seeded, orig, rd, 0, targetMs)
  {
    forall k | 0 <= k < |seeded|
      ensures Unpaced(seeded[k]) == Unpaced(orig[k])
    {
    }
  }

  /** Capping every speed keeps the route data and the bounds. */
  lemma SpeedCapStep(pre: seq<Segment>, capped: seq<Segment>, orig: seq<Segment>, rd: Rounds, iter: nat, targetMs: real)
    requires SpeedLoop(pre, orig, rd, iter, targetMs)
    requires |capped| == |pre| && forall k :: 0 <= k < |pre| ==> capped[k] == pre[k].(speed := Min(pre[k].speed, SIM_VMAX))
    ensures SpeedCappedRound(capped, orig, iter, targetMs)
  {
    forall k | 0 <= k < |capped|
      ensures Unpaced(capped[k]) == Unpaced(orig[k]) && capped[k].avgGrade == pre[k].avgGrade
    {
      assert Unpaced(capped[k]) == Unpaced(pre[k]);
    }
  }

  /** A round whose route average is 0 ends the rounds with the speeds as capped. */
  lemma SpeedZeroStops(capped: seq<Segment>, orig: seq<Segment>, iter: nat, targetMs: real)
    requires iter < MAX_ROUNDS && SpeedCappedRound(capped, orig, iter, targetMs)
    requires RouteSpeed(capped) == 0.0
    ensures SpeedDone(capped, orig, Rounds(capped, false, 0.0, iter + 1), targetMs)
  {
  }

  /** Nudging a capped route by target / average completes round `iter + 1`. */
  lemma SpeedNudgeStep(capped: seq<Segment>, after: seq<Segment>, orig: seq<Segment>, iter: nat, scale: real, targetMs: real)
    requires SpeedCappedRound(capped, orig, iter, targetMs)
    requires RouteSpeed(capped) != 0.0 && scale == targetMs / RouteSpeed(capped)
    requires |after| == |capped| && forall k :: 0 <= k < |capped| ==> after[k] == capped[k].(speed := NudgeSpeed(capped[k].speed, scale))
    ensures SpeedLoop(after, orig, Rounds(capped, true, scale, iter + 1), iter + 1, targetMs)
  {
    forall k | 0 <= k < |after|
      ensures Unpaced(after[k]) == Unpaced(orig[k]) && RoutePart(capped[k]) == RoutePart(after[k])
    {
      assert Unpaced(after[k]) == Unpaced(capped[k]);
    }
  }

  /** The rounds end after the twelfth, or once the average is close enough. */
  lemma SpeedLoopStops(ss: seq<Segment>, orig: seq<Segment>, rd: Rounds, iter: nat, avg: real, targetMs: real)
    requires 0 < iter <= MAX_ROUNDS && SpeedLoop(ss, orig, rd, iter, targetMs)
    requires avg == RouteSpeed(rd.last)
    requires iter == MAX_ROUNDS || (targetMs != 0.0 && Abs(avg - targetMs) / targetMs < CONVERGENCE)
    ensures SpeedDone(ss, orig, rd, targetMs)
  {
  }

  /** The final pass gives every segment the power and time of its speed and
      keeps what the rounds left. */
  lemma SpeedFinalPass(rounded: seq<Segment>, final: seq<Segment>, orig: seq<Segment>, rd: Rounds,
                       targetMs: real, mTotal: real, crr: real, cda: real, math: Elementary)
    requires SpeedDone(rounded, orig, rd, targetMs)
    requires |final| == |rounded| && forall k :: 0 <= k < |rounded| ==> final[k] == rounded[k].(
      power := PowerForSpeed(rounded[k].speed, rounded[k].avgGrade, mTotal, crr, cda, math),
      time := TimeFor(rounded[k].distance, rounded[k].speed))
    ensures KeepsRoute(final, orig) && SpeedPaced(final, mTotal, crr, cda, math) && SpeedRan(final, rd, targetMs)
  {
    forall k | 0 <= k < |final|
      ensures Unpaced(final[k]) == Unpaced(orig[k]) && RoutePart(final[k]) == RoutePart(rounded[k])
      ensures SpeedRidden(final[k], mTotal, crr, cda, math)
    {
      assert Unpaced(final[k]) == Unpaced(rounded[k]);
    }
  }

  /** One speed round: cap every speed, stop on a route average of 0,
      otherwise nudge every speed by target / average and stop once the
      average is within 0.1 % of the target. */
  method SpeedStep(segs: array<Segment>, iter: nat, ghost orig: seq<Segment>, ghost rd: Rounds, targetMs: real)
    returns (stop: bool, ghost next: Rounds)
    requires iter < MAX_ROUNDS && SpeedLoop(segs[..], orig, rd, iter, targetMs)
    modifies segs
    ensures stop ==> SpeedDone(segs[..], orig, next, targetMs)
    ensures !stop ==> SpeedLoop(segs[..], orig, next, iter + 1, targetMs)
  {
    ghost var pre := segs[..];
    var actualAvgV := SpeedRound(segs);
    ghost var capped := segs[..];
    SpeedCapStep(pre, capped, orig, rd, iter, targetMs);
    next := Rounds(capped, false, 0.0, iter + 1);
    if actualAvgV == 0.0 {
      SpeedZeroStops(capped, orig, iter, targetMs);
      return true, next;
    }
    var scale := targetMs / actualAvgV;
    NudgeSpeeds(segs, scale);
    next := next.(nudged := true, scale := scale);
    SpeedNudgeStep(capped, segs[..], orig, iter, scale, targetMs);
    stop := targetMs != 0.0 && Abs(actualAvgV - targetMs) / targetMs < CONVERGENCE;
    if stop {
      SpeedLoopStops(segs[..], orig, next, iter + 1, actualAvgV, targetMs);
    }
  }

  /** Speed mode: seed, then up to 12 rounds of capping and rescaling, then
      the power and time of every segment from its speed. A round whose route
      average is 0 ends the rounds. Every final speed is the one capped in the
      last round, nudged by the last scale. */
  method SimulateSpeedMode(segs: array<Segment>, targetMs: real, mTotal: real, crr: real, cda: real, math: Elementary)
    returns (ghost rounds: Rounds)
    modifies segs
    ensures forall k :: 0 <= k < segs.Length ==> Unpaced(segs[k]) == Unpaced(old(segs[k]))
    ensures SpeedPaced(segs[..], mTotal, crr, cda, math)
    ensures SpeedRan(segs[..], rounds, targetMs)
  {
    ghost var orig := segs[..];
    SeedSpeeds(segs, targetMs);
    rounds := Rounds([], false, 0.0, 0);
    SpeedSeedStarts(segs[..], orig, rounds, targetMs);
    var iter := 0;
    while iter < MAX_ROUNDS
      invariant 0 <= iter <= MAX_ROUNDS
      invariant SpeedLoop(segs[..], orig, rounds, iter, targetMs)
    {
      var stop;
      stop, rounds := SpeedStep(segs, iter, orig, rounds, targetMs);
      if stop {
        break;
      }
      iter := iter + 1;
    }
    if iter == MAX_ROUNDS {
      // the twelfth round ran without stopping early
      SpeedLoopStops(segs[..], orig, rounds, iter, RouteSpeed(rounds.last), targetMs);
    }
    ghost var rounded := segs[..];
    PowersFromSpeeds(segs, mTotal, crr, cda, math);
    SpeedFinalPass(rounded, segs[..], orig, rounds, targetMs, mTotal, crr, cda, math);
  }

  // ---------------------------------------------------------------------
  // Fatigue and totals

  /** W′ left after the first k segments, starting from the full reserve. */
  function WAfter(ss: seq<Segment>, k: nat, p: UserParams, math: Elementary): real
    requires k <= |ss| && p.tauRec != 0.0
  {
    if k == 0 then p.wPrimeMax
    else CalculateWPrime(ss[k - 1].power, ss[k - 1].time, WAfter(ss, k - 1, p, math), p.cp, p.wPrimeMax, p.tauRec, math)
  }

  /** With a positive time constant and no negative segment time, W′ stays
      within [0, W′max] all along the route. */
  lemma {:induction false} WAfterInRange(ss: seq<Segment>, k: nat, p: UserParams, math: Elementary)
    requires k <= |ss| && p.tauRec > 0.0 && p.wPrimeMax >= 0.0 && ExpDecays(math)
    requires forall j :: 0 <= j < |ss| ==> ss[j].time >= 0.0
    ensures 0.0 <= WAfter(ss, k, p, math) <= p.wPrimeMax
  {
    if k > 0 {
      WAfterInRange(ss, k - 1, p, math);
      WPrimeStaysInRange(ss[k - 1].power, ss[k - 1].time, WAfter(ss, k - 1, p, math), p.cp, p.wPrimeMax, p.tauRec, math);
    }
  }

  /** Energy of a segment in kcal. */
  function SegmentKcal(s: Segment, p: UserParams): real
  {
    CalculateKcal(s.power, s.time, p.etaMuscle)
  }

  /** Sum of the segment energies. */
  function TotalKcal(ss: seq<Segment>, p: UserParams): real
  {
    if |ss| == 0 then 0.0 else TotalKcal(ss[..|ss| - 1], p) + SegmentKcal(ss[|ss| - 1], p)
  }

  /** A segment enters the average power when its power and time are positive. */
  predicate Powered(s: Segment)
  {
    s.power > 0.0 && s.time > 0.0
  }

  /** Energy at the wheel of a segment, power × time (J). */
  function Work(s: Segment): real
  {
    s.power * s.time
  }

  /** Sum of power × time over the powered segments. */
  function PoweredWork(ss: seq<Segment>): real
  {
    if |ss| == 0 then 0.0
    else PoweredWork(ss[..|ss| - 1]) + (if Powered(ss[|ss| - 1]) then Work(ss[|ss| - 1]) else 0.0)
  }

  /** Sum of the times of the powered segments. */
  function PoweredTime(ss: seq<Segment>): real
  {
    if |ss| == 0 then 0.0
    else PoweredTime(ss[..|ss| - 1]) + (if Powered(ss[|ss| - 1]) then ss[|ss| - 1].time else 0.0)
  }

  /** The time-weighted average power over the powered segments, 0 without any. */
  function RealAvgPower(ss: seq<Segment>): real
  {
    if PoweredTime(ss) > 0.0 then PoweredWork(ss) / PoweredTime(ss) else 0.0
  }

  lemma {:induction false} PoweredBounds(ss: seq<Segment>, lo: real, hi: real)
    requires forall j :: 0 <= j < |ss| && Powered(ss[j]) ==> lo <= ss[j].power <= hi
    ensures PoweredTime(ss) >= 0.0
    ensures Within(lo, hi, PoweredTime(ss), PoweredWork(ss))
  {
    if |ss| == 0 {
      AddBounds(lo, hi, 0.0, 0.0, 0.0, 0.0, PoweredTime(ss), PoweredWork(ss));
    } else {
      var q := ss[..|ss| - 1];
      var last := ss[|ss| - 1];
      assert forall j :: 0 <= j < |q| ==> q[j] == ss[j];
      PoweredBounds(q, lo, hi);
      var t := if Powered(last) then last.time else 0.0;
      var w := if Powered(last) then Work(last) else 0.0;
      SegmentBounds(last, lo, hi, t, w);
      AddBounds(lo, hi, PoweredTime(q), PoweredWork(q), t, w, PoweredTime(ss), PoweredWork(ss));
    }
  }

  /** One segment's share of the powered sums lies between lo and hi times
      its share of the powered time. */
  lemma SegmentBounds(s: Segment, lo: real, hi: real, t: real, w: real)
    requires Powered(s) ==> lo <= s.power <= hi
    requires t == (if Powered(s) then s.time else 0.0)
    requires w == (if Powered(s) then Work(s) else 0.0)
    ensures t >= 0.0
    ensures Within(lo, hi, t, w)
  {
    if Powered(s) {
      MulMonotone(s.time, lo, s.power);
      MulMonotone(s.time, s.power, hi);
    }
  }

  /** The average power lies between the least and the greatest power of the
      powered segments, and is 0 when no segment is powered. */
  lemma RealAvgPowerBounds(ss: seq<Segment>, lo: real, hi: real)
    requires forall j :: 0 <= j < |ss| && Powered(ss[j]) ==> lo <= ss[j].power <= hi
    ensures PoweredTime(ss) > 0.0 ==> lo <= RealAvgPower(ss) <= hi
    ensures PoweredTime(ss) <= 0.0 ==> RealAvgPower(ss) == 0.0
  {
    PoweredBounds(ss, lo, hi);
    var t := PoweredTime(ss);
    if t > 0.0 {
      var w := PoweredWork(ss);
      QuotientBounds(w, t, lo, hi);
    }
  }

  /** The running sums of the fatigue pass: time, distance, energy, and the
      work and time of the powered segments. */
  datatype Sums = Sums(time: real, dist: real, kcal: real, work: real, poweredTime: real)

  /** The route sums over a whole sequence of segments. */
  function SumsOf(ss: seq<Segment>, p: UserParams): Sums
  {
    Sums(TotalTime(ss), TotalDistance(ss), TotalKcal(ss, p), PoweredWork(ss), PoweredTime(ss))
  }

  /** The sums after one more segment: only segments with positive power and
      time enter the average-power sums. */
  function AddSegment(acc: Sums, s: Segment, p: UserParams): Sums
  {
    Sums(acc.time + s.time, acc.dist + s.distance, acc.kcal + SegmentKcal(s, p),
         acc.work + (if Powered(s) then Work(s) else 0.0), acc.poweredTime + (if Powered(s) then s.time else 0.0))
  }

  /** One more segment adds its share to each route sum. */
  lemma SumsStep(ss: seq<Segment>, i: nat, p: UserParams)
    requires i < |ss|
    ensures SumsOf(ss[..i + 1], p) == AddSegment(SumsOf(ss[..i], p), ss[i], p)
  {
    assert ss[..i + 1][..i] == ss[..i];
  }

  /** The average-power accumulators after one more segment: only segments
      with positive power and time count. */
  method AddPowered(work: real, time: real, segment: Segment) returns (work': real, time': real)
    ensures Powered(segment) ==> work' == work + Work(segment) && time' == time + segment.time
    ensures !Powered(segment) ==> work' == work && time' == time
  {
    work', time' := work, time;
    if segment.power > 0.0 && segment.time > 0.0 {
      work' := work + segment.power * segment.time;
      time' := time + segment.time;
    }
  }

  /** The segment after the fatigue pass, given the W′ it starts with. */
  function Fatigued(s: Segment, wStart: real, p: UserParams, math: Elementary): Segment
    requires p.tauRec != 0.0
  {
    s.(kcal := Some(SegmentKcal(s, p)),
       wPrimeStart := Some(wStart),
       wPrimeEnd := Some(CalculateWPrime(s.power, s.time, wStart, p.cp, p.wPrimeMax, p.tauRec, math)))
  }

  /** One step of the fatigue pass: the segment's energy and the W′ it starts
      and ends with, and the sums with the segment added. */
  method FatigueSegment(segment: Segment, wStart: real, acc: Sums, p: UserParams, math: Elementary)
    returns (fatigued: Segment, wEnd: real, acc': Sums)
    requires p.tauRec != 0.0
    ensures fatigued == Fatigued(segment, wStart, p, math)
    ensures wEnd == CalculateWPrime(segment.power, segment.time, wStart, p.cp, p.wPrimeMax, p.tauRec, math)
    ensures acc' == AddSegment(acc, segment, p)
  {
    var kcalSegment := CalculateKcal(segment.power, segment.time, p.etaMuscle);
    wEnd := CalculateWPrime(segment.power, segment.time, wStart, p.cp, p.wPrimeMax, p.tauRec, math);
    fatigued := segment.(kcal := Some(kcalSegment), wPrimeStart := Some(wStart), wPrimeEnd := Some(wEnd));
    var work, time := AddPowered(acc.work, acc.poweredTime, segment);
    acc' := Sums(acc.time + segment.time, acc.dist + segment.distance, acc.kcal + kcalSegment, work, time);
  }

  /** The totals reported from the route sums. */
  function TotalsOf(acc: Sums): (t: Totals)
    ensures acc.poweredTime > 0.0 ==> t.realAvgPower * acc.poweredTime == acc.work
    ensures acc.poweredTime <= 0.0 ==> t.realAvgPower == 0.0
    ensures acc.time != 0.0 <==> t.avgSpeedKmh.Some?
    ensures acc.time != 0.0 ==> t.avgSpeedKmh.value * acc.time == acc.dist * 3.6
  {
    var realAvgPower := if acc.poweredTime > 0.0 then acc.work / acc.poweredTime else 0.0;
    var avgSpeed := if acc.time != 0.0 then Some(acc.dist / acc.time * 3.6) else None;
    Totals(acc.time, acc.dist, acc.kcal, realAvgPower, avgSpeed)
  }

  /** The first i segments have been through the fatigue pass and the rest
      are as they were. */
  predicate FatiguedUpTo(ss: seq<Segment>, orig: seq<Segment>, i: nat, p: UserParams, math: Elementary)
    requires p.tauRec != 0.0
  {
    |ss| == |orig| && i <= |ss| &&
    (forall k :: 0 <= k < i ==> ss[k] == Fatigued(orig[k], WAfter(orig, k, p, math), p, math)) &&
    (forall k :: i <= k < |ss| ==> ss[k] == orig[k])
  }

  /** Passing segment i on with the W′ left by the segments before it extends
      the fatigued prefix by one. */
  lemma FatiguedStep(ss: seq<Segment>, orig: seq<Segment>, i: nat, p: UserParams, math: Elementary)
    requires p.tauRec != 0.0 && FatiguedUpTo(ss, orig, i, p, math) && i < |ss|
    ensures FatiguedUpTo(ss[i := Fatigued(ss[i], WAfter(orig, i, p, math), p, math)], orig, i + 1, p, math)
  {
  }

  /** The forward pass in route order: each segment gets its energy and the
      W′ it starts and ends with, and the route totals are summed. */
  method FatiguePass(segs: array<Segment>, p: UserParams, math: Elementary) returns (t: Totals)
    requires p.tauRec != 0.0
    modifies segs
    ensures forall k :: 0 <= k < segs.Length ==> segs[k] == Fatigued(old(segs[k]), WAfter(old(segs[..]), k, p, math), p, math)
    ensures t == TotalsOf(SumsOf(old(segs[..]), p))
  {
    ghost var orig := segs[..];
    var acc := Sums(0.0, 0.0, 0.0, 0.0, 0.0);
    var wPrime := p.wPrimeMax;
    var i := 0;
    while i < segs.Length
      invariant 0 <= i <= segs.Length
      invariant FatiguedUpTo(segs[..], orig, i, p, math)
      invariant wPrime == WAfter(orig, i, p, math)
      invariant acc == SumsOf(orig[..i], p)
    {
      ghost var before := segs[..];
      FatiguedStep(before, orig, i, p, math);
      SumsStep(orig, i, p);
      var fatigued, wEnd, acc' := FatigueSegment(segs[i], wPrime, acc, p, math);
      segs[i] := fatigued;
      assert segs[..] == before[i := fatigued];
      wPrime, acc := wEnd, acc';
      i := i + 1;
    }
    assert orig[..i] == orig;
    t := TotalsOf(acc);
  }

  // ---------------------------------------------------------------------
  // The whole simulation

  /** A route paced in power mode: at least 1 W on every segment, speeds and
      times from the solver. */
  predicate PowerPaced(ss: seq<Segment>)
  {
    forall k :: 0 <= k < |ss| ==> ss[k].power >= MIN_POWER && Ridden(ss[k])
  }

  /** A segment paced in speed mode: at least 0.5 m/s, the power that holds
      that speed, and the time the distance takes at it. */
  predicate SpeedRidden(s: Segment, mTotal: real, crr: real, cda: real, math: Elementary)
  {
    s.speed >= MIN_SPEED && s.power == PowerForSpeed(s.speed, s.avgGrade, mTotal, crr, cda, math) &&
    s.time == TimeFor(s.distance, s.speed)
  }

  /** A route paced in speed mode. */
  predicate SpeedPaced(ss: seq<Segment>, mTotal: real, crr: real, cda: real, math: Elementary)
  {
    forall k :: 0 <= k < |ss| ==> SpeedRidden(ss[k], mTotal, crr, cda, math)
  }

  /** In speed mode every segment takes exactly its distance over its speed. */
  lemma SpeedRiddenTime(s: Segment, mTotal: real, crr: real, cda: real, math: Elementary)
    requires SpeedRidden(s, mTotal, crr, cda, math)
    ensures s.time * s.speed == s.distance
  {
  }

  /** W′ threads through the route: the first segment starts with the full
      reserve, each next one starts with what the previous one ended with,
      and each ends with what calculateWPrime leaves. */
  predicate Threaded(ss: seq<Segment>, p: UserParams, math: Elementary)
    requires p.tauRec != 0.0
  {
    (|ss| > 0 ==> ss[0].wPrimeStart == Some(p.wPrimeMax)) &&
    (forall k :: 0 < k < |ss| ==> ss[k].wPrimeStart == ss[k - 1].wPrimeEnd) &&
    (forall k :: 0 <= k < |ss| ==>
      (ss[k].wPrimeStart.Some? &&
       ss[k].wPrimeEnd == Some(CalculateWPrime(ss[k].power, ss[k].time, ss[k].wPrimeStart.value, p.cp, p.wPrimeMax, p.tauRec, math)) &&
       ss[k].kcal == Some(SegmentKcal(ss[k], p))))
  }

  /** A route paced in the selected mode. */
  predicate PacedFor(ss: seq<Segment>, p: UserParams, math: Elementary)
  {
    (p.simMode.PowerMode? ==> PowerPaced(ss)) &&
    (p.simMode.SpeedMode? ==> SpeedPaced(ss, p.poids + p.poidsVelo, p.crr, p.cda, math))
  }

  /** The rounds of the selected mode, as they left the route: power mode at
      the target power, speed mode at the target speed in m/s. */
  ghost predicate RoundsFor(ss: seq<Segment>, rd: Rounds, p: UserParams, math: Elementary)
  {
    (p.simMode.PowerMode? ==>
       p.puissance > 0.0 && PowerRan(ss, rd, p.puissance, p.poids + p.poidsVelo, p.crr, p.cda, math)) &&
    (p.simMode.SpeedMode? ==> SpeedRan(ss, rd, p.targetSpeed / 3.6))
  }

  /** The pacing step of runSimulation: power mode or speed mode, with the
      total mass of rider and bike. */
  method Pace(segs: array<Segment>, p: UserParams, math: Elementary) returns (ghost rounds: Rounds)
    requires p.simMode.PowerMode? ==> p.puissance > 0.0
    modifies segs
    ensures forall k :: 0 <= k < segs.Length ==> Unpaced(segs[k]) == Unpaced(old(segs[k]))
    ensures PacedFor(segs[..], p, math)
    ensures RoundsFor(segs[..], rounds, p, math)
  {
    var mTotal := p.poids + p.poidsVelo;
    if p.simMode.PowerMode? {
      rounds := SimulatePowerMode(segs, p.puissance, mTotal, p.crr, p.cda, math);
    } else {
      rounds := SimulateSpeedMode(segs, p.targetSpeed / 3.6, mTotal, p.crr, p.cda, math);
    }
  }

  /** runSimulation: an empty route is refused; otherwise the segments are
      paced in the selected mode and then go through the fatigue pass. */
  method RunSimulation(segs: array<Segment>, p: UserParams, math: Elementary)
    returns (r: Result<Totals, string>, ghost rounds: Rounds)
    requires p.tauRec != 0.0
    requires p.simMode.PowerMode? ==> p.puissance > 0.0
    modifies segs
    ensures segs.Length == 0 <==> r.Failure?
    ensures forall k :: 0 <= k < segs.Length ==> RoutePart(segs[k]) == RoutePart(old(segs[k]))
    ensures r.Success? ==> PacedFor(segs[..], p, math) && Threaded(segs[..], p, math)
    ensures r.Success? ==> RoundsFor(segs[..], rounds, p, math)
    ensures r.Success? ==> r.value == TotalsOf(SumsOf(segs[..], p))
  {
    rounds := Rounds([], false, 0.0, 0);
    if segs.Length == 0 {
      return Failure("no route loaded"), rounds;
    }
    ghost var orig := segs[..];
    rounds := Pace(segs, p, math);
    ghost var paced := segs[..];
    var totals := FatiguePass(segs, p, math);
    PacingSurvivesFatigue(orig, paced, segs[..], p, math);
    FatigueKeepsRounds(paced, segs[..], rounds, p, math);
    r := Success(totals);
  }

  /** The fatigue pass leaves the power, speed, time and route data of every
      segment as they were, so what the rounds left survives it. */
  lemma FatigueKeepsRounds(paced: seq<Segment>, after: seq<Segment>, rd: Rounds, p: UserParams, math: Elementary)
    requires p.tauRec != 0.0 && |paced| == |after|
    requires forall k :: 0 <= k < |after| ==> after[k] == Fatigued(paced[k], WAfter(paced, k, p, math), p, math)
    ensures RoundsFor(paced, rd, p, math) ==> RoundsFor(after, rd, p, math)
  {
    forall k | 0 <= k < |after|
      ensures RoutePart(after[k]) == RoutePart(paced[k]) &&
              after[k].power == paced[k].power && after[k].speed == paced[k].speed && after[k].time == paced[k].time
    {
    }
    RoundsKept(paced, after, rd, p, math);
  }

  /** What the rounds left depends only on the route data, power, speed and
      time of each segment. */
  lemma RoundsKept(ss: seq<Segment>, ss2: seq<Segment>, rd: Rounds, p: UserParams, math: Elementary)
    requires |ss2| == |ss|
    requires forall k :: 0 <= k < |ss| ==>
      RoutePart(ss2[k]) == RoutePart(ss[k]) && ss2[k].power == ss[k].power && ss2[k].speed == ss[k].speed && ss2[k].time == ss[k].time
    ensures RoundsFor(ss, rd, p, math) ==> RoundsFor(ss2, rd, p, math)
  {
    if RoundsFor(ss, rd, p, math) {
      if p.simMode.PowerMode? {
        PowerRanKept(ss, ss2, rd, p.puissance, p.poids + p.poidsVelo, p.crr, p.cda, math);
      } else {
        SpeedRanKept(ss, ss2, rd, p.targetSpeed / 3.6);
      }
    }
  }

  /** What the power rounds left depends only on the route data, power,
      speed and time of each segment. */
  lemma PowerRanKept(ss: seq<Segment>, ss2: seq<Segment>, rd: Rounds,
                     target: real, mTotal: real, crr: real, cda: real, math: Elementary)
    requires target > 0.0 && |ss2| == |ss|
    requires forall k :: 0 <= k < |ss| ==>
      RoutePart(ss2[k]) == RoutePart(ss[k]) && ss2[k].power == ss[k].power && ss2[k].speed == ss[k].speed && ss2[k].time == ss[k].time
    requires PowerRan(ss, rd, target, mTotal, crr, cda, math)
    ensures PowerRan(ss2, rd, target, mTotal, crr, cda, math)
  {
  }

  /** What the speed rounds left depends only on the route data and speed of
      each segment. */
  lemma SpeedRanKept(ss: seq<Segment>, ss2: seq<Segment>, rd: Rounds, targetMs: real)
    requires |ss2| == |ss|
    requires forall k :: 0 <= k < |ss| ==> RoutePart(ss2[k]) == RoutePart(ss[k]) && ss2[k].speed == ss[k].speed
    requires SpeedRan(ss, rd, targetMs)
    ensures SpeedRan(ss2, rd, targetMs)
  {
  }

  /** Totals depend only on the power, time and distance of the segments. */
  lemma {:induction false} SameEffortTotals(a: seq<Segment>, b: seq<Segment>, p: UserParams)
    requires |a| == |b|
    requires forall k :: 0 <= k < |a| ==> a[k].power == b[k].power && a[k].time == b[k].time && a[k].distance == b[k].distance
    ensures TotalTime(a) == TotalTime(b) && TotalDistance(a) == TotalDistance(b) && TotalKcal(a, p) == TotalKcal(b, p)
    ensures PoweredWork(a) == PoweredWork(b) && PoweredTime(a) == PoweredTime(b)
  {
    if |a| > 0 {
      var a' := a[..|a| - 1];
      var b' := b[..|b| - 1];
      assert forall k :: 0 <= k < |a'| ==> a'[k] == a[k] && b'[k] == b[k];
      SameEffortTotals(a', b', p);
    }
  }

  /** The fatigue pass writes only the energy and W′ fields of a segment, so
      the pacing survives it. */
  lemma FatigueKeepsPacing(paced: seq<Segment>, after: seq<Segment>, p: UserParams, math: Elementary)
    requires p.tauRec != 0.0 && |paced| == |after|
    requires forall k :: 0 <= k < |after| ==> after[k] == Fatigued(paced[k], WAfter(paced, k, p, math), p, math)
    ensures PacedFor(paced, p, math) ==> PacedFor(after, p, math)
  {
    var mTotal := p.poids + p.poidsVelo;
    if p.simMode.PowerMode? && PowerPaced(paced) {
      forall k | 0 <= k < |after|
        ensures after[k].power >= MIN_POWER && Ridden(after[k])
      {
        assert paced[k].power >= MIN_POWER && Ridden(paced[k]);
      }
    }
    if p.simMode.SpeedMode? && SpeedPaced(paced, mTotal, p.crr, p.cda, math) {
      forall k | 0 <= k < |after|
        ensures SpeedRidden(after[k], mTotal, p.crr, p.cda, math)
      {
        assert SpeedRidden(paced[k], mTotal, p.crr, p.cda, math);
      }
    }
  }

  /** After the fatigue pass W′ threads through the route. */
  lemma FatigueThreads(paced: seq<Segment>, after: seq<Segment>, p: UserParams, math: Elementary)
    requires p.tauRec != 0.0 && |paced| == |after|
    requires forall k :: 0 <= k < |after| ==> after[k] == Fatigued(paced[k], WAfter(paced, k, p, math), p, math)
    ensures Threaded(after, p, math)
  {
    forall k | 0 < k < |after|
      ensures after[k].wPrimeStart == after[k - 1].wPrimeEnd
    {
      assert after[k].wPrimeStart == Some(WAfter(paced, k, p, math));
    }
  }

  /** Pacing changes only the pacing values and the fatigue pass only the
      energy and W′ values: the route data survive both, the pacing survives
      the fatigue pass, W′ threads through the route and the route sums are
      those of the paced route. */
  lemma PacingSurvivesFatigue(orig: seq<Segment>, paced: seq<Segment>, after: seq<Segment>, p: UserParams, math: Elementary)
    requires p.tauRec != 0.0 && |orig| == |paced| == |after|
    requires forall k :: 0 <= k < |paced| ==> Unpaced(paced[k]) == Unpaced(orig[k])
    requires forall k :: 0 <= k < |after| ==> after[k] == Fatigued(paced[k], WAfter(paced, k, p, math), p, math)
    ensures forall k :: 0 <= k < |after| ==> RoutePart(after[k]) == RoutePart(orig[k])
    ensures PacedFor(paced, p, math) ==> PacedFor(after, p, math)
    ensures Threaded(after, p, math)
    ensures SumsOf(after, p) == SumsOf(paced, p)
  {
    FatigueKeepsPacing(paced, after, p, math);
    FatigueThreads(paced, after, p, math);
    RouteSurvives(orig, paced, after, p, math);
    FatigueKeepsSums(paced, after, p, math);
  }

  /** The fatigue pass leaves the route sums as they were. */
  lemma FatigueKeepsSums(paced: seq<Segment>, after: seq<Segment>, p: UserParams, math: Elementary)
    requires p.tauRec != 0.0 && |paced| == |after|
    requires forall k :: 0 <= k < |after| ==> after[k] == Fatigued(paced[k], WAfter(paced, k, p, math), p, math)
    ensures SumsOf(after, p) == SumsOf(paced, p)
  {
    forall k | 0 <= k < |after|
      ensures after[k].power == paced[k].power && after[k].time == paced[k].time && after[k].distance == paced[k].distance
    {
    }
    SameEffortTotals(after, paced, p);
  }

  /** The route data of every segment survive pacing and the fatigue pass. */
  lemma RouteSurvives(orig: seq<Segment>, paced: seq<Segment>, after: seq<Segment>, p: UserParams, math: Elementary)
    requires p.tauRec != 0.0 && |orig| == |paced| == |after|
    requires forall k :: 0 <= k < |paced| ==> Unpaced(paced[k]) == Unpaced(orig[k])
    requires forall k :: 0 <= k < |after| ==> after[k] == Fatigued(paced[k], WAfter(paced, k, p, math), p, math)
    ensures forall k :: 0 <= k < |after| ==> RoutePart(after[k]) == RoutePart(orig[k])
  {
    forall k | 0 <= k < |after|
      ensures RoutePart(after[k]) == RoutePart(orig[k])
    {
      assert RoutePart(after[k]) == RoutePart(paced[k]);
      assert Unpaced(paced[k]) == Unpaced(orig[k]);
    }
  }
}
