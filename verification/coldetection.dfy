/** coldetection.js: the two-state climb detector ("not climbing" /
    "climbing") and the rule that commits a candidate climb. */
module ColDetection {
  import opened Numeric
  import opened Track

  /** Routes with fewer points than this yield no climbs. */
  const MIN_POINTS: nat := 10

  /** The four user settings the detector reads; None stands for a setting
      that is not defined. */
  datatype ClimbSettings = ClimbSettings(
    startSlope: Option<real>,     // colthresolddetection, percent
    continueSlope: Option<real>,  // colcontinuedetection, percent
    maxFlat: Option<real>,        // maxreplatdistance, metres
    minDistance: Option<real>     // minclimbdistance, metres
  )

  /** The thresholds in force once the defaults are applied. */
  datatype Thresholds = Thresholds(startSlope: real, continueSlope: real, maxFlat: real, minDistance: real)

  /** Each setting that is missing or 0 falls back to 3.0 / 1.5 / 500 / 1000. */
  function ResolveThresholds(settings: ClimbSettings): (th: Thresholds)
    ensures th.startSlope != 0.0 && th.continueSlope != 0.0 && th.maxFlat != 0.0 && th.minDistance != 0.0
    ensures settings.startSlope.None? || settings.startSlope.value == 0.0 ==> th.startSlope == 3.0
    ensures settings.continueSlope.None? || settings.continueSlope.value == 0.0 ==> th.continueSlope == 1.5
    ensures settings.maxFlat.None? || settings.maxFlat.value == 0.0 ==> th.maxFlat == 500.0
    ensures settings.minDistance.None? || settings.minDistance.value == 0.0 ==> th.minDistance == 1000.0
    ensures settings.startSlope.Some? && settings.startSlope.value != 0.0 ==> th.startSlope == settings.startSlope.value
    ensures settings.continueSlope.Some? && settings.continueSlope.value != 0.0 ==> th.continueSlope == settings.continueSlope.value
    ensures settings.maxFlat.Some? && settings.maxFlat.value != 0.0 ==> th.maxFlat == settings.maxFlat.value
    ensures settings.minDistance.Some? && settings.minDistance.value != 0.0 ==> th.minDistance == settings.minDistance.value
  {
    Thresholds(OrDefault(settings.startSlope, 3.0), OrDefault(settings.continueSlope, 1.5),
               OrDefault(settings.maxFlat, 500.0), OrDefault(settings.minDistance, 1000.0))
  }

  /** A detected climb; its `points` are the inclusive slice startIdx .. endIdx. */
  datatype Climb = Climb(name: string, startIdx: nat, endIdx: nat, distance: real, elevGain: real, avgGrade: real)

  /** The record saveClimb pushes as the (k+1)-th climb: named "Col k+1",
      with the net elevation change (not the positive gain) from start to
      end and the average grade in percent, 0 for a zero distance. */
  function ClimbAt(pts: seq<TrackPoint>, s: nat, e: nat, k: nat): (c: Climb)
    requires s <= e < |pts|
    ensures c.name == "Col " + NatToString(k + 1)
    ensures c.startIdx == s && c.endIdx == e
    ensures c.distance == pts[e].dist - pts[s].dist && c.elevGain == pts[e].ele - pts[s].ele
  {
    var d := pts[e].dist - pts[s].dist;
    var g := pts[e].ele - pts[s].ele;
    Climb("Col " + NatToString(k + 1), s, e, d, g, if d > 0.0 then g / d * 100.0 else 0.0)
  }

  /** A climb's average grade is its elevation change per 100 m of distance,
      and 0 when it covers no distance. */
  lemma ClimbGrade(pts: seq<TrackPoint>, s: nat, e: nat, k: nat)
    requires s <= e < |pts|
    ensures var c := ClimbAt(pts, s, e, k);
      (c.distance > 0.0 ==> c.avgGrade * c.distance == c.elevGain * 100.0) &&
      (c.distance <= 0.0 ==> c.avgGrade == 0.0)
  {
    var c := ClimbAt(pts, s, e, k);
    if c.distance > 0.0 {
      var q := c.elevGain / c.distance;
      calc {
        c.avgGrade * c.distance;
      ==
        (q * 100.0) * c.distance;
      ==
        (q * c.distance) * 100.0;
      ==
        c.elevGain * 100.0;
      }
    }
  }

  /** The last point in s .. j at which the climb counts as going on: the
      climb's start, or a point whose slope reaches the continue threshold. */
  function LastQualifying(pts: seq<TrackPoint>, s: nat, j: nat, continueSlope: real): (q: nat)
    requires s <= j < |pts|
    ensures s <= q <= j
    ensures q == s || pts[q].smoothedSlope >= continueSlope
    ensures forall x :: q < x <= j ==> pts[x].smoothedSlope < continueSlope
    decreases j - s
  {
    if j == s || pts[j].smoothedSlope >= continueSlope then j else LastQualifying(pts, s, j - 1, continueSlope)
  }

  /** At every point of s .. e below the continue threshold, the flat stretch
      since the last qualifying point is shorter than the maximum. */
  ghost predicate FlatGapsBelow(pts: seq<TrackPoint>, s: nat, e: nat, th: Thresholds)
    requires s <= e < |pts|
  {
    forall j {:trigger LastQualifying(pts, s, j, th.continueSlope)} ::
      s < j <= e && pts[j].smoothedSlope < th.continueSlope ==>
      pts[j].dist - pts[LastQualifying(pts, s, j, th.continueSlope)].dist < th.maxFlat
  }

  /** Between the end of one climb and index b, some point below the
      continue threshold lies at least maxFlat past that end: the flat
      stretch that closed the climb. */
  ghost predicate ClosedBetween(pts: seq<TrackPoint>, e: nat, b: nat, th: Thresholds)
  {
    exists c: nat :: c < b && ClosesAt(pts, e, c, th)
  }

  /** Point c is a flat point at least maxFlat past point e. */
  ghost predicate ClosesAt(pts: seq<TrackPoint>, e: nat, c: nat, th: Thresholds)
  {
    e < c < |pts| && pts[c].smoothedSlope < th.continueSlope && pts[c].dist - pts[e].dist >= th.maxFlat
  }

  /** What holds of the k-th climb the detector keeps. */
  ghost predicate KeptClimb(pts: seq<TrackPoint>, c: Climb, k: nat, th: Thresholds)
  {
    c.startIdx <= c.endIdx < |pts| &&
    c == ClimbAt(pts, c.startIdx, c.endIdx, k) &&
    pts[c.startIdx].smoothedSlope >= th.startSlope &&
    (c.endIdx == c.startIdx || pts[c.endIdx].smoothedSlope >= th.continueSlope) &&
    c.distance >= th.minDistance &&
    FlatGapsBelow(pts, c.startIdx, c.endIdx, th)
  }

  /** The detector's output: kept climbs in discovery order, each separated
      from the next by the flat stretch that closed it. */
  ghost predicate DetectedClimbs(pts: seq<TrackPoint>, climbs: seq<Climb>, th: Thresholds)
  {
    (forall k :: 0 <= k < |climbs| ==> KeptClimb(pts, climbs[k], k, th)) &&
    (forall k :: 0 <= k < |climbs| - 1 ==>
      climbs[k].endIdx < climbs[k + 1].startIdx &&
      ClosedBetween(pts, climbs[k].endIdx, climbs[k + 1].startIdx, th))
  }

  /** saveClimb: a candidate from s to e is appended as the next climb if and
      only if it covers at least minDistance; otherwise it is dropped. */
  method SaveClimb(climbs: seq<Climb>, pts: seq<TrackPoint>, s: nat, e: nat, minDistance: real)
    returns (r: seq<Climb>)
    requires s <= e < |pts|
    ensures |r| == |climbs| + 1 <==> pts[e].dist - pts[s].dist >= minDistance
    ensures |r| == |climbs| || |r| == |climbs| + 1
    ensures r[..|climbs|] == climbs
    ensures |r| > |climbs| ==> r[|climbs|] == ClimbAt(pts, s, e, |climbs|)
    ensures r == Saved(climbs, pts, s, e, minDistance)
  {
    var climbDistance := pts[e].dist - pts[s].dist;
    if climbDistance >= minDistance {
      r := climbs + [ClimbAt(pts, s, e, |climbs|)];
    } else {
      r := climbs;
    }
  }

  /** The climbs after saveClimb has been given the candidate s .. e. */
  function Saved(climbs: seq<Climb>, pts: seq<TrackPoint>, s: nat, e: nat, minDistance: real): seq<Climb>
    requires s <= e < |pts|
  {
    if pts[e].dist - pts[s].dist >= minDistance then climbs + [ClimbAt(pts, s, e, |climbs|)] else climbs
  }

  // ---------------------------------------------------------------------
  // The scan of detectClimbs as a function of the points

  /** A candidate climb: opened at `start`, last going on at `last`, and
      closed at `close` (the point whose flat stretch reached the maximum, or
      the last point of the route). */
  datatype Candidate = Candidate(start: nat, last: nat, close: nat)

  /** The variables of detectClimbs, with the candidates closed so far in
      place of the climbs kept from them. */
  datatype ScanState = ScanState(climbing: bool, start: nat, last: nat, flat: real, cands: seq<Candidate>)

  /** Every index the state holds lies before point i. */
  predicate ValidState(st: ScanState, i: nat)
  {
    (st.climbing ==> st.start <= st.last < i) &&
    forall k :: 0 <= k < |st.cands| ==> st.cands[k].start <= st.cands[k].last <= st.cands[k].close < i
  }

  /** One pass of the loop of detectClimbs over point i. */
  function DetectStep(pts: seq<TrackPoint>, th: Thresholds, i: nat, st: ScanState): (r: ScanState)
    requires i < |pts| && ValidState(st, i)
    ensures ValidState(r, i + 1)
  {
    var slope := pts[i].smoothedSlope;
    if st.climbing then
      if slope >= th.continueSlope then st.(last := i, flat := 0.0)
      else
        var flat := if i > 0 then st.flat + (pts[i].dist - pts[i - 1].dist) else st.flat;
        if flat >= th.maxFlat then
          ScanState(false, st.start, st.last, flat, st.cands + [Candidate(st.start, st.last, i)])
        else st.(flat := flat)
    else if slope >= th.startSlope then st.(climbing := true, start := i, last := i, flat := 0.0)
    else st
  }

  /** The state of the scan before point i. */
  function DetectUpTo(pts: seq<TrackPoint>, th: Thresholds, i: nat): (st: ScanState)
    requires i <= |pts|
    ensures ValidState(st, i)
  {
    if i == 0 then ScanState(false, 0, 0, 0.0, [])
    else DetectStep(pts, th, i - 1, DetectUpTo(pts, th, i - 1))
  }

  /** Every candidate of the whole route, the one still open at the end
      closing at the last point. */
  function Candidates(pts: seq<TrackPoint>, th: Thresholds): (cs: seq<Candidate>)
    ensures forall k :: 0 <= k < |cs| ==> cs[k].start <= cs[k].last <= cs[k].close < |pts|
  {
    if |pts| < MIN_POINTS then []
    else
      var st := DetectUpTo(pts, th, |pts|);
      if st.climbing then st.cands + [Candidate(st.start, st.last, |pts| - 1)] else st.cands
  }

  /** What detectClimbs returns: saveClimb applied to each candidate of the
      route in turn, which keeps those covering at least the minimum distance. */
  function Detect(pts: seq<TrackPoint>, th: Thresholds): seq<Climb>
  {
    KeptOf(pts, Candidates(pts, th), th.minDistance)
  }

  /** A candidate is long enough to be kept. */
  predicate Long(pts: seq<TrackPoint>, c: Candidate, minDistance: real)
    requires c.start <= c.last < |pts|
  {
    pts[c.last].dist - pts[c.start].dist >= minDistance
  }

  /** The climbs saveClimb keeps from a list of candidates, in order. */
  function KeptOf(pts: seq<TrackPoint>, cands: seq<Candidate>, minDistance: real): seq<Climb>
    requires forall k :: 0 <= k < |cands| ==> cands[k].start <= cands[k].last < |pts|
  {
    if |cands| == 0 then []
    else
      var c := cands[|cands| - 1];
      Saved(KeptOf(pts, cands[..|cands| - 1], minDistance), pts, c.start, c.last, minDistance)
  }

  /** A further candidate goes through saveClimb after the earlier ones. */
  lemma KeptOfAppend(pts: seq<TrackPoint>, cands: seq<Candidate>, c: Candidate, minDistance: real)
    requires forall k :: 0 <= k < |cands| ==> cands[k].start <= cands[k].last < |pts|
    requires c.start <= c.last < |pts|
    ensures KeptOf(pts, cands + [c], minDistance) == Saved(KeptOf(pts, cands, minDistance), pts, c.start, c.last, minDistance)
  {
    assert (cands + [c])[..|cands|] == cands;
  }

  /** The number of candidates long enough to be kept. */
  function LongCount(pts: seq<TrackPoint>, cands: seq<Candidate>, minDistance: real): nat
    requires forall k :: 0 <= k < |cands| ==> cands[k].start <= cands[k].last < |pts|
  {
    if |cands| == 0 then 0
    else LongCount(pts, cands[..|cands| - 1], minDistance) + (if Long(pts, cands[|cands| - 1], minDistance) then 1 else 0)
  }

  /** Some candidate's span start .. close contains point j. */
  ghost predicate Covered(cands: seq<Candidate>, j: nat)
  {
    exists k :: 0 <= k < |cands| && cands[k].start <= j <= cands[k].close
  }

  /** At the end of the route the climb still open is committed, as the
      last climb, if and only if it covers at least the minimum distance;
      the climbs kept before it stay as they are. */
  lemma EndCommit(pts: seq<TrackPoint>, th: Thresholds)
    requires |pts| >= MIN_POINTS && DetectUpTo(pts, th, |pts|).climbing
    ensures var st := DetectUpTo(pts, th, |pts|);
      var before := KeptOf(pts, st.cands, th.minDistance);
      var r := Detect(pts, th);
      (|r| == |before| + 1 <==> pts[st.last].dist - pts[st.start].dist >= th.minDistance) &&
      r[..|before|] == before &&
      (|r| > |before| ==> r[|before|] == ClimbAt(pts, st.start, st.last, |before|))
  {
    var st := DetectUpTo(pts, th, |pts|);
    var cs := Candidates(pts, th);
    assert cs == st.cands + [Candidate(st.start, st.last, |pts| - 1)];
    assert cs[..|cs| - 1] == st.cands;
  }

  /** The kept climbs are the long candidates, one each, in order: the long
      candidate k becomes the climb numbered by the long candidates before it. */
  lemma {:induction false} KeptOfLong(pts: seq<TrackPoint>, cands: seq<Candidate>, minDistance: real)
    requires forall k :: 0 <= k < |cands| ==> cands[k].start <= cands[k].last < |pts|
    ensures |KeptOf(pts, cands, minDistance)| == LongCount(pts, cands, minDistance)
    ensures forall k :: 0 <= k < |cands| && Long(pts, cands[k], minDistance) ==>
      var n := LongCount(pts, cands[..k], minDistance);
      n < |KeptOf(pts, cands, minDistance)| &&
      KeptOf(pts, cands, minDistance)[n] == ClimbAt(pts, cands[k].start, cands[k].last, n)
  {
    if |cands| > 0 {
      var init := cands[..|cands| - 1];
      KeptOfLong(pts, init, minDistance);
      var prev := KeptOf(pts, init, minDistance);
      var r := KeptOf(pts, cands, minDistance);
      assert r[..|prev|] == prev;
      forall k | 0 <= k < |cands| && Long(pts, cands[k], minDistance)
        ensures var n := LongCount(pts, cands[..k], minDistance);
          n < |r| && r[n] == ClimbAt(pts, cands[k].start, cands[k].last, n)
      {
        if k < |cands| - 1 {
          assert cands[..k] == init[..k];
          assert r[LongCount(pts, init[..k], minDistance)] == prev[LongCount(pts, init[..k], minDistance)];
        } else {
          assert cands[..k] == init;
        }
      }
    }
  }

  /** The shape of the candidates after point i: each opens on a slope at or
      above the start threshold, they follow one another without overlap,
      each closed one ends where the flat stretch after its last qualifying
      point first reaches the maximum, and every point at or above the start
      threshold so far lies in a candidate's span or in the open climb. */
  ghost predicate ScanShape(pts: seq<TrackPoint>, th: Thresholds, i: nat, st: ScanState)
    requires i <= |pts| && ValidState(st, i)
  {
    OpenAndClosed(pts, th, i, st) && SteepCovered(pts, th, i, st)
  }

  /** The open climb and the closed candidates before point i, the open climb
      opening after the last candidate closed. */
  ghost predicate OpenAndClosed(pts: seq<TrackPoint>, th: Thresholds, i: nat, st: ScanState)
    requires i <= |pts| && ValidState(st, i)
  {
    (st.climbing ==> OpenShape(pts, th, st, i)) &&
    CandidatesShape(pts, th, st.cands) &&
    (st.climbing && |st.cands| > 0 ==> st.cands[|st.cands| - 1].close < st.start)
  }

  /** The open climb before point i: it opened on a slope at or above the
      start threshold, nothing after its last qualifying point reaches the
      continue threshold or the maximum flat stretch, and the accumulator
      holds the distance since that point. */
  ghost predicate OpenShape(pts: seq<TrackPoint>, th: Thresholds, st: ScanState, i: nat)
    requires i <= |pts| && ValidState(st, i) && st.climbing
  {
    pts[st.start].smoothedSlope >= th.startSlope &&
    st.flat == pts[i - 1].dist - pts[st.last].dist &&
    forall x :: st.last < x < i ==>
      pts[x].smoothedSlope < th.continueSlope && pts[x].dist - pts[st.last].dist < th.maxFlat
  }

  /** Each candidate opens on a slope at or above the start threshold, closes
      where its flat stretch first reaches the maximum, and ends before the
      next one opens. */
  ghost predicate CandidatesShape(pts: seq<TrackPoint>, th: Thresholds, cands: seq<Candidate>)
    requires forall k :: 0 <= k < |cands| ==> cands[k].start <= cands[k].last <= cands[k].close < |pts|
  {
    (forall k :: 0 <= k < |cands| ==> pts[cands[k].start].smoothedSlope >= th.startSlope) &&
    (forall k :: 0 <= k < |cands| ==> ClosedRight(pts, th, cands[k])) &&
    (forall k, l :: 0 <= k < l < |cands| ==> cands[k].close < cands[l].start)
  }

  /** Every point before i at or above the start threshold lies in a
      candidate's span or in the open climb. */
  ghost predicate SteepCovered(pts: seq<TrackPoint>, th: Thresholds, i: nat, st: ScanState)
    requires i <= |pts|
  {
    forall j :: 0 <= j < i && pts[j].smoothedSlope >= th.startSlope ==>
      Covered(st.cands, j) || (st.climbing && st.start <= j)
  }

  /** A candidate closed inside the route: nothing after its last qualifying
      point up to the close reaches the continue threshold, and the close is
      the first point at which the distance since the last qualifying point
      reaches the maximum flat stretch. */
  ghost predicate ClosedRight(pts: seq<TrackPoint>, th: Thresholds, c: Candidate)
    requires c.start <= c.last <= c.close < |pts|
  {
    c.last < c.close &&
    (forall x :: c.last < x <= c.close ==> pts[x].smoothedSlope < th.continueSlope) &&
    (forall x :: c.last < x < c.close ==> pts[x].dist - pts[c.last].dist < th.maxFlat) &&
    pts[c.close].dist - pts[c.last].dist >= th.maxFlat
  }

  /** A point already in some candidate's span stays in one when a candidate is added. */
  lemma CoveredGrows(cands: seq<Candidate>, c: Candidate, j: nat)
    requires Covered(cands, j)
    ensures Covered(cands + [c], j)
  {
    var k :| 0 <= k < |cands| && cands[k].start <= j <= cands[k].close;
    assert (cands + [c])[k] == cands[k];
  }

  /** One pass of the loop keeps the open climb and the closed candidates in shape. */
  lemma OpenAndClosedStep(pts: seq<TrackPoint>, th: Thresholds, i: nat, st: ScanState)
    requires i < |pts| && ValidState(st, i) && OpenAndClosed(pts, th, i, st)
    ensures OpenAndClosed(pts, th, i + 1, DetectStep(pts, th, i, st))
  {
    if !st.climbing {
      IdleOpens(pts, th, i, st);
    } else if pts[i].smoothedSlope >= th.continueSlope {
      QualifyingGoesOn(pts, th, i, st);
    } else if st.flat + (pts[i].dist - pts[i - 1].dist) < th.maxFlat {
      FlatStaysOpen(pts, th, i, st);
    } else {
      CloseAppends(pts, th, i, st);
    }
  }

  /** A point that opens a climb becomes its start. */
  lemma IdleOpens(pts: seq<TrackPoint>, th: Thresholds, i: nat, st: ScanState)
    requires i < |pts| && ValidState(st, i) && !st.climbing
    ensures var r := DetectStep(pts, th, i, st);
      r.cands == st.cands && (r.climbing ==> r.start == i && OpenShape(pts, th, r, i + 1))
  {
  }

  /** A point at or above the continue threshold becomes the last qualifying one. */
  lemma QualifyingGoesOn(pts: seq<TrackPoint>, th: Thresholds, i: nat, st: ScanState)
    requires i < |pts| && ValidState(st, i) && st.climbing && OpenShape(pts, th, st, i)
    requires pts[i].smoothedSlope >= th.continueSlope
    ensures var r := DetectStep(pts, th, i, st);
      r.climbing && r.start == st.start && r.cands == st.cands && OpenShape(pts, th, r, i + 1)
  {
  }

  /** The open climb over a flat point: the accumulator grows by the step. */
  lemma FlatStaysOpen(pts: seq<TrackPoint>, th: Thresholds, i: nat, st: ScanState)
    requires i < |pts| && ValidState(st, i) && st.climbing && OpenShape(pts, th, st, i)
    requires pts[i].smoothedSlope < th.continueSlope && st.flat + (pts[i].dist - pts[i - 1].dist) < th.maxFlat
    ensures var r := DetectStep(pts, th, i, st);
      r.climbing && r.start == st.start && r.last == st.last && r.cands == st.cands &&
      OpenShape(pts, th, r, i + 1)
  {
  }

  /** Closing appends the candidate, which closes where it should. */
  lemma CloseAppends(pts: seq<TrackPoint>, th: Thresholds, i: nat, st: ScanState)
    requires i < |pts| && ValidState(st, i) && st.climbing && OpenShape(pts, th, st, i)
    requires CandidatesShape(pts, th, st.cands) && (|st.cands| > 0 ==> st.cands[|st.cands| - 1].close < st.start)
    requires pts[i].smoothedSlope < th.continueSlope && st.flat + (pts[i].dist - pts[i - 1].dist) >= th.maxFlat
    ensures var r := DetectStep(pts, th, i, st);
      r.cands == st.cands + [Candidate(st.start, st.last, i)] && CandidatesShape(pts, th, r.cands)
  {
    var c := Candidate(st.start, st.last, i);
    assert pts[i].dist - pts[st.last].dist >= th.maxFlat;
    assert ClosedRight(pts, th, c);
    AppendInOrder(st.cands, c);
  }

  /** One pass of the loop keeps every steep point covered: a steep point
      either opens a climb or falls inside the open one, and a closing climb
      becomes a candidate whose span reaches the closing point. */
  lemma CoveredStep(pts: seq<TrackPoint>, th: Thresholds, i: nat, st: ScanState)
    requires i < |pts| && ValidState(st, i) && SteepCovered(pts, th, i, st)
    ensures SteepCovered(pts, th, i + 1, DetectStep(pts, th, i, st))
  {
    if st.climbing && pts[i].smoothedSlope < th.continueSlope && st.flat + (pts[i].dist - pts[i - 1].dist) >= th.maxFlat {
      CloseKeepsCovered(pts, th, i, st);
    }
  }

  /** The points the open climb covered stay covered by the candidate it closes into. */
  lemma CloseKeepsCovered(pts: seq<TrackPoint>, th: Thresholds, i: nat, st: ScanState)
    requires i < |pts| && ValidState(st, i) && st.climbing && SteepCovered(pts, th, i, st)
    requires pts[i].smoothedSlope < th.continueSlope && st.flat + (pts[i].dist - pts[i - 1].dist) >= th.maxFlat
    ensures SteepCovered(pts, th, i + 1, DetectStep(pts, th, i, st))
  {
    var r := DetectStep(pts, th, i, st);
    var c := Candidate(st.start, st.last, i);
    assert r.cands == st.cands + [c];
    forall j | 0 <= j < i + 1 && pts[j].smoothedSlope >= th.startSlope
      ensures Covered(r.cands, j)
    {
      if Covered(st.cands, j) {
        CoveredGrows(st.cands, c, j);
      } else {
        assert r.cands[|st.cands|] == c;
      }
    }
  }

  /** The open climb and the closed candidates are in shape at every point of the scan. */
  lemma {:induction false} OpenAndClosedHolds(pts: seq<TrackPoint>, th: Thresholds, i: nat)
    requires i <= |pts|
    ensures OpenAndClosed(pts, th, i, DetectUpTo(pts, th, i))
  {
    if i > 0 {
      OpenAndClosedHolds(pts, th, i - 1);
      OpenAndClosedStep(pts, th, i - 1, DetectUpTo(pts, th, i - 1));
    }
  }

  /** Every steep point seen so far is covered at every point of the scan. */
  lemma {:induction false} CoveredHolds(pts: seq<TrackPoint>, th: Thresholds, i: nat)
    requires i <= |pts|
    ensures SteepCovered(pts, th, i, DetectUpTo(pts, th, i))
  {
    if i > 0 {
      CoveredHolds(pts, th, i - 1);
      CoveredStep(pts, th, i - 1, DetectUpTo(pts, th, i - 1));
    }
  }

  /** The shape holds at every point of the scan. */
  lemma ScanShapeHolds(pts: seq<TrackPoint>, th: Thresholds, i: nat)
    requires i <= |pts|
    ensures ScanShape(pts, th, i, DetectUpTo(pts, th, i))
  {
    OpenAndClosedHolds(pts, th, i);
    CoveredHolds(pts, th, i);
  }

  /** Every candidate of a route of at least 10 points opens on a slope at or
      above the start threshold, the candidates follow one another without
      overlap, every one but the last closes on the flat stretch that first
      reaches the maximum, and every point at or above the start threshold
      lies in some candidate's span: no steep point escapes the detector. */
  lemma CandidatesCoverSteepPoints(pts: seq<TrackPoint>, th: Thresholds)
    requires |pts| >= MIN_POINTS
    ensures FinalShape(pts, th, Candidates(pts, th))
  {
    var st := DetectUpTo(pts, th, |pts|);
    ScanShapeHolds(pts, th, |pts|);
    assert ScanShape(pts, th, |pts|, st);
    if st.climbing {
      var c := Candidate(st.start, st.last, |pts| - 1);
      assert Candidates(pts, th) == st.cands + [c];
      LastOpenShape(pts, th, st.cands, c);
      LastOpenCovered(pts, th, st, c);
    } else {
      assert Candidates(pts, th) == st.cands;
      FinalClosed(pts, th, st);
    }
  }

  /** Every point at or above the start threshold lies in a candidate's span,
      and that candidate is either too short to keep or is the kept climb
      numbered by the long candidates before it. */
  lemma SteepPointDetected(pts: seq<TrackPoint>, th: Thresholds, j: nat)
    requires |pts| >= MIN_POINTS && j < |pts| && pts[j].smoothedSlope >= th.startSlope
    ensures var cs := Candidates(pts, th);
      exists k :: 0 <= k < |cs| && cs[k].start <= j <= cs[k].close &&
        (Long(pts, cs[k], th.minDistance) ==>
           var n := LongCount(pts, cs[..k], th.minDistance);
           n < |Detect(pts, th)| && Detect(pts, th)[n] == ClimbAt(pts, cs[k].start, cs[k].last, n))
  {
    var cs := Candidates(pts, th);
    assert Covered(cs, j) by {
      CandidatesCoverSteepPoints(pts, th);
    }
    var k :| 0 <= k < |cs| && cs[k].start <= j <= cs[k].close;
    if Long(pts, cs[k], th.minDistance) {
      var n := LongCount(pts, cs[..k], th.minDistance);
      assert n < |Detect(pts, th)| && Detect(pts, th)[n] == ClimbAt(pts, cs[k].start, cs[k].last, n) by {
        KeptOfLong(pts, cs, th.minDistance);
      }
    }
  }

  /** The candidates of a whole route: each opens on a slope at or above the
      start threshold, each but the last closes where its flat stretch first
      reaches the maximum and ends before the next opens, and every point at
      or above the start threshold lies in one of their spans. */
  ghost predicate FinalShape(pts: seq<TrackPoint>, th: Thresholds, cs: seq<Candidate>)
    requires forall k :: 0 <= k < |cs| ==> cs[k].start <= cs[k].last <= cs[k].close < |pts|
  {
    StartsSteep(pts, th, cs) && ClosedInOrder(pts, th, cs) && CoversSteep(pts, th, cs)
  }

  /** Each candidate opens on a slope at or above the start threshold. */
  ghost predicate StartsSteep(pts: seq<TrackPoint>, th: Thresholds, cs: seq<Candidate>)
    requires forall k :: 0 <= k < |cs| ==> cs[k].start <= cs[k].last <= cs[k].close < |pts|
  {
    forall k :: 0 <= k < |cs| ==> pts[cs[k].start].smoothedSlope >= th.startSlope
  }

  /** Each candidate but the last closes where its flat stretch first reaches
      the maximum, before the next one opens. */
  ghost predicate ClosedInOrder(pts: seq<TrackPoint>, th: Thresholds, cs: seq<Candidate>)
    requires forall k :: 0 <= k < |cs| ==> cs[k].start <= cs[k].last <= cs[k].close < |pts|
  {
    (forall k :: 0 <= k < |cs| - 1 ==> ClosedRight(pts, th, cs[k])) &&
    (forall k, l :: 0 <= k < l < |cs| ==> cs[k].close < cs[l].start)
  }

  /** Every point at or above the start threshold lies in a candidate's span. */
  ghost predicate CoversSteep(pts: seq<TrackPoint>, th: Thresholds, cs: seq<Candidate>)
  {
    forall j :: 0 <= j < |pts| && pts[j].smoothedSlope >= th.startSlope ==> Covered(cs, j)
  }

  /** The candidates at the end of the route when no climb is open. */
  lemma FinalClosed(pts: seq<TrackPoint>, th: Thresholds, st: ScanState)
    requires ValidState(st, |pts|) && !st.climbing
    requires CandidatesShape(pts, th, st.cands) && SteepCovered(pts, th, |pts|, st)
    ensures FinalShape(pts, th, st.cands)
  {
  }

  /** The closed candidates followed by the one open at the end keep their shape. */
  lemma LastOpenShape(pts: seq<TrackPoint>, th: Thresholds, cands: seq<Candidate>, c: Candidate)
    requires forall k :: 0 <= k < |cands| ==> cands[k].start <= cands[k].last <= cands[k].close < |pts|
    requires c.start <= c.last <= c.close < |pts|
    requires CandidatesShape(pts, th, cands) && pts[c.start].smoothedSlope >= th.startSlope
    requires |cands| > 0 ==> cands[|cands| - 1].close < c.start
    ensures StartsSteep(pts, th, cands + [c]) && ClosedInOrder(pts, th, cands + [c])
  {
    var cs := cands + [c];
    forall k | 0 <= k < |cs| - 1
      ensures ClosedRight(pts, th, cs[k])
    {
      assert cs[k] == cands[k];
    }
    AppendInOrder(cands, c);
  }

  /** A candidate opening after the last one closed keeps the candidates in order. */
  lemma AppendInOrder(cands: seq<Candidate>, c: Candidate)
    requires forall k :: 0 <= k < |cands| ==> cands[k].start <= cands[k].close
    requires forall k, l :: 0 <= k < l < |cands| ==> cands[k].close < cands[l].start
    requires |cands| > 0 ==> cands[|cands| - 1].close < c.start
    ensures forall k, l :: 0 <= k < l < |cands + [c]| ==> (cands + [c])[k].close < (cands + [c])[l].start
  {
    var cs := cands + [c];
    forall k, l | 0 <= k < l < |cs|
      ensures cs[k].close < cs[l].start
    {
      assert cs[k] == cands[k];
      if l < |cands| {
        assert cs[l] == cands[l];
      } else if k < |cands| - 1 {
        assert cands[k].close < cands[|cands| - 1].start;
      }
    }
  }

  /** Every steep point is covered once the open climb becomes a candidate. */
  lemma LastOpenCovered(pts: seq<TrackPoint>, th: Thresholds, st: ScanState, c: Candidate)
    requires SteepCovered(pts, th, |pts|, st) && st.climbing && c.start == st.start && c.close == |pts| - 1
    ensures CoversSteep(pts, th, st.cands + [c])
  {
    forall j | 0 <= j < |pts| && pts[j].smoothedSlope >= th.startSlope
      ensures Covered(st.cands + [c], j)
    {
      if Covered(st.cands, j) {
        CoveredGrows(st.cands, c, j);
      } else {
        assert (st.cands + [c])[|st.cands|] == c;
      }
    }
  }

  /** The state the scan holds while climbing, after processing the points
      before i: the climb opened at `start`, its last qualifying point is
      `last`, and the flat-gap accumulator equals the distance covered since
      `last`. */
  ghost predicate OpenClimb(pts: seq<TrackPoint>, start: nat, last: nat, i: nat, flat: real, th: Thresholds)
  {
    start <= last < i <= |pts| &&
    pts[start].smoothedSlope >= th.startSlope &&
    (last == start || pts[last].smoothedSlope >= th.continueSlope) &&
    flat == pts[i - 1].dist - pts[last].dist &&
    (forall x :: last < x < i ==> pts[x].smoothedSlope < th.continueSlope) &&
    FlatGapsBelow(pts, start, i - 1, th)
  }

  /** detectClimbs: no climb on a route of fewer than 10 points; otherwise
      the kept climbs each start at a point at or above the start threshold,
      end at their last point at or above the continue threshold (or at the
      start), never contain a flat stretch reaching the maximum, cover at
      least the minimum distance, are named "Col 1", "Col 2", ... in order,
      and are separated by the flat stretch that closed each of them; and
      they are exactly the climbs of the reference scan Detect. */
  method DetectClimbs(pts: seq<TrackPoint>, settings: ClimbSettings) returns (climbs: seq<Climb>)
    ensures |pts| < MIN_POINTS ==> climbs == []
    ensures DetectedClimbs(pts, climbs, ResolveThresholds(settings))
    ensures climbs == Detect(pts, ResolveThresholds(settings))
  {
    climbs := [];
    if |pts| < MIN_POINTS {
      return;
    }
    var th := ResolveThresholds(settings);
    var climbing := false;
    var start := 0;
    var last := 0;
    var flat := 0.0;
    var i := 0;
    ghost var closedAt: nat := 0;
    ghost var cands: seq<Candidate> := [];
    while i < |pts|
      invariant 0 <= i <= |pts|
      invariant Scanning(pts, th, i, climbing, start, last, flat, climbs, closedAt)
      invariant DetectUpTo(pts, th, i) == ScanState(climbing, start, last, flat, cands)
      invariant climbs == KeptOf(pts, cands, th.minDistance)
    {
      climbing, start, last, flat, climbs, closedAt, cands :=
        ScanPoint(pts, th, i, climbing, start, last, flat, climbs, closedAt, cands);
      i := i + 1;
    }
    ScanEnds(pts, th, ScanState(climbing, start, last, flat, cands));
    if climbing {
      var before := climbs;
      climbs := SaveClimb(climbs, pts, start, last, th.minDistance);
      CommitKeeps(pts, before, climbs, start, last, i, closedAt, th);
    }
  }

  /** The reference scan ends with the climbs kept from the closed candidates,
      followed by the open climb when it is long enough. */
  lemma ScanEnds(pts: seq<TrackPoint>, th: Thresholds, st: ScanState)
    requires |pts| >= MIN_POINTS && DetectUpTo(pts, th, |pts|) == st
    ensures st.climbing ==>
      (st.start <= st.last < |pts| &&
       Detect(pts, th) == Saved(KeptOf(pts, st.cands, th.minDistance), pts, st.start, st.last, th.minDistance))
    ensures !st.climbing ==> Detect(pts, th) == KeptOf(pts, st.cands, th.minDistance)
  {
    if st.climbing {
      KeptOfAppend(pts, st.cands, Candidate(st.start, st.last, |pts| - 1), th.minDistance);
    }
  }

  /** The state of the scan of detectClimbs before point i: the climbs kept
      so far, the open climb if any, and the point that closed the last kept
      climb, which comes before the open climb. */
  ghost predicate Scanning(pts: seq<TrackPoint>, th: Thresholds, i: nat, climbing: bool, start: nat, last: nat,
                           flat: real, climbs: seq<Climb>, closedAt: nat)
  {
    DetectedClimbs(pts, climbs, th) &&
    (climbing ==> OpenClimb(pts, start, last, i, flat, th)) &&
    (|climbs| > 0 ==> ClosesAt(pts, climbs[|climbs| - 1].endIdx, closedAt, th) && closedAt < i) &&
    (|climbs| > 0 && climbing ==> closedAt < start)
  }

  /** The loop body of detectClimbs at point i: a climb opens on a slope of
      at least startSlope, goes on over slopes of at least continueSlope, and
      is closed and saved once maxFlat metres pass without one. */
  method ScanPoint(pts: seq<TrackPoint>, th: Thresholds, i: nat, climbing: bool, start: nat, last: nat, flat: real,
                   climbs: seq<Climb>, ghost closedAt: nat, ghost cands: seq<Candidate>)
    returns (climbing': bool, start': nat, last': nat, flat': real, climbs': seq<Climb>, ghost closedAt': nat,
             ghost cands': seq<Candidate>)
    requires i < |pts|
    requires Scanning(pts, th, i, climbing, start, last, flat, climbs, closedAt)
    requires ValidState(ScanState(climbing, start, last, flat, cands), i)
    requires climbs == KeptOf(pts, cands, th.minDistance)
    ensures Scanning(pts, th, i + 1, climbing', start', last', flat', climbs', closedAt')
    ensures ScanState(climbing', start', last', flat', cands')
         == DetectStep(pts, th, i, ScanState(climbing, start, last, flat, cands))
    ensures climbs' == KeptOf(pts, cands', th.minDistance)
  {
    climbing', start', last', flat', climbs', closedAt', cands' := climbing, start, last, flat, climbs, closedAt, cands;
    var slope := pts[i].smoothedSlope;
    ghost var st := ScanState(climbing, start, last, flat, cands);
    if climbing {
      if slope >= th.continueSlope {
        last' := i;
        flat' := 0.0;
        assert DetectStep(pts, th, i, st) == st.(last := i, flat := 0.0);
        StepQualifying(pts, start, i, th);
      } else {
        if i > 0 {
          flat' := flat + (pts[i].dist - pts[i - 1].dist);
        }
        assert DetectStep(pts, th, i, st) == if flat' >= th.maxFlat
          then ScanState(false, start, last, flat', cands + [Candidate(start, last, i)])
          else st.(flat := flat');
        assert flat' == pts[i].dist - pts[last].dist;
        LastQualifyingIs(pts, start, last, i, th.continueSlope);
        if flat' >= th.maxFlat {
          climbing' := false;
          climbs' := SaveClimb(climbs, pts, start, last, th.minDistance);
          cands' := cands + [Candidate(start, last, i)];
          KeptOfAppend(pts, cands, Candidate(start, last, i), th.minDistance);
          CommitKeeps(pts, climbs, climbs', start, last, i, closedAt, th);
          if |climbs'| > |climbs| {
            closedAt' := i;
          }
        } else {
          StepFlat(pts, start, last, i, th);
        }
      }
    } else {
      assert DetectStep(pts, th, i, st) == if slope >= th.startSlope
        then st.(climbing := true, start := i, last := i, flat := 0.0) else st;
      if slope >= th.startSlope {
        climbing' := true;
        start' := i;
        last' := i;
        flat' := 0.0;
      }
    }
  }

  /** LastQualifying(s, j) is q when q qualifies and nothing after it up to j does. */
  lemma {:induction false} LastQualifyingIs(pts: seq<TrackPoint>, s: nat, q: nat, j: nat, continueSlope: real)
    requires s <= q <= j < |pts|
    requires q == s || pts[q].smoothedSlope >= continueSlope
    requires forall x :: q < x <= j ==> pts[x].smoothedSlope < continueSlope
    ensures LastQualifying(pts, s, j, continueSlope) == q
    decreases j - q
  {
    if j > q {
      LastQualifyingIs(pts, s, q, j - 1, continueSlope);
    }
  }

  /** Flat gaps checked up to j stay checked when the range is cut back to e <= j. */
  lemma FlatGapsPrefix(pts: seq<TrackPoint>, s: nat, e: nat, j: nat, th: Thresholds)
    requires s <= e <= j < |pts|
    requires FlatGapsBelow(pts, s, j, th)
    ensures FlatGapsBelow(pts, s, e, th)
  {
  }

  /** A qualifying point i adds no flat-gap obligation. */
  lemma StepQualifying(pts: seq<TrackPoint>, start: nat, i: nat, th: Thresholds)
    requires start < i < |pts|
    requires FlatGapsBelow(pts, start, i - 1, th)
    requires pts[i].smoothedSlope >= th.continueSlope
    ensures FlatGapsBelow(pts, start, i, th)
  {
  }

  /** A flat point i whose gap since the last qualifying point stays under
      the maximum keeps every flat gap under the maximum. */
  lemma StepFlat(pts: seq<TrackPoint>, start: nat, last: nat, i: nat, th: Thresholds)
    requires start <= last < i < |pts|
    requires FlatGapsBelow(pts, start, i - 1, th)
    requires LastQualifying(pts, start, i, th.continueSlope) == last
    requires pts[i].dist - pts[last].dist < th.maxFlat
    ensures FlatGapsBelow(pts, start, i, th)
  {
  }

  /** The recorded closing point of the last climb witnesses the flat
      stretch before the next climb's start. */
  lemma PreviousClosed(pts: seq<TrackPoint>, before: seq<Climb>, closedAt: nat, start: nat, th: Thresholds)
    requires |before| > 0 ==> ClosesAt(pts, before[|before| - 1].endIdx, closedAt, th) && closedAt < start
    ensures |before| > 0 ==>
      before[|before| - 1].endIdx < start && ClosedBetween(pts, before[|before| - 1].endIdx, start, th)
  {
  }

  /** Committing the open climb start .. last (closed at point i, or at the
      end of the route) through saveClimb keeps the output well formed. */
  lemma CommitKeeps(pts: seq<TrackPoint>, before: seq<Climb>, after: seq<Climb>, start: nat, last: nat, i: nat,
                    closedAt: nat, th: Thresholds)
    requires start <= last < i <= |pts|
    requires pts[start].smoothedSlope >= th.startSlope
    requires last == start || pts[last].smoothedSlope >= th.continueSlope
    requires FlatGapsBelow(pts, start, i - 1, th)
    requires DetectedClimbs(pts, before, th)
    requires |before| > 0 ==> ClosesAt(pts, before[|before| - 1].endIdx, closedAt, th) && closedAt < start
    requires |after| == |before| + 1 <==> pts[last].dist - pts[start].dist >= th.minDistance
    requires |after| == |before| || |after| == |before| + 1
    requires after[..|before|] == before
    requires |after| > |before| ==> after[|before|] == ClimbAt(pts, start, last, |before|)
    ensures DetectedClimbs(pts, after, th)
    ensures |after| > |before| ==> after[|after| - 1].endIdx == last
    ensures |after| == |before| ==> after == before
  {
    if |after| > |before| {
      assert after == before + [ClimbAt(pts, start, last, |before|)];
      OpenClimbKept(pts, start, last, i - 1, |before|, th);
      PreviousClosed(pts, before, closedAt, start, th);
      AppendClimb(pts, before, ClimbAt(pts, start, last, |before|), th);
    } else {
      assert after == before;
    }
  }

  /** Appending a climb that satisfies the detector's rules, after the flat
      stretch that closed the previous one, keeps the output well formed. */
  lemma AppendClimb(pts: seq<TrackPoint>, before: seq<Climb>, c: Climb, th: Thresholds)
    requires DetectedClimbs(pts, before, th)
    requires KeptClimb(pts, c, |before|, th)
    requires |before| > 0 ==>
      before[|before| - 1].endIdx < c.startIdx && ClosedBetween(pts, before[|before| - 1].endIdx, c.startIdx, th)
    ensures DetectedClimbs(pts, before + [c], th)
  {
    var after := before + [c];
    forall k | 0 <= k < |after|
      ensures KeptClimb(pts, after[k], k, th)
    {
      if k < |before| {
        assert after[k] == before[k];
      } else {
        assert after[k] == c;
      }
    }
    forall k | 0 <= k < |after| - 1
      ensures after[k].endIdx < after[k + 1].startIdx
      ensures ClosedBetween(pts, after[k].endIdx, after[k + 1].startIdx, th)
    {
      if k < |before| - 1 {
        assert after[k] == before[k] && after[k + 1] == before[k + 1];
      } else {
        assert after[k] == before[|before| - 1] && after[k + 1] == c;
      }
    }
  }

  /** The open climb start .. last satisfies the detector's rules for the
      k-th kept climb whenever it is long enough. */
  lemma OpenClimbKept(pts: seq<TrackPoint>, start: nat, last: nat, j: nat, k: nat, th: Thresholds)
    requires start <= last <= j < |pts|
    requires pts[start].smoothedSlope >= th.startSlope
    requires last == start || pts[last].smoothedSlope >= th.continueSlope
    requires FlatGapsBelow(pts, start, j, th)
    requires pts[last].dist - pts[start].dist >= th.minDistance
    ensures KeptClimb(pts, ClimbAt(pts, start, last, k), k, th)
  {
    FlatGapsPrefix(pts, start, last, j, th);
  }

  /** Kept climbs are pairwise disjoint and ordered by start index. */
  lemma {:induction false} ClimbsDisjoint(pts: seq<TrackPoint>, climbs: seq<Climb>, th: Thresholds, k: nat, l: nat)
    requires DetectedClimbs(pts, climbs, th)
    requires k < l < |climbs|
    ensures climbs[k].endIdx < climbs[l].startIdx
    decreases l - k
  {
    if l > k + 1 {
      ClimbsDisjoint(pts, climbs, th, k, l - 1);
      assert KeptClimb(pts, climbs[l - 1], l - 1, th);
    }
  }

  /** A climb's reported elevation gain is its net rise, which never exceeds
      the positive gain accumulated over its points. */
  lemma ClimbGainAtMostPositiveGain(pts: seq<TrackPoint>, c: Climb, k: nat, th: Thresholds)
    requires KeptClimb(pts, c, k, th)
    ensures c.elevGain <= PositiveGain(pts, c.startIdx, c.endIdx)
  {
    NetRiseAtMostGain(pts, c.startIdx, c.endIdx);
  }
}
