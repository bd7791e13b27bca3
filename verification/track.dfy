/** The route point record every component reads, and the sums over a stretch
    of points that several components compute with the same loop. */
module Track {
  import opened Numeric

  /** One point of a route or of a recorded activity. The parsers fill only
      the fields their file carries; a field the program tests against `null`
      is an Option (None stands for `null`). `time` is a timestamp in
      milliseconds; `dist` is the cumulative distance in metres; the two
      slopes are percent and are written by slope smoothing. */
  datatype TrackPoint = TrackPoint(
    lat: real,
    lon: real,
    ele: real,
    dist: real,
    localSlope: real,
    smoothedSlope: real,
    time: Option<real>,
    power: Option<real>,
    hr: Option<real>,
    cad: Option<real>,
    speedMs: Option<real>
  )

  /** The climb (in metres) from point a to point b, or 0 when b is not higher. */
  function Rise(a: TrackPoint, b: TrackPoint): (r: real)
    ensures r >= 0.0
    ensures r > 0.0 <==> b.ele > a.ele
  {
    if b.ele - a.ele > 0.0 then b.ele - a.ele else 0.0
  }

  /** Sum of the positive elevation steps from point s to point e. */
  function PositiveGain(pts: seq<TrackPoint>, s: nat, e: nat): (g: real)
    requires s <= e < |pts|
    ensures g >= 0.0
    decreases e - s
  {
    if e == s then 0.0 else PositiveGain(pts, s, e - 1) + Rise(pts[e - 1], pts[e])
  }

  /** Elevation gain is additive over adjacent stretches sharing a point. */
  lemma {:induction false} PositiveGainSplit(pts: seq<TrackPoint>, s: nat, m: nat, e: nat)
    requires s <= m <= e < |pts|
    ensures PositiveGain(pts, s, e) == PositiveGain(pts, s, m) + PositiveGain(pts, m, e)
    decreases e - m
  {
    if e > m {
      PositiveGainSplit(pts, s, m, e - 1);
    }
  }

  /** The net rise from point s to point e never exceeds the positive gain in between. */
  lemma {:induction false} NetRiseAtMostGain(pts: seq<TrackPoint>, s: nat, e: nat)
    requires s <= e < |pts|
    ensures pts[e].ele - pts[s].ele <= PositiveGain(pts, s, e)
    decreases e - s
  {
    if e > s {
      NetRiseAtMostGain(pts, s, e - 1);
    }
  }

  /** A route whose cumulative distance never decreases. */
  ghost predicate DistNonDecreasing(pts: seq<TrackPoint>)
  {
    forall i, j :: 0 <= i <= j < |pts| ==> pts[i].dist <= pts[j].dist
  }

  /** Sum of `smoothedSlope` over the points s .. e-1. */
  function SlopeSum(pts: seq<TrackPoint>, s: nat, e: nat): real
    requires s <= e <= |pts|
    decreases e - s
  {
    if e == s then 0.0 else SlopeSum(pts, s, e - 1) + pts[e - 1].smoothedSlope
  }

  /** The slope sum lies between count * min and count * max of the slopes. */
  lemma {:induction false} SlopeSumBounds(pts: seq<TrackPoint>, s: nat, e: nat, lo: real, hi: real)
    requires s <= e <= |pts|
    requires forall k :: s <= k < e ==> lo <= pts[k].smoothedSlope <= hi
    ensures (e - s) as real * lo <= SlopeSum(pts, s, e) <= (e - s) as real * hi
    decreases e - s
  {
    if e > s {
      SlopeSumBounds(pts, s, e - 1, lo, hi);
    }
  }
}
