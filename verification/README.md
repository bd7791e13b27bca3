# SimuGPX route engine in Dafny

SimuGPX is a browser application for cyclists. It reads a GPX route or a
recorded activity and does three things. It simulates a ride of the route:
the power, speed, time, calories and W′ (anaerobic reserve) of every
segment. It describes the route: slope-homogeneous segments, detected
climbs and a per-kilometre climb profile. It analyses a recorded ride:
normalized power, power zones, best efforts, averages, and a score of the
ride against its simulation.

This project models the computing core of that application in Dafny and
proves properties of the model. Each module follows one source file:

- `Numeric`: shared arithmetic in JavaScript's terms. It covers `Math.floor`,
  `Math.round`, truncation, the truncating `%`, sums, means, clamped window
  means and the decimal text of numbers.
- `Track`: the point record shared by all modules (distance, elevation,
  slopes, optional time, power, heart rate and cadence), plus the
  elevation-gain and slope sums.
- `Physics` (`physics.js`): the power needed for a speed on a slope, the
  bisection solving the speed for a power, calories, and the W′ balance
  recurrence.
- `Metrics` (`metrics.js`): track statistics and slope smoothing in place on
  the array of points. It also covers normalized power, averages of a
  property, time in power zones, the best power over a duration, the moving
  average and the power histogram.
- `Segmentation` (`segmentation.js`): the single-pass split of a route into
  segments of homogeneous smoothed slope.
- `ColDetection` (`coldetection.js`): the hysteresis scan that finds climbs,
  and the rule that keeps a climb. The scan is also written as a function
  of the points (`Detect`), which the loop is proved to compute; every
  point at or above the start slope is proved to fall in one of the
  candidate climbs, and a candidate is kept exactly when it is long enough.
- `Pacing` (the simulation of `main.js`): power mode and speed mode, each
  with its seed and up to 12 damped rescaling rounds over the array of
  segments. A ghost record of the rounds (`Rounds`) keeps the route as it
  stood in the last round, its scale and the number of rounds. The final
  values are tied to that last round, and the rounds are proved to stop only
  as the loop allows. It then runs the fatigue pass, which threads W′ and
  calories through the segments in route order, and computes the totals.
- `MainTools` (the other `main.js` utilities): the clock text, the Zwift
  workout steps, the nearest point, chart smoothing, resampling a climb and
  its per-kilometre profile.
- `Comparison` (`comparison.js`): the scores of a recorded ride against the
  simulation, per segment, per climb and overall, and the score colour.
- `Database` (`database.js`): the preview sampling of a stored route and the
  fields of a stored entry.
- `Analysis` (`analysis.js`): the overview of a recorded activity and the
  power heat-map colour.

Transcendental functions (haversine distance, `atan`, `sin`, `cos`, `exp`,
the fourth root) are fields of a value `Elementary` passed as a parameter.
Properties that need them to behave (for example, a distance that is never
negative) are stated as preconditions of the lemmas that use them.
JavaScript `null`/`undefined` fields are `Option` values. JavaScript numbers
are unbounded reals.

## Model

| member | source | states |
|---|---|---|
| Track.Rise | metrics.js:38-43 | the rise counted between two points is never negative and is positive exactly when the second point is higher |
| Track.PositiveGain | segmentation.js:43-49 | the elevation gain (D+) over a stretch of points is never negative |
| Track.PositiveGainSplit | segmentation.js:43-49 | the gain over a stretch is the gain up to any inner point plus the gain from it on |
| Track.NetRiseAtMostGain | segmentation.js:43-49 | the gain over a stretch is at least the difference between its last and first elevation |
| Track.SlopeSumBounds | segmentation.js:17-26 | the running sum of the smoothed slopes of a stretch lies between its length times the least and the greatest slope |
| Numeric.Sign | physics.js:30 | the sign of x times x is the magnitude of x, and the sign is −1, 0 or 1 |
| Numeric.Floor | main.js:1418-1420 | Math.floor gives the whole number at or just below x |
| Numeric.Round | metrics.js:77 | Math.round gives the whole number nearest x, halves rounding up |
| Numeric.Trunc | main.js:1419-1420 | truncation toward zero keeps the sign of x and drops less than one in magnitude |
| Numeric.JsMod | main.js:1419-1420 | the remainder of a non-negative value by a positive modulus lies in [0, modulus) |
| Numeric.JsModIsFloorMod | main.js:1419-1420 | for a non-negative value and a positive modulus the truncating JavaScript remainder equals the floored remainder |
| Physics.SignedSquareMonotone | physics.js:30 | the signed square v·v·sign(v) never decreases as v grows |
| Physics.Pow2 | physics.js:74-83 | the number of halvings of the bracket is described by a power of two that is at least 1 |
| Metrics.SmoothSlopesSpec | metrics.js:81-120 | smoothing gives one point per input point |
| Metrics.SlopesUpTo | metrics.js:86-97 | the route with the local slopes written up to a point keeps its length |
| Metrics.SlopesUpToStep | metrics.js:86-97 | writing one more local slope extends the route written so far by exactly that point |
| Metrics.Values | metrics.js:125-131 | a property of one point gives at most one value |
| Segmentation.SegmentPoints | segmentation.js:38 | a segment's points are the inclusive slice from its start to its end point: one more than the index span, first and last being the boundary points |
| Segmentation.CloseSegment | segmentation.js:34-65 | the pushed segment is the fresh segment of the closed range: distance end minus start, the positive gain, the running-mean slope as a fraction, power 0, 25 km/h, and time distance/speed (0 for a non-positive distance) |
| Segmentation.SegmentElevGain | segmentation.js:43-49 | the D+ loop returns exactly the sum of the strictly positive rises over the segment's points |
| Segmentation.ScanStep | segmentation.js:21-75 | one iteration keeps the scan invariant: it cuts exactly when the segment is at least minLength long and the slope departs from the running mean by more than the threshold, or at the last point, and then restarts the mean at point i |
| Segmentation.CloseKeeps | segmentation.js:32-70 | closing at a cut point or the last point keeps the scan invariant with the new segment opened at i |
| Segmentation.ExtendKeeps | segmentation.js:71-75 | passing a point where the cut rule fails keeps the invariant, the running sum and count growing by that point |
| Segmentation.SegmentTrackBySlope | segmentation.js:10-79 | fewer than two points give no segments; otherwise the segments start at point 0, end at the last point, are contiguous, each built as pushed, every one but the last closed by the slope rule and none passing over a point where the rule held |
| Segmentation.PushPreserves | segmentation.js:53-70 | appending the segment s..i after a segment closed at s keeps everything established about the pushed segments |
| Segmentation.SegmentCountBound | segmentation.js:68 | contiguous segments of at least two points each number at most the index span they cover |
| Segmentation.PartitionTotals | segmentation.js:40-49 | the distances of contiguous segments telescope to the distance between the outer points and their gains add to the gain over the whole range |
| Segmentation.ScanTotals | segmentation.js:10-79 | for the scan's output on n ≥ 2 points: at most n − 1 segments, distances adding to the route length, gains adding to the route's D+, and every segment but the last at least minLength long |
| Segmentation.FreshGradeBounds | segmentation.js:26-58 | a fresh segment's grade lies between the smallest and largest smoothed slope of its points, divided by 100 |
| ColDetection.ResolveThresholds | coldetection.js:15-18 | each of the four settings, when missing or 0, falls back to 3.0 %, 1.5 %, 500 m and 1000 m, and is taken as given otherwise; no threshold in force is 0 |
| ColDetection.ClimbAt | coldetection.js:80-104 | the k-th pushed climb is named "Col k+1", spans the two indices, and carries the distance and the net elevation change between its end points |
| ColDetection.ClimbGrade | coldetection.js:102 | a climb's average grade is its elevation change per 100 m of distance, and 0 when the distance is not positive |
| ColDetection.LastQualifying | coldetection.js:32-35 | the point where the flat counter was last reset: the climb's start or a point at or above the continue slope, with every later point up to j below it |
| ColDetection.LastQualifyingIs | coldetection.js:32-35 | any point with those two properties is that reset point (uniqueness) |
| ColDetection.SaveClimb | coldetection.js:77-106 | a candidate is appended if and only if it covers at least the minimum distance; the earlier climbs are untouched and the new one is ClimbAt of the range; the result is `Saved`, the step the reference scan applies per candidate |
| ColDetection.ScanPoint | coldetection.js:26-60 | one step of the two-state scan keeps the detector invariant (a steep enough point opens a climb, a point at the continue slope extends it and resets the flat distance, a flat stretch reaching the maximum closes and commits it) and moves the scan state exactly as the reference step `DetectStep` does, the climbs so far being those kept from the candidates closed so far |
| ColDetection.DetectClimbs | coldetection.js:9-71 | fewer than ten points give no climbs; otherwise every returned climb starts at or above the start slope, ends at its start or a point at or above the continue slope, is at least the minimum distance long, contains no flat stretch of the maximum length, and is separated from the next by the flat stretch that closed it; and the result is exactly `Detect`, the reference scan, so no climb it finds is dropped |
| ColDetection.DetectStep | coldetection.js:26-60 | the reference step over point i, branch for branch as the loop body (open on the start slope, go on and reset the flat distance on the continue slope, add the distance from the previous point otherwise, close once it reaches the maximum); every index it records lies at or before i |
| ColDetection.DetectUpTo | coldetection.js:20-25 | the scan state before point i, starting idle with no candidate; every recorded index lies before i |
| ColDetection.Candidates | coldetection.js:11-67 | the candidates of a route: none under ten points, otherwise those closed during the scan followed by the one still open at the end, closed at the last point; every index lies in the route |
| ColDetection.KeptOfAppend | coldetection.js:46-66 | a further candidate goes through saveClimb after all the earlier ones |
| ColDetection.KeptOfLong | coldetection.js:77-106 | the climbs kept are the long candidates, one each and in order: their number is the number of long candidates, and long candidate k becomes the climb numbered by the long candidates before it, spanning its start and its last qualifying point |
| ColDetection.EndCommit | coldetection.js:63-67 | a climb still open at the end of the route is committed, as the last climb, if and only if it covers at least the minimum distance; the climbs committed before stay as they were |
| ColDetection.ScanEnds | coldetection.js:63-67 | the reference result is the climbs kept from the closed candidates, followed by the open climb through saveClimb when one is still open |
| ColDetection.CandidatesCoverSteepPoints | coldetection.js:25-67 | completeness of the scan: every candidate opens at or above the start slope; each but the last closes where the flat distance after its last qualifying point first reaches the maximum, with no point at the continue slope in between, and ends before the next opens; every point at or above the start slope lies in some candidate's span |
| ColDetection.SteepPointDetected | coldetection.js:25-106 | every point at or above the start slope lies in a candidate's span, and that candidate is either shorter than the minimum distance or is the detected climb numbered by the long candidates before it, spanning its start and its last qualifying point |
| ColDetection.OpenAndClosedHolds | coldetection.js:25-61 | before every point the open climb and the closed candidates have that shape, the open climb opening after the last close |
| ColDetection.CoveredHolds | coldetection.js:25-61 | before every point each point seen at or above the start slope lies in a closed candidate or in the open climb |
| ColDetection.ScanShapeHolds | coldetection.js:25-61 | both of the above, at every point of the scan |
| ColDetection.OpenAndClosedStep | coldetection.js:26-60 | one pass of the loop keeps the open climb and the closed candidates in shape |
| ColDetection.CoveredStep | coldetection.js:26-60 | one pass of the loop keeps every steep point seen covered |
| ColDetection.IdleOpens | coldetection.js:50-59 | when no climb is open the candidates stay as they are, and a climb the point opens starts at that point with the flat distance at 0 |
| ColDetection.QualifyingGoesOn | coldetection.js:32-35 | a point at the continue slope becomes the open climb's last point and resets the flat distance to 0 |
| ColDetection.FlatStaysOpen | coldetection.js:36-41 | a point below the continue slope whose flat distance stays under the maximum leaves the climb open, the flat distance being the distance since the last qualifying point |
| ColDetection.CloseAppends | coldetection.js:42-47 | a point whose flat distance reaches the maximum closes the open climb into a candidate, in order after the earlier ones |
| ColDetection.CloseKeepsCovered | coldetection.js:42-47 | the points covered by the open climb stay covered by the candidate it closes into |
| ColDetection.LastOpenShape | coldetection.js:63-67 | the climb still open at the end joins the candidates in order, each earlier one keeping its shape |
| ColDetection.LastOpenCovered | coldetection.js:63-67 | the climb still open at the end, closed at the last point, covers every steep point the open climb covered |
| ColDetection.FinalClosed | coldetection.js:61-71 | with no climb open at the end, the closed candidates already have the final shape |
| ColDetection.FlatGapsPrefix | coldetection.js:36-47 | the "no over-long flat stretch" property of a range holds for every prefix of it |
| ColDetection.StepQualifying | coldetection.js:32-35 | extending an open climb by a point at the continue slope keeps it free of over-long flats |
| ColDetection.StepFlat | coldetection.js:36-43 | extending it by a flat point whose distance from the reset point is below the maximum keeps it free of over-long flats |
| ColDetection.PreviousClosed | coldetection.js:43-47 | the climb committed before the current one ended before the current start, with the closing flat point in between |
| ColDetection.CommitKeeps | coldetection.js:43-67 | committing the open climb through saveClimb keeps the detector's output property, whether the candidate is kept or dropped |
| ColDetection.AppendClimb | coldetection.js:96-104 | appending a kept climb that starts after the closing flat of the previous one keeps the output property |
| ColDetection.OpenClimbKept | coldetection.js:84-104 | an open climb long enough when it is committed is a kept climb |
| ColDetection.ClimbsDisjoint | coldetection.js:20-61 | detected climbs are in order and never overlap: each ends before any later one starts |
| ColDetection.ClimbGainAtMostPositiveGain | coldetection.js:81 | the net elevation change a climb records is at most the D+ (sum of positive rises) over its points |
| Physics.ResistivePower | physics.js:15-33 | the power against rolling, gravity and drag (rolling coefficient reduced by 15 % per unit of slope, drag 0.5·ρ·CdA·vrel²·sign(vrel)) vanishes at standstill |
| Physics.PowerFromSpeed | physics.js:14-35 | the power for a speed is never negative, is the resistive power plus 3 W unless that is negative (then 0), and is exactly 3 W at standstill |
| Physics.DragMonotone | physics.js:29-30 | with non-negative ρ and CdA, drag grows with the relative air speed, in both directions of the wind |
| Physics.BisectBrackets | physics.js:73-86 | each round halves the bracket; when f is negative at the original lower bound, f stays negative at the lower end and non-negative at the upper end; an early exit lies strictly inside with a residual under 0.1 W |
| Physics.SoundOnHalf | physics.js:75-85 | what holds of a bisection on either half of a bracket holds of it on the whole bracket with one more round |
| Physics.ProductSign | physics.js:81 | with f negative at the lower bound, the sign test f(mid)·f(min) > 0 means f(mid) < 0, and its failure means f(mid) ≥ 0 |
| Physics.SolveSpeedSpec | physics.js:58-88 | the solved speed lies in [0.1, 33.3] m/s; it is 33.3 when even that speed needs less than the power, 0.1 when the lowest speed already needs more, and otherwise the reported end of a sound 20-round bisection |
| Physics.SolveVitesse | physics.js:43-89 | the method's speed lies in [0.1, 33.3] m/s and is the speed the bisection specification gives for the query |
| Physics.CalculateKcal | physics.js:95-102 | with efficiency 0 the energy is 0; otherwise kcal · 4184 · η equals power × duration, with η = 0.24 when none is given |
| Physics.KcalIdentity | physics.js:98-101 | dividing power by η, multiplying by time and by 1/4184 inverts to kcal·4184·η = P·t |
| Physics.KcalNonNegative | physics.js:95-102 | non-negative power and duration with a positive efficiency give non-negative energy |
| Physics.CalculateWPrime | physics.js:108-123 | above CP (power floored at 0.1 W) the reserve never goes below 0; at or below CP it never exceeds W′max |
| Physics.DepletionBounds | physics.js:111-114 | above CP over a non-negative time, the reserve ends between 0 and where it started |
| Physics.RecoveryBounds | physics.js:115-122 | at or below CP, with exp decreasing to at most 1 for non-positive arguments, a reserve in [0, W′max] recovers to between its start and W′max |
| Physics.WPrimeStaysInRange | physics.js:108-123 | a reserve in [0, W′max] stays in [0, W′max] after any segment |
| Metrics.ForwardSlopeMeaning | metrics.js:89-93 | a local slope is the rise per 100 m of the distance to the next point when that distance exceeds 0.1 m, and 0 otherwise |
| Metrics.LocalSlopes | metrics.js:86-97 | every point but the last gets the forward slope to its successor, and the last point copies the one before it |
| Metrics.WindowRadius | metrics.js:104 | the half-width is the floor of the window size, or 1 when that floor is 0; it is never 0 |
| Metrics.SmoothSlopes | metrics.js:81-120 | the array after the call is exactly the specification's route: unchanged below two points, otherwise each point with its local slope and the mean local slope over its clamped window |
| Metrics.WriteLocalSlopes | metrics.js:86-97 | the first pass writes every point's local slope and changes nothing else |
| Metrics.WriteSmoothedSlopes | metrics.js:106-119 | the second pass writes every point's smoothed slope as the mean over its window and changes nothing else |
| Metrics.WindowAverage | metrics.js:107-118 | the inner loop returns the mean local slope over [max(0, i−w), min(n−1, i+w)] |
| Metrics.SmoothSlopesWritesOnlySlopes | metrics.js:81-120 | smoothing changes no field of a point other than its two slopes |
| Metrics.SmoothSlopesIdempotent | metrics.js:81-120 | smoothing an already smoothed route changes nothing, since the slopes depend only on distance and elevation |
| Metrics.LocalSlopesFollowGeometry | metrics.js:89-93 | two routes with the same distances and elevations get the same local slopes |
| Metrics.SmoothedWithinWindow | metrics.js:106-119 | a smoothed slope lies between any bounds of the local slopes in its window |
| Metrics.PathLengthMonotone | metrics.js:33-44 | with a non-negative point-to-point distance, the cumulated distance is non-negative and never decreases along the route |
| Metrics.CalculateTrackStats | metrics.js:29-46 | the total distance is the sum of the point-to-point distances and the total elevation gain the sum of the positive rises; both are 0 for an empty route |
| Metrics.RollingPow4 | metrics.js:54-68 | one fourth power per trailing 30-point mean, from point 29 on: n − 29 values |
| Metrics.CalculateNormalizedPower | metrics.js:48-78 | below 30 points the result is 0; otherwise it is the rounded fourth root of the mean fourth power of the trailing 30-point means, a missing power counting as 0 |
| Metrics.TrailingSumConstant | metrics.js:58-63 | with a constant power c, a trailing window of k points sums to k·c |
| Metrics.SteadyNormalizedPower | metrics.js:48-78 | a steady power c over at least 30 points has normalized power round(c) |
| Metrics.Present | metrics.js:125-131 | the present values of a property are a subsequence of at most one value per point |
| Metrics.GetAverageParam | metrics.js:122-133 | the mean of the values present, and 0 when none is present |
| Metrics.PresentStep | metrics.js:125-131 | one more point adds its value, when present, to the sum and to the count |
| Metrics.AverageParamBounds | metrics.js:132 | the average lies between any bounds of the values present |
| Metrics.ZoneOf | metrics.js:156-163 | the zone is 1 to 6, zone 1 exactly below 55 % of FTP and zone 6 exactly from 120 % |
| Metrics.ZoneOfMonotone | metrics.js:157-163 | a higher percentage of FTP never falls in a lower zone |
| Metrics.ZoneInterval | metrics.js:153-155 | an interval counts if and only if the first point has a power, both points carry a time (any time, 0 included, as a Date is always truthy) and it lasts strictly between 0 and 10 s; it then counts for the time between the two points, in seconds |
| Metrics.ZoneSeconds | metrics.js:149-169 | the seconds accumulated in a zone are never negative |
| Metrics.EpochIntervalCounts | metrics.js:153-167 | an interval starting at a time of 0 ms still counts its seconds in the zone of its power |
| Metrics.CalculatePowerZones | metrics.js:140-173 | no result exactly when FTP is missing or not positive; otherwise seven entries, entry z being the rounded minutes spent in zone z |
| Metrics.ZoneZeroEmpty | metrics.js:146-157 | zone 0 never receives time |
| Metrics.ZonesPartition | metrics.js:149-169 | the seven zone totals add up to the total counted time |
| Metrics.Shrink | metrics.js:203-209 | the shrinking loop stops at the end point or at the first start whose window lasts at most the duration |
| Metrics.StartAfter | metrics.js:195-209 | the left end of the window after the first k points is 0 or before k |
| Metrics.NumDropFirst | metrics.js:204-207 | dropping the window's first point takes its numeric power out of the sum and the count |
| Metrics.FindBestPowerOverDuration | metrics.js:178-224 | null for fewer than two points or a non-positive duration; a result is the first accepted window (at least 90 % of the duration, some numeric power) of highest mean, with a positive mean, rounded watts and its bounds; null otherwise means no accepted window has a positive mean |
| Metrics.ScanWindowEnd | metrics.js:199-220 | one iteration extends the window, shrinks it from the left and keeps the best-so-far invariant |
| Metrics.ShrinkWindow | metrics.js:203-209 | the shrinking loop's left end is Shrink's, with sum and count of the numeric powers of the remaining window |
| Metrics.BestSkip | metrics.js:213 | a window the scan does not accept leaves the best so far unchanged |
| Metrics.BestStep | metrics.js:213-219 | an accepted window replaces the best only when its mean is strictly higher |
| Metrics.AcceptedWindowSpan | metrics.js:203-213 | an accepted window lasts at least 90 % of the duration and, unless it is a single point, at most the duration |
| Metrics.MovingAverage | metrics.js:227-239 | same length as the input, each entry the mean over the window of half-width floor(windowSize/2), clamped to the data |
| Metrics.MovingAverageBounds | metrics.js:229-237 | each moving average lies between any bounds of the data in its window |
| Metrics.BinCount | metrics.js:248-253 | a bin never counts more points than the route has |
| Metrics.PowerCount | metrics.js:249 | the points with a numeric power are at most all the points |
| Metrics.SetHasMinimum | metrics.js:255 | every non-empty set of bins has a smallest key, so the keys can be sorted |
| Metrics.SortedKeys | metrics.js:255 | the sorted keys hold each bin exactly once, in strictly increasing order |
| Metrics.SortedCons | metrics.js:255 | the smallest key followed by the sorted rest is the sorted set |
| Metrics.CalculatePowerDistribution | metrics.js:246-261 | bins strictly increasing, each one with at least one point and every point with a power falling in a listed bin; minutes·60 equal each bin's count; the counts add up to the points with a power |
| Metrics.CountBins | metrics.js:248-253 | the forEach builds the map from every bin hit to its number of points |
| Metrics.BinsStep | metrics.js:249-252 | one more point raises the count of its bin by one, starting from 0 |
| Metrics.BinCountPositive | metrics.js:250-251 | the bin of a point with a power counts at least that point |
| Metrics.BinCountsSum | metrics.js:255-258 | over keys that cover every bin hit, the bin counts add up to the points with a power |
| Metrics.CountsOverNoPoints | metrics.js:247 | with no points every bin count is 0 |
| Metrics.HitsOnce | metrics.js:255 | in strictly increasing keys a bin appears once if present and not at all otherwise |
| Metrics.CountsOverStep | metrics.js:248-253 | the counts over the keys grow by one exactly for the last point's bin |
| Database.SampleIndex | database.js:216-218 | the i-th sample index ⌊i·(n−1)/(maxPoints−1)⌋ is a valid index when there are more points than samples |
| Database.StepFacts | database.js:216 | with more points than samples the step exceeds 1 and the last sample position is exactly n − 1 |
| Database.SampleWithin | database.js:216-218 | every sample position lies in [0, n − 1] |
| Database.PositionGap | database.js:216-218 | samples further apart in rank are at least one step apart in position |
| Database.SimplifyPointsForPreview | database.js:207-221 | null for no points, the points themselves when they fit, otherwise the maxPoints samples at ⌊i·step⌋ |
| Database.PreviewFacts | database.js:207-221 | the preview is null exactly for no points, the points unchanged when they fit, and otherwise exactly maxPoints samples from the first point to the last |
| Database.SampleEnds | database.js:216-218 | the first sample is point 0 and the last is point n − 1 |
| Database.SampleIncreasing | database.js:216-218 | sample indices strictly increase, so no point is sampled twice |
| Database.PreviewFor | database.js:52-56 | a preview is made only for a course whose statistics carry a list of more than one point |
| Database.FixedFields | database.js:59-69 | the entry's fixed fields hold the type, the distance from the statistics (0 without them) and a preview that is a point list exactly when one was made, null otherwise |
| Database.Defined | database.js:76-80 | the cleaned object keeps exactly the keys whose value is not undefined |
| Database.RemoveUndefined | database.js:76-80 | deleting key by key leaves exactly the defined part of the entry |
| Database.BuildEntry | database.js:45-80 | the stored entry holds no undefined value; extra metadata overrides the statistics, which override the fixed fields; without statistics the distance is 0; the preview is a point list exactly for a course with more than one point, unless overridden; the type stays unless overridden |
| Database.DefinedMerge | database.js:59-80 | after cleaning a three-way merge, each defined value comes from the last object that has its key |
| Pacing.TimeFor | main.js:1299-1340 | above 0.1 m/s the time is the distance over the speed (time·speed = distance); at or below it the time is 0 |
| Pacing.ClampedPercent | main.js:1284 | the grade in percent clamped to ±20, equal to the grade itself inside that range |
| Pacing.GradeFactor | main.js:1285-1288 | the grade multiplier 1 + 0.18·g/5 uphill or 1 + 0.25·g/5 downhill is never below 0.4 |
| Pacing.SeedPowerFacts | main.js:1283-1291 | every seeded power is at least 1 W; below −8 % it is exactly 30 W; on the flat and uphill it is at least the target; past ±20 % the grade no longer matters |
| Pacing.GradeFactorMonotone | main.js:1284-1288 | from −8 % up, a steeper segment never has a smaller grade multiplier |
| Pacing.SeedPowerMonotone | main.js:1283-1291 | from −8 % up, a steeper segment is never seeded with less power |
| Pacing.FlooredScaleMonotone | main.js:1290 | max(1, target·f) grows with f for a positive target |
| Pacing.SeedPowerOnGrade | main.js:1289-1290 | from −8 % up the 30 W descent rule does not apply and the seeded power is max(1, target·grade multiplier) |
| Pacing.SeedPowers | main.js:1283-1291 | every segment's power becomes its seeded power and nothing else changes |
| Pacing.SpeedFor | main.js:1296-1298 | the speed at the wheel power (97 % of the rider's), from solveVitesse and capped at 100 km/h, lies in [0.1 m/s, 100 km/h] |
| Pacing.Ride | main.js:1296-1299 | riding a segment changes only its speed and time: the speed from the solver, the time its distance at that speed |
| Pacing.RideSolved | main.js:1296-1299 | a ridden segment carries the solver's speed for its power and the time its distance takes at that speed |
| Pacing.AppendStep | main.js:1300-1327 | one more segment adds its time, power × time, distance and speed × distance to the route sums |
| Pacing.PowerRound | main.js:1293-1303 | every segment is ridden at its power, and the round returns the time-weighted average power of the route as ridden, the total time floored at 1e-6 |
| Pacing.RideAt | main.js:1295-1302 | the loop body rides segment i alone and extends the two sums by its share |
| Pacing.RideSegment | main.js:1296-1299 | the body of the riding loop computes exactly the ridden segment |
| Pacing.NudgeDirection | main.js:1306-1308 | a damped rescale never goes the wrong way: a scale above 1 never lowers a power, a positive scale below 1 never raises it (nor below 1 W), a scale of 1 keeps it |
| Pacing.NudgePowers | main.js:1306-1308 | every power becomes max(1, p·(1 + (scale − 1)·0.8)) and nothing else changes |
| Pacing.PowerSeedStarts | main.js:1283-1291 | after seeding, every power is its seeded power (at least 1 W) and the route data is unchanged |
| Pacing.PowerRideStep | main.js:1293-1303 | the riding half of a round keeps the route data and the powers, and puts every segment at the solver's speed for its power, within [0.1 m/s, 100 km/h], with its time |
| Pacing.PowerZeroStops | main.js:1303-1310 | a round whose route average is 0 ends the rounds with the powers as ridden, the stopping rule and the seed holding |
| Pacing.PowerNudgeStep | main.js:1304-1308 | nudging every ridden power by target / route average completes the round: the route is paced, and the round is recorded as the last one, nudged, with that scale |
| Pacing.PowerLoopStops | main.js:1292-1310 | the rounds end after the twelfth, or earlier once the average is within 0.1 % of the target, and leave the route paced |
| Pacing.PowerStep | main.js:1293-1309 | one round rides every segment, nudges every power by target / route average, and stops on a zero average or once within 0.1 % of the target, keeping the round invariant otherwise |
| Pacing.SimulatePowerMode | main.js:1280-1310 | after seeding and at most 12 damped rounds, the route data is unchanged and every segment has at least 1 W; the speed and time of each segment are the solver's at the power it was ridden with in the last round, and its power is that power nudged by target / route average of that round (unnudged exactly when that average is 0); the rounds stop before the twelfth only on a zero average or within 0.1 % of the target, and a single round rode the seeded powers |
| Pacing.SpeedFactor | main.js:1313-1317 | the speed multiplier 1 − 0.12·g/5 uphill or 1 + 0.2·|g|/5 downhill is clamped to [0.45, 1.8] |
| Pacing.SeedSpeed | main.js:1318 | a seeded speed is at least 0.5 m/s |
| Pacing.SeedSpeedFacts | main.js:1312-1319 | when the target is at least 0.5/0.45 m/s, a climb is never seeded faster than the target and a descent or flat never slower |
| Pacing.SeedSpeeds | main.js:1312-1319 | every segment's speed becomes its seeded speed and nothing else changes |
| Pacing.SeedSpeedAt | main.js:1313-1318 | the loop body seeds segment i alone |
| Pacing.SpeedRound | main.js:1321-1329 | every speed is capped at 100 km/h and the round returns the distance-weighted average speed of the capped route, the distance floored at 1e-6 |
| Pacing.CapSpeedAt | main.js:1323-1328 | the loop body caps segment i alone and extends the two sums by its share |
| Pacing.NudgeSpeeds | main.js:1332-1334 | every speed becomes max(0.5, v·(1 + (scale − 1)·0.8)) and nothing else changes |
| Pacing.PowerForSpeed | main.js:1338-1339 | the rider's power for a speed is never negative and, times 0.97, gives the power at the wheel |
| Pacing.PowersFromSpeeds | main.js:1337-1341 | every segment gets the power that holds its speed and the time its distance takes at it |
| Pacing.SpeedSeedStarts | main.js:1312-1319 | after seeding, every speed is its seeded speed (at least 0.5 m/s) and the route data is unchanged |
| Pacing.SpeedCapStep | main.js:1321-1328 | the capping half of a round keeps the route data and leaves every speed within [0.5 m/s, 100 km/h]; in the first round it is the seeded speed capped |
| Pacing.SpeedZeroStops | main.js:1329-1336 | a round whose route average is 0 ends the rounds with the speeds as capped, the stopping rule and the seed holding |
| Pacing.SpeedNudgeStep | main.js:1330-1334 | nudging every capped speed by target / route average completes the round, recorded as the last one, nudged, with that scale |
| Pacing.SpeedLoopStops | main.js:1320-1336 | the rounds end after the twelfth, or earlier once the average is within 0.1 % of a non-zero target |
| Pacing.SpeedStep | main.js:1321-1335 | one round caps every speed, nudges it by target / route average, and stops on a zero average or once within 0.1 % of a non-zero target, keeping the round invariant otherwise |
| Pacing.SpeedFinalPass | main.js:1337-1341 | the final pass gives every segment the power and time of its speed and keeps the route data and what the rounds left |
| Pacing.SimulateSpeedMode | main.js:1311-1342 | after seeding, at most 12 damped rounds and the final pass, the route data is unchanged and every segment rides at least 0.5 m/s with the matching power and time; each final speed is the one capped (at most 100 km/h) in the last round, nudged by target / route average when that average is not 0 and as capped otherwise; the rounds stop before the twelfth only on a zero average or within 0.1 % of a non-zero target, and a single round capped the seeded speeds |
| Pacing.WAfterInRange | main.js:1348-1362 | with a positive recovery constant and no negative time, W′ stays within [0, W′max] all along the route |
| Pacing.PoweredBounds | main.js:1382-1385 | the powered time is non-negative and the powered work lies between lo and hi times it, for any bounds lo, hi of the powered segments' powers |
| Pacing.SegmentBounds | main.js:1382-1385 | one segment's share of the powered work lies between lo and hi times its share of the powered time |
| Pacing.RealAvgPowerBounds | main.js:1393 | the real average power lies between the least and the greatest power of the powered segments, and is 0 when no segment is powered |
| Pacing.SumsStep | main.js:1382-1390 | one more segment adds its share to each route sum |
| Pacing.AddPowered | main.js:1382-1385 | only a segment with positive power and time adds to the average-power sums |
| Pacing.FatigueSegment | main.js:1356-1390 | one step of the forward pass gives the segment its energy and the W′ it starts and ends with, and adds it to the sums |
| Pacing.TotalsOf | main.js:1393-1394 | the real average power times the powered time is the powered work (0 without any); the average speed in km/h times the total time is 3.6 × the distance, and is missing exactly when the total time is 0 |
| Pacing.FatiguedStep | main.js:1355-1391 | passing segment i on with the W′ left by the segments before it extends the fatigued prefix by one |
| Pacing.FatiguePass | main.js:1343-1394 | every segment gets the energy and W′ values of the forward pass in route order, and the totals are those of the route sums |
| Pacing.SpeedRiddenTime | main.js:1340 | in speed mode every segment's time times its speed is its distance |
| Pacing.Pace | main.js:1264-1342 | the pacing step changes only power, speed and time, leaves the route paced in the selected mode, and records the last round, the stopping rule and the seed of that mode |
| Pacing.RunSimulation | main.js:1255-1394 | an empty route is refused; otherwise the route data survives, the segments are paced in the selected mode with the last round, stopping rule and seed of that mode, W′ threads from the full reserve through every segment in order, and the totals are the sums over the final segments |
| Pacing.FatigueKeepsRounds | main.js:1355-1391 | the forward pass keeps what the pacing rounds left |
| Pacing.RoundsKept | main.js:1264-1342 | what the pacing rounds left depends only on each segment's route data, power, speed and time |
| Pacing.PowerRanKept | main.js:1292-1310 | what the power rounds left depends only on each segment's route data, power, speed and time |
| Pacing.SpeedRanKept | main.js:1320-1336 | what the speed rounds left depends only on each segment's route data and speed |
| Pacing.SameEffortTotals | main.js:1343-1394 | the totals depend only on each segment's power, time and distance |
| Pacing.FatigueKeepsPacing | main.js:1355-1391 | the forward pass keeps the route paced |
| Pacing.FatigueThreads | main.js:1355-1391 | after the forward pass W′ threads through the route: full at the start, each segment starting where the previous ended, each ending as calculateWPrime leaves it |
| Pacing.PacingSurvivesFatigue | main.js:1343-1394 | the forward pass keeps the route data, the pacing and the route sums, and threads W′ |
| Pacing.FatigueKeepsSums | main.js:1382-1390 | the forward pass leaves the route sums unchanged |
| Pacing.RouteSurvives | main.js:1255-1394 | pacing and the forward pass together never change a segment's route data |
| MainTools.SecondsToHHMMSS | main.js:1417-1424 | for a non-negative duration the text is the hour count, a colon, the minutes as exactly two digits, a colon and the seconds as exactly two digits, taken from the clock of the duration |
| MainTools.TwoDigits | main.js:1420-1421 | the padded minute or second field is exactly two characters long |
| MainTools.PadTwoDigits | main.js:1420-1421 | left-padding the decimal text of a number below 100 with '0' to width 2 gives exactly its two decimal digits |
| MainTools.ClockOfFacts | main.js:1418-1420 | the clock of a non-negative duration has minutes and seconds below 60, and hours·3600 + minutes·60 + seconds equals the whole seconds of the duration |
| MainTools.SecondsOfHour | main.js:1418-1420 | splitting a whole number of seconds into hours, minutes of the hour and seconds of the minute loses nothing |
| MainTools.FloorDivInt | main.js:1418-1419 | flooring a non-negative duration divided by 3600 or 60 is the same as integer division of its whole seconds |
| MainTools.DivBounds | main.js:1418-1420 | a value between lo·c and hi·c, divided by a positive c, lies between lo and hi |
| MainTools.FtpRef | main.js:2574 | the reference power is CP if set and non-zero, else puissance if set and non-zero, else 250; it is never zero |
| MainTools.RoundedDurationFacts | main.js:2593-2596 | a segment of 20 s or more gets a step of at least 20 s in whole tens; above 500 W it is the nearest ten seconds; from 300 to 500 W a multiple of 30 s, at least 30 s, within 15 s of the duration unless raised to 30 s; below 300 W a multiple of 60 s, at least 60 s, within 30 s unless raised to 60 s |
| MainTools.TenSecondBand | main.js:2594 | rounding a duration of 20 s or more to the nearest ten seconds gives a multiple of 10, at least 20, within 5 s of it |
| MainTools.FloorBand | main.js:2595-2596 | rounding to the nearest 30 s (or 60 s) with that unit as the minimum gives a multiple of the unit, at least 20 s, equal to the unit or within half a unit of the duration |
| MainTools.SteadyPowerFacts | main.js:2606-2607 | the power rounded to a multiple of 5 W is within 2.5 W of the power, and the relative power times the reference gives it back |
| MainTools.ZwoStepFacts | main.js:2591-2608 | a segment gives a step exactly when it lasts 20 s or more; the step lasts the rounded duration and is a free ride exactly when the power is below 100 W; a steady-state step's relative power times the reference is the power rounded to 5 W |
| MainTools.RoundWithin | main.js:2594-2596 | rounding to the nearest multiple of a positive unit moves a value by at most half a unit |
| MainTools.HalfUnit | main.js:2594-2596 | an error of at most one half, scaled by a positive unit, is at most half that unit |
| MainTools.ZwoSteps | main.js:2588-2610 | the workout has no more steps than the simulation has segments |
| MainTools.ZwoStepsShape | main.js:2588-2610 | the workout has exactly one step per segment of 20 s or more, and every step lasts a multiple of 10 s of at least 20 s |
| MainTools.ExportToZwo | main.js:2568-2610 | the loop over the segments emits exactly the steps of the segments in route order, against the reference power of the rider |
| MainTools.FindPointIndexByDistance | main.js:782-794 | −1 exactly when the route has no points; otherwise an index of a point whose distance is nearest the target, and the first such index among ties |
| MainTools.Ys | main.js:1555-1556 | the values that are averaged are the chart points' y values, one per point |
| MainTools.SmoothData | main.js:1546-1560 | one output per input, keeping each x, with y the mean of the input values from i − ⌊w/2⌋ to i + ⌈w/2⌉ − 1, clipped to the data |
| MainTools.SmoothedWithinRange | main.js:1546-1560 | every smoothed value lies between the least and the greatest input value |
| MainTools.StepDistance | main.js:1976-1977 | the grid step is the stretch length divided by targetPointCount − 1 when both are positive, else 0, and is never negative |
| MainTools.BracketFrom | main.js:1983-1985 | the scan stops at the last point or at the first point from the start index on whose distance reaches the current distance, every point skipped lying before it |
| MainTools.InterpAt | main.js:1987-2006 | the interpolated point always lies at the current grid distance, both when the bracket is shorter than 0.01 m and otherwise |
| MainTools.GridStep | main.js:1982 | each grid distance is the previous one plus the step |
| MainTools.InterpolateSegmentPoints | main.js:1973-2010 | fewer than two points are returned unchanged; otherwise max(2, targetPointCount) points, starting at the first point, ending at the last, with every inner point interpolated at its grid distance inside its bracket |
| MainTools.Advance | main.js:1983-1985 | the shared point index, kept across grid distances, ends where a scan from the start would end |
| MainTools.BracketSkip | main.js:1983-1985 | restarting the bracket scan past points that lie before the current distance does not change where it stops |
| MainTools.StepCoversStretch | main.js:1976-1977 | for a stretch of positive length, targetPointCount − 1 steps from the first distance land exactly on the last distance |
| MainTools.BracketHolds | main.js:1983-1988 | on a route whose distances never decrease, a current distance within the route lies between the two points of its bracket |
| MainTools.InterpolatedElevation | main.js:1993-1998 | an elevation interpolated inside its bracket lies between the elevations of the two bracket points |
| MainTools.UnitFraction | main.js:1993 | the interpolation fraction of a distance inside a bracket lies between 0 and 1 |
| MainTools.Grade | main.js:1726-1729 | over a positive distance the grade times the distance is 100 times the rise; over no distance (or a negative one) the grade is 0 |
| MainTools.MarksFrom | main.js:1724-1738 | the marked indices from i on increase strictly, lie in the route, and end with the last point |
| MainTools.ConsIncreasing | main.js:1724-1738 | putting an index before a strictly increasing run of later indices keeps the run strictly increasing |
| MainTools.SegLengthsStep | main.js:1736 | each new marker is the previous one plus the segment length |
| MainTools.MarksDueShift | main.js:1726 | a point that reaches the current marker, or is the last point, is a valid mark in front of the marks for the next marker |
| MainTools.MarksReach | main.js:1724-1738 | every mark found reaches the marker it was due at or is the last point of the route |
| MainTools.ColMarksShape | main.js:1717-1738 | a profile of two or more points has at least two marks, from the first point to the last, strictly increasing, each reaching its marker |
| MainTools.SegmentColForProfile | main.js:1711-1740 | fewer than two points give an empty profile; otherwise one entry per mark with its distance in km from the start, its elevation and the grade from the previous mark, the first entry being 0 km at the start elevation with grade 0 |
| MainTools.ColStep | main.js:1724-1738 | one pass of the loop keeps the marks found so far, the next marker, the stretch start and the profile in agreement |
| MainTools.ColScanMark | main.js:1726-1737 | a point that reaches the marker (or is the last one) is appended with its distance, elevation and grade from the stretch start, the marker advances by one segment and the stretch restarts there |
| MainTools.ColScanSkip | main.js:1726 | a point short of the marker that is not the last point changes nothing |
| MainTools.ProfileStep | main.js:1731-1734 | appending a mark's distance, elevation and grade to the profile of the earlier marks gives the profile of the longer list of marks |
| Comparison.CalculateMetricScore | comparison.js:134-158 | the score lies in [0, 100]; it is 0 when either value is missing or not positive, and otherwise the score of the ratio real/simulated |
| Comparison.RatioScoreBounds | comparison.js:140-157 | the score of any ratio lies in [0, 100] |
| Comparison.UnitRamp | comparison.js:148-154 | a value between 0 and a positive width, as a percentage of the width, lies in [0, 100] |
| Comparison.RatioScoreBands | comparison.js:142-155 | a ratio within 10 % of 1 scores 100; a ratio of 2 or more, or of 0.5 or less, scores 0; the score never rises as the ratio moves away from the band on either side |
| Comparison.RampMonotone | comparison.js:148-154 | the linear ramps of the score keep the order of their inputs |
| Comparison.RatioScoreContinuous | comparison.js:142-155 | each ramp meets the neighbouring band at its ends (100 at 1.1 and 0.9, 0 at 2.0 and 0.5), so the score has no jump |
| Comparison.Counted | comparison.js:242-246 | a point contributes at most one value to an average |
| Comparison.CountedValues | comparison.js:241-251 | the values an average is taken over are no more than the points |
| Comparison.CountedStep | comparison.js:241-251 | one more point adds its value (if it counts) to the running sum and one to the count, and nothing otherwise |
| Comparison.SumCounted | comparison.js:238-251 | the loop computes the sum and the count of exactly the values that count |
| Comparison.AddCounted | comparison.js:242-250 | one pass of the loop keeps the running sum and count equal to those of the points seen so far |
| Comparison.CalculateAverage | comparison.js:235-254 | the result is the mean of the counted values, or 0 when no value counts |
| Comparison.AverageBounds | comparison.js:235-254 | when every present value lies in [lo, hi] and at least one counts, the average lies in [lo, hi] |
| Comparison.CountedWithin | comparison.js:242-250 | every counted value is one of the present values of the points |
| Comparison.ZeroPowerIgnored | comparison.js:244-246 | a point whose power is exactly 0 does not change the power average |
| Comparison.Weighing | comparison.js:267-270 | each segment is weighed by its distance, with the value of the chosen property |
| Comparison.CalculateWeightedAverage | comparison.js:263-278 | the loop computes the distance-weighted average over the segments of positive distance, or 0 if there are none |
| Comparison.PositiveWeight | comparison.js:271-277 | the total distance is never negative, and is positive exactly when some segment has a positive distance |
| Comparison.WeightedSumsBounds | comparison.js:271-274 | when every weighed value lies in [lo, hi], the value-distance sum lies between lo and hi times the total distance |
| Comparison.ShareBounds | comparison.js:271-274 | one segment's value-distance product lies between lo and hi times its counted distance |
| Comparison.WeightedAverageBounds | comparison.js:263-278 | a weighted average over segments of positive distance lies between the least and the greatest of their values, and is 0 when no segment has a positive distance |
| Comparison.SimpleMovingAverage | comparison.js:280-294 | one output per input, each the mean of the inputs within ⌊w/2⌋ places on either side, clipped to the data |
| Comparison.MovingNoteAverage | comparison.js:297-306 | each output is the mean of all inputs up to and including its own |
| Comparison.ScoreAveragesBounded | comparison.js:280-306 | averages of scores that all lie in [0, 100] also lie in [0, 100] |
| Comparison.FindPointIndex | comparison.js:569-583 | the result is −1 or the index of a point at or beyond the distance; on a route whose distances never decrease it is the first such point, and −1 means every point lies before the distance |
| Comparison.PointsIn | comparison.js:338 | the points of a stretch are exactly the points whose distance lies within its start and end, inclusive |
| Comparison.SegmentsOverlapping | comparison.js:396-400 | the segments of a climb are exactly the segments starting before its end and ending after its start |
| Comparison.Blend | comparison.js:358-363 | the global score lies between the power score and the speed score |
| Comparison.ScoreSegmentFacts | comparison.js:333-379 | every score of a segment lies in [0, 100]; the segment is valid exactly when it is longer than 100 m, and enters the final score exactly when it is valid and has recorded points; without real points every score and the real power are 0; otherwise the global score is the speed score on a descent of −5.5 % or steeper and (3·power + speed)/4 elsewhere; a real power within 10 % of the planned power scores 100 |
| Comparison.RatioWithin | comparison.js:140-142 | a real value within 10 % of a positive planned value gives a ratio in the full-score band |
| Comparison.ValidGlobals | comparison.js:341-368 | the scores that count, those of valid segments with recorded points, are no more than the segments |
| Comparison.ValidGlobalsWithin | comparison.js:365-368 | every counted score is one of the segments' global scores |
| Comparison.FinalScoreBounds | comparison.js:431 | the final score lies in [0, 100] |
| Comparison.ShortSegmentIgnored | comparison.js:339-368 | a segment of 100 m or less does not change the final score |
| Comparison.UnrecordedSegmentIgnored | comparison.js:341-344 | a segment without recorded points does not change the final score, however long it is |
| Comparison.ScoreOneSegment | comparison.js:334-378 | the body of the segment loop computes the segment's score record |
| Comparison.ScoreClimb | comparison.js:394-402 | a climb is skipped exactly when no real point lies in it or no simulated segment overlaps it |
| Comparison.ClimbScoreFacts | comparison.js:404-423 | a scored climb keeps its climb, every score lies in [0, 100] and the global score is (3·power + speed)/4 |
| Comparison.ClimbPowerBounds | comparison.js:407 | the simulated power of a climb lies between the least and the greatest power of the segments, when an overlapping segment has a positive distance |
| Comparison.ClimbSimPower | comparison.js:396-407 | the simulated power of a climb is the distance-weighted average power of the overlapping segments |
| Comparison.OverlapPowerBounds | comparison.js:396-407 | the weighted power over the overlapping segments lies between the least and the greatest power of all the segments |
| Comparison.ClimbResults | comparison.js:390-424 | there are no more climb results than climbs |
| Comparison.ScoreOneClimb | comparison.js:391-423 | the body of the climb loop computes the climb's result, or skips it |
| Comparison.ScoreAll | comparison.js:333-379 | there is one result per simulated segment |
| Comparison.ScoreAllStep | comparison.js:333-379 | the results of one more segment are the earlier results followed by its own |
| Comparison.GlobalScoreBounds | comparison.js:355-363 | a segment's global score lies in [0, 100] |
| Comparison.ScoreAllBounds | comparison.js:333-379 | every segment's global score lies in [0, 100] |
| Comparison.ScoreSegments | comparison.js:329-379 | the loop returns one result per segment in order, with the sum and the count of the scores of the valid segments that have recorded points |
| Comparison.TalliedStep | comparison.js:341-378 | one pass of the loop appends the result and adds its score and one to the tallies only when the segment is valid and has recorded points |
| Comparison.ScoreClimbs | comparison.js:387-424 | the loop returns the results of the climbs that are not skipped, in order |
| Comparison.CollectClimb | comparison.js:390-424 | one pass of the climb loop appends the climb's result or skips it |
| Comparison.ClimbResultsStep | comparison.js:402-423 | the results of one more climb are the earlier ones followed by its result when it is not skipped |
| Comparison.RunComparison | comparison.js:319-431 | nothing is reported for a ride without points; otherwise one result per segment, the results of the climbs, the number of segments that count and a final score in [0, 100] that is their mean (0 when none counts) |
| Comparison.ValidGlobalsStep | comparison.js:341-368 | one more result adds its score to the counted scores only when its segment is valid and has recorded points |
| Comparison.ColorForScore | comparison.js:560-564 | green exactly from 90 up, yellow exactly from 60 to below 90, red exactly below 60 |
| Analysis.IntervalAt | analysis.js:150-170 | an interval is timed exactly when both points carry a timestamp and the gap lies strictly between 0 and 120 s, and then lasts that gap; an untimed interval adds no time and no work and never moves; a moving interval is timed and faster than 1 km/h; a coasting interval is moving |
| Analysis.Positives | analysis.js:176-186 | the non-zero tally keeps exactly the values above 0 |
| Analysis.MaxFrom | analysis.js:177-187 | a maximum started at 0 is at least 0, at least every value, and is 0 or one of the values |
| Analysis.RideStep | analysis.js:145-171 | the totals after one more point add its interval's distance, its climb, its moving, coasting and work parts, widen the altitude range to its elevation and raise the top speed to its candidate speed |
| Analysis.AddPoint | analysis.js:146-171 | one pass of the loop turns the ride totals before a point into the totals including it |
| Analysis.AddInterval | analysis.js:151-170 | the interval from the previous point adds its distance, its climb when the point is higher, its moving and coasting time and its work, and raises the top speed when it is a plausible moving speed |
| Analysis.AddValue | analysis.js:174-185 | a present value is added to the sum and the count and may raise the maximum; a missing value changes nothing |
| Analysis.AddPositive | analysis.js:176-186 | a value above 0 is added to the non-zero sum and count; others change nothing |
| Analysis.AddValues | analysis.js:173-188 | one pass of the loop updates the power, heart rate and cadence tallies to those of the points seen so far |
| Analysis.RenderAnalysisOverview | analysis.js:127-210 | nothing for fewer than two points; otherwise the overview: ride totals, elapsed and pause time, speeds, power, cadence and heart-rate averages and maxima, NP, IF, TSS, coasting share and calories, with CP, else the power setting, else 250 W as FTP |
| Analysis.CoastingWithinMoving | analysis.js:160-167 | the coasting time is never negative and never exceeds the moving time |
| Analysis.TopSpeedBounds | analysis.js:160-162 | the top speed lies in [0, 130), is at least every plausible moving speed, and is 0 or the speed of a moving interval |
| Analysis.MovingWithinElapsed | analysis.js:156-161 | with every point timed and times never going back, the moving time up to a point is at most the time elapsed since the first point |
| Analysis.AltitudeBounds | analysis.js:147-148 | the lowest and the highest altitude bound every elevation and are each the elevation of some point |
| Analysis.PositivesKeepSum | analysis.js:175-176 | for values that are never negative, dropping the zeros keeps the sum |
| Analysis.PositivesSumPositive | analysis.js:176 | the sum of the non-zero tally is never negative, and positive when it holds any value |
| Analysis.NonZeroAverageAtLeastAverage | analysis.js:196-201 | for values that are never negative, the non-zero average is at least the plain average |
| Analysis.FewerRaisesQuotient | analysis.js:196-197 | a non-negative total divided by fewer values is no smaller |
| Analysis.RideFacts | analysis.js:145-171 | the coasting time lies between 0 and the moving time; the top speed lies in [0, 130); the climbing total is the sum of the rises and at least the net rise; the altitude range bounds every elevation |
| Analysis.FinishTimes | analysis.js:194-208 | the coasting share lies in [0, 100] and is 0 without moving time; the pause time is never negative, at least elapsed minus moving, and exactly that when moving fits in elapsed |
| Analysis.MovingFitsElapsed | analysis.js:141-194 | with every point timed and times never going back, the moving time of the whole ride is at most its elapsed time, so the pause is elapsed minus moving |
| Analysis.TallyAverages | analysis.js:196-201 | the averages are the mean of the present values (0 when none) and the mean of the positive ones (0 when none, positive otherwise); for values never negative the non-zero average is at least the plain one; the maximum is at least every value |
| Analysis.PositiveQuotient | analysis.js:197 | a positive total over a positive count is positive |
| Analysis.FinishLoad | analysis.js:205-210 | without a positive FTP the IF and TSS are 0; without moving time TSS, kcal per hour and moving speed are 0; IF times FTP is NP; TSS is the moving hours times IF² times 100; the calories times 4.184 times 0.24 give back the work, and kcal per hour times the moving hours gives the calories |
| Analysis.StressFacts | analysis.js:205-206 | IF and TSS are 0 without a positive FTP, TSS is 0 without moving time, IF times FTP is NP, and TSS is the moving hours times IF² times 100 |
| Analysis.KcalFacts | analysis.js:209-210 | the calories times 4.184 times 0.24 are the work in kJ; calories per hour times the moving hours are the calories, and 0 without moving time |
| Analysis.TssIdentity | analysis.js:206 | (moving·NP·IF)/(FTP·3600)·100 equals moving/3600·IF²·100 when IF·FTP = NP |
| Analysis.HeatmapIntensity | analysis.js:536-537 | the intensity of a stretch is at most 1, and at least 0 for a power that is not negative |
| Analysis.HeatmapColor | analysis.js:554-563 | the hue is at least 0 for an intensity up to 1 and at most 240 for an intensity from 0 |
| Analysis.HeatmapScale | analysis.js:536-563 | a non-negative power gets a hue in [0, 240]; no power or 0 W is blue (240); 400 W or more is red (0); more power never gives a bluer hue |

## Left out

- Rendering, maps, charts, DOM updates, alerts, buttons, timers and promises are left out. These are presentation with no computation the results depend on. This covers the `renderAnalysisOverview` text, the comparison tables and maps, `rerenderSegmentListAfterSim` and the export download.
- Storage in IndexedDB (`initDB`, `store.add`, `getAll`) and the clock that stamps an entry are left out as I/O. `Database.BuildEntry` takes the timestamp `added` as a parameter.
- GPX parsing (`parseRealGPX`, `parseAnalysisGPX`) is left out as I/O. The model starts from the parsed points.
- Transcendental functions are parameters (`Elementary`), not computed. This covers the haversine distance, `atan`, `sin`, `cos`, `exp` and the fourth root of normalized power.
- Floating point is modelled as exact real arithmetic. Rounding error, `NaN` and `Infinity` are not modelled, except where a case below names them.
- Object identity is modelled as indices. Segments and climbs carry their first and last point index, so `indexOf` is the index itself. The `null` and `indexOf` = −1 guards of `saveClimb` cannot arise and are not modelled.
- Number formatting with `toFixed` and the chart labels are left out. This covers the workout's relative power text, the profile's distance and slope labels and the histogram labels. The model keeps the numbers as reals.
- The XML text of the workout file is left out. `MainTools.ExportToZwo` returns the list of steps the XML lists.
- `MainTools.ExportToZwo` does not model reading the power and duration from the alternative keys `puissance_w`/`temps_sec` and `parseFloat`. It takes each segment's power and time directly.
- `Pacing.RunSimulation` does not model `speed_history` and `maxSpeedEstimate` (`main.js` lines 1349-1381). No later step of the simulation reads them; they feed the speed chart and the report.
- `Pacing.RunSimulation` does not produce the simulation JSON (`generateSimulationJSON`). That function only copies fields into a report.
- `Pacing.RunSimulation`, `Pacing.FatiguePass` and `Physics.CalculateWPrime` require a non-zero recovery constant `tauRec`. With 0 the source divides by zero.
- `Pacing.SimulatePowerMode` and `Pacing.RunSimulation` require a positive target power in power mode. With 0 the source divides by zero in `30 / targetPower` and in the convergence test.
- `Pacing.SimulatePowerMode` and `Pacing.SimulateSpeedMode` stop the rounds when the route average is 0. There the source would scale by `Infinity`.
- `Pacing.TotalsOf` gives no average speed (`None`) for a total time of 0. There the source shows `NaN` or `Infinity`.
- `Metrics.CalculatePowerDistribution` requires a non-zero bin size. With 0 the source's bins are `NaN` or `Infinity`.
- `Metrics.CalculatePowerDistribution` keeps the minutes per bin as reals.
- `Database.SimplifyPointsForPreview` requires `maxPoints` ≠ 1. With 1 the source divides by zero.
- `MainTools.SmoothData` requires a window of at least 1. With 0 or less the source averages an empty window (0/0).
- `Comparison.SimpleMovingAverage` requires a window of at least 0. With a negative window the source averages an empty window.
- In `Metrics.FindBestPowerOverDuration` a missing timestamp counts as 0, as JavaScript's subtraction reads `null`.
- `Analysis.RenderAnalysisOverview` starts the altitude range at the first point instead of ±`Infinity`. The result is the same for any route of at least one point.
- `Analysis.RenderAnalysisOverview` leaves out the watts-per-kilogram figures and the rounding of displayed values. Both are display only.
- `Physics` declares `G_PHYSICS` = 9.80665, as `physics.js` does. The force model uses 9.81, as the code does.
