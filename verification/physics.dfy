/** physics.js: the cycling force model, its inverse by bisection, the
    metabolic energy conversion and the W′ (anaerobic reserve) recurrence. */
module Physics {
  import opened Numeric

  /** Standard gravity as declared by physics.js; the force model below uses 9.81 instead. */
  const G_PHYSICS: real := 9.80665
  /** The gravity constant the force model actually uses. */
  const GRAVITY: real := 9.81
  /** Default air density (kg/m³). */
  const RHO_PHYSICS: real := 1.225
  /** Mechanical losses added to every power estimate (W). */
  const MECHANICAL_LOSS: real := 3.0

  /** The bisection bracket (m/s), its round budget and its early-exit tolerance (W). */
  const V_MIN: real := 0.1
  const V_MAX: real := 33.3
  const BISECTION_ROUNDS: nat := 20
  const RESIDUAL_TOLERANCE: real := 0.1

  /** Joules per kilocalorie, and the muscular efficiency used when none is given. */
  const JOULES_PER_KCAL: real := 4184.0
  const DEFAULT_ETA_MUSCLE: real := 0.24

  /** The parameter object `p` of powerFromSpeed: total mass (kg), CdA (m²),
      rolling coefficient, air density (kg/m³) and wind speed (m/s, added to
      the rider's speed). */
  datatype ForceParams = ForceParams(mass: real, cda: real, crr: real, rho: real, wind: real)

  /** Aerodynamic drag at relative air speed vrel: 0.5·ρ·CdA·vrel²·sign(vrel). */
  function AeroDrag(vrel: real, rho: real, cda: real): real
  {
    0.5 * rho * cda * vrel * vrel * Sign(vrel)
  }

  /** Power (W) spent against rolling resistance, gravity and drag at speed v
      on a slope given as a fraction, before mechanical losses. */
  function ResistivePower(v: real, slope: real, p: ForceParams, math: Elementary): (r: real)
    ensures v == 0.0 ==> r == 0.0
  {
    NetForce(v, slope, p, math) * v
  }

  /** Rolling resistance (with Crr reduced by 15% per unit of slope), the
      gravity component along the slope, and drag at speed v plus wind. */
  function NetForce(v: real, slope: real, p: ForceParams, math: Elementary): real
  {
    var theta := math.atan(slope);
    var cosT := math.cos(theta);
    var sinT := math.sin(theta);
    var crrEff := p.crr * (1.0 - 0.15 * slope);
    var rolling := p.mass * GRAVITY * crrEff * cosT;
    var gravity := p.mass * GRAVITY * sinT;
    var drag := AeroDrag(v + p.wind, p.rho, p.cda);
    rolling + gravity + drag
  }

  /** powerFromSpeed: the power needed to ride at speed v, never negative. */
  function PowerFromSpeed(v: real, slope: real, p: ForceParams, math: Elementary): (r: real)
    ensures r >= 0.0
    ensures v == 0.0 ==> r == MECHANICAL_LOSS
    ensures r >= ResistivePower(v, slope, p, math) + MECHANICAL_LOSS
    ensures r == 0.0 || r == ResistivePower(v, slope, p, math) + MECHANICAL_LOSS
  {
    Max(ResistivePower(v, slope, p, math) + MECHANICAL_LOSS, 0.0)
  }

  /** Drag never decreases as the relative air speed grows, tailwind
      included: the sign factor keeps the signed square monotone. */
  lemma DragMonotone(a: real, b: real, rho: real, cda: real)
    requires a <= b && rho >= 0.0 && cda >= 0.0
    ensures AeroDrag(a, rho, cda) <= AeroDrag(b, rho, cda)
  {
    var k := 0.5 * rho * cda;
    assert k >= 0.0;
    var sa := a * a * Sign(a);
    var sb := b * b * Sign(b);
    SignedSquareMonotone(a, b);
    assert AeroDrag(a, rho, cda) == k * sa;
    assert AeroDrag(b, rho, cda) == k * sb;
    MulMonotone(k, sa, sb);
  }

  lemma SignedSquareMonotone(a: real, b: real)
    requires a <= b
    ensures a * a * Sign(a) <= b * b * Sign(b)
  {
    if a >= 0.0 {
      assert a * a <= a * b <= b * b;
    } else if b <= 0.0 {
      assert -a >= -b >= 0.0;
      assert (-a) * (-a) >= (-a) * (-b) >= (-b) * (-b);
    }
  }

  lemma MulMonotone(k: real, x: real, y: real)
    requires k >= 0.0 && x <= y
    ensures k * x <= k * y
  {
  }

  /** The arguments of solveVitesse: wheel power, total mass, slope fraction, Crr, CdA. */
  datatype SpeedQuery = SpeedQuery(power: real, mass: real, slope: real, crr: real, cda: real)

  /** solveVitesse evaluates powerFromSpeed with standard air density and no wind. */
  function SolverParams(q: SpeedQuery): ForceParams
  {
    ForceParams(q.mass, q.cda, q.crr, RHO_PHYSICS, 0.0)
  }

  /** f(v) = powerFromSpeed(v) − P, the function solveVitesse brings to zero. */
  function Residual(v: real, q: SpeedQuery, math: Elementary): real
  {
    PowerFromSpeed(v, q.slope, SolverParams(q), math) - q.power
  }

  function Pow2(k: nat): (r: real)
    ensures r >= 1.0
  {
    if k == 0 then 1.0 else 2.0 * Pow2(k - 1)
  }

  /** How a bisection ends: an early exit at a speed whose residual is under
      the tolerance, or the final bracket once the rounds run out. */
  datatype Bisection = Hit(v: real) | Bracket(lo: real, hi: real)

  /** The bisection loop of solveVitesse from the bracket [lo, hi] with the
      given number of rounds left. fMin is f at the ORIGINAL lower bound: the
      source compares every midpoint against it and never updates it. */
  function Bisect(q: SpeedQuery, math: Elementary, fMin: real, lo: real, hi: real, rounds: nat): Bisection
    decreases rounds
  {
    if rounds == 0 then Bracket(lo, hi)
    else
      var mid := (lo + hi) / 2.0;
      var fMid := Residual(mid, q, math);
      if Abs(fMid) < RESIDUAL_TOLERANCE then Hit(mid)
      else if fMid * fMin > 0.0 then Bisect(q, math, fMin, mid, hi, rounds - 1)
      else Bisect(q, math, fMin, lo, mid, rounds - 1)
  }

  /** The speed a bisection reports: the early-exit speed or the bracket's midpoint. */
  function Reported(b: Bisection): real
  {
    match b
    case Hit(v) => v
    case Bracket(lo, hi) => (lo + hi) / 2.0
  }

  /** The speed solveVitesse returns for a query. */
  function SolveSpeed(q: SpeedQuery, math: Elementary): real
  {
    var fMin := Residual(V_MIN, q, math);
    var fMax := Residual(V_MAX, q, math);
    if fMax < 0.0 then V_MAX
    else if fMin > 0.0 then V_MIN
    else Reported(Bisect(q, math, fMin, V_MIN, V_MAX, BISECTION_ROUNDS))
  }

  /** What a bisection from [lo, hi] with `rounds` rounds guarantees: an
      early exit lies strictly inside the bracket with a residual under the
      tolerance; a final bracket lies inside [lo, hi], is 1/2^rounds of its
      width and, when f is negative at the original lower bound, has f
      negative at its lower end and non-negative at its upper end. */
  predicate Sound(b: Bisection, q: SpeedQuery, math: Elementary, fMin: real, lo: real, hi: real, rounds: nat)
  {
    match b
    case Hit(v) => lo < v < hi && Abs(Residual(v, q, math)) < RESIDUAL_TOLERANCE
    case Bracket(a, c) =>
      lo <= a < c <= hi && (c - a) * Pow2(rounds) == hi - lo &&
      (fMin < 0.0 ==> Residual(a, q, math) < 0.0 <= Residual(c, q, math))
  }

  /** Every bisection round halves the bracket and keeps the sign change:
      when f is negative at the original lower bound, f stays negative at
      the lower end and non-negative at the upper end. An early exit lands
      strictly inside the bracket with a residual under the tolerance. */
  lemma {:induction false} BisectBrackets(q: SpeedQuery, math: Elementary, fMin: real, lo: real, hi: real, rounds: nat)
    requires lo < hi
    requires fMin < 0.0 ==> Residual(lo, q, math) < 0.0 <= Residual(hi, q, math)
    ensures Sound(Bisect(q, math, fMin, lo, hi, rounds), q, math, fMin, lo, hi, rounds)
    decreases rounds
  {
    if rounds > 0 {
      var mid := (lo + hi) / 2.0;
      var fMid := Residual(mid, q, math);
      if Abs(fMid) >= RESIDUAL_TOLERANCE {
        if fMid * fMin > 0.0 {
          ProductSign(fMid, fMin);
          var sub := Bisect(q, math, fMin, mid, hi, rounds - 1);
          assert Bisect(q, math, fMin, lo, hi, rounds) == sub;
          BisectBrackets(q, math, fMin, mid, hi, rounds - 1);
          SoundOnHalf(sub, q, math, fMin, lo, hi, mid, hi, rounds);
        } else {
          ProductSign(fMid, fMin);
          var sub := Bisect(q, math, fMin, lo, mid, rounds - 1);
          assert Bisect(q, math, fMin, lo, hi, rounds) == sub;
          BisectBrackets(q, math, fMin, lo, mid, rounds - 1);
          SoundOnHalf(sub, q, math, fMin, lo, hi, lo, mid, rounds);
        }
      }
    }
  }

  /** With f negative at the lower bound, a positive product f(mid)·f(lo)
      means f(mid) is negative, and a non-positive one means it is not. */
  lemma ProductSign(fMid: real, fMin: real)
    ensures fMin < 0.0 && fMid * fMin > 0.0 ==> fMid < 0.0
    ensures fMin < 0.0 && fMid * fMin <= 0.0 ==> fMid >= 0.0
  {
    if fMin < 0.0 && fMid >= 0.0 {
      assert fMid * fMin <= 0.0 by { MulMonotone(fMid, fMin, 0.0); }
    }
    if fMin < 0.0 && fMid < 0.0 {
      assert fMid * fMin > 0.0 by { assert (-fMid) * (-fMin) > 0.0; }
    }
  }

  /** What holds of a bisection of one half of [lo, hi] with one round fewer
      holds of the bisection of [lo, hi]. */
  lemma SoundOnHalf(b: Bisection, q: SpeedQuery, math: Elementary, fMin: real, lo: real, hi: real, a: real, c: real, rounds: nat)
    requires rounds > 0 && lo <= a < c <= hi
    requires c - a == (hi - lo) / 2.0
    requires Sound(b, q, math, fMin, a, c, rounds - 1)
    ensures Sound(b, q, math, fMin, lo, hi, rounds)
  {
    if b.Bracket? {
      var w := b.hi - b.lo;
      var p := Pow2(rounds - 1);
      calc {
        w * Pow2(rounds);
      ==
        w * (2.0 * p);
      ==
        2.0 * (w * p);
      ==
        hi - lo;
      }
    }
  }

  /** solveVitesse's result always lies in [0.1, 33.3]. It saturates at
      33.3 when even that speed needs less than the given power, and at 0.1
      when 0.1 m/s already needs more; otherwise it either stops early at a
      speed whose residual is under 0.1 W, or returns the midpoint of a
      bracket of width 33.2/2^20 across which the residual changes sign
      (when f(0.1) < 0). */
  lemma SolveSpeedSpec(q: SpeedQuery, math: Elementary)
    ensures V_MIN <= SolveSpeed(q, math) <= V_MAX
    ensures Residual(V_MAX, q, math) < 0.0 ==> SolveSpeed(q, math) == V_MAX
    ensures Residual(V_MAX, q, math) >= 0.0 && Residual(V_MIN, q, math) > 0.0 ==> SolveSpeed(q, math) == V_MIN
    ensures Residual(V_MAX, q, math) >= 0.0 && Residual(V_MIN, q, math) <= 0.0 ==>
      SolveSpeed(q, math) == Reported(Bisect(q, math, Residual(V_MIN, q, math), V_MIN, V_MAX, BISECTION_ROUNDS)) &&
      Sound(Bisect(q, math, Residual(V_MIN, q, math), V_MIN, V_MAX, BISECTION_ROUNDS),
            q, math, Residual(V_MIN, q, math), V_MIN, V_MAX, BISECTION_ROUNDS)
  {
    var fMin := Residual(V_MIN, q, math);
    if Residual(V_MAX, q, math) >= 0.0 && fMin <= 0.0 {
      BisectBrackets(q, math, fMin, V_MIN, V_MAX, BISECTION_ROUNDS);
    }
  }

  /** solveVitesse(P_meca, m_total, pente_decimal, Crr, CdA). */
  method SolveVitesse(pMeca: real, mTotal: real, slope: real, crr: real, cda: real, math: Elementary)
    returns (v: real)
    ensures V_MIN <= v <= V_MAX
    ensures v == SolveSpeed(SpeedQuery(pMeca, mTotal, slope, crr, cda), math)
  {
    var q := SpeedQuery(pMeca, mTotal, slope, crr, cda);
    var vMin := V_MIN;
    var vMax := V_MAX;
    var fMin := Residual(vMin, q, math);
    var fMax := Residual(vMax, q, math);
    if fMax < 0.0 {
      return vMax;
    }
    if fMin > 0.0 {
      return vMin;
    }
    var i := 0;
    while i < BISECTION_ROUNDS
      invariant 0 <= i <= BISECTION_ROUNDS
      invariant V_MIN <= vMin < vMax <= V_MAX
      invariant Bisect(q, math, fMin, vMin, vMax, BISECTION_ROUNDS - i)
             == Bisect(q, math, fMin, V_MIN, V_MAX, BISECTION_ROUNDS)
    {
      var vMid := (vMin + vMax) / 2.0;
      var fMid := Residual(vMid, q, math);
      if Abs(fMid) < RESIDUAL_TOLERANCE {
        return vMid;
      }
      if fMid * fMin > 0.0 {
        vMin := vMid;
      } else {
        vMax := vMid;
      }
      i := i + 1;
    }
    return (vMin + vMax) / 2.0;
  }

  /** calculateKcal: metabolic energy (kcal) of holding power pMeca for
      `duration` seconds at muscular efficiency eta (0.24 when not given). */
  function CalculateKcal(pMeca: real, duration: real, etaMuscle: Option<real>): (kcal: real)
    ensures EtaOf(etaMuscle) == 0.0 ==> kcal == 0.0
    ensures EtaOf(etaMuscle) != 0.0 ==> kcal * JOULES_PER_KCAL * EtaOf(etaMuscle) == pMeca * duration
  {
    var eta := EtaOf(etaMuscle);
    if eta == 0.0 then 0.0
    else
      var kcal := pMeca / eta * duration / JOULES_PER_KCAL;
      KcalIdentity(pMeca, duration, eta, kcal);
      kcal
  }

  /** The default parameter `eta_muscle = 0.24` applies when the argument is missing. */
  function EtaOf(etaMuscle: Option<real>): real
  {
    match etaMuscle
    case None => DEFAULT_ETA_MUSCLE
    case Some(e) => e
  }

  lemma KcalIdentity(p: real, t: real, eta: real, kcal: real)
    requires eta != 0.0 && kcal == p / eta * t / JOULES_PER_KCAL
    ensures kcal * JOULES_PER_KCAL * eta == p * t
  {
    var a := p / eta;
    calc {
      kcal * JOULES_PER_KCAL * eta;
    ==
      (a * t / JOULES_PER_KCAL) * JOULES_PER_KCAL * eta;
    ==
      a * t * eta;
    ==
      (a * eta) * t;
    ==
      p * t;
    }
  }

  /** Energy is never negative for non-negative power and time and positive efficiency. */
  lemma KcalNonNegative(pMeca: real, duration: real, etaMuscle: Option<real>)
    requires pMeca >= 0.0 && duration >= 0.0 && EtaOf(etaMuscle) > 0.0
    ensures CalculateKcal(pMeca, duration, etaMuscle) >= 0.0
  {
    var eta := EtaOf(etaMuscle);
    var a := pMeca / eta;
    assert a >= 0.0;
    assert a * duration >= 0.0;
  }

  /** calculateWPrime: W′ left after holding power p for t seconds, starting
      from wStart. Above CP the reserve drains linearly and is floored at 0;
      at or below CP the deficit decays exponentially with time constant
      tauRec and the reserve is capped at wMax. Power is first raised to 0.1 W. */
  function CalculateWPrime(p: real, t: real, wStart: real, cp: real, wMax: real, tauRec: real, math: Elementary): (w: real)
    requires tauRec != 0.0
    ensures Max(p, 0.1) > cp ==> w >= 0.0
    ensures Max(p, 0.1) <= cp ==> w <= wMax
  {
    var pc := Max(p, 0.1);
    if pc > cp then
      Max(0.0, wStart - (pc - cp) * t)
    else
      var deficitStart := wMax - wStart;
      var deficitEnd := deficitStart * math.exp(-t / tauRec);
      Min(wMax, wMax - deficitEnd)
  }

  /** Depletion never raises the reserve and never takes it below 0. */
  lemma DepletionBounds(p: real, t: real, wStart: real, cp: real, wMax: real, tauRec: real, math: Elementary)
    requires tauRec != 0.0 && Max(p, 0.1) > cp
    requires t >= 0.0 && wStart >= 0.0
    ensures 0.0 <= CalculateWPrime(p, t, wStart, cp, wMax, tauRec, math) <= wStart
  {
    var pc := Max(p, 0.1);
    assert (pc - cp) * t >= 0.0;
  }

  /** Recovery never lowers the reserve and never takes it above W′max. */
  lemma RecoveryBounds(p: real, t: real, wStart: real, cp: real, wMax: real, tauRec: real, math: Elementary)
    requires tauRec > 0.0 && Max(p, 0.1) <= cp
    requires t >= 0.0 && 0.0 <= wStart <= wMax
    requires ExpDecays(math)
    ensures wStart <= CalculateWPrime(p, t, wStart, cp, wMax, tauRec, math) <= wMax
  {
    var x := -t / tauRec;
    assert x <= 0.0 by { assert t / tauRec >= 0.0; }
    var e := math.exp(x);
    assert 0.0 < e <= 1.0;
    var d := wMax - wStart;
    assert 0.0 <= d * e <= d by {
      MulMonotone(d, e, 1.0);
      MulMonotone(d, 0.0, e);
    }
    assert CalculateWPrime(p, t, wStart, cp, wMax, tauRec, math) == Min(wMax, wMax - d * e);
  }

  /** W′ stays within [0, W′max] across one step, whichever branch applies. */
  lemma WPrimeStaysInRange(p: real, t: real, wStart: real, cp: real, wMax: real, tauRec: real, math: Elementary)
    requires tauRec > 0.0 && t >= 0.0 && 0.0 <= wStart <= wMax
    requires ExpDecays(math)
    ensures 0.0 <= CalculateWPrime(p, t, wStart, cp, wMax, tauRec, math) <= wMax
  {
    if Max(p, 0.1) > cp {
      DepletionBounds(p, t, wStart, cp, wMax, tauRec, math);
    } else {
      RecoveryBounds(p, t, wStart, cp, wMax, tauRec, math);
    }
  }
}
