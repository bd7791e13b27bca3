/** Arithmetic shared by every module of the model: the JavaScript `Math`
    operations the program uses, sums and means of real sequences, decimal
    rendering of integers, and the transcendental functions the program calls,
    which are kept abstract. */
module Numeric {

  datatype Option<T> = None | Some(value: T)

  datatype Result<T, E> = Success(value: T) | Failure(error: E)

  /** `Math.abs` */
  function Abs(x: real): (r: real)
    ensures r >= 0.0 && (r == x || r == -x)
  {
    if x < 0.0 then -x else x
  }

  /** `x || d` on a number that may be missing: a missing value or 0 selects d. */
  function OrDefault(x: Option<real>, d: real): (r: real)
    ensures x.Some? && x.value != 0.0 ==> r == x.value
    ensures x.None? || x.value == 0.0 ==> r == d
  {
    if x.Some? && x.value != 0.0 then x.value else d
  }

  /** `Math.max` of two numbers */
  function Max(a: real, b: real): (r: real)
    ensures r >= a && r >= b && (r == a || r == b)
  {
    if a >= b then a else b
  }

  /** A floor keeps the order of the values it is applied to. */
  lemma MaxMonotone(c: real, x: real, y: real)
    requires x <= y
    ensures Max(c, x) <= Max(c, y)
  {
  }

  /** v lies between lo and hi per unit of t: lo·t ≤ v ≤ hi·t. */
  predicate Within(lo: real, hi: real, t: real, v: real)
  {
    lo * t <= v <= hi * t
  }

  /** A quotient by a positive divisor keeps the bounds of the dividend. */
  lemma QuotientBounds(w: real, t: real, lo: real, hi: real)
    requires t > 0.0 && Within(lo, hi, t, w)
    ensures lo <= w / t <= hi
  {
    var a := w / t;
    assert a * t == w;
  }

  /** A total divided by a positive weight, or 0 without weight. */
  function GuardedRatio(w: real, t: real): real
  {
    if t > 0.0 then w / t else 0.0
  }

  /** The guarded ratio lies between the bounds the total keeps per unit of
      weight. */
  lemma GuardedRatioBounds(w: real, t: real, lo: real, hi: real)
    requires Within(lo, hi, t, w)
    ensures t > 0.0 ==> lo <= GuardedRatio(w, t) <= hi
  {
    if t > 0.0 {
      QuotientBounds(w, t, lo, hi);
    }
  }

  /** Two totals each within the bounds per unit of their weights add up to
      a total within the bounds per unit of the summed weight. */
  lemma AddBounds(lo: real, hi: real, t1: real, v1: real, t2: real, v2: real, t: real, v: real)
    requires Within(lo, hi, t1, v1) && Within(lo, hi, t2, v2)
    requires t == t1 + t2 && v == v1 + v2
    ensures Within(lo, hi, t, v)
  {
  }

  /** `a + (b - a) * t`: linear interpolation from a to b. */
  function Interpolate(a: real, b: real, t: real): real
  {
    a + (b - a) * t
  }

  /** Interpolation with a fraction in [0, 1] stays between its ends. */
  lemma LerpBetween(a: real, b: real, t: real)
    requires 0.0 <= t <= 1.0
    ensures Min(a, b) <= Interpolate(a, b, t) <= Max(a, b)
  {
    if a <= b {
      LerpRising(a, b, t);
    } else {
      LerpFalling(a, b, t);
    }
  }

  lemma LerpRising(a: real, b: real, t: real)
    requires 0.0 <= t <= 1.0 && a <= b
    ensures a <= Interpolate(a, b, t) <= b
  {
    MulNonneg(b - a, t);
    MulNonneg(b - a, 1.0 - t);
  }

  lemma LerpFalling(a: real, b: real, t: real)
    requires 0.0 <= t <= 1.0 && b < a
    ensures b <= Interpolate(a, b, t) <= a
  {
    MulNonneg(a - b, t);
    MulNonneg(a - b, 1.0 - t);
  }

  lemma MulNonneg(x: real, y: real)
    requires x >= 0.0 && y >= 0.0
    ensures x * y >= 0.0
  {
  }

  /** `Math.min` of two numbers */
  function Min(a: real, b: real): (r: real)
    ensures r <= a && r <= b && (r == a || r == b)
  {
    if a <= b then a else b
  }

  function MaxInt(a: int, b: int): (r: int)
    ensures r >= a && r >= b && (r == a || r == b)
  {
    if a >= b then a else b
  }

  function MinInt(a: int, b: int): (r: int)
    ensures r <= a && r <= b && (r == a || r == b)
  {
    if a <= b then a else b
  }

  /** `Math.sign` on a finite number */
  function Sign(x: real): (r: real)
    ensures r * x == Abs(x)
    ensures r == 0.0 || r == 1.0 || r == -1.0
  {
    if x > 0.0 then 1.0 else if x < 0.0 then -1.0 else 0.0
  }

  /** `Math.floor` on a finite number */
  function Floor(x: real): (r: int)
    ensures r as real <= x < r as real + 1.0
  {
    x.Floor
  }

  /** `Math.round` on a finite number: the nearest integer, halves go up. */
  function Round(x: real): (r: int)
    ensures x - 0.5 < r as real <= x + 0.5
  {
    (x + 0.5).Floor
  }

  /** Truncation toward zero, the integer part JavaScript's `%` keeps. */
  function Trunc(x: real): (r: int)
    ensures Abs(r as real) <= Abs(x) < Abs(r as real) + 1.0
    ensures x >= 0.0 ==> r >= 0
    ensures x <= 0.0 ==> r <= 0
  {
    if x >= 0.0 then x.Floor else -((-x).Floor)
  }

  /** JavaScript's `%` on numbers: the remainder takes the sign of the dividend. */
  function JsMod(x: real, m: real): (r: real)
    requires m != 0.0
    ensures x >= 0.0 && m > 0.0 ==> 0.0 <= r < m
  {
    var q := Trunc(x / m) as real;
    if x >= 0.0 && m > 0.0 then
      FloorRemainder(x, m, q);
      x - m * q
    else
      x - m * q
  }

  lemma FloorRemainder(x: real, m: real, q: real)
    requires x >= 0.0 && m > 0.0 && q == Trunc(x / m) as real
    ensures 0.0 <= x - m * q < m
  {
    assert x / m >= 0.0;
    Quotient(x, m, q);
  }

  /** q <= x / m < q + 1 multiplied out by a positive m. */
  lemma Quotient(x: real, m: real, q: real)
    requires m > 0.0 && q <= x / m < q + 1.0
    ensures m * q <= x < m * q + m
  {
    var y := x / m;
    ScaleBounds(y, q, m);
    calc {
      x;
    ==
      m * y;
    <
      m * q + m;
    }
  }

  lemma ScaleBounds(y: real, q: real, m: real)
    requires m > 0.0 && q <= y < q + 1.0
    ensures m * q <= m * y < m * q + m
  {
  }

  lemma {:induction false} JsModIsFloorMod(x: real, m: real)
    requires x >= 0.0 && m > 0.0
    ensures JsMod(x, m) == x - m * Floor(x / m) as real
  {
    assert x / m >= 0.0;
  }

  /** Left-to-right sum, the order in which an accumulator loop adds. */
  function Sum(s: seq<real>): real
  {
    if |s| == 0 then 0.0 else Sum(s[..|s| - 1]) + s[|s| - 1]
  }

  lemma {:induction false} SumAppend(a: seq<real>, b: seq<real>)
    ensures Sum(a + b) == Sum(a) + Sum(b)
    decreases |b|
  {
    if |b| == 0 {
      assert a + b == a;
    } else {
      assert (a + b)[..|a + b| - 1] == a + b[..|b| - 1];
      SumAppend(a, b[..|b| - 1]);
    }
  }

  lemma {:induction false} SumBounds(s: seq<real>, lo: real, hi: real)
    requires forall i :: 0 <= i < |s| ==> lo <= s[i] <= hi
    ensures |s| as real * lo <= Sum(s) <= |s| as real * hi
  {
    if |s| > 0 {
      SumBounds(s[..|s| - 1], lo, hi);
    }
  }

  /** Arithmetic mean of a non-empty sequence. */
  function Mean(s: seq<real>): real
    requires |s| > 0
  {
    Sum(s) / |s| as real
  }

  lemma MeanBounds(s: seq<real>, lo: real, hi: real)
    requires |s| > 0
    requires forall i :: 0 <= i < |s| ==> lo <= s[i] <= hi
    ensures lo <= Mean(s) <= hi
  {
    SumBounds(s, lo, hi);
    var n := |s| as real;
    assert Sum(s) / n >= lo by { assert Sum(s) >= n * lo; }
    assert Sum(s) / n <= hi by { assert Sum(s) <= n * hi; }
  }

  /** Mean of s over the indices lo .. hi clamped to the indices of s, or 0
      when the clamped range is empty. */
  function ClampedMean(s: seq<real>, lo: int, hi: int): real
  {
    var a := MaxInt(0, lo);
    var b := MinInt(|s| - 1, hi);
    if a <= b then Mean(s[a..b + 1]) else 0.0
  }

  /** Mean of s over the window [i - r, i + r] clamped to the indices of s,
      or 0 when the clamped window is empty (r < 0). */
  function WindowMean(s: seq<real>, i: int, r: int): real
  {
    ClampedMean(s, i - r, i + r)
  }

  /** A clamped mean lies between any bounds on the values in its range. */
  lemma ClampedMeanBounds(s: seq<real>, lo: int, hi: int, low: real, high: real)
    requires MaxInt(0, lo) <= MinInt(|s| - 1, hi)
    requires forall j :: MaxInt(0, lo) <= j <= MinInt(|s| - 1, hi) ==> low <= s[j] <= high
    ensures low <= ClampedMean(s, lo, hi) <= high
  {
    var a := MaxInt(0, lo);
    var b := MinInt(|s| - 1, hi);
    var w := s[a..b + 1];
    assert forall k :: 0 <= k < |w| ==> w[k] == s[a + k];
    MeanBounds(w, low, high);
  }

  /** A window mean lies between any bounds on the values in its window. */
  lemma WindowMeanBounds(s: seq<real>, i: int, r: int, lo: real, hi: real)
    requires 0 <= i < |s| && r >= 0
    requires forall j :: MaxInt(0, i - r) <= j <= MinInt(|s| - 1, i + r) ==> lo <= s[j] <= hi
    ensures lo <= WindowMean(s, i, r) <= hi
  {
    ClampedMeanBounds(s, i - r, i + r, lo, hi);
  }

  /** The accumulator loop shared by the moving averages of the program: sum
      and count s[j] for j from max(0, lo) to min(|s| - 1, hi), then divide. */
  method MeanOver(s: seq<real>, lo: int, hi: int) returns (mean: real)
    ensures mean == ClampedMean(s, lo, hi)
  {
    var start := MaxInt(0, lo);
    var end := MinInt(|s| - 1, hi);
    var sum := 0.0;
    var count := 0;
    var j := start;
    while j <= end
      invariant start <= end ==> start <= j <= end + 1 && count == j - start && sum == Sum(s[start..j])
      invariant start > end ==> j == start && count == 0 && sum == 0.0
    {
      assert s[start..j + 1][..j - start] == s[start..j];
      sum := sum + s[j];
      count := count + 1;
      j := j + 1;
    }
    if start <= end {
      assert s[start..j] == s[start..end + 1];
    }
    mean := if count > 0 then sum / count as real else 0.0;
  }

  /** Decimal digits of a natural number, as `String(n)` prints it. */
  function NatToString(n: nat): (s: string)
    ensures |s| >= 1
    ensures forall i :: 0 <= i < |s| ==> '0' <= s[i] <= '9'
    ensures n < 10 <==> |s| == 1
  {
    if n < 10 then [Digit(n)] else NatToString(n / 10) + [Digit(n % 10)]
  }

  function Digit(d: nat): (c: char)
    requires d < 10
    ensures '0' <= c <= '9'
  {
    ['0', '1', '2', '3', '4', '5', '6', '7', '8', '9'][d]
  }

  /** `String(i)` for an integer. */
  function IntToString(i: int): string
  {
    if i < 0 then "-" + NatToString(-i) else NatToString(i)
  }

  /** `String.prototype.padStart(2, '0')` */
  function PadTwo(s: string): (r: string)
    ensures |r| >= 2 && |r| >= |s| && r[|r| - |s|..] == s
  {
    if |s| == 0 then "00" else if |s| == 1 then "0" + s else s
  }

  /** The transcendental functions the program calls. They are parameters of
      the model, never defined: each property that needs one of their facts
      states that fact as a precondition (see ExpDecays, Root4Inverts). */
  datatype Elementary = Elementary(
    atan: real -> real,
    sin: real -> real,
    cos: real -> real,
    exp: real -> real,
    root4: real -> real,                   // Math.pow(x, 0.25)
    haversine: (real, real, real, real) -> real  // metrics.js `distance`
  )

  /** exp(x) lies in (0, 1] for x <= 0. */
  ghost predicate ExpDecays(m: Elementary)
  {
    forall x :: x <= 0.0 ==> 0.0 < m.exp(x) <= 1.0
  }

  /** pow(y^4, 0.25) == y for y >= 0. */
  ghost predicate Root4Inverts(m: Elementary)
  {
    forall y :: y >= 0.0 ==> m.root4(Pow4(y)) == y
  }

  function Pow4(y: real): (r: real)
    ensures r >= 0.0
  {
    (y * y) * (y * y)
  }

  /** Great-circle distances are never negative. */
  ghost predicate HaversineNonNegative(m: Elementary)
  {
    forall a, b, c, d :: m.haversine(a, b, c, d) >= 0.0
  }
}
