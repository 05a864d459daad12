/**
  The waveform library: the `calc(time)` of every periodic flashing pattern, as
  pure functions of the pattern's period and of the time within the period.
  Intensities are exact rationals; JavaScript numbers are doubles, so the model
  is the exact value that the double arithmetic approximates.
 */
module Waveforms {

  /** PWM_MAX: the duty cycle of a fully lit LED. */
  const PwmMax: int := 1000000
  /** PWM_MAX as an intensity. */
  const Max: real := 1000000.0
  /** INTERVAL: the tick of every pattern timer, in milliseconds. */
  const Interval: int := 15
  /** The fixed period of the SyncMusic choreography. */
  const SyncMusicPeriod: int := 163000

  /** JavaScript's `%` on integers: the remainder takes the sign of the dividend. */
  function JsRem(a: int, b: int): (r: int)
    requires 0 < b
    ensures 0 <= a ==> 0 <= r < b
    ensures a < 0 ==> -b < r <= 0
    ensures 0 <= a ==> r == a % b
    ensures (a - r) % b == 0
  {
    if 0 <= a then
      var m, q := a % b, a / b;
      assert a == q * b + m;
      DivExact(a - m, b, q);
      m
    else
      var m, q := (-a) % b, (-a) / b;
      assert -a == q * b + m;
      assert (-q) * b == -(q * b);
      DivExact(a + m, b, -q);
      -m
  }

  lemma MulGrows(d: int, p: int)
    requires 1 <= d && 0 < p
    ensures p <= d * p
  {
    var e := d - 1;
    assert d * p == e * p + p;
    assert 0 <= e * p;
  }

  /** The remainder is determined by any quotient/remainder split of the dividend. */
  lemma ModUnique(y: int, p: int, k: int, r: int)
    requires 0 < p && y == k * p + r && 0 <= r < p
    ensures y % p == r
  {
    var q, s := y / p, y % p;
    assert y == q * p + s;
    var d := k - q;
    assert d * p == s - r by {
      assert k * p - q * p == d * p;
    }
    if d >= 1 {
      MulGrows(d, p);
    } else if d <= -1 {
      MulGrows(-d, p);
    }
  }

  /** An exact multiple divides with no remainder. */
  lemma DivExact(y: int, p: int, k: int)
    requires 0 < p && y == k * p
    ensures y % p == 0 && y / p == k
  {
    ModUnique(y, p, k, 0);
    assert y == (y / p) * p + y % p;
    var d := y / p - k;
    assert d * p == 0 by {
      assert (y / p) * p - k * p == d * p;
    }
  }

  /** JavaScript's Math.round: the nearest integer, a half rounded up. */
  function Round(x: real): (r: int)
    ensures r as real - 0.5 <= x < r as real + 0.5
  {
    (x + 0.5).Floor
  }

  /** The periodic shapes; each but SyncMusic carries the period its constructor was given. */
  datatype Shape =
    | Linear(period: int)
    | LinearAndKeep(period: int)
    | Parabola1(period: int)
    | Parabola2(period: int)
    | Flash3(period: int)
    | Half(period: int)
    | SyncMusic

  function Period(s: Shape): int
  {
    if s.SyncMusic? then SyncMusicPeriod else s.period
  }

  /** A shape whose constants can be computed: division by the period is defined. */
  predicate WellFormed(s: Shape)
  {
    0 < Period(s)
  }

  // ----- Linear: a triangle wave peaking at P/2 -----

  function LinearSlope(period: int): real
    requires 0 < period
  {
    Max * 2.0 / period as real
  }

  function LinearCalc(period: int, t: real): real
    requires 0 < period
  {
    if t < period as real / 2.0 then LinearSlope(period) * t
    else Max * 2.0 - LinearSlope(period) * t
  }

  // ----- LinearAndKeep: ramp up, hold, ramp down, dark; four quarters -----

  function ChangingPeriod(period: int): real
  {
    period as real / 4.0
  }

  function KeepSlope(period: int): real
    requires 0 < period
  {
    Max / ChangingPeriod(period)
  }

  function LinearAndKeepCalc(period: int, t: real): real
    requires 0 < period
  {
    var c := ChangingPeriod(period);
    if t < c then KeepSlope(period) * t
    else if t < c * 2.0 then Max
    else if t < c * 3.0 then Max * 3.0 - KeepSlope(period) * t
    else 0.0
  }

  // ----- Parabola1 and Parabola2 -----

  function HalfPeriod(period: int): real
  {
    period as real / 2.0
  }

  function Parabola1Calc(period: int, t: real): real
    requires 0 < period
  {
    var h := HalfPeriod(period);
    -Max * t * (t - period as real) / (h * h)
  }

  function Parabola2Calc(period: int, t: real): real
    requires 0 < period
  {
    var u := t / HalfPeriod(period) - 1.0;
    Max * (u * u)
  }

  // ----- Flash3: three pulses of width P/15 starting at 0, P/8 and P/4 -----

  function FlashingDuration(period: int): real
  {
    period as real / 15.0
  }

  /** Start of the k-th pulse window (period1Start, period2Start, period3Start). */
  function FlashStart(period: int, k: nat): real
    requires k < 3
  {
    if k == 0 then 0.0 else if k == 1 then period as real / 8.0 else period as real / 4.0
  }

  /** End (exclusive) of the k-th pulse window. */
  function FlashEnd(period: int, k: nat): real
    requires k < 3
  {
    FlashStart(period, k) + FlashingDuration(period)
  }

  predicate InFlash(period: int, k: nat, t: real)
    requires k < 3
  {
    FlashStart(period, k) <= t && t < FlashEnd(period, k)
  }

  function Flash3Calc(period: int, t: real): real
  {
    if InFlash(period, 0, t) || InFlash(period, 1, t) || InFlash(period, 2, t) then Max else 0.0
  }

  // ----- Half: a square wave -----

  function HalfCalc(period: int, t: real): real
  {
    if t < HalfPeriod(period) then Max else 0.0
  }

  // ----- SyncMusic: a fixed choreography built from sub-patterns -----

  /**
    What SyncMusic does at time t: stay dark, stay lit, or delegate to the
    `calc` of one of its sub-patterns (linear1 = Linear(4000), half = Half(200),
    linear2 = Linear(5400)) with the argument it passes.
   */
  datatype Piece = Dark | Lit | Delegate(sub: Shape, arg: int)

  function SyncMusicPiece(t: int): (p: Piece)
    ensures p.Delegate? ==> !p.sub.SyncMusic? && WellFormed(p.sub) && 0 <= p.arg < Period(p.sub)
  {
    if t < 3600 then Dark
    else if t < 11600 then Delegate(Linear(4000), JsRem(t - 3600, 4000))
    else if t < 14000 then Dark
    else if t < 16000 then Delegate(Linear(4000), JsRem(t - 14000, 4000))
    else if t < 18500 then Delegate(Half(200), JsRem(t - 16000, 200))
    else if t < 20500 then Lit
    else if t < 23200 then Delegate(Linear(5400), JsRem(t - 17800, 5400))
    else Lit
  }

  /** The `calc` of every shape but SyncMusic, at a real time. */
  function BasicCalc(s: Shape, t: real): real
    requires !s.SyncMusic? && WellFormed(s)
  {
    match s
    case Linear(p) => LinearCalc(p, t)
    case LinearAndKeep(p) => LinearAndKeepCalc(p, t)
    case Parabola1(p) => Parabola1Calc(p, t)
    case Parabola2(p) => Parabola2Calc(p, t)
    case Flash3(p) => Flash3Calc(p, t)
    case Half(p) => HalfCalc(p, t)
  }

  function SyncMusicCalc(t: int): real
  {
    match SyncMusicPiece(t)
    case Dark => 0.0
    case Lit => Max
    case Delegate(sub, arg) => BasicCalc(sub, arg as real)
  }

  /** The `calc` a running pattern is asked for at its (integer) phase. */
  function Calc(s: Shape, t: int): real
    requires WellFormed(s)
  {
    if s.SyncMusic? then SyncMusicCalc(t) else BasicCalc(s, t as real)
  }

  /** The value written to the pin on a tick: Math.round(calc(time)). */
  function TickValue(s: Shape, t: int): int
    requires WellFormed(s)
  {
    Round(Calc(s, t))
  }

  // ===== Lemmas =====

  lemma RoundInRange(x: real)
    requires 0.0 <= x <= Max
    ensures 0 <= Round(x) <= PwmMax
  {
  }

  lemma LinearInRange(period: int, t: real)
    requires 0 < period && 0.0 <= t < period as real
    ensures 0.0 <= LinearCalc(period, t) <= Max
  {
    var s := LinearSlope(period);
    var p := period as real;
    assert s * p == Max * 2.0;
    if t < p / 2.0 {
      assert s * t <= s * (p / 2.0);
    } else {
      assert s * t < s * p;
      assert s * (p / 2.0) <= s * t;
    }
  }

  lemma LinearEnds(period: int)
    requires 0 < period
    ensures LinearCalc(period, 0.0) == 0.0
    ensures LinearCalc(period, period as real / 2.0) == Max
    ensures LinearCalc(period, period as real) == 0.0
  {
    var s := LinearSlope(period);
    var p := period as real;
    assert s * p == Max * 2.0;
    assert s * (p / 2.0) == Max;
  }

  lemma LinearRisesThenFalls(period: int, x: real, y: real)
    requires 0 < period && x < y
    ensures y < period as real / 2.0 ==> LinearCalc(period, x) < LinearCalc(period, y)
    ensures period as real / 2.0 <= x ==> LinearCalc(period, x) > LinearCalc(period, y)
  {
    var s := LinearSlope(period);
    assert 0.0 < s;
    assert s * x < s * y;
  }

  /** The triangle is symmetric about P/2. */
  lemma LinearSymmetric(period: int, t: real)
    requires 0 < period
    ensures LinearCalc(period, t) == LinearCalc(period, period as real - t)
  {
    var s := LinearSlope(period);
    var p := period as real;
    assert s * p == Max * 2.0;
    assert s * (p - t) == s * p - s * t;
  }

  lemma LinearAndKeepInRange(period: int, t: real)
    requires 0 < period && 0.0 <= t < period as real
    ensures 0.0 <= LinearAndKeepCalc(period, t) <= Max
  {
    var c := ChangingPeriod(period);
    var s := KeepSlope(period);
    assert s * c == Max;
    if t < c {
      assert s * t <= s * c;
    } else if t < c * 2.0 {
    } else if t < c * 3.0 {
      assert s * (c * 2.0) <= s * t < s * (c * 3.0);
    }
  }

  /** The second quarter holds full brightness, the last quarter (and beyond) is dark. */
  lemma LinearAndKeepPlateaus(period: int, t: real)
    requires 0 < period
    ensures ChangingPeriod(period) <= t < HalfPeriod(period) ==> LinearAndKeepCalc(period, t) == Max
    ensures 3.0 * ChangingPeriod(period) <= t ==> LinearAndKeepCalc(period, t) == 0.0
  {
    var c := ChangingPeriod(period);
    assert HalfPeriod(period) == c * 2.0;
    assert 3.0 * c == c * 3.0;
  }

  /** The descent `3·MAX − slope·t` is MAX at P/2 and would reach 0 exactly at 3P/4. */
  lemma LinearAndKeepDescentMeets(period: int)
    requires 0 < period
    ensures LinearAndKeepCalc(period, HalfPeriod(period)) == Max
    ensures Max * 3.0 - KeepSlope(period) * (3.0 * ChangingPeriod(period)) == 0.0
    ensures LinearAndKeepCalc(period, 0.0) == 0.0
  {
    var c := ChangingPeriod(period);
    assert KeepSlope(period) * c == Max;
    assert HalfPeriod(period) == c * 2.0;
  }

  lemma SquareNonNegative(x: real)
    ensures 0.0 <= x * x
  {
    if x < 0.0 {
      assert x * x == (-x) * (-x);
    }
  }

  lemma Parabola1InRange(period: int, t: real)
    requires 0 < period && 0.0 <= t <= period as real
    ensures 0.0 <= Parabola1Calc(period, t) <= Max
  {
    var h := HalfPeriod(period);
    var p := period as real;
    var q := t * (p - t);
    assert 0.0 <= q;
    assert p == 2.0 * h;
    assert h * h - q == (t - h) * (t - h);
    SquareNonNegative(t - h);
    assert q <= h * h;
    var d := h * h;
    var n := -Max * t * (t - p);
    assert Parabola1Calc(period, t) == n / d;
    assert n == Max * q;
    QuotientBounds(n, d, Max);
  }

  lemma Parabola1Shape(period: int, t: real)
    requires 0 < period
    ensures Parabola1Calc(period, 0.0) == 0.0
    ensures Parabola1Calc(period, period as real) == 0.0
    ensures Parabola1Calc(period, HalfPeriod(period)) == Max
    ensures Parabola1Calc(period, t) == Parabola1Calc(period, period as real - t)
  {
    var h := HalfPeriod(period);
    var p := period as real;
    assert p == 2.0 * h && 0.0 < h * h;
    assert -Max * h * (h - p) == Max * (h * h);
    assert Max * (h * h) / (h * h) == Max;
    assert -Max * t * (t - p) == -Max * (p - t) * ((p - t) - p);
  }

  /** A factor of a non-negative product with a positive factor is non-negative. */
  lemma FactorSign(x: real, h: real)
    requires 0.0 < h && 0.0 <= x * h
    ensures 0.0 <= x
  {
  }

  /** A quotient of something in [0, m·d] by a positive d lies in [0, m]. */
  lemma QuotientBounds(x: real, d: real, m: real)
    requires 0.0 < d && 0.0 <= x <= m * d
    ensures 0.0 <= x / d <= m
  {
    var q := x / d;
    assert q * d == x;
    FactorSign(q, d);
    assert (m - q) * d == m * d - x;
    FactorSign(m - q, d);
  }

  lemma Parabola2InRange(period: int, t: real)
    requires 0 < period && 0.0 <= t <= period as real
    ensures 0.0 <= Parabola2Calc(period, t) <= Max
  {
    var h := HalfPeriod(period);
    var q := t / h;
    QuotientBounds(t, h, 2.0);
    var u := q - 1.0;
    assert -1.0 <= u <= 1.0;
    assert u * u <= 1.0;
  }

  lemma Parabola2Shape(period: int)
    requires 0 < period
    ensures Parabola2Calc(period, HalfPeriod(period)) == 0.0
    ensures Parabola2Calc(period, 0.0) == Max
    ensures Parabola2Calc(period, period as real) == Max
  {
    var h := HalfPeriod(period);
    assert period as real / h == 2.0;
  }

  /** Flash3 is a two-level signal: lit exactly inside one of the three windows. */
  lemma Flash3Levels(period: int, t: real)
    ensures Flash3Calc(period, t) == Max || Flash3Calc(period, t) == 0.0
    ensures Flash3Calc(period, t) == Max <==> exists k :: 0 <= k < 3 && InFlash(period, k, t)
  {
    if Flash3Calc(period, t) == Max {
      var k :| 0 <= k < 3 && InFlash(period, k, t);
    }
  }

  /** The three windows follow one another without overlapping. */
  lemma Flash3WindowsDisjoint(period: int, j: nat, k: nat)
    requires 0 < period && j < k < 3
    ensures FlashEnd(period, j) < FlashStart(period, k)
    ensures forall t: real :: !(InFlash(period, j, t) && InFlash(period, k, t))
  {
  }

  lemma HalfIsSquare(period: int, t: real)
    ensures HalfCalc(period, t) == Max <==> t < period as real / 2.0
    ensures HalfCalc(period, t) == 0.0 <==> !(t < period as real / 2.0)
  {
  }

  lemma BasicInRange(s: Shape, t: real)
    requires !s.SyncMusic? && WellFormed(s) && 0.0 <= t < Period(s) as real
    ensures 0.0 <= BasicCalc(s, t) <= Max
  {
    match s
    case Linear(p) => LinearInRange(p, t);
    case LinearAndKeep(p) => LinearAndKeepInRange(p, t);
    case Parabola1(p) => Parabola1InRange(p, t);
    case Parabola2(p) => Parabola2InRange(p, t);
    case Flash3(p) => Flash3Levels(p, t);
    case Half(p) =>
  }

  /** SyncMusic starts dark, and is fully lit on [18500, 20500) and from 23200 on. */
  lemma SyncMusicLandmarks(t: int)
    ensures t < 3600 ==> SyncMusicCalc(t) == 0.0
    ensures 11600 <= t < 14000 ==> SyncMusicCalc(t) == 0.0
    ensures 18500 <= t < 20500 || 23200 <= t ==> SyncMusicCalc(t) == Max
  {
  }

  lemma SyncMusicInRange(t: int)
    ensures 0.0 <= SyncMusicCalc(t) <= Max
  {
    match SyncMusicPiece(t)
    case Dark =>
    case Lit =>
    case Delegate(sub, arg) => BasicInRange(sub, arg as real);
  }

  /** Every shape stays within [0, MAX] over one period. */
  lemma CalcInRange(s: Shape, t: int)
    requires WellFormed(s) && 0 <= t < Period(s)
    ensures 0.0 <= Calc(s, t) <= Max
  {
    if s.SyncMusic? {
      SyncMusicInRange(t);
    } else {
      BasicInRange(s, t as real);
    }
  }

  /** Hence every value a tick writes is a valid duty cycle. */
  lemma TickValueInRange(s: Shape, t: int)
    requires WellFormed(s) && 0 <= t < Period(s)
    ensures 0 <= TickValue(s, t) <= PwmMax
  {
    CalcInRange(s, t);
    RoundInRange(Calc(s, t));
  }
}
