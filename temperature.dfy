/**
 * The temperature side of App.jsx: the clamp helper, the mapping of a Celsius
 * reading onto [0, 1], the per-frame parameters derived from it, the
 * exponential smoothing of the reading and the case split of the temperature
 * display. JavaScript numbers are modelled as unbounded reals; `NaN` and
 * "not a number at all" are explicit cases of `TempValue`.
 */
module Temperature {

  /** Celsius reading at or below which a press plays the cold click. */
  const SoundThresholdC: real := 12.0
  /** Celsius reading that maps to 0. */
  const ColdRefC: real := -20.0
  /** Celsius reading that maps to 1. */
  const WarmRefC: real := 40.0
  /** Reading assumed before any lookup has resolved, and the fallback target of the smoother. */
  const DefaultTempC: real := 20.0
  /** Fraction of the remaining gap the smoothed value covers per frame. */
  const SmoothingFactor: real := 0.04

  /** A temperature as the page holds it: `null`/non-number, `NaN`, or a finite number. */
  datatype TempValue = Missing | NaN | Celsius(c: real)

  /** `typeof v === "number"`: true for `NaN` too. */
  predicate IsNumber(v: TempValue) {
    !v.Missing?
  }

  function Min(a: real, b: real): real {
    if a <= b then a else b
  }

  function Max(a: real, b: real): real {
    if a <= b then b else a
  }

  function Abs(x: real): real {
    if x < 0.0 then -x else x
  }

  /** `Math.max(lo, Math.min(hi, v))`. */
  function Clamp(v: real, lo: real, hi: real): (r: real)
    ensures lo <= r
    ensures lo <= hi ==> r <= hi
    ensures lo <= v <= hi ==> r == v
    ensures v <= lo ==> r == lo
    ensures lo <= hi <= v ==> r == hi
    ensures hi < lo ==> r == lo
  {
    Max(lo, Min(hi, v))
  }

  /** Position of a Celsius reading between -20 and 40, saturating outside. */
  function Temp01(c: real): (u: real)
    ensures 0.0 <= u <= 1.0
    ensures c <= ColdRefC ==> u == 0.0
    ensures c >= WarmRefC ==> u == 1.0
    ensures ColdRefC <= c <= WarmRefC ==> u * (WarmRefC - ColdRefC) == c - ColdRefC
  {
    Clamp((c + 20.0) / 60.0, 0.0, 1.0)
  }

  /** Warmer readings never map lower. */
  lemma Temp01Monotone(a: real, b: real)
    requires a <= b
    ensures Temp01(a) <= Temp01(b)
  {
  }

  /** The reference points of the scale: -20 and 40 are its ends, 10 its middle. */
  lemma Temp01Points()
    ensures Temp01(-20.0) == 0.0
    ensures Temp01(40.0) == 1.0
    ensures Temp01(10.0) == 0.5
  {
  }

  /** Every point of [0, 1] is reached, by the reading it names on the scale. */
  lemma Temp01RoundTrip(u: real)
    requires 0.0 <= u <= 1.0
    ensures Temp01(ColdRefC + u * (WarmRefC - ColdRefC)) == u
  {
  }

  /** The per-frame values the draw loop derives from the normalised temperature. */
  datatype FrameParams = FrameParams(
    warmth: real,         // uT
    speed: real,          // time scale of the animation
    ampBase: real,        // base noise amplitude
    spin: real,           // rotation per frame
    ambientVolume: real)  // volume given to the ambient loop

  /** What one frame derives from the smoothed temperature. */
  function Frame(smoothed: real): (f: FrameParams)
    ensures f.warmth == Temp01(smoothed)
    ensures 0.12 <= f.speed <= 2.37
    ensures 18.0 <= f.ampBase <= 70.0
    ensures 0.0008 <= f.spin <= 0.0033
    ensures 0.22 <= f.ambientVolume <= 0.47
    ensures smoothed <= ColdRefC ==> f == FrameParams(0.0, 0.12, 18.0, 0.0008, 0.22)
    ensures smoothed >= WarmRefC ==> f == FrameParams(1.0, 2.37, 70.0, 0.0033, 0.47)
  {
    var uT := Temp01(smoothed);
    FrameParams(uT, 0.12 + uT * 2.25, 18.0 + uT * 52.0, 0.0008 + uT * 0.0025, 0.22 + uT * 0.25)
  }

  /** A warmer smoothed temperature never gives a slower, calmer or quieter frame. */
  lemma FrameMonotone(a: real, b: real)
    requires a <= b
    ensures Frame(a).speed <= Frame(b).speed
    ensures Frame(a).ampBase <= Frame(b).ampBase
    ensures Frame(a).spin <= Frame(b).spin
    ensures Frame(a).ambientVolume <= Frame(b).ambientVolume
  {
    Temp01Monotone(a, b);
  }

  /** The value the smoother moves toward: the stored reading if it is a number, else 20. */
  function SmoothTarget(v: TempValue): (t: real)
    requires !v.NaN?
    ensures IsNumber(v) ==> t == v.c
    ensures !IsNumber(v) ==> t == DefaultTempC
  {
    match v
    case Celsius(c) => c
    case Missing => DefaultTempC
  }

  /** One frame of smoothing: move 4% of the way from `s` toward `target`. */
  function SmoothStep(s: real, target: real): (r: real)
    ensures s <= target ==> s <= r <= target
    ensures target <= s ==> target <= r <= s
    ensures r == s <==> s == target
    ensures s != target ==> Abs(target - r) < Abs(target - s)
  {
    s + (target - s) * SmoothingFactor
  }

  /** The smoothed value after `n` frames toward a fixed target. */
  function Smoothed(s: real, target: real, n: nat): real
    decreases n
  {
    if n == 0 then s else SmoothStep(Smoothed(s, target, n - 1), target)
  }

  function Pow(x: real, n: nat): real
    decreases n
  {
    if n == 0 then 1.0 else x * Pow(x, n - 1)
  }

  /** The remaining gap shrinks geometrically, by a factor 0.96 per frame. */
  lemma {:induction false} SmoothedGap(s: real, target: real, n: nat)
    ensures target - Smoothed(s, target, n) == Pow(1.0 - SmoothingFactor, n) * (target - s)
    decreases n
  {
    if n > 0 {
      SmoothedGap(s, target, n - 1);
      var prev := Smoothed(s, target, n - 1);
      var p := Pow(1.0 - SmoothingFactor, n - 1);
      var g := target - s;
      assert target - Smoothed(s, target, n) == (target - prev) * 0.96;
      MulAssoc(p, g, 0.96);
    }
  }

  lemma MulAssoc(p: real, g: real, c: real)
    ensures (p * g) * c == (c * p) * g
  {
  }

  /** However many frames pass, the smoothed value stays between its start and the target. */
  lemma {:induction false} SmoothedBetween(s: real, target: real, n: nat)
    ensures s <= target ==> s <= Smoothed(s, target, n) <= target
    ensures target <= s ==> target <= Smoothed(s, target, n) <= s
    decreases n
  {
    if n > 0 {
      SmoothedBetween(s, target, n - 1);
    }
  }

  /** What the temperature field of the page shows: the en dash, or a reading in degrees. */
  datatype Display = Dash | Degrees(c: real)

  /** A null or NaN temperature shows the dash; any other shows the reading itself. */
  function TempDisplay(t: TempValue): (d: Display)
    ensures d == Dash <==> t.Missing? || t.NaN?
    ensures t.Celsius? ==> d == Degrees(t.c)
  {
    if t.Missing? || t.NaN? then Dash else Degrees(t.c)
  }
}
