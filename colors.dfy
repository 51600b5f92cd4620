/**
  Colour primitives of qr_generator.py: the RGB to HSL conversion on the
  legacy 0..240 scale and the two brightness helpers.

  Python floats are modelled by exact reals; `round` (ties to even), float
  `%` (result takes the divisor's sign) and `int()` (truncation toward zero)
  are written out as RoundHalfEven, FloatModSix and Trunc.
*/
module Colors {

  datatype Rgb = Rgb(r: int, g: int, b: int)
  datatype Rgba = Rgba(r: int, g: int, b: int, a: int)

  /** Hue, saturation and lightness, each scaled to 0..240. */
  datatype Hsl = Hsl(h: int, s: int, l: int)

  /** Unscaled HSL: hue in degrees, saturation and lightness as fractions. */
  datatype RawHsl = RawHsl(h: real, s: real, l: real)

  /** An argument of calculate_hsl_from_rgb: an int or float, or anything else. */
  datatype Scalar = Numeric(value: real) | NonNumeric

  const Black := Rgb(0, 0, 0)
  const White := Rgb(255, 255, 255)

  predicate IsByte(x: int) { 0 <= x <= 255 }

  predicate IsColor(c: Rgb) { IsByte(c.r) && IsByte(c.g) && IsByte(c.b) }

  function WithAlpha(c: Rgb, a: int): Rgba { Rgba(c.r, c.g, c.b, a) }

  /** `rgba[:3]` */
  function RgbPart(c: Rgba): Rgb { Rgb(c.r, c.g, c.b) }

  function Channels(c: Rgb): seq<int> { [c.r, c.g, c.b] }

  function Max(a: int, b: int): int { if a >= b then a else b }
  function Min(a: int, b: int): int { if a <= b then a else b }
  function MaxR(a: real, b: real): real { if a >= b then a else b }
  function MinR(a: real, b: real): real { if a <= b then a else b }
  function AbsR(a: real): real { if a >= 0.0 then a else -a }

  /** Python's `round(x)`: the nearest integer, ties going to the even one. */
  function RoundHalfEven(x: real): (n: int)
    ensures -0.5 <= n as real - x <= 0.5
    ensures (n as real - x == 0.5 || n as real - x == -0.5) ==> n % 2 == 0
  {
    var f := x.Floor;
    var d := x - f as real;
    if d < 0.5 then f
    else if d > 0.5 then f + 1
    else if f % 2 == 0 then f else f + 1
  }

  /** Python's `int(x)` on a float: truncation toward zero. */
  function Trunc(x: real): (n: int)
    ensures 0.0 <= x ==> n as real <= x < n as real + 1.0
    ensures x < 0.0 ==> n as real - 1.0 < x <= n as real
  {
    if x >= 0.0 then x.Floor else -((-x).Floor)
  }

  /** `q` sixes, as a real. */
  function Sixes(q: int): real { 6.0 * q as real }

  /** Python's float `x % 6`: the remainder in [0, 6) after taking away a whole number of sixes. */
  function FloatModSix(x: real): (r: real)
    ensures 0.0 <= r < 6.0
    ensures exists q: int :: x - r == Sixes(q)
  {
    var q := (x / 6.0).Floor;
    assert x - (x - Sixes(q)) == Sixes(q);
    x - Sixes(q)
  }

  /** Clamp to the 0..240 scale. */
  function Clamp240(x: int): (r: int)
    ensures 0 <= r <= 240
    ensures 0 <= x <= 240 ==> r == x
    ensures x < 0 ==> r == 0
    ensures x > 240 ==> r == 240
  {
    Max(0, Min(240, x))
  }

  /** The unscaled HSL triple computed on lines 52-70, before rounding and clamping. */
  function RawHslOf(rIn: real, gIn: real, bIn: real): RawHsl {
    var r, g, b := rIn / 255.0, gIn / 255.0, bIn / 255.0;
    var cmax := MaxR(MaxR(r, g), b);
    var cmin := MinR(MinR(r, g), b);
    var delta := cmax - cmin;
    var l := (cmax + cmin) / 2.0;
    if delta == 0.0 then RawHsl(0.0, 0.0, l)
    else
      var s := if l == 1.0 || l == 0.0 then 0.0 else delta / (1.0 - AbsR(2.0 * l - 1.0));
      var h0 := if cmax == r then FloatModSix((g - b) / delta)
                else if cmax == g then (b - r) / delta + 2.0
                else (r - g) / delta + 4.0;
      var h1 := h0 * 60.0;
      RawHsl(if h1 < 0.0 then h1 + 360.0 else h1, s, l)
  }

  /**
    calculate_hsl_from_rgb: hue, saturation and lightness on the 0..240
    scale; a non-numeric argument gives (0, 0, 0); no saturation means no hue.
  */
  function CalculateHsl(r: Scalar, g: Scalar, b: Scalar): (hsl: Hsl)
    ensures !(r.Numeric? && g.Numeric? && b.Numeric?) ==> hsl == Hsl(0, 0, 0)
    ensures 0 <= hsl.h <= 240 && 0 <= hsl.s <= 240 && 0 <= hsl.l <= 240
    ensures hsl.s == 0 ==> hsl.h == 0
  {
    if !(r.Numeric? && g.Numeric? && b.Numeric?) then Hsl(0, 0, 0)
    else
      var raw := RawHslOf(r.value, g.value, b.value);
      var h := Clamp240(RoundHalfEven(raw.h * (240.0 / 360.0)));
      var s := Clamp240(RoundHalfEven(raw.s * 240.0));
      var l := Clamp240(RoundHalfEven(raw.l * 240.0));
      Hsl(if s == 0 then 0 else h, s, l)
  }

  /** The conversion as the generator applies it to an integer colour. */
  function HslOf(c: Rgb): Hsl {
    CalculateHsl(Numeric(c.r as real), Numeric(c.g as real), Numeric(c.b as real))
  }

  lemma DivisionBounds(x: real, d: real)
    requires d > 0.0 && -d <= x <= d
    ensures -1.0 <= x / d <= 1.0
    ensures 0.0 <= x ==> 0.0 <= x / d
  {
    assert (x / d) * d == x;
  }

  /**
    For channels in 0..255 the unscaled values already lie in their natural
    ranges: hue in [0, 360), saturation and lightness in [0, 1].
  */
  lemma RawHslInRange(r: real, g: real, b: real)
    requires 0.0 <= r <= 255.0 && 0.0 <= g <= 255.0 && 0.0 <= b <= 255.0
    ensures var raw := RawHslOf(r, g, b);
      0.0 <= raw.h < 360.0 && 0.0 <= raw.s <= 1.0 && 0.0 <= raw.l <= 1.0
  {
    var R, G, B := r / 255.0, g / 255.0, b / 255.0;
    var cmax := MaxR(MaxR(R, G), B);
    var cmin := MinR(MinR(R, G), B);
    var delta := cmax - cmin;
    var l := (cmax + cmin) / 2.0;
    assert 0.0 <= R <= 1.0 && 0.0 <= G <= 1.0 && 0.0 <= B <= 1.0;
    if delta != 0.0 {
      if !(l == 1.0 || l == 0.0) {
        var den := 1.0 - AbsR(2.0 * l - 1.0);
        assert 0.0 < delta <= den;
        DivisionBounds(delta, den);
      }
      if cmax == R {
      } else if cmax == G {
        DivisionBounds(B - R, delta);
      } else {
        DivisionBounds(R - G, delta);
      }
    }
  }

  /** RoundHalfEven maps the closed interval [0, 240] back into it. */
  lemma RoundStaysInScale(x: real)
    requires 0.0 <= x <= 240.0
    ensures 0 <= RoundHalfEven(x) <= 240
  {
  }

  /**
    For integer channels in 0..255 the final clamps never fire: every
    component is exactly the rounded, scaled unclamped value.
  */
  lemma HslIsScaledRounding(c: Rgb)
    requires IsColor(c)
    ensures var raw := RawHslOf(c.r as real, c.g as real, c.b as real);
      && HslOf(c).l == RoundHalfEven(raw.l * 240.0)
      && HslOf(c).s == RoundHalfEven(raw.s * 240.0)
      && (HslOf(c).s != 0 ==> HslOf(c).h == RoundHalfEven(raw.h * (240.0 / 360.0)))
  {
    var raw := RawHslOf(c.r as real, c.g as real, c.b as real);
    RawHslInRange(c.r as real, c.g as real, c.b as real);
    RoundStaysInScale(raw.l * 240.0);
    RoundStaysInScale(raw.s * 240.0);
    RoundStaysInScale(raw.h * (240.0 / 360.0));
  }

  /** A grey (r = g = b) has neither saturation nor hue. */
  lemma GreyIsUnsaturated(v: real)
    ensures CalculateHsl(Numeric(v), Numeric(v), Numeric(v)).s == 0
    ensures CalculateHsl(Numeric(v), Numeric(v), Numeric(v)).h == 0
  {
  }

  /** The mid-grey (128, 128, 128): no hue, no saturation, lightness 120. */
  lemma MidGrey()
    ensures HslOf(Rgb(128, 128, 128)) == Hsl(0, 0, 120)
  {
    var raw := RawHslOf(128.0, 128.0, 128.0);
    assert raw.l == 128.0 / 255.0;
    assert raw.l * 240.0 == 120.0 + 120.0 / 255.0;
    assert RoundHalfEven(raw.l * 240.0) == 120;
  }

  /** Black has lightness 0 and white lightness 240; neither is saturated. */
  lemma ExtremeLightness()
    ensures HslOf(Black) == Hsl(0, 0, 0)
    ensures HslOf(White) == Hsl(0, 0, 240)
  {
    assert RawHslOf(255.0, 255.0, 255.0).l == 1.0;
  }

  lemma ProductNonNegative(a: real, b: real)
    requires 0.0 <= a && 0.0 <= b
    ensures 0.0 <= a * b
  {
  }

  lemma ProductAtMost(a: real, b: real)
    requires 0.0 <= a && 0.0 <= b <= 1.0
    ensures a * b <= a
  {
    ProductNonNegative(a, 1.0 - b);
    assert a - a * b == a * (1.0 - b);
  }

  /** Factor clamp at the top of both brightness helpers. */
  function ClampFactor(f: real): (r: real)
    ensures 0.0 <= r <= 1.0
    ensures 0.0 <= f <= 1.0 ==> r == f
    ensures f < 0.0 ==> r == 0.0
    ensures f > 1.0 ==> r == 1.0
  {
    if 0.0 <= f <= 1.0 then f else MaxR(0.0, MinR(1.0, f))
  }

  /** `max(0, int(x * scale))`: one channel scaled toward 0. */
  function DarkenChannel(x: int, scale: real): (y: int)
    requires 0.0 <= scale <= 1.0
    ensures 0 <= y
    ensures 0 <= x ==> y <= x
    ensures scale == 1.0 && 0 <= x ==> y == x
    ensures scale == 0.0 ==> y == 0
  {
    assert 0 <= x ==> x as real * scale <= x as real by {
      if 0 <= x { ProductAtMost(x as real, scale); }
    }
    Max(0, Trunc(x as real * scale))
  }

  /** `max(0, min(255, int(x + (255 - x) * factor)))`: one channel moved toward 255. */
  function LightenChannel(x: int, factor: real): (y: int)
    requires 0.0 <= factor <= 1.0
    ensures IsByte(y)
    ensures IsByte(x) ==> x <= y
    ensures factor == 0.0 && IsByte(x) ==> y == x
    ensures factor == 1.0 ==> y == 255
  {
    assert IsByte(x) ==> (255 - x) as real * factor >= 0.0 by {
      if IsByte(x) { ProductNonNegative((255 - x) as real, factor); }
    }
    Max(0, Min(255, Trunc(x as real + (255 - x) as real * factor)))
  }

  /**
    reduce_rgb_brightness: a 3- or 4-tuple gets its first three channels
    scaled toward 0 by the clamped factor (alpha untouched); any other
    tuple is returned as it is.
  */
  function ReduceBrightness(t: seq<int>, factor: real): (u: seq<int>)
    ensures |u| == |t|
    ensures |t| != 3 && |t| != 4 ==> u == t
    ensures |t| == 4 ==> u[3] == t[3]
    ensures |t| == 3 || |t| == 4 ==>
      forall i :: 0 <= i < 3 ==> 0 <= u[i] && (0 <= t[i] ==> u[i] <= t[i])
    ensures (|t| == 3 || |t| == 4) && factor <= 0.0 ==>
      forall i :: 0 <= i < 3 && 0 <= t[i] ==> u[i] == t[i]
    ensures (|t| == 3 || |t| == 4) && factor >= 1.0 ==>
      forall i :: 0 <= i < 3 ==> u[i] == 0
  {
    var scale := 1.0 - ClampFactor(factor);
    if |t| == 3 || |t| == 4 then
      [DarkenChannel(t[0], scale), DarkenChannel(t[1], scale), DarkenChannel(t[2], scale)] + t[3..]
    else t
  }

  /**
    increase_rgb_brightness: a 3- or 4-tuple gets its first three channels
    moved toward 255 by the clamped factor and kept in 0..255 (alpha
    untouched); any other tuple is returned as it is.
  */
  function IncreaseBrightness(t: seq<int>, factor: real): (u: seq<int>)
    ensures |u| == |t|
    ensures |t| != 3 && |t| != 4 ==> u == t
    ensures |t| == 4 ==> u[3] == t[3]
    ensures |t| == 3 || |t| == 4 ==>
      forall i :: 0 <= i < 3 ==> IsByte(u[i]) && (IsByte(t[i]) ==> t[i] <= u[i])
    ensures (|t| == 3 || |t| == 4) && factor <= 0.0 ==>
      forall i :: 0 <= i < 3 && IsByte(t[i]) ==> u[i] == t[i]
    ensures (|t| == 3 || |t| == 4) && factor >= 1.0 ==>
      forall i :: 0 <= i < 3 ==> u[i] == 255
  {
    var f := ClampFactor(factor);
    if |t| == 3 || |t| == 4 then
      [LightenChannel(t[0], f), LightenChannel(t[1], f), LightenChannel(t[2], f)] + t[3..]
    else t
  }

  /** An RGB colour darkened by reduce_rgb_brightness. */
  function Darkened(c: Rgb, factor: real): (d: Rgb)
    ensures 0 <= d.r && 0 <= d.g && 0 <= d.b
    ensures IsColor(c) ==> IsColor(d) && d.r <= c.r && d.g <= c.g && d.b <= c.b
  {
    var u := ReduceBrightness(Channels(c), factor);
    Rgb(u[0], u[1], u[2])
  }

  /** An RGB colour lightened by increase_rgb_brightness. */
  function Lightened(c: Rgb, factor: real): (d: Rgb)
    ensures IsColor(d)
    ensures IsColor(c) ==> c.r <= d.r && c.g <= d.g && c.b <= d.b
  {
    var u := IncreaseBrightness(Channels(c), factor);
    Rgb(u[0], u[1], u[2])
  }
}
