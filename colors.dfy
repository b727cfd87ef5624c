/** The stroke colour of a sample: four reference colours, a linear blend
    between two colours, and the choice of band and blend fraction from the
    colour percentage. Colour channels are reals, nominally in [0, 1]. */
module Colors {

  datatype Rgba = Rgba(red: real, green: real, blue: real, alpha: real)

  const GREEN: Rgba := Rgba(0.0 / 255.0, 255.0 / 255.0, 0.0 / 255.0, 1.0)
  const YELLOW: Rgba := Rgba(255.0 / 255.0, 255.0 / 255.0, 0.0 / 255.0, 1.0)
  const ORANGE: Rgba := Rgba(255.0 / 255.0, 165.0 / 255.0, 0.0 / 255.0, 1.0)
  const RED: Rgba := Rgba(255.0 / 255.0, 0.0 / 255.0, 0.0 / 255.0, 1.0)

  /** `x` lies between `a` and `b`, in either order. */
  predicate Between(a: real, b: real, x: real) {
    (a <= x <= b) || (b <= x <= a)
  }

  /** Every channel of `c` lies between the same channels of `from` and `to`. */
  predicate Blends(from: Rgba, to: Rgba, c: Rgba) {
    && Between(from.red, to.red, c.red)
    && Between(from.green, to.green, c.green)
    && Between(from.blue, to.blue, c.blue)
    && Between(from.alpha, to.alpha, c.alpha)
  }

  lemma MulNonNegative(a: real, b: real)
    requires a >= 0.0 && b >= 0.0
    ensures a * b >= 0.0
  {
  }

  lemma MixWithin(f: real, t: real, percent: real)
    ensures 0.0 <= percent <= 1.0 ==> Between(f, t, f + percent * (t - f))
  {
    if 0.0 <= percent <= 1.0 {
      var d := if f <= t then t - f else f - t;
      MulNonNegative(percent, d);
      MulNonNegative(1.0 - percent, d);
      assert (1.0 - percent) * d == d - percent * d;
      assert percent * (t - f) == if f <= t then percent * d else -(percent * d);
    }
  }

  function Mix(f: real, t: real, percent: real): (x: real)
    ensures 0.0 <= percent <= 1.0 ==> Between(f, t, x)
  {
    MixWithin(f, t, percent);
    f + percent * (t - f)
  }

  /** Channel by channel, `from` moved by `percent` of the way to `to`.
      Nothing clamps `percent`, so outside [0, 1] the result leaves the
      segment between the two colours. */
  function Interpolate(from: Rgba, to: Rgba, percent: real): (c: Rgba)
    ensures percent == 0.0 ==> c == from
    ensures percent == 1.0 ==> c == to
    ensures 0.0 <= percent <= 1.0 ==> Blends(from, to, c)
  {
    Rgba(Mix(from.red, to.red, percent),
         Mix(from.green, to.green, percent),
         Mix(from.blue, to.blue, percent),
         Mix(from.alpha, to.alpha, percent))
  }

  /** Blending from `from` to `to` by `percent` is blending back from `to`
      to `from` by the rest of the way. */
  lemma InterpolateReversed(from: Rgba, to: Rgba, percent: real)
    ensures Interpolate(from, to, percent) == Interpolate(to, from, 1.0 - percent)
  {
    forall f: real, t: real
      ensures Mix(f, t, percent) == Mix(t, f, 1.0 - percent)
    {
      assert f + percent * (t - f) == t + (1.0 - percent) * (f - t);
    }
  }

  /** The four bands of the colour percentage. */
  datatype Band = SolidGreen | GreenToYellow | YellowToOrange | OrangeToRed

  /** A band and the blend fraction within it. */
  datatype Shade = Shade(band: Band, fraction: real)

  /** The shades the band selection can produce. */
  predicate Proper(s: Shade) {
    match s.band
    case SolidGreen => s.fraction == 0.0
    case GreenToYellow => 0.0 <= s.fraction < 1.0
    case YellowToOrange => 0.0 <= s.fraction < 1.0
    case OrangeToRed => s.fraction < 1.0
  }

  /** The band selection of the colour percentage: the bands are disjoint
      and cover every percentage; in the two middle bands the fraction lies
      in [0, 1); in the lowest band it is below 1 and negative exactly for a
      negative percentage. */
  function ShadeFor(percentage: real): (s: Shade)
    ensures Proper(s)
    ensures s.band == SolidGreen <==> percentage >= 95.0
    ensures s.band == GreenToYellow <==> 90.0 <= percentage < 95.0
    ensures s.band == YellowToOrange <==> 80.0 <= percentage < 90.0
    ensures s.band == OrangeToRed <==> percentage < 80.0
    ensures s.band == OrangeToRed ==> (s.fraction < 0.0 <==> percentage < 0.0)
  {
    if percentage >= 95.0 then Shade(SolidGreen, 0.0)
    else if percentage >= 90.0 then Shade(GreenToYellow, (percentage - 90.0) / 5.0)
    else if percentage >= 80.0 then Shade(YellowToOrange, (percentage - 80.0) / 10.0)
    else Shade(OrangeToRed, percentage / 80.0)
  }

  /** The percentage a shade stands for; the solid band stands for its
      lower bound 95. */
  function Unshade(s: Shade): real {
    match s.band
    case SolidGreen => 95.0
    case GreenToYellow => 90.0 + 5.0 * s.fraction
    case YellowToOrange => 80.0 + 10.0 * s.fraction
    case OrangeToRed => 80.0 * s.fraction
  }

  /** Below 95 the shade determines the percentage. */
  lemma ShadeForThenUnshade(percentage: real)
    requires percentage < 95.0
    ensures Unshade(ShadeFor(percentage)) == percentage
  {
  }

  /** Every shade the band selection can produce is produced by the
      percentage it stands for. */
  lemma UnshadeThenShadeFor(s: Shade)
    requires Proper(s)
    ensures ShadeFor(Unshade(s)) == s
  {
    var p := Unshade(s);
    match s.band
    case SolidGreen =>
    case GreenToYellow =>
      assert (p - 90.0) / 5.0 == s.fraction;
    case YellowToOrange =>
      assert (p - 80.0) / 10.0 == s.fraction;
    case OrangeToRed =>
      assert p / 80.0 == s.fraction;
  }

  /** The stroke colour for a colour percentage, as written: green at 95 and
      above, otherwise a blend from the band's upper colour towards its lower
      colour by the band fraction. */
  function Color(percentage: real): (c: Rgba)
    ensures percentage >= 95.0 ==> c == GREEN
    ensures 90.0 <= percentage < 95.0 ==> Blends(GREEN, YELLOW, c)
    ensures 80.0 <= percentage < 90.0 ==> Blends(YELLOW, ORANGE, c)
    ensures 0.0 <= percentage < 80.0 ==> Blends(ORANGE, RED, c)
    ensures c.blue == 0.0 && c.alpha == 1.0
  {
    var s := ShadeFor(percentage);
    match s.band
    case SolidGreen => GREEN
    case GreenToYellow => Interpolate(GREEN, YELLOW, s.fraction)
    case YellowToOrange => Interpolate(YELLOW, ORANGE, s.fraction)
    case OrangeToRed => Interpolate(ORANGE, RED, s.fraction)
  }

  /** The colour as written runs the wrong way inside each band: 90 is drawn
      green and 94 almost yellow, 80 yellow and 79 almost red, 0 orange; the
      colour jumps at the band limits 95, 90 and 80; and a percentage below
      0 extrapolates past orange out of the channel range. */
  lemma ColorAsWrittenRunsBackwards()
    ensures Color(90.0) == GREEN && Color(80.0) == YELLOW && Color(0.0) == ORANGE
    ensures Color(94.0).red > Color(90.0).red
    ensures Color(94.9).red - Color(95.0).red > (95.0 - 94.9) / 5.0
    ensures Color(89.9).green < Color(90.0).green - (90.0 - 89.9) / 5.0
    ensures Color(79.9).green < Color(80.0).green - (80.0 - 79.9) / 5.0
    ensures Color(-80.0).green > 1.0
  {
  }

  function Clamp01(x: real): (y: real)
    ensures 0.0 <= y <= 1.0
    ensures 0.0 <= x <= 1.0 ==> y == x
  {
    if x < 0.0 then 0.0 else if x > 1.0 then 1.0 else x
  }

  /** The stroke colour as evidently intended: each band blends from its
      lower colour (at the bottom of the band) to its upper colour (at the
      top), so that the colour turns from green through yellow and orange to
      red as the percentage falls, and the lowest band's fraction is clamped
      to [0, 1]. */
  function IntendedColor(percentage: real): (c: Rgba)
    ensures 0.0 <= c.red <= 1.0 && 0.0 <= c.green <= 1.0
    ensures c.blue == 0.0 && c.alpha == 1.0
    ensures percentage >= 95.0 ==> c == GREEN
    ensures percentage == 90.0 ==> c == YELLOW
    ensures percentage == 80.0 ==> c == ORANGE
    ensures percentage <= 0.0 ==> c == RED
  {
    var s := ShadeFor(percentage);
    match s.band
    case SolidGreen => GREEN
    case GreenToYellow => Interpolate(YELLOW, GREEN, s.fraction)
    case YellowToOrange => Interpolate(ORANGE, YELLOW, s.fraction)
    case OrangeToRed => Interpolate(RED, ORANGE, Clamp01(s.fraction))
  }

  /** The red channel of the intended colour. */
  lemma IntendedRedChannel(percentage: real)
    ensures IntendedColor(percentage).red == Clamp01((95.0 - percentage) / 5.0)
  {
  }

  /** The green channel of the intended colour. */
  lemma IntendedGreenChannel(percentage: real)
    ensures IntendedColor(percentage).green ==
      if percentage >= 90.0 then 1.0
      else if percentage >= 80.0 then 165.0 / 255.0 + (percentage - 80.0) * 9.0 / 255.0
      else if percentage >= 0.0 then percentage * 165.0 / (80.0 * 255.0)
      else 0.0
  {
  }

  /** The intended colour is a gradient: as the percentage rises, red never
      increases and green never decreases, and neither moves by more than
      1/5 per percentage point, so there is no jump at 95, 90 or 80. */
  lemma IntendedColorGradient(lower: real, higher: real)
    requires lower <= higher
    ensures 0.0 <= IntendedColor(lower).red - IntendedColor(higher).red <= (higher - lower) / 5.0
    ensures 0.0 <= IntendedColor(higher).green - IntendedColor(lower).green <= (higher - lower) / 5.0
  {
    IntendedRedChannel(lower);
    IntendedRedChannel(higher);
    IntendedGreenChannel(lower);
    IntendedGreenChannel(higher);
  }
}
