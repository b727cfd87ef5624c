/** The two scoring rules of a circle-tracing attempt: the circle quality,
    which compares the bounding-box width of the accumulated shape with that
    of the perfect circle, and the colour percentage of a single sample,
    which compares the sample's distance to the centre with the target
    radius. Floating point is modelled by `real`. */
module Scoring {

  /** `CGFloat.pi`. It is a factor of both perimeters and cancels out
      (QualityFromWidths). */
  const PI: real := 3.141592653589793

  function Abs(x: real): (r: real)
    ensures r >= 0.0 && (r == x || r == -x)
  {
    if x < 0.0 then -x else x
  }

  function Max(a: real, b: real): (m: real)
    ensures m >= a && m >= b && (m == a || m == b)
  {
    if a >= b then a else b
  }

  lemma DivSub(x: real, y: real, e: real)
    requires e > 0.0
    ensures (x - y) / e == x / e - y / e
  {
  }

  lemma DivCancel(a: real, e: real, k: real)
    requires e > 0.0 && k > 0.0
    ensures (a * k) / (e * k) == a / e
  {
  }

  lemma DivMonotone(a: real, b: real, e: real)
    requires e > 0.0 && a <= b
    ensures a / e <= b / e
  {
  }

  /** How close the user's shape is to the perfect circle: the deviation of
      the user perimeter from the expected perimeter, relative to the
      expected perimeter, subtracted from 1 and clamped below at 0. Both
      perimeters are a bounding-box width times pi. */
  function CircleQuality(userWidth: real, expectedWidth: real, pi: real): (q: real)
    requires expectedWidth > 0.0 && pi > 0.0
    ensures 0.0 <= q <= 1.0
    ensures q == 1.0 <==> userWidth == expectedWidth
  {
    var userPerimeter := userWidth * pi;
    var expectedPerimeter := expectedWidth * pi;
    assert expectedPerimeter > 0.0;
    var deviation := Abs(userPerimeter - expectedPerimeter) / expectedPerimeter;
    assert deviation >= 0.0;
    assert deviation == 0.0 <==> userPerimeter == expectedPerimeter by {
      if deviation == 0.0 {
        assert Abs(userPerimeter - expectedPerimeter) == deviation * expectedPerimeter;
      }
    }
    assert userPerimeter == expectedPerimeter <==> userWidth == expectedWidth by {
      if userPerimeter == expectedPerimeter {
        assert (userWidth - expectedWidth) * pi == 0.0;
      }
    }
    Max(1.0 - deviation, 0.0)
  }

  /** pi cancels: the quality depends only on the ratio of the widths. */
  lemma QualityFromWidths(userWidth: real, expectedWidth: real, pi: real)
    requires expectedWidth > 0.0 && pi > 0.0
    ensures CircleQuality(userWidth, expectedWidth, pi)
         == Max(1.0 - Abs(userWidth - expectedWidth) / expectedWidth, 0.0)
  {
    var d := userWidth - expectedWidth;
    assert userWidth * pi - expectedWidth * pi == d * pi;
    assert Abs(d * pi) == Abs(d) * pi;
    DivCancel(Abs(d), expectedWidth, pi);
    assert Abs(userWidth * pi - expectedWidth * pi) / (expectedWidth * pi) == Abs(d) / expectedWidth;
  }

  /** A width closer to the expected one never scores lower. */
  lemma QualityMonotone(closer: real, farther: real, expectedWidth: real, pi: real)
    requires expectedWidth > 0.0 && pi > 0.0
    requires Abs(closer - expectedWidth) <= Abs(farther - expectedWidth)
    ensures CircleQuality(closer, expectedWidth, pi) >= CircleQuality(farther, expectedWidth, pi)
  {
    QualityFromWidths(closer, expectedWidth, pi);
    QualityFromWidths(farther, expectedWidth, pi);
    DivMonotone(Abs(closer - expectedWidth), Abs(farther - expectedWidth), expectedWidth);
  }

  /** The clamp at 0 is reached exactly when the shape has no width or is
      at least twice as wide as the perfect circle. */
  lemma QualityZeroIff(userWidth: real, expectedWidth: real, pi: real)
    requires userWidth >= 0.0 && expectedWidth > 0.0 && pi > 0.0
    ensures CircleQuality(userWidth, expectedWidth, pi) == 0.0
        <==> userWidth == 0.0 || userWidth >= 2.0 * expectedWidth
  {
    QualityFromWidths(userWidth, expectedWidth, pi);
    var e := expectedWidth;
    var a := Abs(userWidth - e);
    DivSub(e, a, e);
    assert 1.0 - a / e == (e - a) / e;
  }

  /** The colour percentage of a sample at `currentRadius` from the centre:
      100 minus the deviation from the target radius in percent of it. It is
      not clamped below. */
  function ColorPercentage(currentRadius: real, radius: real): (p: real)
    requires radius > 0.0
    ensures p <= 100.0
    ensures p == 100.0 <==> currentRadius == radius
  {
    var error := Abs(currentRadius - radius);
    assert error / radius >= 0.0;
    assert error / radius == 0.0 ==> error == 0.0 by {
      if error / radius == 0.0 {
        assert error == (error / radius) * radius;
      }
    }
    (1.0 - error / radius) * 100.0
  }

  /** The colour percentage goes negative exactly when the sample is more
      than twice the target radius away from the centre. */
  lemma ColorPercentageNegativeIff(currentRadius: real, radius: real)
    requires currentRadius >= 0.0 && radius > 0.0
    ensures ColorPercentage(currentRadius, radius) < 0.0 <==> currentRadius > 2.0 * radius
  {
    var a := Abs(currentRadius - radius);
    DivSub(radius, a, radius);
    assert 1.0 - a / radius == (radius - a) / radius;
  }

  /** For a shape made of one oval of radius `currentRadius` and a perfect
      circle of radius `radius`, the quality in percent is the colour
      percentage of that sample clamped at 0: the two rules agree on the
      first sample of an attempt. */
  lemma SingleOvalQualityIsClampedColorPercentage(currentRadius: real, radius: real, pi: real)
    requires radius > 0.0 && pi > 0.0
    ensures CircleQuality(2.0 * currentRadius, 2.0 * radius, pi) * 100.0
         == Max(ColorPercentage(currentRadius, radius), 0.0)
  {
    QualityFromWidths(2.0 * currentRadius, 2.0 * radius, pi);
    var d := currentRadius - radius;
    assert 2.0 * currentRadius - 2.0 * radius == 2.0 * d;
    assert Abs(2.0 * d) / (2.0 * radius) == Abs(d) / radius;
  }
}
