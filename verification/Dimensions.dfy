/** The dimension arithmetic of the planners, over exact numbers: the scale factor
    is the rational the code approximates, not its rounding to a float. */
module Dimensions {
  /** Nearest integer, a half going up, as for every value here (none is negative). */
  function Round(x: real): int {
    (x + 0.5).Floor
  }

  function Min(a: real, b: real): real { if a <= b then a else b }

  function Max(a: int, b: int): int { if a >= b then a else b }

  function EvenFloor(value: int): int {
    if value <= 2 then 2 else value - value % 2
  }

  function NearestEven(value: real): int {
    Max(2, Round(value / 2.0) * 2)
  }

  function FitScale(width: nat, height: nat, maxWidth: nat, maxHeight: nat): real
    requires width >= 1 && height >= 1
  {
    Min(1.0, Min(maxWidth as real / width as real, maxHeight as real / height as real))
  }

  function FitDimensions(width: nat, height: nat, maxWidth: nat, maxHeight: nat): (int, int)
    requires width >= 1 && height >= 1
  {
    var scale := FitScale(width, height, maxWidth, maxHeight);
    (NearestEven(width as real * scale), NearestEven(height as real * scale))
  }

  function FitWithinLongestEdge(width: int, height: int, maximum: nat): (int, int, real) {
    var longest := if height > width then height else width;
    if longest <= maximum then (width, height, 1.0)
    else
      var scale := maximum as real / longest as real;
      (Max(1, Round(width as real * scale)), Max(1, Round(height as real * scale)), scale)
  }

  // ---------------------------------------------------------------- rounding

  lemma RoundIsNearest(x: real)
    ensures x - 0.5 < Round(x) as real <= x + 0.5
  {
  }

  lemma RoundBelow(x: real, n: int)
    requires x <= n as real
    ensures Round(x) <= n
  {
    assert x + 0.5 < (n + 1) as real;
  }

  lemma ScaleShrinks(n: nat, scale: real)
    requires 0.0 <= scale <= 1.0
    ensures 0.0 <= n as real * scale <= n as real
  {
  }

  // ---------------------------------------------------------------- video

  /** The nearest even number of at least two: within one of the value exactly when
      the value is at least one, and under any even bound the value is under. */
  lemma NearestEvenExact(value: real, bound: nat)
    requires value >= 0.0
    ensures var r := NearestEven(value);
      && r % 2 == 0 && r >= 2
      && (value - 1.0 <= r as real <= value + 1.0 <==> value >= 1.0)
      && (bound % 2 == 0 && bound >= 2 && value <= bound as real ==> r <= bound)
  {
    RoundIsNearest(value / 2.0);
    if bound % 2 == 0 && value <= bound as real {
      assert value / 2.0 <= (bound / 2) as real;
      RoundBelow(value / 2.0, bound / 2);
    }
  }

  /** What fitting does to one side whose scaled length is `value`. */
  ghost predicate FittedSide(side: nat, bound: nat, value: real, r: int) {
    && 0.0 < value <= side as real && value <= bound as real
    && r % 2 == 0 && 2 <= r <= bound && r <= side + 1
    && (value - 1.0 <= r as real <= value + 1.0 <==> value >= 1.0)
  }

  lemma SideFitted(side: nat, bound: nat, value: real)
    requires side >= 1 && bound >= 2 && bound % 2 == 0
    requires 0.0 < value <= side as real && value <= bound as real
    ensures FittedSide(side, bound, value, NearestEven(value))
  {
    NearestEvenExact(value, bound);
    NearestEvenAbove(side, value);
  }

  lemma ScaleLessens(side: real, scale: real, value: real)
    requires side > 0.0 && 0.0 < scale <= 1.0 && value == side * scale
    ensures 0.0 < value <= side
  {
  }

  lemma ScaleBelow(side: real, bound: real, scale: real, value: real)
    requires side > 0.0 && scale <= bound / side && value == side * scale
    ensures value <= bound
  {
    var quotient := bound / side;
    assert side * quotient == bound;
    assert side * scale <= side * quotient;
  }

  lemma ScaleFits(side: nat, bound: nat, scale: real, value: real)
    requires side >= 1 && 0.0 < scale <= 1.0 && scale <= bound as real / side as real && value == side as real * scale
    ensures 0.0 < value <= side as real && value <= bound as real
  {
    ScaleLessens(side as real, scale, value);
    ScaleBelow(side as real, bound as real, scale, value);
  }

  lemma FitScaleBounds(width: nat, height: nat, maxWidth: nat, maxHeight: nat)
    requires width >= 1 && height >= 1 && maxWidth >= 1 && maxHeight >= 1
    ensures var scale := FitScale(width, height, maxWidth, maxHeight);
      0.0 < scale <= 1.0 && scale <= maxWidth as real / width as real && scale <= maxHeight as real / height as real
  {
    assert maxWidth as real / width as real > 0.0;
    assert maxHeight as real / height as real > 0.0;
  }

  lemma ScaledFits(side: nat, bound: nat, scale: real, value: real)
    requires side >= 1 && bound >= 2 && bound % 2 == 0 && value == side as real * scale
    requires 0.0 < scale <= 1.0 && scale <= bound as real / side as real
    ensures FittedSide(side, bound, value, NearestEven(value))
  {
    ScaleFits(side, bound, scale, value);
    SideFitted(side, bound, value);
  }

  lemma SidesAre(width: nat, height: nat, maxWidth: nat, maxHeight: nat, w: real, h: real)
    requires width >= 1 && height >= 1
    requires w == width as real * FitScale(width, height, maxWidth, maxHeight)
    requires h == height as real * FitScale(width, height, maxWidth, maxHeight)
    ensures FitDimensions(width, height, maxWidth, maxHeight) == (NearestEven(w), NearestEven(h))
  {
  }

  /** A video fitted into an even box, by its scaled width: both sides of the result
      are even and at least two, inside the box, at most one pixel larger than before,
      and within one pixel of the scaled side exactly when that is at least one. */
  lemma FittedWidth(width: nat, height: nat, maxWidth: nat, maxHeight: nat, value: real)
    requires width >= 1 && height >= 1 && maxWidth >= 2 && maxWidth % 2 == 0 && maxHeight >= 1
    requires value == width as real * FitScale(width, height, maxWidth, maxHeight)
    ensures FittedSide(width, maxWidth, value, FitDimensions(width, height, maxWidth, maxHeight).0)
  {
    var scale := FitScale(width, height, maxWidth, maxHeight);
    FitScaleBounds(width, height, maxWidth, maxHeight);
    ScaledFits(width, maxWidth, scale, value);
    SidesAre(width, height, maxWidth, maxHeight, value, height as real * scale);
  }

  /** The same by its scaled height. */
  lemma FittedHeight(width: nat, height: nat, maxWidth: nat, maxHeight: nat, value: real)
    requires width >= 1 && height >= 1 && maxWidth >= 1 && maxHeight >= 2 && maxHeight % 2 == 0
    requires value == height as real * FitScale(width, height, maxWidth, maxHeight)
    ensures FittedSide(height, maxHeight, value, FitDimensions(width, height, maxWidth, maxHeight).1)
  {
    var scale := FitScale(width, height, maxWidth, maxHeight);
    FitScaleBounds(width, height, maxWidth, maxHeight);
    ScaledFits(height, maxHeight, scale, value);
    SidesAre(width, height, maxWidth, maxHeight, width as real * scale, value);
  }

  lemma NearestEvenAbove(n: nat, value: real)
    requires n >= 1 && 0.0 <= value <= n as real
    ensures NearestEven(value) <= n + 1
  {
    RoundBelow(value / 2.0, (n + 1) / 2);
  }

  /** The video is scaled exactly when it does not fit, and then one side of the box
      is met before rounding. */
  lemma FitScaleTight(width: nat, height: nat, maxWidth: nat, maxHeight: nat)
    requires width >= 1 && height >= 1 && maxWidth >= 1 && maxHeight >= 1
    ensures var scale := FitScale(width, height, maxWidth, maxHeight);
      && (scale == 1.0 <==> width <= maxWidth && height <= maxHeight)
      && (scale < 1.0 ==> width as real * scale == maxWidth as real || height as real * scale == maxHeight as real)
  {
    QuotientAtLeastOne(width, maxWidth);
    QuotientAtLeastOne(height, maxHeight);
    assert width as real * (maxWidth as real / width as real) == maxWidth as real;
    assert height as real * (maxHeight as real / height as real) == maxHeight as real;
  }

  lemma QuotientAtLeastOne(n: nat, bound: nat)
    requires n >= 1
    ensures bound as real / n as real >= 1.0 <==> n <= bound
  {
    var quotient := bound as real / n as real;
    assert n as real * quotient == bound as real;
    if quotient >= 1.0 {
      assert n as real * quotient >= n as real;
    } else {
      assert n as real * quotient < n as real;
    }
  }

  /** The even number just below, but never below two: so for a one-pixel side the
      even frame is larger than the source. */
  lemma EvenFloorExact(value: nat)
    ensures EvenFloor(value) % 2 == 0 && EvenFloor(value) >= 2
    ensures EvenFloor(value) <= value <==> value >= 2
    ensures value >= 2 ==> value - EvenFloor(value) <= 1
  {
  }

  // ---------------------------------------------------------------- images

  /** What scaling does to one side whose scaled length is `value`: at least one, not
      enlarged, and otherwise the nearest whole number. */
  ghost predicate ScaledSide(side: nat, maximum: nat, value: real, r: int) {
    && 1 <= r <= side && r <= maximum
    && (value >= 0.5 ==> value - 0.5 < r as real <= value + 0.5)
  }

  lemma SideScaled(side: nat, maximum: nat, value: real)
    requires side >= 1 && maximum >= 1 && 0.0 <= value <= side as real && value <= maximum as real
    ensures ScaledSide(side, maximum, value, Max(1, Round(value)))
    ensures value == maximum as real ==> Max(1, Round(value)) == maximum
  {
    RoundIsNearest(value);
    RoundBelow(value, side);
    RoundBelow(value, maximum);
  }

  lemma LongestScale(side: nat, longest: nat, maximum: nat)
    requires longest > maximum >= 1 && 1 <= side <= longest
    ensures var scale := maximum as real / longest as real;
      && 0.0 < scale < 1.0
      && 0.0 <= side as real * scale <= side as real && side as real * scale <= maximum as real
      && (side == longest ==> side as real * scale == maximum as real)
  {
    QuotientAtLeastOne(longest, maximum);
    var scale := maximum as real / longest as real;
    ScaleShrinks(side, scale);
    assert longest as real * scale == maximum as real;
    assert side as real * scale <= longest as real * scale;
  }

  lemma EdgeValue(side: nat, longest: nat, maximum: nat, value: real)
    requires longest > maximum >= 1 && 1 <= side <= longest
    requires value == side as real * (maximum as real / longest as real)
    ensures 0.0 <= value <= side as real && value <= maximum as real
    ensures side == longest ==> value == maximum as real
  {
    LongestScale(side, longest, maximum);
  }

  /** The factor reported for an image: one exactly when it already fits. */
  lemma LongestEdgeScale(width: nat, height: nat, maximum: nat)
    requires width >= 1 && height >= 1 && maximum >= 1
    ensures 0.0 < FitWithinLongestEdge(width, height, maximum).2 <= 1.0
    ensures FitWithinLongestEdge(width, height, maximum).2 == 1.0 <==> Max(width, height) <= maximum
  {
    if Max(width, height) > maximum {
      QuotientAtLeastOne(Max(width, height), maximum);
    }
  }

  /** An image fitted to a longest edge, by its scaled width: unchanged when the image
      already fits; otherwise not enlarged, at least one, the nearest whole number,
      and exactly the maximum when the width is the longest edge. */
  lemma LongestEdgeWidth(width: nat, height: nat, maximum: nat, value: real)
    requires width >= 1 && height >= 1 && maximum >= 1
    requires value == width as real * FitWithinLongestEdge(width, height, maximum).2
    ensures var r := FitWithinLongestEdge(width, height, maximum).0;
      if Max(width, height) <= maximum then r == width
      else ScaledSide(width, maximum, value, r) && (width >= height ==> r == maximum)
  {
    if Max(width, height) > maximum {
      EdgeValue(width, Max(width, height), maximum, value);
      SideScaled(width, maximum, value);
    }
  }

  /** The same by its scaled height. */
  lemma LongestEdgeHeight(width: nat, height: nat, maximum: nat, value: real)
    requires width >= 1 && height >= 1 && maximum >= 1
    requires value == height as real * FitWithinLongestEdge(width, height, maximum).2
    ensures var r := FitWithinLongestEdge(width, height, maximum).1;
      if Max(width, height) <= maximum then r == height
      else ScaledSide(height, maximum, value, r) && (height >= width ==> r == maximum)
  {
    if Max(width, height) > maximum {
      EdgeValue(height, Max(width, height), maximum, value);
      SideScaled(height, maximum, value);
    }
  }

  lemma TimesKeepsOrder(a: nat, b: nat, n: nat)
    requires a <= b
    ensures a * n <= b * n
  {
  }

  /** The pixel limit is checked by dividing, so the product is never formed; it is
      the same check. */
  lemma DividedPixelCheck(width: nat, height: nat, maxPixels: nat)
    requires height >= 1
    ensures width > maxPixels / height <==> width * height > maxPixels
  {
    var q, r := maxPixels / height, maxPixels % height;
    assert maxPixels == q * height + r;
    if width > q {
      TimesKeepsOrder(q + 1, width, height);
    } else {
      TimesKeepsOrder(width, q, height);
    }
  }
}
