/** The arithmetic of fit mode: the aspect-preserving target size and the
    centring offsets, on exact integers. The source computes with PHP floats;
    `Round`, `Ceil` and the lemmas `FitSizeExact` and `CentreOffsetExact`
    tie the integer forms to the same expressions evaluated on exact reals. */
module Geometry {

  // ---------------------------------------------------------------------------
  // integer helpers

  lemma MulLessCancel(x: int, y: int, k: int)
    requires k > 0 && x * k < y * k
    ensures x < y
  {
  }

  lemma MulPositive(x: int, k: int)
    requires k > 0 && x * k > 0
    ensures x > 0
  {
  }

  /** Ceiling division, ⌈a / b⌉, for a positive divisor. */
  function CeilDiv(a: int, b: int): (q: int)
    requires b > 0
    ensures (q - 1) * b < a <= q * b
  {
    var q := (a + b - 1) / b;
    var r := (a + b - 1) % b;
    assert a + b - 1 == q * b + r && 0 <= r < b;
    assert (q - 1) * b == q * b - b;
    q
  }

  // ---------------------------------------------------------------------------
  // the target size

  /** The source's test `$maxWidth / $oldWidth * $oldHeight < $maxHeight`
      multiplied through by `$oldWidth`: scaling to the full box width would
      leave the height inside the box, so the width is the binding limit. */
  predicate WidthBinds(oldWidth: int, oldHeight: int, maxWidth: int, maxHeight: int)
    ensures WidthBinds(oldWidth, oldHeight, maxWidth, maxHeight) ==> maxWidth * oldHeight != maxHeight * oldWidth
  {
    maxWidth * oldHeight < maxHeight * oldWidth
  }

  /** The (width, height) `resizeAdaptive` scales an oldWidth x oldHeight image
      to for a maxWidth x maxHeight box. The result fits inside the box,
      touches it on the binding axis, and its other side is the exact
      proportional size rounded up. */
  function FitSize(oldWidth: int, oldHeight: int, maxWidth: int, maxHeight: int): (size: (int, int))
    requires oldWidth > 0 && oldHeight > 0 && maxWidth > 0 && maxHeight > 0
    ensures 0 < size.0 <= maxWidth && 0 < size.1 <= maxHeight
    ensures WidthBinds(oldWidth, oldHeight, maxWidth, maxHeight) ==>
              && size.0 == maxWidth
              && (size.1 - 1) * oldWidth < maxWidth * oldHeight <= size.1 * oldWidth
    ensures !WidthBinds(oldWidth, oldHeight, maxWidth, maxHeight) ==>
              && size.1 == maxHeight
              && (size.0 - 1) * oldHeight < maxHeight * oldWidth <= size.0 * oldHeight
  {
    assert maxWidth * oldHeight > 0 && maxHeight * oldWidth > 0;
    if WidthBinds(oldWidth, oldHeight, maxWidth, maxHeight) then
      var newHeight := CeilDiv(maxWidth * oldHeight, oldWidth);
      MulLessCancel(newHeight - 1, maxHeight, oldWidth);
      MulPositive(newHeight, oldWidth);
      (maxWidth, newHeight)
    else
      var newWidth := CeilDiv(maxHeight * oldWidth, oldHeight);
      assert (newWidth - 1) * oldHeight < maxWidth * oldHeight;
      MulLessCancel(newWidth - 1, maxWidth, oldHeight);
      MulPositive(newWidth, oldHeight);
      (newWidth, maxHeight)
  }

  /** An image that already has the box's size is left at that size. */
  lemma FitSizeIdempotent(width: int, height: int)
    requires width > 0 && height > 0
    ensures FitSize(width, height, width, height) == (width, height)
  {
  }

  /** A 3000 wide, 4000 high photo in a 256x256 box becomes 192x256. */
  lemma PortraitInSquareBox()
    ensures FitSize(3000, 4000, 256, 256) == (192, 256)
  {
  }

  // ---------------------------------------------------------------------------
  // the centring offsets

  /** PHP `round($d / 2)`: to the nearest integer, halves away from zero. */
  function RoundHalf(d: int): (r: int)
    ensures 2 * r - d == (if d % 2 == 0 then 0 else if d > 0 then 1 else -1)
  {
    if d >= 0 then (d + 1) / 2 else -((1 - d) / 2)
  }

  /** `round($canvas / 2 - $image / 2)`: where an image of the given extent
      starts when centred on a canvas. When the image fits, it lies wholly on
      the canvas and its two margins differ by at most one pixel, the larger
      one first. */
  function CentreOffset(canvas: int, image: int): (offset: int)
    ensures 0 <= image <= canvas ==> 0 <= offset && offset + image <= canvas
    ensures image <= canvas ==> 0 <= offset - (canvas - image - offset) <= 1
  {
    RoundHalf(canvas - image)
  }

  /** In fit mode the scaled image, centred, lies wholly on the canvas and
      touches two opposite edges of it: no margin on the binding axis. */
  lemma FitCentred(oldWidth: int, oldHeight: int, maxWidth: int, maxHeight: int)
    requires oldWidth > 0 && oldHeight > 0 && maxWidth > 0 && maxHeight > 0
    ensures var (newWidth, newHeight) := FitSize(oldWidth, oldHeight, maxWidth, maxHeight);
            var x, y := CentreOffset(maxWidth, newWidth), CentreOffset(maxHeight, newHeight);
            && 0 <= x && x + newWidth <= maxWidth
            && 0 <= y && y + newHeight <= maxHeight
            && (x == 0 || y == 0)
  {
  }

  // ---------------------------------------------------------------------------
  // the same expressions on exact reals

  /** PHP `round()` of a number: to the nearest integer, halves away from zero. */
  function Round(x: real): (r: int)
    ensures x >= 0.0 ==> x - 0.5 < r as real <= x + 0.5
    ensures x < 0.0 ==> x - 0.5 <= r as real < x + 0.5
  {
    if x >= 0.0 then (x + 0.5).Floor else -((-x + 0.5).Floor)
  }

  /** PHP `ceil()` of a number. */
  function Ceil(x: real): (c: int)
    ensures c as real - 1.0 < x <= c as real
  {
    -((-x).Floor)
  }

  /** A ratio times a third number is one exact quotient. */
  lemma QuotientForm(x: int, w: int, h: int)
    requires w > 0
    ensures (x as real / w as real) * h as real == (x * h) as real / w as real
    ensures ((x * h) as real / w as real) * w as real == (x * h) as real
  {
  }

  /** Multiplying `c - 1 < x <= c` through by a positive integer. */
  lemma ScaleBelow(x: real, c: int, b: int, a: int)
    requires b > 0 && x * b as real == a as real && (c - 1) as real < x
    ensures (c - 1) * b < a
  {
  }

  lemma ScaleAbove(x: real, c: int, b: int, a: int)
    requires b > 0 && x * b as real == a as real && x <= c as real
    ensures a <= c * b
  {
  }

  /** The ceiling of an exact quotient, multiplied back, brackets the
      dividend. */
  lemma CeilOfQuotientBounds(a: int, b: int)
    requires b > 0
    ensures (Ceil(a as real / b as real) - 1) * b < a <= Ceil(a as real / b as real) * b
  {
    var x := a as real / b as real;
    var c := Ceil(x);
    QuotientForm(a, b, 1);
    assert x * b as real == a as real;
    ScaleBelow(x, c, b, a);
    ScaleAbove(x, c, b, a);
  }

  /** Ceiling division agrees with the ceiling of the exact quotient. */
  lemma CeilOfQuotient(a: int, b: int)
    requires b > 0
    ensures Ceil(a as real / b as real) == CeilDiv(a, b)
  {
    var c, q := Ceil(a as real / b as real), CeilDiv(a, b);
    CeilOfQuotientBounds(a, b);
    MulLessCancel(c - 1, q, b);
    MulLessCancel(q - 1, c, b);
  }

  /** The source's comparison on exact reals is the integer test. */
  lemma RatioTestExact(oldWidth: int, oldHeight: int, maxWidth: int, maxHeight: int)
    requires oldWidth > 0
    ensures (maxWidth as real / oldWidth as real) * oldHeight as real < maxHeight as real
            <==> WidthBinds(oldWidth, oldHeight, maxWidth, maxHeight)
  {
  }

  /** `resizeAdaptive`'s branches, evaluated on exact reals, give `FitSize`. */
  lemma FitSizeExact(oldWidth: int, oldHeight: int, maxWidth: int, maxHeight: int)
    requires oldWidth > 0 && oldHeight > 0 && maxWidth > 0 && maxHeight > 0
    ensures var xRatio := maxWidth as real / oldWidth as real;
            var yRatio := maxHeight as real / oldHeight as real;
            FitSize(oldWidth, oldHeight, maxWidth, maxHeight)
            == if xRatio * oldHeight as real < maxHeight as real
               then (maxWidth, Ceil(xRatio * oldHeight as real))
               else (Ceil(yRatio * oldWidth as real), maxHeight)
  {
    RatioTestExact(oldWidth, oldHeight, maxWidth, maxHeight);
    QuotientForm(maxWidth, oldWidth, oldHeight);
    QuotientForm(maxHeight, oldHeight, oldWidth);
    CeilOfQuotient(maxWidth * oldHeight, oldWidth);
    CeilOfQuotient(maxHeight * oldWidth, oldHeight);
  }

  /** `round($canvas / 2 - $image / 2)` on exact reals is `CentreOffset`. */
  lemma CentreOffsetExact(canvas: int, image: int)
    ensures Round(canvas as real / 2.0 - image as real / 2.0) == CentreOffset(canvas, image)
  {
  }
}
