/** The `sizeBetween:min,max` rule: a "HxW" value whose height and width each
    lie within inclusive bounds, themselves given as "HxW" strings. */
module SizeBetweenRule {
  import opened Php
  import opened Sizes
  import opened RuleParams

  /** The bounds the resize request is validated against. */
  const DefaultMin := "256x256"
  const DefaultMax := "1024x1024"

  /** `check($value)`: `requireParameters(['min', 'max'])` first, then each
      axis of the value, of `min` and of `max` read height first, and both
      axes tested against inclusive bounds. */
  function Check(value: string, min: Option<string>, max: Option<string>): (r: Outcome)
    ensures r.Missing? <==> min.None? || max.None?
    ensures r.Missing? ==> r.param == (if min.None? then "min" else "max")
    ensures r.Verdict? ==>
              (r.accepted <==>
                 && Axes(min.value).0 <= Axes(value).0 <= Axes(max.value).0
                 && Axes(min.value).1 <= Axes(value).1 <= Axes(max.value).1)
  {
    if min.None? then Missing("min")
    else if max.None? then Missing("max")
    else
      var (minHeight, minWidth) := Axes(min.value);
      var (maxHeight, maxWidth) := Axes(max.value);
      var (height, width) := Axes(value);
      var isHeightCorrect := height >= minHeight && height <= maxHeight;
      var isWidthCorrect := width >= minWidth && width <= maxWidth;
      Verdict(isHeightCorrect && isWidthCorrect)
  }

  /** On well-formed sizes and bounds the rule accepts exactly when both
      axes lie within their bounds, ends included. */
  lemma CheckFormatted(height: nat, width: nat, minHeight: nat, minWidth: nat, maxHeight: nat, maxWidth: nat)
    ensures Check(Format(height, width), Some(Format(minHeight, minWidth)), Some(Format(maxHeight, maxWidth)))
            == Verdict(minHeight <= height <= maxHeight && minWidth <= width <= maxWidth)
  {
    AxesOfFormat(height, width);
    AxesOfFormat(minHeight, minWidth);
    AxesOfFormat(maxHeight, maxWidth);
  }

  /** The axes are independent: one axis outside its bounds rejects the value
      whatever the other axis is. */
  lemma OneAxisOutOfRange(height: nat, width: nat, minHeight: nat, minWidth: nat, maxHeight: nat, maxWidth: nat)
    requires height < minHeight || height > maxHeight || width < minWidth || width > maxWidth
    ensures Check(Format(height, width), Some(Format(minHeight, minWidth)), Some(Format(maxHeight, maxWidth)))
            == Verdict(false)
  {
    CheckFormatted(height, width, minHeight, minWidth, maxHeight, maxWidth);
  }

  /** A value without the "x" separator has no width part; it reads as 0, so
      the value is rejected whenever the minimum width is positive. */
  lemma NoSeparatorRejected(value: string, min: string, max: string)
    requires Separator !in value
    requires Axes(min).1 > 0
    ensures Check(value, Some(min), Some(max)) == Verdict(false)
  {
    AxesWithoutSeparator(value);
  }

  /** Both boundary sizes of 256x256..1024x1024 are accepted, and so is a
      non-square size inside them. */
  lemma BoundarySizesAccepted()
    ensures Check("256x256", Some(DefaultMin), Some(DefaultMax)) == Verdict(true)
    ensures Check("1024x1024", Some(DefaultMin), Some(DefaultMax)) == Verdict(true)
    ensures Check("512x1024", Some(DefaultMin), Some(DefaultMax)) == Verdict(true)
  {
    assert Format(256, 256) == "256x256" by { assert Decimal(256) == "256"; }
    assert Format(1024, 1024) == "1024x1024" by { assert Decimal(1024) == "1024"; }
    assert Format(512, 1024) == "512x1024" by { assert Decimal(512) == "512"; assert Decimal(1024) == "1024"; }
    CheckFormatted(256, 256, 256, 256, 1024, 1024);
    CheckFormatted(1024, 1024, 256, 256, 1024, 1024);
    CheckFormatted(512, 1024, 256, 256, 1024, 1024);
  }

  /** The default bounds are the texts of 256x256 and 1024x1024. */
  lemma DefaultBoundsFormatted()
    ensures Format(256, 256) == DefaultMin && Format(1024, 1024) == DefaultMax
  {
    assert Decimal(256) == "256";
    assert Decimal(1024) == "1024";
  }

  /** One pixel beyond a bound on one axis is rejected: 1025x1024 (height too
      large) and 256x255 (width too small). */
  lemma OffByOneRejected()
    ensures Check("1025x1024", Some(DefaultMin), Some(DefaultMax)) == Verdict(false)
    ensures Check("256x255", Some(DefaultMin), Some(DefaultMax)) == Verdict(false)
  {
    HeightAboveMaxRejected();
    WidthBelowMinRejected();
  }

  lemma HeightAboveMaxRejected()
    ensures Check("1025x1024", Some(DefaultMin), Some(DefaultMax)) == Verdict(false)
  {
    DefaultBoundsFormatted();
    assert Format(1025, 1024) == "1025x1024" by { assert Decimal(1025) == "1025"; assert Decimal(1024) == "1024"; }
    OneAxisOutOfRange(1025, 1024, 256, 256, 1024, 1024);
  }

  lemma WidthBelowMinRejected()
    ensures Check("256x255", Some(DefaultMin), Some(DefaultMax)) == Verdict(false)
  {
    DefaultBoundsFormatted();
    assert Format(256, 255) == "256x255" by { assert Decimal(256) == "256"; assert Decimal(255) == "255"; }
    OneAxisOutOfRange(256, 255, 256, 256, 1024, 1024);
  }

  /** "256,256" uses the wrong separator: its width reads as 0, below 256. */
  lemma WrongSeparatorRejected()
    ensures Check("256,256", Some(DefaultMin), Some(DefaultMax)) == Verdict(false)
  {
    assert Format(256, 256) == "256x256" by { assert Decimal(256) == "256"; }
    AxesOfFormat(256, 256);
    assert Separator !in "256,256";
    NoSeparatorRejected("256,256", DefaultMin, DefaultMax);
  }

  /** Height comes first: with a non-square maximum, a value is accepted or
      rejected according to which of its numbers is the height. */
  lemma HeightFirst()
    ensures Check("512x1024", Some("256x256"), Some("1024x512")) == Verdict(false)
    ensures Check("1024x512", Some("256x256"), Some("1024x512")) == Verdict(true)
  {
    assert Decimal(256) == "256";
    assert Decimal(512) == "512";
    assert Decimal(1024) == "1024";
    assert Format(512, 1024) == "512x1024";
    assert Format(1024, 512) == "1024x512";
    assert Format(256, 256) == "256x256";
    CheckFormatted(512, 1024, 256, 256, 1024, 512);
    CheckFormatted(1024, 512, 256, 256, 1024, 512);
  }
}
