/** The `imageSize:max_size` rule: a decodable image no larger than a "HxW"
    maximum on either axis, the maximum itself included. */
module ImageSizeRule {
  import opened Php
  import opened Sizes
  import opened RuleParams
  import ImageRule

  /** Both axes at most the maximum, which is read height first. */
  predicate WithinMax(maxSize: string, height: int, width: int)
    ensures height > Axes(maxSize).0 || width > Axes(maxSize).1 ==> !WithinMax(maxSize, height, width)
    ensures |Explode(Separator, maxSize)| == 1 && width > 0 ==> !WithinMax(maxSize, height, width)
  {
    var (maxHeight, maxWidth) := Axes(maxSize);
    height <= maxHeight && width <= maxWidth
  }

  /** `check($value)` on the `max_size` parameter and the metadata
      `getimagesizefromstring($value)` yields (None when it yields false). */
  function Check(maxSize: Option<string>, info: Option<ImageInfo>): (r: Outcome)
    ensures maxSize.None? <==> r.Missing?
    ensures r.Missing? ==> r.param == "max_size"
    ensures maxSize.Some? && info.None? ==> r == Verdict(false)
    ensures maxSize.Some? && info.Some? ==>
              (r == Verdict(true) <==> info.value.height <= Axes(maxSize.value).0
                                       && info.value.width <= Axes(maxSize.value).1)
  {
    if maxSize.None? then Missing("max_size")
    else if info.None? then Verdict(false)
    else
      var width, height := info.value.width, info.value.height;
      Verdict(WithinMax(maxSize.value, height, width))
  }

  /** Against a well-formed maximum the test is inclusive on both axes: an
      image exactly at the maximum is accepted. */
  lemma WithinMaxFormatted(maxHeight: nat, maxWidth: nat, height: int, width: int)
    ensures WithinMax(Format(maxHeight, maxWidth), height, width) <==> height <= maxHeight && width <= maxWidth
  {
    AxesOfFormat(maxHeight, maxWidth);
  }

  /** Whatever the maximum, passing ImageRule's strict size test implies
      passing this inclusive one. */
  lemma StrictImpliesInclusive(maxSize: string, height: int, width: int)
    ensures ImageRule.IsSizeCorrect(maxSize, height, width) ==> WithinMax(maxSize, height, width)
  {
  }

  /** The two size rules disagree exactly on the boundary: an image of exactly
      the maximum size passes this rule and fails ImageRule. */
  lemma BoundaryDisagreement(height: nat, width: nat)
    ensures WithinMax(Format(height, width), height, width)
    ensures !ImageRule.IsSizeCorrect(Format(height, width), height, width)
  {
    WithinMaxFormatted(height, width, height, width);
    ImageRule.SizeCorrectFormatted(height, width, height, width);
  }
}
