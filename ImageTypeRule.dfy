/** The `imageType` rule: a decodable image whose mime type maps to one of
    the allowed extensions (any type when none are listed). */
module ImageTypeRule {
  import opened Php
  import opened RuleParams

  /** The verdict of `check` once `allowed_types` is present. */
  function Accepts(allowed: seq<Value>, info: Option<ImageInfo>, guess: Guesser): (ok: bool)
    ensures info.None? ==> !ok
    ensures info.Some? && |allowed| == 0 ==> ok
    ensures info.Some? && |allowed| > 0 ==>
              (ok <==> guess(info.value.mime).Some? && Str(guess(info.value.mime).value) in allowed)
  {
    info.Some? && AllowedType(allowed, info.value.mime, guess)
  }

  /** The rule as configured with `jpg,jpeg`: a jpeg passes, a png does not,
      and the message lists the types as "jpg, jpeg". */
  lemma ConfiguredForJpeg(guess: Guesser, width: int, height: int)
    requires guess("image/jpeg") == Some("jpeg") && guess("image/png") == Some("png")
    ensures var allowed := Flatten([Str("jpg"), Str("jpeg")]);
            && Accepts(allowed, Some(ImageInfo(width, height, "image/jpeg")), guess)
            && !Accepts(allowed, Some(ImageInfo(width, height, "image/png")), guess)
            && Implode(", ", allowed) == "jpg, jpeg"
  {
    assert Str("png") !in [Str("jpg"), Str("jpeg")];
    ImplodeTwo("jpg", "jpeg");
  }

  /** A rule object: the parameter dictionary and the texts substituted into
      its message. */
  class ImageTypeRule {
    var params: map<string, Value>
    var paramTexts: map<string, string>

    ghost predicate Valid()
      reads this
    {
      "allowed_types" in params ==> params["allowed_types"].List?
    }

    constructor ()
      ensures Valid() && params == map[] && paramTexts == map[]
    {
      params := map[];
      paramTexts := map[];
    }

    /** `fillParameters($params)`: `allowed_types` becomes the flattened
        argument list; returns the rule itself. */
    method FillParameters(args: seq<Value>) returns (self: ImageTypeRule)
      requires Valid()
      modifies this`params
      ensures Valid() && self == this
      ensures params == old(params)["allowed_types" := List(Flatten(args))]
    {
      var allowed := args;
      if |args| == 1 && args[0].List? {
        allowed := args[0].items;
      }
      params := params["allowed_types" := List(allowed)];
      self := this;
    }

    /** `check($value)` on the metadata `getimagesizefromstring($value)`
        yields (None when it yields false). */
    method Check(info: Option<ImageInfo>, guess: Guesser) returns (r: Outcome)
      requires Valid()
      modifies this`paramTexts
      ensures "allowed_types" !in params ==> r == Missing("allowed_types") && paramTexts == old(paramTexts)
      ensures "allowed_types" in params ==>
                && paramTexts == old(paramTexts)["allowed_types" := Implode(", ", params["allowed_types"].items)]
                && r == Verdict(Accepts(params["allowed_types"].items, info, guess))
    {
      if "allowed_types" !in params {
        return Missing("allowed_types");
      }
      var allowed := params["allowed_types"].items;
      paramTexts := paramTexts["allowed_types" := Implode(", ", allowed)];
      if info.None? {
        return Verdict(false);
      }
      r := Verdict(AllowedType(allowed, info.value.mime, guess));
    }
  }
}
