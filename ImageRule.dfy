/** The `image` rule: decodable image metadata, an allowed type and a size
    strictly below a "HxW" maximum (2048x2048 unless set otherwise). */
module ImageRule {
  import opened Php
  import opened Sizes
  import opened RuleParams

  const DefaultMaxSize := "2048x2048"

  /** The parameter dictionary after `fillParameters(args)`: `max_size` gets
      its default only when it is absent, and `allowed_types` becomes the
      flattened argument list; nothing else changes. */
  function Filled(params: map<string, Value>, args: seq<Value>): (r: map<string, Value>)
    ensures r.Keys == params.Keys + {"max_size", "allowed_types"}
    ensures r["max_size"] == if "max_size" in params then params["max_size"] else Str(DefaultMaxSize)
    ensures r["allowed_types"] == List(Flatten(args))
    ensures forall k :: k in params && k != "max_size" && k != "allowed_types" ==> r[k] == params[k]
  {
    var withMax := if "max_size" in params then params else params["max_size" := Str(DefaultMaxSize)];
    withMax["allowed_types" := List(Flatten(args))]
  }

  /** `isSizeCorrect($height, $width)`: both axes strictly below the maximum,
      which is read height first. */
  predicate IsSizeCorrect(maxSize: string, height: int, width: int)
    ensures height >= Axes(maxSize).0 || width >= Axes(maxSize).1 ==> !IsSizeCorrect(maxSize, height, width)
    ensures |Explode(Separator, maxSize)| == 1 && width >= 0 ==> !IsSizeCorrect(maxSize, height, width)
  {
    var (maxHeight, maxWidth) := Axes(maxSize);
    height < maxHeight && width < maxWidth
  }

  /** The verdict of `check` once the parameters are present: metadata must
      exist, and then the type must be allowed and the size correct, where the
      metadata lists the width before the height. */
  function Accepts(allowed: seq<Value>, maxSize: string, info: Option<ImageInfo>, guess: Guesser): (ok: bool)
    ensures info.None? ==> !ok
    ensures info.Some? ==>
              (ok <==> AllowedType(allowed, info.value.mime, guess)
                       && Axes(maxSize).0 > info.value.height
                       && Axes(maxSize).1 > info.value.width)
  {
    match info
    case None => false
    case Some(ImageInfo(width, height, mime)) => AllowedType(allowed, mime, guess) && IsSizeCorrect(maxSize, height, width)
  }

  /** Against a well-formed maximum the size test is strict on both axes: an
      image exactly at the maximum is rejected. */
  lemma SizeCorrectFormatted(maxHeight: nat, maxWidth: nat, height: int, width: int)
    ensures IsSizeCorrect(Format(maxHeight, maxWidth), height, width) <==> height < maxHeight && width < maxWidth
  {
    AxesOfFormat(maxHeight, maxWidth);
  }

  /** With the default maximum 2048x2048 a 2047x2047 image passes, and one
      that reaches 2048 on either axis fails. */
  lemma DefaultMaximum(height: int, width: int)
    ensures IsSizeCorrect(DefaultMaxSize, height, width) <==> height < 2048 && width < 2048
  {
    assert Format(2048, 2048) == DefaultMaxSize by { assert Decimal(2048) == "2048"; }
    SizeCorrectFormatted(2048, 2048, height, width);
  }

  /** The metadata is (width, height) while the maximum is height x width: a
      3000 wide, 1000 high image fits under "2048x4096" but not under
      "4096x2048". */
  lemma MetadataOrder(guess: Guesser)
    ensures Accepts([], "2048x4096", Some(ImageInfo(3000, 1000, "image/jpeg")), guess)
    ensures !Accepts([], "4096x2048", Some(ImageInfo(3000, 1000, "image/jpeg")), guess)
  {
    assert Format(2048, 4096) == "2048x4096" by { assert Decimal(2048) == "2048"; assert Decimal(4096) == "4096"; }
    assert Format(4096, 2048) == "4096x2048" by { assert Decimal(2048) == "2048"; assert Decimal(4096) == "4096"; }
    AxesOfFormat(2048, 4096);
    AxesOfFormat(4096, 2048);
  }

  /** The rule as the API registers it (`image:jpg,jpeg`, default maximum): a
      2047x2047 jpeg passes; a 2048 pixel wide jpeg and a png fail. */
  lemma ConfiguredForJpeg(guess: Guesser)
    requires guess("image/jpeg") == Some("jpeg") && guess("image/png") == Some("png")
    ensures var p := Filled(map[], [Str("jpg"), Str("jpeg")]);
            && p["max_size"] == Str(DefaultMaxSize)
            && Accepts(p["allowed_types"].items, p["max_size"].s, Some(ImageInfo(2047, 2047, "image/jpeg")), guess)
            && !Accepts(p["allowed_types"].items, p["max_size"].s, Some(ImageInfo(2048, 100, "image/jpeg")), guess)
            && !Accepts(p["allowed_types"].items, p["max_size"].s, Some(ImageInfo(100, 100, "image/png")), guess)
  {
    var p := Filled(map[], [Str("jpg"), Str("jpeg")]);
    assert p["allowed_types"].items == [Str("jpg"), Str("jpeg")];
    DefaultMaximum(2047, 2047);
    DefaultMaximum(100, 2048);
    assert Str("png") !in [Str("jpg"), Str("jpeg")];
  }

  /** A rule object: the parameter dictionary and the texts substituted into
      its message. */
  class ImageRule {
    var params: map<string, Value>
    var paramTexts: map<string, string>

    /** `max_size` is always a string, `allowed_types` always a list, and
        `allowed_types` is only ever written together with `max_size`. */
    ghost predicate Valid()
      reads this
    {
      && ("max_size" in params ==> params["max_size"].Str?)
      && ("allowed_types" in params ==> params["allowed_types"].List? && "max_size" in params)
    }

    constructor ()
      ensures Valid() && params == map[] && paramTexts == map[]
    {
      params := map[];
      paramTexts := map[];
    }

    /** `fillParameters($params)`; returns the rule itself. */
    method FillParameters(args: seq<Value>) returns (self: ImageRule)
      requires Valid()
      modifies this`params
      ensures Valid() && self == this
      ensures params == Filled(old(params), args)
    {
      if "max_size" !in params {
        params := params["max_size" := Str(DefaultMaxSize)];
      }
      var allowed := args;
      if |args| == 1 && args[0].List? {
        allowed := args[0].items;
      }
      params := params["allowed_types" := List(allowed)];
      self := this;
    }

    /** `maxSize($maxSize)`: overwrites `max_size`; returns the rule itself. */
    method MaxSize(maxSize: string) returns (self: ImageRule)
      requires Valid()
      modifies this`params
      ensures Valid() && self == this
      ensures params == old(params)["max_size" := Str(maxSize)]
    {
      params := params["max_size" := Str(maxSize)];
      self := this;
    }

    /** `check($value)` on the metadata `getimagesize($value)` yields (None
        when it yields false): requires `allowed_types`, writes the message
        text of the allowed types, then decides. */
    method Check(info: Option<ImageInfo>, guess: Guesser) returns (r: Outcome)
      requires Valid()
      modifies this`paramTexts
      ensures "allowed_types" !in params ==> r == Missing("allowed_types") && paramTexts == old(paramTexts)
      ensures "allowed_types" in params ==>
                && paramTexts == old(paramTexts)["allowed_types" := Implode(", ", params["allowed_types"].items)]
                && r == Verdict(Accepts(params["allowed_types"].items, params["max_size"].s, info, guess))
    {
      if "allowed_types" !in params {
        return Missing("allowed_types");
      }
      var allowed := params["allowed_types"].items;
      paramTexts := paramTexts["allowed_types" := Implode(", ", allowed)];
      if info.None? {
        return Verdict(false);
      }
      var width, height, mime := info.value.width, info.value.height, info.value.mime;
      r := Verdict(AllowedType(allowed, mime, guess) && IsSizeCorrect(params["max_size"].s, height, width));
    }
  }

  /** A maximum set with `maxSize` survives a later `fillParameters`. */
  method MaxSizeThenFill(maxSize: string, args: seq<Value>) returns (rule: ImageRule)
    ensures fresh(rule) && rule.Valid()
    ensures "max_size" in rule.params && rule.params["max_size"] == Str(maxSize)
    ensures "allowed_types" in rule.params && rule.params["allowed_types"] == List(Flatten(args))
  {
    rule := new ImageRule();
    var _ := rule.MaxSize(maxSize);
    var _ := rule.FillParameters(args);
  }
}
