/** The resizer: a target size "HxW", a cropping flag and a background
    colour, and the two ways of bringing an image to the target size. */
module Resizing {
  import opened Php
  import opened Sizes
  import opened Geometry
  import opened Imagick
  import opened RuleParams
  import SizeBetweenRule

  const DefaultBackground := "255,255,255"

  /** Both parts of the size string exist and PHP can pass each to an `int`
      parameter; otherwise the constructor throws a TypeError. A size without
      "x" has no width part, so it never parses. */
  predicate SizeParses(size: string)
    ensures SizeParses(size) ==> Separator in size
  {
    var parts := Explode(Separator, size);
    assert Separator !in size ==> |parts| == 1 by {
      if Separator !in size {
        ExplodeWithoutSeparator(Separator, size);
      }
    }
    |parts| >= 2 && HasLeadingInt(parts[0]) && HasLeadingInt(parts[1])
  }

  class Resizer {
    var height: int
    var width: int
    /** 0 keeps the whole image on a background canvas; anything else crops. */
    var cropping: int
    /** An "r,g,b" colour. */
    var background: string

    /** `new Resizer($size, $cropping, $background)`: the size string is split
        on "x" into height then width. */
    constructor (size: string, cropping: int := 0, background: string := DefaultBackground)
      requires SizeParses(size)
      ensures (height, width) == Axes(size)
      ensures this.cropping == cropping && this.background == background
    {
      var parts := Explode(Separator, size);
      new;
      var self := SetHeight(IntCast(parts[0]));
      self := self.SetWidth(IntCast(parts[1]));
      self := self.SetCropping(cropping);
      self := self.SetBackground(background);
    }

    /** Each setter changes its own field only and returns the resizer. */
    method SetHeight(height: int) returns (self: Resizer)
      modifies this`height
      ensures self == this && this.height == height
    {
      this.height := height;
      self := this;
    }

    method SetWidth(width: int) returns (self: Resizer)
      modifies this`width
      ensures self == this && this.width == width
    {
      this.width := width;
      self := this;
    }

    method SetCropping(cropping: int) returns (self: Resizer)
      modifies this`cropping
      ensures self == this && this.cropping == cropping
    {
      this.cropping := cropping;
      self := this;
    }

    method SetBackground(color: string) returns (self: Resizer)
      modifies this`background
      ensures self == this && background == color
    {
      background := color;
      self := this;
    }

    function GetHeight(): (h: int)
      reads this
      ensures h == height
    {
      height
    }

    function GetWidth(): (w: int)
      reads this
      ensures w == width
    {
      width
    }

    /** The stored colour wrapped as "rgb(...)", from which it can be read back. */
    function GetBackground(): (s: string)
      reads this
      ensures |s| == |background| + 5
      ensures s[..4] == "rgb(" && s[4..|s| - 1] == background && s[|s| - 1] == ')'
    {
      "rgb(" + background + ")"
    }

    /** `(bool) $this->cropping`. */
    function HasCropping(): (b: bool)
      reads this
      ensures b <==> cropping != 0
    {
      cropping != 0
    }

    /** `resize($url)` on the image `readImageBlob` decoded from it. With
        cropping, the image itself is cropped to width x height and returned;
        no canvas is made. Without, `createThumbnail` makes a new canvas of
        exactly width x height. */
    method Resize(image: Image) returns (result: Image)
      requires image.Valid() && height > 0 && width > 0
      modifies image
      ensures result.Valid() && result.width == width && result.height == height
      ensures HasCropping() ==>
                && result == image
                && image.format == old(image.format) && image.colorspace == old(image.colorspace)
                && image.fill == old(image.fill) && image.layers == old(image.layers)
      ensures !HasCropping() ==>
                && fresh(result)
                && result.fill == GetBackground()
                && result.format == image.format && result.colorspace == image.colorspace
                && image.format == old(image.format) && image.colorspace == old(image.colorspace)
                && image.fill == old(image.fill) && image.layers == old(image.layers)
                && (image.width, image.height) == FitSize(old(image.width), old(image.height), width, height)
                && result.layers == [Placement(CentreOffset(width, image.width), CentreOffset(height, image.height),
                                               image.width, image.height)]
    {
      if HasCropping() {
        image.CropThumbnailImage(GetWidth(), GetHeight());
        return image;
      }
      result := CreateThumbnail(image);
    }

    /** `createThumbnail`: scale the image to fit, make a width x height
        canvas in the background colour with the scaled image's format and
        colour space, and draw the scaled image centred on it. */
    method CreateThumbnail(image: Image) returns (thumbnail: Image)
      requires image.Valid() && height > 0 && width > 0
      modifies image
      ensures fresh(thumbnail) && thumbnail.Valid()
      ensures thumbnail.width == width && thumbnail.height == height
      ensures thumbnail.fill == GetBackground()
      ensures thumbnail.format == image.format && thumbnail.colorspace == image.colorspace
      ensures (image.width, image.height) == FitSize(old(image.width), old(image.height), width, height)
      ensures image.format == old(image.format) && image.colorspace == old(image.colorspace)
      ensures image.fill == old(image.fill) && image.layers == old(image.layers)
      ensures thumbnail.layers == [Placement(CentreOffset(width, image.width), CentreOffset(height, image.height),
                                             image.width, image.height)]
      ensures var p := thumbnail.layers[0];
              && 0 <= p.x && p.x + p.width <= thumbnail.width
              && 0 <= p.y && p.y + p.height <= thumbnail.height
    {
      var resizedImage := ResizeAdaptive(image);
      var imageHeight := resizedImage.height;
      var imageWidth := resizedImage.width;

      var backgroundHeight := GetHeight();
      var backgroundWidth := GetWidth();

      thumbnail := new Image.NewImage(backgroundWidth, backgroundHeight, GetBackground());
      thumbnail.SetImageFormat(resizedImage.format);
      thumbnail.SetImageColorspace(resizedImage.colorspace);

      var xLocation := CentreOffset(backgroundWidth, imageWidth);
      var yLocation := CentreOffset(backgroundHeight, imageHeight);

      thumbnail.CompositeImage(resizedImage, xLocation, yLocation);
    }

    /** `resizeAdaptive`: scales the given image in place to `FitSize` of its
        old size and the target size, and returns it. */
    method ResizeAdaptive(image: Image) returns (resized: Image)
      requires image.Valid() && height > 0 && width > 0
      modifies image
      ensures resized == image && image.Valid()
      ensures (image.width, image.height) == FitSize(old(image.width), old(image.height), width, height)
      ensures image.format == old(image.format) && image.colorspace == old(image.colorspace)
      ensures image.fill == old(image.fill) && image.layers == old(image.layers)
    {
      var oldHeight := image.height;
      var oldWidth := image.width;

      var maxHeight := GetHeight();
      var maxWidth := GetWidth();

      var newWidth, newHeight;
      if WidthBinds(oldWidth, oldHeight, maxWidth, maxHeight) {
        newHeight := CeilDiv(maxWidth * oldHeight, oldWidth);
        newWidth := maxWidth;
      } else {
        newWidth := CeilDiv(maxHeight * oldWidth, oldHeight);
        newHeight := maxHeight;
      }
      assert (newWidth, newHeight) == FitSize(oldWidth, oldHeight, maxWidth, maxHeight);

      image.ResizeImage(newWidth, newHeight);
      return image;
    }
  }

  /** The size string a request carries is read back exactly by the
      constructor: "HxW" gives height H and width W. */
  lemma SizeRoundTrip(height: nat, width: nat)
    ensures SizeParses(Format(height, width))
    ensures Axes(Format(height, width)) == (height, width)
  {
    FormatParts(height, width);
    AxesOfFormat(height, width);
    IntCastDecimal(height);
    IntCastDecimal(width);
  }

  /** Every size the API's `sizeBetween:256x256,1024x1024` rule accepts is one
      the constructor takes, with both sides between 256 and 1024, so the
      resizer built from it has a positive target size. */
  lemma ValidatedSizeParses(size: string)
    requires SizeBetweenRule.Check(size, Some(SizeBetweenRule.DefaultMin), Some(SizeBetweenRule.DefaultMax))
             == Verdict(true)
    ensures SizeParses(size)
    ensures 256 <= Axes(size).0 <= 1024 && 256 <= Axes(size).1 <= 1024
  {
    SizeBetweenRule.DefaultBoundsFormatted();
    AxesOfFormat(256, 256);
    AxesOfFormat(1024, 1024);
    var parts := Explode(Separator, size);
    assert |parts| >= 2;
    assert HasLeadingInt(parts[0]) && HasLeadingInt(parts[1]);
  }

  /** The size strings of the API's scenarios parse to their numbers. */
  lemma SquareScenarioSize()
    ensures SizeParses("256x256") && Axes("256x256") == (256, 256)
  {
    assert Format(256, 256) == "256x256" by { assert Decimal(256) == "256"; }
    SizeRoundTrip(256, 256);
  }

  lemma WideScenarioSize()
    ensures SizeParses("512x1024") && Axes("512x1024") == (512, 1024)
  {
    assert Format(512, 1024) == "512x1024" by { assert Decimal(512) == "512"; assert Decimal(1024) == "1024"; }
    SizeRoundTrip(512, 1024);
  }

  /** The API's fit-mode request "256x256" without cropping, on a photo of an
      assumed size of 3000 wide by 4000 high: it becomes 192x256, centred 32
      pixels from the left edge on a white 256x256 canvas. */
  method PortraitScenario() returns (result: Image)
    ensures result.width == 256 && result.height == 256
    ensures result.fill == "rgb(255,255,255)"
    ensures result.layers == [Placement(32, 0, 192, 256)]
  {
    SquareScenarioSize();
    PortraitInSquareBox();
    var resizer := new Resizer("256x256");
    var photo := new Image.Decoded(3000, 4000, "JPEG", 1);
    result := resizer.Resize(photo);
    assert CentreOffset(256, 192) == 32;
  }

  /** The API's fill-mode scenario: with cropping, "512x1024" yields the
      photo itself cropped to 1024 wide and 512 high. */
  method CroppingScenario() returns (result: Image, photo: Image)
    ensures result == photo && result.width == 1024 && result.height == 512
    ensures result.layers == []
  {
    WideScenarioSize();
    var resizer := new Resizer("512x1024", 1);
    photo := new Image.Decoded(3000, 4000, "JPEG", 1);
    result := resizer.Resize(photo);
  }
}
