/** An Imagick image reduced to what the resizer reads and changes. Pixels,
    decoding, resampling and blending are not modelled: each operation keeps
    only its effect on the image's dimensions and attributes. */
module Imagick {

  /** Where `compositeImage` drew another image: its offset and its size. */
  datatype Placement = Placement(x: int, y: int, width: int, height: int)

  class Image {
    var width: int
    var height: int
    var format: string
    var colorspace: int
    /** The colour `newImage` filled the image with ("" for a decoded image). */
    var fill: string
    /** The images composited onto this one, in order. */
    var layers: seq<Placement>

    /** Imagick images always have at least one pixel on each axis. */
    ghost predicate Valid()
      reads this
    {
      width > 0 && height > 0
    }

    /** An image as `readImageBlob` decodes it. */
    constructor Decoded(width: int, height: int, format: string, colorspace: int)
      requires width > 0 && height > 0
      ensures Valid()
      ensures this.width == width && this.height == height
      ensures this.format == format && this.colorspace == colorspace
      ensures fill == "" && layers == []
    {
      this.width := width;
      this.height := height;
      this.format := format;
      this.colorspace := colorspace;
      fill := "";
      layers := [];
    }

    /** `new Imagick()` followed by `newImage($columns, $rows, $background)`:
        a blank image of that size filled with that colour. Its format and
        colour space are Imagick's defaults, which this model leaves open. */
    constructor NewImage(columns: int, rows: int, background: string)
      requires columns > 0 && rows > 0
      ensures Valid()
      ensures width == columns && height == rows
      ensures fill == background && layers == []
    {
      width := columns;
      height := rows;
      format := "";
      colorspace := 0;
      fill := background;
      layers := [];
    }

    /** `resizeImage($columns, $rows, ...)`: the image now has exactly that size. */
    method ResizeImage(columns: int, rows: int)
      requires Valid() && columns > 0 && rows > 0
      modifies this`width, this`height
      ensures Valid() && width == columns && height == rows
    {
      width := columns;
      height := rows;
    }

    /** `cropThumbnailImage($width, $height)`: scaled to cover the box and
        cropped to it, so the image now has exactly that size. */
    method CropThumbnailImage(width: int, height: int)
      requires Valid() && width > 0 && height > 0
      modifies this`width, this`height
      ensures Valid() && this.width == width && this.height == height
    {
      this.width := width;
      this.height := height;
    }

    method SetImageFormat(format: string)
      modifies this`format
      ensures this.format == format
    {
      this.format := format;
    }

    method SetImageColorspace(colorspace: int)
      modifies this`colorspace
      ensures this.colorspace == colorspace
    {
      this.colorspace := colorspace;
    }

    /** `compositeImage($source, ..., $x, $y)`: draws `source` at (x, y); the
        canvas keeps its size. */
    method CompositeImage(source: Image, x: int, y: int)
      modifies this`layers
      ensures layers == old(layers) + [Placement(x, y, source.width, source.height)]
    {
      layers := layers + [Placement(x, y, source.width, source.height)];
    }
  }
}
