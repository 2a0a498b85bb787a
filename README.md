# php-resizer in Dafny

This project models the image-resizing core of php-resizer and the validation rules that
bound its inputs.

- **`Resizer`** holds a target size, a cropping flag and a background colour. The target
  size is given as `"HxW"`, height first.
  - With cropping, it crops the image to exactly width x height.
  - Without cropping, it scales the image to fit inside the box, keeping its proportions.
    It then centres the result on a new canvas of exactly the box size, filled with the
    background colour.
- **Validation rules**, each a `check` over a request value:
  - `sizeBetween:min,max` bounds each axis of the `"HxW"` size, inclusively.
  - `background` accepts an optional `"r,g,b"` colour with 0..255 channels.
  - `image:types` accepts a decodable image of an allowed type, strictly below `max_size`
    (default `2048x2048`).
  - `imageSize:max_size` bounds the image size, inclusively.
  - `imageType:types` checks only the type.

## Structure

- **`Php`** (`Php.dfy`) models the PHP built-ins the code relies on:
  - `explode` and `implode`;
  - list destructuring, where a missing key reads as null;
  - the `(int)` cast of a string;
  - `ctype_digit` and string truthiness.
- **`Sizes`** reads `"HxW"` strings. `Axes` is `explode('x', …)` followed by `(int)` casts.
- **`RuleParams`** holds what the rules share:
  - parameter values;
  - `Outcome`: a verdict, or the missing-parameter exception of `requireParameters`;
  - the image metadata;
  - the allowed-type test.
- One module per rule:
  - `SizeBetweenRule` and `BackgroundRule` are pure functions.
  - `ImageRule` and `ImageTypeRule` are classes whose `params` and `paramTexts` maps are
    updated by `fillParameters`, `maxSize` and `check`. Each has pure specification
    functions beside it (`Filled`, `Accepts`).
  - `ImageSizeRule` is a pure function of its `max_size` parameter and the metadata.
- **`Geometry`** holds the fit-mode arithmetic on exact integers:
  - `FitSize` is the target size;
  - `CentreOffset` is the centring offset.

  The lemmas `FitSizeExact` and `CentreOffsetExact` show that these integer forms equal the
  source's own expressions (`ceil`, `round`, divisions) evaluated on exact reals.
- **`Imagick`** is an image class that keeps only what the resizer reads and changes:
  - its size, format and colour space;
  - the fill colour of a new canvas;
  - the placements of composited images.
- **`Resizing`** holds the `Resizer` class:
  - the constructor;
  - the chained setters, each changing only its own field;
  - the getters;
  - `Resize`, `CreateThumbnail` and `ResizeAdaptive`, which update `Image` objects in place
    or create new ones, as the source does.

Notes on how the code behaves:

- **Malformed size strings.** The validation rules (`sizeBetween`, `image`, `imageSize`)
  raise no error on a malformed size string. They cast each part with `(int)`, and a
  missing width part reads as 0. The `Resizer` constructor is stricter: it passes each
  part to an `int` parameter, so PHP throws a TypeError for `"256"` (no width part) or
  `"abcx256"` (no leading integer). The model states this as the constructor's
  precondition `SizeParses`. `ValidatedSizeParses` shows that every size the API's
  `sizeBetween:256x256,1024x1024` rule accepts meets it.
- **Size bounds.** The `image` rule's bound is strict, while the `imageSize` rule's is
  inclusive (`BoundaryDisagreement`). Neither rule's message matches its comparison:
  - the API's message for the `image` rule (src/Validation/Validator.php:28) promises
    "less than or equal", but the rule rejects an image of exactly `max_size`;
  - `ImageSizeRule`'s own message (src/Validation/Rules/ImageSizeRule.php:20) says "less
    than", but its test accepts an image of exactly `max_size`.
- **Rounding.** `round` rounds halves away from zero.
- **In-place resize.** `resizeAdaptive` scales the given image in place and returns that
  same image.

## Model

| member | source | states |
|---|---|---|
| Php.Explode | src/Resizer.php:59 | `explode` on a one-character separator yields at least one part, and no part contains the separator |
| Php.Join | src/Validation/Rules/ImageRule.php:75 | `implode(glue, parts)`: "" for no parts, and otherwise the result begins with the first part; the inverse relation to `explode` is `JoinExplode` and `ExplodeJoin` |
| Php.JoinExplode | src/Resizer.php:59 | joining the parts of `explode` with the separator gives back the input string |
| Php.ExplodeJoin | src/Validation/Rules/BackgroundRule.php:40 | exploding separator-free parts joined by the separator gives back exactly those parts |
| Php.ListItem | src/Validation/Rules/SizeBetweenRule.php:35 | list destructuring yields the element at an index when it exists and null (None) past the end |
| Php.IntCastOfDigits | src/Validation/Rules/SizeBetweenRule.php:37-38 | `(int)` of a digit string is its decimal value, and such a string is accepted by an `int` parameter |
| Php.IntCastDecimal | src/Validation/Rules/SizeBetweenRule.php:37-38 | `(int)` reads back the decimal text of every natural number |
| Php.IntCastPrefix | src/Validation/Rules/SizeBetweenRule.php:37-38 | `(int)` stops at the first non-digit: digits followed by other text cast to the digits' value |
| Php.IntCast | src/Validation/Rules/SizeBetweenRule.php:37-38 | `(int)` of a string: a string with no leading integer casts to 0, and a negative result comes only from a leading minus sign |
| Php.IntCastSigned | src/Validation/Rules/SizeBetweenRule.php:37-38 | `(int)` of a minus sign followed by digits is the negated decimal value of the digits, whatever non-digit text follows |
| Php.IntCastOpt | src/Validation/Rules/SizeBetweenRule.php:35-38 | `(int) null` (a part missing from the list destructuring) is 0, and a present part is cast as a string |
| Php.HasLeadingInt | src/Resizer.php:94-112 | a string accepted by an `int` parameter is non-empty, and every string that starts with a digit is accepted |
| Php.CtypeDigit | src/Validation/Rules/BackgroundRule.php:47 | a string that passes `ctype_digit` starts with neither white space nor a sign |
| Php.Falsy | src/Validation/Rules/BackgroundRule.php:36 | only "" and "0" are falsy strings, and both cast to 0 |
| Sizes.AxesOfFormat | src/Validation/Rules/SizeBetweenRule.php:32-38 | reading `"HxW"` (explode on x, then cast both parts) gives back height H and width W |
| Sizes.Axes | src/Validation/Rules/SizeBetweenRule.php:32-38 | reading `"HxW"` as (height, width); when the string has no `x` the missing width part reads as 0 |
| Sizes.AxesWithoutSeparator | src/Validation/Rules/SizeBetweenRule.php:35-38 | without an `x` the whole string is the height and the missing width reads as 0 |
| Sizes.AxesIgnoresExtraParts | src/Validation/Rules/SizeBetweenRule.php:35 | text after a second `x` is ignored: `"HxWx…"` reads as H and W |
| RuleParams.Flatten | src/Validation/Rules/ImageRule.php:43-47 | one array argument stands for its elements; any other argument list is kept unchanged |
| RuleParams.AllowedType | src/Validation/Rules/ImageRule.php:96-112 | `isAllowedType`: an empty list admits every type; a non-empty list admits only a mime type whose extension the guesser knows |
| RuleParams.Text | src/Validation/Rules/ImageRule.php:75 | `implode` prints a string parameter as itself and an array parameter as "Array" |
| RuleParams.Implode | src/Validation/Rules/ImageRule.php:75 | `implode(', ', …)` of the allowed types: "" for none and the single text for one |
| RuleParams.AllowedTypeMeaning | src/Validation/Rules/ImageRule.php:96-112 | an empty list admits every type; a non-empty list admits a type exactly when its guessed extension strictly equals a string element of the list, so nested arrays and unknown types never match |
| RuleParams.ImplodeTwo | src/Validation/Rules/ImageTypeRule.php:51-52 | the message text of two allowed types is them joined by ", " |
| SizeBetweenRule.Check | src/Validation/Rules/SizeBetweenRule.php:25-41 | a missing `min` (checked first) or `max` is the missing-parameter outcome; otherwise the value is accepted exactly when both its height and its width lie within the bounds, ends included |
| SizeBetweenRule.CheckFormatted | src/Validation/Rules/SizeBetweenRule.php:37-40 | on `"HxW"` texts of naturals the verdict is exactly `minH <= H <= maxH && minW <= W <= maxW` |
| SizeBetweenRule.OneAxisOutOfRange | src/Validation/Rules/SizeBetweenRule.php:37-40 | one axis outside its bounds rejects the value whatever the other axis |
| SizeBetweenRule.NoSeparatorRejected | src/Validation/Rules/SizeBetweenRule.php:35-38 | a value without `x` is rejected whenever the minimum width is positive |
| SizeBetweenRule.BoundarySizesAccepted | tests/ApiCest.php:117-135 | 256x256, 1024x1024 and 512x1024 pass `sizeBetween:256x256,1024x1024` |
| SizeBetweenRule.OffByOneRejected | tests/ApiCest.php:82-91 | 1025x1024 and 256x255 are rejected |
| SizeBetweenRule.HeightAboveMaxRejected | tests/ApiCest.php:82-86 | 1025x1024 is rejected: its height is one above the maximum |
| SizeBetweenRule.WidthBelowMinRejected | tests/ApiCest.php:87-91 | 256x255 is rejected: its width is one below the minimum |
| SizeBetweenRule.DefaultBoundsFormatted | src/Validation/Validator.php:44 | the API's bounds "256x256" and "1024x1024" are the texts of 256 by 256 and 1024 by 1024 |
| SizeBetweenRule.WrongSeparatorRejected | tests/ApiCest.php:92-96 | "256,256" is rejected |
| SizeBetweenRule.HeightFirst | src/Validation/Rules/SizeBetweenRule.php:32-35 | the first number is the height: 1024x512 fits a 1024x512 maximum and 512x1024 does not |
| BackgroundRule.ReduceIsConjunction | src/Validation/Rules/BackgroundRule.php:46-56 | the `array_reduce` fold is true exactly when the initial value is true and every part is a digit string of value at most 255 |
| BackgroundRule.Check | src/Validation/Rules/BackgroundRule.php:34-57 | a falsy value ("" or "0") passes; any other value passes exactly when it splits on "," into three parts that are all digit strings of value at most 255 |
| BackgroundRule.CheckRgb | src/Validation/Rules/BackgroundRule.php:40-56 | "r,g,b" written in decimal passes exactly when every channel is at most 255 |
| BackgroundRule.ChannelScenarios | src/Validation/Rules/BackgroundRule.php:36-53 | "255,255,255", "" and "0" pass; a channel of 256 in the first or last position fails |
| BackgroundRule.DigitScenarios | src/Validation/Rules/BackgroundRule.php:47-49 | a sign, a leading space or an empty part fails |
| BackgroundRule.PartCountScenarios | src/Validation/Rules/BackgroundRule.php:42-44 | two or four parts fail |
| BackgroundRule.Step | src/Validation/Rules/BackgroundRule.php:46-56 | the closure keeps the running verdict exactly when the part is a digit string of value at most 255 |
| BackgroundRule.Reduce | src/Validation/Rules/BackgroundRule.php:46-56 | the `array_reduce` fold: a false initial verdict, or one turned false, stays false |
| ImageRule.Filled | src/Validation/Rules/ImageRule.php:37-50 | `max_size` gets the 2048x2048 default only when absent; `allowed_types` becomes the flattened arguments; no other key changes |
| ImageRule.Accepts | src/Validation/Rules/ImageRule.php:71-88 | no metadata rejects; otherwise the type must be allowed and the metadata's height (index 1) and width (index 0) must be strictly below the maximum's height and width |
| ImageRule.SizeCorrectFormatted | src/Validation/Rules/ImageRule.php:121-130 | against `"HxW"` the size test is `height < H && width < W`, so an image of exactly the maximum size fails |
| ImageRule.IsSizeCorrect | src/Validation/Rules/ImageRule.php:121-130 | an image reaching the maximum's height or width fails; a maximum without `x` has width 0 and fails every image |
| ImageRule.DefaultMaximum | src/Validation/Rules/ImageRule.php:21 | with the default maximum an image passes the size test exactly when both sides are below 2048 |
| ImageRule.MetadataOrder | src/Validation/Rules/ImageRule.php:84-87 | a 3000 wide, 1000 high image fits under "2048x4096" but not under "4096x2048" |
| ImageRule.ConfiguredForJpeg | src/Validation/Validator.php:35-43 | `image:jpg,jpeg` with the default maximum passes a 2047x2047 jpeg and rejects a 2048-wide jpeg and a png |
| ImageRule.ImageRule.FillParameters | src/Validation/Rules/ImageRule.php:37-50 | the parameter map becomes `Filled` of the old map and the arguments; the rule's invariant is kept and the rule itself is returned |
| ImageRule.ImageRule.MaxSize | src/Validation/Rules/ImageRule.php:58-63 | only `max_size` changes, to the given text; the rule itself is returned |
| ImageRule.ImageRule.Check | src/Validation/Rules/ImageRule.php:71-88 | without `allowed_types` the missing-parameter outcome and no text change; otherwise the allowed-types message text is set to their ", " join and the verdict is `Accepts` |
| ImageRule.MaxSizeThenFill | src/Validation/Rules/ImageRule.php:39-41 | a maximum set with `maxSize` before `fillParameters` is kept, not replaced by the default |
| ImageSizeRule.Check | src/Validation/Rules/ImageSizeRule.php:36-55 | a missing `max_size` is the missing-parameter outcome; undecodable data is rejected; otherwise accepted exactly when height and width are at most the maximum's |
| ImageSizeRule.WithinMaxFormatted | src/Validation/Rules/ImageSizeRule.php:48-54 | against `"HxW"` the test is `height <= H && width <= W` |
| ImageSizeRule.WithinMax | src/Validation/Rules/ImageSizeRule.php:48-54 | an image beyond the maximum's height or width fails; a maximum without `x` fails every image of positive width |
| ImageSizeRule.StrictImpliesInclusive | src/Validation/Rules/ImageSizeRule.php:51-54 | every size the `image` rule's strict test passes also passes this rule's test |
| ImageSizeRule.BoundaryDisagreement | src/Validation/Rules/ImageSizeRule.php:51-52 | an image of exactly the maximum size passes this rule and fails the `image` rule's size test |
| ImageTypeRule.Accepts | src/Validation/Rules/ImageTypeRule.php:47-85 | undecodable data is rejected; an empty list admits every type; otherwise the guessed extension must be in the list |
| ImageTypeRule.ConfiguredForJpeg | src/Validation/Rules/ImageTypeRule.php:47-61 | with `jpg,jpeg` a jpeg passes, a png fails and the message text is "jpg, jpeg" |
| ImageTypeRule.ImageTypeRule.FillParameters | src/Validation/Rules/ImageTypeRule.php:29-38 | only `allowed_types` changes, to the flattened arguments; the rule itself is returned |
| ImageTypeRule.ImageTypeRule.Check | src/Validation/Rules/ImageTypeRule.php:47-61 | without `allowed_types` the missing-parameter outcome; otherwise the message text is set to the ", " join and the verdict is `Accepts` |
| Geometry.CeilDiv | src/Resizer.php:233 | the result q is the ceiling of a / b: `(q-1)*b < a <= q*b` |
| Geometry.WidthBinds | src/Resizer.php:229-232 | the fit-mode branch test, multiplied through by the old width (`RatioTestExact` proves it equal to the source's test); when it holds, the image's and the box's proportions differ, so a same-proportion image always takes the height branch |
| Geometry.Ceil | src/Resizer.php:233-236 | `ceil(x)` is the least integer at or above x: `c - 1 < x <= c` |
| Geometry.FitSize | src/Resizer.php:229-238 | the new size lies inside the box with positive sides; on the binding axis it equals the box; the other side is the proportional size rounded up |
| Geometry.FitSizeExact | src/Resizer.php:229-238 | the source's branches, with its divisions and `ceil`, evaluated on exact reals, give `FitSize` |
| Geometry.RatioTestExact | src/Resizer.php:229-232 | the source's test `xRatio * oldHeight < maxHeight` on exact reals is the integer test `maxWidth*oldHeight < maxHeight*oldWidth` |
| Geometry.CeilOfQuotient | src/Resizer.php:233-236 | `ceil` of an exact quotient equals integer ceiling division |
| Geometry.FitSizeIdempotent | src/Resizer.php:221-243 | an image already of the box's size keeps its size |
| Geometry.PortraitInSquareBox | src/Resizer.php:229-238 | a 3000 wide, 4000 high image in a 256x256 box becomes 192x256 |
| Geometry.Round | src/Resizer.php:200-201 | `round(x)` lies within one half of x, and an exact half is rounded away from zero |
| Geometry.RoundHalf | src/Resizer.php:200-201 | `round(d/2)` rounds halves away from zero: `2r - d` is 0, or the sign of an odd d |
| Geometry.CentreOffset | src/Resizer.php:200-201 | an image no larger than the canvas lies wholly on it, and its leading margin exceeds the trailing one by 0 or 1 |
| Geometry.CentreOffsetExact | src/Resizer.php:200-201 | `round(canvas/2 - image/2)` on exact reals equals `CentreOffset` |
| Geometry.FitCentred | src/Resizer.php:188-208 | the scaled image, centred, lies on the canvas and has no margin on at least one axis |
| Resizing.Resizer.constructor | src/Resizer.php:57-65 | height and width are the two parts of the size string cast to integers, height first; cropping and background are as given |
| Resizing.Resizer.SetHeight | src/Resizer.php:94-99 | only the height changes, to the given value; the resizer itself is returned |
| Resizing.Resizer.SetWidth | src/Resizer.php:107-112 | only the width changes; the resizer itself is returned |
| Resizing.Resizer.SetCropping | src/Resizer.php:120-125 | only the cropping flag changes; the resizer itself is returned |
| Resizing.Resizer.SetBackground | src/Resizer.php:133-138 | only the background changes; the resizer itself is returned |
| Resizing.Resizer.GetHeight | src/Resizer.php:145-148 | the stored target height |
| Resizing.Resizer.GetWidth | src/Resizer.php:155-158 | the stored target width |
| Resizing.Resizer.GetBackground | src/Resizer.php:165-168 | the colour wrapped as "rgb(…)", from which the stored colour can be read back |
| Resizing.Resizer.HasCropping | src/Resizer.php:175-178 | true exactly when the cropping value is non-zero |
| Resizing.Resizer.Resize | src/Resizer.php:74-86 | the result is exactly width x height; with cropping it is the input image itself, with no canvas; without, it is a new canvas in the background colour carrying the fitted image centred |
| Resizing.Resizer.CreateThumbnail | src/Resizer.php:186-211 | a new width x height canvas filled with "rgb(background)", in the scaled image's format and colour space, with the `FitSize`-scaled image composited once at the centring offsets and lying wholly on it |
| Resizing.Resizer.ResizeAdaptive | src/Resizer.php:221-243 | the given image is scaled in place to `FitSize` of its old size and the box, and returned; its other attributes are unchanged |
| Resizing.SizeParses | src/Resizer.php:57-62 | the constructor's size string has both parts and each starts with an integer; a string without "x" never does |
| Resizing.ValidatedSizeParses | src/Validation/Validator.php:44 | every size the API's `sizeBetween:256x256,1024x1024` rule accepts parses in the constructor, with both sides between 256 and 1024 |
| Resizing.SizeRoundTrip | src/Resizer.php:57-64 | every `"HxW"` of naturals is accepted by the constructor and read back as height H and width W |
| Resizing.SquareScenarioSize | tests/ApiCest.php:118-123 | "256x256" is accepted by the constructor and reads as 256 by 256 |
| Resizing.WideScenarioSize | tests/ApiCest.php:130-135 | "512x1024" is accepted by the constructor and reads as height 512, width 1024 |
| Resizing.PortraitScenario | tests/ApiCest.php:20-38 | a photo of an assumed size, 3000 wide and 4000 high, resized to "256x256" without cropping is 256x256, white, with the image placed 192x256 at (32, 0) |
| Resizing.CroppingScenario | tests/ApiCest.php:130-135 | with cropping and "512x1024" the result is the photo itself, 1024 wide and 512 high, with nothing composited |
| Imagick.Image.Decoded | src/Resizer.php:76-77 | the image `readImageBlob` decodes: its size, format and colour space as decoded, no fill and nothing composited |
| Imagick.Image.NewImage | src/Resizer.php:195-196 | a new columns x rows canvas filled with the given colour, with nothing composited |
| Imagick.Image.CropThumbnailImage | src/Resizer.php:80 | only the size changes, to exactly the given width and height |
| Imagick.Image.ResizeImage | src/Resizer.php:240 | only the size changes, to exactly the given columns and rows |
| Imagick.Image.SetImageFormat | src/Resizer.php:197 | only the format changes, to the given one |
| Imagick.Image.SetImageColorspace | src/Resizer.php:198 | only the colour space changes, to the given one |
| Imagick.Image.CompositeImage | src/Resizer.php:203-208 | one placement (offset and the source's size) is appended; nothing else changes |

## Left out

- The HTTP controllers, `Validator`, `NotFalseRule` and `public/index.php` are not part of this model. The `cropping:in:0,1` rule belongs to the rule library and is not part of this model either.
- Fetching the image (`file_get_contents`) and decoding it (`readImageBlob`, `getimagesize`, `getimagesizefromstring`) are I/O. The decoded image, or its metadata (`None` for an undecodable input), is a parameter.
- `MimeTypeGuesser::getExtension` is a parameter of type `Guesser`, because its table lives in another library.
- Imagick's pixels are not modelled, and neither are resampling (`FILTER_POINT`, blur 0.9), the crop's choice of region or blending. Only sizes, attributes and placements are kept.
- Imagick.Image.NewImage: the default format and colour space of a new canvas are left unspecified, since the source overwrites both at once.
- The rule library's `Rule` base class is reduced to a `params` map, a `paramTexts` map and the `Missing` outcome of `requireParameters`. Message rendering is not modelled.
- Null-valued rule parameters are not modelled; neither is the library's treatment of a parameter set to null.
- PHP floats: the fit-mode arithmetic is exact. `FitSizeExact` and `CentreOffsetExact` relate it to the source's expressions on exact reals, not on IEEE doubles.
- Php.IntCast: exponent and fraction forms ("1e3", "1.5") are not modelled, nor is saturation at 64 bits. Only leading white space, an optional sign and the leading digits are read.
- Resizing.Resizer.constructor: requires that both size parts exist and start with an integer (`SizeParses`). Otherwise PHP throws a TypeError from `setHeight`/`setWidth`, and that error path is not modelled. `ValidatedSizeParses` shows the API's validated sizes always meet this requirement.
- Resizing.Resizer.Resize: requires a positive target height and width, which the validated caller guarantees (at least 256, by `ValidatedSizeParses`). Imagick's failure on a non-positive size is not modelled. The same holds for Resizing.Resizer.CreateThumbnail and Resizing.Resizer.ResizeAdaptive.
