/** The "HxW" size strings (height first, then width) that the resizer and
    three of the validation rules read with `explode('x', ...)`. */
module Sizes {
  import opened Php

  const Separator: char := 'x'

  /** `[$height, $width] = explode('x', $s)` followed by `(int)` casts of both
      parts; a missing width part is null and casts to 0. */
  function Axes(s: string): (r: (int, int))
    ensures |Explode(Separator, s)| == 1 ==> r.1 == 0
  {
    var parts := Explode(Separator, s);
    (IntCast(parts[0]), IntCastOpt(ListItem(parts, 1)))
  }

  /** Without the separator the whole string is read as the height, and the
      width part is missing, so it reads as 0. */
  lemma AxesWithoutSeparator(s: string)
    requires Separator !in s
    ensures Axes(s) == (IntCast(s), 0)
  {
    ExplodeWithoutSeparator(Separator, s);
  }

  /** The canonical text of a height and a width, e.g. "512x1024". */
  function Format(height: nat, width: nat): string {
    Decimal(height) + [Separator] + Decimal(width)
  }

  /** A formatted size explodes into the two decimal texts, height first. */
  lemma FormatParts(height: nat, width: nat)
    ensures Explode(Separator, Format(height, width)) == [Decimal(height), Decimal(width)]
  {
    DecimalHasNo(Separator, height);
    DecimalHasNo(Separator, width);
    var parts := [Decimal(height), Decimal(width)];
    assert Join(parts, [Separator]) == Format(height, width);
    ExplodeJoin(Separator, parts);
  }

  /** Reading a formatted size gives back its height and width. */
  lemma AxesOfFormat(height: nat, width: nat)
    ensures Axes(Format(height, width)) == (height, width)
  {
    FormatParts(height, width);
    IntCastDecimal(height);
    IntCastDecimal(width);
  }

  /** Only the first two parts are read: anything after a second separator
      is ignored, so "256x256x9" reads as 256x256. */
  lemma AxesIgnoresExtraParts(height: nat, width: nat, rest: string)
    ensures Axes(Format(height, width) + [Separator] + rest) == (height, width)
  {
    DecimalHasNo(Separator, height);
    DecimalHasNo(Separator, width);
    var s := Format(height, width) + [Separator] + rest;
    assert s == Decimal(height) + [Separator] + (Decimal(width) + [Separator] + rest);
    ExplodeCons(Separator, Decimal(height), Decimal(width) + [Separator] + rest);
    ExplodeCons(Separator, Decimal(width), rest);
    IntCastDecimal(height);
    IntCastDecimal(width);
  }
}
