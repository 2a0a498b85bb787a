/** What the validation rules share: their parameter values, the outcome of
    `check`, the image metadata they are given, and the allowed-types test
    that ImageRule and ImageTypeRule both carry. */
module RuleParams {
  import opened Php

  /** A rule parameter as PHP holds it: a string or an array of values. */
  datatype Value = Str(s: string) | List(items: seq<Value>)

  /** The result of `check`: a verdict, or the exception `requireParameters`
      throws when a required parameter was never filled in. */
  datatype Outcome = Missing(param: string) | Verdict(accepted: bool)

  /** What `getimagesize` / `getimagesizefromstring` report for a decodable
      image: index 0 is the width, index 1 the height, and the mime type. */
  datatype ImageInfo = ImageInfo(width: int, height: int, mime: string)

  /** The type of `MimeTypeGuesser::getExtension`: the extension of a mime
      type, or null when the guesser does not know it. */
  type Guesser = string -> Option<string>

  /** `fillParameters`' flattening: a single array argument stands for its
      elements; any other argument list is kept as it is. */
  function Flatten(args: seq<Value>): (r: seq<Value>)
    ensures |args| == 1 && args[0].List? ==> r == args[0].items
    ensures !(|args| == 1 && args[0].List?) ==> r == args
  {
    if |args| == 1 && args[0].List? then args[0].items else args
  }

  /** A value as `implode` prints it: an array becomes "Array". */
  function Text(v: Value): (t: string)
    ensures v.Str? ==> t == v.s
    ensures v.List? ==> t == "Array"
  {
    match v
    case Str(s) => s
    case List(_) => "Array"
  }

  /** `implode(glue, $values)`. */
  function Implode(glue: string, values: seq<Value>): (s: string)
    ensures |values| == 0 ==> s == ""
    ensures |values| == 1 ==> s == Text(values[0])
  {
    Join(seq(|values|, i requires 0 <= i < |values| => Text(values[i])), glue)
  }

  /** `isAllowedType`: an empty list admits every type; otherwise the mime's
      extension must be in the list under strict (`===`) comparison. */
  predicate AllowedType(allowed: seq<Value>, mime: string, guess: Guesser)
    ensures |allowed| == 0 ==> AllowedType(allowed, mime, guess)
    ensures |allowed| > 0 && AllowedType(allowed, mime, guess) ==> guess(mime).Some?
  {
    |allowed| == 0 || (guess(mime).Some? && Str(guess(mime).value) in allowed)
  }

  /** The allowed-type test admits exactly: everything when the list is empty,
      and otherwise a type whose guessed extension is a string element of the
      list, in both directions. Nested arrays and unknown extensions never
      match. */
  lemma AllowedTypeMeaning(allowed: seq<Value>, mime: string, guess: Guesser)
    ensures |allowed| == 0 ==> AllowedType(allowed, mime, guess)
    ensures |allowed| > 0 ==>
              (AllowedType(allowed, mime, guess) <==>
                 exists i :: 0 <= i < |allowed| && allowed[i].Str? && Some(allowed[i].s) == guess(mime))
    ensures (forall i :: 0 <= i < |allowed| ==> allowed[i].List?) && |allowed| > 0 ==>
              !AllowedType(allowed, mime, guess)
  {
    if exists i :: 0 <= i < |allowed| && allowed[i].Str? && Some(allowed[i].s) == guess(mime) {
      var i :| 0 <= i < |allowed| && allowed[i].Str? && Some(allowed[i].s) == guess(mime);
      assert allowed[i] == Str(guess(mime).value);
    }
  }

  /** The message text of two string types is them joined with ", ". */
  lemma ImplodeTwo(a: string, b: string)
    ensures Implode(", ", [Str(a), Str(b)]) == a + ", " + b
  {
    var texts := seq(2, i requires 0 <= i < 2 => Text([Str(a), Str(b)][i]));
    assert texts == [a, b];
    assert texts[1..] == [b];
    assert Join(texts, ", ") == a + ", " + Join([b], ", ");
  }
}
