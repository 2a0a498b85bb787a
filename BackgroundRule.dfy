/** The background rule: an optional "r,g,b" colour whose three channels are
    plain decimal numbers from 0 to 255. */
module BackgroundRule {
  import opened Php

  const RgbDelimiter: char := ','

  /** What the fold's closure demands of one part: only digits (so no sign,
      space or empty part), and a numeric value within 0..255. */
  predicate PartCorrect(part: string) {
    CtypeDigit(part) && !(DigitsValue(part) < 0 || DigitsValue(part) > 255)
  }

  /** The closure given to `array_reduce`: it keeps the running verdict only
      for a correct part. */
  function Step(stillCorrect: bool, part: string): (r: bool)
    ensures r <==> stillCorrect && PartCorrect(part)
  {
    if !CtypeDigit(part) then false
    else if DigitsValue(part) < 0 || DigitsValue(part) > 255 then false
    else stillCorrect
  }

  /** `array_reduce($parts, closure, $initial)`: a fold from the left; once
      false, the verdict stays false. */
  function Reduce(parts: seq<string>, initial: bool): (r: bool)
    ensures r ==> initial
  {
    if parts == [] then initial else Reduce(parts[1..], Step(initial, parts[0]))
  }

  /** The fold is the conjunction of the initial value and every part's test,
      so one failing part rejects whichever position it is in. */
  lemma {:induction false} ReduceIsConjunction(parts: seq<string>, initial: bool)
    ensures Reduce(parts, initial) <==> initial && forall i :: 0 <= i < |parts| ==> PartCorrect(parts[i])
    decreases |parts|
  {
    if parts != [] {
      ReduceIsConjunction(parts[1..], Step(initial, parts[0]));
      assert forall i :: 1 <= i < |parts| ==> parts[i] == parts[1..][i - 1];
    }
  }

  /** `check($value)`: a falsy value means "no background given" and passes;
      otherwise it must split on "," into exactly three correct parts. */
  function Check(value: string): (ok: bool)
    ensures Falsy(value) ==> ok
    ensures !Falsy(value) ==>
              (ok <==> |Explode(RgbDelimiter, value)| == 3
                       && forall i :: 0 <= i < 3 ==> PartCorrect(Explode(RgbDelimiter, value)[i]))
  {
    if Falsy(value) then true
    else
      var rgbParts := Explode(RgbDelimiter, value);
      if |rgbParts| != 3 then false
      else
        ReduceIsConjunction(rgbParts, true);
        Reduce(rgbParts, true)
  }

  /** The text "r,g,b" of three natural numbers. */
  function Rgb(r: nat, g: nat, b: nat): string {
    Decimal(r) + [RgbDelimiter] + Decimal(g) + [RgbDelimiter] + Decimal(b)
  }

  /** A colour written as three decimal numbers is accepted exactly when each
      channel is at most 255. */
  lemma CheckRgb(r: nat, g: nat, b: nat)
    ensures Check(Rgb(r, g, b)) <==> r <= 255 && g <= 255 && b <= 255
  {
    var parts := [Decimal(r), Decimal(g), Decimal(b)];
    DecimalHasNo(RgbDelimiter, r);
    DecimalHasNo(RgbDelimiter, g);
    DecimalHasNo(RgbDelimiter, b);
    JoinThree(Decimal(r), Decimal(g), Decimal(b), [RgbDelimiter]);
    ExplodeJoin(RgbDelimiter, parts);
    assert PartCorrect(parts[0]) <==> r <= 255;
    assert PartCorrect(parts[1]) <==> g <= 255;
    assert PartCorrect(parts[2]) <==> b <= 255;
    assert !Falsy(Rgb(r, g, b)) by {
      assert |Rgb(r, g, b)| >= 5;
    }
  }

  /** The default white and the empty value pass; a channel above 255 fails
      in any position. */
  lemma ChannelScenarios()
    ensures Check("255,255,255")
    ensures Check("") && Check("0")
    ensures !Check("256,0,0") && !Check("0,0,256")
  {
    assert Rgb(255, 255, 255) == "255,255,255" by { assert Decimal(255) == "255"; }
    CheckRgb(255, 255, 255);
    assert Rgb(256, 0, 0) == "256,0,0" by { assert Decimal(256) == "256"; assert Decimal(0) == "0"; }
    CheckRgb(256, 0, 0);
    assert Rgb(0, 0, 256) == "0,0,256" by { assert Decimal(256) == "256"; assert Decimal(0) == "0"; }
    CheckRgb(0, 0, 256);
  }

  /** A sign, a leading space or an empty part makes a part fail the digit
      test. */
  lemma DigitScenarios()
    ensures !Check("-1,0,0") && !Check(" 1,2,3") && !Check("1,,3")
  {
  }

  /** Two parts or four parts are rejected before any part is looked at. */
  lemma PartCountScenarios()
    ensures !Check("1,2") && !Check("1,2,3,4")
  {
  }
}
