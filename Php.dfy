/** The few PHP built-ins the resizer and its validation rules rely on:
    `explode`, `implode`, list destructuring (a missing key reads as null),
    the `(int)` cast of a string, `ctype_digit` and string truthiness. */
module Php {

  datatype Option<+T> = None | Some(value: T)

  // ---------------------------------------------------------------------------
  // explode / implode

  /** `explode(sep, s)` for a one-character separator: the pieces of `s`
      between occurrences of `sep`, always at least one. */
  function Explode(sep: char, s: string): (parts: seq<string>)
    ensures |parts| >= 1
    ensures forall i :: 0 <= i < |parts| ==> sep !in parts[i]
    decreases |s|
  {
    if s == [] then [""]
    else
      var rest := Explode(sep, s[1..]);
      if s[0] == sep then [""] + rest
      else [[s[0]] + rest[0]] + rest[1..]
  }

  /** `implode(glue, parts)`: nothing for no parts, and otherwise the first
      part begins the result. */
  function Join(parts: seq<string>, glue: string): (s: string)
    ensures |parts| == 0 ==> s == ""
    ensures |parts| > 0 ==> parts[0] <= s
  {
    if |parts| == 0 then ""
    else if |parts| == 1 then parts[0]
    else parts[0] + glue + Join(parts[1..], glue)
  }

  /** Gluing the pieces back together with the separator gives the input. */
  lemma {:induction false} JoinExplode(sep: char, s: string)
    ensures Join(Explode(sep, s), [sep]) == s
    decreases |s|
  {
    if s != [] {
      var rest := Explode(sep, s[1..]);
      JoinExplode(sep, s[1..]);
      if s[0] == sep {
        assert Explode(sep, s) == [""] + rest;
        assert ([""] + rest)[1..] == rest;
        assert s == [sep] + s[1..];
      } else {
        var parts := Explode(sep, s);
        assert parts == [[s[0]] + rest[0]] + rest[1..];
        if |rest| == 1 {
          assert s == [s[0]] + s[1..];
        } else {
          assert parts[1..] == rest[1..];
          assert Join(rest, [sep]) == rest[0] + [sep] + Join(rest[1..], [sep]);
          assert s == [s[0]] + s[1..];
        }
      }
    }
  }

  /** A string without the separator explodes into itself alone. */
  lemma {:induction false} ExplodeWithoutSeparator(sep: char, a: string)
    requires sep !in a
    ensures Explode(sep, a) == [a]
    decreases |a|
  {
    if a != [] {
      ExplodeWithoutSeparator(sep, a[1..]);
      assert [a[0]] + a[1..] == a;
    }
  }

  /** A separator-free first piece followed by the separator splits off. */
  lemma {:induction false} ExplodeCons(sep: char, a: string, t: string)
    requires sep !in a
    ensures Explode(sep, a + [sep] + t) == [a] + Explode(sep, t)
    decreases |a|
  {
    var s := a + [sep] + t;
    if a == [] {
      assert s[0] == sep && s[1..] == t;
    } else {
      assert s[0] == a[0] && s[1..] == a[1..] + [sep] + t;
      ExplodeCons(sep, a[1..], t);
      assert [a[0]] + a[1..] == a;
    }
  }

  /** Exploding the joined pieces gives the pieces back, when none of them
      holds the separator. */
  lemma {:induction false} ExplodeJoin(sep: char, parts: seq<string>)
    requires |parts| >= 1
    requires forall i :: 0 <= i < |parts| ==> sep !in parts[i]
    ensures Explode(sep, Join(parts, [sep])) == parts
    decreases |parts|
  {
    if |parts| == 1 {
      ExplodeWithoutSeparator(sep, parts[0]);
    } else {
      ExplodeJoin(sep, parts[1..]);
      ExplodeCons(sep, parts[0], Join(parts[1..], [sep]));
      assert [parts[0]] + parts[1..] == parts;
    }
  }

  /** Joining two and three pieces, written out. */
  lemma JoinTwo(a: string, b: string, glue: string)
    ensures Join([a, b], glue) == a + glue + b
  {
  }

  lemma JoinThree(a: string, b: string, c: string, glue: string)
    ensures Join([a, b, c], glue) == a + glue + b + glue + c
  {
    assert [a, b, c][1..] == [b, c];
    JoinTwo(b, c, glue);
  }

  /** `[$a, $b] = $parts`: a key past the end reads as null. */
  function ListItem(parts: seq<string>, i: nat): (r: Option<string>)
    ensures r.Some? <==> i < |parts|
    ensures r.Some? ==> r.value == parts[i]
  {
    if i < |parts| then Some(parts[i]) else None
  }

  // ---------------------------------------------------------------------------
  // digits and the (int) cast

  predicate IsDigit(c: char) {
    '0' <= c <= '9'
  }

  /** The white space PHP skips in front of a numeric string. */
  predicate IsSpace(c: char) {
    c == ' ' || c == '\t' || c == '\n' || c == '\r' || c == '\U{0B}' || c == '\U{0C}'
  }

  predicate AllDigits(s: string) {
    forall i :: 0 <= i < |s| ==> IsDigit(s[i])
  }

  /** `ctype_digit($s)` on a string: non-empty and every character a decimal digit. */
  predicate CtypeDigit(s: string)
    ensures CtypeDigit(s) ==> |s| > 0 && !IsSpace(s[0]) && s[0] != '-' && s[0] != '+'
  {
    |s| > 0 && AllDigits(s)
  }

  function DigitValue(c: char): (d: nat)
    requires IsDigit(c)
    ensures d < 10
  {
    (c as int) - ('0' as int)
  }

  function DigitChar(d: nat): (c: char)
    requires d < 10
    ensures IsDigit(c) && DigitValue(c) == d
  {
    ('0' as int + d) as char
  }

  /** The decimal value of a string of digits (leading zeros allowed). */
  function DigitsValue(s: string): nat
    requires AllDigits(s)
  {
    if s == [] then 0 else DigitsValue(s[..|s| - 1]) * 10 + DigitValue(s[|s| - 1])
  }

  /** The canonical decimal text of a natural number. */
  function Decimal(n: nat): (s: string)
    ensures CtypeDigit(s)
    ensures DigitsValue(s) == n
  {
    if n < 10 then [DigitChar(n)]
    else
      var s := Decimal(n / 10) + [DigitChar(n % 10)];
      assert s[..|s| - 1] == Decimal(n / 10);
      s
  }

  /** Length of the longest prefix of `s` whose characters satisfy `IsSpace`. */
  function SpaceRun(s: string): (n: nat)
    ensures n <= |s|
    ensures forall i :: 0 <= i < n ==> IsSpace(s[i])
    ensures n < |s| ==> !IsSpace(s[n])
  {
    if s != [] && IsSpace(s[0]) then 1 + SpaceRun(s[1..]) else 0
  }

  /** Length of the longest prefix of `s` made of decimal digits. */
  function DigitRun(s: string): (n: nat)
    ensures n <= |s|
    ensures AllDigits(s[..n])
    ensures n < |s| ==> !IsDigit(s[n])
  {
    if s != [] && IsDigit(s[0]) then
      var n := 1 + DigitRun(s[1..]);
      assert forall i :: 1 <= i < n ==> s[..n][i] == s[1..][..n - 1][i - 1];
      n
    else 0
  }

  /** What follows the leading white space: whether a minus sign is there, and
      the text after the sign. */
  function Unsigned(s: string): (r: (bool, string))
    ensures |r.1| <= |s|
  {
    var t := s[SpaceRun(s)..];
    if |t| > 0 && (t[0] == '-' || t[0] == '+') then (t[0] == '-', t[1..]) else (false, t)
  }

  /** The leading digits of a string, after white space and sign. */
  function LeadingDigits(s: string): (d: string)
    ensures AllDigits(d)
  {
    var u := Unsigned(s).1;
    u[..DigitRun(u)]
  }

  /** `(int) $s`: the integer at the front of `s` (after white space and an
      optional sign), and 0 when there is none. */
  function IntCast(s: string): (r: int)
    ensures !HasLeadingInt(s) ==> r == 0
    ensures r < 0 ==> Unsigned(s).0
  {
    var v: int := DigitsValue(LeadingDigits(s));
    if Unsigned(s).0 then -v else v
  }

  /** `(int) null` is 0. */
  function IntCastOpt(v: Option<string>): (r: int)
    ensures v.None? ==> r == 0
    ensures v.Some? ==> r == IntCast(v.value)
  {
    match v
    case None => 0
    case Some(s) => IntCast(s)
  }

  /** A string PHP accepts for an `int` parameter: it starts (after white space
      and sign) with a digit. Any other string, and null, is a TypeError. */
  predicate HasLeadingInt(s: string)
    ensures HasLeadingInt(s) ==> |s| > 0
    ensures |s| > 0 && IsDigit(s[0]) ==> HasLeadingInt(s)
  {
    |LeadingDigits(s)| > 0
  }

  /** On a digit string the cast is the plain decimal value. */
  lemma IntCastOfDigits(s: string)
    requires CtypeDigit(s)
    ensures HasLeadingInt(s) && IntCast(s) == DigitsValue(s)
  {
    assert !IsSpace(s[0]);
    assert SpaceRun(s) == 0;
    assert Unsigned(s) == (false, s);
    assert DigitRun(s) == |s|;
    assert s[..|s|] == s;
  }

  /** The cast reads back the number that `Decimal` wrote. */
  lemma IntCastDecimal(n: nat)
    ensures HasLeadingInt(Decimal(n)) && IntCast(Decimal(n)) == n
  {
    IntCastOfDigits(Decimal(n));
  }

  /** Only digits are in a decimal text, so no separator is. */
  lemma DecimalHasNo(c: char, n: nat)
    requires !IsDigit(c)
    ensures c !in Decimal(n)
  {
  }

  /** Digits followed by a non-digit: the cast stops at the first non-digit. */
  lemma IntCastPrefix(d: string, rest: string)
    requires CtypeDigit(d)
    requires rest == [] || !IsDigit(rest[0])
    ensures IntCast(d + rest) == DigitsValue(d)
  {
    var s := d + rest;
    assert s[0] == d[0];
    assert !IsSpace(s[0]);
    assert SpaceRun(s) == 0;
    assert Unsigned(s) == (false, s);
    var n := DigitRun(s);
    assert forall i :: 0 <= i < |d| ==> s[i] == d[i] && IsDigit(s[i]);
    assert |d| < |s| ==> s[|d|] == rest[0] && !IsDigit(s[|d|]);
    assert n == |d|;
    assert s[..n] == d;
  }

  /** A minus sign before the digits negates the cast. */
  lemma IntCastSigned(d: string, rest: string)
    requires CtypeDigit(d)
    requires rest == [] || !IsDigit(rest[0])
    ensures IntCast("-" + d + rest) == -(DigitsValue(d) as int)
  {
    var u := d + rest;
    var s := "-" + u;
    assert s == "-" + d + rest;
    assert s[0] == '-' && !IsSpace(s[0]);
    assert SpaceRun(s) == 0;
    assert s[1..] == u;
    assert Unsigned(s) == (true, u);
    assert u[0] == d[0];
    assert !IsSpace(u[0]) && u[0] != '-' && u[0] != '+';
    assert SpaceRun(u) == 0;
    assert Unsigned(u) == (false, u);
    IntCastPrefix(d, rest);
  }

  // ---------------------------------------------------------------------------
  // truthiness

  /** `!$value` for a string: only the empty string and "0" are falsy. */
  predicate Falsy(s: string)
    ensures Falsy(s) ==> IntCast(s) == 0
  {
    if s == "0" then IntCastOfDigits(s); true else s == ""
  }
}
