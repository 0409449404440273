/**
 * Character-level helpers shared by both sides of the application:
 * lower-casing, joining and splitting on a separator, decimal numerals
 * and the decimal parser that stands for pandas' numeric coercion.
 */
module Text {
  import opened Wrappers

  // ---------------------------------------------------------------------
  // Lower-casing (Python's str.lower, restricted to ASCII letters)
  // ---------------------------------------------------------------------

  function LowerChar(c: char): char {
    if 'A' <= c <= 'Z' then (c as int + 32) as char else c
  }

  function Lower(s: string): (r: string)
    ensures |r| == |s|
    ensures forall i :: 0 <= i < |s| ==> r[i] == LowerChar(s[i])
  {
    seq(|s|, i requires 0 <= i < |s| => LowerChar(s[i]))
  }

  /** Lower-casing twice is lower-casing once. */
  lemma LowerIdempotent(s: string)
    ensures Lower(Lower(s)) == Lower(s)
  {
    assert forall i :: 0 <= i < |s| ==> Lower(Lower(s))[i] == Lower(s)[i];
  }

  // ---------------------------------------------------------------------
  // Joining and splitting on a one-character separator
  // ---------------------------------------------------------------------

  /** JavaScript's Array.prototype.join(sep): the parts with sep between them. */
  function Join(parts: seq<string>, sep: char): string {
    if |parts| == 0 then ""
    else if |parts| == 1 then parts[0]
    else parts[0] + [sep] + Join(parts[1..], sep)
  }

  /** Python's str.split(sep): the maximal pieces between separators (at least one piece). */
  function Split(s: string, sep: char): (r: seq<string>)
    ensures |r| > 0
  {
    if |s| == 0 then [""]
    else
      var rest := Split(s[1..], sep);
      if s[0] == sep then [""] + rest else [[s[0]] + rest[0]] + rest[1..]
  }

  lemma {:induction false} SplitWithoutSeparator(p: string, sep: char)
    requires sep !in p
    ensures Split(p, sep) == [p]
  {
    if |p| > 0 {
      SplitWithoutSeparator(p[1..], sep);
      assert [p[0]] + p[1..] == p;
    }
  }

  lemma {:induction false} SplitAfterPiece(p: string, rest: string, sep: char)
    requires sep !in p
    ensures Split(p + [sep] + rest, sep) == [p] + Split(rest, sep)
  {
    if |p| == 0 {
      assert p + [sep] + rest == [sep] + rest;
      assert ([sep] + rest)[1..] == rest;
    } else {
      var s := p + [sep] + rest;
      assert s[1..] == p[1..] + [sep] + rest;
      SplitAfterPiece(p[1..], rest, sep);
      assert [p[0]] + p[1..] == p;
    }
  }

  /** Splitting a join gives the parts back, provided no part holds the separator. */
  lemma {:induction false} SplitJoin(parts: seq<string>, sep: char)
    requires |parts| > 0
    requires forall i :: 0 <= i < |parts| ==> sep !in parts[i]
    ensures Split(Join(parts, sep), sep) == parts
  {
    if |parts| == 1 {
      SplitWithoutSeparator(parts[0], sep);
    } else {
      SplitJoin(parts[1..], sep);
      SplitAfterPiece(parts[0], Join(parts[1..], sep), sep);
      assert [parts[0]] + parts[1..] == parts;
    }
  }

  /** A join holds no character other than the separator that its parts do not hold. */
  lemma {:induction false} JoinAvoids(parts: seq<string>, sep: char, c: char)
    requires c != sep
    requires forall i :: 0 <= i < |parts| ==> c !in parts[i]
    ensures c !in Join(parts, sep)
  {
    if |parts| > 1 {
      JoinAvoids(parts[1..], sep, c);
    }
  }

  // ---------------------------------------------------------------------
  // Decimal numerals
  // ---------------------------------------------------------------------

  predicate IsDigit(c: char) {
    '0' <= c <= '9'
  }

  predicate AllDigits(s: string) {
    forall i :: 0 <= i < |s| ==> IsDigit(s[i])
  }

  function DigitValue(c: char): nat
    requires IsDigit(c)
  {
    c as int - '0' as int
  }

  function DigitChar(d: nat): (c: char)
    requires d < 10
    ensures IsDigit(c) && DigitValue(c) == d
  {
    ('0' as int + d) as char
  }

  /** The value of a string of decimal digits, most significant first (0 for the empty string). */
  function DigitsValue(s: string): nat
    requires AllDigits(s)
  {
    if |s| == 0 then 0 else 10 * DigitsValue(s[..|s| - 1]) + DigitValue(s[|s| - 1])
  }

  /** The decimal numeral of n, without leading zeros. */
  function NatText(n: nat): (s: string)
    ensures |s| > 0 && AllDigits(s)
  {
    if n < 10 then [DigitChar(n)] else NatText(n / 10) + [DigitChar(n % 10)]
  }

  /** The numeral of an integer as JavaScript and Python print it: a minus sign for negatives. */
  function IntText(i: int): string {
    if i < 0 then "-" + NatText(-i) else NatText(i)
  }

  lemma {:induction false} NatTextValue(n: nat)
    ensures DigitsValue(NatText(n)) == n
  {
    if n >= 10 {
      NatTextValue(n / 10);
      var s := NatText(n);
      assert s[..|s| - 1] == NatText(n / 10);
    }
  }

  function Pow10(k: nat): (r: nat)
    ensures r >= 1
  {
    if k == 0 then 1 else 10 * Pow10(k - 1)
  }

  /** The value of the digits after a decimal point: "25" is 0.25; no digits are 0. */
  function DecimalFraction(digits: string): (r: real)
    requires AllDigits(digits)
    ensures |digits| == 0 ==> r == 0.0
  {
    if |digits| == 0 then 0.0 else DigitsValue(digits) as real / Pow10(|digits|) as real
  }

  /** The position of the first c in s, or |s| when there is none. */
  function IndexOf(s: string, c: char): (i: nat)
    ensures i <= |s|
    ensures i < |s| ==> s[i] == c
    ensures forall j :: 0 <= j < i ==> s[j] != c
  {
    if |s| == 0 then 0 else if s[0] == c then 0 else 1 + IndexOf(s[1..], c)
  }

  /**
   * An unsigned decimal with an optional fraction: "12", "3.25", ".5", "7.".
   * At least one digit, at most one point, nothing else.
   */
  function ParseUnsigned(s: string): Option<real> {
    var i := IndexOf(s, '.');
    var whole := s[..i];
    var fraction := if i < |s| then s[i + 1..] else "";
    if |whole| + |fraction| > 0 && AllDigits(whole) && AllDigits(fraction) then
      Some(DigitsValue(whole) as real + DecimalFraction(fraction))
    else
      None
  }

  /** An optionally signed decimal; None for anything that is not one. */
  function ParseDecimal(s: string): Option<real> {
    if |s| > 0 && (s[0] == '-' || s[0] == '+') then
      match ParseUnsigned(s[1..])
      case None => None
      case Some(v) => Some(if s[0] == '-' then -v else v)
    else
      ParseUnsigned(s)
  }

  /** A digit string with no point parses to its value. */
  lemma ParseDigits(whole: string)
    requires |whole| > 0 && AllDigits(whole)
    ensures ParseUnsigned(whole) == Some(DigitsValue(whole) as real)
  {
    DigitsAvoidPoint(whole);
    var i := IndexOf(whole, '.');
    assert i == |whole|;
    assert whole[..i] == whole;
  }

  lemma {:induction false} DigitsAvoidPoint(s: string)
    requires AllDigits(s)
    ensures IndexOf(s, '.') == |s|
  {
    if |s| > 0 {
      assert IsDigit(s[0]);
      DigitsAvoidPoint(s[1..]);
    }
  }

  lemma {:induction false} IndexOfAfter(prefix: string, c: char, rest: string)
    requires c !in prefix
    ensures IndexOf(prefix + [c] + rest, c) == |prefix|
  {
    if |prefix| > 0 {
      assert (prefix + [c] + rest)[1..] == prefix[1..] + [c] + rest;
      IndexOfAfter(prefix[1..], c, rest);
    }
  }

  /** Digits, a point and digits parse to the whole part plus the fraction. */
  lemma ParseDigitsWithFraction(whole: string, fraction: string)
    requires |whole| > 0 && AllDigits(whole) && AllDigits(fraction)
    ensures ParseUnsigned(whole + "." + fraction)
      == Some(DigitsValue(whole) as real + DecimalFraction(fraction))
  {
    var s := whole + "." + fraction;
    assert '.' !in whole by {
      assert forall j :: 0 <= j < |whole| ==> IsDigit(whole[j]);
    }
    IndexOfAfter(whole, '.', fraction);
    var i := IndexOf(s, '.');
    assert i == |whole|;
    assert s[..i] == whole;
    assert s[i + 1..] == fraction;
    var v := DigitsValue(whole) as real + DecimalFraction(fraction);
    assert ParseUnsigned(s) == Some(v);
  }

  /** A minus sign before an unsigned decimal negates it. */
  lemma ParseNegative(t: string)
    ensures ParseDecimal("-" + t) == (match ParseUnsigned(t) case None => None case Some(v) => Some(-v))
  {
    assert ("-" + t)[0] == '-' && ("-" + t)[1..] == t;
  }

  /** An unsigned decimal that starts with a digit parses as it is. */
  lemma ParseUnsignedStart(t: string)
    requires |t| > 0 && IsDigit(t[0])
    ensures ParseDecimal(t) == ParseUnsigned(t)
  {
  }

  /** Parsing the numeral of n gives n back. */
  lemma ParseNatText(n: nat)
    ensures ParseDecimal(NatText(n)) == Some(n as real)
  {
    var s := NatText(n);
    ParseDigits(s);
    assert !(s[0] == '-' || s[0] == '+') by { assert IsDigit(s[0]); }
    NatTextValue(n);
  }
}
