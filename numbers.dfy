/**
 * The two integer/string conversions the storefront relies on:
 * `parseInt(s, 10)` for the page and pageSize query parameters and
 * `n.toString()` for product ids compared against a path segment.
 */
module Numbers {

  /** A JavaScript number restricted to what parseInt can yield: an integer or NaN. */
  datatype JsNumber = Num(n: int) | NaN

  /** `x <= 0` in JavaScript: every comparison with NaN is false. */
  predicate AtMostZero(x: JsNumber) {
    x.Num? && x.n <= 0
  }

  predicate IsDigit(c: char) {
    '0' <= c <= '9'
  }

  /**
   * The white space and line terminators that parseInt skips before the
   * number: tab, the line breaks, vertical tab, form feed, the byte order
   * mark and every space separator.
   */
  predicate IsSpace(c: char) {
    || c == '\t' || c == '\n' || c == '\U{000B}' || c == '\U{000C}' || c == '\r'
    || c == ' ' || c == '\U{00A0}' || c == '\U{1680}'
    || '\U{2000}' <= c <= '\U{200A}'
    || c == '\U{2028}' || c == '\U{2029}' || c == '\U{202F}' || c == '\U{205F}'
    || c == '\U{3000}' || c == '\U{FEFF}'
  }

  function TrimStart(s: string): (r: string)
    ensures |r| <= |s|
    ensures r == [] || !IsSpace(r[0])
  {
    if s != [] && IsSpace(s[0]) then TrimStart(s[1..]) else s
  }

  /** The length of the longest prefix of `s` made of decimal digits. */
  function DigitRun(s: string): (k: nat)
    ensures k <= |s|
    ensures forall i :: 0 <= i < k ==> IsDigit(s[i])
    ensures k < |s| ==> !IsDigit(s[k])
  {
    if s != [] && IsDigit(s[0]) then 1 + DigitRun(s[1..]) else 0
  }

  /** The value of a string of decimal digits, most significant first. */
  function DigitsValue(d: string): nat
    requires forall i :: 0 <= i < |d| ==> IsDigit(d[i])
  {
    if d == [] then 0
    else
      assert IsDigit(d[|d| - 1]);
      DigitsValue(d[..|d| - 1]) * 10 + (d[|d| - 1] as int - '0' as int)
  }

  function ParseDigits(s: string): JsNumber {
    var k := DigitRun(s);
    if k == 0 then NaN else Num(DigitsValue(s[..k]))
  }

  /**
   * `parseInt(s, 10)`: skip leading white space, read an optional sign, then
   * the longest run of digits; NaN when there is no digit. Anything after the
   * digits is ignored, so "12abc" reads as 12.
   */
  function ParseInt(s: string): JsNumber {
    var t := TrimStart(s);
    if t != [] && t[0] == '-' then
      match ParseDigits(t[1..])
      case Num(n) => Num(-n)
      case NaN => NaN
    else if t != [] && t[0] == '+' then ParseDigits(t[1..])
    else ParseDigits(t)
  }

  /**
   * Leading white space does not change what parseInt reads, whichever space
   * it is: an em space before "5" still reads as 5.
   */
  lemma LeadingSpaceIgnored(c: char, s: string)
    requires IsSpace(c)
    ensures ParseInt([c] + s) == ParseInt(s)
    ensures ParseInt("\U{2003}5") == Num(5)
  {
    assert ([c] + s)[1..] == s;
    assert TrimStart("\U{2003}5") == "5";
  }

  function DigitChar(d: nat): char
    requires d < 10
  {
    ('0' as int + d) as char
  }

  /** The decimal digits of a natural number, without leading zeros. */
  function NatToDecimal(n: nat): (s: string)
    ensures |s| > 0
    ensures forall i :: 0 <= i < |s| ==> IsDigit(s[i])
  {
    if n < 10 then [DigitChar(n)] else NatToDecimal(n / 10) + [DigitChar(n % 10)]
  }

  /** `n.toString()` for an integer `n`. */
  function ToDecimal(n: int): (s: string)
    ensures |s| > 0 && (s[0] == '-' || IsDigit(s[0]))
  {
    if n < 0 then "-" + NatToDecimal(-n) else NatToDecimal(n)
  }

  lemma {:induction false} DigitsValueOfNat(n: nat)
    ensures DigitsValue(NatToDecimal(n)) == n
  {
    if n >= 10 {
      var s := NatToDecimal(n);
      DigitsValueOfNat(n / 10);
      assert s[..|s| - 1] == NatToDecimal(n / 10);
    }
  }

  lemma ParseDigitsOfNat(n: nat, rest: string)
    requires rest == [] || !IsDigit(rest[0])
    ensures ParseDigits(NatToDecimal(n) + rest) == Num(n)
  {
    var s := NatToDecimal(n);
    var t := s + rest;
    var k := DigitRun(t);
    assert forall i :: 0 <= i < |s| ==> IsDigit(t[i]);
    assert |s| < |t| ==> t[|s|] == rest[0];
    assert k == |s|;
    assert t[..k] == s;
    DigitsValueOfNat(n);
  }

  /** Reading back the decimal form of any integer gives the integer. */
  lemma ParseIntOfDecimal(n: int)
    ensures ParseInt(ToDecimal(n)) == Num(n)
  {
    var s := ToDecimal(n);
    assert TrimStart(s) == s;
    if n < 0 {
      assert s[1..] == NatToDecimal(-n) + [];
      ParseDigitsOfNat(-n, []);
    } else {
      assert s == NatToDecimal(n) + [];
      ParseDigitsOfNat(n, []);
    }
  }

  /** Two integers with the same decimal form are equal. */
  lemma ToDecimalInjective(a: int, b: int)
    requires ToDecimal(a) == ToDecimal(b)
    ensures a == b
  {
    ParseIntOfDecimal(a);
    ParseIntOfDecimal(b);
  }

  /** parseInt stops at the first character that is not a digit. */
  lemma ParseIntIgnoresSuffix(n: nat, rest: string)
    requires rest == [] || !IsDigit(rest[0])
    ensures ParseInt(NatToDecimal(n) + rest) == Num(n)
  {
    var t := NatToDecimal(n) + rest;
    assert t[0] == NatToDecimal(n)[0];
    assert TrimStart(t) == t;
    ParseDigitsOfNat(n, rest);
  }
}

