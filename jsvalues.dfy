/**
 * The few JavaScript value rules the core depends on: truthiness of the
 * strings that arrive as request fields, query parameters and filter values,
 * and `parseInt` on decimal text.
 */
module JsValues {
  import opened Wrappers

  /** A JavaScript number as `parseInt` can produce it: an integer, or NaN. */
  datatype Num = Int(value: int) | NaN

  /** Truthiness of an optional string: `undefined` and `''` are falsy, every other string is truthy. */
  predicate Truthy(v: Option<string>) {
    v.Some? && v.value != ""
  }

  predicate IsDigit(c: char) {
    '0' <= c <= '9'
  }

  predicate AllDigits(s: string) {
    forall i :: 0 <= i < |s| ==> IsDigit(s[i])
  }

  function DigitValue(c: char): (d: nat)
    requires IsDigit(c)
    ensures d < 10
  {
    (c as int) - ('0' as int)
  }

  function DigitChar(d: nat): (c: char)
    requires d < 10
    ensures IsDigit(c) && DigitValue(c) == d
  {
    ('0' as int + d) as char
  }

  /** The length of the longest prefix of `s` made of decimal digits. */
  function LeadingDigits(s: string): (n: nat)
    ensures n <= |s|
    ensures AllDigits(s[..n])
    ensures n < |s| ==> !IsDigit(s[n])
  {
    if s == [] || !IsDigit(s[0]) then 0 else 1 + LeadingDigits(s[1..])
  }

  /** The value of a string of decimal digits, most significant first. */
  function DecimalValue(digits: string): nat
    requires AllDigits(digits)
  {
    if digits == [] then 0
    else 10 * DecimalValue(digits[..|digits| - 1]) + DigitValue(digits[|digits| - 1])
  }

  function ParseUnsigned(s: string): Num {
    var n := LeadingDigits(s);
    if n == 0 then NaN else Int(DecimalValue(s[..n]))
  }

  function Negate(n: Num): Num {
    match n
    case Int(v) => Int(-v)
    case NaN => NaN
  }

  /**
   * `parseInt(s)` in base 10: an optional sign, then the longest run of
   * digits; text with no digit there gives NaN, and anything after the
   * digits is ignored.
   */
  function ParseInt(s: string): (r: Num)
    ensures var body := if |s| > 0 && (s[0] == '-' || s[0] == '+') then s[1..] else s;
            r.NaN? <==> (body == [] || !IsDigit(body[0]))
  {
    if |s| > 0 && s[0] == '-' then Negate(ParseUnsigned(s[1..]))
    else if |s| > 0 && s[0] == '+' then ParseUnsigned(s[1..])
    else ParseUnsigned(s)
  }

  /** Decimal rendering of a natural number, as `String(n)` gives it. */
  function DecimalText(n: nat): (s: string)
    ensures |s| >= 1 && AllDigits(s)
  {
    if n < 10 then [DigitChar(n)] else DecimalText(n / 10) + [DigitChar(n % 10)]
  }

  /** Decimal rendering of an integer, with a leading '-' when negative. */
  function IntText(i: int): string {
    if i < 0 then "-" + DecimalText(-i) else DecimalText(i)
  }

  lemma {:induction false} DecimalValueOfText(n: nat)
    ensures DecimalValue(DecimalText(n)) == n
  {
    var s := DecimalText(n);
    if n >= 10 {
      DecimalValueOfText(n / 10);
      assert s[..|s| - 1] == DecimalText(n / 10);
    }
  }

  /** `parseInt` reads back every integer that `String` renders. */
  lemma ParseIntText(i: int)
    ensures ParseInt(IntText(i)) == Int(i)
  {
    var d := DecimalText(if i < 0 then -i else i);
    assert LeadingDigits(d) == |d| by { AllDigitsLeading(d); }
    assert d[..|d|] == d;
    DecimalValueOfText(if i < 0 then -i else i);
    if i < 0 {
      assert IntText(i)[1..] == d;
    }
  }

  lemma {:induction false} AllDigitsLeading(s: string)
    requires AllDigits(s)
    ensures LeadingDigits(s) == |s|
  {
    if s != [] {
      AllDigitsLeading(s[1..]);
    }
  }
}
