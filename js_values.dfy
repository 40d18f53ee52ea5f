/**
 * JavaScript values as the engine and its command line see them: numbers
 * that may be `NaN` or missing, strings that may be `undefined`, the
 * truthiness that `||` tests, `String(n)` and `parseInt`.
 */
module JsValues {
  import opened Outcomes
  import opened JsText

  /** A number option: absent (`undefined`), `NaN`, or an integer. */
  datatype Num = Undef | NaN | Int(i: int)

  /** A string option that may be `undefined`. */
  datatype Value = Undefined | Str(s: string)

  /** What `x || y` tests of a number: only a non-zero integer is truthy. */
  predicate Truthy(n: Num) {
    n.Int? && n.i != 0
  }

  /** What `x || y` tests of a string: only a non-empty string is truthy. */
  predicate TruthyValue(v: Value) {
    v.Str? && v.s != ""
  }

  /** `a || b` on numbers. */
  function Or(a: Num, b: Num): Num {
    if Truthy(a) then a else b
  }

  predicate IsDigit(c: char) {
    '0' <= c <= '9'
  }

  predicate AllDigits(s: string) {
    forall i :: 0 <= i < |s| ==> IsDigit(s[i])
  }

  function DigitChar(d: nat): (c: char)
    requires d < 10
    ensures IsDigit(c) && c as int - '0' as int == d
  {
    ('0' as int + d) as char
  }

  /** Decimal rendering of a natural number, without leading zeros. */
  function NatToString(n: nat): (r: string)
    ensures r != [] && AllDigits(r)
    ensures |r| > 1 ==> r[0] != '0'
  {
    if n < 10 then [DigitChar(n)] else NatToString(n / 10) + [DigitChar(n % 10)]
  }

  /** The value of a run of decimal digits (`parseInt(s, 10)` on exact integers). */
  function DigitsValue(s: string): nat
    requires AllDigits(s)
  {
    if s == [] then 0 else DigitsValue(s[..|s| - 1]) * 10 + (s[|s| - 1] as int - '0' as int)
  }

  /** Reading back a rendered natural number gives the number. */
  lemma {:induction false} DigitsValueOfNatToString(n: nat)
    ensures DigitsValue(NatToString(n)) == n
  {
    var s := NatToString(n);
    if n >= 10 {
      assert s[..|s| - 1] == NatToString(n / 10);
      DigitsValueOfNatToString(n / 10);
    }
  }

  /** `String(n)` for the numbers the engine renders into prompts. */
  function NumToString(n: Num): string {
    match n
    case Undef => "undefined"
    case NaN => "NaN"
    case Int(i) => if i < 0 then "-" + NatToString(-i) else NatToString(i)
  }

  predicate IsHexDigit(c: char) {
    IsDigit(c) || 'a' <= c <= 'f' || 'A' <= c <= 'F'
  }

  function HexDigitValue(c: char): nat
    requires IsHexDigit(c)
  {
    if IsDigit(c) then c as int - '0' as int
    else if 'a' <= c <= 'f' then c as int - 'a' as int + 10
    else c as int - 'A' as int + 10
  }

  function HexValue(s: string): nat
    requires forall i :: 0 <= i < |s| ==> IsHexDigit(s[i])
  {
    if s == [] then 0 else HexValue(s[..|s| - 1]) * 16 + HexDigitValue(s[|s| - 1])
  }

  /** The longest prefix of `s` made of decimal digits. */
  function LeadingDigits(s: string): (r: string)
    ensures |r| <= |s| && r == s[..|r|] && AllDigits(r)
    ensures |r| < |s| ==> !IsDigit(s[|r|])
  {
    if s != [] && IsDigit(s[0]) then [s[0]] + LeadingDigits(s[1..]) else []
  }

  /** The longest prefix of `s` made of hexadecimal digits. */
  function LeadingHexDigits(s: string): (r: string)
    ensures |r| <= |s| && r == s[..|r|] && forall i :: 0 <= i < |r| ==> IsHexDigit(r[i])
    ensures |r| < |s| ==> !IsHexDigit(s[|r|])
  {
    if s != [] && IsHexDigit(s[0]) then [s[0]] + LeadingHexDigits(s[1..]) else []
  }

  lemma {:induction false} LeadingDigitsOfDigits(s: string, rest: string)
    requires AllDigits(s)
    requires rest == [] || !IsDigit(rest[0])
    ensures LeadingDigits(s + rest) == s
  {
    if s == [] {
      assert s + rest == rest;
    } else {
      assert (s + rest)[0] == s[0];
      assert (s + rest)[1..] == s[1..] + rest;
      LeadingDigitsOfDigits(s[1..], rest);
    }
  }

  function Signed(negative: bool, magnitude: nat): int {
    if negative then -(magnitude as int) else magnitude
  }

  /** The digits after the sign: a `0x`/`0X` prefix selects base 16; no digits at all is `None`. */
  function ParseMagnitude(u: string): Option<nat> {
    if |u| >= 2 && u[0] == '0' && (u[1] == 'x' || u[1] == 'X') then
      var h := LeadingHexDigits(u[2..]);
      if h == [] then None else Some(HexValue(h))
    else
      var d := LeadingDigits(u);
      if d == [] then None else Some(DigitsValue(d))
  }

  /**
   * `parseInt(s)` with the radix omitted: leading white space is skipped, an
   * optional sign is read, and the longest run of digits that follows is the
   * value; no digits give `NaN`.
   */
  function ParseIntString(s: string): (r: Num)
    ensures r != Undef
    ensures TrimStart(s) == [] ==> r == NaN
  {
    ParseSigned(TrimStart(s))
  }

  /** The sign and the magnitude, once the white space is skipped. */
  function ParseSigned(t: string): Num {
    var negative := t != [] && t[0] == '-';
    var u := if t != [] && (t[0] == '-' || t[0] == '+') then t[1..] else t;
    match ParseMagnitude(u)
    case None => NaN
    case Some(m) => Int(Signed(negative, m))
  }

  /** `parseInt(v)`; `undefined` reads as the text "undefined" and gives `NaN`. */
  function ParseInt(v: Value): (r: Num)
    ensures r != Undef
    ensures v.Undefined? ==> r == NaN
    ensures v.Str? ==> r == ParseIntString(v.s)
  {
    match v
    case Undefined => NaN
    case Str(s) => ParseIntString(s)
  }

  lemma ParseMagnitudeOfDigits(digits: string)
    requires digits != [] && AllDigits(digits)
    ensures ParseMagnitude(digits) == Some(DigitsValue(digits))
  {
    assert digits + [] == digits;
    LeadingDigitsOfDigits(digits, []);
  }

  /** Text that starts with a digit is parsed without a sign: its magnitude is the value. */
  lemma ParseUnsigned(digits: string, m: nat)
    requires digits != [] && !IsSpace(digits[0]) && digits[0] != '-' && digits[0] != '+'
    requires ParseMagnitude(digits) == Some(m)
    ensures ParseIntString(digits) == Int(m)
  {
    TrimStartKeeps(digits);
  }

  /** A digit is neither white space nor a sign. */
  lemma DigitIsPlain(c: char)
    requires IsDigit(c)
    ensures !IsSpace(c) && c != '-' && c != '+'
  {
  }

  /** A minus sign negates the magnitude that follows it. */
  lemma ParseMinus(digits: string, m: nat)
    requires ParseMagnitude(digits) == Some(m)
    ensures ParseIntString("-" + digits) == Int(-(m as int))
  {
    var s := "-" + digits;
    assert s[0] == '-' && s[1..] == digits;
    TrimStartKeeps(s);
  }

  /** `String(i)` of a negative integer is a minus sign and the digits of `-i`. */
  lemma ParseIntOfNegative(i: int)
    requires i < 0
    ensures ParseIntString(NumToString(Int(i))) == Int(i)
  {
    var m: nat := -i;
    assert NumToString(Int(i)) == "-" + NatToString(m);
    DigitsValueOfNatToString(m);
    ParseMagnitudeOfDigits(NatToString(m));
    ParseMinus(NatToString(m), m);
  }

  /** `String(i)` of a non-negative integer is its digits. */
  lemma ParseIntOfNatural(i: int)
    requires i >= 0
    ensures ParseIntString(NumToString(Int(i))) == Int(i)
  {
    var m: nat := i;
    assert NumToString(Int(i)) == NatToString(m);
    DigitsValueOfNatToString(m);
    ParseMagnitudeOfDigits(NatToString(m));
    DigitIsPlain(NatToString(m)[0]);
    ParseUnsigned(NatToString(m), m);
  }

  /** `parseInt(String(i)) === i` for every integer. */
  lemma ParseIntOfNumToString(i: int)
    ensures ParseIntString(NumToString(Int(i))) == Int(i)
  {
    if i < 0 {
      ParseIntOfNegative(i);
    } else {
      ParseIntOfNatural(i);
    }
  }
}
