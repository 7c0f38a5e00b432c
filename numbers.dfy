/**
 * Python's numeric conversions of message text, as the bot uses them:
 * `str.isdigit()` followed by `int()` (order counts), `int()` (record ids),
 * `float()` (money) and `int(x)` of a float (the edited order count).
 * Money is an exact `real`; float rounding is not modelled.
 */
module Numbers {
  import opened Wrappers
  import opened Text

  predicate IsDigit(c: char) { '0' <= c <= '9' }

  predicate AllDigits(s: string) { forall i :: 0 <= i < |s| ==> IsDigit(s[i]) }

  /** `s.isdigit()`: non-empty and made of digits only. */
  predicate IsDigitText(s: string) { |s| > 0 && AllDigits(s) }

  function DigitValue(c: char): nat
    requires IsDigit(c)
  {
    c as int - '0' as int
  }

  function DigitChar(n: nat): (c: char)
    requires n < 10
    ensures IsDigit(c) && DigitValue(c) == n
  {
    ('0' as int + n) as char
  }

  /** The value of a run of decimal digits, most significant first. */
  function DigitsValue(s: string): (v: nat)
    requires AllDigits(s)
    ensures v < Pow10(|s|)
  {
    if s == [] then 0 else 10 * DigitsValue(s[..|s| - 1]) + DigitValue(s[|s| - 1])
  }

  function Pow10(n: nat): (p: nat)
    ensures p >= 1
  {
    if n == 0 then 1 else 10 * Pow10(n - 1)
  }

  /** The value of two digit runs written one after the other. */
  lemma {:induction false} DigitsConcat(a: string, b: string)
    requires AllDigits(a) && AllDigits(b)
    ensures AllDigits(a + b) && DigitsValue(a + b) == DigitsValue(a) * Pow10(|b|) + DigitsValue(b)
  {
    if b == [] {
      assert a + b == a;
    } else {
      var b' := b[..|b| - 1];
      var last := DigitValue(b[|b| - 1]);
      assert (a + b)[..|a + b| - 1] == a + b';
      DigitsConcat(a, b');
      calc {
        DigitsValue(a + b);
        10 * DigitsValue(a + b') + last;
        10 * (DigitsValue(a) * Pow10(|b'|) + DigitsValue(b')) + last;
        { MulAssoc(DigitsValue(a), Pow10(|b'|)); }
        DigitsValue(a) * Pow10(|b|) + (10 * DigitsValue(b') + last);
      }
    }
  }

  lemma MulAssoc(x: nat, y: nat)
    ensures 10 * (x * y) == x * (10 * y)
  {
  }

  /** `str(n)` for a natural number: the shortest digit text whose value is `n`. */
  function DecimalText(n: nat): (s: string)
    ensures IsDigitText(s) && DigitsValue(s) == n
    ensures |s| == 1 || s[0] != '0'
  {
    if n < 10 then [DigitChar(n)]
    else
      var prefix := DecimalText(n / 10);
      assert (prefix + [DigitChar(n % 10)])[..|prefix|] == prefix;
      prefix + [DigitChar(n % 10)]
  }

  /** `str(i)` for any integer. */
  function IntText(i: int): string {
    if i < 0 then "-" + DecimalText(-i) else DecimalText(i)
  }

  /** Whether a text starts with a minus sign. */
  predicate Negative(s: string) { s != [] && s[0] == '-' }

  /** A text without its optional leading sign, as `int()` and `float()` accept it. */
  function Unsigned(s: string): (r: string)
    ensures |r| <= |s|
  {
    if s != [] && (s[0] == '-' || s[0] == '+') then s[1..] else s
  }

  /**
   * `int(text)` in base 10: surrounding whitespace, an optional sign, then
   * one or more digits; anything else is a ValueError (None).
   */
  function ParseInt(text: string): (r: Option<int>)
    ensures r.Some? <==> IsDigitText(Unsigned(Strip(text)))
  {
    ParseSigned(Strip(text))
  }

  /** An optional sign and a digit run, with nothing around them. */
  function ParseSigned(s: string): (r: Option<int>)
    ensures r.Some? <==> IsDigitText(Unsigned(s))
  {
    var body := Unsigned(s);
    if IsDigitText(body) then
      Some(if Negative(s) then -(DigitsValue(body) as int) else DigitsValue(body))
    else None
  }

  /** `int()` reads back what `str()` writes. */
  lemma ParseIntText(i: int)
    ensures ParseInt(IntText(i)) == Some(i)
  {
    IntTextTrimmed(i);
    var s := IntText(i);
    if i < 0 {
      assert Unsigned(s) == s[1..] == DecimalText(-i);
    } else {
      assert Unsigned(s) == DecimalText(i);
    }
  }

  /** A run of `k` zeros. */
  function Zeros(k: nat): (z: string)
    ensures |z| == k && AllDigits(z) && DigitsValue(z) == 0
  {
    if k == 0 then [] else
      var z := Zeros(k - 1) + "0";
      assert z[..k - 1] == Zeros(k - 1);
      z
  }

  /**
   * `int()` also reads a digit run with blanks around it and a `+` or `-`
   * sign: " +007 " is 7 and " -007 " is -7.
   */
  lemma ParseIntPadded(digits: string, negative: bool)
    requires IsDigitText(digits)
    ensures var sign := if negative then "-" else "+";
      ParseInt(" " + sign + digits + " ") == Some(if negative then -(DigitsValue(digits) as int) else DigitsValue(digits))
  {
    var sign := if negative then "-" else "+";
    SignedDigitsStripped(sign, digits);
    SignedDigits(sign, digits);
  }

  /** `int()` ignores the whitespace around the number. */
  lemma ParseIntIgnoresBlanks(text: string)
    ensures ParseInt(text) == ParseInt(Strip(text))
  {
    StripTrimmed(Strip(text));
  }

  /** A sign followed by digits, with nothing around them. */
  lemma SignedDigits(sign: string, digits: string)
    requires (sign == "-" || sign == "+") && IsDigitText(digits)
    ensures ParseSigned(sign + digits) == Some(if sign == "-" then -(DigitsValue(digits) as int) else DigitsValue(digits))
  {
    var inner := sign + digits;
    assert Unsigned(inner) == digits;
  }

  /** Blanks around a signed digit run are stripped away. */
  lemma SignedDigitsStripped(sign: string, digits: string)
    requires |sign| == 1 && !IsSpace(sign[0]) && IsDigitText(digits)
    ensures Strip(" " + sign + digits + " ") == sign + digits
  {
    var inner := sign + digits;
    assert " " + sign + digits + " " == " " + inner + " ";
    assert inner[0] == sign[0] && inner[|inner| - 1] == digits[|digits| - 1];
    StripPadded(inner);
  }

  /** Leading zeros do not change the value of a digit run. */
  lemma LeadingZeros(k: nat, digits: string)
    requires AllDigits(digits)
    ensures AllDigits(Zeros(k) + digits) && DigitsValue(Zeros(k) + digits) == DigitsValue(digits)
  {
    DigitsConcat(Zeros(k), digits);
  }

  /** A number's text has no blank to strip. */
  lemma IntTextTrimmed(i: int)
    ensures Strip(IntText(i)) == IntText(i)
  {
    var s, d := IntText(i), DecimalText(if i < 0 then -i else i);
    assert IsDigit(d[0]) && IsDigit(d[|d| - 1]);
    assert s[|s| - 1] == d[|d| - 1] && (s[0] == '-' || s[0] == d[0]);
    StripTrimmed(s);
  }

  /** A blank before a number's digits is stripped away. */
  lemma BlankBeforeDigits(n: nat)
    ensures Strip(" " + DecimalText(n)) == DecimalText(n)
  {
    var x := DecimalText(n);
    LStripBlank(x);
    assert LStrip(x) == x;
    assert IntText(n) == x;
    IntTextTrimmed(n);
  }

  /** The index of the first exponent marker (`e` or `E`), or `|s|`. */
  function ExponentAt(s: string): (k: nat)
    ensures k <= |s| && (k < |s| ==> s[k] == 'e' || s[k] == 'E')
    ensures forall i :: 0 <= i < k ==> s[i] != 'e' && s[i] != 'E'
  {
    if s == [] then 0 else if s[0] == 'e' || s[0] == 'E' then 0 else 1 + ExponentAt(s[1..])
  }

  /** The mantissa of a float literal: `123`, `123.`, `.5` or `12.50`. */
  function ParseMantissa(s: string): Option<real> {
    var k := IndexOf(s, '.');
    if k == |s| then
      if IsDigitText(s) then Some(DigitsValue(s) as real) else None
    else
      var whole, fraction := s[..k], s[k + 1..];
      if AllDigits(whole) && AllDigits(fraction) && |whole| + |fraction| > 0 then
        Some(DigitsValue(whole) as real + FractionValue(fraction))
      else None
  }

  /** The value of the digits after a decimal point: `0.d1d2...` is `(d1 + 0.d2...) / 10`. */
  function FractionValue(s: string): real
    requires AllDigits(s)
  {
    if s == [] then 0.0 else (DigitValue(s[0]) as real + FractionValue(s[1..])) / 10.0
  }

  /** The exponent of a float literal after its `e`: an optional sign and digits. */
  function ParseExponent(s: string): Option<int> {
    var digits := Unsigned(s);
    if IsDigitText(digits) then Some(if Negative(s) then -(DigitsValue(digits) as int) else DigitsValue(digits))
    else None
  }

  /** `m` times ten to the power `e`. */
  function Scale(m: real, e: int): real
    decreases if e < 0 then -e else e
  {
    if e == 0 then m else if e > 0 then 10.0 * Scale(m, e - 1) else Scale(m, e + 1) / 10.0
  }

  /** An unsigned float literal: a mantissa and an optional exponent. */
  function ParseUnsignedFloat(body: string): Option<real> {
    var k := ExponentAt(body);
    var mantissa := ParseMantissa(body[..k]);
    var exponent := if k == |body| then Some(0) else ParseExponent(body[k + 1..]);
    if mantissa.None? || exponent.None? then None
    else Some(Scale(mantissa.value, exponent.value))
  }

  /**
   * `float(text)` on decimal literals: surrounding whitespace, an optional
   * sign, a mantissa and an optional exponent. Anything else is a ValueError.
   */
  function ParseFloat(text: string): Option<real> {
    var s := Strip(text);
    match ParseUnsignedFloat(Unsigned(s))
    case None => None
    case Some(v) => Some(if Negative(s) then -v else v)
  }

  /** A digit text has neither a decimal point nor an exponent marker. */
  lemma DigitsUnmarked(s: string)
    requires AllDigits(s)
    ensures ExponentAt(s) == |s| && IndexOf(s, '.') == |s|
  {
  }

  /** `float()` of an integer's text is that integer. */
  lemma ParseFloatIntText(i: int)
    ensures ParseFloat(IntText(i)) == Some(i as real)
  {
    var s := IntText(i);
    IntTextTrimmed(i);
    var n: nat := if i < 0 then -i else i;
    var body := DecimalText(n);
    assert Unsigned(s) == body by {
      if i < 0 { assert s[1..] == body; }
    }
    DigitsFloat(body);
  }

  /** A plain digit text is a float literal of its own value. */
  lemma DigitsFloat(body: string)
    requires IsDigitText(body)
    ensures ParseUnsignedFloat(body) == Some(DigitsValue(body) as real)
  {
    DigitsUnmarked(body);
    assert body[..|body|] == body;
    assert ParseMantissa(body) == Some(DigitsValue(body) as real);
  }

  /** `float()` reads a decimal fraction such as "12.50", ".5" or "7." as its exact value. */
  lemma ParseFloatDecimal(whole: string, fraction: string)
    requires AllDigits(whole) && AllDigits(fraction) && |whole| + |fraction| > 0
    ensures ParseFloat(whole + "." + fraction) == Some(DigitsValue(whole) as real + FractionValue(fraction))
  {
    var text := whole + "." + fraction;
    assert text[0] != '-' && text[0] != '+' && !IsSpace(text[0]) by {
      if whole != [] { assert text[0] == whole[0]; }
    }
    assert !IsSpace(text[|text| - 1]) by {
      if fraction != [] { assert text[|text| - 1] == fraction[|fraction| - 1]; }
    }
    StripTrimmed(text);
    assert Unsigned(text) == text && !Negative(text);
    DecimalUnsigned(whole, fraction);
  }

  lemma DecimalUnsigned(whole: string, fraction: string)
    requires AllDigits(whole) && AllDigits(fraction) && |whole| + |fraction| > 0
    ensures ParseUnsignedFloat(whole + "." + fraction) == Some(DigitsValue(whole) as real + FractionValue(fraction))
  {
    var text := whole + "." + fraction;
    DecimalMarks(whole, fraction);
    assert text[..ExponentAt(text)] == text;
    DecimalMantissa(whole, fraction);
  }

  lemma DecimalMantissa(whole: string, fraction: string)
    requires AllDigits(whole) && AllDigits(fraction) && |whole| + |fraction| > 0
    ensures ParseMantissa(whole + "." + fraction) == Some(DigitsValue(whole) as real + FractionValue(fraction))
  {
    var text := whole + "." + fraction;
    var k := IndexOf(text, '.');
    assert k == |whole| by {
      DecimalMarks(whole, fraction);
    }
    DecimalParts(whole, fraction);
  }

  lemma DecimalParts(whole: string, fraction: string)
    ensures var text := whole + "." + fraction;
      text[..|whole|] == whole && text[|whole| + 1..] == fraction
  {
  }

  /** A decimal fraction has its point after the whole part and no exponent marker. */
  lemma DecimalMarks(whole: string, fraction: string)
    requires AllDigits(whole) && AllDigits(fraction)
    ensures ExponentAt(whole + "." + fraction) == |whole + "." + fraction|
    ensures IndexOf(whole + "." + fraction, '.') == |whole|
  {
    var text := whole + "." + fraction;
    assert forall i :: 0 <= i < |text| ==> text[i] != 'e' && text[i] != 'E';
    assert text[|whole|] == '.';
    assert forall i :: 0 <= i < |whole| ==> text[i] == whole[i];
  }

  /** `int(x)` of a float: truncation toward zero. */
  function Trunc(x: real): (n: int)
    ensures x >= 0.0 ==> 0 <= n && n as real <= x < n as real + 1.0
    ensures x < 0.0 ==> n <= 0 && n as real - 1.0 < x <= n as real
  {
    if x >= 0.0 then x.Floor else -((-x).Floor)
  }
}
