/**
 * Calendar dates as the bot handles them: Python `datetime.date` values,
 * `strptime` with the formats "%d-%m-%y" and "%d-%m-%Y", `strftime("%d-%m-%y")`,
 * and the first and last day of a month (`calendar.monthrange`).
 */
module Dates {
  import opened Wrappers
  import opened Text
  import opened Numbers

  datatype Date = Date(day: int, month: int, year: int)

  /** The Gregorian leap-year rule. */
  predicate IsLeapYear(y: int) {
    y % 4 == 0 && (y % 100 != 0 || y % 400 == 0)
  }

  /** `calendar.monthrange(year, month)[1]`: the number of days in the month. */
  function DaysInMonth(year: int, month: int): (n: int)
    requires 1 <= month <= 12
    ensures 28 <= n <= 31
    ensures n == 29 <==> month == 2 && IsLeapYear(year)
  {
    if month == 2 then (if IsLeapYear(year) then 29 else 28)
    else if month == 4 || month == 6 || month == 9 || month == 11 then 30
    else 31
  }

  /** `datetime.MINYEAR` and `datetime.MAXYEAR`. */
  const MinYear := 1
  const MaxYear := 9999

  /** The dates `datetime.date(year, month, day)` accepts. */
  predicate ValidDate(d: Date) {
    MinYear <= d.year <= MaxYear && 1 <= d.month <= 12 && 1 <= d.day <= DaysInMonth(d.year, d.month)
  }

  /** Chronological order: `a <= b` on `datetime.date`. */
  predicate AtMost(a: Date, b: Date) {
    a.year < b.year || (a.year == b.year && (a.month < b.month || (a.month == b.month && a.day <= b.day)))
  }

  /** The two year directives: `%y` (two digits) and `%Y` (four digits). */
  datatype YearStyle = ShortYear | LongYear

  /** The day field `%d` of `strptime`: `3[01]|[12]\d|0[1-9]|[1-9]| [1-9]`. */
  predicate DayField(s: string) {
    || (|s| == 2 && s[0] == '3' && (s[1] == '0' || s[1] == '1'))
    || (|s| == 2 && (s[0] == '1' || s[0] == '2') && IsDigit(s[1]))
    || (|s| == 2 && s[0] == '0' && '1' <= s[1] <= '9')
    || (|s| == 1 && '1' <= s[0] <= '9')
    || (|s| == 2 && s[0] == ' ' && '1' <= s[1] <= '9')
  }

  /** The month field `%m` of `strptime`: `1[0-2]|0[1-9]|[1-9]`. */
  predicate MonthField(s: string) {
    || (|s| == 2 && s[0] == '1' && '0' <= s[1] <= '2')
    || (|s| == 2 && s[0] == '0' && '1' <= s[1] <= '9')
    || (|s| == 1 && '1' <= s[0] <= '9')
  }

  /** The year field: `%y` is `\d\d`, `%Y` is `\d\d\d\d`. */
  predicate YearField(s: string, style: YearStyle) {
    AllDigits(s) && |s| == (if style == ShortYear then 2 else 4)
  }

  /** The number a day or month field stands for (a leading blank is allowed by `%d`). */
  function FieldValue(s: string): nat
    requires DayField(s) || MonthField(s)
  {
    if s[0] == ' ' then DigitsValue(s[1..]) else DigitsValue(s)
  }

  /** The POSIX `%y` convention: 69-99 are 1969-1999, 00-68 are 2000-2068. */
  function PivotYear(yy: int): (y: int)
    requires 0 <= yy < 100
    ensures 1969 <= y <= 2068 && y % 100 == yy
  {
    if yy <= 68 then 2000 + yy else 1900 + yy
  }

  function YearValue(s: string, style: YearStyle): int
    requires YearField(s, style)
  {
    if style == ShortYear then PivotYear(DigitsValue(s)) else DigitsValue(s)
  }

  /**
   * `datetime.strptime(text, "%d-%m-%y").date()` (ShortYear) or with "%d-%m-%Y"
   * (LongYear). The whole text must match; a match naming no calendar date
   * is a ValueError too. None stands for the ValueError.
   */
  function ParseDate(text: string, style: YearStyle): (r: Option<Date>)
    ensures r.Some? ==> ValidDate(r.value)
    ensures r.Some? && style == ShortYear ==> 1969 <= r.value.year <= 2068
  {
    var i := IndexOf(text, '-');
    if i == |text| then None
    else
      var rest := text[i + 1..];
      var j := IndexOf(rest, '-');
      if j == |rest| then None
      else
        var dayText, monthText, yearText := text[..i], rest[..j], rest[j + 1..];
        if DayField(dayText) && MonthField(monthText) && YearField(yearText, style) then
          var d := Date(FieldValue(dayText), FieldValue(monthText), YearValue(yearText, style));
          if ValidDate(d) then Some(d) else None
        else None
  }

  /** A number below 100 as two digits, zero-padded. */
  function Two(n: nat): (s: string)
    requires n < 100
    ensures |s| == 2 && AllDigits(s) && DigitsValue(s) == n
  {
    var s := [DigitChar(n / 10), DigitChar(n % 10)];
    assert s[..1][..0] == [];
    assert DigitsValue(s[..1]) == n / 10;
    s
  }

  /** `date.strftime("%d-%m-%y")`. */
  function FormatShort(d: Date): (s: string)
    requires ValidDate(d)
    ensures |s| == 8
  {
    Two(d.day) + "-" + Two(d.month) + "-" + Two(d.year % 100)
  }

  /** The DD-MM-YYYY text naming a date, as a user types it. */
  function LongText(d: Date): (s: string)
    requires ValidDate(d)
    ensures |s| == 10
  {
    Two(d.day) + "-" + Two(d.month) + "-" + Two(d.year / 100) + Two(d.year % 100)
  }

  /** The date that "%d-%m-%y" reads back from the short text of `d`. */
  function ShortReading(d: Date): Date
    requires ValidDate(d)
  {
    d.(year := PivotYear(d.year % 100))
  }

  lemma TwoDayField(n: nat)
    requires 1 <= n <= 31
    ensures DayField(Two(n)) && FieldValue(Two(n)) == n
  {
  }

  lemma TwoMonthField(n: nat)
    requires 1 <= n <= 12
    ensures MonthField(Two(n)) && FieldValue(Two(n)) == n
  {
  }

  /** Moving a year into the `%y` window keeps its leap-year status. */
  lemma {:induction false} PivotKeepsLeap(y: int)
    requires MinYear <= y <= MaxYear
    ensures IsLeapYear(y) ==> IsLeapYear(PivotYear(y % 100))
  {
    var yy := y % 100;
    var p := PivotYear(yy);
    if IsLeapYear(y) {
      if yy == 0 {
        assert p == 2000;
      } else {
        assert y == 100 * (y / 100) + yy;
        assert yy % 4 == 0;
        assert p % 100 == yy;
      }
    }
  }

  /** The "%d-%m-%y" reading of a valid date is a valid date. */
  lemma ShortReadingValid(d: Date)
    requires ValidDate(d)
    ensures ValidDate(ShortReading(d))
  {
    PivotKeepsLeap(d.year);
  }

  /** The three fields of a text laid out as `a-b-c`, where `a` and `b` have no dash. */
  lemma SplitFields(a: string, b: string, c: string)
    requires '-' !in a && '-' !in b
    ensures var t := a + "-" + b + "-" + c;
      var i := IndexOf(t, '-');
      i == |a| && t[..i] == a && IndexOf(t[i + 1..], '-') == |b|
      && t[i + 1..][..|b|] == b && t[i + 1..][|b| + 1..] == c
  {
    var t := a + "-" + b + "-" + c;
    var i := IndexOf(t, '-');
    assert t[|a|] == '-';
    var rest := t[|a| + 1..];
    assert rest == b + "-" + c;
    assert rest[|b|] == '-';
    var j := IndexOf(rest, '-');
  }

  /** Reading back the short text of a date gives the date with its year moved into 1969-2068. */
  lemma ParseFormatShort(d: Date)
    requires ValidDate(d)
    ensures ParseDate(FormatShort(d), ShortYear) == Some(ShortReading(d))
  {
    TwoDayField(d.day);
    TwoMonthField(d.month);
    SplitFields(Two(d.day), Two(d.month), Two(d.year % 100));
    ShortReadingValid(d);
  }

  /** The four-digit year text of `y` has the value `y`. */
  lemma LongYearText(y: int)
    requires MinYear <= y <= MaxYear
    ensures var t := Two(y / 100) + Two(y % 100);
      YearField(t, LongYear) && DigitsValue(t) == y
  {
    var hi, lo := y / 100, y % 100;
    DigitsConcat(Two(hi), Two(lo));
    assert Pow10(2) == 100;
    assert DigitsValue(Two(hi) + Two(lo)) == hi * 100 + lo;
  }

  /** Reading back the long text of a date with "%d-%m-%Y" gives the date itself. */
  lemma ParseLongText(d: Date)
    requires ValidDate(d)
    ensures ParseDate(LongText(d), LongYear) == Some(d)
  {
    TwoDayField(d.day);
    TwoMonthField(d.month);
    var y := Two(d.year / 100) + Two(d.year % 100);
    LongYearText(d.year);
    SplitFields(Two(d.day), Two(d.month), y);
    assert LongText(d) == Two(d.day) + "-" + Two(d.month) + "-" + y;
  }

  /** The digits of a two-digit text, written back with `Two`, are that text. */
  lemma TwoOfDigits(t: string)
    requires |t| == 2 && AllDigits(t)
    ensures Two(DigitsValue(t)) == t
  {
    assert t[..1][..0] == [];
    assert DigitsValue(t) == 10 * DigitValue(t[0]) + DigitValue(t[1]);
  }

  /** Within 1969-2068 the short text reads back exactly. */
  lemma ShortReadingInWindow(d: Date)
    requires ValidDate(d) && 1969 <= d.year <= 2068
    ensures ShortReading(d) == d
  {
  }

  /** Outside 1969-2068 the short text reads back as another year. */
  lemma ShortReadingOutsideWindow(d: Date)
    requires ValidDate(d) && (d.year < 1969 || d.year > 2068)
    ensures ShortReading(d).year != d.year && ShortReading(d).year % 100 == d.year % 100
  {
  }

  /**
   * An 8-character text (without a leading blank) that "%d-%m-%y" accepts is
   * exactly the `strftime("%d-%m-%y")` text of the date it names.
   */
  lemma FormatShortOfParse(s: string)
    requires |s| == 8 && s[0] != ' ' && ParseDate(s, ShortYear).Some?
    ensures FormatShort(ParseDate(s, ShortYear).value) == s
  {
    var d := ParseDate(s, ShortYear).value;
    var i := IndexOf(s, '-');
    var rest := s[i + 1..];
    var j := IndexOf(rest, '-');
    var dayText, monthText, yearText := s[..i], rest[..j], rest[j + 1..];
    assert |yearText| == 2 && |dayText| <= 2 && |monthText| <= 2;
    assert |dayText| == 2 && |monthText| == 2;
    assert dayText[0] == s[0];
    TwoOfDigits(dayText);
    TwoOfDigits(monthText);
    TwoOfDigits(yearText);
    assert s == dayText + "-" + monthText + "-" + yearText;
  }

  /** A four-digit text is written back by its two halves. */
  lemma FourOfDigits(t: string)
    requires |t| == 4 && AllDigits(t)
    ensures Two(DigitsValue(t) / 100) + Two(DigitsValue(t) % 100) == t
  {
    var hi, lo := t[..2], t[2..];
    assert t == hi + lo;
    DigitsConcat(hi, lo);
    assert Pow10(2) == 100;
    var v := DigitsValue(t);
    assert v == DigitsValue(hi) * 100 + DigitsValue(lo) && DigitsValue(lo) < 100;
    assert v / 100 == DigitsValue(hi) && v % 100 == DigitsValue(lo);
    TwoOfDigits(hi);
    TwoOfDigits(lo);
  }

  /**
   * A 10-character text (without a leading blank) that "%d-%m-%Y" accepts is
   * exactly the DD-MM-YYYY text of the date it names: the parse keeps the
   * typed day, month and year.
   */
  lemma LongTextOfParse(s: string)
    requires |s| == 10 && s[0] != ' ' && ParseDate(s, LongYear).Some?
    ensures LongText(ParseDate(s, LongYear).value) == s
  {
    var i := IndexOf(s, '-');
    var rest := s[i + 1..];
    var j := IndexOf(rest, '-');
    var dayText, monthText, yearText := s[..i], rest[..j], rest[j + 1..];
    assert |yearText| == 4 && |dayText| <= 2 && |monthText| <= 2;
    assert |dayText| == 2 && |monthText| == 2;
    assert dayText[0] == s[0];
    TwoOfDigits(dayText);
    TwoOfDigits(monthText);
    FourOfDigits(yearText);
    assert s == dayText + "-" + monthText + "-" + yearText;
  }

  /** `datetime.date(year, month, 1)`. */
  function FirstOfMonth(year: int, month: int): Date {
    Date(1, month, year)
  }

  /** `datetime.date(year, month, calendar.monthrange(year, month)[1])`. */
  function LastOfMonth(year: int, month: int): Date
    requires 1 <= month <= 12
  {
    Date(DaysInMonth(year, month), month, year)
  }

  /** A valid date lies between the first and the last day of a month iff it is in that month. */
  lemma InMonthRange(d: Date, year: int, month: int)
    requires ValidDate(d) && 1 <= month <= 12
    ensures AtMost(FirstOfMonth(year, month), d) && AtMost(d, LastOfMonth(year, month))
            <==> d.year == year && d.month == month
  {
  }
}
