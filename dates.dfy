/**
  Calendar dates and their "%d %b %Y" rendering in the English (en_US) locale:
  a zero-padded two-digit day, the three-letter month abbreviation and a
  four-digit year, separated by single spaces ("05 Jan 2024").
*/
module Dates {
  import opened Wrappers

  datatype Date = Date(year: int, month: int, day: int)

  predicate IsLeapYear(year: int) {
    year % 4 == 0 && (year % 100 != 0 || year % 400 == 0)
  }

  function DaysInMonth(year: int, month: int): (n: int)
    requires 1 <= month <= 12
    ensures 28 <= n <= 31
  {
    if month == 2 then (if IsLeapYear(year) then 29 else 28)
    else if month in {4, 6, 9, 11} then 30
    else 31
  }

  /** A day of the proleptic Gregorian calendar whose year has four digits. */
  predicate ValidDate(d: Date) {
    1000 <= d.year <= 9999 && 1 <= d.month <= 12 && 1 <= d.day <= DaysInMonth(d.year, d.month)
  }

  type CalendarDate = d: Date | ValidDate(d) witness Date(2000, 1, 1)

  /** The English month abbreviations that "%b" produces under en_US. */
  const MonthAbbreviations: seq<string> :=
    ["Jan", "Feb", "Mar", "Apr", "May", "Jun", "Jul", "Aug", "Sep", "Oct", "Nov", "Dec"]

  /** The month number (1 for January) of an English month abbreviation. */
  function MonthNumber(name: string): (m: int)
    requires name in MonthAbbreviations
    ensures 1 <= m <= 12 && MonthAbbreviations[m - 1] == name
  {
    if name == "Jan" then 1 else if name == "Feb" then 2 else if name == "Mar" then 3
    else if name == "Apr" then 4 else if name == "May" then 5 else if name == "Jun" then 6
    else if name == "Jul" then 7 else if name == "Aug" then 8 else if name == "Sep" then 9
    else if name == "Oct" then 10 else if name == "Nov" then 11 else 12
  }

  predicate IsDigit(c: char) {
    '0' <= c <= '9'
  }

  predicate AllDigits(s: string) {
    forall i | 0 <= i < |s| :: IsDigit(s[i])
  }

  function Pow10(n: nat): (p: nat)
    ensures p >= 1
  {
    if n == 0 then 1 else 10 * Pow10(n - 1)
  }

  /** The decimal digits of n modulo 10^width, most significant first, zero-padded to width. */
  function Digits(n: nat, width: nat): (s: string)
    ensures |s| == width && AllDigits(s)
  {
    if width == 0 then "" else Digits(n / 10, width - 1) + [('0' as int + n % 10) as char]
  }

  /** The number a string of decimal digits denotes. */
  function NumberValue(s: string): nat
    requires AllDigits(s)
  {
    if s == [] then 0 else NumberValue(s[..|s| - 1]) * 10 + (s[|s| - 1] as int - '0' as int)
  }

  lemma {:induction false} NumberValueOfDigits(n: nat, width: nat)
    requires n < Pow10(width)
    ensures NumberValue(Digits(n, width)) == n
  {
    if width > 0 {
      var s := Digits(n, width);
      assert s[..|s| - 1] == Digits(n / 10, width - 1);
      NumberValueOfDigits(n / 10, width - 1);
    }
  }

  lemma {:induction false} DigitsOfNumberValue(s: string)
    requires AllDigits(s)
    ensures NumberValue(s) < Pow10(|s|)
    ensures Digits(NumberValue(s), |s|) == s
  {
    if s != [] {
      var init := s[..|s| - 1];
      DigitsOfNumberValue(init);
      var n := NumberValue(s);
      assert n / 10 == NumberValue(init) && n % 10 == s[|s| - 1] as int - '0' as int;
      assert s == init + [s[|s| - 1]];
    }
  }

  /**
    The "%d %b %Y" rendering of a date: its first two characters are the digits
    of the day, then the month's abbreviation, then the four digits of the year.
  */
  function FormatDate(d: CalendarDate): (s: string)
    ensures |s| == 11 && s[2] == ' ' && s[6] == ' '
    ensures AllDigits(s[..2]) && NumberValue(s[..2]) == d.day
    ensures s[3..6] == MonthAbbreviations[d.month - 1]
    ensures AllDigits(s[7..]) && NumberValue(s[7..]) == d.year
  {
    NumberValueOfDigits(d.day, 2);
    NumberValueOfDigits(d.year, 4);
    var s := Digits(d.day, 2) + " " + MonthAbbreviations[d.month - 1] + " " + Digits(d.year, 4);
    assert s[..2] == Digits(d.day, 2) && s[7..] == Digits(d.year, 4);
    s
  }

  /** Reads back a "%d %b %Y" rendering; the inverse of FormatDate. */
  function ParseDate(s: string): (r: Option<CalendarDate>)
  {
    if |s| == 11 && s[2] == ' ' && s[6] == ' ' && AllDigits(s[..2]) && AllDigits(s[7..])
      && s[3..6] in MonthAbbreviations
    then
      var d := Date(NumberValue(s[7..]), MonthNumber(s[3..6]), NumberValue(s[..2]));
      if ValidDate(d) then Some(d) else None
    else None
  }

  /** The rendering of a date reads back as that date. */
  lemma FormatThenParse(d: CalendarDate)
    ensures ParseDate(FormatDate(d)) == Some(d)
  {
    var s := FormatDate(d);
    assert MonthNumber(s[3..6]) == d.month;
  }

  /** A string that reads back as a date is exactly that date's rendering. */
  lemma ParseThenFormat(s: string, d: CalendarDate)
    requires ParseDate(s) == Some(d)
    ensures FormatDate(d) == s
  {
    var f := FormatDate(d);
    DigitsOfNumberValue(s[..2]);
    DigitsOfNumberValue(s[7..]);
    NumberValueOfDigits(d.day, 2);
    assert f[..2] == s[..2] by { DigitsOfNumberValue(f[..2]); }
    assert f[7..] == s[7..] by { DigitsOfNumberValue(f[7..]); }
    assert f == f[..2] + " " + f[3..6] + " " + f[7..];
    assert s == s[..2] + " " + s[3..6] + " " + s[7..];
  }

  /** Distinct dates render differently, so the rendering determines the date. */
  lemma FormatDateInjective(d1: CalendarDate, d2: CalendarDate)
    requires FormatDate(d1) == FormatDate(d2)
    ensures d1 == d2
  {
    FormatThenParse(d1);
    FormatThenParse(d2);
  }

  /** 5 January 2024, as an example. */
  lemma FormatExample()
    ensures FormatDate(Date(2024, 1, 5)) == "05 Jan 2024"
  {
  }
}
