/**
 * Calendar dates as the ledger reads and writes them: `datetime.strptime(s,
 * "%Y-%m-%d").date()` to read one, `date.isoformat()` to write one.
 */
module Dates {
  import opened Wrappers

  datatype Date = Date(year: int, month: int, day: int)

  /** Gregorian leap years. */
  predicate IsLeapYear(y: int) {
    y % 4 == 0 && (y % 100 != 0 || y % 400 == 0)
  }

  function DaysInMonth(y: int, m: int): (n: int)
    requires 1 <= m <= 12
    ensures 28 <= n <= 31
    ensures n == 29 <==> m == 2 && IsLeapYear(y)
  {
    if m == 2 then (if IsLeapYear(y) then 29 else 28)
    else if m == 4 || m == 6 || m == 9 || m == 11 then 30
    else 31
  }

  /** A date Python's `datetime.date` can hold: years 1 to 9999, a real month and day. */
  predicate Valid(d: Date) {
    && 1 <= d.year <= 9999
    && 1 <= d.month <= 12
    && 1 <= d.day <= DaysInMonth(d.year, d.month)
  }

  predicate IsDigit(c: char) {
    '0' <= c <= '9'
  }

  function DigitValue(c: char): (n: int)
    requires IsDigit(c)
    ensures 0 <= n <= 9
  {
    c as int - '0' as int
  }

  function DigitChar(n: int): (c: char)
    requires 0 <= n <= 9
    ensures IsDigit(c) && DigitValue(c) == n
  {
    ('0' as int + n) as char
  }

  /** Two decimal digits, zero-padded (`%02d`). */
  function TwoDigits(n: int): (s: string)
    requires 0 <= n <= 99
    ensures |s| == 2 && IsDigit(s[0]) && IsDigit(s[1])
    ensures 10 * DigitValue(s[0]) + DigitValue(s[1]) == n
  {
    [DigitChar(n / 10), DigitChar(n % 10)]
  }

  /** Two decimal digits at `s[i]`, `s[i + 1]` read as a number. */
  function ValueAt(s: string, i: nat): (n: int)
    requires i + 1 < |s| && IsDigit(s[i]) && IsDigit(s[i + 1])
    ensures 0 <= n <= 99
  {
    10 * DigitValue(s[i]) + DigitValue(s[i + 1])
  }

  /** `YYYY-MM-DD` with every field zero-padded: `date.isoformat()`. */
  function Format(d: Date): (s: string)
    requires Valid(d)
    ensures |s| == 10 && s[4] == '-' && s[7] == '-'
  {
    TwoDigits(d.year / 100) + TwoDigits(d.year % 100) + "-"
      + TwoDigits(d.month) + "-" + TwoDigits(d.day)
  }

  /** The text has the `YYYY-MM-DD` layout: ten code points, ASCII digits and two dashes. */
  predicate HasIsoLayout(s: string) {
    && |s| == 10
    && s[4] == '-' && s[7] == '-'
    && (forall i :: 0 <= i < 10 && i != 4 && i != 7 ==> IsDigit(s[i]))
  }

  /**
   * `datetime.strptime(s, "%Y-%m-%d").date()`: the date the text names, or
   * None where Python raises `ValueError` (wrong layout, year 0, month or day
   * out of range).
   */
  function ParseIso(s: string): (r: Option<Date>)
    ensures r.Some? ==> Valid(r.value) && Format(r.value) == s
  {
    if !HasIsoLayout(s) then None
    else
      var d := Date(100 * ValueAt(s, 0) + ValueAt(s, 2), ValueAt(s, 5), ValueAt(s, 8));
      if !Valid(d) then None
      else
        assert d.year / 100 == ValueAt(s, 0) && d.year % 100 == ValueAt(s, 2);
        FormatDigits(s, d);
        Some(d)
  }

  lemma FormatDigits(s: string, d: Date)
    requires HasIsoLayout(s) && Valid(d)
    requires d.year / 100 == ValueAt(s, 0) && d.year % 100 == ValueAt(s, 2)
    requires d.month == ValueAt(s, 5) && d.day == ValueAt(s, 8)
    ensures Format(d) == s
  {
    TwoDigitsAt(s, 0);
    TwoDigitsAt(s, 2);
    TwoDigitsAt(s, 5);
    TwoDigitsAt(s, 8);
    assert s == s[0..2] + s[2..4] + "-" + s[5..7] + "-" + s[8..10];
  }

  /** Writing back two digits that were read gives the same two code points. */
  lemma TwoDigitsAt(s: string, i: nat)
    requires i + 1 < |s| && IsDigit(s[i]) && IsDigit(s[i + 1])
    ensures TwoDigits(ValueAt(s, i)) == s[i..i + 2]
  {
    var t := TwoDigits(ValueAt(s, i));
    DigitsDetermined(t[0], s[i]);
    DigitsDetermined(t[1], s[i + 1]);
  }

  lemma DigitsDetermined(a: char, b: char)
    requires IsDigit(a) && IsDigit(b) && DigitValue(a) == DigitValue(b)
    ensures a == b
  {
  }

  /** Reading back what `isoformat()` wrote gives the same date. */
  lemma ParseFormat(d: Date)
    requires Valid(d)
    ensures ParseIso(Format(d)) == Some(d)
  {
    var s := Format(d);
    assert ValueAt(s, 0) == d.year / 100 && ValueAt(s, 2) == d.year % 100;
    assert ValueAt(s, 5) == d.month && ValueAt(s, 8) == d.day;
  }

  /** Every valid date's ISO text parses back to that date. */
  lemma ParseFormatAll(s: string)
    ensures forall d :: Valid(d) && Format(d) == s ==> ParseIso(s) == Some(d)
  {
    forall d | Valid(d) && Format(d) == s ensures ParseIso(s) == Some(d) {
      ParseFormat(d);
    }
  }

  /** A text parses to `d` exactly when it is `d`'s ISO form. */
  lemma ParseIsoIff(s: string, d: Date)
    requires Valid(d)
    ensures ParseIso(s) == Some(d) <==> Format(d) == s
  {
    if Format(d) == s {
      ParseFormat(d);
    }
  }

  /** The order of `datetime.date`: by year, then month, then day. */
  predicate Before(a: Date, b: Date) {
    a.year < b.year
    || (a.year == b.year && (a.month < b.month || (a.month == b.month && a.day < b.day)))
  }

  predicate NotAfter(a: Date, b: Date) {
    Before(a, b) || a == b
  }

  /** Two distinct dates are always ordered one way. */
  lemma BeforeTotal(a: Date, b: Date)
    ensures Before(a, b) || Before(b, a) || a == b
    ensures !(Before(a, b) && Before(b, a))
  {
  }

  function Earlier(a: Date, b: Date): (r: Date)
    ensures NotAfter(r, a) && NotAfter(r, b) && (r == a || r == b)
  {
    if Before(b, a) then b else a
  }

  function Later(a: Date, b: Date): (r: Date)
    ensures NotAfter(a, r) && NotAfter(b, r) && (r == a || r == b)
  {
    if Before(b, a) then a else b
  }
}
