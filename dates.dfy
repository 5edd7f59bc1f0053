/**
 * Dates of the sales table. The `invoice_date` column holds text of the form YYYY-MM-DD; the
 * summary build casts it to a DATE and formats the DATE back as its YYYY-MM month.
 */
module Dates {
  import opened Wrappers

  /** A calendar date (the DATE type). */
  datatype Date = Date(year: int, month: int, day: int)

  /** Gregorian leap-year rule. */
  predicate IsLeapYear(y: int) {
    y % 4 == 0 && (y % 100 != 0 || y % 400 == 0)
  }

  function DaysInMonth(y: int, m: int): (n: int)
    requires 1 <= m <= 12
    ensures 28 <= n <= 31
    ensures n == 29 <==> m == 2 && IsLeapYear(y)
  {
    if m == 2 then (if IsLeapYear(y) then 29 else 28)
    else if m == 4 || m == 6 || m == 9 || m == 11 then 30
    else 31
  }

  /** A date whose year has four decimal digits and whose month and day exist. */
  predicate ValidDate(d: Date) {
    1 <= d.year <= 9999 && 1 <= d.month <= 12 && 1 <= d.day <= DaysInMonth(d.year, d.month)
  }

  predicate IsDigit(c: char) {
    '0' <= c <= '9'
  }

  predicate AllDigits(s: string) {
    forall i :: 0 <= i < |s| ==> IsDigit(s[i])
  }

  function Pow10(n: nat): (p: nat)
    ensures p >= 1
  {
    if n == 0 then 1 else 10 * Pow10(n - 1)
  }

  /** The decimal digits of `n mod 10^width`, zero-padded on the left to `width` characters. */
  function Padded(n: nat, width: nat): (s: string)
    ensures |s| == width
    ensures AllDigits(s)
  {
    if width == 0 then []
    else Padded(n / 10, width - 1) + [('0' as int + n % 10) as char]
  }

  /** The number a string of decimal digits spells. */
  function DigitsValue(s: string): (n: nat)
    requires AllDigits(s)
    ensures n < Pow10(|s|)
  {
    if s == [] then 0
    else DigitsValue(s[..|s| - 1]) * 10 + (s[|s| - 1] as int - '0' as int)
  }

  lemma {:induction false} DigitsValueOfPadded(n: nat, width: nat)
    requires n < Pow10(width)
    ensures DigitsValue(Padded(n, width)) == n
  {
    if width > 0 {
      DigitsValueOfPadded(n / 10, width - 1);
      var s := Padded(n, width);
      assert s[..|s| - 1] == Padded(n / 10, width - 1);
    }
  }

  lemma {:induction false} PaddedOfDigitsValue(s: string)
    requires AllDigits(s)
    ensures Padded(DigitsValue(s), |s|) == s
  {
    if s != [] {
      var init := s[..|s| - 1];
      PaddedOfDigitsValue(init);
      var n := DigitsValue(s);
      assert n / 10 == DigitsValue(init);
      assert n % 10 == s[|s| - 1] as int - '0' as int;
    }
  }

  /** The text `strftime('%Y-%m-%d')` gives for a date: the form the invoice dates are stored in. */
  function FormatDate(d: Date): (s: string)
    requires ValidDate(d)
    ensures |s| == 10 && s[4] == '-' && s[7] == '-'
  {
    Padded(d.year, 4) + "-" + Padded(d.month, 2) + "-" + Padded(d.day, 2)
  }

  /** STRFTIME(date, '%Y-%m'): the year and the month of a date, as YYYY-MM. */
  function FormatMonth(d: Date): (s: string)
    requires ValidDate(d)
    ensures |s| == 7 && s[4] == '-'
    ensures AllDigits(s[..4]) && AllDigits(s[5..])
  {
    Padded(d.year, 4) + "-" + Padded(d.month, 2)
  }

  /** Is `s` shaped DDDD-DD-DD, each D a decimal digit? */
  predicate IsDateShaped(s: string) {
    |s| == 10 && s[4] == '-' && s[7] == '-'
    && AllDigits(s[..4]) && AllDigits(s[5..7]) && AllDigits(s[8..])
  }

  /**
   * CAST(text AS DATE) for text in the ISO form YYYY-MM-DD; None where the cast raises
   * (a malformed text, a month outside 1..12 or a day the month does not have).
   */
  function ParseDate(s: string): (r: Option<Date>)
    ensures r.Some? ==> ValidDate(r.value) && IsDateShaped(s)
  {
    if !IsDateShaped(s) then None
    else
      var d := Date(DigitsValue(s[..4]), DigitsValue(s[5..7]), DigitsValue(s[8..]));
      if ValidDate(d) then Some(d) else None
  }

  /** Casting the stored text of a valid date gives that date back. */
  lemma ParseFormattedDate(d: Date)
    requires ValidDate(d)
    ensures ParseDate(FormatDate(d)) == Some(d)
  {
    var s := FormatDate(d);
    assert s[..4] == Padded(d.year, 4);
    assert s[5..7] == Padded(d.month, 2);
    assert s[8..] == Padded(d.day, 2);
    DigitsValueOfPadded(d.year, 4);
    DigitsValueOfPadded(d.month, 2);
    DigitsValueOfPadded(d.day, 2);
  }

  /** Text the cast accepts is exactly the formatted form of the date it yields. */
  lemma ParsedDateIsCanonical(s: string)
    requires ParseDate(s).Some?
    ensures FormatDate(ParseDate(s).value) == s
  {
    PaddedOfDigitsValue(s[..4]);
    PaddedOfDigitsValue(s[5..7]);
    PaddedOfDigitsValue(s[8..]);
    assert s == s[..4] + "-" + s[5..7] + "-" + s[8..];
  }

  /** The month bucket of a stored invoice date is the text's first seven characters. */
  lemma MonthIsPrefix(s: string)
    requires ParseDate(s).Some?
    ensures FormatMonth(ParseDate(s).value) == s[..7]
  {
    ParsedDateIsCanonical(s);
  }

  /** Two valid dates share a month bucket exactly when they share year and month. */
  lemma FormatMonthInjective(d1: Date, d2: Date)
    requires ValidDate(d1) && ValidDate(d2)
    ensures FormatMonth(d1) == FormatMonth(d2) <==> d1.year == d2.year && d1.month == d2.month
  {
    var s1, s2 := FormatMonth(d1), FormatMonth(d2);
    if s1 == s2 {
      assert s1[..4] == Padded(d1.year, 4) && s2[..4] == Padded(d2.year, 4);
      assert s1[5..] == Padded(d1.month, 2) && s2[5..] == Padded(d2.month, 2);
      DigitsValueOfPadded(d1.year, 4);
      DigitsValueOfPadded(d2.year, 4);
      DigitsValueOfPadded(d1.month, 2);
      DigitsValueOfPadded(d2.month, 2);
    }
  }
}
