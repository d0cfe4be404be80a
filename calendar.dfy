/**
 * Calendar dates as (year, month, day) triples, the English month names both the
 * import script and the backend use, and the `YYYY-MM-DD` text form that
 * `toISOString().split('T')[0]` produces and that the backend reads back.
 */
module Calendar {
  import opened Outcomes
  import opened Text

  datatype Date = Date(year: nat, month: nat, day: nat)

  /** The `monthNames` array of the backend and the values of the import script's month map. */
  const EnglishMonths: seq<string> := [
    "January", "February", "March", "April", "May", "June",
    "July", "August", "September", "October", "November", "December"
  ]

  predicate IsLeapYear(y: nat) { y % 4 == 0 && (y % 100 != 0 || y % 400 == 0) }

  function DaysInMonth(y: nat, m: nat): (n: nat)
    requires 1 <= m <= 12
    ensures 28 <= n <= 31
  {
    if m == 2 then (if IsLeapYear(y) then 29 else 28)
    else if m == 4 || m == 6 || m == 9 || m == 11 then 30
    else 31
  }

  /** A date that exists: a month 1..12 and a day of that month (proleptic Gregorian calendar). */
  predicate IsCalendarDate(d: Date) {
    1 <= d.month <= 12 && 1 <= d.day <= DaysInMonth(d.year, d.month)
  }

  /**
   * The fields the JavaScript `Date` constructor (as in V8) accepts in the date-only
   * ISO form: a month 1..12 and a day 1..31, whatever the month's length.
   */
  predicate InDateRange(d: Date) {
    1 <= d.month <= 12 && 1 <= d.day <= 31
  }

  /** The days of year `y` before the first of month `m`. */
  function DaysBeforeMonth(y: nat, m: nat): nat
    requires 1 <= m <= 13
  {
    if m == 1 then 0 else DaysBeforeMonth(y, m - 1) + DaysInMonth(y, m - 1)
  }

  /** The position of the day within its year, counting the days of the months before it. */
  function DayOfYear(d: Date): nat
    requires 1 <= d.month <= 12
  {
    DaysBeforeMonth(d.year, d.month) + d.day
  }

  /**
   * The date the `Date` constructor makes of fields in range: the given day counted
   * from the first of the month, so that a day past the month's end carries into the
   * next month (the 30th of February is the 2nd or 1st of March).
   */
  function RollOver(d: Date): (r: Date)
    requires InDateRange(d)
    ensures IsCalendarDate(r) && r.year == d.year
    ensures IsCalendarDate(d) <==> r == d
  {
    var n := DaysInMonth(d.year, d.month);
    if d.day <= n then d
    else
      assert d.month < 12;
      Date(d.year, d.month + 1, d.day - n)
  }

  /** Rolling over keeps the day's position in the year. */
  lemma RollOverKeepsDayOfYear(d: Date)
    requires InDateRange(d)
    ensures DayOfYear(RollOver(d)) == DayOfYear(d)
  {
  }

  /** `getMonth()` looked up in `monthNames`: the English name of the date's month. */
  function MonthName(d: Date): (name: string)
    requires IsCalendarDate(d)
    ensures name in EnglishMonths
  {
    EnglishMonths[d.month - 1]
  }

  /** `toISOString().split('T')[0]` of a UTC-midnight date with a four-digit year. */
  function FormatIsoDate(d: Date): (s: string)
    ensures |s| == 10 && s[4] == '-' && s[7] == '-'
  {
    Digits(d.year, 4) + "-" + Digits(d.month, 2) + "-" + Digits(d.day, 2)
  }

  /** The shape `\d{4}-\d{2}-\d{2}`. */
  predicate IsIsoShape(s: string) {
    |s| == 10 && AllDigits(s[..4]) && s[4] == '-' && AllDigits(s[5..7]) && s[7] == '-' && AllDigits(s[8..])
  }

  /** The year, month and day fields of text of the shape `\d{4}-\d{2}-\d{2}`. */
  function IsoFields(s: string): Date
    requires IsIsoShape(s)
  {
    Date(DigitsValue(s[..4]), DigitsValue(s[5..7]), DigitsValue(s[8..]))
  }

  /** The reduced form `\d{4}-\d{2}`: a year and a month. */
  predicate IsYearMonthShape(s: string) {
    |s| == 7 && AllDigits(s[..4]) && s[4] == '-' && AllDigits(s[5..])
  }

  /** The reduced form `\d{4}`: a year alone. */
  predicate IsYearShape(s: string) {
    |s| == 4 && AllDigits(s)
  }

  /**
   * `new Date(s)` for the three date-only ISO forms `YYYY-MM-DD`, `YYYY-MM` and `YYYY`:
   * nothing when the month or the day is out of range, otherwise the date the fields
   * make, a missing month or day being the first, and a day past the month's end
   * carrying into the next month.
   */
  function ParseIsoDate(s: string): (r: Option<Date>)
    ensures IsIsoShape(s) ==> (r.Some? <==> InDateRange(IsoFields(s)))
    ensures IsYearMonthShape(s) ==>
              (r.Some? <==> 1 <= DigitsValue(s[5..]) <= 12)
              && (r.Some? ==> r.value == Date(DigitsValue(s[..4]), DigitsValue(s[5..]), 1))
    ensures IsYearShape(s) ==> r == Some(Date(DigitsValue(s), 1, 1))
    ensures !IsIsoShape(s) && !IsYearMonthShape(s) && !IsYearShape(s) ==> r.None?
    ensures r.Some? ==> IsCalendarDate(r.value) && r.value.year < 10000
  {
    if IsIsoShape(s) then
      var d := IsoFields(s);
      if InDateRange(d) then Some(RollOver(d)) else None
    else if IsYearMonthShape(s) then
      var m := DigitsValue(s[5..]);
      if 1 <= m <= 12 then Some(Date(DigitsValue(s[..4]), m, 1)) else None
    else if IsYearShape(s) then Some(Date(DigitsValue(s), 1, 1))
    else None
  }

  /**
   * A parsed `YYYY-MM-DD` date keeps the text's year and its position in the year: an
   * overflowing day lands that many days into the following month.
   */
  lemma ParseIsoDateKeepsDayOfYear(s: string)
    requires ParseIsoDate(s).Some?
    ensures IsIsoShape(s) ==> ParseIsoDate(s).value.year == IsoFields(s).year
    ensures IsIsoShape(s) ==> DayOfYear(ParseIsoDate(s).value) == DayOfYear(IsoFields(s))
  {
    if IsIsoShape(s) {
      RollOverKeepsDayOfYear(IsoFields(s));
    }
  }

  /** Text naming a day that exists parses to exactly that day. */
  lemma ParseIsoDateOfCalendarDate(s: string)
    requires IsIsoShape(s) && IsCalendarDate(IsoFields(s))
    ensures ParseIsoDate(s) == Some(IsoFields(s))
  {
  }

  /** Formatting a valid date and parsing the text back gives the same date. */
  lemma {:induction false} IsoDateRoundTrip(d: Date)
    requires IsCalendarDate(d) && d.year < 10000
    ensures ParseIsoDate(FormatIsoDate(d)) == Some(d)
  {
    var s := FormatIsoDate(d);
    assert s[..4] == Digits(d.year, 4);
    assert s[5..7] == Digits(d.month, 2);
    assert s[8..] == Digits(d.day, 2);
    ValueOfDigits(d.year, 4);
    ValueOfDigits(d.month, 2);
    ValueOfDigits(d.day, 2);
  }

  /**
   * Parsing a date text and formatting the date again gives back the same text
   * exactly when the text is `YYYY-MM-DD` naming a day that exists; a day past the
   * month's end comes back as a date of the next month, and a reduced form comes back
   * with the missing fields written out.
   */
  lemma {:induction false} IsoTextRoundTrip(s: string)
    requires ParseIsoDate(s).Some?
    ensures FormatIsoDate(ParseIsoDate(s).value) == s <==> IsIsoShape(s) && IsCalendarDate(IsoFields(s))
  {
    if !IsIsoShape(s) {
      return;
    }
    var d := IsoFields(s);
    var r := ParseIsoDate(s).value;
    DigitsRoundTrip(s[..4]);
    DigitsRoundTrip(s[5..7]);
    DigitsRoundTrip(s[8..]);
    assert s == s[..4] + "-" + s[5..7] + "-" + s[8..];
    if FormatIsoDate(r) == s {
      var t := FormatIsoDate(r);
      assert t[5..7] == Digits(r.month, 2);
      ValueOfDigits(r.month, 2);
      assert r.month == d.month;
    }
  }
}
