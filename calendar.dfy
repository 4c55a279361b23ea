/**
 * The part of `java.time.LocalDate` the services rely on: proleptic Gregorian
 * dates, day and month arithmetic, `ChronoUnit.MONTHS.between`, and the ISO
 * `yyyy-MM-dd` text form used by `LocalDate.parse` and `LocalDate.toString`.
 */
module Calendar {
  import opened Wrappers
  import opened Strings

  datatype Date = Date(year: int, month: int, day: int)

  predicate IsLeapYear(year: int)
  {
    year % 4 == 0 && (year % 100 != 0 || year % 400 == 0)
  }

  function DaysInMonth(year: int, month: int): (n: int)
    requires 1 <= month <= 12
    ensures 28 <= n <= 31
    ensures n == 29 <==> month == 2 && IsLeapYear(year)
    ensures n == 31 <==> month in {1, 3, 5, 7, 8, 10, 12}
  {
    if month == 2 then (if IsLeapYear(year) then 29 else 28)
    else if month in {4, 6, 9, 11} then 30
    else 31
  }

  predicate ValidDate(d: Date)
  {
    1 <= d.month <= 12 && 1 <= d.day <= DaysInMonth(d.year, d.month)
  }

  /** `LocalDate.isBefore`: lexicographic on (year, month, day). */
  predicate IsBefore(a: Date, b: Date)
  {
    a.year < b.year || (a.year == b.year && (a.month < b.month || (a.month == b.month && a.day < b.day)))
  }

  /** `LocalDate.isAfter`. */
  predicate IsAfter(a: Date, b: Date)
  {
    IsBefore(b, a)
  }

  /** A numbering of dates that grows with time; used as a termination measure. */
  function Ord(d: Date): int
  {
    d.year * 372 + (d.month - 1) * 31 + (d.day - 1)
  }

  lemma OrdOrders(a: Date, b: Date)
    requires ValidDate(a) && ValidDate(b)
    ensures IsBefore(a, b) <==> Ord(a) < Ord(b)
    ensures a == b <==> Ord(a) == Ord(b)
  {
    if a.year < b.year {
      assert (b.year - a.year) * 372 >= 372;
    } else if b.year < a.year {
      assert (a.year - b.year) * 372 >= 372;
    }
  }

  /** Exactly one of before, equal, after holds between two dates. */
  lemma Trichotomy(a: Date, b: Date)
    ensures IsBefore(a, b) || a == b || IsAfter(a, b)
    ensures !(IsBefore(a, b) && IsAfter(a, b))
  {
  }

  /** `plusDays(1)`. */
  function NextDay(d: Date): (r: Date)
    requires ValidDate(d)
    ensures ValidDate(r) && IsBefore(d, r)
    ensures Ord(d) < Ord(r)
  {
    if d.day < DaysInMonth(d.year, d.month) then Date(d.year, d.month, d.day + 1)
    else if d.month < 12 then Date(d.year, d.month + 1, 1)
    else Date(d.year + 1, 1, 1)
  }

  /** No valid date lies strictly between a date and its next day. */
  lemma NextDayIsNext(d: Date, e: Date)
    requires ValidDate(d) && ValidDate(e) && IsBefore(d, e)
    ensures !IsBefore(e, NextDay(d))
  {
  }

  /** `minusDays(1)`: the date whose next day is `d`. */
  function PrevDay(d: Date): (r: Date)
    requires ValidDate(d)
    ensures ValidDate(r) && NextDay(r) == d
    ensures ProlepticMonth(r) == ProlepticMonth(d) - (if d.day == 1 then 1 else 0)
  {
    if d.day > 1 then Date(d.year, d.month, d.day - 1)
    else if d.month > 1 then Date(d.year, d.month - 1, DaysInMonth(d.year, d.month - 1))
    else Date(d.year - 1, 12, 31)
  }

  /** `plusDays(n)` for any sign of `n`. */
  function PlusDays(d: Date, n: int): (r: Date)
    requires ValidDate(d)
    ensures ValidDate(r)
    ensures n > 0 ==> IsBefore(d, r)
    ensures n < 0 ==> IsBefore(r, d)
    ensures n == 0 ==> r == d
    decreases if n < 0 then -n else n
  {
    if n == 0 then d
    else if n > 0 then PlusDays(NextDay(d), n - 1)
    else PlusDays(PrevDay(d), n + 1)
  }

  /** Months since January of year 0 (`getProlepticMonth`). */
  function ProlepticMonth(d: Date): int
  {
    d.year * 12 + d.month - 1
  }

  /** A date in an earlier month is before any date of a later month. */
  lemma EarlierMonthIsBefore(a: Date, b: Date)
    requires ValidDate(a) && ValidDate(b) && ProlepticMonth(a) < ProlepticMonth(b)
    ensures IsBefore(a, b)
  {
  }

  /**
   * `plusMonths(n)`: move `n` months along the month count and clamp the day
   * of month to the length of the month reached.
   */
  function PlusMonths(d: Date, n: int): (r: Date)
    requires ValidDate(d)
    ensures ValidDate(r)
    ensures ProlepticMonth(r) == ProlepticMonth(d) + n
    ensures r.day == if d.day <= DaysInMonth(r.year, r.month) then d.day else DaysInMonth(r.year, r.month)
  {
    var count := ProlepticMonth(d) + n;
    var year := count / 12;
    var month := count % 12 + 1;
    var length := DaysInMonth(year, month);
    Date(year, month, if d.day <= length then d.day else length)
  }

  /** `YearMonth.from(d).atEndOfMonth()`. */
  function AtEndOfMonth(d: Date): (r: Date)
    requires ValidDate(d)
    ensures ValidDate(r) && r.year == d.year && r.month == d.month
    ensures !IsBefore(r, d)
    ensures NextDay(r).day == 1
  {
    Date(d.year, d.month, DaysInMonth(d.year, d.month))
  }

  /** Java's `long` division, which truncates toward zero. */
  function TruncDiv(x: int, y: int): (q: int)
    requires y > 0
    ensures x >= 0 ==> q * y <= x < q * y + y
    ensures x < 0 ==> q * y - y < x <= q * y
  {
    if x >= 0 then x / y else -((-x) / y)
  }

  /**
   * `ChronoUnit.MONTHS.between(a, b)`: the difference of the packed values
   * `prolepticMonth * 32 + dayOfMonth`, divided by 32 with truncation.
   */
  function MonthsBetween(a: Date, b: Date): int
  {
    TruncDiv((ProlepticMonth(b) * 32 + b.day) - (ProlepticMonth(a) * 32 + a.day), 32)
  }

  /**
   * From a date to a later one, `MonthsBetween` counts whole months: the month
   * difference, less one when the day of month has not been reached yet.
   */
  lemma MonthsBetweenCountsWholeMonths(a: Date, b: Date)
    requires ValidDate(a) && ValidDate(b) && !IsAfter(a, b)
    ensures MonthsBetween(a, b) >= 0
    ensures MonthsBetween(a, b)
         == ProlepticMonth(b) - ProlepticMonth(a) - (if b.day < a.day then 1 else 0)
  {
    var md := ProlepticMonth(b) - ProlepticMonth(a);
    var diff := (ProlepticMonth(b) * 32 + b.day) - (ProlepticMonth(a) * 32 + a.day);
    assert diff == md * 32 + (b.day - a.day);
    assert md >= 0;
    assert md == 0 ==> a.day <= b.day;
    var q := if b.day < a.day then md - 1 else md;
    assert q * 32 <= diff < q * 32 + 32;
  }

  // ---- ISO text form ----------------------------------------------------

  /** `LocalDate.toString` for years 0 to 9999. */
  function FormatIsoDate(d: Date): (s: string)
    requires ValidDate(d) && 0 <= d.year <= 9999
    ensures |s| == 10 && s[4] == '-' && s[7] == '-'
  {
    Padded(d.year, 4) + "-" + Padded(d.month, 2) + "-" + Padded(d.day, 2)
  }

  /**
   * `LocalDate.toString`; a date outside the years 0 to 9999 gets a text the
   * parser refuses, so a request carrying it fails like one carrying an out-of-range year.
   */
  function IsoText(d: Date): (s: string)
    requires ValidDate(d)
    ensures 0 <= d.year <= 9999 ==> ParseIsoDate(s) == Some(d)
    ensures !(0 <= d.year <= 9999) ==> ParseIsoDate(s) == None
  {
    if 0 <= d.year <= 9999 then ParseFormat(d); FormatIsoDate(d) else ""
  }

  /**
   * `LocalDate.parse` with the ISO local date format and strict resolution:
   * four-digit year, two-digit month and day, a day that exists in that month.
   */
  function ParseIsoDate(s: string): (r: Option<Date>)
    ensures r.Some? ==> ValidDate(r.value) && 0 <= r.value.year <= 9999
  {
    if |s| == 10 && s[4] == '-' && s[7] == '-'
       && AllDigits(s[..4]) && AllDigits(s[5..7]) && AllDigits(s[8..])
    then
      var d := Date(DigitsValue(s[..4]), DigitsValue(s[5..7]), DigitsValue(s[8..]));
      if ValidDate(d) then Some(d) else None
    else None
  }

  /** Parsing the text of a date gives the date back. */
  lemma ParseFormat(d: Date)
    requires ValidDate(d) && 0 <= d.year <= 9999
    ensures ParseIsoDate(FormatIsoDate(d)) == Some(d)
  {
    var s := FormatIsoDate(d);
    assert s[..4] == Padded(d.year, 4);
    assert s[5..7] == Padded(d.month, 2);
    assert s[8..] == Padded(d.day, 2);
    PaddedValue(d.year, 4);
    PaddedValue(d.month, 2);
    PaddedValue(d.day, 2);
  }

  /** A text the parser accepts is exactly the text of the date it denotes. */
  lemma FormatParse(s: string)
    requires ParseIsoDate(s).Some?
    ensures FormatIsoDate(ParseIsoDate(s).value) == s
  {
    ValuePadded(s[..4]);
    ValuePadded(s[5..7]);
    ValuePadded(s[8..]);
    assert s == s[..4] + "-" + s[5..7] + "-" + s[8..];
  }
}
