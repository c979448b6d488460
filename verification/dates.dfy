/**
 * Calendar dates in the proleptic Gregorian calendar, as the copier uses them
 * through Python's `datetime.date`: years 1..9999, day arithmetic through
 * ordinals (0001-01-01 is day 1), and the `YYYY-MM-DD` text form
 * (the full-date form of section 5.6 of RFC 3339).
 */
module CivilDate {
  import opened Wrappers

  datatype Date = Date(year: int, month: int, day: int)

  const MinYear := 1
  const MaxYear := 9999
  /** The ordinal of 9999-12-31, the last representable date. */
  const MaxOrdinal := 3652059

  // ---------------------------------------------------------------------------
  // The calendar
  // ---------------------------------------------------------------------------

  predicate IsLeapYear(y: int) {
    y % 4 == 0 && (y % 100 != 0 || y % 400 == 0)
  }

  function DaysInYear(y: int): int {
    if IsLeapYear(y) then 366 else 365
  }

  function DaysInMonth(y: int, m: int): (n: int)
    requires 1 <= m <= 12
    ensures 28 <= n <= 31
    ensures n == 29 <==> m == 2 && IsLeapYear(y)
  {
    if m == 2 then (if IsLeapYear(y) then 29 else 28)
    else if m == 4 || m == 6 || m == 9 || m == 11 then 30
    else 31
  }

  /** A date that exists in the calendar and lies in the years 1..9999. */
  predicate Valid(d: Date) {
    MinYear <= d.year <= MaxYear && 1 <= d.month <= 12 && 1 <= d.day <= DaysInMonth(d.year, d.month)
  }

  /** Calendar order: by year, then month, then day. */
  predicate Before(a: Date, b: Date) {
    a.year < b.year
    || (a.year == b.year && a.month < b.month)
    || (a.year == b.year && a.month == b.month && a.day < b.day)
  }

  /** The day after `d`, stated directly from the calendar rules (month end, year end, leap day). */
  function NextDay(d: Date): Date
    requires Valid(d)
  {
    if d.day < DaysInMonth(d.year, d.month) then Date(d.year, d.month, d.day + 1)
    else if d.month < 12 then Date(d.year, d.month + 1, 1)
    else Date(d.year + 1, 1, 1)
  }

  // ---------------------------------------------------------------------------
  // Ordinals
  // ---------------------------------------------------------------------------

  /** Days in the years 1 .. y-1. */
  function DaysBeforeYear(y: int): int
    requires y >= 1
  {
    var k := y - 1;
    365 * k + k / 4 - k / 100 + k / 400
  }

  /** Days in the months 1 .. m-1 of year y. */
  function DaysBeforeMonth(y: int, m: int): int
    requires 1 <= m <= 13
  {
    [0, 31, 59, 90, 120, 151, 181, 212, 243, 273, 304, 334, 365][m - 1]
    + (if m > 2 && IsLeapYear(y) then 1 else 0)
  }

  lemma DaysBeforeNextYear(y: int)
    requires y >= 1
    ensures DaysBeforeYear(y + 1) == DaysBeforeYear(y) + DaysInYear(y)
  {
    Quotient4Step(y);
    Quotient100Step(y);
    Quotient400Step(y);
  }

  /** Going from year y - 1 to y adds one multiple of 4 exactly when 4 divides y; likewise 100 and 400. */
  lemma Quotient4Step(y: int)
    ensures y / 4 == (y - 1) / 4 + (if y % 4 == 0 then 1 else 0)
  {
  }

  lemma Quotient100Step(y: int)
    ensures y / 100 == (y - 1) / 100 + (if y % 100 == 0 then 1 else 0)
  {
  }

  lemma Quotient400Step(y: int)
    ensures y / 400 == (y - 1) / 400 + (if y % 400 == 0 then 1 else 0)
  {
  }

  lemma {:induction false} DaysBeforeYearMonotone(a: int, b: int)
    requires 1 <= a <= b
    ensures DaysBeforeYear(a) + 365 * (b - a) <= DaysBeforeYear(b)
    decreases b - a
  {
    if a < b {
      DaysBeforeYearMonotone(a, b - 1);
      DaysBeforeNextYear(b - 1);
    }
  }

  lemma DaysBeforeNextMonth(y: int, m: int)
    requires 1 <= m <= 12
    ensures DaysBeforeMonth(y, m + 1) == DaysBeforeMonth(y, m) + DaysInMonth(y, m)
  {
  }

  /** The number of the day counted from 0001-01-01, which is day 1. */
  function ToOrdinal(d: Date): (n: int)
    requires Valid(d)
    ensures 1 <= n <= MaxOrdinal
    ensures DaysBeforeYear(d.year) < n <= DaysBeforeYear(d.year) + DaysInYear(d.year)
  {
    DaysBeforeNextMonth(d.year, d.month);
    DaysBeforeYearMonotone(d.year, MaxYear);
    DaysBeforeNextYear(d.year);
    DaysBeforeYear(d.year) + DaysBeforeMonth(d.year, d.month) + d.day
  }

  /** Walks the months of year y from month m on, with n the day within what is left of the year. */
  function LocateMonth(y: int, m: int, n: int): (r: Date)
    requires 1 <= m <= 12 && 1 <= n <= DaysInYear(y) - DaysBeforeMonth(y, m)
    ensures r.year == y && m <= r.month <= 12 && 1 <= r.day <= DaysInMonth(y, r.month)
    ensures DaysBeforeMonth(y, r.month) + r.day == DaysBeforeMonth(y, m) + n
    decreases 12 - m
  {
    if n > DaysInMonth(y, m) then
      DaysBeforeNextMonth(y, m);
      LocateMonth(y, m + 1, n - DaysInMonth(y, m))
    else
      Date(y, m, n)
  }

  /** Walks the years from y on, with n the day counted from the start of year y. */
  function LocateYear(y: int, n: int): (r: Date)
    requires y >= 1 && n >= 1
    ensures r.year >= y && 1 <= r.month <= 12 && 1 <= r.day <= DaysInMonth(r.year, r.month)
    ensures DaysBeforeYear(r.year) + DaysBeforeMonth(r.year, r.month) + r.day == DaysBeforeYear(y) + n
    decreases n
  {
    if n > DaysInYear(y) then
      DaysBeforeNextYear(y);
      LocateYear(y + 1, n - DaysInYear(y))
    else
      LocateMonth(y, 1, n)
  }

  /** The date with ordinal n (Python's `date.fromordinal`). */
  function FromOrdinal(n: int): (d: Date)
    requires 1 <= n <= MaxOrdinal
    ensures Valid(d) && ToOrdinal(d) == n
  {
    var d := LocateYear(1, n);
    if d.year > MaxYear then
      DaysBeforeYearMonotone(MaxYear + 1, d.year);
      assert false;
      d
    else
      d
  }

  // ---------------------------------------------------------------------------
  // Ordinals follow calendar order
  // ---------------------------------------------------------------------------

  lemma OrdinalOrder(a: Date, b: Date)
    requires Valid(a) && Valid(b)
    ensures ToOrdinal(a) < ToOrdinal(b) <==> Before(a, b)
  {
    if a.year < b.year {
      DaysBeforeNextYear(a.year);
      DaysBeforeYearMonotone(a.year + 1, b.year);
    } else if b.year < a.year {
      DaysBeforeNextYear(b.year);
      DaysBeforeYearMonotone(b.year + 1, a.year);
    } else if a.month != b.month {
      var lo, hi := if a.month < b.month then a else b, if a.month < b.month then b else a;
      DaysBeforeMonthMonotone(lo.year, lo.month + 1, hi.month);
      DaysBeforeNextMonth(lo.year, lo.month);
    }
  }

  lemma {:induction false} DaysBeforeMonthMonotone(y: int, m1: int, m2: int)
    requires 1 <= m1 <= m2 <= 13
    ensures DaysBeforeMonth(y, m1) <= DaysBeforeMonth(y, m2)
    decreases m2 - m1
  {
    if m1 < m2 {
      DaysBeforeMonthMonotone(y, m1, m2 - 1);
      DaysBeforeNextMonth(y, m2 - 1);
    }
  }

  /** Two valid dates with the same ordinal are the same date. */
  lemma OrdinalInjective(a: Date, b: Date)
    requires Valid(a) && Valid(b) && ToOrdinal(a) == ToOrdinal(b)
    ensures a == b
  {
    OrdinalOrder(a, b);
    OrdinalOrder(b, a);
  }

  lemma FromToOrdinal(d: Date)
    requires Valid(d)
    ensures FromOrdinal(ToOrdinal(d)) == d
  {
    OrdinalInjective(FromOrdinal(ToOrdinal(d)), d);
  }

  // ---------------------------------------------------------------------------
  // Day arithmetic (`date + timedelta(days=k)` and `date - date`)
  // ---------------------------------------------------------------------------

  /** Moving d by k days stays within the years 1..9999 (otherwise Python raises OverflowError). */
  predicate InRange(d: Date, k: int)
    requires Valid(d)
  {
    1 <= ToOrdinal(d) + k <= MaxOrdinal
  }

  function AddDays(d: Date, k: int): (r: Date)
    requires Valid(d) && InRange(d, k)
    ensures Valid(r) && ToOrdinal(r) == ToOrdinal(d) + k
  {
    FromOrdinal(ToOrdinal(d) + k)
  }

  /** The signed number of days from `a` to `b`. */
  function DaysBetween(a: Date, b: Date): (k: int)
    requires Valid(a) && Valid(b)
    ensures InRange(a, k)
  {
    ToOrdinal(b) - ToOrdinal(a)
  }

  lemma AddDaysBetween(a: Date, b: Date)
    requires Valid(a) && Valid(b)
    ensures AddDays(a, DaysBetween(a, b)) == b
  {
    OrdinalInjective(AddDays(a, DaysBetween(a, b)), b);
  }

  lemma AddDaysZero(d: Date)
    requires Valid(d)
    ensures InRange(d, 0) && AddDays(d, 0) == d
  {
    OrdinalInjective(AddDays(d, 0), d);
  }

  lemma AddDaysCompose(d: Date, j: int, k: int)
    requires Valid(d) && InRange(d, j) && InRange(AddDays(d, j), k)
    ensures InRange(d, j + k) && AddDays(AddDays(d, j), k) == AddDays(d, j + k)
  {
    OrdinalInjective(AddDays(AddDays(d, j), k), AddDays(d, j + k));
  }

  /** Adding one day agrees with the calendar's own successor rule. */
  lemma AddOneDay(d: Date)
    requires Valid(d) && d != Date(MaxYear, 12, 31)
    ensures Valid(NextDay(d)) && InRange(d, 1) && AddDays(d, 1) == NextDay(d)
  {
    var n := NextDay(d);
    DaysBeforeNextMonth(d.year, d.month);
    if d.day == DaysInMonth(d.year, d.month) && d.month == 12 {
      DaysBeforeNextYear(d.year);
    }
    assert Valid(n) && ToOrdinal(n) == ToOrdinal(d) + 1;
    OrdinalInjective(AddDays(d, 1), n);
  }

  /** `AddDays` moves forward exactly when k is positive. */
  lemma AddDaysOrder(d: Date, k: int)
    requires Valid(d) && InRange(d, k)
    ensures Before(d, AddDays(d, k)) <==> k > 0
    ensures Before(AddDays(d, k), d) <==> k < 0
  {
    OrdinalOrder(d, AddDays(d, k));
    OrdinalOrder(AddDays(d, k), d);
  }

  /** A date k days after d, recognised by its ordinal. */
  lemma AddDaysByOrdinal(d: Date, k: int, e: Date)
    requires Valid(d) && Valid(e) && ToOrdinal(e) == ToOrdinal(d) + k
    ensures InRange(d, k) && AddDays(d, k) == e
  {
    OrdinalInjective(AddDays(d, k), e);
  }

  /** Month ends, year ends and leap days, on concrete dates. */
  lemma MonthEndExample()
    ensures AddDays(Date(2024, 1, 30), 3) == Date(2024, 2, 2)
  {
    AddDaysByOrdinal(Date(2024, 1, 30), 3, Date(2024, 2, 2));
  }

  lemma LeapDayExamples()
    ensures AddDays(Date(2024, 2, 28), 1) == Date(2024, 2, 29)
    ensures AddDays(Date(2024, 3, 1), -1) == Date(2024, 2, 29)
  {
    AddDaysByOrdinal(Date(2024, 2, 28), 1, Date(2024, 2, 29));
    AddDaysByOrdinal(Date(2024, 3, 1), -1, Date(2024, 2, 29));
  }

  lemma CenturyExamples()
    ensures AddDays(Date(1900, 2, 28), 1) == Date(1900, 3, 1)
    ensures AddDays(Date(2000, 2, 28), 1) == Date(2000, 2, 29)
  {
    AddDaysByOrdinal(Date(1900, 2, 28), 1, Date(1900, 3, 1));
    AddDaysByOrdinal(Date(2000, 2, 28), 1, Date(2000, 2, 29));
  }

  lemma YearEndExample()
    ensures AddDays(Date(2023, 12, 31), 1) == Date(2024, 1, 1)
  {
    AddDaysByOrdinal(Date(2023, 12, 31), 1, Date(2024, 1, 1));
  }

  // ---------------------------------------------------------------------------
  // The YYYY-MM-DD text form
  // ---------------------------------------------------------------------------

  predicate IsDigit(c: char) {
    '0' <= c <= '9'
  }

  predicate AllDigits(s: string) {
    forall i :: 0 <= i < |s| ==> IsDigit(s[i])
  }

  function DigitChar(k: int): (c: char)
    requires 0 <= k <= 9
    ensures IsDigit(c) && c as int - '0' as int == k
  {
    (48 + k) as char
  }

  function Pow10(w: nat): (p: nat)
    ensures p >= 1
  {
    if w == 0 then 1 else 10 * Pow10(w - 1)
  }

  /** The value of a string of decimal digits. */
  function DigitsValue(s: string): (v: nat)
    requires AllDigits(s)
    ensures v < Pow10(|s|)
  {
    if s == [] then 0
    else DigitsValue(s[..|s| - 1]) * 10 + (s[|s| - 1] as int - '0' as int)
  }

  /** n written with exactly w decimal digits, padded with leading zeros. */
  function Padded(n: nat, w: nat): (s: string)
    ensures |s| == w && AllDigits(s)
  {
    if w == 0 then "" else Padded(n / 10, w - 1) + [DigitChar(n % 10)]
  }

  lemma {:induction false} PaddedValue(n: nat, w: nat)
    requires n < Pow10(w)
    ensures DigitsValue(Padded(n, w)) == n
  {
    if w > 0 {
      var s := Padded(n, w);
      assert s[..w - 1] == Padded(n / 10, w - 1);
      PaddedValue(n / 10, w - 1);
    }
  }

  lemma {:induction false} ValuePadded(s: string)
    requires AllDigits(s)
    ensures Padded(DigitsValue(s), |s|) == s
  {
    if s != [] {
      var p := s[..|s| - 1];
      var c := s[|s| - 1] as int - '0' as int;
      var v := DigitsValue(p) * 10 + c;
      assert v / 10 == DigitsValue(p) && v % 10 == c;
      ValuePadded(p);
      assert s == p + [s[|s| - 1]];
    }
  }

  /** The zero-padded `YYYY-MM-DD` form (`strftime("%Y-%m-%d")`, `str(date)`). */
  function Format(d: Date): (s: string)
    requires Valid(d)
    ensures |s| == 10 && s[4] == '-' && s[7] == '-'
  {
    Padded(d.year, 4) + "-" + Padded(d.month, 2) + "-" + Padded(d.day, 2)
  }

  /** Reads a zero-padded `YYYY-MM-DD` string; None unless it names a valid date. */
  function Parse(s: string): (r: Option<Date>)
    ensures r.Some? ==> Valid(r.value)
  {
    if |s| == 10 && s[4] == '-' && s[7] == '-'
       && AllDigits(s[0..4]) && AllDigits(s[5..7]) && AllDigits(s[8..10])
    then
      var d := Date(DigitsValue(s[0..4]), DigitsValue(s[5..7]), DigitsValue(s[8..10]));
      if Valid(d) then Some(d) else None
    else None
  }

  lemma ParseFormat(d: Date)
    requires Valid(d)
    ensures Parse(Format(d)) == Some(d)
  {
    var s := Format(d);
    assert s[0..4] == Padded(d.year, 4);
    assert s[5..7] == Padded(d.month, 2);
    assert s[8..10] == Padded(d.day, 2);
    PaddedValue(d.year, 4);
    PaddedValue(d.month, 2);
    PaddedValue(d.day, 2);
  }

  /** A ten-character string with dashes at 4 and 7 is its three fields joined by dashes. */
  lemma DashedFields(s: string)
    requires |s| == 10 && s[4] == '-' && s[7] == '-'
    ensures s == s[0..4] + "-" + s[5..7] + "-" + s[8..10]
  {
    assert s == s[0..4] + [s[4]] + s[5..7] + [s[7]] + s[8..10];
  }

  /** Every string Parse accepts is already in canonical form. */
  lemma FormatParse(s: string)
    requires Parse(s).Some?
    ensures Format(Parse(s).value) == s
  {
    var y, m, dd := s[0..4], s[5..7], s[8..10];
    assert Parse(s).value == Date(DigitsValue(y), DigitsValue(m), DigitsValue(dd));
    ValuePadded(y);
    ValuePadded(m);
    ValuePadded(dd);
    DashedFields(s);
  }
}
