/** Civil (proleptic Gregorian) dates as day numbers, the way .NET's DateTime
    counts them: day 0 is 0001-01-01, a Monday, and the last representable day
    is 9999-12-31. Only what the fiscal calendar needs is here: the length of
    years and months, the day number of a civil date, the civil year of a day
    number, and the day of the week. */
module Civil {

  /** Day number of 9999-12-31, the last day a DateTime can hold. */
  const MaxDay := 3652058

  /** DayOfWeek values, Sunday = 0 ... Saturday = 6. */
  const Sunday := 0
  const Thursday := 4

  /** A day a DateTime can represent. */
  predicate InRange(n: int) {
    0 <= n <= MaxDay
  }

  predicate IsLeapYear(y: int) {
    y % 4 == 0 && (y % 100 != 0 || y % 400 == 0)
  }

  function DaysInYear(y: int): int {
    if IsLeapYear(y) then 366 else 365
  }

  /** Number of days from 0001-01-01 to January 1 of year y. */
  function DaysBeforeYear(y: int): int
    requires y >= 1
  {
    var p := y - 1;
    365 * p + p / 4 - p / 100 + p / 400
  }

  /** Each year starts where the previous one ends. */
  lemma DaysBeforeNextYear(y: int)
    requires y >= 1
    ensures DaysBeforeYear(y + 1) == DaysBeforeYear(y) + DaysInYear(y)
  {
    assert y / 4 - (y - 1) / 4 == if y % 4 == 0 then 1 else 0;
    assert y / 100 - (y - 1) / 100 == if y % 100 == 0 then 1 else 0;
    assert y / 400 - (y - 1) / 400 == if y % 400 == 0 then 1 else 0;
  }

  /** Later years start at least 365 days per year later. */
  lemma {:induction false} DaysBeforeYearMonotone(a: int, b: int)
    requires 1 <= a <= b
    ensures DaysBeforeYear(b) - DaysBeforeYear(a) >= 365 * (b - a)
    decreases b - a
  {
    if a < b {
      DaysBeforeNextYear(a);
      DaysBeforeYearMonotone(a + 1, b);
    }
  }

  function DaysInMonth(y: int, m: int): int
    requires 1 <= m <= 12
  {
    if m == 2 then (if IsLeapYear(y) then 29 else 28)
    else if m == 4 || m == 6 || m == 9 || m == 11 then 30
    else 31
  }

  /** Number of days of year y before the first of month m. */
  function DaysBeforeMonth(y: int, m: int): int
    requires 1 <= m <= 12
  {
    var leap := if IsLeapYear(y) && m > 2 then 1 else 0;
    leap +
    (if m == 1 then 0 else if m == 2 then 31 else if m == 3 then 59
     else if m == 4 then 90 else if m == 5 then 120 else if m == 6 then 151
     else if m == 7 then 181 else if m == 8 then 212 else if m == 9 then 243
     else if m == 10 then 273 else if m == 11 then 304 else 334)
  }

  /** Each month starts where the previous one ends, and the last one ends
      where the year does. */
  lemma DaysBeforeNextMonth(y: int, m: int)
    requires 1 <= m <= 12
    ensures m < 12 ==> DaysBeforeMonth(y, m + 1) == DaysBeforeMonth(y, m) + DaysInMonth(y, m)
    ensures m == 12 ==> DaysBeforeMonth(y, m) + DaysInMonth(y, m) == DaysInYear(y)
  {
  }

  predicate ValidCivil(y: int, m: int, d: int) {
    1 <= y && 1 <= m <= 12 && 1 <= d <= DaysInMonth(y, m)
  }

  /** The day number of the civil date y-m-d (what `new DateTime(y, m, d)` holds). */
  function DaysFromCivil(y: int, m: int, d: int): int
    requires ValidCivil(y, m, d)
  {
    DaysBeforeYear(y) + DaysBeforeMonth(y, m) + d - 1
  }

  /** Day n falls in civil year y. */
  predicate InCivilYear(n: int, y: int) {
    y >= 1 && DaysBeforeYear(y) <= n < DaysBeforeYear(y + 1)
  }

  /** The civil year that contains day n, searched upward from year y. */
  function YearFrom(y: int, n: int): (r: int)
    requires y >= 1 && DaysBeforeYear(y) <= n
    ensures r >= y && InCivilYear(n, r)
    decreases n - DaysBeforeYear(y)
  {
    DaysBeforeNextYear(y);
    if n < DaysBeforeYear(y + 1) then y else YearFrom(y + 1, n)
  }

  /** `DateTime.Year` of day n. */
  function YearOf(n: int): (y: int)
    requires n >= 0
    ensures InCivilYear(n, y)
  {
    YearFrom(1, n)
  }

  /** Exactly one year contains each day: the year of day n is the y whose
      span holds n. */
  lemma YearOfUnique(n: int, y: int)
    requires InCivilYear(n, y)
    ensures YearOf(n) == y
  {
    var x := YearOf(n);
    if x < y {
      DaysBeforeYearMonotone(x + 1, y);
    } else if x > y {
      DaysBeforeYearMonotone(y + 1, x);
    }
  }

  /** Every representable day lies in years 1..9999. */
  lemma YearOfInRange(n: int)
    requires InRange(n)
    ensures 1 <= YearOf(n) <= 9999
  {
    var x := YearOf(n);
    if x > 9999 {
      DaysBeforeYearMonotone(10000, x);
    }
  }

  /** Converting a civil date to a day number and back gives its year again. */
  lemma YearOfDaysFromCivil(y: int, m: int, d: int)
    requires ValidCivil(y, m, d)
    ensures YearOf(DaysFromCivil(y, m, d)) == y
  {
    DaysBeforeNextYear(y);
    DaysBeforeNextMonth(y, 12);
    YearOfUnique(DaysFromCivil(y, m, d), y);
  }

  /** `DateTime.DayOfWeek` of day n, Sunday = 0; day 0 is a Monday. */
  function DayOfWeek(n: int): int
  {
    (n + 1) % 7
  }

  /** Weekdays lie in 0..6, day 0 is a Monday, and each day is the weekday
      after the one before it, so the week repeats every seven days. */
  lemma DayOfWeekCycle(n: int)
    ensures 0 <= DayOfWeek(n) < 7
    ensures DayOfWeek(0) == 1
    ensures DayOfWeek(n + 1) == (DayOfWeek(n) + 1) % 7
    ensures DayOfWeek(n + 7) == DayOfWeek(n)
  {
  }
}
