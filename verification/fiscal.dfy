/** The retail fiscal calendar of FiscalDateExtensions: a fiscal year starts on
    the Sunday nearest February 1, is 52 or 53 weeks long, and its quarters are
    13 weeks split into months of 4, 5 and 4 weeks; a 53rd week belongs to
    quarter 4 and month 12. Dates are day numbers (see module Civil); the time
    of day plays no part. */
module Fiscal {
  import opened Civil

  const QuarterDays := 91
  const MonthsInQuarter := 3
  const DaysInFirstMonth := 28
  const DaysInSecondMonth := 63
  const LastQuarter := 4
  const WeeksInYear := 52
  /** Named `WeeksInMonth` in the source; it is the month number forced on week 53. */
  const LastMonth := 12

  /** The four derived fields, FiscalDateMedaData in the source. */
  datatype FiscalDateMetaData = FiscalDateMetaData(year: int, quarter: int, month: int, week: int)

  /** The Sunday nearest to `date`: Sunday to Wednesday go back to the Sunday
      that starts their week, Thursday to Saturday forward to the next one. */
  function GetFirstDayOfFiscalYear(date: int): (r: int)
    ensures DayOfWeek(r) == Sunday
    ensures DayOfWeek(date) < Thursday ==> date - 3 <= r <= date
    ensures DayOfWeek(date) >= Thursday ==> date < r <= date + 3
  {
    if DayOfWeek(date) < Thursday then date - (DayOfWeek(date) - Sunday)
    else date + (7 - DayOfWeek(date))
  }

  /** A Sunday within three days of a date is its nearest Sunday, so the shift
      leaves a Sunday where it is and picks the same Sunday for all of its
      neighbours from Thursday before to Wednesday after. */
  lemma NearestSunday(date: int, s: int)
    requires DayOfWeek(s) == Sunday && date - 3 <= s <= date + 3
    ensures GetFirstDayOfFiscalYear(date) == s
  {
  }

  /** The start of the fiscal year anchored on February 1 of civil year y,
      which is day 31 of that year (see FebruaryFirst). */
  function FiscalYearStart(y: int): (r: int)
    requires y >= 1
    ensures DayOfWeek(r) == Sunday
    ensures DaysBeforeYear(y) + 28 <= r <= DaysBeforeYear(y) + 34
  {
    GetFirstDayOfFiscalYear(DaysBeforeYear(y) + 31)
  }

  /** February 1 comes 31 days after January 1 in every year. */
  lemma FebruaryFirst(y: int)
    requires y >= 1
    ensures DaysFromCivil(y, 2, 1) == DaysBeforeYear(y) + 31
    ensures FiscalYearStart(y) == GetFirstDayOfFiscalYear(DaysFromCivil(y, 2, 1))
  {
  }

  /** Day number of 0001-02-04, the Sunday on which fiscal year 1 starts: the
      first day that has a fiscal year. */
  const FirstFiscalDay := 34

  lemma FirstFiscalDayIsStartOfYearOne()
    ensures FiscalYearStart(1) == FirstFiscalDay
  {
  }

  /** A fiscal year starts in the civil year it is named after. */
  lemma YearOfFiscalYearStart(y: int)
    requires y >= 1
    ensures YearOf(FiscalYearStart(y)) == y
  {
    DaysBeforeNextYear(y);
    YearOfUnique(FiscalYearStart(y), y);
  }

  /** Date `date` falls in fiscal year y: on or after its start and before
      the next year's. */
  predicate InFiscalYear(date: int, y: int) {
    y >= 1 && FiscalYearStart(y) <= date < FiscalYearStart(y + 1)
  }

  /** Number of days in fiscal year y. */
  function FiscalYearDays(y: int): int
    requires y >= 1
  {
    FiscalYearStart(y + 1) - FiscalYearStart(y)
  }

  /** Consecutive fiscal years start 52 or 53 weeks apart. */
  lemma FiscalYearLength(y: int)
    requires y >= 1
    ensures FiscalYearDays(y) == 364 || FiscalYearDays(y) == 371
  {
    DaysBeforeNextYear(y);
    SundaysApart(FiscalYearStart(y), FiscalYearStart(y + 1), DaysBeforeYear(y), DaysInYear(y));
  }

  /** Two Sundays near the same date of consecutive years are 52 or 53 weeks apart. */
  lemma SundaysApart(a: int, b: int, base: int, len: int)
    requires (a + 1) % 7 == 0 && (b + 1) % 7 == 0
    requires len == 365 || len == 366
    requires base + 28 <= a <= base + 34 && base + len + 28 <= b <= base + len + 34
    ensures b - a == 364 || b - a == 371
  {
    var i, j := (a + 1) / 7, (b + 1) / 7;
    assert 359 <= 7 * (j - i) <= 372;
  }

  /** Fiscal-year starts increase with the year. */
  lemma {:induction false} FiscalYearStartMonotone(a: int, b: int)
    requires 1 <= a <= b
    ensures FiscalYearStart(a) + 364 * (b - a) <= FiscalYearStart(b)
    decreases b - a
  {
    if a < b {
      FiscalYearLength(a);
      FiscalYearStartMonotone(a + 1, b);
    }
  }

  /** Public `GetYear`: the civil year of `date`, less one when the nearest
      Sunday to `date` lies after it. The shift must stay within the days a
      DateTime can hold, or `AddDays` throws. */
  function GetYear(date: int): (r: int)
    requires InRange(date) && InRange(GetFirstDayOfFiscalYear(date))
    ensures r == YearOf(date) || r == YearOf(date) - 1
    ensures r == YearOf(date) - 1 <==> DayOfWeek(date) >= Thursday
  {
    var firstDateOfFiscalYear := GetFirstDayOfFiscalYear(date);
    if date < firstDateOfFiscalYear then YearOf(date) - 1 else YearOf(date)
  }

  /** 1-based week of a day count: day `days` falls in the seven days of week r. */
  function GetWeek(days: int): (r: int)
    requires days >= 0
    ensures r >= 1 && 7 * (r - 1) <= days < 7 * r
  {
    days / 7 + 1
  }

  /** Quarter of a week of a 52-week fiscal year: 13 weeks each. */
  function QuarterOfWeek(week: int): int
    requires 1 <= week <= WeeksInYear
  {
    (week - 1) / 13 + 1
  }

  /** Month of a week of a 52-week fiscal year, by the 4-5-4 week pattern:
      weeks 1-4 of a quarter form its first month, 5-9 its second, 10-13 its third. */
  function MonthOfWeek(week: int): int
    requires 1 <= week <= WeeksInYear
  {
    var inQuarter := (week - 1) % 13;
    3 * ((week - 1) / 13) + (if inQuarter < 4 then 1 else if inQuarter < 9 then 2 else 3)
  }

  /** 1-based quarter of a day count: 91-day quarters, and 4 in a 53rd week. */
  function GetQuarter(week: int, days: int): (r: int)
    requires 0 <= days && week == GetWeek(days)
    ensures 1 <= r <= LastQuarter
  {
    if week > WeeksInYear then LastQuarter
    else days / QuarterDays + 1
  }

  /** A 53rd week is in quarter 4; up to week 52 the quarter is the 91-day
      block holding the day, which is the week's 13-week block. */
  lemma QuarterOfDays(week: int, days: int)
    requires 0 <= days && week == GetWeek(days)
    ensures week > WeeksInYear ==> GetQuarter(week, days) == LastQuarter
    ensures week <= WeeksInYear ==>
      var q := GetQuarter(week, days);
      91 * (q - 1) <= days < 91 * q && q == QuarterOfWeek(week)
  {
  }

  /** 1-based month of a day count: the first, second or third month of the
      quarter for days 0-27, 28-62 and 63-90 of it, and 12 in a 53rd week. */
  function GetMonth(quarter: int, week: int, days: int): (r: int)
    requires 0 <= days && week == GetWeek(days) && quarter == GetQuarter(week, days)
    ensures 1 <= r <= LastMonth
  {
    if week > WeeksInYear then LastMonth
    else
      var baseMonth := (quarter - 1) * MonthsInQuarter + 1;
      var daysInQuarter := days % QuarterDays;
      if daysInQuarter < DaysInFirstMonth then baseMonth
      else if daysInQuarter < DaysInSecondMonth then baseMonth + 1
      else baseMonth + 2
  }

  /** The month belongs to the given quarter; a 53rd week is month 12; up to
      week 52 the month is chosen by the 28/63-day split of the quarter, which
      is the 4-5-4 week pattern. */
  lemma MonthOfDays(quarter: int, week: int, days: int)
    requires 0 <= days && week == GetWeek(days) && quarter == GetQuarter(week, days)
    ensures quarter == (GetMonth(quarter, week, days) - 1) / 3 + 1
    ensures week > WeeksInYear ==> GetMonth(quarter, week, days) == LastMonth
    ensures week <= WeeksInYear ==>
      var inQuarter := days - 91 * (quarter - 1);
      (GetMonth(quarter, week, days) - 1) % 3 ==
        if inQuarter < DaysInFirstMonth then 0 else if inQuarter < DaysInSecondMonth then 1 else 2
    ensures week <= WeeksInYear ==> GetMonth(quarter, week, days) == MonthOfWeek(week)
  {
    QuarterOfDays(week, days);
    if week <= WeeksInYear {
      assert (days % 91 < 28) == ((week - 1) % 13 < 4);
      assert (days % 91 < 63) == ((week - 1) % 13 < 9);
    }
  }

  /** In a 52-week fiscal year a later week never has an earlier quarter or month. */
  lemma WeekPeriodsMonotone(w1: int, w2: int)
    requires 1 <= w1 <= w2 <= WeeksInYear
    ensures QuarterOfWeek(w1) <= QuarterOfWeek(w2) && MonthOfWeek(w1) <= MonthOfWeek(w2)
  {
  }

  /** The first day of the fiscal year that contains `date`: this year's
      start, or last year's when this year's is still ahead. It is a
      representable Sunday on or before `date`. */
  function FirstDayOfFiscalYearOf(date: int): (s: int)
    requires FirstFiscalDay <= date <= MaxDay
    ensures InRange(s) && DayOfWeek(s) == Sunday && s <= date
  {
    var y := YearOf(date);
    if FiscalYearStart(y) > date then
      PriorFiscalYear(date, y);
      FiscalYearStart(y - 1)
    else
      CurrentFiscalYear(date, y);
      FiscalYearStart(y)
  }

  /** A date on or after the start of its civil year's fiscal year belongs to it. */
  lemma CurrentFiscalYear(date: int, y: int)
    requires 0 <= date && y == YearOf(date) && FiscalYearStart(y) <= date
    ensures YearOf(FiscalYearStart(y)) == y
    ensures 0 <= FiscalYearStart(y) && InFiscalYear(date, y)
  {
    DaysBeforeYearMonotone(1, y);
    YearOfFiscalYearStart(y);
  }

  /** A date before the start of its civil year's fiscal year belongs to the
      previous one, which exists from 0001-02-04 on. */
  lemma PriorFiscalYear(date: int, y: int)
    requires FirstFiscalDay <= date && y == YearOf(date) && FiscalYearStart(y) > date
    ensures y >= 2 && YearOf(FiscalYearStart(y - 1)) == y - 1
    ensures 0 <= FiscalYearStart(y - 1) && InFiscalYear(date, y - 1)
  {
    FirstFiscalDayIsStartOfYearOne();
    DaysBeforeNextYear(y - 1);
    DaysBeforeYearMonotone(1, y - 1);
    YearOfFiscalYearStart(y - 1);
  }

  /** The first day found is the start of the fiscal year named after its own
      civil year, that year is the civil year of `date` or the one before, and
      `date` falls before the next fiscal year starts. */
  lemma FirstDayOfFiscalYearOfDate(date: int)
    requires FirstFiscalDay <= date <= MaxDay
    ensures var s := FirstDayOfFiscalYearOf(date);
      YearOf(s) >= 1 && s == FiscalYearStart(YearOf(s)) && InFiscalYear(date, YearOf(s))
    ensures var s := FirstDayOfFiscalYearOf(date);
      YearOf(s) == YearOf(date) || YearOf(s) == YearOf(date) - 1
  {
    var y := YearOf(date);
    if FiscalYearStart(y) > date {
      PriorFiscalYear(date, y);
      var prior := y - 1;
      assert FirstDayOfFiscalYearOf(date) == FiscalYearStart(prior);
      assert YearOf(FiscalYearStart(prior)) == prior && InFiscalYear(date, prior);
    } else {
      CurrentFiscalYear(date, y);
    }
  }

  /** FiscalDateExtensions.cs:21-27: the metadata of `date` counted from
      `first`, a Sunday on or before it. The year is the civil year of that
      Sunday. */
  function MetaDataFrom(first: int, date: int): (r: FiscalDateMetaData)
    requires InRange(first) && DayOfWeek(first) == Sunday && first <= date
    ensures r.year == YearOf(first)
  {
    NearestSunday(first, first);
    var year := GetYear(first);
    var days := date - first;
    var week := GetWeek(days);
    var quarter := GetQuarter(week, days);
    var month := GetMonth(quarter, week, days);
    FiscalDateMetaData(year, quarter, month, week)
  }

  /** Counted from the start of the fiscal year that holds `date`, the week
      is the 1-based count of 7-day blocks and at most 53, quarter and month
      agree with each other, week 53 is quarter 4 and month 12, and earlier
      weeks fall into 13-week quarters split 4-5-4 into months. */
  lemma MetaDataFromFiscalYear(first: int, date: int)
    requires InRange(first) && YearOf(first) >= 1 && first == FiscalYearStart(YearOf(first))
    requires InFiscalYear(date, YearOf(first))
    ensures var r := MetaDataFrom(first, date);
      7 * (r.week - 1) <= date - first < 7 * r.week
    ensures var r := MetaDataFrom(first, date);
      1 <= r.week <= 53 && 1 <= r.quarter <= 4 && 1 <= r.month <= 12
    ensures var r := MetaDataFrom(first, date);
      r.quarter == (r.month - 1) / 3 + 1
    ensures var r := MetaDataFrom(first, date);
      r.week == 53 ==> r.quarter == 4 && r.month == 12
    ensures var r := MetaDataFrom(first, date);
      r.week <= 52 ==> r.quarter == QuarterOfWeek(r.week) && r.month == MonthOfWeek(r.week)
  {
    FiscalYearLength(YearOf(first));
    var days := date - first;
    var week := GetWeek(days);
    QuarterOfDays(week, days);
    MonthOfDays(GetQuarter(week, days), week, days);
  }

  /** Fiscal year, quarter, month and week of `date`. The year is the one
      whose fiscal start is on or before `date` and whose successor's start is
      after it, and the fields lie in their ranges. Dates before the first
      fiscal year starts (0001-01-01 to 0001-02-03) are excluded: for them the
      fallback would construct February 1 of year 0, which DateTime rejects. */
  function GetFiscalMetaData(date: int): (r: FiscalDateMetaData)
    requires FirstFiscalDay <= date <= MaxDay
    ensures InFiscalYear(date, r.year)
    ensures 1 <= r.week <= 53 && 1 <= r.quarter <= 4 && 1 <= r.month <= 12
  {
    var firstDateOfFiscalYear := FirstDayOfFiscalYearOf(date);
    FirstDayOfFiscalYearOfDate(date);
    MetaDataFromFiscalYear(firstDateOfFiscalYear, date);
    MetaDataFrom(firstDateOfFiscalYear, date)
  }

  /** The fiscal year of a date is its civil year, or the one before exactly
      when the date comes before its civil year's fiscal start. */
  lemma FiscalYearOfDate(date: int)
    requires FirstFiscalDay <= date <= MaxDay
    ensures var y := GetFiscalMetaData(date).year;
      y == YearOf(date) || y == YearOf(date) - 1
    ensures GetFiscalMetaData(date).year == YearOf(date) - 1 <==> date < FiscalYearStart(YearOf(date))
  {
    FirstDayOfFiscalYearOfDate(date);
  }

  /** The week is the 1-based count of whole weeks from the start of the
      fiscal year to `date`. */
  lemma FiscalWeekOfDate(date: int)
    requires FirstFiscalDay <= date <= MaxDay
    ensures var r := GetFiscalMetaData(date);
      7 * (r.week - 1) <= date - FiscalYearStart(r.year) < 7 * r.week
  {
    FirstDayOfFiscalYearOfDate(date);
    MetaDataFromFiscalYear(FirstDayOfFiscalYearOf(date), date);
  }

  /** Quarter and month agree, week 53 is quarter 4 and month 12, and weeks
      up to 52 fall into 13-week quarters split 4-5-4 into months. */
  lemma FiscalPeriodsOfDate(date: int)
    requires FirstFiscalDay <= date <= MaxDay
    ensures var r := GetFiscalMetaData(date);
      r.quarter == (r.month - 1) / 3 + 1
    ensures var r := GetFiscalMetaData(date);
      r.week == 53 ==> r.quarter == 4 && r.month == 12
    ensures var r := GetFiscalMetaData(date);
      r.week <= 52 ==> r.quarter == QuarterOfWeek(r.week) && r.month == MonthOfWeek(r.week)
  {
    FirstDayOfFiscalYearOfDate(date);
    MetaDataFromFiscalYear(FirstDayOfFiscalYearOf(date), date);
  }
}

/** Properties of the fiscal calendar that relate several dates or years. */
module FiscalProperties {
  import opened Civil
  import opened Fiscal

  /** Only a 53-week fiscal year has a week 53. */
  lemma LeapWeekInLongYear(date: int)
    requires FirstFiscalDay <= date <= MaxDay
    ensures var r := GetFiscalMetaData(date);
      r.week == 53 ==> FiscalYearDays(r.year) == 371
  {
    var r := GetFiscalMetaData(date);
    FiscalWeekOfDate(date);
    assert InFiscalYear(date, r.year);
    assert FiscalYearStart(r.year) + 7 * (r.week - 1) <= date;
    FiscalYearLength(r.year);
  }

  /** The fiscal year of a date is the unique y whose start is on or before
      it and whose successor's start is after it. */
  lemma FiscalYearUnique(date: int, y: int)
    requires FirstFiscalDay <= date <= MaxDay && InFiscalYear(date, y)
    ensures GetFiscalMetaData(date).year == y
  {
    var x := GetFiscalMetaData(date).year;
    assert InFiscalYear(date, x);
    assert x <= y by {
      FiscalYearsOrdered(x, y, date, date);
    }
    assert y <= x by {
      FiscalYearsOrdered(y, x, date, date);
    }
  }

  /** A later date never falls in an earlier fiscal year. */
  lemma FiscalYearMonotone(d1: int, d2: int)
    requires FirstFiscalDay <= d1 <= d2 <= MaxDay
    ensures GetFiscalMetaData(d1).year <= GetFiscalMetaData(d2).year
  {
    var a, b := GetFiscalMetaData(d1).year, GetFiscalMetaData(d2).year;
    assert InFiscalYear(d1, a) && InFiscalYear(d2, b);
    assert a <= b by {
      FiscalYearsOrdered(a, b, d1, d2);
    }
  }

  /** A fiscal year holding one date and a fiscal year holding a later date
      come in that order. */
  lemma FiscalYearsOrdered(a: int, b: int, d1: int, d2: int)
    requires d1 <= d2 && InFiscalYear(d1, a) && InFiscalYear(d2, b)
    ensures a <= b
  {
    if a > b {
      FiscalYearStartMonotone(b + 1, a);
    }
  }

  /** Within one fiscal year a later date never gets an earlier week, quarter
      or month. */
  lemma FiscalPeriodsMonotone(d1: int, d2: int)
    requires FirstFiscalDay <= d1 <= d2 <= MaxDay
    requires GetFiscalMetaData(d1).year == GetFiscalMetaData(d2).year
    ensures var a, b := GetFiscalMetaData(d1), GetFiscalMetaData(d2);
      a.week <= b.week && a.quarter <= b.quarter && a.month <= b.month
  {
    var a, b := GetFiscalMetaData(d1), GetFiscalMetaData(d2);
    var start := FiscalYearStart(a.year);
    assert a.week <= b.week by {
      FiscalWeekOfDate(d1);
      FiscalWeekOfDate(d2);
      assert 7 * (a.week - 1) <= d1 - start && d2 - start < 7 * b.week;
    }
    FiscalPeriodsOfDate(d1);
    FiscalPeriodsOfDate(d2);
    if b.week <= WeeksInYear {
      WeekPeriodsMonotone(a.week, b.week);
    }
  }

  /** 2024-02-01 lies in the 53rd week of fiscal 2023, which runs from Sunday
      2023-01-29 to Saturday 2024-02-03: quarter 4, month 12. */
  lemma LeapWeekExample()
    ensures FiscalYearStart(2023) == DaysFromCivil(2023, 1, 29)
    ensures FiscalYearStart(2024) == DaysFromCivil(2024, 2, 4)
    ensures GetFiscalMetaData(DaysFromCivil(2024, 2, 1)) == FiscalDateMetaData(2023, 4, 12, 53)
  {
    assert DaysBeforeYear(2023) == 738520;
    assert DaysBeforeYear(2024) == 738885;
    var d := DaysFromCivil(2024, 2, 1);
    assert d == 738916;
    assert FiscalYearStart(2023) == 738548;
    assert FiscalYearStart(2024) == 738919;
    FiscalYearUnique(d, 2023);
    FiscalWeekOfDate(d);
  }
}
