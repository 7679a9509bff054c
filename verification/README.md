# OhioBox.Time in Dafny

This project models the core of OhioBox.Time, a small C# library:

- **The retail fiscal calendar** of `FiscalDateExtensions`. A fiscal year
  starts on the Sunday nearest February 1 and runs for 52 or 53 weeks.
  `GetFiscalMetaData` maps a date to its fiscal year, quarter, month and week.
  A quarter is 13 weeks and 91 days. The months of a quarter take its days
  0-27, 28-62 and 63-90, so they are 4, 5 and 4 weeks long. A 53rd week
  belongs to quarter 4 and month 12. `GetYear` is the civil year less one
  when the nearest Sunday comes after the date.
- **The swappable clock** of `SystemTime` and `SystemTimeScope`.
  `SystemTime` has four reassignable provider slots: `Now`, `Today`, `CstNow`
  and `CstToday`. By default `Now` reads the real UTC clock, and the other
  three read `Now` again on every call. A `SystemTimeScope` records the `Now`
  provider that is active when it is created and installs its own. `Dispose`
  reinstalls the recorded provider.

Files:

- `civil.dfy` (module `Civil`) holds the part of .NET `DateTime` the calendar
  relies on. It uses proleptic Gregorian day numbers: day 0 is Monday
  0001-01-01 and day 3652058 is 9999-12-31. It defines the day number of a
  civil date, the civil year of a day number (`DateTime.Year`) and the day of
  the week with Sunday = 0.
- `fiscal.dfy` (modules `Fiscal` and `FiscalProperties`) models
  `FiscalDateExtensions.cs` as functions, with lemmas about them.
- `clock.dfy` (modules `Clock` and `ClockScenarios`) models the clock. The
  static class `SystemTime` becomes a class whose four fields are the
  provider slots. `SystemTimeScope` becomes a class that holds the clock and
  the recorded provider. Its constructors and `Dispose` modify the clock's
  `now` field and nothing else.

## Model

| member | source | states |
|---|---|---|
| `Civil.DaysBeforeNextYear` | src/OhioBox.Time/FiscalDateExtensions.cs:17 | Consecutive years are contiguous: year y+1 starts 365 or 366 days after year y, by the Gregorian leap rule. |
| `Civil.DaysBeforeYearMonotone` | src/OhioBox.Time/FiscalDateExtensions.cs:17-19 | A later year starts at least 365 days per year later. |
| `Civil.DaysBeforeNextMonth` | src/OhioBox.Time/FiscalDateExtensions.cs:17 | Months are contiguous, and December ends where the year ends. |
| `Civil.YearFrom` | src/OhioBox.Time/FiscalDateExtensions.cs:17 | An upward search from year y finds a year at or after y whose span holds the day. |
| `Civil.YearOf` | src/OhioBox.Time/FiscalDateExtensions.cs:17 | `date.Year` is a year from 1 on whose span holds the day. |
| `Civil.YearOfUnique` | src/OhioBox.Time/FiscalDateExtensions.cs:17 | Any year whose span holds a day is that day's `Year`, so the year is unique. |
| `Civil.YearOfInRange` | src/OhioBox.Time/FiscalDateExtensions.cs:17-19 | Every representable day has a year in 1..9999. |
| `Civil.YearOfDaysFromCivil` | src/OhioBox.Time/FiscalDateExtensions.cs:17 | `new DateTime(y, m, d).Year == y` for every valid civil date. |
| `Civil.DayOfWeek` | src/OhioBox.Time/FiscalDateExtensions.cs:71-74 | `DateTime.DayOfWeek` as a number with Sunday = 0, where day 0 (0001-01-01) is a Monday. |
| `Civil.DayOfWeekCycle` | src/OhioBox.Time/FiscalDateExtensions.cs:71-74 | The day of the week lies in 0..6. Day 0 is a Monday. Each day is the next weekday after the one before it, so the week repeats every 7 days. |
| `Fiscal.GetFirstDayOfFiscalYear` | src/OhioBox.Time/FiscalDateExtensions.cs:69-75 | The result is a Sunday. It lies in [date-3, date] for Sunday to Wednesday and in (date, date+3] for Thursday to Saturday. |
| `Fiscal.NearestSunday` | src/OhioBox.Time/FiscalDateExtensions.cs:69-75 | Any Sunday within three days of a date is the result for that date, so the result is unique and a Sunday maps to itself. |
| `Fiscal.FiscalYearStart` | src/OhioBox.Time/FiscalDateExtensions.cs:17 | The start of fiscal year y is a Sunday 28 to 34 days after January 1 of year y. |
| `Fiscal.FebruaryFirst` | src/OhioBox.Time/FiscalDateExtensions.cs:17 | `new DateTime(y, 2, 1)` is day 31 of year y, so `FiscalYearStart(y)` is exactly the shift of that date. |
| `Fiscal.FirstFiscalDayIsStartOfYearOne` | src/OhioBox.Time/FiscalDateExtensions.cs:17-19 | Fiscal year 1 starts on 0001-02-04, which is day 34. |
| `Fiscal.YearOfFiscalYearStart` | src/OhioBox.Time/FiscalDateExtensions.cs:17-21 | A fiscal year starts in the civil year it is named after. |
| `Fiscal.FiscalYearLength` | src/OhioBox.Time/FiscalDateExtensions.cs:17-19 | Every fiscal year is 364 or 371 days: 52 or 53 weeks. |
| `Fiscal.FiscalYearStartMonotone` | src/OhioBox.Time/FiscalDateExtensions.cs:17-19 | Fiscal years start at least 364 days per year apart, so the starts strictly increase. |
| `Fiscal.GetYear` | src/OhioBox.Time/FiscalDateExtensions.cs:30-37 | The result is the civil year or the one before. It is the one before exactly when the date is a Thursday, Friday or Saturday. |
| `Fiscal.GetWeek` | src/OhioBox.Time/FiscalDateExtensions.cs:64-67 | Day `days` falls in the seven days of week r, for r >= 1. |
| `Fiscal.GetQuarter` | src/OhioBox.Time/FiscalDateExtensions.cs:56-62 | The quarter lies in 1..4. |
| `Fiscal.QuarterOfDays` | src/OhioBox.Time/FiscalDateExtensions.cs:56-62 | A week after 52 is quarter 4. Otherwise the quarter is the 91-day block that holds the day, which is the week's 13-week block. |
| `Fiscal.GetMonth` | src/OhioBox.Time/FiscalDateExtensions.cs:39-54 | The month lies in 1..12. |
| `Fiscal.MonthOfDays` | src/OhioBox.Time/FiscalDateExtensions.cs:39-54 | The month belongs to the given quarter. A week after 52 is month 12. Otherwise the 28/63-day split picks the month within the quarter, which gives the 4-5-4 week pattern. |
| `Fiscal.WeekPeriodsMonotone` | src/OhioBox.Time/FiscalDateExtensions.cs:39-62 | Up to week 52, a later week never has an earlier quarter or month. |
| `Fiscal.FirstDayOfFiscalYearOf` | src/OhioBox.Time/FiscalDateExtensions.cs:17-19 | The first day chosen is a representable Sunday on or before the date. |
| `Fiscal.CurrentFiscalYear` | src/OhioBox.Time/FiscalDateExtensions.cs:17-18 | When this year's start is not after the date, the date is in this fiscal year. |
| `Fiscal.PriorFiscalYear` | src/OhioBox.Time/FiscalDateExtensions.cs:18-19 | When this year's start is after the date, the previous fiscal year exists and holds the date. |
| `Fiscal.FirstDayOfFiscalYearOfDate` | src/OhioBox.Time/FiscalDateExtensions.cs:17-19 | The first day chosen starts the fiscal year named after its own civil year, and that year holds the date. That year is the date's civil year or the one before. |
| `Fiscal.MetaDataFrom` | src/OhioBox.Time/FiscalDateExtensions.cs:21-27 | Counted from a Sunday, the year is that Sunday's civil year: `GetYear` does not shift a Sunday. |
| `Fiscal.MetaDataFromFiscalYear` | src/OhioBox.Time/FiscalDateExtensions.cs:21-27 | Counted from the start of the date's fiscal year: the week counts 7-day blocks and is at most 53. Quarter and month agree. Week 53 is (4, 12). Weeks up to 52 follow the 13-week quarters and the 4-5-4 months. |
| `Fiscal.GetFiscalMetaData` | src/OhioBox.Time/FiscalDateExtensions.cs:15-28 | The year is the fiscal year that holds the date: its start is on or before the date and the next start is after it. Week, quarter and month lie in 1..53, 1..4 and 1..12. |
| `Fiscal.FiscalYearOfDate` | src/OhioBox.Time/FiscalDateExtensions.cs:15-21 | The fiscal year is the civil year, or the one before exactly when the date precedes its civil year's fiscal start. |
| `Fiscal.FiscalWeekOfDate` | src/OhioBox.Time/FiscalDateExtensions.cs:15-23 | The week is one more than the number of whole weeks since the fiscal year started. |
| `Fiscal.FiscalPeriodsOfDate` | src/OhioBox.Time/FiscalDateExtensions.cs:15-27 | Quarter and month agree. Week 53 is quarter 4 and month 12. Weeks up to 52 follow the 13-week quarters and the 4-5-4 months. |
| `FiscalProperties.LeapWeekInLongYear` | src/OhioBox.Time/FiscalDateExtensions.cs:15-28 | Only a 371-day fiscal year has a week 53. |
| `FiscalProperties.FiscalYearUnique` | src/OhioBox.Time/FiscalDateExtensions.cs:15-21 | Any fiscal year whose span holds the date is the year reported, so the year is unique. |
| `FiscalProperties.FiscalYearMonotone` | src/OhioBox.Time/FiscalDateExtensions.cs:15-21 | A later date never gets an earlier fiscal year. |
| `FiscalProperties.FiscalYearsOrdered` | src/OhioBox.Time/FiscalDateExtensions.cs:17-19 | Fiscal years that hold an earlier and a later date come in that order. |
| `FiscalProperties.FiscalPeriodsMonotone` | src/OhioBox.Time/FiscalDateExtensions.cs:21-27 | Within one fiscal year, a later date never gets an earlier week, quarter or month. |
| `FiscalProperties.LeapWeekExample` | src/OhioBox.Time/FiscalDateExtensions.cs:15-28 | Fiscal 2023 runs from 2023-01-29 to 2024-02-03. 2024-02-01 is year 2023, quarter 4, month 12, week 53. |
| `Clock.Date` | src/OhioBox.Time/SystemTime.cs:9 | `Date` is a midnight, and the instant lies in the 24 hours that start there. |
| `Clock.DateUnique` | src/OhioBox.Time/SystemTime.cs:9 | That midnight is the only one with this property. |
| `Clock.DateIdempotent` | src/OhioBox.Time/SystemTime.cs:9 | Truncating an instant that is already a midnight leaves it unchanged, so default `Today()` under a scope fixed at a midnight returns that midnight. |
| `Clock.DayOf` | src/OhioBox.Time/SystemTime.cs:9 | An instant belongs to a representable day number and lies within that day's ticks. |
| `Clock.DateKeepsDay` | src/OhioBox.Time/SystemTime.cs:9 | Truncating keeps the day and lands on its first tick. |
| `Clock.Call` | src/OhioBox.Time/SystemTime.cs:7 | The real-clock provider returns the wall-clock reading. A fixed provider returns its instant. |
| `Clock.FixedIgnoresWorld` | src/OhioBox.Time/SystemTimeScope.cs:14-17 | A fixed provider returns the same instant whatever the wall clock and the time zone say. |
| `Clock.SystemTime.constructor` | src/OhioBox.Time/SystemTime.cs:7-13 | Initially `Now` is the real UTC clock and the other three slots hold their defaults. |
| `Clock.SystemTime.Now` | src/OhioBox.Time/SystemTime.cs:7 | With the default provider `Now()` is the wall-clock UTC reading. With a fixed provider it is that instant. |
| `Clock.SystemTime.Today` | src/OhioBox.Time/SystemTime.cs:9 | With the default slot, `Today()` is the midnight that starts the day of what `Now()` returns at the time of the call. |
| `Clock.SystemTime.CstNow` | src/OhioBox.Time/SystemTime.cs:11 | With the default slot, `CstNow()` converts what `Now()` returns at the time of the call. |
| `Clock.SystemTime.CstToday` | src/OhioBox.Time/SystemTime.cs:13 | With the default slot, `CstToday()` is the midnight that starts the day of what `CstNow()` returns at the time of the call. |
| `Clock.SystemTime.SetNow` | src/OhioBox.Time/SystemTime.cs:7 | Assigning `Now` installs the provider. Its frame, the `now` field only, leaves the other three slots as they were. |
| `Clock.SystemTime.SetToday` | src/OhioBox.Time/SystemTime.cs:9 | Assigning `Today` replaces that slot only. |
| `Clock.SystemTime.SetCstNow` | src/OhioBox.Time/SystemTime.cs:11 | Assigning `CstNow` replaces that slot only. |
| `Clock.SystemTime.SetCstToday` | src/OhioBox.Time/SystemTime.cs:13 | Assigning `CstToday` replaces that slot only. |
| `Clock.SystemTimeScope.constructor` | src/OhioBox.Time/SystemTimeScope.cs:7-12 | The scope records the provider that was active before it, then installs its own. Only `now` is written. |
| `Clock.SystemTimeScope.At` | src/OhioBox.Time/SystemTimeScope.cs:14-17 | Same as above with a fixed provider: after construction `Now()` returns the given instant on every call. |
| `Clock.SystemTimeScope.Dispose` | src/OhioBox.Time/SystemTimeScope.cs:19-22 | The recorded provider is installed again, whatever is installed at that moment. |
| `Clock.SystemTimeScope.New` | src/OhioBox.Time/SystemTimeScope.cs:29-32 | Same contract as the Func-form constructor, for a fresh scope. |
| `Clock.SystemTimeScope.NewAt` | src/OhioBox.Time/SystemTimeScope.cs:24-27 | Same contract as the DateTime-form constructor, for a fresh scope. |
| `ClockScenarios.NestedScopesRestore` | src/OhioBox.Time/SystemTimeScope.cs:7-22 | Nested scopes disposed innermost first show each scope's provider while it is innermost, then the outer provider, then the original one. |
| `ClockScenarios.OutOfOrderDispose` | src/OhioBox.Time/SystemTimeScope.cs:7-22 | If the outer scope is disposed first, the original provider comes back. Disposing the inner scope afterwards leaves the outer scope's provider installed: restoring works per scope, not as a stack. |
| `ClockScenarios.DisposeTwice` | src/OhioBox.Time/SystemTimeScope.cs:19-22 | A second `Dispose` leaves what the first one left. |
| `ClockScenarios.ScopeTouchesOnlyNow` | src/OhioBox.Time/SystemTimeScope.cs:9-22 | While a scope is active and after it is disposed, `Today`, `CstNow` and `CstToday` hold what they held before. After disposal `Now` is restored. |
| `ClockScenarios.MidnightScopeToday` | src/OhioBox.Time/SystemTime.cs:9 | Under a scope fixed at a midnight, default `Today()` returns exactly that instant. |
| `ClockScenarios.TodayFollowsScope` | src/OhioBox.Time/SystemTime.cs:9-13 | Under a fixed-instant scope, default `Today()` is that instant's midnight on the same day and default `CstToday()` is the midnight of its converted instant. Neither slot was assigned. |

## Left out

- Time of day and `DateTime.Kind` in the calendar: dates are whole day numbers.
  This does not lose behaviour. The fiscal start compared at
  FiscalDateExtensions.cs:18 is always a midnight, so it is after a date
  exactly when its day is after that date's day. `TimeSpan.Days` at :22
  truncates the time of day.
- `Fiscal.GetYear` requires the shifted day to stay in 0001-01-01..9999-12-31,
  because `AddDays` throws outside that range. The affected inputs are days
  0-2 and 9999-12-30/31. The exception itself is not modelled.
- `Fiscal.GetFiscalMetaData` requires dates from 0001-02-04 on. For
  0001-01-01..0001-02-03 the fallback at :19 builds February 1 of year 0,
  which throws; the exception is not modelled.
- `Fiscal.GetWeek`, `Fiscal.GetQuarter` and `Fiscal.GetMonth` require a
  non-negative day count. Their only caller guarantees it. For negative
  counts, C#'s truncating `/` and `%` would differ from Dafny's Euclidean
  ones.
- `Fiscal.GetQuarter` and `Fiscal.GetMonth` state only their ranges in their
  own contracts. `Fiscal.QuarterOfDays` and `Fiscal.MonthOfDays` state the
  rest.
- 32-bit overflow is not modelled. Every value here stays below 4 million
  days, or 53 weeks, so `int` never wraps.
- Retail calendars often split a quarter 4-4-5 weeks. The thresholds 28 and
  63 at FiscalDateExtensions.cs:9-10 give 4-5-4, and the model follows them.
  In week 53 the code returns quarter 4 and month 12, so
  quarter == (month - 1) / 3 + 1 holds in every week.
- The real clock behind `DateTime.UtcNow` is not modelled: every read takes
  its wall-clock value from an `Env` argument.
- `ConvertFromUtcToCst` (DateTimeExtensions.cs) and its time-zone database
  are not part of this model. The conversion is an uninterpreted function
  in `Env`, and exceptions it may raise are ignored.
- A replacement provider is a pure function of the wall-clock reading.
  Providers with their own mutable state or with exceptions are not
  modelled. Neither is a replacement `Today`/`CstNow`/`CstToday` lambda
  that reads the other slots.
- `SystemTime` is a static class with global fields. The model passes one
  `SystemTime` object to every scope, which is the same as a single global
  slot for a single caller.
- Thread safety of the global slot is out of scope: races between threads
  are not modelled.
- The Roslyn analyzers and code fix, and the tests of the time-zone
  conversion, are not part of this model.
