/** Dates as Python's `datetime.date` counts them: the proleptic Gregorian
    calendar, day numbers from `toordinal` (1 January of year 1 is day 1),
    `weekday` (Monday is 0), and the two window starts of the earnings
    report: the Monday of the current week and the first of the month. */
module Calendar {

  datatype Date = Date(year: int, month: int, day: int)

  predicate IsLeap(year: int)
  {
    year % 4 == 0 && (year % 100 != 0 || year % 400 == 0)
  }

  function DaysInMonth(year: int, month: int): int
    requires 1 <= month <= 12
  {
    if month == 2 then (if IsLeap(year) then 29 else 28)
    else if month == 4 || month == 6 || month == 9 || month == 11 then 30
    else 31
  }

  /** A date `datetime.date` accepts. */
  predicate Valid(d: Date)
  {
    1 <= d.year <= 9999 && 1 <= d.month <= 12 && 1 <= d.day <= DaysInMonth(d.year, d.month)
  }

  function DaysBeforeYear(year: int): int
  {
    var y := year - 1;
    y * 365 + y / 4 - y / 100 + y / 400
  }

  function DaysBeforeMonth(year: int, month: int): int
    requires 1 <= month <= 12
  {
    var table := [0, 31, 59, 90, 120, 151, 181, 212, 243, 273, 304, 334];
    table[month - 1] + (if month > 2 && IsLeap(year) then 1 else 0)
  }

  /** `date.toordinal()`. */
  function Ordinal(d: Date): int
    requires Valid(d)
  {
    DaysBeforeYear(d.year) + DaysBeforeMonth(d.year, d.month) + d.day
  }

  /** `date.weekday()` of the date with day number `ordinal`. */
  function Weekday(ordinal: int): (w: int)
    ensures 0 <= w < 7
  {
    (ordinal + 6) % 7
  }

  /** `today - timedelta(days=today.weekday())`, as a day number. */
  function WeekStart(today: Date): int
    requires Valid(today)
  {
    Ordinal(today) - Weekday(Ordinal(today))
  }

  /** `today.replace(day=1)`. */
  function MonthStart(today: Date): Date
  {
    Date(today.year, today.month, 1)
  }

  /** Every valid date has a positive day number. */
  lemma OrdinalPositive(d: Date)
    requires Valid(d)
    ensures Ordinal(d) >= 1
  {
    YearsGrow(1, d.year);
  }

  /** The week starts on a Monday at most six days back, never before day 1. */
  lemma WeekStartIsMonday(today: Date)
    requires Valid(today)
    ensures Weekday(WeekStart(today)) == 0
    ensures 0 <= Ordinal(today) - WeekStart(today) <= 6
    ensures WeekStart(today) >= 1
  {
    var n := Ordinal(today);
    OrdinalPositive(today);
    MondayBefore(n);
  }

  lemma MondayBefore(n: int)
    requires n >= 1
    ensures Weekday(n - Weekday(n)) == 0
    ensures n - Weekday(n) >= 1
  {
    var q, w := (n + 6) / 7, (n + 6) % 7;
    assert n + 6 == q * 7 + w;
    assert (n - w) + 6 == q * 7;
    assert q >= 1;
  }

  /** The month starts on day 1 of the same month, `day - 1` days back. */
  lemma MonthStartIsFirst(today: Date)
    requires Valid(today)
    ensures Valid(MonthStart(today)) && MonthStart(today).day == 1
    ensures Ordinal(today) - Ordinal(MonthStart(today)) == today.day - 1
  {
  }

  /** A year has 366 days when it is a leap year and 365 otherwise. */
  lemma DaysBeforeNextYear(year: int)
    requires year >= 1
    ensures DaysBeforeYear(year + 1) == DaysBeforeYear(year) + (if IsLeap(year) then 366 else 365)
  {
    var y := year - 1;
    assert year / 4 == y / 4 + (if year % 4 == 0 then 1 else 0);
    assert year / 100 == y / 100 + (if year % 100 == 0 then 1 else 0);
    assert year / 400 == y / 400 + (if year % 400 == 0 then 1 else 0);
  }

  /** The calendar order of dates: by year, then month, then day. */
  predicate Before(a: Date, b: Date)
  {
    a.year < b.year || (a.year == b.year && (a.month < b.month || (a.month == b.month && a.day < b.day)))
  }

  /** Day numbers compare as the dates do, so comparing stored day numbers
      is comparing dates. */
  lemma OrdinalOrder(a: Date, b: Date)
    requires Valid(a) && Valid(b)
    ensures Before(a, b) <==> Ordinal(a) < Ordinal(b)
    ensures a == b <==> Ordinal(a) == Ordinal(b)
  {
    if Before(a, b) {
      OrdinalBefore(a, b);
    } else if Before(b, a) {
      OrdinalBefore(b, a);
    }
  }

  lemma OrdinalBefore(a: Date, b: Date)
    requires Valid(a) && Valid(b) && Before(a, b)
    ensures Ordinal(a) < Ordinal(b)
  {
    if a.year < b.year {
      YearEnd(a);
      YearsGrow(a.year + 1, b.year);
    } else if a.month < b.month {
      MonthEnd(a.year, a.month, a.day);
      MonthsGrow(a.year, a.month + 1, b.month);
    }
  }

  /** A date lies before the first day of the next year. */
  lemma YearEnd(a: Date)
    requires Valid(a)
    ensures Ordinal(a) <= DaysBeforeYear(a.year + 1)
  {
    MonthEnd(a.year, a.month, a.day);
    if a.month < 12 {
      MonthsGrow(a.year, a.month + 1, 12);
    }
    DaysBeforeNextYear(a.year);
  }

  /** A day of a month lies within the days before the next month. */
  lemma MonthEnd(year: int, month: int, day: int)
    requires 1 <= month <= 12 && 1 <= day <= DaysInMonth(year, month)
    ensures DaysBeforeMonth(year, month) + day <= DaysBeforeMonth(year, month) + DaysInMonth(year, month)
    ensures month < 12 ==> DaysBeforeMonth(year, month) + DaysInMonth(year, month) == DaysBeforeMonth(year, month + 1)
    ensures month == 12 ==> DaysBeforeMonth(year, month) + DaysInMonth(year, month) == if IsLeap(year) then 366 else 365
  {
  }

  lemma {:induction false} MonthsGrow(year: int, m: int, n: int)
    requires 1 <= m <= n <= 12
    ensures DaysBeforeMonth(year, m) <= DaysBeforeMonth(year, n)
    decreases n - m
  {
    if m < n {
      MonthsGrow(year, m + 1, n);
    }
  }

  lemma {:induction false} YearsGrow(m: int, n: int)
    requires 1 <= m <= n
    ensures DaysBeforeYear(m) <= DaysBeforeYear(n)
    decreases n - m
  {
    if m < n {
      DaysBeforeNextYear(m);
      YearsGrow(m + 1, n);
    }
  }
}
