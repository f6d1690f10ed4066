/** The proleptic Gregorian calendar that the Go `time` package reads an instant by:
    day 0 is Monday 1 January of year 1, and days are counted in UTC. */
module Calendar {
  import opened Arithmetic

  const DAYS_IN_CYCLE := 146097
  const YEARS_IN_CYCLE := 400

  datatype Date = Date(year: int, month: int, day: int)

  predicate Leap(year: int) {
    year % 4 == 0 && (year % 100 != 0 || year % 400 == 0)
  }

  function MonthLength(year: int, month: int): (length: int)
    requires 1 <= month <= 12
    ensures 28 <= length <= 31
  {
    if month == 2 then (if Leap(year) then 29 else 28)
    else if month == 4 || month == 6 || month == 9 || month == 11 then 30
    else 31
  }

  predicate Valid(date: Date) {
    1 <= date.month <= 12 && 1 <= date.day <= MonthLength(date.year, date.month)
  }

  function DaysBeforeYear(year: int): int {
    365 * (year - 1) + (year - 1) / 4 - (year - 1) / 100 + (year - 1) / 400
  }

  function DaysBeforeMonth(year: int, month: int): int
    requires 1 <= month <= 13
  {
    if month == 1 then 0 else DaysBeforeMonth(year, month - 1) + MonthLength(year, month - 1)
  }

  /** `time.Date` for a month and a day that may lie past the end of the year or the month:
      months carry into the year, days simply count on. */
  function DateToDay(year: int, month: int, day: int): int
    requires 1 <= month <= 13
  {
    if month == 13 then DaysBeforeYear(year + 1) + day - 1
    else DaysBeforeYear(year) + DaysBeforeMonth(year, month) + day - 1
  }

  function DayNumber(date: Date): int
    requires Valid(date)
  {
    DateToDay(date.year, date.month, date.day)
  }

  lemma YearStep(year: int)
    ensures DaysBeforeYear(year + 1) == DaysBeforeYear(year) + (if Leap(year) then 366 else 365)
  {
    NextDivision(year - 1, 4);
    NextDivision(year - 1, 100);
    NextDivision(year - 1, 400);
    CenturiesAreFourths(year);
  }

  lemma CenturiesAreFourths(year: int)
    ensures year % 100 == 0 ==> year % 4 == 0
    ensures year % 400 == 0 ==> year % 100 == 0
  {
    ShiftedDivision(0, 25 * (year / 100), 4);
    ShiftedDivision(0, 4 * (year / 400), 100);
  }

  lemma MonthsFillTheYear(year: int)
    ensures DaysBeforeMonth(year, 13) == (if Leap(year) then 366 else 365)
  {
    assert DaysBeforeMonth(year, 2) == 31;
    assert DaysBeforeMonth(year, 3) == 31 + MonthLength(year, 2);
    assert DaysBeforeMonth(year, 5) == DaysBeforeMonth(year, 3) + 61;
    assert DaysBeforeMonth(year, 7) == DaysBeforeMonth(year, 5) + 61;
    assert DaysBeforeMonth(year, 9) == DaysBeforeMonth(year, 7) + 62;
    assert DaysBeforeMonth(year, 11) == DaysBeforeMonth(year, 9) + 61;
    assert DaysBeforeMonth(year, 13) == DaysBeforeMonth(year, 11) + 61;
  }

  lemma {:induction false} YearsAscend(a: int, b: int)
    requires a <= b
    ensures DaysBeforeYear(a) <= DaysBeforeYear(b)
    decreases b - a
  {
    if a < b {
      YearsAscend(a, b - 1);
      YearStep(b - 1);
    }
  }

  lemma {:induction false} MonthsAscend(year: int, a: int, b: int)
    requires 1 <= a <= b <= 13
    ensures DaysBeforeMonth(year, a) <= DaysBeforeMonth(year, b)
    ensures a < b ==> DaysBeforeMonth(year, a) + MonthLength(year, a) <= DaysBeforeMonth(year, b)
    decreases b - a
  {
    if a < b {
      MonthsAscend(year, a, b - 1);
    }
  }

  lemma CyclesShift(year: int, cycles: int)
    ensures DaysBeforeYear(year + YEARS_IN_CYCLE * cycles) == DaysBeforeYear(year) + DAYS_IN_CYCLE * cycles
    ensures Leap(year + YEARS_IN_CYCLE * cycles) == Leap(year)
  {
    ShiftedDivision(year - 1, 100 * cycles, 4);
    ShiftedDivision(year - 1, 4 * cycles, 100);
    ShiftedDivision(year - 1, cycles, 400);
    ShiftedDivision(year, 100 * cycles, 4);
    ShiftedDivision(year, 4 * cycles, 100);
    ShiftedDivision(year, cycles, 400);
  }

  /** A date lies inside its own year and its own month. */
  lemma DateBounds(date: Date)
    requires Valid(date)
    ensures DaysBeforeYear(date.year) <= DayNumber(date) < DaysBeforeYear(date.year + 1)
  {
    MonthsAscend(date.year, 1, date.month);
    MonthsAscend(date.year, date.month, 13);
    MonthsFillTheYear(date.year);
    YearStep(date.year);
  }

  lemma DatesAreDistinct(a: Date, b: Date)
    requires Valid(a) && Valid(b) && DayNumber(a) == DayNumber(b)
    ensures a == b
  {
    DateBounds(a);
    DateBounds(b);
    if a.year < b.year {
      YearsAscend(a.year + 1, b.year);
    } else if b.year < a.year {
      YearsAscend(b.year + 1, a.year);
    } else if a.month < b.month {
      MonthsAscend(a.year, a.month, b.month);
    } else if b.month < a.month {
      MonthsAscend(a.year, b.month, a.month);
    }
  }

  function YearFrom(day: int, year: int): (found: int)
    requires 1 <= year <= YEARS_IN_CYCLE && DaysBeforeYear(year) <= day < DAYS_IN_CYCLE
    ensures DaysBeforeYear(found) <= day < DaysBeforeYear(found + 1)
    decreases YEARS_IN_CYCLE - year
  {
    if day < DaysBeforeYear(year + 1) then year else YearFrom(day, year + 1)
  }

  function MonthFrom(year: int, day: int, month: int): (found: int)
    requires 1 <= month <= 12 && DaysBeforeMonth(year, month) <= day < DaysBeforeMonth(year, 13)
    ensures 1 <= found <= 12
    ensures DaysBeforeMonth(year, found) <= day < DaysBeforeMonth(year, found) + MonthLength(year, found)
    decreases 12 - month
  {
    if day < DaysBeforeMonth(year, month + 1) then month else MonthFrom(year, day, month + 1)
  }

  /** The year of a day within the first cycle. */
  function YearInCycle(rest: int): (within: int)
    requires 0 <= rest < DAYS_IN_CYCLE
    ensures DaysBeforeYear(within) <= rest < DaysBeforeYear(within + 1)
  {
    YearFrom(rest, 1)
  }

  function YearOf(day: int): (year: int)
    ensures DaysBeforeYear(year) <= day < DaysBeforeYear(year + 1)
  {
    var within := YearInCycle(day % DAYS_IN_CYCLE);
    YearIsShifted(day, day / DAYS_IN_CYCLE, day % DAYS_IN_CYCLE, within);
    within + YEARS_IN_CYCLE * (day / DAYS_IN_CYCLE)
  }

  lemma YearIsShifted(day: int, cycle: int, rest: int, within: int)
    requires day == DAYS_IN_CYCLE * cycle + rest && DaysBeforeYear(within) <= rest < DaysBeforeYear(within + 1)
    ensures DaysBeforeYear(within + YEARS_IN_CYCLE * cycle) <= day < DaysBeforeYear(within + YEARS_IN_CYCLE * cycle + 1)
  {
    CyclesShift(within, cycle);
    CyclesShift(within + 1, cycle);
  }

  /** The date of a day number. `DatesAreDistinct` makes it the only one. */
  function DateOf(day: int): (date: Date)
    ensures Valid(date) && DayNumber(date) == day
  {
    var year := YearOf(day);
    YearStep(year);
    MonthsFillTheYear(year);
    var month := MonthFrom(year, day - DaysBeforeYear(year), 1);
    Date(year, month, day - DaysBeforeYear(year) - DaysBeforeMonth(year, month) + 1)
  }

  function Weekday(day: int): (weekday: int)
    ensures 0 <= weekday <= 6
  {
    (day + 1) % 7
  }

  lemma DateOfDayNumber(date: Date)
    requires Valid(date)
    ensures DateOf(DayNumber(date)) == date
  {
    DatesAreDistinct(DateOf(DayNumber(date)), date);
  }

  /** From a day to the first of the next month, every day is in the same month. */
  lemma SameMonthUntilNext(day: int, later: int)
    requires day <= later < DateToDay(DateOf(day).year, DateOf(day).month + 1, 1)
    ensures DateOf(later).month == DateOf(day).month
  {
    var date := DateOf(day);
    YearStep(date.year);
    MonthsFillTheYear(date.year);
    DateOfDayNumber(Date(date.year, date.month, date.day + (later - day)));
  }

  lemma NextMonthIsLater(day: int)
    ensures day < DateToDay(DateOf(day).year, DateOf(day).month + 1, 1)
  {
    YearStep(DateOf(day).year);
    MonthsFillTheYear(DateOf(day).year);
  }

  lemma {:induction false} MonthsKeepTheCycle(year: int, month: int)
    requires 1 <= month <= 13
    ensures DaysBeforeMonth(year + YEARS_IN_CYCLE, month) == DaysBeforeMonth(year, month)
  {
    CyclesShift(year, 1);
    if month > 1 {
      MonthsKeepTheCycle(year, month - 1);
    }
  }

  lemma DayNumbersRepeat(date: Date)
    requires Valid(date)
    ensures Valid(date.(year := date.year + YEARS_IN_CYCLE))
    ensures DayNumber(date.(year := date.year + YEARS_IN_CYCLE)) == DayNumber(date) + DAYS_IN_CYCLE
  {
    CyclesShift(date.year, 1);
    MonthsKeepTheCycle(date.year, date.month);
    MonthsKeepTheCycle(date.year, date.month + 1);
  }

  lemma WeekdaysRepeat(day: int)
    ensures Weekday(day + DAYS_IN_CYCLE) == Weekday(day)
  {
    ShiftedDivision(day + 1, 20871, 7);
  }

  /** The calendar, with its weekdays, repeats every 400 years. */
  lemma CalendarRepeats(day: int)
    ensures DateOf(day + DAYS_IN_CYCLE) == DateOf(day).(year := DateOf(day).year + YEARS_IN_CYCLE)
    ensures Weekday(day + DAYS_IN_CYCLE) == Weekday(day)
  {
    DayNumbersRepeat(DateOf(day));
    OnlyDateOf(day + DAYS_IN_CYCLE, DateOf(day).(year := DateOf(day).year + YEARS_IN_CYCLE));
    WeekdaysRepeat(day);
  }

  lemma OnlyDateOf(day: int, date: Date)
    requires Valid(date) && DayNumber(date) == day
    ensures DateOf(day) == date
  {
    DatesAreDistinct(DateOf(day), date);
  }
}
