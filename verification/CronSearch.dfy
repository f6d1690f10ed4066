/** `Schedule.Next` and the proof that it always ends: a schedule fires exactly when the parser's
    reachability check says so, and then within every 400 years. */
module CronSearch {
  import opened Cron
  import opened Calendar

  const NANOSECONDS_IN_MINUTE := 60_000_000_000
  const MINUTES_IN_DAY := 1440
  const MINUTES_IN_CYCLE := MINUTES_IN_DAY * DAYS_IN_CYCLE

  predicate MatchesDay(s: Schedule, day: int) {
    var named := DateOf(day).day in s.days;
    var weekday := Weekday(day) in s.weekdays;
    if s.anyDay || s.anyWeekday then named && weekday else named || weekday
  }

  /** Whether a schedule names a minute, counted in UTC from the first of year 1. */
  predicate Fires(s: Schedule, t: int) {
    && DateOf(t / MINUTES_IN_DAY).month in s.months
    && MatchesDay(s, t / MINUTES_IN_DAY)
    && t % MINUTES_IN_DAY / 60 in s.hours
    && t % 60 in s.minutes
  }

  /** The next minute a schedule fires at after an instant given in nanoseconds. */
  method Next(s: Schedule, after: int) returns (t: int)
    requires Accepted(s)
    ensures after < t * NANOSECONDS_IN_MINUTE && Fires(s, t)
    ensures forall m :: after < m * NANOSECONDS_IN_MINUTE && m < t ==> !Fires(s, m)
    ensures t <= after / NANOSECONDS_IN_MINUTE + MINUTES_IN_CYCLE
  {
    t := after / NANOSECONDS_IN_MINUTE + 1;
    ghost var start := t;
    ghost var bound := FiresWithinACycle(s, start);
    while true
      invariant start <= t <= bound
      invariant Silent(s, start, t)
      decreases bound - t
    {
      var fires, next := Skip(s, t);
      if fires {
        break;
      }
      t := next;
    }
  }

  /** One turn of the search: whether the minute fires and, if not, the minute to look at next. */
  method Skip(s: Schedule, t: int) returns (fires: bool, next: int)
    ensures fires == Fires(s, t)
    ensures !fires ==> t < next && Silent(s, t, next)
  {
    var day := t / MINUTES_IN_DAY;
    var date := DateOf(day);
    fires, next := false, t + 1;
    if date.month !in s.months {
      next := DateToDay(date.year, date.month + 1, 1) * MINUTES_IN_DAY;
      SkipMonth(s, t);
    } else if !MatchesDay(s, day) {
      next := DateToDay(date.year, date.month, date.day + 1) * MINUTES_IN_DAY;
      SkipDay(s, t);
    } else if t % MINUTES_IN_DAY / 60 !in s.hours {
      next := t / 60 * 60 + 60;
      SkipHour(s, t);
    } else if t % 60 in s.minutes {
      fires := true;
    }
  }

  /** No minute from one up to another fires. */
  ghost predicate Silent(s: Schedule, from: int, to: int) {
    forall m :: from <= m < to ==> !Fires(s, m)
  }

  lemma SkipMonth(s: Schedule, t: int)
    requires DateOf(t / MINUTES_IN_DAY).month !in s.months
    ensures var date := DateOf(t / MINUTES_IN_DAY);
            var next := DateToDay(date.year, date.month + 1, 1) * MINUTES_IN_DAY;
            t < next && Silent(s, t, next)
  {
    var date := DateOf(t / MINUTES_IN_DAY);
    NextMonthIsLater(t / MINUTES_IN_DAY);
    forall m | t <= m < DateToDay(date.year, date.month + 1, 1) * MINUTES_IN_DAY ensures !Fires(s, m) {
      SameMonthUntilNext(t / MINUTES_IN_DAY, m / MINUTES_IN_DAY);
    }
  }

  lemma SkipDay(s: Schedule, t: int)
    requires !MatchesDay(s, t / MINUTES_IN_DAY)
    ensures var date := DateOf(t / MINUTES_IN_DAY);
            var next := DateToDay(date.year, date.month, date.day + 1) * MINUTES_IN_DAY;
            t < next && Silent(s, t, next)
  {
    var day := t / MINUTES_IN_DAY;
    forall m | t <= m < (day + 1) * MINUTES_IN_DAY ensures !Fires(s, m) {
      assert m / MINUTES_IN_DAY == day;
    }
  }

  lemma SkipHour(s: Schedule, t: int)
    requires t % MINUTES_IN_DAY / 60 !in s.hours
    ensures Silent(s, t, t / 60 * 60 + 60)
  {
    forall m | t <= m < t / 60 * 60 + 60 ensures !Fires(s, m) {
      assert m / 60 == t / 60;
      HourOf(m);
      HourOf(t);
    }
  }

  lemma HourOf(t: int)
    ensures t % MINUTES_IN_DAY / 60 == t / 60 % 24
  {
    var q := t / MINUTES_IN_DAY;
    assert t / 60 == q * 24 + t % MINUTES_IN_DAY / 60;
  }

  // Reachability: every date falls on every weekday.

  /** Seven common years whose first days fall on seven weekdays. */
  function YearAhead(weekdays: int): int
    requires 0 <= weekdays <= 6
  {
    [2001, 2002, 2003, 2009, 2010, 2005, 2006][weekdays]
  }

  lemma YearsAhead(weekdays: int)
    requires 0 <= weekdays <= 6
    ensures 2001 <= YearAhead(weekdays) <= 2010 && !Leap(YearAhead(weekdays))
    ensures (DaysBeforeYear(YearAhead(weekdays)) - DaysBeforeYear(2001)) % 7 == weekdays
  {
  }

  lemma CommonYearOn(month: int, day: int, weekday: int) returns (date: Date)
    requires 1 <= month <= 12 && 1 <= day <= MonthLength(2001, month) && 0 <= weekday <= 6
    ensures Valid(date) && date.month == month && date.day == day
    ensures Weekday(DayNumber(date)) == weekday
  {
    var first := DayNumber(Date(2001, month, day));
    var ahead := (weekday - Weekday(first)) % 7;
    YearsAhead(ahead);
    CommonYears(month);
    date := Date(YearAhead(ahead), month, day);
    WeekdayAhead(first, DaysBeforeYear(date.year) - DaysBeforeYear(2001), weekday);
  }

  lemma WeekdayAhead(first: int, days: int, weekday: int)
    requires 0 <= weekday <= 6 && days % 7 == (weekday - Weekday(first)) % 7
    ensures Weekday(first + days) == weekday
  {
  }

  lemma {:induction false} CommonYears(month: int)
    requires 1 <= month <= 13
    ensures forall year :: 2001 <= year <= 2010 && !Leap(year) ==> DaysBeforeMonth(year, month) == DaysBeforeMonth(2001, month)
  {
    if month > 1 {
      CommonYears(month - 1);
    }
  }

  lemma LeapDayOn(weekday: int) returns (date: Date)
    requires 0 <= weekday <= 6
    ensures Valid(date) && date.month == 2 && date.day == 29
    ensures Weekday(DayNumber(date)) == weekday
  {
    var k := (weekday - 2) * 3 % 7;
    date := Date(2000 + 4 * k, 2, 29);
    assert DaysBeforeMonth(date.year, 2) == 31;
    assert DaysBeforeYear(date.year) == 730119 + 1461 * k;
  }

  lemma DateOnWeekday(month: int, day: int, weekday: int) returns (date: Date)
    requires 1 <= month <= 12 && 1 <= day <= LONGEST_MONTH[month] && 0 <= weekday <= 6
    ensures Valid(date) && date.month == month && date.day == day
    ensures Weekday(DayNumber(date)) == weekday
  {
    if month == 2 && day == 29 {
      date := LeapDayOn(weekday);
    } else {
      date := CommonYearOn(month, day, weekday);
    }
  }

  lemma ADayMatches(s: Schedule) returns (day: int)
    requires Accepted(s)
    ensures DateOf(day).month in s.months && MatchesDay(s, day)
  {
    var date: Date;
    if s.anyWeekday {
      var month, d :| NamesADay(s, month, d);
      date := DateOnWeekday(month, d, 0);
    } else {
      var month := AMember(s.months);
      var weekday := AMember(s.weekdays);
      date := DateOnWeekday(month, 1, weekday);
    }
    day := DayNumber(date);
    DateOfDayNumber(date);
  }

  lemma AMinuteFires(s: Schedule) returns (t: int)
    requires Accepted(s)
    ensures Fires(s, t)
  {
    var day := ADayMatches(s);
    var hour := AMember(s.hours);
    var minute := AMember(s.minutes);
    t := day * MINUTES_IN_DAY + hour * 60 + minute;
    ClockReads(day, hour, minute);
  }

  lemma ClockReads(day: int, hour: int, minute: int)
    requires 0 <= hour <= 23 && 0 <= minute <= 59
    ensures var t := day * MINUTES_IN_DAY + hour * 60 + minute;
            t / MINUTES_IN_DAY == day && t % MINUTES_IN_DAY / 60 == hour && t % 60 == minute
  {
    var t := day * MINUTES_IN_DAY + hour * 60 + minute;
    assert t == (day * 24 + hour) * 60 + minute;
  }

  lemma CyclesBetween(start: int, found: int) returns (cycles: int, t: int)
    ensures found == t + cycles * MINUTES_IN_CYCLE && start <= t < start + MINUTES_IN_CYCLE
  {
    cycles := (found - start) / MINUTES_IN_CYCLE;
    t := start + (found - start) % MINUTES_IN_CYCLE;
  }

  lemma FiringRepeats(s: Schedule, t: int)
    ensures Fires(s, t + MINUTES_IN_CYCLE) == Fires(s, t)
  {
    var day := t / MINUTES_IN_DAY;
    assert (t + MINUTES_IN_CYCLE) / MINUTES_IN_DAY == day + DAYS_IN_CYCLE;
    assert (t + MINUTES_IN_CYCLE) % MINUTES_IN_DAY == t % MINUTES_IN_DAY;
    assert (t + MINUTES_IN_CYCLE) % 60 == t % 60;
    CalendarRepeats(day);
  }

  lemma {:induction false} RepeatsOften(p: int -> bool, period: int, from: int, to: int, cycles: int)
    requires forall t :: p(t + period) == p(t)
    requires to == from + cycles * period
    ensures p(from) == p(to)
    decreases if cycles < 0 then -cycles else cycles
  {
    if cycles > 0 {
      assert p(from + period) == p(from);
      RepeatsOften(p, period, from + period, to, cycles - 1);
    } else if cycles < 0 {
      assert p(to + period) == p(to);
      RepeatsOften(p, period, from, to + period, cycles + 1);
    }
  }

  /** Every accepted schedule fires within any 400 years, wherever they start. */
  lemma FiresWithinACycle(s: Schedule, start: int) returns (t: int)
    requires Accepted(s)
    ensures start <= t < start + MINUTES_IN_CYCLE && Fires(s, t)
  {
    var found := AMinuteFires(s);
    var cycles;
    cycles, t := CyclesBetween(start, found);
    var fires := m => Fires(s, m);
    forall m ensures fires(m + MINUTES_IN_CYCLE) == fires(m) {
      FiringRepeats(s, m);
    }
    RepeatsOften(fires, MINUTES_IN_CYCLE, t, found, cycles);
    assert fires(t);
  }

  /** The parser's check is exact: a schedule it parses fires at some minute if and only if it is reachable. */
  lemma FiresIffReachable(s: Schedule)
    requires Parsed(s)
    ensures Reachable(s) <==> exists t :: Fires(s, t)
  {
    if Reachable(s) {
      var t := AMinuteFires(s);
    }
    if t :| Fires(s, t) {
      var date := DateOf(t / MINUTES_IN_DAY);
      assert !s.anyWeekday || NamesADay(s, date.month, date.day);
    }
  }
}
