/** The proleptic Gregorian calendar in UTC, minute by minute. */
module Calendar {

  /** `weekday` counts from Sunday = 0, as the scheduler's time library does. */
  datatype Stamp = Stamp(year: nat, month: nat, day: nat, hour: nat, minute: nat, weekday: nat)

  const DAY := 1440

  predicate Leap(y: nat) {
    (y % 4 == 0 && y % 100 != 0) || y % 400 == 0
  }

  function MonthDays(y: nat, m: nat): nat {
    if m == 2 then (if Leap(y) then 29 else 28)
    else if m == 4 || m == 6 || m == 9 || m == 11 then 30
    else 31
  }

  function YearDays(y: nat): nat {
    if Leap(y) then 366 else 365
  }

  predicate Valid(t: Stamp) {
    && 1 <= t.year && 1 <= t.month <= 12 && 1 <= t.day <= MonthDays(t.year, t.month)
    && t.hour <= 23 && t.minute <= 59 && t.weekday <= 6
  }

  /** The next minute. */
  function Next(t: Stamp): Stamp {
    if t.minute < 59 then t.(minute := t.minute + 1)
    else if t.hour < 23 then t.(hour := t.hour + 1, minute := 0)
    else
      var wd := (t.weekday + 1) % 7;
      if t.day < MonthDays(t.year, t.month) then Stamp(t.year, t.month, t.day + 1, 0, 0, wd)
      else if t.month < 12 then Stamp(t.year, t.month + 1, 1, 0, 0, wd)
      else Stamp(t.year + 1, 1, 1, 0, 0, wd)
  }

  /** Minute 0 is Monday, 1 January of year 1. */
  function At(m: nat): (t: Stamp)
    ensures Valid(t)
  {
    if m == 0 then Stamp(1, 1, 1, 0, 0, 1) else Next(At(m - 1))
  }

  // ---------------------------------------------------------------------------
  // The closed form, and that At is its inverse
  // ---------------------------------------------------------------------------

  function DaysBeforeYear(y: nat): nat {
    if y <= 1 then 0 else DaysBeforeYear(y - 1) + YearDays(y - 1)
  }

  /** Days of year `y` before the first of month `m`. */
  function DaysBeforeMonth(y: nat, m: nat): nat {
    if m <= 1 then 0 else DaysBeforeMonth(y, m - 1) + MonthDays(y, m - 1)
  }

  function DayIndex(y: nat, m: nat, d: nat): int {
    DaysBeforeYear(y) + DaysBeforeMonth(y, m) + d - 1
  }

  function Index(y: nat, m: nat, d: nat, h: nat, mi: nat): int {
    DayIndex(y, m, d) * DAY + h * 60 + mi
  }

  function IndexOf(t: Stamp): int {
    Index(t.year, t.month, t.day, t.hour, t.minute)
  }

  lemma MonthTable(y: nat)
    ensures var f := if Leap(y) then 29 else 28;
            && DaysBeforeMonth(y, 1) == 0 && DaysBeforeMonth(y, 2) == 31 && DaysBeforeMonth(y, 3) == 31 + f
            && DaysBeforeMonth(y, 4) == 62 + f && DaysBeforeMonth(y, 5) == 92 + f && DaysBeforeMonth(y, 6) == 123 + f
            && DaysBeforeMonth(y, 7) == 153 + f && DaysBeforeMonth(y, 8) == 184 + f && DaysBeforeMonth(y, 9) == 215 + f
            && DaysBeforeMonth(y, 10) == 245 + f && DaysBeforeMonth(y, 11) == 276 + f && DaysBeforeMonth(y, 12) == 306 + f
  {
    assert DaysBeforeMonth(y, 1) == 0 && DaysBeforeMonth(y, 2) == 31;
    assert DaysBeforeMonth(y, 3) == DaysBeforeMonth(y, 2) + MonthDays(y, 2);
    assert DaysBeforeMonth(y, 5) == DaysBeforeMonth(y, 3) + 61;
    assert DaysBeforeMonth(y, 7) == DaysBeforeMonth(y, 5) + 61;
    assert DaysBeforeMonth(y, 9) == DaysBeforeMonth(y, 7) + 62;
    assert DaysBeforeMonth(y, 11) == DaysBeforeMonth(y, 9) + 61;
  }

  lemma {:induction false} NextIndex(t: Stamp)
    requires Valid(t)
    ensures IndexOf(Next(t)) == IndexOf(t) + 1
  {
    MonthTable(t.year);
    MonthTable(t.year + 1);
    if t.minute == 59 && t.hour == 23 && t.day == MonthDays(t.year, t.month) {
      if t.month == 12 {
        assert DayIndex(t.year + 1, 1, 1) == DayIndex(t.year, 12, 31) + 1;
      } else {
        assert DayIndex(t.year, t.month + 1, 1) == DayIndex(t.year, t.month, t.day) + 1;
      }
    }
  }

  /** Stepping `m` minutes from the epoch gives the date whose closed-form minute number is `m`. */
  lemma {:induction false} AtIndex(m: nat)
    ensures IndexOf(At(m)) == m
  {
    if m == 0 {
      MonthTable(1);
    } else {
      AtIndex(m - 1);
      NextIndex(At(m - 1));
    }
  }

  lemma {:induction false} DayOfYearBound(y: nat, m: nat, d: nat)
    requires 1 <= m <= 12 && 1 <= d <= MonthDays(y, m)
    ensures 0 <= DaysBeforeMonth(y, m) + d - 1 < YearDays(y)
  {
    MonthTable(y);
  }

  lemma {:induction false} YearsMonotone(a: nat, b: nat)
    requires 1 <= a <= b
    ensures DaysBeforeYear(a) <= DaysBeforeYear(b)
    ensures a < b ==> DaysBeforeYear(a) + YearDays(a) <= DaysBeforeYear(b)
    decreases b
  {
    if a < b {
      YearsMonotone(a, b - 1);
    }
  }

  ghost predicate SameMinute(a: Stamp, b: Stamp) {
    a.year == b.year && a.month == b.month && a.day == b.day && a.hour == b.hour && a.minute == b.minute
  }

  lemma {:induction false} SplitMinutes(a: int, b: int, x: int, y: int)
    requires 0 <= x < DAY && 0 <= y < DAY && a * DAY + x == b * DAY + y
    ensures a == b && x == y
  {
  }

  lemma {:induction false} DateUnique(a: Stamp, b: Stamp)
    requires Valid(a) && Valid(b) && DayIndex(a.year, a.month, a.day) == DayIndex(b.year, b.month, b.day)
    ensures a.year == b.year && a.month == b.month && a.day == b.day
  {
    DayOfYearBound(a.year, a.month, a.day);
    DayOfYearBound(b.year, b.month, b.day);
    if a.year <= b.year {
      YearsMonotone(a.year, b.year);
    } else {
      YearsMonotone(b.year, a.year);
    }
    assert a.year == b.year;
    MonthTable(a.year);
  }

  /** The closed form tells any two valid minutes apart. */
  lemma {:induction false} IndexInjective(a: Stamp, b: Stamp)
    requires Valid(a) && Valid(b) && IndexOf(a) == IndexOf(b)
    ensures SameMinute(a, b)
  {
    SplitMinutes(DayIndex(a.year, a.month, a.day), DayIndex(b.year, b.month, b.day),
                 a.hour * 60 + a.minute, b.hour * 60 + b.minute);
    DateUnique(a, b);
  }

  /** Every valid date is reached, at its closed-form minute number. */
  lemma {:induction false} IndexAt(t: Stamp)
    requires Valid(t)
    ensures IndexOf(t) >= 0 && SameMinute(At(IndexOf(t)), t)
  {
    DayOfYearBound(t.year, t.month, t.day);
    AtIndex(IndexOf(t));
    IndexInjective(At(IndexOf(t)), t);
  }

  /** Time of day and weekday of minute `m`, by arithmetic. */
  predicate OnTheClock(t: Stamp, m: nat) {
    t.weekday == (m / DAY + 1) % 7 && t.hour * 60 + t.minute == m % DAY
  }

  lemma {:induction false} DayStep(m: nat)
    ensures m % DAY == DAY - 1 ==> (m + 1) % DAY == 0 && (m + 1) / DAY == m / DAY + 1
    ensures m % DAY != DAY - 1 ==> (m + 1) % DAY == m % DAY + 1 && (m + 1) / DAY == m / DAY
  {
  }

  lemma {:induction false} WeekStep(d: nat)
    ensures ((d + 1) % 7 + 1) % 7 == (d + 2) % 7
  {
  }

  lemma {:induction false} ClockStep(t: Stamp, m: nat)
    requires Valid(t) && OnTheClock(t, m)
    ensures OnTheClock(Next(t), m + 1)
  {
    DayStep(m);
    WeekStep(m / DAY);
  }

  /** The weekday advances once a day, the time of day once a minute. */
  lemma {:induction false} ClockAt(m: nat)
    ensures OnTheClock(At(m), m)
  {
    if m > 0 {
      ClockAt(m - 1);
      ClockStep(At(m - 1), m - 1);
    }
  }
}
