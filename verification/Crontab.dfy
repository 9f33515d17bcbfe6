/** The day rule of the crontab utility in IEEE Std 1003.1-2017 (INPUT FILES) against the scheduler's, which
    always asks for both the date and the weekday. */
module Crontab {
  import opened CronField
  import opened Calendar
  import opened Cron
  import opened CronWindow

  // ---------------------------------------------------------------------------
  // Every date falls on every weekday
  // ---------------------------------------------------------------------------

  /** A date that exists in some year. */
  predicate IsDate(month: nat, day: nat) {
    1 <= month <= 12 && 1 <= day <= MonthDays(4, month)
  }

  /** Days before 1 January, in weeks and a rest: seven ordinary years give all seven rests. */
  lemma {:induction false} OrdinaryYears()
    ensures DaysBeforeYear(1) == 0 && DaysBeforeYear(2) == 365 && DaysBeforeYear(3) == 730
    ensures DaysBeforeYear(5) == 1461 && DaysBeforeYear(6) == 1826
    ensures DaysBeforeYear(9) == 2922 && DaysBeforeYear(10) == 3287
  {
    assert DaysBeforeYear(4) == 1095;
    assert DaysBeforeYear(7) == 2191;
    assert DaysBeforeYear(8) == 2556;
  }

  function OrdinaryYear(r: nat): (y: nat)
    requires r < 7
    ensures 1 <= y && !Leap(y)
  {
    if r == 0 then 1 else if r == 1 then 2 else if r == 2 then 3 else if r == 3 then 9
    else if r == 4 then 10 else if r == 5 then 5 else 6
  }

  lemma {:induction false} OrdinaryRest(r: nat)
    requires r < 7
    ensures DaysBeforeYear(OrdinaryYear(r)) % 7 == r
  {
    OrdinaryYears();
  }

  /** So do the first seven leap years. */
  lemma {:induction false} LeapYears()
    ensures DaysBeforeYear(4) == 1095 && DaysBeforeYear(8) == 2556 && DaysBeforeYear(12) == 4017
    ensures DaysBeforeYear(16) == 5478 && DaysBeforeYear(20) == 6939
    ensures DaysBeforeYear(24) == 8400 && DaysBeforeYear(28) == 9861
  {
    OrdinaryYears();
    assert DaysBeforeYear(14) == 4748;
    assert DaysBeforeYear(18) == 6209;
    assert DaysBeforeYear(22) == 7670;
    assert DaysBeforeYear(26) == 9131;
  }

  function LeapYear(r: nat): (y: nat)
    requires r < 7
    ensures 1 <= y && Leap(y)
  {
    if r == 3 then 4 else if r == 1 then 8 else if r == 6 then 12 else if r == 4 then 16
    else if r == 2 then 20 else if r == 0 then 24 else 28
  }

  lemma {:induction false} LeapRest(r: nat)
    requires r < 7
    ensures DaysBeforeYear(LeapYear(r)) % 7 == r
  {
    LeapYears();
  }

  /** The weekday of a date in a year that begins `r` days after a Monday. */
  lemma {:induction false} WeekdayInYear(t: Stamp, r: nat)
    requires Valid(t) && DaysBeforeYear(t.year) % 7 == r
    ensures var k := IndexOf(t);
            0 <= k && SameMinute(At(k), t) && At(k).weekday == (r + DaysBeforeMonth(t.year, t.month) + t.day) % 7
  {
    IndexAt(t);
    var k := IndexOf(t);
    ClockAt(k);
    DayOfMinute(DayIndex(t.year, t.month, t.day), t.hour * 60 + t.minute);
    RestOfSum(DaysBeforeYear(t.year), DaysBeforeMonth(t.year, t.month) + t.day);
  }

  lemma {:induction false} DayOfMinute(d: int, x: nat)
    requires x < DAY
    ensures (d * DAY + x) / DAY == d
  {
  }

  lemma {:induction false} RestOfSum(a: nat, b: nat)
    ensures (a + b) % 7 == (a % 7 + b) % 7
  {
  }

  /** The rest that makes a sum fall on `w`. */
  function Needed(b: nat, w: nat): (r: nat)
    requires w < 7
    ensures r < 7 && (r + b) % 7 == w
  {
    var r := if b % 7 <= w then w - b % 7 else w + 7 - b % 7;
    assert r + b == 7 * (if b % 7 <= w then b / 7 else b / 7 + 1) + w;
    r
  }

  /** Every date, 29 February included, falls on every weekday in some year, at any time of day. */
  lemma {:induction false} EveryDateEveryWeekday(month: nat, day: nat, hour: nat, minute: nat, w: nat) returns (k: nat)
    requires IsDate(month, day) && hour <= 23 && minute <= 59 && w <= 6
    ensures var t := At(k);
            t.month == month && t.day == day && t.hour == hour && t.minute == minute && t.weekday == w
  {
    var leap := month == 2 && day == 29;
    var before := DaysBeforeMonth(if leap then 4 else 1, month);
    var r := Needed(before + day, w);
    var y := if leap then LeapYear(r) else OrdinaryYear(r);
    if leap {
      LeapRest(r);
    } else {
      OrdinaryRest(r);
    }
    MonthTable(y);
    MonthTable(if leap then 4 else 1);
    var t := Stamp(y, month, day, hour, minute, 0);
    WeekdayInYear(t, r);
    k := IndexOf(t);
  }

  // ---------------------------------------------------------------------------
  // The two day rules
  // ---------------------------------------------------------------------------

  predicate OnTime(fs: seq<Field>, hour: nat, minute: nat)
    requires FiveFields(fs)
  {
    Means(fs[0], minute) && Means(fs[1], hour)
  }

  predicate OnDay(fs: seq<Field>, month: nat, day: nat)
    requires FiveFields(fs)
  {
    Means(fs[2], day) && Means(fs[3], month)
  }

  predicate OnWeekday(fs: seq<Field>, weekday: nat)
    requires FiveFields(fs)
  {
    Means(fs[4], weekday)
  }

  /** Both the date and the weekday are restricted. */
  predicate BothRestricted(fs: seq<Field>)
    requires FiveFields(fs)
  {
    fs[4] != Any && (fs[2] != Any || fs[3] != Any)
  }

  /** The standard's rule: a day matches either of two restrictions. */
  predicate CrontabAt(fs: seq<Field>, t: Stamp)
    requires FiveFields(fs)
  {
    && OnTime(fs, t.hour, t.minute)
    && if BothRestricted(fs) then OnDay(fs, t.month, t.day) || OnWeekday(fs, t.weekday)
       else OnDay(fs, t.month, t.day) && OnWeekday(fs, t.weekday)
  }

  /** Some time of day is in the minute and hour fields. */
  predicate HasTime(fs: seq<Field>)
    requires FiveFields(fs)
  {
    exists h: nat, mi: nat | h <= 23 && mi <= 59 :: OnTime(fs, h, mi)
  }

  /** Every date and every weekday is in its fields, or none is. */
  predicate AllDays(fs: seq<Field>, b: bool)
    requires FiveFields(fs)
  {
    && (forall m: nat, d: nat | m <= 12 && d <= 31 && IsDate(m, d) :: OnDay(fs, m, d) == b)
    && (forall w: nat | w <= 6 :: OnWeekday(fs, w) == b)
  }

  /** What a caller can read off the fields: no time of day at all, no double restriction, or restrictions
      that between them leave every day or no day. */
  predicate Unaffected(fs: seq<Field>)
    requires FiveFields(fs)
  {
    !HasTime(fs) || !BothRestricted(fs) || AllDays(fs, true) || AllDays(fs, false)
  }

  lemma {:induction false} SameWhenUnaffected(fs: seq<Field>, t: Stamp)
    requires FiveFields(fs) && Unaffected(fs) && Valid(t)
    ensures FiresAt(fs, t) <==> CrontabAt(fs, t)
  {
    assert IsDate(t.month, t.day);
    assert OnTime(fs, t.hour, t.minute) ==> HasTime(fs);
    assert AllDays(fs, true) ==> OnDay(fs, t.month, t.day) && OnWeekday(fs, t.weekday);
    assert AllDays(fs, false) ==> !OnDay(fs, t.month, t.day) && !OnWeekday(fs, t.weekday);
  }

  /** A date and a weekday of which the fields have exactly one. */
  lemma {:induction false} OddDay(fs: seq<Field>) returns (m: nat, d: nat, w: nat)
    requires FiveFields(fs) && !AllDays(fs, true) && !AllDays(fs, false)
    ensures IsDate(m, d) && w <= 6 && OnDay(fs, m, d) != OnWeekday(fs, w)
  {
    m, d, w := 1, 1, 0;
    var b := OnDay(fs, 1, 1);
    if OnWeekday(fs, 0) == b {
      assert !AllDays(fs, b);
      if m', d' :| m' <= 12 && d' <= 31 && IsDate(m', d') && OnDay(fs, m', d') != b {
        m, d := m', d';
      } else {
        w :| w <= 6 && OnWeekday(fs, w) != b;
      }
    }
  }

  /** A minute at which the two rules differ: the standard fires, the scheduler does not. */
  lemma {:induction false} FailingMinute(fs: seq<Field>) returns (k: nat)
    requires FiveFields(fs) && !Unaffected(fs)
    ensures CrontabAt(fs, At(k)) && !FiresAt(fs, At(k))
  {
    var h: nat, mi: nat :| h <= 23 && mi <= 59 && OnTime(fs, h, mi);
    var m, d, w := OddDay(fs);
    k := EveryDateEveryWeekday(m, d, h, mi, w);
  }

  /** The scheduler keeps the standard's day rule exactly when its fields leave the choice between "and" and
      "or" without effect. */
  lemma {:induction false} AgreesWithCrontabIff(fs: seq<Field>)
    requires FiveFields(fs)
    ensures (forall k: nat :: FiresAt(fs, At(k)) <==> CrontabAt(fs, At(k))) <==> Unaffected(fs)
  {
    if Unaffected(fs) {
      forall k: nat
        ensures FiresAt(fs, At(k)) <==> CrontabAt(fs, At(k))
      {
        SameWhenUnaffected(fs, At(k));
      }
    } else {
      var k := FailingMinute(fs);
    }
  }

  /** So for such fields ParseCron finds the standard's next minute, and fails only when its window has none. */
  lemma {:induction false} FindsCrontabMinute(fs: seq<Field>, standard: nat -> bool, m: nat, k: nat)
    requires FiveFields(fs) && Unaffected(fs)
    requires forall j: nat :: standard(j) <==> CrontabAt(fs, At(j))
    ensures NextAfter(Expression(fs), m) == NextRun(k) <==> FirstOf(standard, m, k)
    ensures NextAfter(Expression(fs), m) == NoMatch <==> NoneOf(standard, m)
  {
    forall j: nat
      ensures standard(j) <==> FiresAt(fs, At(j))
    {
      SameWhenUnaffected(fs, At(j));
    }
    PrintedSchedule(fs, standard, m, k);
  }

  // ---------------------------------------------------------------------------
  // Steps
  // ---------------------------------------------------------------------------

  /** The multiples of a step are its offsets from the field's minimum exactly when the minimum is one of
      them. */
  lemma {:induction false} StepsAreOffsetsIff(n: nat, lo: nat, hi: nat)
    requires WellFormed(Every(n)) && lo <= hi
    ensures (forall v: nat | lo <= v <= hi :: Means(Every(n), v) <==> (v - lo) % n == 0) <==> lo % n == 0
  {
    if lo % n == 0 {
      forall v: nat | lo <= v <= hi
        ensures Means(Every(n), v) <==> (v - lo) % n == 0
      {
        StepShift(n, lo / n, v - lo);
      }
    } else {
      assert Means(Every(n), lo) <==> lo % n == 0;
    }
  }

  lemma {:induction false} StepShift(n: nat, q: nat, x: nat)
    requires n > 0
    ensures (n * q + x) % n == x % n
  {
    if q > 0 {
      StepShift(n, q - 1, x);
      assert n * q + x == n * (q - 1) + x + n;
      OneStep(n, n * (q - 1) + x);
    } else {
      assert n * q == 0;
    }
  }

  lemma {:induction false} OneStep(n: nat, y: nat)
    requires n > 0
    ensures (y + n) % n == y % n
  {
    assert y == n * (y / n) + y % n;
    RestIs(n, (y + n) / n - y / n - 1, (y + n) % n - y % n);
  }

  lemma {:induction false} RestIs(n: int, a: int, r: int)
    requires 0 - n < r < n && n * a + r == 0
    ensures r == 0
  {
    assert a >= 1 ==> n * a >= n;
    assert a <= -1 ==> n * a <= 0 - n;
    assert a == 0 ==> n * a == 0;
  }
}
