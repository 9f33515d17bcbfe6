/** Expressions printed from field trees: what ParseCron finds for them, and that its window of
    366 days is just enough for every yearly date. */
module CronWindow {
  import opened Jobs
  import opened Text
  import opened CronField
  import opened Calendar
  import opened Cron

  predicate FiveFields(fs: seq<Field>) {
    |fs| == 5 && forall f <- fs :: WellFormed(f)
  }

  predicate FiresAt(fs: seq<Field>, t: Stamp)
    requires FiveFields(fs)
  {
    && Means(fs[0], t.minute) && Means(fs[1], t.hour) && Means(fs[2], t.day)
    && Means(fs[3], t.month) && Means(fs[4], t.weekday)
  }

  function Expression(fs: seq<Field>): string {
    Join(PrintAll(fs), ' ')
  }

  function Says(fs: seq<Field>): nat -> Verdict
    requires FiveFields(fs)
  {
    Verdicts(Matcher(PrintAll(fs)))
  }

  lemma {:induction false} SaysFires(fs: seq<Field>, k: nat)
    requires FiveFields(fs)
    ensures Says(fs)(k) == Test(FiresAt(fs, At(k)))
  {
    var t := At(k);
    MatchPrinted(fs[0], t.minute);
    MatchPrinted(fs[1], t.hour);
    MatchPrinted(fs[2], t.day);
    MatchPrinted(fs[3], t.month);
    MatchPrinted(fs[4], t.weekday);
  }

  /** `k` is the earliest minute of the window after `m` that is in `fires`. */
  ghost predicate FirstOf(fires: nat -> bool, m: nat, k: nat) {
    m < k <= m + WINDOW && fires(k) && forall j :: m < j < k ==> !fires(j)
  }

  ghost predicate NoneOf(fires: nat -> bool, m: nat) {
    forall j :: m < j <= m + WINDOW ==> !fires(j)
  }

  lemma {:induction false} SearchBy(says: nat -> Verdict, fires: nat -> bool, m: nat, k: nat)
    requires forall j: nat :: says(j) == Test(fires(j))
    ensures var r := Search(says, m + 1, m + 1 + WINDOW);
            && (r == NextRun(k) <==> FirstOf(fires, m, k))
            && (r == NoMatch <==> NoneOf(fires, m))
            && (r.NextRun? || r.NoMatch?)
  {
    SearchIsFirst(says, m, k);
  }

  /** ParseCron on an expression printed from well-formed fields finds exactly the earliest minute of the
      window at which the fields fire, fails exactly when there is none, and never panics. */
  lemma {:induction false} PrintedSchedule(fs: seq<Field>, fires: nat -> bool, m: nat, k: nat)
    requires FiveFields(fs) && forall j: nat :: fires(j) <==> FiresAt(fs, At(j))
    ensures var r := NextAfter(Expression(fs), m);
            && (r == NextRun(k) <==> FirstOf(fires, m, k))
            && (r == NoMatch <==> NoneOf(fires, m))
            && (r.NextRun? || r.NoMatch?)
  {
    FieldsRoundTrip(fs);
    var says := Says(fs);
    assert forall j: nat :: says(j) == Test(fires(j)) by {
      forall j: nat
        ensures says(j) == Test(fires(j))
      {
        SaysFires(fs, j);
      }
    }
    SearchBy(says, fires, m, k);
  }

  // ---------------------------------------------------------------------------
  // Yearly dates
  // ---------------------------------------------------------------------------

  datatype Date = Date(month: nat, day: nat, hour: nat, minute: nat) {
    predicate InYear(y: nat) {
      1 <= month <= 12 && 1 <= day <= MonthDays(y, month) && hour <= 23 && minute <= 59
    }

    /** A date that exists every year. */
    predicate EveryYear() {
      1 <= month <= 12 && 1 <= day <= (if month == 2 then 28 else MonthDays(1, month)) && hour <= 23 && minute <= 59
    }

    function In(y: nat): int {
      Index(y, month, day, hour, minute)
    }

    /** "minute hour day month *" */
    function Fields(): seq<Field> {
      [Exactly(minute), Exactly(hour), Exactly(day), Exactly(month), Any]
    }
  }

  predicate Falls(t: Stamp, c: Date) {
    t.month == c.month && t.day == c.day && t.hour == c.hour && t.minute == c.minute
  }

  function OnDate(c: Date): nat -> bool {
    (j: nat) => Falls(At(j), c)
  }

  lemma {:induction false} DateSearch(c: Date, m: nat, k: nat)
    requires c.month <= 12 && c.day <= 31 && c.hour <= 23 && c.minute <= 59
    ensures var r := NextAfter(Expression(c.Fields()), m);
            && (r == NextRun(k) <==> FirstOf(OnDate(c), m, k))
            && (r == NoMatch <==> NoneOf(OnDate(c), m))
            && (r.NextRun? || r.NoMatch?)
  {
    forall j: nat
      ensures OnDate(c)(j) <==> FiresAt(c.Fields(), At(j))
    {
      FiresIffFalls(c, At(j));
    }
    PrintedSchedule(c.Fields(), OnDate(c), m, k);
  }

  lemma {:induction false} FiresIffFalls(c: Date, t: Stamp)
    requires c.month <= 12 && c.day <= 31 && c.hour <= 23 && c.minute <= 59
    ensures FiveFields(c.Fields()) && (FiresAt(c.Fields(), t) <==> Falls(t, c))
  {
  }

  lemma {:induction false} DateFound(c: Date, m: nat)
    requires c.month <= 12 && c.day <= 31 && c.hour <= 23 && c.minute <= 59
    ensures NextAfter(Expression(c.Fields()), m).NextRun? <==> !NoneOf(OnDate(c), m)
  {
    DateSearch(c, m, 0);
  }

  /** The minute number of the date in year `y` lies within that year. */
  lemma {:induction false} InItsYear(c: Date, y: nat)
    requires 1 <= y && c.InYear(y)
    ensures DaysBeforeYear(y) * DAY <= c.In(y) < DaysBeforeYear(y + 1) * DAY
    ensures Falls(At(c.In(y)), c) && At(c.In(y)).year == y
  {
    var t := Stamp(y, c.month, c.day, c.hour, c.minute, 0);
    DayOfYearBound(y, c.month, c.day);
    IndexAt(t);
  }

  lemma {:induction false} MinuteInYear(m: nat)
    ensures var y := At(m).year; 1 <= y && DaysBeforeYear(y) * DAY <= m < DaysBeforeYear(y + 1) * DAY
  {
    var t := At(m);
    AtIndex(m);
    DayOfYearBound(t.year, t.month, t.day);
  }

  /** A minute on the date is the date's minute in its year. */
  lemma {:induction false} FallsIndex(c: Date, k: nat)
    requires Falls(At(k), c)
    ensures c.InYear(At(k).year) && k == c.In(At(k).year)
  {
    AtIndex(k);
  }

  lemma {:induction false} YearGap(c: Date, y: nat)
    requires 1 <= y && c.EveryYear()
    ensures c.InYear(y) && 365 * DAY <= c.In(y + 1) - c.In(y) <= 366 * DAY
  {
    MonthTable(y);
    MonthTable(y + 1);
  }

  /** The next occurrence of a yearly date comes within the window. */
  lemma {:induction false} OccursSoon(c: Date, m: nat) returns (k: nat)
    requires c.EveryYear()
    ensures m < k <= m + WINDOW && Falls(At(k), c)
  {
    var y := At(m).year;
    MinuteInYear(m);
    YearGap(c, y);
    YearGap(c, y + 1);
    InItsYear(c, y);
    InItsYear(c, y + 1);
    k := if m < c.In(y) then c.In(y) else c.In(y + 1);
  }

  /** Search window suffices: from every start, ParseCron finds every date that exists each year. */
  lemma {:induction false} YearlyAlwaysFound(c: Date, m: nat)
    requires c.EveryYear()
    ensures NextAfter(Expression(c.Fields()), m).NextRun?
  {
    var k := OccursSoon(c, m);
    assert OnDate(c)(k);
    DateSearch(c, m, k);
  }

  /** And what it finds is the date's next occurrence: from the occurrence in year `y`, the one in `y` + 1. */
  lemma {:induction false} YearlyAdvances(c: Date, y: nat)
    requires 1 <= y && c.EveryYear()
    ensures 0 <= c.In(y) && 0 <= c.In(y + 1)
    ensures NextAfter(Expression(c.Fields()), c.In(y)) == NextRun(c.In(y + 1))
  {
    YearGap(c, y);
    YearGap(c, y + 1);
    InItsYear(c, y);
    InItsYear(c, y + 1);
    NextOccurrence(c, y, c.In(y), c.In(y + 1));
    DateSearch(c, c.In(y), c.In(y + 1));
  }

  lemma {:induction false} NextOccurrence(c: Date, y: nat, m: nat, k: nat)
    requires 1 <= y && c.EveryYear() && m == c.In(y) && k == c.In(y + 1) && m < k <= m + WINDOW && Falls(At(k), c)
    ensures FirstOf(OnDate(c), m, k)
  {
    forall j | m < j < k
      ensures !OnDate(c)(j)
    {
      if Falls(At(j), c) {
        BetweenYears(c, y, j);
      }
    }
  }

  lemma {:induction false} BetweenYears(c: Date, y: nat, j: nat)
    requires 1 <= y && c.EveryYear() && Falls(At(j), c)
    ensures j <= c.In(y) || c.In(y + 1) <= j
  {
    FallsIndex(c, j);
    var z := At(j).year;
    OccurrencesOrdered(c, z, y);
    OccurrencesOrdered(c, y + 1, z);
  }

  lemma {:induction false} OccurrencesOrdered(c: Date, a: nat, b: nat)
    requires 1 <= b && c.EveryYear()
    ensures 1 <= a <= b ==> c.In(a) <= c.In(b)
    decreases b
  {
    if 1 <= a < b {
      OccurrencesOrdered(c, a, b - 1);
      YearGap(c, b - 1);
    }
  }

  /** The window is tight: 1 March to 1 March of a leap year takes all of its 366 days. */
  lemma {:induction false} WindowIsTight(y: nat, c: Date)
    requires 1 <= y && c == Date(3, 1, 0, 0)
    ensures 0 <= c.In(y) && 0 <= c.In(y + 1)
    ensures NextAfter(Expression(c.Fields()), c.In(y)) == NextRun(c.In(y + 1))
    ensures c.In(y + 1) == c.In(y) + WINDOW <==> Leap(y + 1)
  {
    YearlyAdvances(c, y);
    MarchGap(y, c);
  }

  lemma {:induction false} MarchGap(y: nat, c: Date)
    requires 1 <= y && c == Date(3, 1, 0, 0)
    ensures c.In(y + 1) == c.In(y) + WINDOW <==> Leap(y + 1)
  {
    MonthTable(y);
    MonthTable(y + 1);
  }

  // ---------------------------------------------------------------------------
  // 29 February
  // ---------------------------------------------------------------------------

  ghost predicate LeapDayAhead(c: Date, m: nat, y: nat) {
    Leap(y) && m < c.In(y) <= m + WINDOW
  }

  /** For 29 February the window is not enough: ParseCron succeeds exactly when this year or the next is a
      leap year whose 29 February still lies within 366 days. */
  lemma {:induction false} LeapDayFound(c: Date, m: nat, y: nat)
    requires c.month == 2 && c.day == 29 && c.hour <= 23 && c.minute <= 59 && y == At(m).year
    ensures NextAfter(Expression(c.Fields()), m).NextRun? <==> LeapDayAhead(c, m, y) || LeapDayAhead(c, m, y + 1)
  {
    DateFound(c, m);
    LeapDayInWindow(c, m, y);
  }

  lemma {:induction false} LeapDayInWindow(c: Date, m: nat, y: nat)
    requires c.month == 2 && c.day == 29 && c.hour <= 23 && c.minute <= 59 && y == At(m).year
    ensures NoneOf(OnDate(c), m) <==> !LeapDayAhead(c, m, y) && !LeapDayAhead(c, m, y + 1)
  {
    MinuteInYear(m);
    if LeapDayAhead(c, m, y) {
      LeapDayFires(c, m, y);
    } else if LeapDayAhead(c, m, y + 1) {
      LeapDayFires(c, m, y + 1);
    } else {
      NoLeapDay(c, m, y);
    }
  }

  lemma {:induction false} NoLeapDay(c: Date, m: nat, y: nat)
    requires c.month == 2 && c.day == 29 && y == At(m).year
    requires !LeapDayAhead(c, m, y) && !LeapDayAhead(c, m, y + 1)
    ensures NoneOf(OnDate(c), m)
  {
    forall j | m < j <= m + WINDOW
      ensures !OnDate(c)(j)
    {
      if Falls(At(j), c) {
        LeapDayYear(c, m, y, j, At(j).year);
      }
    }
  }

  lemma {:induction false} LeapDayFires(c: Date, m: nat, y: nat)
    requires c.month == 2 && c.day == 29 && c.hour <= 23 && c.minute <= 59 && 1 <= y && LeapDayAhead(c, m, y)
    ensures !NoneOf(OnDate(c), m)
  {
    InItsYear(c, y);
    assert OnDate(c)(c.In(y));
  }

  lemma {:induction false} LeapDayYear(c: Date, m: nat, y: nat, j: nat, z: nat)
    requires c.month == 2 && c.day == 29 && Falls(At(j), c) && m < j <= m + WINDOW
    requires y == At(m).year && z == At(j).year
    ensures LeapDayAhead(c, m, y) || LeapDayAhead(c, m, y + 1)
  {
    FallsIndex(c, j);
    assert DaysBeforeMonth(z, 1) == 0 && DaysBeforeMonth(z, 2) == 31;
    assert Leap(z) && j == c.In(z) && j >= (DaysBeforeYear(z) + 59) * DAY;
    MinuteInYear(m);
    MinuteInYear(j);
    YearNear(m, y, j, z);
  }

  /** The year of a 29 February within the window is this one or the next. */
  lemma {:induction false} YearNear(m: nat, y: nat, j: nat, z: nat)
    requires 1 <= y && 1 <= z && m < j <= m + WINDOW
    requires DaysBeforeYear(y) * DAY <= m < DaysBeforeYear(y + 1) * DAY
    requires (DaysBeforeYear(z) + 59) * DAY <= j < DaysBeforeYear(z + 1) * DAY
    ensures z == y || z == y + 1
  {
    assert DaysBeforeYear(y + 2) == DaysBeforeYear(y + 1) + YearDays(y + 1);
    if z < y {
      YearsMonotone(z + 1, y);
    } else if z > y + 1 {
      YearsMonotone(y + 2, z);
    }
  }
}
