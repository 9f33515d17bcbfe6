/** A definition for 29 February: found before its day, it then fires on every tick until the window of
    ParseCron reaches the next leap year. */
module LeapDayRuns {
  import opened Jobs
  import opened Calendar
  import opened Cron
  import opened CronWindow
  import opened CronRuns

  predicate IsLeapDay(c: Date) {
    c.month == 2 && c.day == 29 && c.hour <= 23 && c.minute <= 59
  }

  lemma {:induction false} LeapIsFourth(y: nat)
    requires Leap(y)
    ensures y % 4 == 0
  {
    if y % 400 == 0 {
      assert y == 4 * (100 * (y / 400));
    }
  }

  lemma {:induction false} NotLeapSoon(y: nat, n: nat)
    requires Leap(y) && 1 <= n <= 3
    ensures !Leap(y + n)
  {
    LeapIsFourth(y);
    if Leap(y + n) {
      LeapIsFourth(y + n);
    }
  }

  /** A 29 February in the window is the only one, and it is what ParseCron returns. */
  lemma {:induction false} LeapDayIsNext(c: Date, m: nat, y: nat)
    requires IsLeapDay(c) && 1 <= y && LeapDayAhead(c, m, y)
    ensures NextAfter(Expression(c.Fields()), m) == NextRun(c.In(y))
  {
    InItsYear(c, y);
    var k: nat := c.In(y);
    assert OnDate(c)(k);
    forall j | m < j < k
      ensures !OnDate(c)(j)
    {
      if Falls(At(j), c) {
        OnlyOneInWindow(c, j, k, y);
      }
    }
    assert FirstOf(OnDate(c), m, k);
    DateSearch(c, m, k);
  }

  lemma {:induction false} LeapDayIndex(c: Date, y: nat)
    requires IsLeapDay(c)
    ensures c.In(y) == (DaysBeforeYear(y) + 59) * DAY + c.hour * 60 + c.minute
  {
    assert DaysBeforeMonth(y, 1) == 0 && DaysBeforeMonth(y, 2) == 31;
  }

  lemma {:induction false} OnlyOneInWindow(c: Date, j: nat, k: nat, y: nat)
    requires IsLeapDay(c) && 1 <= y && Leap(y) && k == c.In(y) && Falls(At(j), c) && j < k
    ensures k > j + WINDOW
  {
    FallsIndex(c, j);
    var z := At(j).year;
    assert 1 <= z && Leap(z) && j == c.In(z);
    LeapDayIndex(c, z);
    LeapDayIndex(c, y);
    LeapYearsApart(z, y);
  }

  lemma {:induction false} LeapYearsApart(z: nat, y: nat)
    requires 1 <= z && 1 <= y && Leap(z) && Leap(y)
    ensures DaysBeforeYear(z) < DaysBeforeYear(y) ==> DaysBeforeYear(z) + 366 < DaysBeforeYear(y)
  {
    if y <= z {
      YearsMonotone(y, z);
    } else {
      if y == z + 1 {
        NotLeapSoon(z, 1);
      }
      YearsMonotone(z + 2, y);
      assert DaysBeforeYear(z + 2) == DaysBeforeYear(z + 1) + YearDays(z + 1);
    }
  }

  lemma {:induction false} YearNotBefore(k: int, m: nat, y: nat, z: nat)
    requires 1 <= y && 1 <= z && DaysBeforeYear(y) * DAY <= k <= m < DaysBeforeYear(z + 1) * DAY
    ensures y <= z
  {
    if z < y {
      YearsMonotone(z + 1, y);
    }
  }

  lemma {:induction false} NoneAhead(c: Date, m: nat, y: nat, z: nat)
    requires Leap(y) && c.In(y) <= m && y <= z <= y + 3
    ensures !LeapDayAhead(c, m, z)
  {
    if y < z {
      NotLeapSoon(y, z - y);
    }
  }

  lemma {:induction false} YearFrom(c: Date, m: nat, y: nat, z: nat)
    requires IsLeapDay(c) && 1 <= y && Leap(y) && c.In(y) <= m && z == At(m).year
    ensures y <= z
  {
    var k := c.In(y);
    assert DaysBeforeYear(y) * DAY <= k by {
      InItsYear(c, y);
    }
    assert 1 <= z && m < DaysBeforeYear(z + 1) * DAY by {
      MinuteInYear(m);
    }
    YearNotBefore(k, m, y, z);
  }

  /** No 29 February is in the window after minute `m`. */
  ghost predicate OutOfReach(c: Date, m: nat) {
    !LeapDayAhead(c, m, At(m).year) && !LeapDayAhead(c, m, At(m).year + 1)
  }

  /** The gap lasts from the day in leap year `y` at least to the end of year `y` + 2. */
  lemma {:induction false} GapLasts(c: Date, m: nat, y: nat, z: nat)
    requires IsLeapDay(c) && 1 <= y && Leap(y) && c.In(y) <= m && z == At(m).year <= y + 2
    ensures OutOfReach(c, m)
  {
    YearFrom(c, m, y, z);
    NoneAhead(c, m, y, z);
    NoneAhead(c, m, y, z + 1);
  }

  lemma {:induction false} NoneFound(c: Date, m: nat)
    requires IsLeapDay(c) && OutOfReach(c, m)
    ensures !NextAfter(Expression(c.Fields()), m).NextRun?
  {
    LeapDayFound(c, m, At(m).year);
  }

  /** A poll after the day of year `y`, with the next one out of reach. */
  ghost predicate InTheGap(c: Date, y: nat, p: Poll) {
    c.In(y) * MINUTE_NS < p.now && OutOfReach(c, MinuteOf(p.later))
  }

  lemma {:induction false} Registered(c: Date, y: nat, req: Request, id: JobId, at: nat)
    requires IsLeapDay(c) && 1 <= y && LeapDayAhead(c, MinuteOf(at), y)
    requires ValidRequest(req) && req.cron == Expression(c.Fields())
    ensures Register(Crons(map[], [], map[]), id, req, at, true)
            == Crons(map[id := Definition(req.cron, c.In(y))], [], map[id := MinuteOf(at)])
  {
    LeapDayIsNext(c, MinuteOf(at), y);
  }

  /** A 29 February definition, registered within 366 days before its day in leap year `y`: whichever ticks
      follow that day while the next 29 February is out of reach, every one of them fires an instance, all
      for the same minute, and the definition never moves. */
  lemma {:induction false} LeapDayFiresEveryTick(c: Date, y: nat, req: Request, id: JobId, at: nat, ps: seq<Poll>)
    requires IsLeapDay(c) && 1 <= y && LeapDayAhead(c, MinuteOf(at), y)
    requires ValidRequest(req) && req.cron == Expression(c.Fields())
    requires forall p <- ps :: InTheGap(c, y, p)
    ensures 0 <= c.In(y)
    ensures After(Crons(map[], [], map[]), [Add(id, req, at, true)] + Polls(id, ps))
            == Crons(map[id := Definition(req.cron, c.In(y))], Repeats(id, c.In(y), ps), map[id := MinuteOf(at)])
  {
    InItsYear(c, y);
    var s := Crons(map[id := Definition(req.cron, c.In(y))], [], map[id := MinuteOf(at)]);
    var e, es := Add(id, req, at, true), Polls(id, ps);
    Registered(c, y, req, id, at);
    forall p <- ps
      ensures Due(s.defs[id], p.now) && !NextAfter(s.defs[id].expr, MinuteOf(p.later)).NextRun?
    {
      NoneFound(c, MinuteOf(p.later));
    }
    StuckFiresEveryTick(s, id, ps);
    assert ([e] + es)[1..] == es;
    assert [] + Repeats(id, c.In(y), ps) == Repeats(id, c.In(y), ps);
  }

  /** The first tick whose window reaches the 29 February of a leap year `z` moves the definition there. */
  lemma {:induction false} LeapDayRecovers(c: Date, s: Crons, id: JobId, p: Poll, z: nat)
    requires IsLeapDay(c) && 1 <= z && LeapDayAhead(c, MinuteOf(p.later), z)
    requires id in s.defs && s.defs[id].expr == Expression(c.Fields()) && Due(s.defs[id], p.now)
    ensures id in After(s, Polls(id, [p])).defs && After(s, Polls(id, [p])).defs[id].next == c.In(z)
  {
    LeapDayIsNext(c, MinuteOf(p.later), z);
    var es := Polls(id, [p]);
    var t := Turn(id, p.later, true, true);
    assert [t][1..] == [] && es[1..] == [];
    assert TakeTurns(s, p.now, [t]) == TakeTurn(s, p.now, t);
  }
}
