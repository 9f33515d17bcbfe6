/** ParseCron: the next matching minute, searched one minute at a time over a bounded window. */
module Cron {
  import opened Jobs
  import opened Text
  import opened CronField
  import opened Calendar

  const MINUTE_NS := 60_000_000_000
  const WINDOW := 366 * 24 * 60

  datatype Result = NextRun(minute: nat) | WrongFieldCount(n: nat) | NoMatch | Panicked

  function Then(a: Verdict, b: Verdict): Verdict {
    if a == Yes then b else a
  }

  /** All five fields, left to right. */
  function MatchStamp(parts: seq<string>, t: Stamp): Verdict
    requires |parts| == 5
  {
    Then(MatchField(parts[0], t.minute),
    Then(MatchField(parts[1], t.hour),
    Then(MatchField(parts[2], t.day),
    Then(MatchField(parts[3], t.month),
         MatchField(parts[4], t.weekday)))))
  }

  /** Instants are nanoseconds since minute 0. */
  function MinuteOf(instant: nat): nat {
    instant / MINUTE_NS
  }

  function Matcher(parts: seq<string>): Stamp -> Verdict
    requires |parts| == 5
  {
    (t: Stamp) => MatchStamp(parts, t)
  }

  /** What each minute says to an expression. */
  function Verdicts(matcher: Stamp -> Verdict): nat -> Verdict {
    (k: nat) => matcher(At(k))
  }

  /** The search from minute `k` on, up to but excluding minute `end`. */
  function Search(says: nat -> Verdict, k: nat, end: nat): (r: Result)
    ensures r.NextRun? ==> k <= r.minute < end
    decreases end - k
  {
    if end <= k then NoMatch
    else match says(k)
      case Yes => NextRun(k)
      case Panics => Panicked
      case No => Search(says, k + 1, end)
  }

  function NextAfter(expr: string, m: nat): Result {
    var parts := Words(expr);
    if |parts| != 5 then WrongFieldCount(|parts|)
    else Search(Verdicts(Matcher(parts)), m + 1, m + 1 + WINDOW)
  }

  method ParseCron(expr: string, from: nat) returns (r: Result)
    ensures r == NextAfter(expr, MinuteOf(from))
    ensures r.NextRun? ==> from < r.minute * MINUTE_NS
    ensures r.NextRun? ==>
              && |Words(expr)| == 5 && Verdicts(Matcher(Words(expr)))(r.minute) == Yes
              && forall j :: 0 <= j < r.minute && from < j * MINUTE_NS ==> Verdicts(Matcher(Words(expr)))(j) == No
  {
    var parts := Words(expr);
    if |parts| != 5 {
      return WrongFieldCount(|parts|);
    }
    r := FindMinute(Matcher(parts), MinuteOf(from) + 1);
    if r.NextRun? {
      BoundaryAfter(from, r.minute);
      NoBoundarySkipped(Verdicts(Matcher(parts)), from, r.minute);
    }
  }

  /** Every minute boundary between `from` and the result says no. */
  lemma {:induction false} NoBoundarySkipped(says: nat -> Verdict, from: nat, k: nat)
    requires Search(says, MinuteOf(from) + 1, MinuteOf(from) + 1 + WINDOW) == NextRun(k)
    ensures says(k) == Yes && forall j :: 0 <= j < k && from < j * MINUTE_NS ==> says(j) == No
  {
    SearchFinds(says, MinuteOf(from) + 1, MinuteOf(from) + 1 + WINDOW);
    forall j | 0 <= j < k && from < j * MINUTE_NS
      ensures says(j) == No
    {
      assert j >= MinuteOf(from) + 1;
    }
  }

  lemma {:induction false} BoundaryAfter(from: nat, k: nat)
    requires k > MinuteOf(from)
    ensures from < k * MINUTE_NS
  {
    assert k * MINUTE_NS >= (MinuteOf(from) + 1) * MINUTE_NS;
  }

  /** The loop: `next` runs through the calendar minute by minute. */
  method FindMinute(matches: Stamp -> Verdict, start: nat) returns (r: Result)
    ensures r == Search(Verdicts(matches), start, start + WINDOW)
  {
    var next := At(start);
    ghost var says := Verdicts(matches);
    var i := 0;
    while i < WINDOW
      invariant 0 <= i <= WINDOW
      invariant next == At(start + i)
      invariant Search(says, start, start + WINDOW) == Search(says, start + i, start + WINDOW)
    {
      var v := matches(next);
      assert v == says(start + i);
      if v == Yes {
        return NextRun(start + i);
      }
      if v == Panics {
        return Panicked;
      }
      assert Calendar.Next(next) == At(start + i + 1);
      next := Calendar.Next(next);
      i := i + 1;
    }
    return NoMatch;
  }

  // ---------------------------------------------------------------------------
  // The earliest match
  // ---------------------------------------------------------------------------

  /** `k` is the first minute of the window after `m` that does not say no. */
  ghost predicate FirstHit(says: nat -> Verdict, m: nat, k: nat) {
    m < k <= m + WINDOW && says(k) != No && forall j :: m < j < k ==> says(j) == No
  }

  lemma {:induction false} SearchFinds(says: nat -> Verdict, k: nat, end: nat)
    ensures match Search(says, k, end)
      case NextRun(x) => k <= x < end && says(x) == Yes && forall j :: k <= j < x ==> says(j) == No
      case NoMatch => forall j :: k <= j < end ==> says(j) == No
      case Panicked => exists x :: k <= x < end && says(x) == Panics && forall j :: k <= j < x ==> says(j) == No
      case WrongFieldCount(_) => false
    decreases end - k
  {
    if k < end && says(k) == No {
      SearchFinds(says, k + 1, end);
      if Search(says, k, end).Panicked? {
        var x :| k + 1 <= x < end && says(x) == Panics && forall j :: k + 1 <= j < x ==> says(j) == No;
      }
    }
  }

  lemma {:induction false} SearchIsFirst(says: nat -> Verdict, m: nat, k: nat)
    ensures var r := Search(says, m + 1, m + 1 + WINDOW);
            && !r.WrongFieldCount?
            && (r == NextRun(k) <==> FirstHit(says, m, k) && says(k) == Yes)
            && (r.Panicked? <==> exists x :: FirstHit(says, m, x) && says(x) == Panics)
            && (r.NoMatch? <==> forall x :: m < x <= m + WINDOW ==> says(x) == No)
  {
    SearchFinds(says, m + 1, m + 1 + WINDOW);
    var r := Search(says, m + 1, m + 1 + WINDOW);
    if r.Panicked? {
      var x :| m + 1 <= x < m + 1 + WINDOW && says(x) == Panics && forall j :: m + 1 <= j < x ==> says(j) == No;
      assert FirstHit(says, m, x);
    }
  }

  /** ParseCron returns exactly the earliest matching minute after `from` in the window, and fails exactly
      when the field count is not five or nothing in the window matches (or a zero step is met first). */
  lemma {:induction false} EarliestMatch(expr: string, m: nat, k: nat)
    ensures var r := NextAfter(expr, m);
            var parts := Words(expr);
            && (r.WrongFieldCount? <==> |parts| != 5)
            && (|parts| == 5 ==>
              var says := Verdicts(Matcher(parts));
              && (r == NextRun(k) <==> FirstHit(says, m, k) && says(k) == Yes)
              && (r.Panicked? <==> exists x :: FirstHit(says, m, x) && says(x) == Panics)
              && (r.NoMatch? <==> forall x :: m < x <= m + WINDOW ==> says(x) == No))
  {
    var parts := Words(expr);
    if |parts| == 5 {
      SearchIsFirst(Verdicts(Matcher(parts)), m, k);
    }
  }
}
