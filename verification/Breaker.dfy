/** The circuit breaker, against the log of the outcomes it recorded. */
module Breaker {

  datatype State = Closed | Open | HalfOpen

  datatype Circuit = Circuit(failures: nat, threshold: int, timeout: int, lastFailure: int, state: State)

  function New(threshold: int, timeout: int): Circuit {
    Circuit(0, threshold, timeout, 0, Closed)
  }

  function Allow(c: Circuit, now: int): (Circuit, bool) {
    match c.state
    case Closed => (c, true)
    case HalfOpen => (c, true)
    case Open => if now - c.lastFailure > c.timeout then (c.(state := HalfOpen), true) else (c, false)
  }

  function Success(c: Circuit): Circuit {
    c.(failures := 0, state := if c.state == HalfOpen then Closed else c.state)
  }

  function Failure(c: Circuit, now: int): Circuit {
    c.(failures := c.failures + 1, lastFailure := now,
       state := if c.failures + 1 >= c.threshold then Open else c.state)
  }

  /** Each method first tries to take the mutex; when another call holds it, `contended`, it does nothing
      and Allow says no. */
  class CircuitBreaker {
    var failures: nat
    const threshold: int
    const timeout: int
    var lastFailure: int
    var state: State

    ghost function Value(): Circuit
      reads this
    {
      Circuit(failures, threshold, timeout, lastFailure, state)
    }

    constructor (threshold: int, timeout: int)
      ensures Value() == New(threshold, timeout)
    {
      this.threshold, this.timeout := threshold, timeout;
      failures, lastFailure, state := 0, 0, Closed;
    }

    method TryAllow(now: int, contended: bool) returns (allowed: bool)
      modifies this
      ensures contended ==> !allowed && Value() == old(Value())
      ensures !contended ==> (Value(), allowed) == Allow(old(Value()), now)
    {
      if contended {
        return false;
      }
      match state
      case Closed => return true;
      case Open =>
        if now - lastFailure > timeout {
          state := HalfOpen;
          return true;
        }
        return false;
      case HalfOpen => return true;
    }

    method RecordSuccess(contended: bool)
      modifies this
      ensures Value() == if contended then old(Value()) else Success(old(Value()))
    {
      if !contended {
        failures := 0;
        if state == HalfOpen {
          state := Closed;
        }
      }
    }

    method RecordFailure(now: int, contended: bool)
      modifies this
      ensures Value() == if contended then old(Value()) else Failure(old(Value()), now)
    {
      if !contended {
        failures := failures + 1;
        lastFailure := now;
        if failures >= threshold {
          if state != Open {
            state := Open;
          }
        }
      }
    }
  }

  // ---------------------------------------------------------------------------
  // The log
  // ---------------------------------------------------------------------------

  datatype Entry = Good | Bad(at: int)

  datatype Event = Ask(now: int, contended: bool) | Succeed(contended: bool) | Fail(now: int, contended: bool)

  /** Length of the failure-only suffix. */
  function BadSuffix(log: seq<Entry>): nat {
    if log == [] || log[|log| - 1].Good? then 0 else 1 + BadSuffix(log[..|log| - 1])
  }

  function LastBad(log: seq<Entry>): int {
    if log == [] then 0
    else if log[|log| - 1].Bad? then log[|log| - 1].at
    else LastBad(log[..|log| - 1])
  }

  /** `pending`: a call was let through and has not reported yet. */
  datatype Run = Run(c: Circuit, log: seq<Entry>, pending: bool)

  function Step(r: Run, e: Event): Run {
    match e
    case Ask(now, contended) =>
      if contended then r
      else
        var (c, allowed) := Allow(r.c, now);
        r.(c := c, pending := r.pending || allowed)
    case Succeed(contended) =>
      if contended then r else Run(Success(r.c), r.log + [Good], false)
    case Fail(now, contended) =>
      if contended then r else Run(Failure(r.c, now), r.log + [Bad(now)], false)
  }

  function After(r: Run, es: seq<Event>): Run
    decreases |es|
  {
    if es == [] then r else After(Step(r, es[0]), es[1..])
  }

  lemma {:induction false} LogStep(log: seq<Entry>, x: Entry)
    ensures BadSuffix(log + [x]) == if x.Good? then 0 else 1 + BadSuffix(log)
    ensures LastBad(log + [x]) == if x.Good? then LastBad(log) else x.at
  {
    assert (log + [x])[..|log|] == log;
  }

  ghost predicate Counts(r: Run) {
    r.c.failures == BadSuffix(r.log) && r.c.lastFailure == LastBad(r.log)
  }

  lemma {:induction false} CountsStep(r: Run, e: Event)
    requires Counts(r)
    ensures Counts(Step(r, e))
  {
    LogStep(r.log, Good);
    if e.Fail? {
      LogStep(r.log, Bad(e.now));
    }
  }

  /** The counter is the failure-only suffix of the recorded outcomes, whatever is called when and
      however the calls contend. */
  lemma {:induction false} CounterIsSuffix(r: Run, es: seq<Event>)
    requires Counts(r)
    ensures Counts(After(r, es))
    decreases |es|
  {
    if es != [] {
      CountsStep(r, es[0]);
      CounterIsSuffix(Step(r, es[0]), es[1..]);
    }
  }

  // ---------------------------------------------------------------------------
  // Sequential use
  // ---------------------------------------------------------------------------

  /** Calls do not overlap, and an outcome is recorded only for a call that was let through. */
  predicate Sequential(r: Run, e: Event) {
    match e
    case Ask(_, contended) => !contended && !r.pending
    case Succeed(contended) => !contended && r.pending
    case Fail(_, contended) => !contended && r.pending
  }

  predicate Legal(r: Run, es: seq<Event>)
    decreases |es|
  {
    es == [] || (Sequential(r, es[0]) && Legal(Step(r, es[0]), es[1..]))
  }

  ghost predicate Agrees(c: Circuit) {
    c.state == Closed <==> c.failures < c.threshold
  }

  ghost predicate Inv(r: Run) {
    && Counts(r) && r.c.threshold >= 1 && Agrees(r.c)
    && (r.c.state == HalfOpen ==> r.pending) && (r.c.state == Open ==> !r.pending)
  }

  lemma {:induction false} InvStep(r: Run, e: Event)
    requires Inv(r) && Sequential(r, e)
    ensures Inv(Step(r, e)) && Step(r, e).c.threshold == r.c.threshold && Step(r, e).c.timeout == r.c.timeout
  {
    CountsStep(r, e);
  }

  lemma {:induction false} InvRun(r: Run, es: seq<Event>)
    requires Inv(r) && Legal(r, es)
    ensures var r' := After(r, es);
            Inv(r') && r'.c.threshold == r.c.threshold && r'.c.timeout == r.c.timeout
    decreases |es|
  {
    if es != [] {
      InvStep(r, es[0]);
      InvRun(Step(r, es[0]), es[1..]);
    }
  }

  /** Used sequentially, the breaker is closed exactly when the log's failure-only suffix is shorter than the
      threshold; while it is open a call is let through exactly when more than the timeout has passed since
      the last recorded failure. */
  lemma {:induction false} BreakerRefinesLog(threshold: int, timeout: int, es: seq<Event>, now: int)
    requires threshold >= 1 && Legal(Run(New(threshold, timeout), [], false), es)
    ensures var r := After(Run(New(threshold, timeout), [], false), es);
            && (r.c.state == Closed <==> BadSuffix(r.log) < threshold)
            && (r.c.state == Open ==> (Allow(r.c, now).1 <==> now - LastBad(r.log) > timeout))
            && (!r.pending ==> r.c.state != HalfOpen)
            && (BadSuffix(r.log) < threshold ==> Allow(r.c, now) == (r.c, true))
  {
    InvRun(Run(New(threshold, timeout), [], false), es);
  }

  /** A success recorded while the breaker is open is what breaks this: afterwards the breaker agrees with
      its log exactly when it was not open. */
  lemma {:induction false} SuccessWhileOpen(c: Circuit)
    requires c.threshold >= 1 && Agrees(c)
    ensures Agrees(Success(c)) <==> c.state != Open
  {
  }

  // ---------------------------------------------------------------------------
  // Overlapping calls
  // ---------------------------------------------------------------------------

  lemma {:induction false} AfterAppend(r: Run, a: seq<Event>, b: seq<Event>)
    ensures After(r, a + b) == After(After(r, a), b)
    decreases |a|
  {
    if a == [] {
      assert a + b == b;
    } else {
      assert (a + b)[1..] == a[1..] + b;
      AfterAppend(Step(r, a[0]), a[1..], b);
    }
  }

  /** `n` calls one after another, all of which fail. */
  function Failing(n: nat, now: int): seq<Event> {
    if n == 0 then [] else Failing(n - 1, now) + [Ask(now, false), Fail(now, false)]
  }

  lemma {:induction false} FailingRun(n: nat, threshold: int, timeout: int, now: int)
    requires n < threshold
    ensures var r := After(Run(New(threshold, timeout), [], false), Failing(n, now));
            && r.c == Circuit(n, threshold, timeout, if n == 0 then 0 else now, Closed) && !r.pending
  {
    if n > 0 {
      FailingRun(n - 1, threshold, timeout, now);
      var r0 := Run(New(threshold, timeout), [], false);
      AfterAppend(r0, Failing(n - 1, now), [Ask(now, false), Fail(now, false)]);
      AfterTwo(After(r0, Failing(n - 1, now)), Ask(now, false), Fail(now, false));
    }
  }

  lemma {:induction false} AfterTwo(r: Run, a: Event, b: Event)
    ensures After(r, [a, b]) == Step(Step(r, a), b)
  {
    assert [a, b][1..] == [b] && [b][1..] == [];
    assert After(Step(Step(r, a), b), []) == Step(Step(r, a), b);
  }

  /** Two calls at once after one failure less than the threshold, the first to report failing, the other
      succeeding. */
  function Overlap(threshold: int, now: int): seq<Event>
    requires threshold >= 1
  {
    Failing(threshold - 1, now) + ([Ask(now, false), Ask(now, false)] + [Fail(now, false), Succeed(false)])
  }

  /** Calls that overlap do break it, from a new breaker with any threshold: it is open, although the last
      recorded outcome is a success. */
  lemma {:induction false} OverlapDisagrees(threshold: int, timeout: int, now: int)
    requires threshold >= 1
    ensures var r := After(Run(New(threshold, timeout), [], false), Overlap(threshold, now));
            r.c.state == Open && BadSuffix(r.log) == 0 && !Agrees(r.c)
  {
    var r0 := Run(New(threshold, timeout), [], false);
    FailingRun(threshold - 1, threshold, timeout, now);
    var r1 := After(r0, Failing(threshold - 1, now));
    var asks, reports := [Ask(now, false), Ask(now, false)], [Fail(now, false), Succeed(false)];
    AfterAppend(r0, Failing(threshold - 1, now), asks + reports);
    AfterAppend(r1, asks, reports);
    AfterTwo(r1, asks[0], asks[1]);
    AfterTwo(After(r1, asks), reports[0], reports[1]);
    CounterIsSuffix(r0, Overlap(threshold, now));
  }

  /** Once the timeout has passed, an open breaker lets every call through until an outcome is recorded, not
      just one. */
  lemma {:induction false} ProbesAreNotLimited(c: Circuit, now: int, now': int)
    requires c.state == Open && now - c.lastFailure > c.timeout
    ensures Allow(c, now).1 && Allow(Allow(c, now).0, now') == (Allow(c, now).0, true)
    ensures Success(Allow(c, now).0) == Circuit(0, c.threshold, c.timeout, c.lastFailure, Closed)
    ensures c.failures + 1 >= c.threshold ==>
              Failure(Allow(c, now).0, now') == Circuit(c.failures + 1, c.threshold, c.timeout, now', Open)
  {
  }
}
