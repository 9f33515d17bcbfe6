/** Backoff in 64-bit durations, and the loop that retries a function. */
module Retry {
  import opened Jobs

  /** A missing `Retryable` function is one that accepts every error. Durations are nanoseconds. */
  datatype Policy = Policy(maxRetries: int, baseDelay: int, maxDelay: int, maxJitter: int, retryable: string -> bool)

  datatype Call = Done | Failed(error: string)

  datatype Outcome = Nil | NonRetryable(attempt: nat, error: string) | Interrupted | Exhausted(last: Option<string>)

  /** `jitter` is the random draw, used only when the policy has a jitter. */
  function Backoff(p: Policy, attempt: nat, jitter: int): int {
    var b := ShiftedDelay(p.baseDelay, attempt);
    var capped := if b > p.maxDelay then p.maxDelay else b;
    if p.maxJitter > 0 then Wrap64(capped + jitter) else capped
  }

  /** How long a timer for `d` takes; a negative one fires at once. */
  function TimerWait(d: int): nat {
    if d < 0 then 0 else d
  }

  function TotalWait(p: Policy, jitters: nat -> int, n: nat): nat {
    if n == 0 then 0 else TotalWait(p, jitters, n - 1) + TimerWait(Backoff(p, n - 1, jitters(n - 1)))
  }

  predicate RetriedAt(p: Policy, calls: nat -> Call, cancelled: nat -> bool, i: nat) {
    calls(i).Failed? && p.retryable(calls(i).error) && !cancelled(i)
  }

  /** The whole behaviour of an execution, said outright: `n` calls were made with result `r`. Every call
      but the last failed, was retryable and its wait was not cancelled; the last one decides. */
  ghost predicate Executes(p: Policy, calls: nat -> Call, cancelled: nat -> bool, n: nat, r: Outcome) {
    if p.maxRetries < 0 then n == 0 && r == Exhausted(None)
    else
      && 1 <= n <= p.maxRetries + 1
      && (forall i :: 0 <= i < n - 1 ==> RetriedAt(p, calls, cancelled, i))
      && match calls(n - 1)
         case Done => r == Nil
         case Failed(e) =>
           if !p.retryable(e) then r == NonRetryable(n - 1, e)
           else if n == p.maxRetries + 1 then r == Exhausted(Some(e))
           else cancelled(n - 1) && r == Interrupted
  }

  /** Waits requested by such an execution: one after every call but the last, and the cancelled one. */
  function WaitsOf(n: nat, r: Outcome): nat {
    if n == 0 || r.Interrupted? then n else n - 1
  }

  /** `calls(i)`, `jitters(i)` and `cancelled(i)` are what the i-th call returns, the i-th random draw and
      whether the context ends during the i-th wait. */
  method Execute(p: Policy, calls: nat -> Call, jitters: nat -> int, cancelled: nat -> bool)
    returns (r: Outcome, n: nat, waited: nat)
    ensures Executes(p, calls, cancelled, n, r)
    ensures waited == TotalWait(p, jitters, WaitsOf(n, r))
  {
    var lastErr: Option<string> := None;
    n, waited := 0, 0;
    var attempt := 0;
    while attempt <= p.maxRetries
      invariant n == attempt
      invariant 0 <= attempt && (attempt <= p.maxRetries || (attempt == 0 && p.maxRetries < 0))
      invariant forall i :: 0 <= i < attempt ==> RetriedAt(p, calls, cancelled, i)
      invariant waited == TotalWait(p, jitters, attempt)
      invariant attempt == 0 ==> lastErr == None
      decreases p.maxRetries - attempt
    {
      var c := calls(attempt);
      n := n + 1;
      if c.Done? {
        return Nil, n, waited;
      }
      lastErr := Some(c.error);
      if !p.retryable(c.error) {
        return NonRetryable(attempt, c.error), n, waited;
      }
      if attempt >= p.maxRetries {
        break;
      }
      waited := waited + TimerWait(Backoff(p, attempt, jitters(attempt)));
      if cancelled(attempt) {
        return Interrupted, n, waited;
      }
      attempt := attempt + 1;
    }
    r := Exhausted(lastErr);
  }

  /** That description leaves no freedom: calls and result are determined by what the function returns. */
  lemma {:induction false} ExecutesUnique(p: Policy, calls: nat -> Call, cancelled: nat -> bool,
                                          n: nat, r: Outcome, n': nat, r': Outcome)
    requires Executes(p, calls, cancelled, n, r) && Executes(p, calls, cancelled, n', r')
    ensures n == n' && r == r'
  {
    assert 0 < n < n' ==> RetriedAt(p, calls, cancelled, n - 1);
    assert 0 < n' < n ==> RetriedAt(p, calls, cancelled, n' - 1);
  }

  /** Execute returns nil exactly when its last call succeeded, and stops at the first success. */
  lemma {:induction false} NilIffLastSucceeded(p: Policy, calls: nat -> Call, cancelled: nat -> bool, n: nat, r: Outcome)
    requires Executes(p, calls, cancelled, n, r)
    ensures r == Nil <==> n > 0 && calls(n - 1).Done?
    ensures forall i :: 0 <= i < n - 1 ==> !calls(i).Done?
  {
    forall i | 0 <= i < n - 1
      ensures !calls(i).Done?
    {
      assert RetriedAt(p, calls, cancelled, i);
    }
  }

  // ---------------------------------------------------------------------------
  // How long it waits
  // ---------------------------------------------------------------------------

  /** Non-negative 64-bit durations. */
  predicate Sane(p: Policy) {
    0 <= p.baseDelay && 0 <= p.maxDelay <= MAX_INT64 && 0 <= p.maxJitter <= MAX_INT64
  }

  ghost predicate InRange(p: Policy, jitters: nat -> int) {
    forall i: nat :: 0 <= jitters(i) && (p.maxJitter > 0 ==> jitters(i) < p.maxJitter)
  }

  lemma {:induction false} ShiftExact(base: int, k: nat)
    requires 0 <= base && base * Pow2(k) <= MAX_INT64
    ensures ShiftedDelay(base, k) == base * Pow2(k)
  {
    if base == 0 {
      assert forall x: int :: 0 * x == 0;
    } else {
      assert base * Pow2(k) >= Pow2(k);
    }
  }

  /** The delay is the product, capped, plus the draw, as long as neither overflows; without a jitter bound
      there is no draw. */
  lemma {:induction false} BackoffExact(p: Policy, a: nat, jitter: int)
    requires Sane(p) && p.baseDelay * Pow2(a) <= MAX_INT64 && p.maxDelay + jitter <= MAX_INT64 && 0 <= jitter
    ensures var product := p.baseDelay * Pow2(a);
            var capped := if product <= p.maxDelay then product else p.maxDelay;
            Backoff(p, a, jitter) == if p.maxJitter == 0 then capped else capped + jitter
  {
    ShiftExact(p.baseDelay, a);
    assert p.baseDelay * Pow2(a) >= 0;
  }

  /** A sum that overflows turns negative, and a timer for it fires at once. */
  lemma {:induction false} BackoffBound(p: Policy, a: nat, jitter: int)
    requires Sane(p) && p.baseDelay * Pow2(a) <= MAX_INT64
    requires 0 <= jitter && (p.maxJitter > 0 ==> jitter < p.maxJitter)
    ensures TimerWait(Backoff(p, a, jitter)) <= p.baseDelay * Pow2(a) + p.maxJitter
    ensures TimerWait(Backoff(p, a, jitter)) <= p.maxDelay + p.maxJitter
  {
    ShiftExact(p.baseDelay, a);
    assert p.baseDelay * Pow2(a) >= 0;
  }

  /** With `n` waits the total is at most min(base*(2^n - 1), n*maxDelay) + n*maxJitter, as long as the
      largest product base*2^(n-1) fits into 64 bits. */
  lemma {:induction false} TotalWaitBound(p: Policy, jitters: nat -> int, n: nat)
    requires Sane(p) && InRange(p, jitters) && (n > 0 ==> p.baseDelay * Pow2(n - 1) <= MAX_INT64)
    ensures TotalWait(p, jitters, n) <= p.baseDelay * (Pow2(n) - 1) + n * p.maxJitter
    ensures TotalWait(p, jitters, n) <= n * p.maxDelay + n * p.maxJitter
  {
    if n > 0 {
      SmallerFits(p, n);
      TotalWaitBound(p, jitters, n - 1);
      var d := TimerWait(Backoff(p, n - 1, jitters(n - 1)));
      BackoffBound(p, n - 1, jitters(n - 1));
      assert TotalWait(p, jitters, n) == TotalWait(p, jitters, n - 1) + d;
      SumStep(p, n, TotalWait(p, jitters, n - 1), d, Pow2(n - 1));
    }
  }

  /** The wait after attempt `a`: the smaller of base * 2^a and the cap, plus the draw if there is a jitter. */
  function PlainWait(p: Policy, a: nat, jitter: nat): nat
    requires Sane(p)
  {
    var product := p.baseDelay * Pow2(a);
    assert product >= 0;
    (if product <= p.maxDelay then product else p.maxDelay) + (if p.maxJitter == 0 then 0 else jitter)
  }

  function PlainTotal(p: Policy, jitters: nat -> int, n: nat): int
    requires Sane(p) && forall i: nat :: 0 <= jitters(i)
  {
    if n == 0 then 0 else PlainTotal(p, jitters, n - 1) + PlainWait(p, n - 1, jitters(n - 1))
  }

  /** As long as nothing overflows, the waits requested are exactly those. */
  lemma {:induction false} TotalWaitExact(p: Policy, jitters: nat -> int, n: nat)
    requires Sane(p) && InRange(p, jitters) && (n > 0 ==> p.baseDelay * Pow2(n - 1) <= MAX_INT64)
    requires forall i: nat :: i < n ==> p.maxDelay + jitters(i) <= MAX_INT64
    ensures TotalWait(p, jitters, n) == PlainTotal(p, jitters, n)
  {
    if n > 0 {
      SmallerFits(p, n);
      TotalWaitExact(p, jitters, n - 1);
      BackoffExact(p, n - 1, jitters(n - 1));
    }
  }

  lemma {:induction false} SmallerFits(p: Policy, n: nat)
    requires n > 0 && 0 <= p.baseDelay && p.baseDelay * Pow2(n - 1) <= MAX_INT64
    ensures n > 1 ==> p.baseDelay * Pow2(n - 2) <= MAX_INT64
  {
    if n > 1 {
      var x := Pow2(n - 2);
      assert Pow2(n - 1) == 2 * x;
      assert p.baseDelay * (2 * x) == p.baseDelay * x + p.baseDelay * x;
      assert p.baseDelay * x >= 0;
    }
  }

  lemma {:induction false} SumStep(p: Policy, n: nat, w: nat, d: int, x: nat)
    requires n > 0 && d <= p.baseDelay * x + p.maxJitter && d <= p.maxDelay + p.maxJitter
    requires w <= p.baseDelay * (x - 1) + (n - 1) * p.maxJitter
    requires w <= (n - 1) * p.maxDelay + (n - 1) * p.maxJitter
    ensures w + d <= p.baseDelay * (2 * x - 1) + n * p.maxJitter
    ensures w + d <= n * p.maxDelay + n * p.maxJitter
  {
    assert p.baseDelay * (2 * x - 1) == p.baseDelay * (x - 1) + p.baseDelay * x;
    assert n * p.maxJitter == (n - 1) * p.maxJitter + p.maxJitter;
    assert n * p.maxDelay == (n - 1) * p.maxDelay + p.maxDelay;
  }

  lemma {:induction false} TotalWaitMonotone(p: Policy, jitters: nat -> int, a: nat, b: nat)
    requires a <= b
    ensures TotalWait(p, jitters, a) <= TotalWait(p, jitters, b)
    decreases b
  {
    if a < b {
      TotalWaitMonotone(p, jitters, a, b - 1);
    }
  }

  /** So every execution with n = maxRetries >= 0 requests at most that much waiting. */
  lemma {:induction false} ExecuteWaitBound(p: Policy, calls: nat -> Call, jitters: nat -> int, cancelled: nat -> bool,
                                            n: nat, r: Outcome)
    requires Executes(p, calls, cancelled, n, r) && 0 <= p.maxRetries && Sane(p) && InRange(p, jitters)
    requires p.maxRetries > 0 ==> p.baseDelay * Pow2(p.maxRetries - 1) <= MAX_INT64
    ensures var m := p.maxRetries;
            var w := TotalWait(p, jitters, WaitsOf(n, r));
            w <= p.baseDelay * (Pow2(m) - 1) + m * p.maxJitter && w <= m * p.maxDelay + m * p.maxJitter
  {
    TotalWaitBound(p, jitters, p.maxRetries);
    TotalWaitMonotone(p, jitters, WaitsOf(n, r), p.maxRetries);
  }

  /** Before jitter, the delay is min(base*2^a, maxDelay) exactly when the product fits into 64 bits or its
      wrapped value happens to reach the cap; otherwise wrap-around slips under the cap. */
  lemma {:induction false} CapHoldsIff(p: Policy, a: nat)
    requires 0 <= p.baseDelay && 0 <= p.maxDelay <= MAX_INT64 && p.maxJitter <= 0
    ensures var exact := p.baseDelay * Pow2(a);
            Backoff(p, a, 0) == (if exact > p.maxDelay then p.maxDelay else exact) <==>
              exact <= MAX_INT64 || ShiftedDelay(p.baseDelay, a) >= p.maxDelay
  {
    if p.baseDelay * Pow2(a) <= MAX_INT64 {
      ShiftExact(p.baseDelay, a);
    }
  }

  /** It does slip: with the default delays attempt 31 gets a negative delay and would not wait at all. */
  lemma {:induction false} DefaultPolicyWraps(jitter: int)
    requires 0 <= jitter < SECOND
    ensures Backoff(Policy(40, 5 * SECOND, 1800 * SECOND, SECOND, _ => true), 31, jitter) < 0
  {
    Pow2At30();
  }
}
