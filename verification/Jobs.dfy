/** Job records, their lifecycle states and the 64-bit arithmetic of the retry delay. */
module Jobs {

  /** A UUID, read as the 128-bit number its text form orders by. */
  type JobId = nat
  type WorkerId = string

  datatype Option<+T> = None | Some(value: T)

  datatype Status = Pending | Running | Completed | Failed | DeadLetter | Cancelled {
    predicate IsTerminal() {
      Completed? || DeadLetter? || Cancelled?
    }

    predicate CanTransitionTo(target: Status) {
      if IsTerminal() then false
      else match this
        case Pending => target.Running? || target.Cancelled?
        case Running => target.Completed? || target.Failed? || target.Cancelled?
        case Failed => target.Pending? || target.DeadLetter?
        case _ => false
    }
  }

  /** `scheduledAt` and `createdAt` are in milliseconds since the Unix epoch, `timeout` in milliseconds. */
  datatype Job = Job(
    id: JobId,
    jobType: string,
    payload: string,
    priority: int,
    status: Status,
    scheduledAt: int,
    retryCount: nat,
    maxRetries: int,
    timeout: int,
    workerId: WorkerId,
    errorMessage: string,
    cron: string,
    createdAt: int)

  datatype JobError = InvalidJobType | InvalidPriority | InvalidMaxRetries | InvalidTimeout

  function Validate(j: Job): Option<JobError> {
    if j.jobType == "" then Some(InvalidJobType)
    else if j.priority < 0 || j.priority > 9 then Some(InvalidPriority)
    else if j.maxRetries < 0 || j.maxRetries > 20 then Some(InvalidMaxRetries)
    else if j.timeout <= 0 || j.timeout > 3600000 then Some(InvalidTimeout)
    else None
  }

  predicate IsRetryable(j: Job) {
    j.retryCount < j.maxRetries && j.status == Failed
  }

  /** What every job handed out by `NewJob` satisfies. */
  predicate IsNew(j: Job) {
    Validate(j) == None && j.status == Pending && j.retryCount == 0
  }

  /** What a job is to do and within which limits: the same from submission to the last retry. */
  predicate SameTask(a: Job, b: Job) {
    && a.id == b.id && a.jobType == b.jobType && a.payload == b.payload && a.priority == b.priority
    && a.maxRetries == b.maxRetries && a.timeout == b.timeout && a.cron == b.cron && a.createdAt == b.createdAt
  }

  datatype JobOption =
    | WithPriority(p: int)
    | WithMaxRetries(n: int)
    | WithTimeout(ms: int)
    | WithScheduledAt(t: int)
    | WithCron(expr: string)

  function ApplyOption(j: Job, o: JobOption): Job {
    match o
    case WithPriority(p) => j.(priority := p)
    case WithMaxRetries(n) => j.(maxRetries := n)
    case WithTimeout(ms) => j.(timeout := ms)
    case WithScheduledAt(t) => j.(scheduledAt := t)
    case WithCron(expr) => j.(cron := expr)
  }

  /** The options applied in order. */
  function Configured(j: Job, opts: seq<JobOption>): Job {
    if opts == [] then j else ApplyOption(Configured(j, opts[..|opts| - 1]), opts[|opts| - 1])
  }

  function Defaults(id: JobId, jobType: string, payload: string, now: int): Job {
    Job(id, jobType, payload, 5, Pending, now, 0, 3, 30000, "", "", "", now)
  }

  /** The last of the options that `picks` accepts, if any. */
  function LastOf(opts: seq<JobOption>, picks: JobOption -> bool): Option<JobOption> {
    if opts == [] then None
    else if picks(opts[|opts| - 1]) then Some(opts[|opts| - 1])
    else LastOf(opts[..|opts| - 1], picks)
  }

  /** Each field of a configured job is set by the last option for it, and keeps its default when there is
      none: priority 5, three retries, 30 s, due now, no expression. */
  lemma {:induction false} OptionsDecide(id: JobId, jobType: string, payload: string, now: int, opts: seq<JobOption>)
    ensures var j := Configured(Defaults(id, jobType, payload, now), opts);
            && j.priority == (match LastOf(opts, (o: JobOption) => o.WithPriority?)
                 case Some(WithPriority(p)) => p case _ => 5)
            && j.maxRetries == (match LastOf(opts, (o: JobOption) => o.WithMaxRetries?)
                 case Some(WithMaxRetries(n)) => n case _ => 3)
            && j.timeout == (match LastOf(opts, (o: JobOption) => o.WithTimeout?)
                 case Some(WithTimeout(ms)) => ms case _ => 30000)
            && j.scheduledAt == (match LastOf(opts, (o: JobOption) => o.WithScheduledAt?)
                 case Some(WithScheduledAt(t)) => t case _ => now)
            && j.cron == (match LastOf(opts, (o: JobOption) => o.WithCron?)
                 case Some(WithCron(expr)) => expr case _ => "")
            && j.id == id && j.jobType == jobType && j.payload == payload && j.createdAt == now
            && j.status == Pending && j.retryCount == 0 && j.workerId == "" && j.errorMessage == ""
  {
    if opts != [] {
      OptionsDecide(id, jobType, payload, now, opts[..|opts| - 1]);
    }
  }

  datatype NewJobResult = Created(job: Job) | Rejected(error: JobError)

  /** The defaults, then the options in order, then validation: whatever the options are,
      a job that comes out is pending, unretried and within the validated ranges. */
  method NewJob(id: JobId, jobType: string, payload: string, opts: seq<JobOption>, now: int)
    returns (r: NewJobResult)
    ensures var job := Configured(Defaults(id, jobType, payload, now), opts);
            r == match Validate(job) case None => Created(job) case Some(e) => Rejected(e)
    ensures r.Created? ==> IsNew(r.job) && r.job.id == id && r.job.jobType == jobType && r.job.payload == payload
    ensures r.Created? ==> r.job.createdAt == now
    ensures var job := Configured(Defaults(id, jobType, payload, now), opts);
            r.Created? <==> jobType != "" && 0 <= job.priority <= 9 && 0 <= job.maxRetries <= 20
                            && 0 < job.timeout <= 3600000
    ensures jobType == "" ==> r == Rejected(InvalidJobType)
  {
    var job := Defaults(id, jobType, payload, now);
    for i := 0 to |opts|
      invariant job == Configured(Defaults(id, jobType, payload, now), opts[..i])
      invariant job.id == id && job.jobType == jobType && job.payload == payload && job.createdAt == now
      invariant job.status == Pending && job.retryCount == 0
    {
      assert opts[..i + 1][..i] == opts[..i];
      job := ApplyOption(job, opts[i]);
    }
    assert opts[..|opts|] == opts;
    if jobType == "" {
      return Rejected(InvalidJobType);
    }
    match Validate(job)
    case None => r := Created(job);
    case Some(e) => r := Rejected(e);
  }

  // ---------------------------------------------------------------------------
  // 64-bit durations (nanoseconds)
  // ---------------------------------------------------------------------------

  const MAX_INT64 := 0x7FFF_FFFF_FFFF_FFFF
  const SECOND := 1_000_000_000

  predicate Fits64(x: int) {
    -0x8000_0000_0000_0000 <= x <= 0x7FFF_FFFF_FFFF_FFFF
  }

  /** Two's-complement wrap-around of a 64-bit result. */
  function Wrap64(x: int): (r: int)
    ensures Fits64(r)
    ensures Fits64(x) ==> r == x
  {
    (x + 0x8000_0000_0000_0000) % 0x1_0000_0000_0000_0000 - 0x8000_0000_0000_0000
  }

  function Pow2(k: nat): (r: nat)
    ensures r >= 1
  {
    if k == 0 then 1 else 2 * Pow2(k - 1)
  }

  /** `base * (1 << k)` as a 64-bit duration: both the shift and the product wrap. */
  function ShiftedDelay(base: int, k: nat): (r: int) {
    Wrap64(base * Wrap64(Pow2(k)))
  }

  /** Up to 999 ms, from the leading 32 bits of the id. */
  function JitterMs(id: JobId): (r: nat)
    ensures r < 1000
  {
    (id / 0x1_0000_0000_0000_0000_0000_0000) % 0x1_0000_0000 % 1000
  }

  /** An id is its leading 32 bits and 96 more; the jitter is the former, modulo a second. */
  lemma {:induction false} JitterIs(hi: nat, lo: nat)
    requires hi < 0x1_0000_0000 && lo < 0x1_0000_0000_0000_0000_0000_0000
    ensures JitterMs(hi * 0x1_0000_0000_0000_0000_0000_0000 + lo) == hi % 1000
  {
  }

  const RETRY_BASE := 5_000_000_000

  /** The delay added to the clock by `NextRetryTime(5 s)`, in nanoseconds. */
  function NextRetryDelay(id: JobId, retryCount: nat): (r: int) {
    Wrap64(ShiftedDelay(RETRY_BASE, retryCount) + JitterMs(id) * 1_000_000)
  }

  function NextRetryTime(j: Job, now: int): int {
    now + NextRetryDelay(j.id, j.retryCount) / 1_000_000
  }

  lemma {:induction false} Pow2Monotone(a: nat, b: nat)
    requires a <= b
    ensures Pow2(a) <= Pow2(b)
    ensures a < b ==> 2 * Pow2(a) <= Pow2(b)
    decreases b
  {
    if a < b {
      Pow2Monotone(a, b - 1);
    }
  }

  lemma Pow2At30()
    ensures Pow2(30) == 0x4000_0000
    ensures Pow2(31) == 0x8000_0000
  {
    assert Pow2(10) == 1024;
    assert Pow2(20) == 1024 * 1024 by {
      assert Pow2(15) == 32768;
    }
    assert Pow2(25) == 33554432;
  }

  /** The delay without wrap-around. */
  function ExactRetryDelay(id: JobId, k: nat): int {
    5_000_000_000 * Pow2(k) + JitterMs(id) * 1_000_000
  }

  lemma {:induction false} WrapExact(p: nat, jitterNs: nat)
    requires p <= 0x4000_0000 && jitterNs < 1_000_000_000
    ensures Wrap64(Wrap64(5_000_000_000 * Wrap64(p)) + jitterNs) == 5_000_000_000 * p + jitterNs
  {
    assert Wrap64(p) == p;
    assert Wrap64(5_000_000_000 * p) == 5_000_000_000 * p;
  }

  /** The delay is the mathematical one, with no wrap-around anywhere, exactly up to 30 retries. */
  lemma {:induction false} RetryDelayExact(id: JobId, k: nat)
    ensures NextRetryDelay(id, k) == ExactRetryDelay(id, k) <==> k <= 30
    ensures k <= 30 ==> 0 < NextRetryDelay(id, k) <= MAX_INT64
  {
    Pow2At30();
    var p := Pow2(k);
    if k <= 30 {
      Pow2Monotone(k, 30);
      WrapExact(p, JitterMs(id) * 1_000_000);
    } else {
      Pow2Monotone(31, k);
      assert ExactRetryDelay(id, k) > MAX_INT64;
    }
  }

  /** The delay strictly grows with the retry count, whichever two jobs are compared, up to 30 retries. */
  lemma {:induction false} RetryDelayGrows(id: JobId, id': JobId, a: nat, b: nat)
    requires a < b <= 30
    ensures NextRetryDelay(id, a) < NextRetryDelay(id', b)
  {
    RetryDelayExact(id, a);
    RetryDelayExact(id', b);
    Pow2Monotone(a, b);
    ExactGrows(id, id', a, b);
  }

  lemma {:induction false} ExactGrows(id: JobId, id': JobId, a: nat, b: nat)
    requires 2 * Pow2(a) <= Pow2(b)
    ensures ExactRetryDelay(id, a) < ExactRetryDelay(id', b)
  {
    var x, y := Pow2(a), Pow2(b);
    assert JitterMs(id) * 1_000_000 < 1_000_000_000 && JitterMs(id') * 1_000_000 >= 0;
  }

  /** 30 is the last exact count: at 31 the product wraps and the "next" retry time lies in the past. */
  lemma {:induction false} RetryDelayWrapsAt31(id: JobId, j: Job, now: int)
    requires j.id == id && j.retryCount == 31
    ensures NextRetryDelay(id, 31) < 0
    ensures NextRetryTime(j, now) < now
  {
    Pow2At30();
  }

  /** Every job within its validated budget is on the safe side of that bound. */
  lemma {:induction false} ValidatedRetriesAreExact(j: Job, now: int)
    requires Validate(j) == None && j.retryCount <= j.maxRetries
    ensures NextRetryTime(j, now) == now + 5000 * Pow2(j.retryCount) + JitterMs(j.id)
    ensures NextRetryTime(j, now) > now
  {
    RetryDelayExact(j.id, j.retryCount);
    DivideExact(j.id, j.retryCount);
  }

  lemma {:induction false} DivideExact(id: JobId, k: nat)
    ensures ExactRetryDelay(id, k) / 1_000_000 == 5000 * Pow2(k) + JitterMs(id)
  {
    var p, i := Pow2(k), JitterMs(id);
    assert 5_000_000_000 * p + i * 1_000_000 == (5000 * p + i) * 1_000_000;
  }
}
