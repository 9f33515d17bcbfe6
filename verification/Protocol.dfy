/** The queue in use: submissions, workers holding deliveries, the delayed mover, the reclaimer,
    crashes, expiring data and a clock, as one state machine. */
module Protocol {
  import opened Jobs
  import opened QueueModel

  /** A delivery in the hands of a worker: its own copy of the job and when it was dequeued. */
  datatype Delivery = Delivery(worker: WorkerId, job: Job, at: int)

  /** The last six fields are history: what was submitted, how often each key was popped, reclaimed with
      its data and manually retried, and when it first entered a ready list. */
  datatype World = World(
    q: Queue,
    clock: nat,
    held: map<nat, Delivery>,
    issued: nat,
    submitted: map<JobId, Job>,
    pops: multiset<JobId>,
    reclaims: multiset<JobId>,
    retries: multiset<JobId>,
    entered: map<JobId, int>)

  function Start(t: nat): World {
    World(EMPTY, t, map[], 0, map[], multiset{}, multiset{}, multiset{}, map[])
  }

  datatype Event =
    | Submit(job: Job)
    | Retry(job: Job)
    | Pop(worker: WorkerId)
    | Ack(d: nat)
    | Fail(d: nat, status: Status, msg: string, retryAt: int)
    | Crash(d: nat)
    | Move(k: JobId)
    | Reclaim(w: WorkerId, k: JobId, retryAt: int)
    | Lapse(k: JobId)
    | Tick(t: nat)

  /** The row as RetryJob reads it back and resets it. */
  predicate IsReset(job: Job, was: Job, now: int) {
    IsNew(job) && job.scheduledAt == now && SameTask(job, was)
  }

  /** `Retry` is a manual retry: the row was terminal, so its job has been delivered before. */
  predicate Enabled(w: World, e: Event) {
    match e
    case Submit(job) => job.id !in w.submitted && IsNew(job)
    case Retry(job) =>
      w.pops[job.id] > 0 && job.id in w.submitted && IsReset(job, w.submitted[job.id], w.clock)
    case Pop(_) => true
    case Ack(d) => d in w.held
    case Fail(d, _, _, _) => d in w.held
    case Crash(d) => d in w.held
    case Move(k) => k in w.q.delayed && 0 <= w.q.delayed[k] <= w.clock
    case Reclaim(wk, k, retryAt) => Slot(wk, k) in w.q.inflight && 0 <= w.q.inflight[Slot(wk, k)] <= w.clock - MAX_AGE_MS
    case Lapse(k) => k in w.q.data
    case Tick(t) => w.clock <= t
  }

  function Entered(w: World, k: JobId): map<JobId, int> {
    if k in w.entered then w.entered else w.entered[k := w.clock]
  }

  /** A failing delivery's copy of the job; the handler may have changed its status. */
  function FailedCopy(w: World, d: nat, status: Status): Job
    requires d in w.held
  {
    w.held[d].job.(status := status)
  }

  function NextQueue(w: World, e: Event): Queue
    requires Enabled(w, e)
  {
    match e
    case Submit(job) => Enqueue(w.q, job, w.clock)
    case Retry(job) => Enqueue(w.q, job, w.clock)
    case Pop(wk) => Dequeue(w.q, wk, LEASE_MS, w.clock).0
    case Ack(d) => Acknowledge(w.q, w.held[d].job.id, w.held[d].worker)
    case Fail(d, status, msg, retryAt) => Nack(w.q, FailedCopy(w, d, status), w.held[d].worker, msg, retryAt)
    case Crash(_) => w.q
    case Move(k) => MoveOne(w.q, k)
    case Reclaim(wk, k, retryAt) => ReclaimOne(w.q, wk, k, retryAt)
    case Lapse(k) => Expire(w.q, k)
    case Tick(_) => w.q
  }

  function Next(w: World, e: Event): World
    requires Enabled(w, e)
  {
    var w' := w.(q := NextQueue(w, e));
    match e
    case Submit(job) =>
      w'.(submitted := w.submitted[job.id := job],
          entered := if job.scheduledAt <= w.clock then Entered(w, job.id) else w.entered)
    case Retry(job) => w'.(retries := w.retries + multiset{job.id}, entered := Entered(w, job.id))
    case Pop(wk) =>
      (match Dequeue(w.q, wk, LEASE_MS, w.clock).1
       case Empty => w'
       case Missing(k) => w'.(pops := w.pops + multiset{k})
       case Got(job) =>
         w'.(pops := w.pops + multiset{job.id},
             held := w.held[w.issued := Delivery(wk, job, w.clock)], issued := w.issued + 1))
    case Ack(d) => w'.(held := w.held - {d})
    case Fail(d, _, _, _) => w'.(held := w.held - {d}, entered := Entered(w, w.held[d].job.id))
    case Crash(d) => w'.(held := w.held - {d})
    case Move(k) => w'.(entered := if k in w.q.data then Entered(w, k) else w.entered)
    case Reclaim(_, k, _) =>
      if k in w.q.data then w'.(reclaims := w.reclaims + multiset{k}, entered := Entered(w, k)) else w'
    case Lapse(_) => w'
    case Tick(t) => w'.(clock := t)
  }

  /** Premises a run may satisfy beyond what the code enforces. */
  datatype Rule =
    | NoManualRetry
    | IdleRetry       // a manual retry finds no waiting copy and no holder of its job
    | Prompt          // an ack or nack that is sent lands under 125 s after its dequeue
    | Answered        // and every delivery gets one in time
    | StatusKept      // handlers leave the status of their job alone
    | NoReclaim
    | NoNack

  predicate Idle(w: World, k: JobId) {
    && (forall p <- w.q.ready :: k !in w.q.ready[p])
    && k !in w.q.delayed
    && (forall d <- w.held :: w.held[d].job.id != k)
  }

  predicate Obeys(w: World, e: Event, r: Rule) {
    match r
    case NoManualRetry => !e.Retry?
    case IdleRetry => e.Retry? ==> Idle(w, e.job.id)
    case Prompt => (e.Ack? || e.Fail?) && e.d in w.held ==> w.clock < w.held[e.d].at + WINDOW_MS
    case Answered => !e.Crash? && (e.Tick? ==> forall d <- w.held :: e.t < w.held[d].at + WINDOW_MS)
    case StatusKept => e.Fail? && e.d in w.held ==> e.status == w.held[e.d].job.status
    case NoReclaim => !e.Reclaim?
    case NoNack => !e.Fail?
  }

  predicate Legal(w: World, es: seq<Event>, rules: set<Rule>)
    decreases |es|
  {
    es == [] ||
    (Enabled(w, es[0]) && (forall r <- rules :: Obeys(w, es[0], r)) && Legal(Next(w, es[0]), es[1..], rules))
  }

  function After(w: World, es: seq<Event>, rules: set<Rule>): World
    requires Legal(w, es, rules)
    decreases |es|
  {
    if es == [] then w else After(Next(w, es[0]), es[1..], rules)
  }
}
