/** Queue and table together: submitters, workers, manual retries, crashes, expiring data, reclaims and
    deletions, one queue or store call at a time. */
module AgreementModel {
  import opened Jobs
  import opened QueueModel
  import S = Store

  /** Where an actor stands between two calls, with its own copy of the job. */
  datatype Pc =
    | Inserted(job: Job)                   // row inserted, not yet enqueued
    | Popped(job: Job, w: WorkerId)        // dequeued, row not yet marked running
    | Executing(job: Job, w: WorkerId)     // handler at work
    | Acked(job: Job, w: WorkerId)         // acknowledged, row not yet marked completed
    | Nacked(job: Job, w: WorkerId)        // nacked, row not yet marked failed; the job as Nack left it
    | Checked(job: Job)                    // manual retry has read a terminal row
    | Reset(job: Job)                      // row set back to pending, not yet enqueued

  /** The last three fields are history: the jobs whose data expired, those an actor crashed on, and those
      that were reclaimed, deleted or requeued by a nack. */
  datatype System = System(
    q: Queue,
    clock: int,
    table: S.Table,
    actors: map<nat, Pc>,
    lapsed: set<JobId>,
    crashed: set<JobId>,
    upset: set<JobId>)

  function Start(t: int): System {
    System(EMPTY, t, S.Table(map[], []), map[], {}, {}, {})
  }

  datatype Event =
    | Submit(a: nat, job: Job)
    | EnqueueNew(a: nat)
    | Pop(a: nat, w: WorkerId)
    | MarkRunning(a: nat)
    | Ack(a: nat)
    | MarkCompleted(a: nat)
    | Nack(a: nat, status: Status, msg: string, retryAt: int)
    | MarkFailed(a: nat, msg: string)
    | RetryGet(a: nat, id: JobId)
    | RetryUpdate(a: nat)
    | RetryEnqueue(a: nat)
    | Move(k: JobId)
    | Lapse(k: JobId)
    | Crash(a: nat)
    | Reclaim(w: WorkerId, k: JobId, retryAt: int)
    | Delete(k: JobId)
    | Tick(t: int)

  ghost predicate Engaged(s: System, a: nat, k: JobId) {
    a in s.actors && s.actors[a].job.id == k
  }

  ghost predicate Enabled(s: System, e: Event) {
    match e
    case Submit(a, job) => a !in s.actors && IsNew(job) && job.id !in s.table.rows
    case EnqueueNew(a) => a in s.actors && s.actors[a].Inserted?
    case Pop(a, _) => a !in s.actors
    case MarkRunning(a) => a in s.actors && s.actors[a].Popped?
    case Ack(a) => a in s.actors && s.actors[a].Executing?
    case MarkCompleted(a) => a in s.actors && s.actors[a].Acked?
    case Nack(a, _, _, _) => a in s.actors && s.actors[a].Executing?
    case MarkFailed(a, _) => a in s.actors && s.actors[a].Nacked?
    case RetryGet(a, id) =>
      a !in s.actors && id in s.table.rows && s.table.rows[id].job.status.IsTerminal()
    case RetryUpdate(a) => a in s.actors && s.actors[a].Checked?
    case RetryEnqueue(a) => a in s.actors && s.actors[a].Reset?
    case Move(k) => k in s.q.delayed && 0 <= s.q.delayed[k] <= s.clock
    case Lapse(k) => k in s.q.data
    case Crash(a) => a in s.actors
    case Reclaim(w, k, _) =>
      Slot(w, k) in s.q.inflight && 0 <= s.q.inflight[Slot(w, k)] <= s.clock - MAX_AGE_MS
    case Delete(k) => k in s.table.rows
    case Tick(t) => s.clock <= t
  }

  /** A manual retry is not started while another call sequence on the same job is under way. */
  ghost predicate Alone(s: System, e: Event) {
    e.RetryGet? && e.id !in s.upset ==> forall b :: !Engaged(s, b, e.id)
  }

  /** The job record a failing handler leaves, of which Nack looks at the status. */
  function Left(s: System, a: nat, status: Status): Job
    requires a in s.actors
  {
    s.actors[a].job.(status := status)
  }

  /** The job as RetryJob resets it. */
  function Again(job: Job, now: int): Job {
    job.(retryCount := 0, status := Pending, errorMessage := "", workerId := "", scheduledAt := now)
  }

  function Marked(t: S.Table, id: JobId, status: Status, o: S.UpdateOpts): S.Table {
    S.UpdateJobStatus(t, id, status, o).0
  }

  /** The status a worker writes after Nack, from the job as Nack left it. */
  function FailureStatus(job: Job): Status {
    if IsRetryable(job) then Failed else DeadLetter
  }

  function NextQueue(s: System, e: Event): Queue
    requires Enabled(s, e)
  {
    match e
    case EnqueueNew(a) => Enqueue(s.q, s.actors[a].job, s.clock)
    case Pop(_, w) => Dequeue(s.q, w, LEASE_MS, s.clock).0
    case Ack(a) => Acknowledge(s.q, s.actors[a].job.id, s.actors[a].w)
    case Nack(a, status, msg, retryAt) => QueueModel.Nack(s.q, Left(s, a, status), s.actors[a].w, msg, retryAt)
    case RetryEnqueue(a) => Enqueue(s.q, s.actors[a].job, s.clock)
    case Move(k) => MoveOne(s.q, k)
    case Lapse(k) => Expire(s.q, k)
    case Reclaim(w, k, retryAt) => ReclaimOne(s.q, w, k, retryAt)
    case _ => s.q
  }

  function NextTable(s: System, e: Event): S.Table
    requires Enabled(s, e)
  {
    match e
    case Submit(_, job) => S.CreateJob(s.table, job).0
    case MarkRunning(a) =>
      Marked(s.table, s.actors[a].job.id, Running, S.NO_OPTS.(workerId := s.actors[a].w, startedAt := Some(s.clock)))
    case MarkCompleted(a) =>
      Marked(s.table, s.actors[a].job.id, Completed, S.NO_OPTS.(completedAt := Some(s.clock)))
    case MarkFailed(a, msg) =>
      Marked(s.table, s.actors[a].job.id, FailureStatus(s.actors[a].job), S.NO_OPTS.(errorMessage := msg))
    case RetryUpdate(a) => Marked(s.table, s.actors[a].job.id, Pending, S.NO_OPTS)
    case Delete(k) => S.DeleteJob(s.table, k).0
    case _ => s.table
  }

  function NextActors(s: System, e: Event): map<nat, Pc>
    requires Enabled(s, e)
  {
    match e
    case Submit(a, job) => s.actors[a := Inserted(job)]
    case Pop(a, w) =>
      (match Dequeue(s.q, w, LEASE_MS, s.clock).1
       case Got(job) => s.actors[a := Popped(job, w)]
       case _ => s.actors)
    case MarkRunning(a) => s.actors[a := Executing(s.actors[a].job, s.actors[a].w)]
    case Ack(a) => s.actors[a := Acked(s.actors[a].job, s.actors[a].w)]
    case Nack(a, status, msg, retryAt) =>
      s.actors[a := Nacked(NackedJob(Left(s, a, status), msg, retryAt), s.actors[a].w)]
    case RetryGet(a, id) => s.actors[a := Checked(s.table.rows[id].job)]
    case RetryUpdate(a) => s.actors[a := Reset(Again(s.actors[a].job, s.clock))]
    case EnqueueNew(a) => s.actors - {a}
    case MarkCompleted(a) => s.actors - {a}
    case MarkFailed(a, _) => s.actors - {a}
    case RetryEnqueue(a) => s.actors - {a}
    case Crash(a) => s.actors - {a}
    case _ => s.actors
  }

  function Next(s: System, e: Event): System
    requires Enabled(s, e)
  {
    System(NextQueue(s, e), if e.Tick? then e.t else s.clock, NextTable(s, e), NextActors(s, e),
           if e.Lapse? then s.lapsed + {e.k} else s.lapsed,
           if e.Crash? then s.crashed + {s.actors[e.a].job.id} else s.crashed,
           Upset(s, e))
  }

  function Upset(s: System, e: Event): set<JobId>
    requires Enabled(s, e)
  {
    match e
    case Nack(a, status, _, _) => if IsRetryable(Left(s, a, status)) then s.upset + {s.actors[a].job.id} else s.upset
    case Reclaim(_, k, _) => s.upset + {k}
    case Delete(k) => s.upset + {k}
    case _ => s.upset
  }

  /** What the code allows. */
  ghost predicate Possible(s: System, es: seq<Event>)
    decreases |es|
  {
    es == [] || (Enabled(s, es[0]) && Possible(Next(s, es[0]), es[1..]))
  }

  ghost predicate Legal(s: System, es: seq<Event>)
    decreases |es|
  {
    es == [] || (Enabled(s, es[0]) && Alone(s, es[0]) && Legal(Next(s, es[0]), es[1..]))
  }

  ghost function After(s: System, es: seq<Event>): System
    requires Possible(s, es)
    decreases |es|
  {
    if es == [] then s else After(Next(s, es[0]), es[1..])
  }

  lemma {:induction false} LegalIsPossible(s: System, es: seq<Event>)
    requires Legal(s, es)
    ensures Possible(s, es)
    decreases |es|
  {
    if es != [] {
      LegalIsPossible(Next(s, es[0]), es[1..]);
    }
  }
}
