/** A step concerns one key: everything about the other keys stays as it was. */
module ProtocolFrame {
  import opened Jobs
  import opened QueueModel
  import opened Protocol

  ghost predicate Keyed(w: World) {
    DataKeyed(w.q) && forall d <- w.held :: d < w.issued && w.held[d].at <= w.clock
  }

  lemma {:induction false} DataKeyedStep(w: World, e: Event)
    requires Enabled(w, e) && DataKeyed(w.q)
    ensures DataKeyed(NextQueue(w, e))
  {
  }

  lemma {:induction false} KeyedStep(w: World, e: Event)
    requires Enabled(w, e) && Keyed(w)
    ensures Keyed(Next(w, e))
  {
    DataKeyedStep(w, e);
  }

  /** The key an event is about, if any. */
  ghost function Touched(w: World, e: Event): Option<JobId>
    requires Enabled(w, e)
  {
    match e
    case Submit(job) => Some(job.id)
    case Retry(job) => Some(job.id)
    case Pop(_) => NextKey(w.q)
    case Ack(d) => Some(w.held[d].job.id)
    case Fail(d, _, _, _) => Some(w.held[d].job.id)
    case Crash(d) => Some(w.held[d].job.id)
    case Move(k) => Some(k)
    case Reclaim(_, k, _) => Some(k)
    case Lapse(k) => Some(k)
    case Tick(_) => None
  }

  ghost predicate SameRecorded(w: World, w': World, j: JobId) {
    && (j in w'.submitted <==> j in w.submitted)
    && (j in w.submitted ==> w'.submitted[j] == w.submitted[j])
    && w'.pops[j] == w.pops[j] && w'.reclaims[j] == w.reclaims[j] && w'.retries[j] == w.retries[j]
    && (j in w'.entered <==> j in w.entered)
    && (j in w.entered ==> w'.entered[j] == w.entered[j])
    && (forall d <- w'.held :: w'.held[d].job.id == j ==> d in w.held && w.held[d] == w'.held[d])
    && (forall d <- w.held :: w.held[d].job.id == j ==> d in w'.held && w.held[d] == w'.held[d])
  }

  lemma {:induction false} RecordedFrame(w: World, e: Event, j: JobId)
    requires Enabled(w, e) && Keyed(w) && Touched(w, e) != Some(j)
    ensures SameRecorded(w, Next(w, e), j)
  {
    if e.Pop? {
      PopRecorded(w, e.worker, j);
    }
  }

  lemma {:induction false} PopRecorded(w: World, wk: WorkerId, j: JobId)
    requires Keyed(w) && NextKey(w.q) != Some(j)
    ensures SameRecorded(w, Next(w, Pop(wk)), j)
  {
  }

  lemma {:induction false} StoredFrame(w: World, e: Event, j: JobId)
    requires Enabled(w, e) && Keyed(w) && Touched(w, e) != Some(j)
    ensures SameKey(w.q, NextQueue(w, e), j)
  {
    match e
    case Submit(job) => EnqueueOthers(w.q, job, w.clock, j);
    case Retry(job) => EnqueueOthers(w.q, job, w.clock, j);
    case Pop(wk) =>
      var p := FirstReady(w.q, 0);
      if p != 10 {
        LeaseOthers(w.q, p, wk, w.clock + LEASE_MS, j);
      }
    case Ack(d) => AcknowledgeOthers(w.q, w.held[d].job.id, w.held[d].worker, j);
    case Lapse(k) => ExpireOthers(w.q, k, j);
    case Fail(d, status, msg, retryAt) => NackOthers(w.q, FailedCopy(w, d, status), w.held[d].worker, msg, retryAt, j);
    case Move(k) => MoveOneOthers(w.q, k, j);
    case Reclaim(wk, k, retryAt) => ReclaimOneOthers(w.q, wk, k, retryAt, j);
    case _ =>
  }

  /** What a dequeue that takes `k` does to the world. */
  ghost predicate PopsKey(w: World, wk: WorkerId, k: JobId, p: int, w': World) {
    && p == FirstReady(w.q, 0) && List(w.q, p) != [] && k == Rightmost(w.q, p)
    && w'.q == Lease(w.q, p, wk, w.clock + LEASE_MS)
    && w'.pops == w.pops + multiset{k} && w'.submitted == w.submitted && w'.retries == w.retries
    && w'.held == if k in w.q.data then w.held[w.issued := Delivery(wk, w.q.data[k], w.clock)] else w.held
  }

  lemma {:induction false} PopEffect(w: World, wk: WorkerId, k: JobId, p: int, w': World)
    requires DataKeyed(w.q) && NextKey(w.q) == Some(k) && p == FirstReady(w.q, 0) && w' == Next(w, Pop(wk))
    ensures PopsKey(w, wk, k, p, w')
  {
  }
}
