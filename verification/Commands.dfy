/** The single Redis commands behind the queue operations. */
module Commands {
  import opened Jobs
  import opened QueueModel

  datatype Command =
    | Set(job: Job)
    | Del(k: JobId)
    | PushReady(p: int, k: JobId)
    | PushDead(k: JobId)
    | EndLease(w: WorkerId, k: JobId)
    | Undelay(k: JobId)
    | DropLeases(w: WorkerId)

  function Apply(q: Queue, c: Command): Queue {
    match c
    case Set(job) => q.(data := q.data[job.id := job])
    case Del(k) => q.(data := q.data - {k})
    case PushReady(p, k) => Push(q, p, k)
    case PushDead(k) => q.(dlq := [k] + q.dlq)
    case EndLease(w, k) => q.(inflight := q.inflight - {Slot(w, k)})
    case Undelay(k) => q.(delayed := q.delayed - {k})
    case DropLeases(w) => q.(inflight := map s | s in q.inflight && s.worker != w :: q.inflight[s])
  }

  function ApplyAll(q: Queue, cs: seq<Command>): Queue {
    if cs == [] then q else Apply(ApplyAll(q, cs[..|cs| - 1]), cs[|cs| - 1])
  }

  datatype Operation =
    | Acking(id: JobId, w: WorkerId)
    | Nacking(job: Job, w: WorkerId, msg: string, retryAt: int)
    | Moving(k: JobId)
    | Reclaiming(w: WorkerId, k: JobId, retryAt: int)

  /** The commands an operation sends, in order, given what it read. */
  function CommandsOf(q: Queue, op: Operation): seq<Command> {
    match op
    case Acking(id, w) => [Del(id), EndLease(w, id)]
    case Nacking(job, w, msg, retryAt) =>
      var j := NackedJob(job, msg, retryAt);
      if IsRetryable(job) then [Set(j), PushReady(j.priority, j.id)]
      else [Set(j), PushDead(j.id), EndLease(w, j.id)]
    case Moving(k) =>
      if k in q.data then [PushReady(q.data[k].priority, k), Undelay(k)] else [Undelay(k)]
    case Reclaiming(w, k, retryAt) =>
      if k in q.data then
        var j := ReclaimedJob(q.data[k], retryAt);
        [Set(j), PushReady(j.priority, j.id), EndLease(w, k)]
      else [EndLease(w, k)]
  }

  lemma {:induction false} ApplyAppend(q: Queue, a: seq<Command>, b: seq<Command>)
    ensures ApplyAll(q, a + b) == ApplyAll(ApplyAll(q, a), b)
    decreases |b|
  {
    if b == [] {
      assert a + b == a;
    } else {
      var n := |b| - 1;
      assert (a + b)[..|a| + n] == a + b[..n] && (a + b)[|a| + n] == b[n];
      ApplyAppend(q, a, b[..n]);
    }
  }

  lemma {:induction false} ApplyFirst(q: Queue, cs: seq<Command>)
    requires cs != []
    ensures ApplyAll(q, cs) == ApplyAll(Apply(q, cs[0]), cs[1..])
  {
    assert cs == [cs[0]] + cs[1..] && [cs[0]][..0] == [];
    ApplyAppend(q, [cs[0]], cs[1..]);
  }
}
