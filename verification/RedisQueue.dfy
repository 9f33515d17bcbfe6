/** The queue object, whose methods change the stored keys in place. */
module RedisQueueObject {
  import opened Jobs
  import opened SortedSet
  import opened Commands
  import opened Pipeline
  import QM = QueueModel
  import E = Effects

  class RedisQueue {
    var data: map<JobId, Job>
    var ready: map<int, seq<JobId>>
    var delayed: ZSet
    var inflight: map<QM.Slot, int>
    var dlq: seq<JobId>

    ghost function Value(): QM.Queue
      reads this
    {
      QM.Queue(data, ready, delayed, inflight, dlq)
    }

    constructor ()
      ensures Value() == QM.EMPTY
    {
      data, ready, delayed, inflight, dlq := map[], map[], map[], map[], [];
    }

    method LPushReady(p: int, k: JobId)
      modifies this`ready
      ensures Value() == QM.Push(old(Value()), p, k)
    {
      ready := ready[p := [k] + (if p in ready then ready[p] else [])];
    }

    method Enqueue(job: Job, now: int)
      modifies this
      ensures Value() == QM.Enqueue(old(Value()), job, now)
      ensures data == old(data)[job.id := job] && inflight == old(inflight) && dlq == old(dlq)
      ensures if job.scheduledAt <= now
              then delayed == old(delayed)
                   && ready == old(ready)[job.priority := [job.id] + QM.List(old(Value()), job.priority)]
              else ready == old(ready) && delayed == old(delayed)[job.id := job.scheduledAt]
    {
      data := data[job.id := job];
      if job.scheduledAt <= now {
        LPushReady(job.priority, job.id);
      } else {
        delayed := delayed[job.id := job.scheduledAt];
      }
    }

    /** Tries the ten lists in priority order and leases the oldest entry of the first non-empty one. */
    method Dequeue(workerId: WorkerId, timeout: int, now: int) returns (r: QM.Popped)
      modifies this
      ensures (Value(), r) == QM.Dequeue(old(Value()), workerId, timeout, now)
      ensures QM.Answered(old(Value()), Value(), workerId, now + timeout, r)
    {
      QM.DequeueAnswers(Value(), workerId, timeout, now);
      var p := 0;
      while p < 10
        invariant 0 <= p <= 10
        invariant Value() == old(Value())
        invariant QM.FirstReady(Value(), 0) == QM.FirstReady(Value(), p)
      {
        var l := if p in ready then ready[p] else [];
        if l != [] {
          var k := l[|l| - 1];
          ready := ready[p := l[..|l| - 1]];
          inflight := inflight[QM.Slot(workerId, k) := now + timeout];
          if k in data {
            return QM.Got(data[k]);
          }
          return QM.Missing(k);
        }
        p := p + 1;
      }
      return QM.Empty;
    }

    method Acknowledge(id: JobId, workerId: WorkerId)
      modifies this
      ensures Value() == QM.Acknowledge(old(Value()), id, workerId)
    {
      data := data - {id};
      inflight := inflight - {QM.Slot(workerId, id)};
    }

    method Requeue(job: Job)
      modifies this
      ensures Value() == QM.Requeue(old(Value()), job)
      ensures data == old(data)[job.id := job]
    {
      data := data[job.id := job];
      LPushReady(job.priority, job.id);
    }

    /** `j` is the caller's job record as Nack leaves it. */
    method Nack(job: Job, workerId: WorkerId, errMsg: string, now: int) returns (j: Job)
      modifies this
      ensures var retryAt := NextRetryTime(job.(retryCount := job.retryCount + 1), now);
              && j == QM.NackedJob(job, errMsg, retryAt)
              && Value() == QM.Nack(old(Value()), job, workerId, errMsg, retryAt)
      ensures SameTask(j, job) && j.workerId == job.workerId && j.errorMessage == errMsg && data == old(data)[job.id := j]
      ensures job.status == Failed && job.retryCount < job.maxRetries ==>
                && j.status == Pending && j.retryCount == job.retryCount + 1
                && j.scheduledAt == now + NextRetryDelay(job.id, job.retryCount + 1) / 1_000_000
                && ready == old(ready)[job.priority := [job.id] + QM.List(old(Value()), job.priority)]
                && dlq == old(dlq) && inflight == old(inflight) && delayed == old(delayed)
      ensures !(job.status == Failed && job.retryCount < job.maxRetries) ==>
                && j.status == DeadLetter && j.retryCount == job.retryCount && j.scheduledAt == job.scheduledAt
                && dlq == [job.id] + old(dlq) && inflight == old(inflight) - {QM.Slot(workerId, job.id)}
                && ready == old(ready) && delayed == old(delayed)
    {
      j := job;
      if IsRetryable(job) {
        j := j.(retryCount := j.retryCount + 1);
        j := j.(status := Pending);
        j := j.(errorMessage := errMsg);
        j := j.(scheduledAt := NextRetryTime(job.(retryCount := job.retryCount + 1), now));
        Requeue(j);
        return;
      }
      j := j.(status := DeadLetter);
      j := j.(errorMessage := errMsg);
      data := data[j.id := j];
      dlq := [j.id] + dlq;
      inflight := inflight - {QM.Slot(workerId, j.id)};
    }

    /** Scans the due keys, reads each, queues the commands, then runs the pipeline. */
    method MoveDelayed(batchSize: int, now: int) returns (moved: nat)
      modifies this
      ensures Value() == QM.MoveDelayed(old(Value()), batchSize, now)
      ensures E.Moved(old(Value()), Value(), batchSize, now, moved)
    {
      E.MoveDelayedEffect(Value(), batchSize, now);
      var jobKeys := Limit(RangeByScore(delayed, 0, now), batchSize);
      moved := 0;
      var pipe: seq<MoveCommand> := [];
      for i := 0 to |jobKeys|
        invariant Value() == old(Value())
        invariant pipe == Collected(data, jobKeys[..i])
        invariant moved == Readable(data, jobKeys[..i])
      {
        var jobKey := jobKeys[i];
        assert jobKeys[..i + 1][..i] == jobKeys[..i];
        if jobKey in data {
          pipe := pipe + [PushReady(data[jobKey].priority, jobKey), Undelay(jobKey)];
          moved := moved + 1;
        } else {
          pipe := pipe + [Undelay(jobKey)];
        }
      }
      assert jobKeys[..|jobKeys|] == jobKeys;
      PipelineMoves(Value(), jobKeys);
      Exec(pipe);
    }

    method Exec(pipe: seq<MoveCommand>)
      modifies this`ready, this`delayed
      ensures Value() == ApplyAll(old(Value()), pipe)
    {
      for i := 0 to |pipe|
        invariant Value() == ApplyAll(old(Value()), pipe[..i])
      {
        assert pipe[..i + 1][..i] == pipe[..i];
        match pipe[i]
        case PushReady(p, k) => LPushReady(p, k);
        case Undelay(k) => delayed := delayed - {k};
      }
      assert pipe[..|pipe|] == pipe;
    }

    /** For each scanned worker: requeue every expired lease with data, drop the others. */
    method ReclaimOrphaned(scan: seq<WorkerId>, maxAge: int, now: int) returns (reclaimed: nat)
      modifies this
      ensures Value() == QM.ReclaimOrphaned(old(Value()), scan, maxAge, now)
      ensures reclaimed == QM.ReclaimCount(old(Value()), scan, maxAge, now)
      ensures QM.DataKeyed(old(Value())) ==>
                var leases := E.ExpiredLeases(old(Value()), scan, maxAge, now);
                && E.Reclaims(old(Value()), Value(), leases, now)
                && reclaimed == |E.WithData(old(Value()), leases)|
    {
      if QM.DataKeyed(Value()) {
        E.ReclaimOrphanedEffect(Value(), scan, maxAge, now);
      }
      reclaimed := 0;
      for i := 0 to |scan|
        invariant QM.ReclaimOrphaned(old(Value()), scan, maxAge, now)
               == QM.ReclaimOrphaned(Value(), scan[i..], maxAge, now)
        invariant QM.ReclaimCount(old(Value()), scan, maxAge, now)
               == reclaimed + QM.ReclaimCount(Value(), scan[i..], maxAge, now)
      {
        assert scan[i..][0] == scan[i] && scan[i..][1..] == scan[i + 1..];
        var n := ReclaimWorker(scan[i], maxAge, now);
        reclaimed := reclaimed + n;
      }
    }

    method ReclaimWorker(workerId: WorkerId, maxAge: int, now: int) returns (n: nat)
      modifies this
      ensures var q := old(Value());
              var ks := QM.ExpiredKeys(q, workerId, maxAge, now);
              Value() == QM.ReclaimKeys(q, workerId, ks, now) && n == QM.ReclaimKeysCount(q, workerId, ks, now)
    {
      var z := map s | s in inflight && s.worker == workerId :: s.key := inflight[s];
      assert z == QM.InFlightOf(Value(), workerId);
      var jobKeys := RangeByScore(z, 0, now - maxAge);
      n := ReclaimJobs(workerId, jobKeys, now);
    }

    method ReclaimJobs(workerId: WorkerId, jobKeys: seq<JobId>, now: int) returns (n: nat)
      modifies this
      ensures Value() == QM.ReclaimKeys(old(Value()), workerId, jobKeys, now)
      ensures n == QM.ReclaimKeysCount(old(Value()), workerId, jobKeys, now)
    {
      n := 0;
      for j := 0 to |jobKeys|
        invariant QM.ReclaimKeys(old(Value()), workerId, jobKeys, now)
               == QM.ReclaimKeys(Value(), workerId, jobKeys[j..], now)
        invariant QM.ReclaimKeysCount(old(Value()), workerId, jobKeys, now)
               == n + QM.ReclaimKeysCount(Value(), workerId, jobKeys[j..], now)
      {
        assert jobKeys[j..][0] == jobKeys[j] && jobKeys[j..][1..] == jobKeys[j + 1..];
        var one := ReclaimOne(workerId, jobKeys[j], now);
        n := n + one;
      }
    }

    method ReclaimOne(workerId: WorkerId, jobKey: JobId, now: int) returns (n: nat)
      modifies this
      ensures Value() == QM.ReclaimOne(old(Value()), workerId, jobKey, QM.RetryTimeOf(old(Value()), jobKey, now))
      ensures n == if jobKey in old(data) then 1 else 0
      ensures jobKey in old(data) && old(data)[jobKey].id == jobKey ==>
                jobKey in data && E.Returned(old(data)[jobKey], data[jobKey], 1, now)
    {
      if jobKey !in data {
        inflight := inflight - {QM.Slot(workerId, jobKey)};
        return 0;
      }
      var job := data[jobKey];
      job := job.(retryCount := job.retryCount + 1);
      var at := NextRetryTime(job, now);
      job := job.(status := Pending, workerId := "");
      job := job.(scheduledAt := at);
      Requeue(job);
      inflight := inflight - {QM.Slot(workerId, jobKey)};
      return 1;
    }
  }
}
