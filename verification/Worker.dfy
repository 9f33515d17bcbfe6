/** The worker's handling of one dequeued job: the calls it makes to the queue and to the store, in order. */
module Worker {
  import opened Jobs
  import opened RedisQueueObject
  import QM = QueueModel
  import S = Store

  /** What running the handler came to. */
  datatype HandlerOutcome = NoHandler | Succeeded | FailedOrPanicked | TimedOut

  /** Without a handler nothing touches the record. */
  function AfterHandler(job: Job, outcome: HandlerOutcome, left: Job): Job {
    if outcome == NoHandler then job else left
  }

  function RunningOpts(w: WorkerId, now: int): S.UpdateOpts {
    S.NO_OPTS.(workerId := w, startedAt := Some(now))
  }

  class Pool {
    const workerId: WorkerId
    const queue: RedisQueue
    const store: S.JobStore

    constructor (workerId: WorkerId, queue: RedisQueue, store: S.JobStore)
      ensures this.workerId == workerId && this.queue == queue && this.store == store
    {
      this.workerId, this.queue, this.store := workerId, queue, store;
    }

    method HandleJobSuccess(job: Job, now: int)
      modifies queue, store
      ensures queue.Value() == QM.Acknowledge(old(queue.Value()), job.id, workerId)
      ensures store.Value() ==
              S.UpdateJobStatus(old(store.Value()), job.id, Completed, S.NO_OPTS.(completedAt := Some(now))).0
    {
      queue.Acknowledge(job.id, workerId);
      var _ := store.Update(job.id, Completed, S.NO_OPTS.(completedAt := Some(now)));
    }

    /** The status written depends on the job record as Nack has already changed it. */
    method HandleJobError(job: Job, errMsg: string, now: int)
      modifies queue, store
      ensures var retryAt := NextRetryTime(job.(retryCount := job.retryCount + 1), now);
              queue.Value() == QM.Nack(old(queue.Value()), job, workerId, errMsg, retryAt)
      ensures store.Value() ==
              S.UpdateJobStatus(old(store.Value()), job.id, DeadLetter, S.NO_OPTS.(errorMessage := errMsg)).0
    {
      var j := queue.Nack(job, workerId, errMsg, now);
      var status := Failed;
      if !IsRetryable(j) {
        status := DeadLetter;
      }
      var _ := store.Update(j.id, status, S.NO_OPTS.(errorMessage := errMsg));
    }

    /** One delivery from start to end; `left` is the job record as the handler leaves it, which a handler
        may have changed in any field. The row ends completed or dead_letter. In the queue a success is
        acknowledged; a failure is dead-lettered unless the record is left `failed` with retries to spare:
        then the job waits again and keeps its lease, while its row says dead_letter. */
    method ExecuteJob(job: Job, outcome: HandlerOutcome, left: Job, errMsg: string, now: int)
      modifies queue, store
      ensures var j := AfterHandler(job, outcome, left);
              var running := S.UpdateJobStatus(old(store.Value()), job.id, Running, RunningOpts(workerId, now)).0;
              store.Value() ==
              if outcome == Succeeded
              then S.UpdateJobStatus(running, j.id, Completed, S.NO_OPTS.(completedAt := Some(now))).0
              else S.UpdateJobStatus(running, j.id, DeadLetter, S.NO_OPTS.(errorMessage := errMsg)).0
      ensures var j := AfterHandler(job, outcome, left);
              if outcome == Succeeded then
                && j.id !in queue.data && QM.Slot(workerId, j.id) !in queue.inflight
                && queue.ready == old(queue.ready) && queue.dlq == old(queue.dlq)
              else if IsRetryable(j) then
                && queue.inflight == old(queue.inflight) && queue.dlq == old(queue.dlq)
                && QM.List(queue.Value(), j.priority) == [j.id] + QM.List(old(queue.Value()), j.priority)
                && j.id in queue.data && queue.data[j.id].retryCount == j.retryCount + 1
                && queue.data[j.id].status == Pending
              else
                && queue.dlq == [j.id] + old(queue.dlq) && queue.ready == old(queue.ready)
                && QM.Slot(workerId, j.id) !in queue.inflight
                && j.id in queue.data && queue.data[j.id] == j.(status := DeadLetter, errorMessage := errMsg)
      ensures job.id in old(store.rows) && AfterHandler(job, outcome, left).id == job.id ==>
                && job.id in store.rows
                && var was, row := old(store.rows)[job.id], store.rows[job.id];
                   && row.startedAt == Some(now)
                   && row.completedAt == (if outcome == Succeeded then Some(now) else was.completedAt)
                   && row.job.workerId == (if workerId == "" then was.job.workerId else workerId)
                   && row.job.errorMessage == (if outcome == Succeeded then "" else errMsg)
                   && SameTask(row.job, was.job) && row.job.retryCount == was.job.retryCount
    {
      var _ := store.Update(job.id, Running, RunningOpts(workerId, now));
      var j := AfterHandler(job, outcome, left);
      if outcome == Succeeded {
        HandleJobSuccess(j, now);
      } else {
        HandleJobError(j, errMsg, now);
      }
    }
  }
}
