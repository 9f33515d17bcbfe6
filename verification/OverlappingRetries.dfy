/** Two manual retries of one job at the same time, from the first submission to the disagreement. */
module OverlappingRetries {
  import opened Jobs
  import opened QueueModel
  import opened SoloStore
  import opened AgreementModel
  import opened Agreement

  ghost predicate Run(t: int, es: seq<Event>, s: System) {
    Possible(Start(t), es) && s == After(Start(t), es)
  }

  lemma {:induction false} Extend(s: System, es: seq<Event>, e: Event)
    requires Possible(s, es) && Enabled(After(s, es), e)
    ensures Possible(s, es + [e]) && After(s, es + [e]) == Next(After(s, es), e)
    decreases |es|
  {
    if es == [] {
      assert [] + [e] == [e] && [e][1..] == [];
    } else {
      Extend(Next(s, es[0]), es[1..], e);
      assert (es + [e])[1..] == es[1..] + [e];
    }
  }

  lemma {:induction false} Step(t: int, es: seq<Event>, s: System, e: Event) returns (s': System)
    requires Run(t, es, s) && Enabled(s, e)
    ensures s' == Next(s, e) && Run(t, es + [e], s')
  {
    s' := Next(s, e);
    Extend(Start(t), es, e);
  }

  /** The table holds just the row of `job`, with the given status. */
  ghost predicate Row(s: System, job: Job, st: Status) {
    && s.table.rows.Keys == {job.id}
    && s.table.rows[job.id].job.id == job.id && s.table.rows[job.id].job.priority == job.priority
    && s.table.rows[job.id].job.status == st
  }

  /** An empty store that has had a list at `p`. */
  function Drained(p: int): Queue {
    Queue(map[], map[p := []], map[], map[], [])
  }

  lemma {:induction false} Submitted(t: int, job: Job) returns (s: System)
    requires Due(job, t)
    ensures Run(t, [Submit(0, job)] + [EnqueueNew(0)], s)
    ensures s.q == Solo(job, job.priority, [job.id], map[]) && s.clock == t && s.actors == map[] && Row(s, job, Pending)
  {
    assert [] + [Submit(0, job)] == [Submit(0, job)];
    var s1 := Step(t, [], Start(t), Submit(0, job));
    assert s1.actors[0] == Inserted(job) && s1.actors - {0} == map[];
    SoloEnqueue(job, t);
    s := Step(t, [Submit(0, job)], s1, EnqueueNew(0));
  }

  /** A worker takes the oldest copy of the one job. */
  lemma {:induction false} Dequeued(t: int, es: seq<Event>, s: System, job: Job, d: Job, list: seq<JobId>, w: WorkerId)
    returns (s': System)
    requires Run(t, es, s) && s.actors == map[] && IsNew(job) && d.id == job.id
    requires s.q == Solo(d, job.priority, list + [job.id], map[])
    ensures Run(t, es + [Pop(0, w)], s')
    ensures s' == s.(q := Solo(d, job.priority, list, map[Slot(w, job.id) := s.clock + LEASE_MS]),
                     actors := map[0 := Popped(d, w)])
  {
    SoloPop(d, job.priority, list, map[], w, LEASE_MS, s.clock);
    s' := Step(t, es, s, Pop(0, w));
    assert map[][0 := Popped(d, w)] == map[0 := Popped(d, w)];
    assert map[][Slot(w, job.id) := s.clock + LEASE_MS] == map[Slot(w, job.id) := s.clock + LEASE_MS];
  }

  /** And marks its row running. */
  lemma {:induction false} Taken(t: int, es: seq<Event>, s: System, job: Job, d: Job, list: seq<JobId>, w: WorkerId)
    returns (s': System)
    requires Run(t, es, s) && s.actors == map[] && IsNew(job) && d.id == job.id
    requires s.q == Solo(d, job.priority, list + [job.id], map[]) && exists st :: Row(s, job, st)
    ensures Run(t, es + [Pop(0, w)] + [MarkRunning(0)], s')
    ensures s'.q == Solo(d, job.priority, list, map[Slot(w, job.id) := s.clock + LEASE_MS])
    ensures s'.clock == s.clock && s'.actors == map[0 := Executing(d, w)] && Row(s', job, Running)
  {
    var s1 := Dequeued(t, es, s, job, d, list, w);
    s' := Step(t, es + [Pop(0, w)], s1, MarkRunning(0));
    assert s1.actors[0 := Executing(d, w)] == map[0 := Executing(d, w)];
  }

  lemma {:induction false} Finished(t: int, es: seq<Event>, s: System, job: Job, d: Job, w: WorkerId) returns (s': System)
    requires Run(t, es, s) && s.actors == map[0 := Executing(d, w)] && d.id == job.id && Row(s, job, Running)
    requires s.q == Solo(d, job.priority, [], map[Slot(w, job.id) := s.clock + LEASE_MS])
    ensures Run(t, es + [Ack(0)] + [MarkCompleted(0)], s')
    ensures s'.q == Drained(job.priority) && s'.clock == s.clock && s'.actors == map[] && Row(s', job, Completed)
  {
    var s1 := Step(t, es, s, Ack(0));
    assert s.q.data - {job.id} == map[] && s.q.inflight - {Slot(w, job.id)} == map[];
    assert s1.actors == map[0 := Acked(d, w)];
    s' := Step(t, es + [Ack(0)], s1, MarkCompleted(0));
    assert s1.actors - {0} == map[];
  }

  /** Both read the terminal row. */
  lemma {:induction false} BothCheck(t: int, es: seq<Event>, s: System, job: Job) returns (s': System)
    requires Run(t, es, s) && s.actors == map[] && Row(s, job, Completed)
    ensures Run(t, es + [RetryGet(0, job.id)] + [RetryGet(1, job.id)], s')
    ensures var row := s.table.rows[job.id].job; s' == s.(actors := map[0 := Checked(row), 1 := Checked(row)])
  {
    var s1 := Step(t, es, s, RetryGet(0, job.id));
    s' := Step(t, es + [RetryGet(0, job.id)], s1, RetryGet(1, job.id));
    var row := s.table.rows[job.id].job;
    assert s.actors[0 := Checked(row)][1 := Checked(row)] == map[0 := Checked(row), 1 := Checked(row)];
  }

  /** Both set it back to pending. */
  lemma {:induction false} BothReset(t: int, es: seq<Event>, s: System, job: Job, row: Job) returns (s': System)
    requires Run(t, es, s) && Row(s, job, Completed) && row.id == job.id
    requires s.actors == map[0 := Checked(row), 1 := Checked(row)]
    ensures Run(t, es + [RetryUpdate(0)] + [RetryUpdate(1)], s')
    ensures s'.q == s.q && s'.clock == s.clock && Row(s', job, Pending)
    ensures s'.actors == map[0 := Reset(Again(row, s.clock)), 1 := Reset(Again(row, s.clock))]
  {
    var again := Reset(Again(row, s.clock));
    var s1 := Step(t, es, s, RetryUpdate(0));
    s' := Step(t, es + [RetryUpdate(0)], s1, RetryUpdate(1));
    assert s.actors[0 := again][1 := again] == map[0 := again, 1 := again];
  }

  lemma {:induction false} EnqueueAgain(q: Queue, d: Job, p: int, list: seq<JobId>, now: int)
    requires d.priority == p && d.scheduledAt <= now && q.data.Keys <= {d.id} && q.ready == map[p := list]
    requires q == Queue(q.data, q.ready, map[], map[], [])
    ensures Enqueue(q, d, now) == Solo(d, p, [d.id] + list, map[])
  {
    assert q.data[d.id := d] == map[d.id := d] && q.ready[p := [d.id] + list] == map[p := [d.id] + list];
  }

  /** And both enqueue it. */
  lemma {:induction false} BothEnqueue(t: int, es: seq<Event>, s: System, job: Job, d: Job) returns (s': System)
    requires Run(t, es, s) && Row(s, job, Pending) && d.id == job.id && d.priority == job.priority && d.scheduledAt <= s.clock
    requires s.q == Drained(job.priority) && s.actors == map[0 := Reset(d), 1 := Reset(d)]
    ensures Run(t, es + [RetryEnqueue(0)] + [RetryEnqueue(1)], s')
    ensures s'.q == Solo(d, job.priority, [job.id, job.id], map[])
    ensures s'.clock == s.clock && s'.actors == map[] && Row(s', job, Pending)
  {
    var k, p := job.id, job.priority;
    assert [k] + [] == [k] && [k] + [k] == [k, k];
    EnqueueAgain(s.q, d, p, [], s.clock);
    var s1 := Step(t, es, s, RetryEnqueue(0));
    assert s1.actors == map[1 := Reset(d)];
    EnqueueAgain(s1.q, d, p, [k], s.clock);
    s' := Step(t, es + [RetryEnqueue(0)], s1, RetryEnqueue(1));
    assert s1.actors - {1} == map[];
  }

  /** Submitted, run, completed, and retried by two calls at once. */
  function TwoRetries(job: Job, w: WorkerId): seq<Event> {
    [Submit(0, job)] + [EnqueueNew(0)] + [Pop(0, w)] + [MarkRunning(0)] + [Ack(0)] + [MarkCompleted(0)]
    + [RetryGet(0, job.id)] + [RetryGet(1, job.id)] + [RetryUpdate(0)] + [RetryUpdate(1)]
    + [RetryEnqueue(0)] + [RetryEnqueue(1)]
  }

  lemma {:induction false} TwoRetriesQueueTwice(t: int, job: Job, w: WorkerId) returns (s: System, d: Job)
    requires Due(job, t)
    ensures Run(t, TwoRetries(job, w), s) && d.id == job.id
    ensures s.q == Solo(d, job.priority, [job.id, job.id], map[])
    ensures s.clock == t && s.actors == map[] && Row(s, job, Pending)
  {
    var es1 := [Submit(0, job)] + [EnqueueNew(0)];
    var s1 := Submitted(t, job);
    assert [] + [job.id] == [job.id];
    var s2 := Taken(t, es1, s1, job, job, [], w);
    var es2 := es1 + [Pop(0, w)] + [MarkRunning(0)];
    var s3 := Finished(t, es2, s2, job, job, w);
    var es3 := es2 + [Ack(0)] + [MarkCompleted(0)];
    var row := s3.table.rows[job.id].job;
    var s4 := BothCheck(t, es3, s3, job);
    var es4 := es3 + [RetryGet(0, job.id)] + [RetryGet(1, job.id)];
    var s5 := BothReset(t, es4, s4, job, row);
    d := Again(row, t);
    s := BothEnqueue(t, es4 + [RetryUpdate(0)] + [RetryUpdate(1)], s5, job, d);
  }

  /** Two RetryJob calls that both pass the terminal check queue the job twice; once a worker has taken one
      copy, the row says running while the job waits, with no call sequence half done. So the premise
      `Alone` cannot be dropped. */
  lemma {:induction false} OverlappingRetriesDisagree(t: int, job: Job, w: WorkerId)
    requires Due(job, t)
    ensures Possible(Start(t), TwoRetries(job, w))
            && Copies(After(Start(t), TwoRetries(job, w)).q, Ready(job.priority), job.id) == 2
    ensures var es := TwoRetries(job, w) + [Pop(0, w)] + [MarkRunning(0)];
            && Possible(Start(t), es)
            && var s := After(Start(t), es);
               && job.id in s.table.rows && Agreement.Settled(s, job.id) && !Agrees(s, job.id)
  {
    var k := job.id;
    var s1, d := TwoRetriesQueueTwice(t, job, w);
    assert Copies(s1.q, Ready(job.priority), k) == 2;
    assert [k] + [k] == [k, k];
    var s := Taken(t, TwoRetries(job, w), s1, job, d, [k], w);
    assert IsWaiting(Ready(job.priority)) && Copies(s.q, Ready(job.priority), k) == 1;
    assert Implied(s.q, k) == Pending;
  }
}
