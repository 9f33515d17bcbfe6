/** Queue and table agree whenever no call sequence is half done, and the history is an unbroken chain. */
module Agreement {
  import opened Jobs
  import opened QueueModel
  import opened AgreementModel
  import S = Store

  // ---------------------------------------------------------------------------
  // What each key looks like
  // ---------------------------------------------------------------------------

  /** Nowhere but, perhaps, on the dead-letter list. */
  ghost predicate NoLive(q: Queue, k: JobId) {
    forall pl :: pl != Dead ==> Copies(q, pl, k) == 0
  }

  ghost predicate OnlyAt(q: Queue, k: JobId, at: Place) {
    Copies(q, at, k) == 1 && forall pl :: pl != Dead && pl != at ==> Copies(q, pl, k) == 0
  }

  ghost predicate OneWaiting(q: Queue, k: JobId) {
    exists pl :: IsWaiting(pl) && OnlyAt(q, k, pl)
  }

  predicate Stored(q: Queue, k: JobId, st: Status) {
    k in q.data && q.data[k].status == st
  }

  predicate RowIs(t: S.Table, k: JobId, st: Status) {
    k in t.rows && t.rows[k].job.status == st
  }

  ghost predicate IdleOk(s: System, k: JobId) {
    if k !in s.table.rows then NoLive(s.q, k) && k !in s.q.data
    else match s.table.rows[k].job.status
      case Pending => OneWaiting(s.q, k) && Stored(s.q, k, Pending)
      case Completed => NoLive(s.q, k) && k !in s.q.data
      case DeadLetter => NoLive(s.q, k) && Stored(s.q, k, DeadLetter) && Copies(s.q, Dead, k) > 0
      case _ => false
  }

  ghost predicate PcOk(s: System, k: JobId, pc: Pc) {
    match pc
    case Inserted(job) => RowIs(s.table, k, Pending) && NoLive(s.q, k) && k !in s.q.data && job.status == Pending
    case Popped(job, w) =>
      RowIs(s.table, k, Pending) && OnlyAt(s.q, k, InFlight(w)) && Stored(s.q, k, Pending) && job.status == Pending
    case Executing(job, w) =>
      RowIs(s.table, k, Running) && OnlyAt(s.q, k, InFlight(w)) && Stored(s.q, k, Pending) && job.status == Pending
    case Acked(_, _) => RowIs(s.table, k, Running) && NoLive(s.q, k) && k !in s.q.data
    case Nacked(job, _) =>
      && RowIs(s.table, k, Running) && NoLive(s.q, k) && Stored(s.q, k, DeadLetter) && Copies(s.q, Dead, k) > 0
      && job.status == DeadLetter
    case Checked(_) => IdleOk(s, k) && (RowIs(s.table, k, Completed) || RowIs(s.table, k, DeadLetter))
    case Reset(job) => RowIs(s.table, k, Pending) && NoLive(s.q, k) && job.status == Pending && job.scheduledAt <= s.clock
  }

  ghost predicate KeyOk(s: System, k: JobId) {
    && (forall a, b :: Engaged(s, a, k) && Engaged(s, b, k) ==> a == b)
    && (forall a :: Engaged(s, a, k) ==> PcOk(s, k, s.actors[a]))
    && ((forall a :: !Engaged(s, a, k)) ==> IdleOk(s, k))
  }

  /** What the row says while an actor is at work on the job. */
  predicate RowFits(t: S.Table, k: JobId, pc: Pc) {
    match pc
    case Inserted(job) => RowIs(t, k, Pending) && job.status == Pending
    case Popped(job, _) => RowIs(t, k, Pending) && job.status == Pending
    case Executing(job, _) => RowIs(t, k, Running) && job.status == Pending
    case Acked(_, _) => RowIs(t, k, Running)
    case Nacked(job, _) => RowIs(t, k, Running) && job.status == DeadLetter
    case Checked(_) => RowIs(t, k, Completed) || RowIs(t, k, DeadLetter)
    case Reset(job) => RowIs(t, k, Pending) && job.status == Pending
  }

  ghost predicate NoneWaiting(q: Queue, k: JobId) {
    forall pl :: IsWaiting(pl) ==> Copies(q, pl, k) == 0
  }

  /** The one waiting copy of a pending job. */
  ghost predicate WaitsAt(s: System, k: JobId, at: Place) {
    && RowIs(s.table, k, Pending) && Copies(s.q, at, k) == 1 && (k in s.q.data ==> s.q.data[k].status == Pending)
    && (forall pl :: IsWaiting(pl) && pl != at ==> Copies(s.q, pl, k) == 0)
  }

  predicate UsualRow(t: S.Table, k: JobId) {
    k in t.rows ==> t.rows[k].job.status in {Pending, Running, Completed, DeadLetter}
  }

  /** What also survives crashes and expired data: one actor or one waiting copy, and a row that fits. */
  ghost predicate Loose(s: System, k: JobId) {
    && (forall a, b :: Engaged(s, a, k) && Engaged(s, b, k) ==> a == b)
    && (forall a :: Engaged(s, a, k) ==> RowFits(s.table, k, s.actors[a]) && NoneWaiting(s.q, k))
    && (forall pl :: IsWaiting(pl) && Copies(s.q, pl, k) > 0 ==> WaitsAt(s, k, pl))
    && UsualRow(s.table, k)
  }

  ghost predicate Clean(s: System, k: JobId) {
    k !in s.lapsed && k !in s.crashed && k !in s.upset
  }

  ghost predicate Keyed(s: System) {
    DataKeyed(s.q) && (forall k <- s.table.rows :: s.table.rows[k].job.id == k)
  }

  ghost predicate Inv(s: System) {
    && Keyed(s)
    && (forall k :: k !in s.upset ==> Loose(s, k))
    && (forall k :: Clean(s, k) ==> KeyOk(s, k))
  }

  // ---------------------------------------------------------------------------
  // A step concerns one key
  // ---------------------------------------------------------------------------

  ghost function Touched(s: System, e: Event): Option<JobId>
    requires Enabled(s, e)
  {
    match e
    case Submit(_, job) => Some(job.id)
    case Pop(_, _) => NextKey(s.q)
    case RetryGet(_, id) => Some(id)
    case Move(k) => Some(k)
    case Lapse(k) => Some(k)
    case Reclaim(_, k, _) => Some(k)
    case Delete(k) => Some(k)
    case Tick(_) => None
    case _ => Some(s.actors[e.a].job.id)
  }

  lemma {:induction false} KeyedStep(s: System, e: Event)
    requires Enabled(s, e) && Keyed(s)
    ensures Keyed(Next(s, e))
  {
    assert DataKeyed(NextQueue(s, e));
  }

  lemma {:induction false} QueueFrame(s: System, e: Event, j: JobId)
    requires Enabled(s, e) && Keyed(s) && Touched(s, e) != Some(j)
    ensures SameKey(s.q, NextQueue(s, e), j)
  {
    match e
    case EnqueueNew(a) => EnqueueOthers(s.q, s.actors[a].job, s.clock, j);
    case Pop(_, w) =>
      var p := FirstReady(s.q, 0);
      if p != 10 {
        LeaseOthers(s.q, p, w, s.clock + LEASE_MS, j);
      }
    case Ack(a) => AcknowledgeOthers(s.q, s.actors[a].job.id, s.actors[a].w, j);
    case Nack(a, status, msg, retryAt) => NackOthers(s.q, Left(s, a, status), s.actors[a].w, msg, retryAt, j);
    case RetryEnqueue(a) => EnqueueOthers(s.q, s.actors[a].job, s.clock, j);
    case Move(k) => MoveOneOthers(s.q, k, j);
    case Lapse(k) => ExpireOthers(s.q, k, j);
    case Reclaim(w, k, retryAt) => ReclaimOneOthers(s.q, w, k, retryAt, j);
    case _ =>
  }

  ghost predicate SameRow(t: S.Table, t': S.Table, j: JobId) {
    (j in t'.rows <==> j in t.rows) && (j in t.rows ==> t'.rows[j] == t.rows[j])
  }

  lemma {:induction false} TableFrame(s: System, e: Event, j: JobId)
    requires Enabled(s, e) && Touched(s, e) != Some(j)
    ensures SameRow(s.table, NextTable(s, e), j)
  {
  }

  ghost predicate SameActors(s: System, s': System, j: JobId) {
    forall a :: (Engaged(s', a, j) <==> Engaged(s, a, j)) && (Engaged(s, a, j) ==> s'.actors[a] == s.actors[a])
  }

  lemma {:induction false} ActorsFrame(s: System, e: Event, j: JobId)
    requires Enabled(s, e) && Keyed(s) && Touched(s, e) != Some(j)
    ensures SameActors(s, Next(s, e), j)
  {
    var acts := NextActors(s, e);
    forall a
      ensures (a in acts && acts[a].job.id == j) <==> (a in s.actors && s.actors[a].job.id == j)
      ensures a in s.actors && s.actors[a].job.id == j ==> a in acts && acts[a] == s.actors[a]
    {
    }
  }

  lemma {:induction false} SameKeepsIdle(s: System, s': System, j: JobId)
    requires IdleOk(s, j) && SameKey(s.q, s'.q, j) && SameRow(s.table, s'.table, j)
    ensures IdleOk(s', j)
  {
    if OneWaiting(s.q, j) {
      var pl :| IsWaiting(pl) && OnlyAt(s.q, j, pl);
      assert OnlyAt(s'.q, j, pl);
    }
  }

  lemma {:induction false} SameKeepsKey(s: System, s': System, j: JobId)
    requires KeyOk(s, j) && SameKey(s.q, s'.q, j) && SameRow(s.table, s'.table, j) && SameActors(s, s', j)
    requires s.clock <= s'.clock
    ensures KeyOk(s', j)
  {
    forall a | Engaged(s', a, j)
      ensures PcOk(s', j, s'.actors[a])
    {
      assert Engaged(s, a, j) && PcOk(s, j, s.actors[a]);
      if s.actors[a].Checked? {
        SameKeepsIdle(s, s', j);
      }
    }
    if forall a :: !Engaged(s', a, j) {
      assert forall a :: !Engaged(s, a, j);
      SameKeepsIdle(s, s', j);
    }
  }

  // ---------------------------------------------------------------------------
  // Each kind of step
  // ---------------------------------------------------------------------------

  /** Only `a` is at work on `k`, and it stays so at `pc`. */
  lemma {:induction false} StaysEngaged(s: System, s': System, a: nat, k: JobId, pc: Pc)
    requires forall b :: Engaged(s, b, k) ==> b == a
    requires s'.actors == s.actors[a := pc] && pc.job.id == k && PcOk(s', k, pc)
    ensures KeyOk(s', k)
  {
    assert Engaged(s', a, k);
    assert forall b :: Engaged(s', b, k) ==> Engaged(s, b, k) || b == a;
  }

  lemma {:induction false} BecomesIdle(s: System, s': System, a: nat, k: JobId)
    requires forall b :: Engaged(s, b, k) ==> b == a
    requires s'.actors == s.actors - {a} && IdleOk(s', k)
    ensures KeyOk(s', k)
  {
    assert forall b :: Engaged(s', b, k) ==> Engaged(s, b, k) && b != a;
  }

  /** A key that is waiting is idle and pending. */
  lemma {:induction false} WaitingIsIdle(s: System, k: JobId, pl: Place)
    requires KeyOk(s, k) && IsWaiting(pl) && Copies(s.q, pl, k) > 0
    ensures (forall a :: !Engaged(s, a, k)) && RowIs(s.table, k, Pending) && OnlyAt(s.q, k, pl) && Stored(s.q, k, Pending)
  {
    assert forall a :: !Engaged(s, a, k);
    assert IdleOk(s, k);
  }

  lemma {:induction false} SubmitOk(s: System, a: nat, job: Job)
    requires Enabled(s, Submit(a, job)) && KeyOk(s, job.id)
    ensures KeyOk(Next(s, Submit(a, job)), job.id)
  {
    var s' := Next(s, Submit(a, job));
    assert forall b :: !Engaged(s, b, job.id);
    assert IdleOk(s, job.id);
    StaysEngaged(s, s', a, job.id, Inserted(job));
  }

  lemma {:induction false} EnqueuedOneWaiting(q: Queue, job: Job, now: int)
    requires NoLive(q, job.id)
    ensures OneWaiting(Enqueue(q, job, now), job.id)
  {
    EnqueuePlaces(q, job, now);
    assert Copies(q, Delayed, job.id) == 0;
    assert OnlyAt(Enqueue(q, job, now), job.id, if job.scheduledAt <= now then Ready(job.priority) else Delayed);
  }

  lemma {:induction false} EnqueueOk(s: System, e: Event, k: JobId)
    requires e.EnqueueNew? || e.RetryEnqueue?
    requires Enabled(s, e) && Engaged(s, e.a, k) && KeyOk(s, k)
    ensures KeyOk(Next(s, e), k)
  {
    var s', pc := Next(s, e), s.actors[e.a];
    assert PcOk(s, k, pc);
    EnqueuedOneWaiting(s.q, pc.job, s.clock);
    BecomesIdle(s, s', e.a, k);
  }

  lemma {:induction false} PopLeases(q: Queue, w: WorkerId, now: int, k: JobId)
    requires NextKey(q) == Some(k) && OnlyAt(q, k, Ready(FirstReady(q, 0)))
    ensures OnlyAt(Dequeue(q, w, LEASE_MS, now).0, k, InFlight(w))
  {
    LeasePlaces(q, FirstReady(q, 0), w, now + LEASE_MS);
  }

  lemma {:induction false} PopOk(s: System, a: nat, w: WorkerId, k: JobId)
    requires Enabled(s, Pop(a, w)) && Keyed(s) && KeyOk(s, k) && NextKey(s.q) == Some(k)
    ensures KeyOk(Next(s, Pop(a, w)), k)
  {
    var p, s' := FirstReady(s.q, 0), Next(s, Pop(a, w));
    LeasePlaces(s.q, p, w, s.clock + LEASE_MS);
    WaitingIsIdle(s, k, Ready(p));
    PopLeases(s.q, w, s.clock, k);
    StaysEngaged(s, s', a, k, Popped(s.q.data[k], w));
  }

  lemma {:induction false} MarkRunningOk(s: System, a: nat, k: JobId)
    requires Enabled(s, MarkRunning(a)) && Engaged(s, a, k) && KeyOk(s, k)
    ensures KeyOk(Next(s, MarkRunning(a)), k)
  {
    var pc := s.actors[a];
    assert PcOk(s, k, pc);
    StaysEngaged(s, Next(s, MarkRunning(a)), a, k, Executing(pc.job, pc.w));
  }

  lemma {:induction false} AckOk(s: System, a: nat, k: JobId)
    requires Enabled(s, Ack(a)) && Engaged(s, a, k) && KeyOk(s, k)
    ensures KeyOk(Next(s, Ack(a)), k)
  {
    var s', pc := Next(s, Ack(a)), s.actors[a];
    assert PcOk(s, k, pc);
    AcknowledgePlaces(s.q, k, pc.w);
    assert NoLive(s'.q, k);
    StaysEngaged(s, s', a, k, Acked(pc.job, pc.w));
  }

  lemma {:induction false} NackOk(s: System, a: nat, status: Status, msg: string, retryAt: int, k: JobId)
    requires Enabled(s, Event.Nack(a, status, msg, retryAt)) && Engaged(s, a, k) && KeyOk(s, k)
    requires !IsRetryable(Left(s, a, status))
    ensures KeyOk(Next(s, Event.Nack(a, status, msg, retryAt)), k)
  {
    var s', pc := Next(s, Event.Nack(a, status, msg, retryAt)), s.actors[a];
    assert PcOk(s, k, pc);
    NackDeadPlaces(s.q, Left(s, a, status), pc.w, msg, retryAt);
    assert NoLive(s'.q, k);
    StaysEngaged(s, s', a, k, Nacked(NackedJob(Left(s, a, status), msg, retryAt), pc.w));
  }

  lemma {:induction false} MarkDoneOk(s: System, e: Event, k: JobId)
    requires e.MarkCompleted? || e.MarkFailed?
    requires Enabled(s, e) && Engaged(s, e.a, k) && KeyOk(s, k)
    ensures KeyOk(Next(s, e), k)
  {
    var s' := Next(s, e);
    assert PcOk(s, k, s.actors[e.a]);
    assert IdleOk(s', k);
    BecomesIdle(s, s', e.a, k);
  }

  lemma {:induction false} RetryGetOk(s: System, a: nat, id: JobId)
    requires Enabled(s, RetryGet(a, id)) && Alone(s, RetryGet(a, id)) && id !in s.upset && Keyed(s) && KeyOk(s, id)
    ensures KeyOk(Next(s, RetryGet(a, id)), id)
  {
    var s' := Next(s, RetryGet(a, id));
    assert IdleOk(s, id);
    assert IdleOk(s', id);
    StaysEngaged(s, s', a, id, Checked(s.table.rows[id].job));
  }

  lemma {:induction false} RetryUpdateOk(s: System, a: nat, k: JobId)
    requires Enabled(s, RetryUpdate(a)) && Engaged(s, a, k) && KeyOk(s, k)
    ensures KeyOk(Next(s, RetryUpdate(a)), k)
  {
    var s', pc := Next(s, RetryUpdate(a)), s.actors[a];
    assert PcOk(s, k, pc);
    StaysEngaged(s, s', a, k, Reset(Again(pc.job, s.clock)));
  }

  lemma {:induction false} MoveOk(s: System, k: JobId)
    requires Enabled(s, Move(k)) && KeyOk(s, k)
    ensures KeyOk(Next(s, Move(k)), k)
  {
    var s' := Next(s, Move(k));
    assert Copies(s.q, Delayed, k) == 1;
    WaitingIsIdle(s, k, Delayed);
    MoveOnePlaces(s.q, k);
    assert OnlyAt(s'.q, k, Ready(s.q.data[k].priority));
    assert OneWaiting(s'.q, k);
    assert forall a :: !Engaged(s', a, k) by {
      assert forall a :: Engaged(s', a, k) ==> Engaged(s, a, k);
    }
  }

  lemma {:induction false} TouchedOk(s: System, e: Event, k: JobId)
    requires Enabled(s, e) && Alone(s, e) && Keyed(s) && KeyOk(s, k) && Touched(s, e) == Some(k)
    requires Clean(Next(s, e), k)
    ensures KeyOk(Next(s, e), k)
  {
    match e
    case Submit(a, job) => SubmitOk(s, a, job);
    case EnqueueNew(_) => EnqueueOk(s, e, k);
    case Pop(a, w) => PopOk(s, a, w, k);
    case MarkRunning(a) => MarkRunningOk(s, a, k);
    case Ack(a) => AckOk(s, a, k);
    case MarkCompleted(_) => MarkDoneOk(s, e, k);
    case Nack(a, status, msg, retryAt) => NackOk(s, a, status, msg, retryAt, k);
    case MarkFailed(_, _) => MarkDoneOk(s, e, k);
    case RetryGet(a, id) => RetryGetOk(s, a, id);
    case RetryUpdate(a) => RetryUpdateOk(s, a, k);
    case RetryEnqueue(_) => EnqueueOk(s, e, k);
    case Move(_) => MoveOk(s, k);
    case _ =>
  }

  // ---------------------------------------------------------------------------
  // What survives crashes and expired data
  // ---------------------------------------------------------------------------

  lemma {:induction false} SameKeepsLoose(s: System, s': System, j: JobId)
    requires Loose(s, j) && SameKey(s.q, s'.q, j) && SameRow(s.table, s'.table, j) && SameActors(s, s', j)
    ensures Loose(s', j)
  {
    forall pl | IsWaiting(pl) && Copies(s'.q, pl, j) > 0
      ensures WaitsAt(s', j, pl)
    {
      assert WaitsAt(s, j, pl);
    }
    forall a | Engaged(s', a, j)
      ensures RowFits(s'.table, j, s'.actors[a]) && NoneWaiting(s'.q, j)
    {
      assert Engaged(s, a, j) && RowFits(s.table, j, s.actors[a]) && NoneWaiting(s.q, j);
    }
  }

  /** Only `a` is at work on `k`, at `pc`, and no copy waits. */
  lemma {:induction false} LooseEngaged(s: System, s': System, a: nat, k: JobId, pc: Pc)
    requires forall b :: Engaged(s, b, k) ==> b == a
    requires s'.actors == s.actors[a := pc] && pc.job.id == k && RowFits(s'.table, k, pc) && NoneWaiting(s'.q, k)
    ensures Loose(s', k)
  {
    assert forall b :: Engaged(s', b, k) ==> Engaged(s, b, k) || b == a;
  }

  lemma {:induction false} LooseLeaves(s: System, s': System, a: nat, k: JobId)
    requires (forall b :: Engaged(s, b, k) ==> b == a) && s'.actors == s.actors - {a}
    ensures forall b :: !Engaged(s', b, k)
  {
    assert forall b :: Engaged(s', b, k) ==> Engaged(s, b, k) && b != a;
  }

  lemma {:induction false} LooseIdle(s: System, s': System, k: JobId)
    requires forall a :: !Engaged(s', a, k)
    requires UsualRow(s'.table, k) && forall pl :: IsWaiting(pl) && Copies(s'.q, pl, k) > 0 ==> WaitsAt(s', k, pl)
    ensures Loose(s', k)
  {
  }

  /** A submission or a read of a terminal row: nobody is at work on the job and no copy waits. */
  lemma {:induction false} LooseArrives(s: System, e: Event, k: JobId)
    requires e.Submit? || e.RetryGet?
    requires Enabled(s, e) && Alone(s, e) && Keyed(s) && k !in s.upset && Loose(s, k) && Touched(s, e) == Some(k)
    ensures Loose(Next(s, e), k)
  {
    var s' := Next(s, e);
    assert forall b :: !Engaged(s, b, k);
    assert NoneWaiting(s.q, k) by {
      forall pl | IsWaiting(pl)
        ensures Copies(s.q, pl, k) == 0
      {
        assert Copies(s.q, pl, k) > 0 ==> WaitsAt(s, k, pl);
      }
    }
    LooseEngaged(s, s', e.a, k, s'.actors[e.a]);
  }

  lemma {:induction false} LooseEnqueued(s: System, e: Event, k: JobId)
    requires e.EnqueueNew? || e.RetryEnqueue?
    requires Enabled(s, e) && Loose(s, k) && Engaged(s, e.a, k)
    ensures Loose(Next(s, e), k)
  {
    var s', job := Next(s, e), s.actors[e.a].job;
    EnqueuePlaces(s.q, job, s.clock);
    assert IsWaiting(Delayed) && Copies(s.q, Delayed, k) == 0;
    LooseLeaves(s, s', e.a, k);
    LooseIdle(s, s', k);
  }

  lemma {:induction false} LoosePop(s: System, a: nat, w: WorkerId, k: JobId)
    requires Enabled(s, Pop(a, w)) && Keyed(s) && Loose(s, k) && NextKey(s.q) == Some(k)
    ensures Loose(Next(s, Pop(a, w)), k)
  {
    var p, s' := FirstReady(s.q, 0), Next(s, Pop(a, w));
    LeasePlaces(s.q, p, w, s.clock + LEASE_MS);
    assert IsWaiting(Ready(p)) && WaitsAt(s, k, Ready(p));
    assert forall b :: !Engaged(s, b, k);
    assert NoneWaiting(s'.q, k);
    if k in s.q.data {
      LooseEngaged(s, s', a, k, Popped(s.q.data[k], w));
    } else {
      LooseIdle(s, s', k);
    }
  }

  /** A worker or a manual retry goes on to its next call, or is done, without making a copy wait. */
  lemma {:induction false} LooseGoesOn(s: System, e: Event, k: JobId)
    requires e.MarkRunning? || e.Ack? || e.MarkCompleted? || e.Nack? || e.MarkFailed? || e.RetryUpdate? || e.Crash?
    requires Enabled(s, e) && Loose(s, k) && Engaged(s, e.a, k) && k !in Next(s, e).upset
    ensures Loose(Next(s, e), k)
  {
    var s', pc := Next(s, e), s.actors[e.a];
    assert RowFits(s.table, k, pc) && NoneWaiting(s.q, k);
    StillNoneWaiting(s, e, k);
    if e.MarkCompleted? || e.MarkFailed? || e.Crash? {
      LooseLeaves(s, s', e.a, k);
      LooseIdle(s, s', k);
    } else {
      LooseEngaged(s, s', e.a, k, s'.actors[e.a]);
    }
  }

  lemma {:induction false} StillNoneWaiting(s: System, e: Event, k: JobId)
    requires e.MarkRunning? || e.Ack? || e.MarkCompleted? || e.Nack? || e.MarkFailed? || e.RetryUpdate? || e.Crash?
    requires Enabled(s, e) && Engaged(s, e.a, k) && NoneWaiting(s.q, k)
    requires e.Nack? ==> !IsRetryable(Left(s, e.a, e.status))
    ensures NoneWaiting(NextQueue(s, e), k)
  {
    match e
    case Ack(a) => AcknowledgePlaces(s.q, k, s.actors[a].w);
    case Nack(a, status, msg, retryAt) => NackDeadPlaces(s.q, Left(s, a, status), s.actors[a].w, msg, retryAt);
    case _ =>
  }

  lemma {:induction false} LooseMove(s: System, k: JobId)
    requires Enabled(s, Move(k)) && Loose(s, k)
    ensures Loose(Next(s, Move(k)), k)
  {
    var s' := Next(s, Move(k));
    MoveOnePlaces(s.q, k);
    assert IsWaiting(Delayed) && WaitsAt(s, k, Delayed);
    assert forall b :: !Engaged(s, b, k);
    assert forall b :: Engaged(s', b, k) ==> Engaged(s, b, k);
    LooseIdle(s, s', k);
  }

  lemma {:induction false} LooseLapse(s: System, k: JobId)
    requires Enabled(s, Lapse(k)) && Loose(s, k)
    ensures Loose(Next(s, Lapse(k)), k)
  {
    var s' := Next(s, Lapse(k));
    assert forall pl :: Copies(s'.q, pl, k) == Copies(s.q, pl, k);
    assert forall a :: Engaged(s', a, k) <==> Engaged(s, a, k);
    forall pl | IsWaiting(pl) && Copies(s'.q, pl, k) > 0
      ensures WaitsAt(s', k, pl)
    {
      assert WaitsAt(s, k, pl);
    }
  }

  lemma {:induction false} TouchedLoose(s: System, e: Event, k: JobId)
    requires Enabled(s, e) && Alone(s, e) && Keyed(s) && Loose(s, k) && Touched(s, e) == Some(k)
    requires k !in Next(s, e).upset
    ensures Loose(Next(s, e), k)
  {
    match e
    case Submit(_, _) => LooseArrives(s, e, k);
    case RetryGet(_, _) => LooseArrives(s, e, k);
    case EnqueueNew(_) => LooseEnqueued(s, e, k);
    case RetryEnqueue(_) => LooseEnqueued(s, e, k);
    case Pop(a, w) => LoosePop(s, a, w, k);
    case Move(_) => LooseMove(s, k);
    case Lapse(_) => LooseLapse(s, k);
    case Reclaim(_, _, _) =>
    case Delete(_) =>
    case _ => LooseGoesOn(s, e, k);
  }

  lemma {:induction false} AloneKeeps(s: System, e: Event)
    requires Enabled(s, e) && Alone(s, e) && Inv(s)
    ensures Inv(Next(s, e))
  {
    var s' := Next(s, e);
    KeyedStep(s, e);
    forall k: JobId
      ensures k !in s'.upset ==> Loose(s', k)
      ensures Clean(s', k) ==> KeyOk(s', k)
    {
      if k !in s'.upset {
        assert Loose(s, k) && (Clean(s', k) ==> Clean(s, k) && KeyOk(s, k));
        if Touched(s, e) == Some(k) {
          TouchedLoose(s, e, k);
          if Clean(s', k) {
            TouchedOk(s, e, k);
          }
        } else {
          QueueFrame(s, e, k);
          TableFrame(s, e, k);
          ActorsFrame(s, e, k);
          SameKeepsLoose(s, s', k);
          if Clean(s', k) {
            SameKeepsKey(s, s', k);
          }
        }
      }
    }
  }

  /** Every event keeps the invariant, except exactly a manual retry started beside another call sequence. */
  lemma {:induction false} InvStep(s: System, e: Event)
    requires Enabled(s, e) && Inv(s)
    ensures Inv(Next(s, e)) <==> Alone(s, e)
  {
    if Alone(s, e) {
      AloneKeeps(s, e);
    } else {
      var b :| Engaged(s, b, e.id);
      var s' := Next(s, e);
      assert s.table.rows[e.id].job.id == e.id;
      assert Engaged(s', e.a, e.id) && Engaged(s', b, e.id);
      assert e.id !in s'.upset && !Loose(s', e.id);
    }
  }

  // ---------------------------------------------------------------------------
  // The history
  // ---------------------------------------------------------------------------

  /** The five transitions that occur. */
  predicate Occurs(a: Status, b: Status) {
    || (a == Pending && b == Running) || (a == Running && b == Completed) || (a == Running && b == DeadLetter)
    || (a == Completed && b == Pending) || (a == DeadLetter && b == Pending)
  }

  /** Only the first two of them are transitions the lifecycle declares. */
  lemma {:induction false} DeclaredTransitions(a: Status, b: Status)
    requires Occurs(a, b)
    ensures a.CanTransitionTo(b) <==> (a == Pending && b == Running) || (a == Running && b == Completed)
  {
  }

  /** The chain is every job's; the transitions are the usual ones for the jobs not in `upset`. */
  ghost predicate HistoryInv(t: S.Table, upset: set<JobId>) {
    (forall c <- t.history :: c.id !in upset ==> Occurs(c.before, c.after)) && forall k: JobId :: S.HistoryOk(t, k)
  }

  lemma {:induction false} MarkedHistory(t: S.Table, id: JobId, st: Status, o: S.UpdateOpts, upset: set<JobId>)
    requires HistoryInv(t, upset) && (id in t.rows && id !in upset ==> Occurs(t.rows[id].job.status, st))
    ensures HistoryInv(Marked(t, id, st, o), upset)
  {
    forall k: JobId
      ensures S.HistoryOk(Marked(t, id, st, o), k)
    {
      assert S.HistoryOk(t, k);
      S.UpdateKeepsHistory(t, id, st, o, k);
    }
  }

  lemma {:induction false} DeletedHistory(t: S.Table, id: JobId, upset: set<JobId>)
    requires HistoryInv(t, upset)
    ensures HistoryInv(S.DeleteJob(t, id).0, upset)
  {
    forall k: JobId
      ensures S.HistoryOk(S.DeleteJob(t, id).0, k)
    {
      assert S.HistoryOk(t, k);
      S.StepKeepsHistory(t, S.Delete(id), k);
    }
    WithoutKeeps(t.history, id);
  }

  lemma {:induction false} WithoutKeeps(h: seq<S.Change>, id: JobId)
    ensures forall c <- S.WithoutJob(h, id) :: c in h
  {
    if h != [] {
      WithoutKeeps(h[..|h| - 1], id);
    }
  }

  lemma {:induction false} HistoryStep(s: System, e: Event)
    requires Enabled(s, e) && Inv(s) && HistoryInv(s.table, s.upset)
    ensures HistoryInv(NextTable(s, e), Upset(s, e))
  {
    if e.Submit? {
      forall k: JobId
        ensures S.HistoryOk(NextTable(s, e), k)
      {
        assert S.HistoryOk(s.table, k);
      }
    } else if e.Delete? {
      DeletedHistory(s.table, e.k, s.upset);
    } else if e.MarkRunning? || e.MarkCompleted? || e.MarkFailed? || e.RetryUpdate? {
      var k := s.actors[e.a].job.id;
      assert Engaged(s, e.a, k) && (k !in s.upset ==> Loose(s, k));
      MarkHistory(s, e, k);
    }
  }

  lemma {:induction false} MarkHistory(s: System, e: Event, k: JobId)
    requires e.MarkRunning? || e.MarkCompleted? || e.MarkFailed? || e.RetryUpdate?
    requires Enabled(s, e) && HistoryInv(s.table, s.upset) && s.actors[e.a].job.id == k
    requires k !in s.upset ==> RowFits(s.table, k, s.actors[e.a])
    ensures HistoryInv(NextTable(s, e), s.upset)
  {
    var pc := s.actors[e.a];
    match e
    case MarkRunning(_) =>
      MarkedHistory(s.table, k, Running, S.NO_OPTS.(workerId := pc.w, startedAt := Some(s.clock)), s.upset);
    case MarkCompleted(_) =>
      MarkedHistory(s.table, k, Completed, S.NO_OPTS.(completedAt := Some(s.clock)), s.upset);
    case MarkFailed(_, msg) =>
      MarkedHistory(s.table, k, FailureStatus(pc.job), S.NO_OPTS.(errorMessage := msg), s.upset);
    case RetryUpdate(_) =>
      MarkedHistory(s.table, k, Pending, S.NO_OPTS, s.upset);
    case _ =>
  }

  lemma {:induction false} InvRun(s: System, es: seq<Event>)
    requires Legal(s, es) && Inv(s) && HistoryInv(s.table, s.upset)
    ensures Possible(s, es)
    ensures Inv(After(s, es)) && HistoryInv(After(s, es).table, After(s, es).upset)
    decreases |es|
  {
    LegalIsPossible(s, es);
    if es != [] {
      InvStep(s, es[0]);
      HistoryStep(s, es[0]);
      InvRun(Next(s, es[0]), es[1..]);
    }
  }

  // ---------------------------------------------------------------------------
  // Main results
  // ---------------------------------------------------------------------------

  /** The status a key's place in the queue stands for. */
  ghost function Implied(q: Queue, k: JobId): Status {
    if exists pl :: IsWaiting(pl) && Copies(q, pl, k) > 0 then Pending
    else if exists w :: Copies(q, InFlight(w), k) > 0 then Running
    else if k in q.data then DeadLetter
    else Completed
  }

  /** No actor is between a queue call and its matching store call for `k`. */
  ghost predicate Settled(s: System, k: JobId) {
    forall a :: Engaged(s, a, k) ==> s.actors[a].Executing? || s.actors[a].Checked?
  }

  lemma {:induction false} ImpliedByPlace(q: Queue, k: JobId)
    ensures OneWaiting(q, k) ==> Implied(q, k) == Pending
    ensures forall w :: OnlyAt(q, k, InFlight(w)) ==> Implied(q, k) == Running
    ensures NoLive(q, k) ==> Implied(q, k) == if k in q.data then DeadLetter else Completed
  {
  }

  ghost predicate Agrees(s: System, k: JobId)
    requires k in s.table.rows
  {
    s.table.rows[k].job.status == Implied(s.q, k)
  }

  lemma {:induction false} AgreesIffSettled(s: System, k: JobId)
    requires KeyOk(s, k) && k in s.table.rows
    ensures Agrees(s, k) <==> Settled(s, k)
  {
    ImpliedByPlace(s.q, k);
    if a :| Engaged(s, a, k) {
      assert PcOk(s, k, s.actors[a]);
    } else {
      assert IdleOk(s, k);
    }
  }

  /** Queue and table agree: in every run, a row's status is the one the job's place in the queue implies
      (waiting is pending, leased is running, stored but only dead-lettered is dead_letter, acknowledged is
      completed) exactly when no call sequence on the job is half done. This is so for every job that was
      not itself crashed on, reclaimed, deleted, requeued by a nack or left without data, whatever happened
      to the others. */
  lemma {:induction false} QueueAndTableAgree(t: int, es: seq<Event>, k: JobId)
    requires Legal(Start(t), es)
    ensures Possible(Start(t), es)
    ensures var s := After(Start(t), es);
            Clean(s, k) && k in s.table.rows ==> (Agrees(s, k) <==> Settled(s, k))
  {
    InvRun(Start(t), es);
    var s := After(Start(t), es);
    if Clean(s, k) && k in s.table.rows {
      AgreesIffSettled(s, k);
    }
  }

  /** And the history of every job, these included, is an unbroken chain from pending to its current status.
      It is made of just five transitions, of which running to dead_letter and terminal to pending are
      undeclared, unless the job was reclaimed, deleted or requeued by a nack. */
  lemma {:induction false} HistoryOfRuns(t: int, es: seq<Event>, k: JobId)
    requires Legal(Start(t), es)
    ensures Possible(Start(t), es)
    ensures var s := After(Start(t), es);
            && (k in s.table.rows ==> S.Chain(S.Trail(s.table.history, k), Pending, s.table.rows[k].job.status))
            && (forall c <- s.table.history :: c.id !in s.upset ==> Occurs(c.before, c.after))
  {
    InvRun(Start(t), es);
    assert S.HistoryOk(After(Start(t), es).table, k);
  }

  // ---------------------------------------------------------------------------
  // What each excluded event does
  // ---------------------------------------------------------------------------

  /** An actor that crashes leaves queue and table in agreement about its job exactly when it was executing
      the handler or had only read the row. */
  lemma {:induction false} CrashAgreesIff(s: System, a: nat, k: JobId)
    requires Inv(s) && Clean(s, k) && Engaged(s, a, k)
    ensures k in s.table.rows
    ensures Agrees(Next(s, Crash(a)), k) <==> s.actors[a].Executing? || s.actors[a].Checked?
  {
    assert KeyOk(s, k) && PcOk(s, k, s.actors[a]);
    AgreesIffSettled(s, k);
  }

  /** Data that expires while no call sequence is half done ends the agreement exactly for a job that is
      dead-lettered: without its data it looks acknowledged. */
  lemma {:induction false} LapseAgreesIff(s: System, k: JobId)
    requires Inv(s) && Clean(s, k) && Settled(s, k) && k in s.q.data
    ensures k in s.table.rows
    ensures Agrees(Next(s, Lapse(k)), k) <==> s.table.rows[k].job.status != DeadLetter
  {
    assert KeyOk(s, k);
    if a :| Engaged(s, a, k) {
      assert PcOk(s, k, s.actors[a]);
    } else {
      assert IdleOk(s, k);
    }
    AgreesIffSettled(s, k);
    ImpliedWithoutData(s.q, k);
  }

  lemma {:induction false} ImpliedWithoutData(q: Queue, k: JobId)
    requires k in q.data
    ensures Implied(Expire(q, k), k) == if Implied(q, k) == DeadLetter then Completed else Implied(q, k)
  {
    assert forall pl :: Copies(Expire(q, k), pl, k) == Copies(q, pl, k);
  }

  lemma {:induction false} ImpliedWaiting(q: Queue, k: JobId, p: int)
    requires Copies(q, Ready(p), k) > 0
    ensures Implied(q, k) == Pending
  {
    assert IsWaiting(Ready(p));
  }

  /** When a worker has crashed and its lease is reclaimed, they agree exactly when it had not yet marked the
      row running: then the reclaim restores the agreement that the crash had broken. */
  lemma {:induction false} ReclaimAgreesIff(s: System, a: nat, k: JobId, retryAt: int, s1: System, s2: System)
    requires Inv(s) && Clean(s, k) && Engaged(s, a, k) && (s.actors[a].Popped? || s.actors[a].Executing?)
    requires s1 == Next(s, Crash(a))
    requires Enabled(s1, Reclaim(s.actors[a].w, k, retryAt)) && s2 == Next(s1, Reclaim(s.actors[a].w, k, retryAt))
    ensures k in s2.table.rows && (Agrees(s2, k) <==> s.actors[a].Popped?)
  {
    assert KeyOk(s, k) && PcOk(s, k, s.actors[a]);
    assert s2.table == s.table;
    assert Implied(s2.q, k) == Pending by {
      ReclaimedWaits(s, s.actors[a].w, k, retryAt, s2.q);
    }
  }

  lemma {:induction false} ReclaimedWaits(s: System, w: WorkerId, k: JobId, retryAt: int, q': Queue)
    requires Keyed(s) && k in s.q.data && Slot(w, k) in s.q.inflight && q' == ReclaimOne(s.q, w, k, retryAt)
    ensures Implied(q', k) == Pending
  {
    ReclaimOnePlaces(s.q, w, k, retryAt);
    ImpliedWaiting(q', k, s.q.data[k].priority);
  }

  /** A failing handler: once the worker has written its status, they agree exactly when Nack dead-lettered.
      A job left `failed` with retries to spare waits again while its row says dead_letter. */
  lemma {:induction false} FailureAgreesIff(s: System, a: nat, status: Status, msg: string, retryAt: int, k: JobId)
    requires Inv(s) && Clean(s, k) && Engaged(s, a, k) && s.actors[a].Executing?
    ensures k in s.table.rows
    ensures var s' := Next(Next(s, Event.Nack(a, status, msg, retryAt)), MarkFailed(a, msg));
            k in s'.table.rows && (Agrees(s', k) <==> !IsRetryable(Left(s, a, status)))
  {
    assert KeyOk(s, k) && PcOk(s, k, s.actors[a]);
    var j, w := Left(s, a, status), s.actors[a].w;
    var s1 := Next(s, Event.Nack(a, status, msg, retryAt));
    var s' := Next(s1, MarkFailed(a, msg));
    if IsRetryable(j) {
      RequeuePlaces(s.q, NackedJob(j, msg, retryAt));
      ImpliedWaiting(s'.q, k, j.priority);
    } else {
      NackDeadPlaces(s.q, j, w, msg, retryAt);
      assert NoLive(s'.q, k);
      ImpliedByPlace(s'.q, k);
    }
  }

  /** A manual retry stores the row's job as new: same task, retry count zero, pending, no error, no worker,
      due at the moment of the update. */
  lemma {:induction false} RetryStores(s: System, a: nat, k: JobId)
    requires Inv(s) && Clean(s, k) && Engaged(s, a, k) && s.actors[a].Checked?
    ensures var s' := Next(Next(s, RetryUpdate(a)), RetryEnqueue(a));
            && k in s'.q.data && SameTask(s'.q.data[k], s.actors[a].job)
            && s'.q.data[k].retryCount == 0 && s'.q.data[k].status == Pending && s'.q.data[k].errorMessage == ""
            && s'.q.data[k].workerId == "" && s'.q.data[k].scheduledAt == s.clock
            && Copies(s'.q, Ready(s.actors[a].job.priority), k) == 1
  {
    assert KeyOk(s, k) && PcOk(s, k, s.actors[a]);
    var job := Again(s.actors[a].job, s.clock);
    EnqueuePlaces(s.q, job, s.clock);
    assert Copies(s.q, Ready(job.priority), k) == 0;
  }
}
