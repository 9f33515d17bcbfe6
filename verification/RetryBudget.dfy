/** How often a job is dequeued on runs without reclaims: maxRetries + 1 times for its submission and for
    each manual retry that finds it idle, and only once for each when handlers leave the status alone. */
module RetryBudget {
  import opened Jobs
  import opened QueueModel
  import opened Protocol
  import opened ProtocolFrame
  import opened Delivery
  import opened LeaseSafety

  /** The one right to a further delivery: a waiting copy or a worker holding the job, never both. */
  ghost predicate OneTurn(w: World, k: JobId) {
    && (forall pl :: IsWaiting(pl) ==> Copies(w.q, pl, k) <= 1)
    && (forall pl, pl' :: IsWaiting(pl) && IsWaiting(pl') && Copies(w.q, pl, k) > 0 && Copies(w.q, pl', k) > 0 ==> pl == pl')
    && (forall pl, d :: IsWaiting(pl) && Copies(w.q, pl, k) > 0 ==> !Waits(w, d, k))
    && (forall d, d' :: Waits(w, d, k) && Waits(w, d', k) ==> d == d')
  }

  /** Pops so far, `spent` of them in earlier lives of the job, against the retry count of the record the
      next pop would deliver. */
  ghost predicate TurnsUsed(w: World, k: JobId, limit: int, spent: int) {
    && 0 <= limit && w.pops[k] <= spent + limit + 1
    && (k in w.q.data ==> w.q.data[k].maxRetries == limit && w.q.data[k].retryCount <= limit)
    && (forall pl :: IsWaiting(pl) && Copies(w.q, pl, k) > 0 ==>
          w.pops[k] <= spent + limit && (k in w.q.data ==> w.pops[k] <= spent + w.q.data[k].retryCount))
    && (forall d :: Waits(w, d, k) ==>
          var job := w.held[d].job;
          job.maxRetries == limit && job.retryCount <= limit && w.pops[k] <= spent + job.retryCount + 1)
  }

  /** What `n` lives of a job may use up. */
  function Budget(n: nat, limit: int): int {
    n * (limit + 1)
  }

  ghost predicate TurnKey(w: World, k: JobId) {
    && OneTurn(w, k)
    && (k in w.submitted ==>
          TurnsUsed(w, k, w.submitted[k].maxRetries, Budget(w.retries[k], w.submitted[k].maxRetries)))
  }

  lemma {:induction false} TurnSame(w: World, w': World, k: JobId)
    requires TurnKey(w, k) && SameKey(w.q, w'.q, k) && SameRecorded(w, w', k)
    ensures TurnKey(w', k)
  {
    assert forall d :: Waits(w', d, k) <==> Waits(w, d, k);
  }

  lemma {:induction false} TurnSubmit(w: World, job: Job)
    requires Enabled(w, Submit(job)) && KeyInv(w, job.id)
    ensures TurnKey(Next(w, Submit(job)), job.id)
  {
    EnqueuePlaces(w.q, job, w.clock);
    assert Copies(w.q, Delayed, job.id) == 0;
    var w' := Next(w, Submit(job));
    assert forall d :: Waits(w', d, job.id) ==> Waits(w, d, job.id);
    assert Budget(0, job.maxRetries) == 0;
  }

  lemma {:induction false} IdleCopies(w: World, k: JobId)
    ensures Idle(w, k) <==> (forall pl :: IsWaiting(pl) ==> Copies(w.q, pl, k) == 0) && forall d :: !Waits(w, d, k)
  {
    if forall pl :: IsWaiting(pl) ==> Copies(w.q, pl, k) == 0 {
      assert Copies(w.q, Delayed, k) == 0;
      forall p <- w.q.ready
        ensures k !in w.q.ready[p]
      {
        assert IsWaiting(Ready(p)) && Copies(w.q, Ready(p), k) == 0;
      }
    }
    if forall d :: !Waits(w, d, k) {
      assert forall d <- w.held :: !Waits(w, d, k);
    }
  }

  /** A manual retry starts the next life of the job, and keeps the account exactly when it finds the job
      idle. */
  lemma {:induction false} TurnRetry(w: World, job: Job)
    requires Enabled(w, Retry(job)) && TurnKey(w, job.id)
    ensures TurnKey(Next(w, Retry(job)), job.id) <==> Idle(w, job.id)
  {
    var k, w' := job.id, Next(w, Retry(job));
    IdleCopies(w, k);
    RequeuePlaces(w.q, job);
    assert forall d :: Waits(w', d, k) <==> Waits(w, d, k);
    if Idle(w, k) {
      IdleRetryTurn(w, job, w');
    } else {
      BusyRetryBreaks(w, job, w');
    }
  }

  lemma {:induction false} IdleRetryTurn(w: World, job: Job, w': World)
    requires Enabled(w, Retry(job)) && TurnKey(w, job.id) && w' == Next(w, Retry(job))
    requires (forall pl :: IsWaiting(pl) ==> Copies(w.q, pl, job.id) == 0) && forall d :: !Waits(w', d, job.id)
    requires Adds(w.q, w'.q, Ready(job.priority), job.id)
    ensures TurnKey(w', job.id)
  {
    var k := job.id;
    var n, limit := w.retries[k], w.submitted[k].maxRetries;
    assert Budget(n + 1, limit) == Budget(n, limit) + limit + 1;
    assert forall pl :: IsWaiting(pl) ==> Copies(w'.q, pl, k) == if pl == Ready(job.priority) then 1 else 0;
  }

  lemma {:induction false} BusyRetryBreaks(w: World, job: Job, w': World)
    requires (exists pl :: IsWaiting(pl) && Copies(w.q, pl, job.id) > 0) || exists d :: Waits(w', d, job.id)
    requires Adds(w.q, w'.q, Ready(job.priority), job.id)
    ensures !OneTurn(w', job.id)
  {
    var k, home := job.id, Ready(job.priority);
    assert IsWaiting(home) && Copies(w'.q, home, k) > 0;
    if pl :| IsWaiting(pl) && Copies(w.q, pl, k) > 0 {
      assert Copies(w'.q, pl, k) > 0 && (pl == home ==> Copies(w'.q, pl, k) > 1);
    }
  }

  lemma {:induction false} TurnPop(w: World, wk: WorkerId, k: JobId)
    requires Keyed(w) && KeyInv(w, k) && TurnKey(w, k) && NextKey(w.q) == Some(k)
    ensures TurnKey(Next(w, Pop(wk)), k)
  {
    PopEffect(w, wk, k, FirstReady(w.q, 0), Next(w, Pop(wk)));
    TurnPopped(w, wk, k, FirstReady(w.q, 0), Next(w, Pop(wk)));
  }

  lemma {:induction false} TurnPopped(w: World, wk: WorkerId, k: JobId, p: int, w': World)
    requires TurnKey(w, k) && PopsKey(w, wk, k, p, w') && forall d <- w.held :: d < w.issued
    ensures TurnKey(w', k)
  {
    LeasePlaces(w.q, p, wk, w.clock + LEASE_MS);
    assert forall d: nat :: Waits(w', d, k) ==> (Waits(w, d, k) && d < w.issued) || (d == w.issued && k in w.q.data);
    PopTakesTurn(w, p, wk, w', k);
  }

  lemma {:induction false} PopTakesTurn(w: World, p: int, wk: WorkerId, w': World, k: JobId)
    requires TurnKey(w, k) && Copies(w.q, Ready(p), k) > 0 && Copies(w'.q, Ready(p), k) == Copies(w.q, Ready(p), k) - 1
    requires forall pl :: pl != Ready(p) && pl != InFlight(wk) ==> Copies(w'.q, pl, k) == Copies(w.q, pl, k)
    requires w'.q.data == w.q.data && w'.submitted == w.submitted && w'.retries == w.retries
    requires w'.pops[k] == w.pops[k] + 1
    requires forall d: nat :: Waits(w', d, k) ==>
               Waits(w, d, k) || (d == w.issued && k in w.q.data && w'.held[d].job == w.q.data[k])
    ensures TurnKey(w', k)
  {
    assert IsWaiting(Ready(p)) && Copies(w.q, Ready(p), k) == 1;
    assert forall pl :: IsWaiting(pl) ==> Copies(w'.q, pl, k) == 0;
    assert forall d :: !Waits(w, d, k);
  }

  lemma {:induction false} TurnFail(w: World, d: nat, status: Status, msg: string, retryAt: int, k: JobId)
    requires Waits(w, d, k) && KeyInv(w, k) && TurnKey(w, k)
    ensures TurnKey(Next(w, Fail(d, status, msg, retryAt)), k)
  {
    var j, w' := FailedCopy(w, d, status), Next(w, Fail(d, status, msg, retryAt));
    assert forall pl :: IsWaiting(pl) ==> Copies(w.q, pl, k) == 0;
    assert w'.held == w.held - {d};
    assert forall i :: Waits(w', i, k) ==> Waits(w, i, k) && i != d;
    if IsRetryable(j) {
      RequeuePlaces(w.q, NackedJob(j, msg, retryAt));
      assert forall pl :: IsWaiting(pl) && Copies(w'.q, pl, k) > 0 ==> pl == Ready(j.priority);
    } else {
      NackDeadPlaces(w.q, j, w.held[d].worker, msg, retryAt);
      assert forall pl :: IsWaiting(pl) ==> Copies(w'.q, pl, k) == 0;
    }
  }

  lemma {:induction false} TurnMove(w: World, k: JobId)
    requires Enabled(w, Move(k)) && TurnKey(w, k)
    ensures TurnKey(Next(w, Move(k)), k)
  {
    var w' := Next(w, Move(k));
    MoveOnePlaces(w.q, k);
    assert IsWaiting(Delayed) && Copies(w.q, Delayed, k) == 1;
    assert forall d :: Waits(w', d, k) ==> Waits(w, d, k);
    assert forall pl :: IsWaiting(pl) && pl != Delayed ==> Copies(w.q, pl, k) == 0;
  }

  lemma {:induction false} TurnRest(w: World, e: Event, k: JobId)
    requires e.Ack? || e.Crash? || e.Lapse?
    requires Enabled(w, e) && TurnKey(w, k)
    ensures TurnKey(Next(w, e), k)
  {
    var w' := Next(w, e);
    assert forall d :: Waits(w', d, k) ==> Waits(w, d, k) && w'.held[d] == w.held[d];
    assert forall pl :: IsWaiting(pl) ==> Copies(w'.q, pl, k) == Copies(w.q, pl, k);
    TurnShrinks(w, w', k);
  }

  lemma {:induction false} TurnShrinks(w: World, w': World, k: JobId)
    requires TurnKey(w, k) && forall d :: Waits(w', d, k) ==> Waits(w, d, k) && w'.held[d] == w.held[d]
    requires forall pl :: IsWaiting(pl) ==> Copies(w'.q, pl, k) == Copies(w.q, pl, k)
    requires k in w'.q.data ==> k in w.q.data && w'.q.data[k] == w.q.data[k]
    requires w'.submitted == w.submitted && w'.retries == w.retries && w'.pops == w.pops
    ensures TurnKey(w', k)
  {
  }

  lemma {:induction false} TurnTouched(w: World, e: Event, k: JobId)
    requires Enabled(w, e) && Obeys(w, e, IdleRetry) && Obeys(w, e, NoReclaim)
    requires Keyed(w) && KeyInv(w, k) && TurnKey(w, k) && Touched(w, e) == Some(k)
    ensures TurnKey(Next(w, e), k)
  {
    match e
    case Submit(job) => TurnSubmit(w, job);
    case Retry(job) => TurnRetry(w, job);
    case Pop(wk) => TurnPop(w, wk, k);
    case Fail(d, status, msg, retryAt) => TurnFail(w, d, status, msg, retryAt, k);
    case Move(_) => TurnMove(w, k);
    case _ => TurnRest(w, e, k);
  }

  predicate Budgeted(rules: set<Rule>) {
    NoReclaim in rules && (IdleRetry in rules || NoManualRetry in rules)
  }

  lemma {:induction false} TurnStep(w: World, e: Event, k: JobId)
    requires Enabled(w, e) && Obeys(w, e, IdleRetry) && Obeys(w, e, NoReclaim) && Inv(w) && TurnKey(w, k)
    ensures TurnKey(Next(w, e), k)
  {
    assert KeyInv(w, k);
    if Touched(w, e) == Some(k) {
      TurnTouched(w, e, k);
    } else {
      RecordedFrame(w, e, k);
      StoredFrame(w, e, k);
      TurnSame(w, Next(w, e), k);
    }
  }

  lemma {:induction false} TurnRun(w: World, es: seq<Event>, rules: set<Rule>)
    requires Legal(w, es, rules) && Budgeted(rules)
    requires Inv(w) && forall k :: TurnKey(w, k)
    ensures Inv(After(w, es, rules)) && forall k :: TurnKey(After(w, es, rules), k)
    ensures NoManualRetry in rules ==> After(w, es, rules).retries == w.retries
    decreases |es|
  {
    if es != [] {
      var e, w' := es[0], Next(w, es[0]);
      assert Obeys(w, e, NoReclaim) && Obeys(w, e, IdleRetry);
      InvStep(w, e);
      forall k: JobId
        ensures TurnKey(w', k)
      {
        assert TurnKey(w, k);
        TurnStep(w, e, k);
      }
      TurnRun(w', es[1..], rules);
    }
  }

  /** Retry budget in dequeues: on runs without reclaims a job is dequeued at most maxRetries + 1 times for
      its submission and as often again for each manual retry, provided every manual retry finds the job
      idle. Without manual retries the bound is maxRetries + 1. */
  lemma {:induction false} DequeuesBounded(t: nat, es: seq<Event>, rules: set<Rule>, k: JobId)
    requires Legal(Start(t), es, rules) && Budgeted(rules)
    ensures var w := After(Start(t), es, rules);
            if k in w.submitted then w.pops[k] <= (1 + w.retries[k]) * (w.submitted[k].maxRetries + 1) else w.pops[k] == 0
    ensures NoManualRetry in rules ==> After(Start(t), es, rules).retries[k] == 0
  {
    StartInv(t);
    TurnRun(Start(t), es, rules);
    var w := After(Start(t), es, rules);
    assert TurnKey(w, k) && KeyInv(w, k);
    if k in w.submitted {
      var n, limit := w.retries[k], w.submitted[k].maxRetries;
      assert (1 + n) * (limit + 1) == Budget(n, limit) + limit + 1;
    }
  }

  // ---------------------------------------------------------------------------
  // Handlers that leave the status alone
  // ---------------------------------------------------------------------------

  /** Every waiting copy is paid for by the submission or by a manual retry. */
  ghost predicate PaidKey(w: World, k: JobId) {
    && (k in w.submitted ==>
          var p := w.submitted[k].priority;
          && (k in w.q.data ==> w.q.data[k].priority == p)
          && (forall d :: Waits(w, d, k) ==> w.held[d].job.priority == p)
          && (forall p' :: p' != p ==> Copies(w.q, Ready(p'), k) == 0)
          && w.pops[k] + Copies(w.q, Ready(p), k) + Copies(w.q, Delayed, k) <= 1 + w.retries[k])
  }

  lemma {:induction false} PaidSame(w: World, w': World, k: JobId)
    requires PaidKey(w, k) && SameKey(w.q, w'.q, k) && SameRecorded(w, w', k)
    ensures PaidKey(w', k)
  {
    assert forall d :: Waits(w', d, k) <==> Waits(w, d, k);
  }

  lemma {:induction false} PaidEnqueue(w: World, e: Event, job: Job)
    requires e == Submit(job) || e == Retry(job)
    requires Enabled(w, e) && KeyInv(w, job.id) && PaidKey(w, job.id)
    ensures PaidKey(Next(w, e), job.id)
  {
    var w' := Next(w, e);
    EnqueuePlaces(w.q, job, w.clock);
    assert e.Submit? ==> Copies(w.q, Delayed, job.id) == 0;
    assert forall d :: Waits(w', d, job.id) ==> Waits(w, d, job.id);
  }

  lemma {:induction false} PaidPop(w: World, wk: WorkerId, k: JobId)
    requires Keyed(w) && KeyInv(w, k) && PaidKey(w, k) && NextKey(w.q) == Some(k)
    ensures PaidKey(Next(w, Pop(wk)), k)
  {
    PopEffect(w, wk, k, FirstReady(w.q, 0), Next(w, Pop(wk)));
    PaidPopped(w, wk, k, FirstReady(w.q, 0), Next(w, Pop(wk)));
  }

  lemma {:induction false} PaidPopped(w: World, wk: WorkerId, k: JobId, p: int, w': World)
    requires PaidKey(w, k) && PopsKey(w, wk, k, p, w')
    ensures PaidKey(w', k)
  {
    LeasePlaces(w.q, p, wk, w.clock + LEASE_MS);
    assert forall d :: Waits(w', d, k) ==> Waits(w, d, k) || (d == w.issued && k in w.q.data);
    PopPays(w, p, wk, w', k);
  }

  lemma {:induction false} PopPays(w: World, p: int, wk: WorkerId, w': World, k: JobId)
    requires PaidKey(w, k) && Copies(w.q, Ready(p), k) > 0 && Copies(w'.q, Ready(p), k) == Copies(w.q, Ready(p), k) - 1
    requires forall pl :: pl != Ready(p) && pl != InFlight(wk) ==> Copies(w'.q, pl, k) == Copies(w.q, pl, k)
    requires w'.q.data == w.q.data && w'.submitted == w.submitted && w'.retries == w.retries
    requires w'.pops[k] == w.pops[k] + 1
    requires forall d: nat :: Waits(w', d, k) ==>
               (Waits(w, d, k) && w'.held[d] == w.held[d]) || (k in w.q.data && w'.held[d].job == w.q.data[k])
    ensures PaidKey(w', k)
  {
  }

  lemma {:induction false} PaidFail(w: World, d: nat, msg: string, retryAt: int, k: JobId)
    requires Waits(w, d, k) && KeyInv(w, k) && PaidKey(w, k) && Settled(w.held[d].job.status)
    ensures PaidKey(Next(w, Fail(d, w.held[d].job.status, msg, retryAt)), k)
  {
    var j, w' := FailedCopy(w, d, w.held[d].job.status), Next(w, Fail(d, w.held[d].job.status, msg, retryAt));
    NackDeadPlaces(w.q, j, w.held[d].worker, msg, retryAt);
    assert forall i :: Waits(w', i, k) ==> Waits(w, i, k);
  }

  lemma {:induction false} PaidMove(w: World, k: JobId)
    requires Enabled(w, Move(k)) && PaidKey(w, k) && KeyInv(w, k)
    ensures PaidKey(Next(w, Move(k)), k)
  {
    var w' := Next(w, Move(k));
    MoveOnePlaces(w.q, k);
    assert Copies(w.q, Delayed, k) == 1;
    assert forall d :: Waits(w', d, k) ==> Waits(w, d, k);
  }

  lemma {:induction false} PaidRest(w: World, e: Event, k: JobId)
    requires e.Ack? || e.Crash? || e.Lapse?
    requires Enabled(w, e) && PaidKey(w, k)
    ensures PaidKey(Next(w, e), k)
  {
    var w' := Next(w, e);
    assert forall d :: Waits(w', d, k) ==> Waits(w, d, k);
    assert forall pl :: IsWaiting(pl) ==> Copies(w'.q, pl, k) == Copies(w.q, pl, k);
  }

  lemma {:induction false} PaidTouched(w: World, e: Event, k: JobId)
    requires Enabled(w, e) && Obeys(w, e, StatusKept) && Obeys(w, e, NoReclaim)
    requires Keyed(w) && KeyInv(w, k) && StatusInv(w) && PaidKey(w, k) && Touched(w, e) == Some(k)
    ensures PaidKey(Next(w, e), k)
  {
    match e
    case Submit(job) => PaidEnqueue(w, e, job);
    case Retry(job) => PaidEnqueue(w, e, job);
    case Pop(wk) => PaidPop(w, wk, k);
    case Fail(d, _, msg, retryAt) => PaidFail(w, d, msg, retryAt, k);
    case Move(_) => PaidMove(w, k);
    case _ => PaidRest(w, e, k);
  }

  lemma {:induction false} PaidStep(w: World, e: Event, k: JobId)
    requires Enabled(w, e) && Obeys(w, e, StatusKept) && Obeys(w, e, NoReclaim)
    requires Inv(w) && StatusInv(w) && PaidKey(w, k)
    ensures PaidKey(Next(w, e), k)
  {
    assert KeyInv(w, k);
    if Touched(w, e) == Some(k) {
      PaidTouched(w, e, k);
    } else {
      RecordedFrame(w, e, k);
      StoredFrame(w, e, k);
      PaidSame(w, Next(w, e), k);
    }
  }

  lemma {:induction false} PaidRun(w: World, es: seq<Event>, rules: set<Rule>)
    requires Legal(w, es, rules) && StatusKept in rules && NoReclaim in rules
    requires Inv(w) && StatusInv(w) && forall k :: PaidKey(w, k)
    ensures Inv(After(w, es, rules)) && forall k :: PaidKey(After(w, es, rules), k)
    decreases |es|
  {
    if es != [] {
      var e, w' := es[0], Next(w, es[0]);
      assert Obeys(w, e, StatusKept) && Obeys(w, e, NoReclaim);
      InvStep(w, e);
      StatusStep(w, e);
      forall k: JobId
        ensures PaidKey(w', k)
      {
        assert PaidKey(w, k);
        PaidStep(w, e, k);
      }
      PaidRun(w', es[1..], rules);
    }
  }

  /** When handlers leave the status alone, a job is dequeued at most once for its submission and once for
      each manual retry on runs without reclaims, however the retries and dequeues overlap. */
  lemma {:induction false} OncePerRetry(t: nat, es: seq<Event>, rules: set<Rule>, k: JobId)
    requires Legal(Start(t), es, rules) && StatusKept in rules && NoReclaim in rules
    ensures After(Start(t), es, rules).pops[k] <= 1 + After(Start(t), es, rules).retries[k]
  {
    StartInv(t);
    PaidRun(Start(t), es, rules);
    var w := After(Start(t), es, rules);
    assert PaidKey(w, k) && KeyInv(w, k);
  }
}
