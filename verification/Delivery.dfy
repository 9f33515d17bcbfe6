/** What holds in every run of the protocol, whatever the timing: nothing stored is lost, nothing
    runs before its time, and retry counts stay within the budget plus the reclaims. */
module Delivery {
  import opened Jobs
  import opened QueueModel
  import opened Protocol
  import opened ProtocolFrame

  // ---------------------------------------------------------------------------
  // One invariant per key
  // ---------------------------------------------------------------------------

  ghost predicate Waits(w: World, d: nat, k: JobId) {
    d in w.held && w.held[d].job.id == k
  }

  ghost predicate Nowhere(w: World, k: JobId) {
    && (forall pl :: Copies(w.q, pl, k) == 0)
    && k !in w.q.data && (forall d :: !Waits(w, d, k))
    && w.pops[k] == 0 && w.reclaims[k] == 0 && w.retries[k] == 0 && k !in w.entered
  }

  ghost predicate KnownKey(w: World, k: JobId) {
    k !in w.submitted ==> Nowhere(w, k)
  }

  ghost predicate StoredKey(w: World, k: JobId) {
    k in w.q.data ==> Located(w.q, k)
  }

  /** Until its first entry to a ready list a key is at most in the delayed set, under its own
      schedule; that entry comes no earlier than the schedule. */
  ghost predicate EntryKey(w: World, k: JobId) {
    && (k in w.q.delayed ==> k in w.submitted && w.q.delayed[k] == w.submitted[k].scheduledAt && k !in w.entered)
    && (k in w.entered ==> k in w.submitted && w.submitted[k].scheduledAt <= w.entered[k] <= w.clock)
    && (k !in w.entered ==> w.pops[k] == 0)
    && (k !in w.entered ==> forall d :: !Waits(w, d, k))
    && (k !in w.entered ==> forall pl :: pl != Delayed ==> Copies(w.q, pl, k) == 0)
  }

  ghost predicate BudgetKey(w: World, k: JobId) {
    && (k in w.q.data ==> w.q.data[k].retryCount <= w.q.data[k].maxRetries + w.reclaims[k])
    && (forall d :: Waits(w, d, k) ==> w.held[d].job.retryCount <= w.held[d].job.maxRetries + w.reclaims[k])
  }

  ghost predicate ScoreKey(w: World, k: JobId) {
    forall wk :: Slot(wk, k) in w.q.inflight ==> 0 <= w.q.inflight[Slot(wk, k)] <= w.clock + LEASE_MS
  }

  ghost predicate KeyInv(w: World, k: JobId) {
    KnownKey(w, k) && StoredKey(w, k) && EntryKey(w, k) && BudgetKey(w, k) && ScoreKey(w, k)
  }

  ghost predicate Inv(w: World) {
    Keyed(w) && forall k :: KeyInv(w, k)
  }

  // ---------------------------------------------------------------------------
  // Each step keeps it
  // ---------------------------------------------------------------------------

  lemma {:induction false} UntouchedStep(w: World, e: Event, k: JobId)
    requires Enabled(w, e) && Keyed(w) && KeyInv(w, k) && Touched(w, e) != Some(k)
    ensures KeyInv(Next(w, e), k)
  {
    RecordedFrame(w, e, k);
    StoredFrame(w, e, k);
    var w' := Next(w, e);
    assert SameKey(w.q, w'.q, k) && SameRecorded(w, w', k) && w'.clock >= w.clock;
    SameKeepsInv(w, w', k);
  }

  lemma {:induction false} SameKeepsInv(w: World, w': World, k: JobId)
    requires KeyInv(w, k) && SameKey(w.q, w'.q, k) && SameRecorded(w, w', k) && w.clock <= w'.clock
    ensures KeyInv(w', k)
  {
    assert Copies(w'.q, Delayed, k) == Copies(w.q, Delayed, k);
    if k in w.q.data {
      var pl :| Copies(w.q, pl, k) > 0;
      assert Copies(w'.q, pl, k) > 0;
    }
    assert forall d :: Waits(w', d, k) <==> Waits(w, d, k);
  }

  lemma {:induction false} SubmitStep(w: World, job: Job)
    requires Enabled(w, Submit(job)) && Keyed(w) && KeyInv(w, job.id)
    ensures KeyInv(Next(w, Submit(job)), job.id)
  {
    EnqueuePlaces(w.q, job, w.clock);
    var w' := Next(w, Submit(job));
    assert Copies(w.q, Delayed, job.id) == 0;
    assert forall i :: Waits(w', i, job.id) ==> Waits(w, i, job.id);
    assert Copies(w'.q, if job.scheduledAt <= w.clock then Ready(job.priority) else Delayed, job.id) == 1;
  }

  lemma {:induction false} RetryStep(w: World, job: Job)
    requires Enabled(w, Retry(job)) && Keyed(w) && KeyInv(w, job.id)
    ensures KeyInv(Next(w, Retry(job)), job.id)
  {
    EnqueuePlaces(w.q, job, w.clock);
    assert Copies(Next(w, Retry(job)).q, Ready(job.priority), job.id) > 0;
  }

  lemma {:induction false} PopStep(w: World, wk: WorkerId, k: JobId)
    requires Keyed(w) && KeyInv(w, k) && NextKey(w.q) == Some(k)
    ensures KeyInv(Next(w, Pop(wk)), k)
  {
    var p := FirstReady(w.q, 0);
    LeasePlaces(w.q, p, wk, w.clock + LEASE_MS);
    assert Copies(w.q, Ready(p), k) > 0;
    assert Copies(Next(w, Pop(wk)).q, InFlight(wk), k) == 1;
  }

  lemma {:induction false} FailStep(w: World, d: nat, status: Status, msg: string, retryAt: int)
    requires d in w.held && Keyed(w) && KeyInv(w, w.held[d].job.id)
    ensures KeyInv(Next(w, Fail(d, status, msg, retryAt)), w.held[d].job.id)
  {
    var j := FailedCopy(w, d, status);
    var w' := Next(w, Fail(d, status, msg, retryAt));
    assert Waits(w, d, j.id);
    if IsRetryable(j) {
      RequeuePlaces(w.q, NackedJob(j, msg, retryAt));
      assert Copies(w'.q, Ready(j.priority), j.id) > 0;
    } else {
      NackDeadPlaces(w.q, j, w.held[d].worker, msg, retryAt);
      assert Copies(w'.q, Dead, j.id) > 0;
    }
    assert forall i :: Waits(w', i, j.id) ==> Waits(w, i, j.id);
  }

  lemma {:induction false} MoveStep(w: World, k: JobId)
    requires Enabled(w, Move(k)) && Keyed(w) && KeyInv(w, k)
    ensures KeyInv(Next(w, Move(k)), k)
  {
    MoveOnePlaces(w.q, k);
    var w' := Next(w, Move(k));
    assert forall i :: Waits(w', i, k) ==> Waits(w, i, k);
    if k in w.q.data {
      assert Copies(w'.q, Ready(w.q.data[k].priority), k) > 0;
    }
  }

  lemma {:induction false} ReclaimStep(w: World, wk: WorkerId, k: JobId, retryAt: int)
    requires Enabled(w, Reclaim(wk, k, retryAt)) && Keyed(w) && KeyInv(w, k)
    ensures KeyInv(Next(w, Reclaim(wk, k, retryAt)), k)
  {
    var w' := Next(w, Reclaim(wk, k, retryAt));
    ReclaimOnePlaces(w.q, wk, k, retryAt);
    assert Copies(w.q, InFlight(wk), k) == 1;
    assert k in w.entered;
    if k in w.q.data {
      assert Copies(w'.q, Ready(w.q.data[k].priority), k) > 0;
    }
    assert EntryKey(w', k);
    assert BudgetKey(w', k);
  }

  lemma {:induction false} ShrinkStep(w: World, e: Event, k: JobId)
    requires e.Ack? || e.Crash? || e.Lapse?
    requires Enabled(w, e) && Keyed(w) && KeyInv(w, k) && Touched(w, e) == Some(k)
    ensures KeyInv(Next(w, e), k)
  {
    var w' := Next(w, e);
    assert forall i :: Waits(w', i, k) ==> Waits(w, i, k);
    if e.Ack? {
      AcknowledgePlaces(w.q, k, w.held[e.d].worker);
    } else {
      assert forall pl :: Copies(w'.q, pl, k) == Copies(w.q, pl, k);
      if k in w'.q.data {
        var pl :| Copies(w.q, pl, k) > 0;
        assert Copies(w'.q, pl, k) > 0;
      }
    }
  }

  lemma {:induction false} TouchedStep(w: World, e: Event, k: JobId)
    requires Enabled(w, e) && Keyed(w) && KeyInv(w, k) && Touched(w, e) == Some(k)
    ensures KeyInv(Next(w, e), k)
  {
    match e
    case Submit(job) => SubmitStep(w, job);
    case Retry(job) => RetryStep(w, job);
    case Pop(wk) => PopStep(w, wk, k);
    case Fail(d, status, msg, retryAt) => FailStep(w, d, status, msg, retryAt);
    case Move(_) => MoveStep(w, k);
    case Reclaim(wk, _, retryAt) => ReclaimStep(w, wk, k, retryAt);
    case _ => ShrinkStep(w, e, k);
  }

  lemma {:induction false} InvStep(w: World, e: Event)
    requires Enabled(w, e) && Inv(w)
    ensures Inv(Next(w, e))
  {
    KeyedStep(w, e);
    forall k: JobId
      ensures KeyInv(Next(w, e), k)
    {
      assert KeyInv(w, k);
      if Touched(w, e) == Some(k) {
        TouchedStep(w, e, k);
      } else {
        UntouchedStep(w, e, k);
      }
    }
  }

  lemma {:induction false} InvRun(w: World, es: seq<Event>, rules: set<Rule>)
    requires Legal(w, es, rules) && Inv(w)
    ensures Inv(After(w, es, rules))
    decreases |es|
  {
    if es != [] {
      InvStep(w, es[0]);
      InvRun(Next(w, es[0]), es[1..], rules);
    }
  }

  lemma {:induction false} StartInv(t: nat)
    ensures Inv(Start(t))
  {
  }

  // ---------------------------------------------------------------------------
  // Main results
  // ---------------------------------------------------------------------------

  /** No loss: in every reachable state, after any crashes and expiries, each key whose data is still
      stored is in a ready list, the delayed set, an in-flight set or the dead-letter list. */
  lemma {:induction false} NoLoss(t: nat, es: seq<Event>, rules: set<Rule>)
    requires Legal(Start(t), es, rules)
    ensures forall k <- After(Start(t), es, rules).q.data :: Located(After(Start(t), es, rules).q, k)
  {
    StartInv(t);
    InvRun(Start(t), es, rules);
    forall k <- After(Start(t), es, rules).q.data
      ensures Located(After(Start(t), es, rules).q, k)
    {
      assert KeyInv(After(Start(t), es, rules), k);
    }
  }

  /** Delayed release: no job enters a ready list before its schedule, and no job is delivered that
      has not entered one. */
  lemma {:induction false} NeverEarly(t: nat, es: seq<Event>, rules: set<Rule>, k: JobId)
    requires Legal(Start(t), es, rules)
    ensures var w := After(Start(t), es, rules);
            && (k in w.entered ==> k in w.submitted && w.submitted[k].scheduledAt <= w.entered[k])
            && (w.pops[k] > 0 ==> k in w.entered)
            && (forall p :: k in List(w.q, p) ==> k in w.entered)
  {
    StartInv(t);
    InvRun(Start(t), es, rules);
    var w := After(Start(t), es, rules);
    assert KeyInv(w, k);
    forall p | k in List(w.q, p)
      ensures k in w.entered
    {
      assert Copies(w.q, Ready(p), k) > 0;
    }
  }

  /** Retry budget: a stored retry count is at most the job's limit plus its reclaims. */
  lemma {:induction false} RetryCountBounded(t: nat, es: seq<Event>, rules: set<Rule>, k: JobId)
    requires Legal(Start(t), es, rules) && k in After(Start(t), es, rules).q.data
    ensures var w := After(Start(t), es, rules);
            w.q.data[k].retryCount <= w.q.data[k].maxRetries + w.reclaims[k]
  {
    StartInv(t);
    InvRun(Start(t), es, rules);
    assert KeyInv(After(Start(t), es, rules), k);
  }
}
