/** Runs of the protocol from its start that show what each premise is for: every one of them works for
    any new job that is due. */
module Scenes {
  import opened Jobs
  import opened QueueModel
  import opened SoloStore
  import opened Protocol
  import opened Batches
  import opened LeaseSafety

  ghost predicate Reach(t: nat, es: seq<Event>, rules: set<Rule>, w: World) {
    Legal(Start(t), es, rules) && w == After(Start(t), es, rules)
  }

  lemma {:induction false} Grow(t: nat, es: seq<Event>, rules: set<Rule>, w: World, e: Event)
    requires Reach(t, es, rules, w) && Enabled(w, e) && forall r <- rules :: Obeys(w, e, r)
    ensures Reach(t, es + [e], rules, Next(w, e))
  {
    RunCons(w, e, [], rules);
    assert [e] + [] == [e];
    LegalAppend(Start(t), es, [e], rules);
    AfterAppend(Start(t), es, [e], rules);
  }

  /** The only job ever submitted is `job`, whose stored record is now `d`. */
  ghost predicate Scene(w: World, job: Job, d: Job, list: seq<JobId>, leases: map<Slot, int>) {
    && w.q == Solo(d, job.priority, list, leases)
    && w.submitted == map[job.id := job] && job.id in w.entered && d.id == job.id
  }

  lemma {:induction false} SceneSubmit(t: nat, rules: set<Rule>, job: Job) returns (w: World)
    requires Due(job, t)
    ensures Reach(t, [Submit(job)], rules, w) && Scene(w, job, job, [job.id], map[])
    ensures w.clock == t && w.held == map[] && w.issued == 0 && w.pops == w.retries == multiset{}
  {
    w := Next(Start(t), Submit(job));
    SoloEnqueue(job, t);
    assert [] + [Submit(job)] == [Submit(job)];
    Grow(t, [], rules, Start(t), Submit(job));
  }

  lemma {:induction false} ScenePop(t: nat, es: seq<Event>, rules: set<Rule>, w: World, job: Job, d: Job,
                                    list: seq<JobId>, leases: map<Slot, int>, wk: WorkerId)
    returns (w': World)
    requires Reach(t, es, rules, w) && Scene(w, job, d, list + [job.id], leases) && IsNew(job)
    ensures Reach(t, es + [Pop(wk)], rules, w')
    ensures Scene(w', job, d, list, leases[Slot(wk, job.id) := w.clock + LEASE_MS])
    ensures w'.clock == w.clock && w'.pops == w.pops + multiset{job.id} && w'.retries == w.retries
    ensures w'.held == w.held[w.issued := Delivery(wk, d, w.clock)] && w'.issued == w.issued + 1
  {
    w' := Next(w, Pop(wk));
    SoloPop(d, job.priority, list, leases, wk, LEASE_MS, w.clock);
    Grow(t, es, rules, w, Pop(wk));
  }

  /** A handler marks its job `failed`, and Nack requeues it. */
  lemma {:induction false} SceneFail(t: nat, es: seq<Event>, rules: set<Rule>, w: World, job: Job, d: Job,
                                     list: seq<JobId>, leases: map<Slot, int>, i: nat, msg: string, retryAt: int)
    returns (w': World)
    requires Reach(t, es, rules, w) && Scene(w, job, d, list, leases)
    requires i in w.held && w.held[i].job.id == job.id && w.held[i].job.priority == job.priority
    requires IsRetryable(FailedCopy(w, i, Failed))
    requires rules !! {StatusKept, NoNack} && w.clock < w.held[i].at + WINDOW_MS
    ensures Reach(t, es + [Fail(i, Failed, msg, retryAt)], rules, w')
    ensures Scene(w', job, NackedJob(FailedCopy(w, i, Failed), msg, retryAt), [job.id] + list, leases)
    ensures w' == w.(q := w'.q, held := w.held - {i})
  {
    w' := Next(w, Fail(i, Failed, msg, retryAt));
    var j := NackedJob(FailedCopy(w, i, Failed), msg, retryAt);
    assert map[job.id := d][job.id := j] == map[job.id := j];
    assert map[job.priority := list][job.priority := [job.id] + list] == map[job.priority := [job.id] + list];
    Grow(t, es, rules, w, Fail(i, Failed, msg, retryAt));
  }

  lemma {:induction false} SceneRetry(t: nat, es: seq<Event>, rules: set<Rule>, w: World, job: Job, d: Job,
                                      list: seq<JobId>, leases: map<Slot, int>)
    returns (w': World)
    requires Reach(t, es, rules, w) && Scene(w, job, d, list, leases) && IsNew(job) && w.pops[job.id] > 0
    requires NoManualRetry !in rules && IdleRetry !in rules
    ensures var again := job.(scheduledAt := w.clock);
            Reach(t, es + [Retry(again)], rules, w') && Scene(w', job, again, [job.id] + list, leases)
    ensures w' == w.(q := w'.q, retries := w.retries + multiset{job.id})
  {
    var again := job.(scheduledAt := w.clock);
    w' := Next(w, Retry(again));
    assert map[job.id := d][job.id := again] == map[job.id := again];
    assert map[job.priority := list][job.priority := [job.id] + list] == map[job.priority := [job.id] + list];
    Grow(t, es, rules, w, Retry(again));
  }

  // ---------------------------------------------------------------------------
  // A manual retry of a job that is waiting
  // ---------------------------------------------------------------------------

  /** Dequeue, fail, retry manually while the retried copy still waits. */
  function BusyStart(job: Job, wk: WorkerId, t: nat, msg: string, at: int): seq<Event> {
    [Submit(job)] + [Pop(wk)] + [Fail(0, Failed, msg, at)] + [Retry(job.(scheduledAt := t))]
  }

  lemma {:induction false} BusyRetry(job: Job, wk: WorkerId, t: nat, msg: string, at: int, rules: set<Rule>)
    returns (w: World)
    requires Due(job, t) && job.maxRetries > 0
    requires rules !! {NoManualRetry, IdleRetry, StatusKept, NoNack}
    ensures Reach(t, BusyStart(job, wk, t, msg, at), rules, w)
    ensures Scene(w, job, job.(scheduledAt := t), [job.id, job.id], map[Slot(wk, job.id) := t + LEASE_MS])
    ensures w.clock == t && w.held == map[] && w.issued == 1 && w.pops == w.retries == multiset{job.id}
  {
    var k, leases := job.id, map[Slot(wk, job.id) := t + LEASE_MS];
    var w1 := SceneSubmit(t, rules, job);
    assert [] + [k] == [k];
    var w2 := ScenePop(t, [Submit(job)], rules, w1, job, job, [], map[], wk);
    assert map[][Slot(wk, k) := t + LEASE_MS] == leases;
    var w3 := SceneFail(t, [Submit(job)] + [Pop(wk)], rules, w2, job, job, [], leases, 0, msg, at);
    var j := NackedJob(FailedCopy(w2, 0, Failed), msg, at);
    assert [k] + [] == [k];
    w := SceneRetry(t, [Submit(job)] + [Pop(wk)] + [Fail(0, Failed, msg, at)], rules, w3, job, j, [k], leases);
    assert [k] + [k] == [k, k];
  }

  /** Both copies are dequeued with a fresh retry count. */
  lemma {:induction false} BothPopped(job: Job, wk: WorkerId, t: nat, es: seq<Event>, rules: set<Rule>, w: World, d: Job)
    returns (w': World)
    requires Reach(t, es, rules, w) && IsNew(job)
    requires Scene(w, job, d, [job.id, job.id], map[Slot(wk, job.id) := w.clock + LEASE_MS])
    ensures Reach(t, es + [Pop(wk)] + [Pop(wk)], rules, w')
    ensures Scene(w', job, d, [], map[Slot(wk, job.id) := w.clock + LEASE_MS])
    ensures w'.held == w.held[w.issued := Delivery(wk, d, w.clock)][w.issued + 1 := Delivery(wk, d, w.clock)]
    ensures w'.clock == w.clock && w'.issued == w.issued + 2
    ensures w'.pops == w.pops + multiset{job.id, job.id} && w'.retries == w.retries
  {
    var k, leases := job.id, map[Slot(wk, job.id) := w.clock + LEASE_MS];
    assert [k] + [k] == [k, k] && [] + [k] == [k];
    assert leases[Slot(wk, k) := w.clock + LEASE_MS] == leases;
    var w1 := ScenePop(t, es, rules, w, job, d, [k], leases, wk);
    w' := ScenePop(t, es + [Pop(wk)], rules, w1, job, d, [], leases, wk);
  }

  /** Deliveries `i` and `i + 1` fail and are requeued. */
  lemma {:induction false} BothFail(job: Job, wk: WorkerId, t: nat, es: seq<Event>, rules: set<Rule>, w: World, d: Job,
                                    i: nat, msg: string, at: int)
    returns (w': World)
    requires Reach(t, es, rules, w) && rules !! {StatusKept, NoNack}
    requires Scene(w, job, d, [], map[Slot(wk, job.id) := w.clock + LEASE_MS])
    requires w.held == map[i := Delivery(wk, d, w.clock), i + 1 := Delivery(wk, d, w.clock)]
    requires d.retryCount < d.maxRetries && d.priority == job.priority
    ensures var j := NackedJob(d.(status := Failed), msg, at);
            Scene(w', job, j, [job.id, job.id], map[Slot(wk, job.id) := w.clock + LEASE_MS])
    ensures Reach(t, es + [Fail(i, Failed, msg, at)] + [Fail(i + 1, Failed, msg, at)], rules, w')
    ensures w' == w.(q := w'.q, held := map[])
  {
    var k, leases, j := job.id, map[Slot(wk, job.id) := w.clock + LEASE_MS], NackedJob(d.(status := Failed), msg, at);
    var w1 := SceneFail(t, es, rules, w, job, d, [], leases, i, msg, at);
    assert [k] + [] == [k] && [k] + [k] == [k, k];
    assert w.held - {i} == map[i + 1 := Delivery(wk, d, w.clock)];
    w' := SceneFail(t, es + [Fail(i, Failed, msg, at)], rules, w1, job, j, [k], leases, i + 1, msg, at);
    assert w1.held - {i + 1} == map[];
  }

  /** `n` rounds, in each of which both copies are dequeued and fail. */
  function Rounds(wk: WorkerId, n: nat, msg: string, at: int): seq<Event> {
    if n == 0 then []
    else Rounds(wk, n - 1, msg, at) + ([Pop(wk)] + [Pop(wk)]
         + [Fail(2 * n - 1, Failed, msg, at)] + [Fail(2 * n, Failed, msg, at)])
  }

  /** The stored record after `n` rounds. */
  function Retried(job: Job, t: int, n: nat, msg: string, at: int): (d: Job)
    requires n <= job.maxRetries
    ensures d.id == job.id && d.priority == job.priority && d.maxRetries == job.maxRetries && d.retryCount == n
    ensures job.status == Pending ==> d.status == Pending
  {
    if n == 0 then job.(scheduledAt := t, retryCount := 0)
    else NackedJob(Retried(job, t, n - 1, msg, at).(status := Failed), msg, at)
  }

  lemma {:induction false} RoundsStep(es: seq<Event>, wk: WorkerId, n: nat, msg: string, at: int)
    requires n > 0
    ensures es + Rounds(wk, n, msg, at)
            == es + Rounds(wk, n - 1, msg, at) + [Pop(wk)] + [Pop(wk)]
               + [Fail(2 * n - 1, Failed, msg, at)] + [Fail(2 * n, Failed, msg, at)]
  {
  }

  lemma {:induction false} OneRound(job: Job, wk: WorkerId, t: nat, es: seq<Event>, rules: set<Rule>, w: World, d: Job,
                                    i: nat, msg: string, at: int)
    returns (w': World)
    requires Reach(t, es, rules, w) && IsNew(job) && rules !! {StatusKept, NoNack}
    requires Scene(w, job, d, [job.id, job.id], map[Slot(wk, job.id) := w.clock + LEASE_MS])
    requires d.retryCount < d.maxRetries && d.priority == job.priority && w.held == map[] && w.issued == i
    ensures Reach(t, es + [Pop(wk)] + [Pop(wk)] + [Fail(i, Failed, msg, at)] + [Fail(i + 1, Failed, msg, at)], rules, w')
    ensures var j := NackedJob(d.(status := Failed), msg, at);
            Scene(w', job, j, [job.id, job.id], map[Slot(wk, job.id) := w.clock + LEASE_MS])
    ensures w'.clock == w.clock && w'.held == map[] && w'.issued == i + 2
    ensures w'.pops[job.id] == w.pops[job.id] + 2 && w'.retries == w.retries
  {
    var w1 := BothPopped(job, wk, t, es, rules, w, d);
    assert w1.held == map[i := Delivery(wk, d, w.clock), i + 1 := Delivery(wk, d, w.clock)];
    w' := BothFail(job, wk, t, es + [Pop(wk)] + [Pop(wk)], rules, w1, d, i, msg, at);
  }

  /** Two copies wait under record `d` after `n` rounds. */
  ghost predicate RoundsDone(w: World, job: Job, wk: WorkerId, t: nat, n: nat, d: Job) {
    && Scene(w, job, d, [job.id, job.id], map[Slot(wk, job.id) := t + LEASE_MS])
    && w.clock == t && w.held == map[] && w.issued == 2 * n + 1
    && w.pops[job.id] == 2 * n + 1 && w.retries[job.id] == 1
  }

  lemma {:induction false} RoundDone(job: Job, wk: WorkerId, t: nat, es: seq<Event>, rules: set<Rule>, w: World, n: nat,
                                     d: Job, msg: string, at: int)
    returns (w': World)
    requires Reach(t, es, rules, w) && IsNew(job) && rules !! {StatusKept, NoNack} && n > 0
    requires RoundsDone(w, job, wk, t, n - 1, d) && d.retryCount < d.maxRetries && d.priority == job.priority
    ensures Reach(t, es + [Pop(wk)] + [Pop(wk)] + [Fail(2 * n - 1, Failed, msg, at)] + [Fail(2 * n, Failed, msg, at)],
                  rules, w')
    ensures RoundsDone(w', job, wk, t, n, NackedJob(d.(status := Failed), msg, at))
  {
    w' := OneRound(job, wk, t, es, rules, w, d, 2 * n - 1, msg, at);
  }

  lemma {:induction false} AfterRounds(job: Job, wk: WorkerId, t: nat, n: nat, msg: string, at: int, rules: set<Rule>)
    returns (w: World)
    requires Due(job, t) && n <= job.maxRetries && job.maxRetries > 0
    requires rules !! {NoManualRetry, IdleRetry, StatusKept, NoNack}
    ensures Reach(t, BusyStart(job, wk, t, msg, at) + Rounds(wk, n, msg, at), rules, w)
    ensures RoundsDone(w, job, wk, t, n, Retried(job, t, n, msg, at))
    decreases n
  {
    var es0 := BusyStart(job, wk, t, msg, at);
    if n == 0 {
      w := BusyRetry(job, wk, t, msg, at, rules);
      assert es0 + [] == es0;
    } else {
      var es, d := es0 + Rounds(wk, n - 1, msg, at), Retried(job, t, n - 1, msg, at);
      var w1 := AfterRounds(job, wk, t, n - 1, msg, at, rules);
      w := RoundDone(job, wk, t, es, rules, w1, n, d, msg, at);
      RoundsStep(es0, wk, n, msg, at);
    }
  }

  /** The idle condition of the retry budget is what the code lacks: one manual retry, sent while the job
      waits, leads to 2 * maxRetries + 3 dequeues of any job that has retries, one more than two lives allow.
      A worker's failure path always writes dead_letter to the row, also of a job that it has just requeued,
      so the manual retry is accepted. */
  lemma {:induction false} BusyRetryExceedsBudget(job: Job, wk: WorkerId, t: nat, msg: string, at: int, rules: set<Rule>)
    requires Due(job, t) && job.maxRetries > 0
    requires rules !! {NoManualRetry, IdleRetry, StatusKept, NoNack}
    ensures var es := BusyStart(job, wk, t, msg, at) + Rounds(wk, job.maxRetries, msg, at) + [Pop(wk)] + [Pop(wk)];
            && Legal(Start(t), es, rules)
            && var w := After(Start(t), es, rules);
               && w.retries[job.id] == 1 && w.pops[job.id] == 2 * job.maxRetries + 3
               && w.pops[job.id] > (1 + w.retries[job.id]) * (job.maxRetries + 1)
  {
    var n := job.maxRetries;
    var w1 := AfterRounds(job, wk, t, n, msg, at, rules);
    var es := BusyStart(job, wk, t, msg, at) + Rounds(wk, n, msg, at);
    var w2 := BothPopped(job, wk, t, es, rules, w1, Retried(job, t, n, msg, at));
    assert (1 + 1) * (n + 1) == 2 * n + 2;
  }

  // ---------------------------------------------------------------------------
  // Doubled jobs
  // ---------------------------------------------------------------------------

  /** A handler that marks its job `failed`: answered at once, the job waits and is leased, because Nack's
      retry branch leaves the lease in place. */
  lemma {:induction false} RetryingNackDoubles(job: Job, wk: WorkerId, t: nat, msg: string, at: int, rules: set<Rule>)
    requires Due(job, t) && job.maxRetries > 0 && rules !! {StatusKept, NoNack}
    ensures var es := [Submit(job)] + [Pop(wk)] + [Fail(0, Failed, msg, at)];
            && Legal(Start(t), es, rules)
            && var q := After(Start(t), es, rules).q;
               Copies(q, Ready(job.priority), job.id) == 1 && Copies(q, InFlight(wk), job.id) == 1 && !AtMostOnce(q, job.id)
  {
    var k, leases := job.id, map[Slot(wk, job.id) := t + LEASE_MS];
    var w1 := SceneSubmit(t, rules, job);
    assert [] + [k] == [k];
    var w2 := ScenePop(t, [Submit(job)], rules, w1, job, job, [], map[], wk);
    assert map[][Slot(wk, k) := t + LEASE_MS] == leases;
    var w3 := SceneFail(t, [Submit(job)] + [Pop(wk)], rules, w2, job, job, [], leases, 0, msg, at);
    assert [k] + [] == [k];
    assert Copies(w3.q, Ready(job.priority), k) == 1 && Copies(w3.q, InFlight(wk), k) == 1;
  }

  /** 125 s after its dequeue the only job is reclaimed while its worker still holds it. */
  lemma {:induction false} SceneReclaim(t: nat, es: seq<Event>, rules: set<Rule>, w: World, job: Job, wk: WorkerId, at: int)
    returns (w': World)
    requires Reach(t, es, rules, w) && Scene(w, job, job, [], map[Slot(wk, job.id) := t + LEASE_MS]) && w.clock == t
    requires rules !! {Answered, NoReclaim}
    ensures Reach(t, es + [Tick(t + WINDOW_MS)] + [Reclaim(wk, job.id, at)], rules, w')
    ensures Scene(w', job, ReclaimedJob(job, at), [job.id], map[])
    ensures w'.held == w.held
  {
    var k, p, slot, j := job.id, job.priority, Slot(wk, job.id), ReclaimedJob(job, at);
    var w1 := Next(w, Tick(t + WINDOW_MS));
    Grow(t, es, rules, w, Tick(t + WINDOW_MS));
    w' := Next(w1, Reclaim(wk, k, at));
    assert [k] + [] == [k];
    assert map[k := job][k := j] == map[k := j] && map[p := []][p := [k]] == map[p := [k]];
    assert map[slot := t + LEASE_MS] - {slot} == map[];
    Grow(t, es + [Tick(t + WINDOW_MS)], rules, w1, Reclaim(wk, k, at));
  }

  /** A handler that is still running after 125 s: its lease is reclaimed and its failure then
      dead-letters a job that waits again. Only promptness is given up. */
  lemma {:induction false} SlowHandlerDoubles(job: Job, wk: WorkerId, t: nat, msg: string, at: int, at': int, rules: set<Rule>)
    requires Due(job, t) && rules !! {Prompt, Answered, NoReclaim, NoNack}
    ensures var es := [Submit(job)] + [Pop(wk)] + [Tick(t + WINDOW_MS)] + [Reclaim(wk, job.id, at)]
                      + [Fail(0, Pending, msg, at')];
            && Legal(Start(t), es, rules)
            && var q := After(Start(t), es, rules).q;
               Copies(q, Ready(job.priority), job.id) > 0 && Copies(q, Dead, job.id) > 0 && !AtMostOnce(q, job.id)
  {
    var k := job.id;
    var w1 := SceneSubmit(t, rules, job);
    assert [] + [k] == [k];
    var w2 := ScenePop(t, [Submit(job)], rules, w1, job, job, [], map[], wk);
    assert map[][Slot(wk, k) := t + LEASE_MS] == map[Slot(wk, k) := t + LEASE_MS];
    var es2 := [Submit(job)] + [Pop(wk)];
    var w3 := SceneReclaim(t, es2, rules, w2, job, wk, at);
    assert Copies(w3.q, Ready(job.priority), k) == 1;
    LateNackDuplicates(w3, 0, job.priority, msg, at');
    Grow(t, es2 + [Tick(t + WINDOW_MS)] + [Reclaim(wk, k, at)], rules, w3, Fail(0, Pending, msg, at'));
  }
}
