/** What the stored records say in every run: the task is the one submitted, and the retry count counts. */
module Records {
  import opened Jobs
  import opened QueueModel
  import opened Protocol

  // ---------------------------------------------------------------------------
  // The task
  // ---------------------------------------------------------------------------

  predicate OwnTask(w: World, k: JobId, job: Job) {
    k in w.submitted && w.submitted[k].id == k && SameTask(job, w.submitted[k])
  }

  ghost predicate TaskInv(w: World) {
    && (forall k <- w.q.data :: OwnTask(w, k, w.q.data[k]))
    && (forall d <- w.held :: OwnTask(w, w.held[d].job.id, w.held[d].job))
    && (forall k <- w.submitted :: w.submitted[k].id == k)
  }

  /** Where a stored record comes from: it was stored before, or the step brought it. */
  ghost predicate Source(w: World, e: Event, k: JobId, job: Job) {
    || (k in w.q.data && SameTask(job, w.q.data[k]))
    || (e.Submit? && k == e.job.id && job == e.job)
    || (e.Retry? && k == e.job.id && job == e.job)
    || (e.Fail? && e.d in w.held && k == w.held[e.d].job.id && SameTask(job, w.held[e.d].job))
  }

  lemma {:induction false} StoredFrom(w: World, e: Event, q': Queue)
    requires Enabled(w, e) && DataKeyed(w.q) && q' == NextQueue(w, e)
    ensures forall k <- q'.data :: Source(w, e, k, q'.data[k])
  {
  }

  lemma {:induction false} SourceIsOwn(w: World, e: Event, k: JobId, job: Job, submitted: map<JobId, Job>)
    requires Enabled(w, e) && TaskInv(w) && Source(w, e, k, job)
    requires submitted == if e.Submit? then w.submitted[e.job.id := e.job] else w.submitted
    ensures k in submitted && submitted[k].id == k && SameTask(job, submitted[k])
  {
    assert e.Fail? && e.d in w.held ==> OwnTask(w, w.held[e.d].job.id, w.held[e.d].job);
    assert k in w.q.data ==> OwnTask(w, k, w.q.data[k]);
  }

  lemma {:induction false} StoredTaskStep(w: World, e: Event, w': World)
    requires Enabled(w, e) && TaskInv(w) && w' == Next(w, e)
    ensures forall k <- w'.q.data :: OwnTask(w', k, w'.q.data[k])
  {
    SubmittedStep(w, e, w');
    var q', submitted := w'.q, w'.submitted;
    forall k <- w.q.data
      ensures w.q.data[k].id == k
    {
      assert OwnTask(w, k, w.q.data[k]);
    }
    StoredFrom(w, e, q');
    forall k <- q'.data
      ensures k in submitted && submitted[k].id == k && SameTask(q'.data[k], submitted[k])
    {
      SourceIsOwn(w, e, k, q'.data[k], submitted);
    }
  }

  lemma {:induction false} HeldTaskStep(w: World, e: Event)
    requires Enabled(w, e) && TaskInv(w)
    ensures forall d <- Next(w, e).held :: OwnTask(Next(w, e), Next(w, e).held[d].job.id, Next(w, e).held[d].job)
  {
    var key := NextKey(w.q);
    if e.Pop? && key.Some? && key.value in w.q.data {
      assert OwnTask(w, key.value, w.q.data[key.value]);
    }
  }

  lemma {:induction false} TaskStep(w: World, e: Event, w': World)
    requires Enabled(w, e) && TaskInv(w) && w' == Next(w, e)
    ensures TaskInv(w')
  {
    StoredTaskStep(w, e, w');
    HeldTaskStep(w, e);
    SubmittedStep(w, e, w');
  }

  lemma {:induction false} SubmittedStep(w: World, e: Event, w': World)
    requires Enabled(w, e) && TaskInv(w) && w' == Next(w, e)
    ensures forall k <- w'.submitted :: w'.submitted[k].id == k
    ensures w'.submitted == if e.Submit? then w.submitted[e.job.id := e.job] else w.submitted
  {
  }

  lemma {:induction false} TaskRun(w: World, es: seq<Event>, rules: set<Rule>)
    requires Legal(w, es, rules) && TaskInv(w)
    ensures TaskInv(After(w, es, rules))
    decreases |es|
  {
    if es != [] {
      TaskStep(w, es[0], Next(w, es[0]));
      TaskRun(Next(w, es[0]), es[1..], rules);
    }
  }

  /** In every run, through retries, moves, reclaims and failures, the record stored under a key and the job
      in the hands of any worker have the id, type, payload, priority, limits, expression and creation time
      with which the job was submitted. */
  lemma {:induction false} TaskIsKept(t: nat, es: seq<Event>, rules: set<Rule>)
    requires Legal(Start(t), es, rules)
    ensures var w := After(Start(t), es, rules);
            && (forall k <- w.q.data :: k in w.submitted && SameTask(w.q.data[k], w.submitted[k]))
            && (forall d <- w.held ::
                  w.held[d].job.id in w.submitted && SameTask(w.held[d].job, w.submitted[w.held[d].job.id]))
  {
    TaskRun(Start(t), es, rules);
  }

  // ---------------------------------------------------------------------------
  // The retry count
  // ---------------------------------------------------------------------------

  ghost predicate CountInv(w: World) {
    && (forall k <- w.q.data :: w.q.data[k].retryCount == w.reclaims[k])
    && (forall k: JobId :: w.reclaims[k] > 0 ==> k in w.submitted)
  }

  lemma {:induction false} SubmitCount(w: World, job: Job, w': World)
    requires Enabled(w, Submit(job)) && TaskInv(w) && CountInv(w) && w' == Next(w, Submit(job))
    ensures CountInv(w')
  {
    assert w.reclaims[job.id] == 0;
  }

  lemma {:induction false} ReclaimCount(w: World, wk: WorkerId, k: JobId, at: int, w': World)
    requires Enabled(w, Reclaim(wk, k, at)) && TaskInv(w) && CountInv(w) && w' == Next(w, Reclaim(wk, k, at))
    ensures CountInv(w')
  {
    if k in w.q.data {
      assert OwnTask(w, k, w.q.data[k]);
      assert w'.q.data == w.q.data[k := ReclaimedJob(w.q.data[k], at)];
      assert forall j: JobId :: w'.reclaims[j] == w.reclaims[j] + if j == k then 1 else 0;
    }
  }

  lemma {:induction false} QuietFrame(w: World, e: Event, w': World)
    requires e.Pop? || e.Ack? || e.Crash? || e.Move? || e.Lapse? || e.Tick?
    requires Enabled(w, e) && w' == Next(w, e)
    ensures w'.reclaims == w.reclaims && w'.submitted == w.submitted
    ensures forall k <- w'.q.data :: k in w.q.data && w'.q.data[k] == w.q.data[k]
  {
  }

  lemma {:induction false} QuietCount(w: World, w': World)
    requires CountInv(w) && w'.reclaims == w.reclaims && w'.submitted == w.submitted
    requires forall k <- w'.q.data :: k in w.q.data && w'.q.data[k] == w.q.data[k]
    ensures CountInv(w')
  {
  }

  lemma {:induction false} CountStep(w: World, e: Event)
    requires Enabled(w, e) && Obeys(w, e, NoManualRetry) && Obeys(w, e, NoNack) && TaskInv(w) && CountInv(w)
    ensures CountInv(Next(w, e))
  {
    match e
    case Submit(job) => SubmitCount(w, job, Next(w, e));
    case Reclaim(wk, k, at) => ReclaimCount(w, wk, k, at, Next(w, e));
    case Retry(_) =>
    case Fail(_, _, _, _) =>
    case _ =>
      QuietFrame(w, e, Next(w, e));
      QuietCount(w, Next(w, e));
  }

  lemma {:induction false} CountRun(w: World, es: seq<Event>, rules: set<Rule>)
    requires Legal(w, es, rules) && {NoManualRetry, NoNack} <= rules && TaskInv(w) && CountInv(w)
    ensures CountInv(After(w, es, rules))
    decreases |es|
  {
    if es != [] {
      assert NoManualRetry in rules && NoNack in rules;
      TaskStep(w, es[0], Next(w, es[0]));
      CountStep(w, es[0]);
      CountRun(Next(w, es[0]), es[1..], rules);
    }
  }

  /** Without nacks and manual retries, a stored retry count is exactly the number of times the job was
      reclaimed. */
  lemma {:induction false} ReclaimsAreCounted(t: nat, es: seq<Event>, rules: set<Rule>, k: JobId)
    requires Legal(Start(t), es, rules) && {NoManualRetry, NoNack} <= rules
    requires k in After(Start(t), es, rules).q.data
    ensures After(Start(t), es, rules).q.data[k].retryCount == After(Start(t), es, rules).reclaims[k]
  {
    CountRun(Start(t), es, rules);
  }
}
