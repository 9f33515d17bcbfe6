/** The jobs table, and the trigger that logs every status change. */
module Store {
  import opened Jobs

  datatype Row = Row(job: Job, startedAt: Option<int>, completedAt: Option<int>)

  datatype Change = Change(id: JobId, before: Status, after: Status, workerId: WorkerId, errorMessage: string)

  datatype Table = Table(rows: map<JobId, Row>, history: seq<Change>)

  datatype UpdateOpts = UpdateOpts(workerId: WorkerId, errorMessage: string, startedAt: Option<int>, completedAt: Option<int>)

  const NO_OPTS := UpdateOpts("", "", None, None)

  datatype StoreError = NotFound | Conflict | CheckViolation

  predicate ChecksPass(j: Job) {
    0 <= j.priority <= 9 && 0 <= j.maxRetries <= 20 && 0 < j.timeout <= 3600000
  }

  function Coalesce(a: Option<int>, b: Option<int>): Option<int> {
    if a.Some? then a else b
  }

  function CreateJob(t: Table, job: Job): (Table, Option<StoreError>) {
    if !ChecksPass(job) then (t, Some(CheckViolation))
    else if job.id in t.rows then (t, Some(Conflict))
    else (t.(rows := t.rows[job.id := Row(job, None, None)]), None)
  }

  /** The error message is overwritten even when the caller gave none: an empty text is not null. */
  function UpdatedRow(r: Row, status: Status, o: UpdateOpts): Row {
    Row(r.job.(status := status,
               workerId := if o.workerId != "" then o.workerId else r.job.workerId,
               errorMessage := o.errorMessage),
        Coalesce(o.startedAt, r.startedAt), Coalesce(o.completedAt, r.completedAt))
  }

  /** Column by column: a worker id or a time that was not given stays; the error text is the given one,
      empty or not; the task, its counters and its schedule are not touched. */
  predicate Updated(was: Row, got: Row, status: Status, o: UpdateOpts) {
    && got.job.status == status && got.job.errorMessage == o.errorMessage
    && got.job.workerId == (if o.workerId == "" then was.job.workerId else o.workerId)
    && got.startedAt == (if o.startedAt == None then was.startedAt else o.startedAt)
    && got.completedAt == (if o.completedAt == None then was.completedAt else o.completedAt)
    && SameTask(got.job, was.job) && got.job.retryCount == was.job.retryCount && got.job.scheduledAt == was.job.scheduledAt
  }

  /** The trigger's row, if the status changed. */
  function Logged(id: JobId, was: Row, now: Row): seq<Change> {
    if was.job.status == now.job.status then []
    else [Change(id, was.job.status, now.job.status, now.job.workerId, now.job.errorMessage)]
  }

  function UpdateJobStatus(t: Table, id: JobId, status: Status, o: UpdateOpts): (Table, Option<StoreError>) {
    if id !in t.rows then (t, Some(NotFound))
    else
      var row := UpdatedRow(t.rows[id], status, o);
      (Table(t.rows[id := row], t.history + Logged(id, t.rows[id], row)), None)
  }

  function WithoutJob(h: seq<Change>, id: JobId): seq<Change> {
    if h == [] then []
    else WithoutJob(h[..|h| - 1], id) + (if h[|h| - 1].id == id then [] else [h[|h| - 1]])
  }

  function DeleteJob(t: Table, id: JobId): (Table, Option<StoreError>) {
    if id !in t.rows then (t, Some(NotFound))
    else (Table(t.rows - {id}, WithoutJob(t.history, id)), None)
  }

  class JobStore {
    var rows: map<JobId, Row>
    var history: seq<Change>

    ghost function Value(): Table
      reads this
    {
      Table(rows, history)
    }

    constructor ()
      ensures Value() == Table(map[], [])
    {
      rows, history := map[], [];
    }

    method Insert(job: Job) returns (e: Option<StoreError>)
      modifies this
      ensures (Value(), e) == CreateJob(old(Value()), job)
      ensures e == if !(0 <= job.priority <= 9 && 0 <= job.maxRetries <= 20 && 0 < job.timeout <= 3600000)
                   then Some(CheckViolation) else if job.id in old(rows) then Some(Conflict) else None
      ensures history == old(history)
      ensures rows == if e == None then old(rows)[job.id := Row(job, None, None)] else old(rows)
    {
      if !ChecksPass(job) {
        return Some(CheckViolation);
      }
      if job.id in rows {
        return Some(Conflict);
      }
      rows := rows[job.id := Row(job, None, None)];
      return None;
    }

    method Update(id: JobId, status: Status, o: UpdateOpts) returns (e: Option<StoreError>)
      modifies this
      ensures (Value(), e) == UpdateJobStatus(old(Value()), id, status, o)
      ensures e == (if id in old(rows) then None else Some(NotFound))
      ensures id !in old(rows) ==> Value() == old(Value())
      ensures id in old(rows) ==>
                && rows.Keys == old(rows).Keys && (forall k <- rows :: k != id ==> rows[k] == old(rows)[k])
                && Updated(old(rows)[id], rows[id], status, o)
                && history == old(history) +
                     if old(rows)[id].job.status == status then []
                     else [Change(id, old(rows)[id].job.status, status, rows[id].job.workerId, o.errorMessage)]
    {
      if id !in rows {
        return Some(NotFound);
      }
      var was := rows[id];
      assert history + [] == history;
      rows := rows[id := UpdatedRow(was, status, o)];
      if was.job.status != status {
        history := history + [Change(id, was.job.status, status, rows[id].job.workerId, rows[id].job.errorMessage)];
      }
      return None;
    }

    method Delete(id: JobId) returns (e: Option<StoreError>)
      modifies this
      ensures (Value(), e) == DeleteJob(old(Value()), id)
    {
      if id !in rows {
        return Some(NotFound);
      }
      rows := rows - {id};
      var kept: seq<Change> := [];
      for i := 0 to |history|
        invariant rows == old(rows) - {id} && history == old(history)
        invariant kept == WithoutJob(history[..i], id)
      {
        assert history[..i + 1][..i] == history[..i];
        if history[i].id != id {
          kept := kept + [history[i]];
        }
      }
      assert history[..|history|] == history;
      history := kept;
      return None;
    }
  }

  // ---------------------------------------------------------------------------
  // The history is an unbroken chain
  // ---------------------------------------------------------------------------

  function Trail(h: seq<Change>, id: JobId): seq<Change> {
    if h == [] then []
    else Trail(h[..|h| - 1], id) + (if h[|h| - 1].id == id then [h[|h| - 1]] else [])
  }

  /** Each change starts where the one before it ended, the first from `a`, the last to `b`, none a self-loop. */
  predicate Chain(trail: seq<Change>, a: Status, b: Status) {
    if trail == [] then a == b
    else
      var c := trail[|trail| - 1];
      c.after == b && c.before != c.after && Chain(trail[..|trail| - 1], a, c.before)
  }

  lemma {:induction false} TrailAppend(h: seq<Change>, c: Change, id: JobId)
    ensures Trail(h + [c], id) == if c.id == id then Trail(h, id) + [c] else Trail(h, id)
  {
    assert (h + [c])[..|h|] == h;
    assert Trail(h, id) + [] == Trail(h, id);
  }

  lemma {:induction false} ChainAppend(trail: seq<Change>, c: Change, a: Status)
    requires Chain(trail, a, c.before) && c.before != c.after
    ensures Chain(trail + [c], a, c.after)
  {
    assert (trail + [c])[..|trail|] == trail;
  }

  lemma {:induction false} TrailWithout(h: seq<Change>, gone: JobId, id: JobId)
    ensures Trail(WithoutJob(h, gone), id) == if id == gone then [] else Trail(h, id)
  {
    if h != [] {
      var n := |h| - 1;
      TrailWithout(h[..n], gone, id);
      assert WithoutJob(h[..n], gone) + [] == WithoutJob(h[..n], gone);
      if h[n].id != gone {
        TrailAppend(WithoutJob(h[..n], gone), h[n], id);
      }
    }
  }

  ghost predicate HistoryOk(t: Table, id: JobId) {
    if id in t.rows then Chain(Trail(t.history, id), Pending, t.rows[id].job.status) else Trail(t.history, id) == []
  }

  datatype Event =
    | Create(job: Job)
    | Update(id: JobId, status: Status, opts: UpdateOpts)
    | Delete(id: JobId)

  function Step(t: Table, e: Event): Table {
    match e
    case Create(job) => CreateJob(t, job).0
    case Update(id, status, opts) => UpdateJobStatus(t, id, status, opts).0
    case Delete(id) => DeleteJob(t, id).0
  }

  function After(t: Table, es: seq<Event>): Table
    decreases |es|
  {
    if es == [] then t else After(Step(t, es[0]), es[1..])
  }

  lemma {:induction false} UpdateKeepsHistory(t: Table, id: JobId, status: Status, o: UpdateOpts, j: JobId)
    requires HistoryOk(t, j)
    ensures HistoryOk(UpdateJobStatus(t, id, status, o).0, j)
  {
    if id in t.rows {
      var row := UpdatedRow(t.rows[id], status, o);
      var log := Logged(id, t.rows[id], row);
      if log == [] {
        assert t.history + log == t.history;
      } else {
        TrailAppend(t.history, log[0], j);
        assert t.history + log == t.history + [log[0]];
        if id == j {
          ChainAppend(Trail(t.history, j), log[0], Pending);
        }
      }
    }
  }

  lemma {:induction false} StepKeepsHistory(t: Table, e: Event, j: JobId)
    requires HistoryOk(t, j) && (e.Create? ==> e.job.status == Pending)
    ensures HistoryOk(Step(t, e), j)
  {
    match e
    case Create(_) =>
    case Update(id, status, opts) => UpdateKeepsHistory(t, id, status, opts, j);
    case Delete(id) => TrailWithout(t.history, id, j);
  }

  /** However rows are created (pending), updated and deleted, the history rows of each job form an unbroken
      chain from pending to its current status without self-loops, and a deleted job leaves none behind. */
  lemma {:induction false} HistoryIsChain(es: seq<Event>, t: Table, j: JobId)
    requires HistoryOk(t, j) && forall e <- es :: e.Create? ==> e.job.status == Pending
    ensures HistoryOk(After(t, es), j)
    decreases |es|
  {
    if es != [] {
      assert es[0] in es && forall e <- es[1..] :: e in es;
      StepKeepsHistory(t, es[0], j);
      HistoryIsChain(es[1..], Step(t, es[0]), j);
    }
  }
}
