/** Any number of schedulers moving due jobs, one Redis command at a time, under the TTL lock. */
module Mover {
  import opened Jobs
  import opened SortedSet
  import opened QueueModel
  import opened Commands
  import opened Pipeline
  import LM = LockModel

  const LOCK_KEY := "delayed-job-processor"
  const LOCK_TTL_MS := 5000
  const BATCH := 1000

  /** A scheduler inside its tenure: the keys still to read, the commands still to run, and the key it
      has pushed but not yet removed. */
  datatype Tenure = Tenure(
    token: LM.Token,
    deadline: int,
    scanned: bool,
    todo: seq<JobId>,
    pipe: seq<MoveCommand>,
    open: Option<JobId>)

  /** History: every key that was submitted, dequeued, ever delayed, the mover's pushes per key, tenures cut
      off between the push and the removal of a key, and keys removed from the delayed set without having
      been pushed, with and without data. */
  datatype System = System(
    q: Queue,
    locks: LM.Locks,
    clock: int,
    active: map<nat, Tenure>,
    used: set<LM.Token>,
    known: set<JobId>,
    popped: set<JobId>,
    ever: set<JobId>,
    pushes: multiset<JobId>,
    cuts: multiset<JobId>,
    lost: set<JobId>,
    discarded: set<JobId>)

  /** The queue in use by submitters, workers and the reclaimer. */
  datatype Use =
    | Submit(job: Job)
    | Retry(job: Job)
    | Pop(w: WorkerId)
    | Ack(k: JobId, w: WorkerId)
    | Fail(job: Job, w: WorkerId, msg: string, at: int)
    | Reclaim(w: WorkerId, k: JobId, at: int)
    | Lapse(k: JobId)

  datatype Event =
    | Acquire(i: nat, token: LM.Token)
    | Scan(i: nat)
    | Read(i: nat)
    | Exec(i: nat)
    | Release(i: nat)
    | Die(i: nat)
    | Other(use: Use)
    | Tick(t: int)

  /** Ids are fresh, a manual retry or a nack is for a job that some worker was given, and a reclaim for a
      lease that exists. */
  predicate UseEnabled(s: System, u: Use) {
    match u
    case Submit(job) => job.id !in s.known
    case Retry(job) => job.id in s.popped && job.scheduledAt <= s.clock
    case Fail(job, _, _, _) => job.id in s.popped
    case Reclaim(w, k, _) => Slot(w, k) in s.q.inflight
    case _ => true
  }

  /** The key a dequeue hands to worker `w`, if any. */
  function Taken(s: System, w: WorkerId): set<JobId> {
    match KeyOf(Dequeue(s.q, w, LEASE_MS, s.clock).1)
    case None => {}
    case Some(k) => {k}
  }

  function UseQueue(s: System, u: Use): Queue {
    match u
    case Submit(job) => Enqueue(s.q, job, s.clock)
    case Retry(job) => Enqueue(s.q, job, s.clock)
    case Pop(w) => Dequeue(s.q, w, LEASE_MS, s.clock).0
    case Ack(k, w) => Acknowledge(s.q, k, w)
    case Fail(job, w, msg, at) => Nack(s.q, job, w, msg, at)
    case Reclaim(w, k, at) => ReclaimOne(s.q, w, k, at)
    case Lapse(k) => Expire(s.q, k)
  }

  /** What the mover relies on from them: anything may happen to the ready lists, the leases and the
      records of jobs already pushed; to a job still waiting only its data can vanish. */
  ghost predicate Rely(s: System, q': Queue) {
    && (forall k <- s.q.delayed :: k in q'.delayed && q'.delayed[k] == s.q.delayed[k])
    && (forall k <- q'.delayed :: k in s.q.delayed || k !in s.ever)
    && (forall k <- s.q.delayed :: s.pushes[k] == 0 && k in q'.data ==> k in s.q.data)
  }

  /** Premise of a tenure: its commands land before its lock lapses, or it stops for good (`Die`). */
  ghost predicate Enabled(s: System, e: Event) {
    match e
    case Acquire(i, token) => i !in s.active && token !in s.used
    case Scan(i) => i in s.active && !s.active[i].scanned
    case Read(i) => i in s.active && s.active[i].todo != []
    case Exec(i) => i in s.active && s.active[i].todo == [] && s.active[i].pipe != []
    case Release(i) => i in s.active && s.active[i].scanned && s.active[i].todo == [] && s.active[i].pipe == []
    case Die(i) => i in s.active
    case Other(u) => UseEnabled(s, u)
    case Tick(t) => s.clock <= t && forall i <- s.active :: t <= s.active[i].deadline
  }

  function Start(t: int): System {
    System(EMPTY, map[], t, map[], {}, {}, {}, {}, multiset{}, multiset{}, {}, {})
  }

  function RunAcquire(s: System, i: nat, token: LM.Token): System {
    var (locks, reply) := LM.Run(s.locks, s.clock, LM.Acquire(LOCK_KEY, token, LOCK_TTL_MS));
    var s1 := s.(locks := locks, used := s.used + {token});
    if reply == LM.Ok
    then s1.(active := s.active[i := Tenure(token, s.clock + LOCK_TTL_MS, false, [], [], None)])
    else s1
  }

  /** One command of the pipeline reaches Redis. */
  function RunExec(s: System, i: nat): System
    requires i in s.active && s.active[i].pipe != []
  {
    var a := s.active[i];
    var s1 := s.(q := Apply(s.q, a.pipe[0]));
    match a.pipe[0]
    case PushReady(_, k) =>
      s1.(pushes := s.pushes + multiset{k}, active := s.active[i := a.(pipe := a.pipe[1..], open := Some(k))])
    case Undelay(k) =>
      s1.(active := s.active[i := a.(pipe := a.pipe[1..], open := None)],
          lost := if s.pushes[k] == 0 && k in s.q.data then s.lost + {k} else s.lost,
          discarded := if s.pushes[k] == 0 && k !in s.q.data then s.discarded + {k} else s.discarded)
  }

  function Next(s: System, e: Event): System
    requires Enabled(s, e)
  {
    match e
    case Acquire(i, token) => RunAcquire(s, i, token)
    case Scan(i) =>
      s.(active := s.active[i := s.active[i].(scanned := true, todo := DueKeys(s.q, BATCH, s.clock))])
    case Read(i) =>
      var a := s.active[i];
      s.(active := s.active[i := a.(todo := a.todo[1..], pipe := a.pipe + CommandsFor(s.q.data, a.todo[0]))])
    case Exec(i) => RunExec(s, i)
    case Release(i) =>
      s.(locks := LM.Run(s.locks, s.clock, LM.Release(LOCK_KEY, s.active[i].token)).0, active := s.active - {i})
    case Die(i) =>
      s.(active := s.active - {i},
         cuts := if s.active[i].open.Some? then s.cuts + multiset{s.active[i].open.value} else s.cuts)
    case Other(u) =>
      var q' := UseQueue(s, u);
      s.(q := q',
         ever := s.ever + q'.delayed.Keys,
         known := if u.Submit? then s.known + {u.job.id} else s.known,
         popped := if u.Pop? then s.popped + Taken(s, u.w) else s.popped)
    case Tick(t) => s.(clock := t)
  }

  ghost predicate Legal(s: System, es: seq<Event>)
    decreases |es|
  {
    es == [] || (Enabled(s, es[0]) && Legal(Next(s, es[0]), es[1..]))
  }

  ghost function After(s: System, es: seq<Event>): System
    requires Legal(s, es)
    decreases |es|
  {
    if es == [] then s else After(Next(s, es[0]), es[1..])
  }

  // ---------------------------------------------------------------------------
  // At most one tenure
  // ---------------------------------------------------------------------------

  ghost predicate Holding(s: System, i: nat) {
    i in s.active ==>
      && s.active[i].token in s.used && s.clock <= s.active[i].deadline
      && LOCK_KEY in s.locks && s.locks[LOCK_KEY] == LM.Held(s.active[i].token, s.active[i].deadline)
  }

  ghost predicate Exclusive(s: System) {
    && (forall i <- s.active :: Holding(s, i))
    && (forall i, j :: i in s.active && j in s.active ==> i == j)
  }

  lemma {:induction false} ExclusiveStep(s: System, e: Event)
    requires Exclusive(s) && Enabled(s, e)
    ensures Exclusive(Next(s, e))
  {
  }

  // ---------------------------------------------------------------------------
  // What a tenure has still to do
  // ---------------------------------------------------------------------------

  ghost predicate TodoOk(s: System, a: Tenure) {
    && (forall k <- a.todo :: k in s.q.delayed)
    && (forall x, y :: 0 <= x < y < |a.todo| ==> a.todo[x] != a.todo[y])
    && (forall x :: 0 <= x < |a.pipe| && a.pipe[x].Undelay? ==> a.pipe[x].k !in a.todo)
  }

  /** A removal without a push before it is for a key that has no data, or was pushed by an earlier tenure. */
  ghost predicate RemovalOk(s: System, a: Tenure, x: nat)
    requires x < |a.pipe| && a.pipe[x].Undelay?
  {
    var k := a.pipe[x].k;
    && k in s.q.delayed
    && (if x == 0 && a.open.Some? then a.open == Some(k)
        else (x > 0 && a.pipe[x - 1].PushReady? && a.pipe[x - 1].k == k) || k !in s.q.data || s.pushes[k] > 0)
  }

  ghost predicate PipeOk(s: System, a: Tenure) {
    && (forall x :: 0 <= x < |a.pipe| && a.pipe[x].PushReady? ==>
          a.pipe[x].k in s.q.delayed && x + 1 < |a.pipe| && a.pipe[x + 1] == Undelay(a.pipe[x].k))
    && (forall x :: 0 <= x < |a.pipe| && a.pipe[x].Undelay? ==> RemovalOk(s, a, x))
    && (forall x, y :: 0 <= x < y < |a.pipe| && a.pipe[x].Undelay? && a.pipe[y].Undelay? ==> a.pipe[x].k != a.pipe[y].k)
    && (a.open.Some? ==> a.pipe != [] && a.pipe[0] == Undelay(a.open.value) && s.pushes[a.open.value] > 0)
    && (!a.scanned ==> a.todo == [] && a.pipe == [] && a.open == None)
  }

  ghost predicate TenureOk(s: System, i: nat) {
    i in s.active ==> TodoOk(s, s.active[i]) && PipeOk(s, s.active[i])
  }

  /** `k` has been pushed by a running tenure that has yet to remove it. */
  ghost predicate IsOpen(s: System, k: JobId) {
    exists i <- s.active :: s.active[i].open == Some(k)
  }

  ghost predicate Counted(s: System, k: JobId) {
    && s.pushes[k] <= s.cuts[k] + 1
    && (k in s.q.delayed && !IsOpen(s, k) ==> s.pushes[k] <= s.cuts[k])
    && (k in s.q.delayed ==> k in s.ever)
    && (k in s.ever && k !in s.q.delayed ==> s.pushes[k] > 0 || k in s.discarded)
    && (k !in s.ever ==> s.pushes[k] == 0)
  }

  ghost predicate Inv(s: System) {
    Exclusive(s) && (forall i <- s.active :: TenureOk(s, i)) && (forall k :: Counted(s, k)) && s.lost == {}
  }

  lemma {:induction false} AcquireKeeps(s: System, i: nat, token: LM.Token)
    requires Inv(s) && Enabled(s, Acquire(i, token))
    ensures Inv(Next(s, Acquire(i, token)))
  {
    var s' := Next(s, Acquire(i, token));
    ExclusiveStep(s, Acquire(i, token));
    assert forall k :: IsOpen(s', k) <==> IsOpen(s, k);
    assert forall k :: Counted(s, k) ==> Counted(s', k);
  }

  lemma {:induction false} ScanKeeps(s: System, i: nat)
    requires Inv(s) && Enabled(s, Scan(i))
    ensures Inv(Next(s, Scan(i)))
  {
    var s' := Next(s, Scan(i));
    ExclusiveStep(s, Scan(i));
    RangeListing(s.q.delayed, 0, s.clock);
    assert TenureOk(s, i);
    assert TenureOk(s', i);
    assert forall k :: Counted(s, k) ==> Counted(s', k);
  }

  lemma {:induction false} ReadTodo(s: System, a: Tenure, a': Tenure)
    requires TodoOk(s, a) && PipeOk(s, a) && a.todo != []
    requires a' == a.(todo := a.todo[1..], pipe := a.pipe + CommandsFor(s.q.data, a.todo[0]))
    ensures TodoOk(s, a')
  {
    var k, n := a.todo[0], |a.pipe|;
    assert k in a.todo && forall x :: 0 <= x < n ==> a'.pipe[x] == a.pipe[x];
    assert forall x :: n <= x < |a'.pipe| ==> a'.pipe[x].k == k;
    assert forall j <- a'.todo :: j in a.todo && j != k;
  }

  lemma {:induction false} ReadPipe(s: System, a: Tenure, a': Tenure)
    requires TodoOk(s, a) && PipeOk(s, a) && a.todo != [] && a.scanned
    requires a' == a.(todo := a.todo[1..], pipe := a.pipe + CommandsFor(s.q.data, a.todo[0]))
    ensures PipeOk(s, a')
  {
    var k, n := a.todo[0], |a.pipe|;
    assert k in a.todo && forall x :: 0 <= x < n ==> a'.pipe[x] == a.pipe[x];
    assert forall x :: n <= x < |a'.pipe| ==> a'.pipe[x].k == k;
    forall x | 0 <= x < |a'.pipe| && a'.pipe[x].Undelay?
      ensures RemovalOk(s, a', x)
    {
      if x < n {
        assert RemovalOk(s, a, x);
      }
    }
  }

  lemma {:induction false} ReadKeeps(s: System, i: nat)
    requires Inv(s) && Enabled(s, Read(i))
    ensures Inv(Next(s, Read(i)))
  {
    var s' := Next(s, Read(i));
    ExclusiveStep(s, Read(i));
    assert TenureOk(s, i);
    ReadTodo(s, s.active[i], s'.active[i]);
    ReadPipe(s, s.active[i], s'.active[i]);
    TenureSameQueue(s, s', s'.active[i]);
    assert forall k :: IsOpen(s', k) <==> IsOpen(s, k);
    assert forall k :: Counted(s, k) ==> Counted(s', k);
  }

  /** A tenure stays in order while the delayed keys it needs stay, and unpushed keys only lose data. */
  lemma {:induction false} TenureSameQueue(s: System, s': System, a: Tenure)
    requires TodoOk(s, a) && PipeOk(s, a)
    requires forall k <- s.q.delayed :: k in s'.q.delayed
    requires forall k <- s.q.delayed :: s.pushes[k] == 0 && k in s'.q.data ==> k in s.q.data
    requires s'.pushes == s.pushes
    ensures TodoOk(s', a) && PipeOk(s', a)
  {
    forall x | 0 <= x < |a.pipe| && a.pipe[x].Undelay?
      ensures RemovalOk(s', a, x)
    {
      assert RemovalOk(s, a, x);
    }
  }

  lemma {:induction false} PushPipe(s: System, s': System, a: Tenure, a': Tenure)
    requires TodoOk(s, a) && PipeOk(s, a) && a.todo == [] && a.pipe != [] && a.pipe[0].PushReady?
    requires s'.q.delayed == s.q.delayed && s'.q.data == s.q.data && s'.pushes == s.pushes + multiset{a.pipe[0].k}
    requires a' == a.(pipe := a.pipe[1..], open := Some(a.pipe[0].k))
    ensures TodoOk(s', a') && PipeOk(s', a')
  {
    assert forall x :: 0 <= x < |a'.pipe| ==> a'.pipe[x] == a.pipe[x + 1];
    forall x | 0 <= x < |a'.pipe| && a'.pipe[x].Undelay?
      ensures RemovalOk(s', a', x)
    {
      assert RemovalOk(s, a, x + 1);
    }
  }

  lemma {:induction false} RemovePipe(s: System, s': System, a: Tenure, a': Tenure)
    requires TodoOk(s, a) && PipeOk(s, a) && a.todo == [] && a.pipe != [] && a.pipe[0].Undelay?
    requires s'.q.delayed == s.q.delayed - {a.pipe[0].k} && s'.q.data == s.q.data && s'.pushes == s.pushes
    requires a' == a.(pipe := a.pipe[1..], open := None)
    ensures TodoOk(s', a') && PipeOk(s', a')
  {
    assert forall x :: 0 <= x < |a'.pipe| ==> a'.pipe[x] == a.pipe[x + 1];
    forall x | 0 <= x < |a'.pipe|
      ensures a'.pipe[x].k in s'.q.delayed
      ensures a'.pipe[x].Undelay? ==> RemovalOk(s', a', x)
    {
      if a'.pipe[x].Undelay? {
        assert RemovalOk(s, a, x + 1);
      } else {
        assert a.pipe[x + 2] == Undelay(a.pipe[x + 1].k);
      }
    }
  }

  lemma {:induction false} ExecPushKeeps(s: System, i: nat)
    requires Inv(s) && Enabled(s, Exec(i)) && s.active[i].pipe[0].PushReady?
    ensures Inv(Next(s, Exec(i)))
  {
    var s' := Next(s, Exec(i));
    var a, k := s.active[i], s.active[i].pipe[0].k;
    ExclusiveStep(s, Exec(i));
    assert TenureOk(s, i);
    PushPipe(s, s', a, s'.active[i]);
    assert a.open == None;
    assert s'.active[i].open == Some(k);
    assert IsOpen(s', k) && forall j :: !IsOpen(s, j);
    forall j: JobId
      ensures Counted(s', j)
    {
      assert Counted(s, j);
    }
  }

  lemma {:induction false} ExecRemoveKeeps(s: System, i: nat)
    requires Inv(s) && Enabled(s, Exec(i)) && s.active[i].pipe[0].Undelay?
    ensures Inv(Next(s, Exec(i)))
  {
    var s' := Next(s, Exec(i));
    var a, k := s.active[i], s.active[i].pipe[0].k;
    ExclusiveStep(s, Exec(i));
    assert TenureOk(s, i) && RemovalOk(s, a, 0);
    RemovePipe(s, s', a, s'.active[i]);
    assert forall j :: !IsOpen(s', j);
    assert forall j :: IsOpen(s, j) ==> j == k;
    forall j: JobId
      ensures Counted(s', j)
    {
      assert Counted(s, j);
    }
  }

  lemma {:induction false} LeaveKeeps(s: System, e: Event)
    requires e.Release? || e.Die?
    requires Inv(s) && Enabled(s, e)
    ensures Inv(Next(s, e))
  {
    var s' := Next(s, e);
    ExclusiveStep(s, e);
    var a := s.active[e.i];
    assert TenureOk(s, e.i) && s'.active == map[];
    assert forall j: JobId :: IsOpen(s, j) ==> a.open == Some(j);
    forall j: JobId
      ensures Counted(s', j)
    {
      assert Counted(s, j);
    }
  }

  lemma {:induction false} OtherKeeps(s: System, q': Queue, s': System)
    requires Inv(s) && Rely(s, q')
    requires s' == s.(q := q', ever := s.ever + q'.delayed.Keys, known := s'.known, popped := s'.popped)
    ensures Inv(s')
  {
    assert forall i <- s.active :: Holding(s, i);
    forall i <- s'.active
      ensures TenureOk(s', i)
    {
      assert TenureOk(s, i);
      TenureSameQueue(s, s', s.active[i]);
    }
    assert forall j :: IsOpen(s', j) <==> IsOpen(s, j);
    forall j: JobId
      ensures Counted(s', j)
    {
      assert Counted(s, j);
    }
  }

  lemma {:induction false} TickKeeps(s: System, t: int)
    requires Inv(s) && Enabled(s, Tick(t))
    ensures Inv(Next(s, Tick(t)))
  {
    var s' := Next(s, Tick(t));
    ExclusiveStep(s, Tick(t));
    forall i <- s'.active
      ensures TenureOk(s', i)
    {
      assert TenureOk(s, i);
      TenureSameQueue(s, s', s.active[i]);
    }
    assert forall j :: IsOpen(s', j) <==> IsOpen(s, j);
    assert forall j :: Counted(s, j) ==> Counted(s', j);
  }

  // ---------------------------------------------------------------------------
  // What the other operations find
  // ---------------------------------------------------------------------------

  /** A worker was given `k`, holds a lease on it, or can be given it. */
  ghost predicate Handed(s: System, k: JobId) {
    k in s.popped || (exists w :: Slot(w, k) in s.q.inflight) || (exists p :: k in List(s.q, p))
  }

  /** Such a job is no longer delayed, or has been pushed. */
  ghost predicate HandedOk(s: System, k: JobId) {
    && (Handed(s, k) ==> k in s.known && (k !in s.q.delayed || s.pushes[k] > 0))
    && (k in s.q.delayed ==> k in s.known)
    && (k in s.ever ==> k in s.known)
    && (k in s.q.data ==> s.q.data[k].id == k)
  }

  ghost predicate Placed(s: System) {
    forall k :: HandedOk(s, k)
  }

  /** Dequeuing, acknowledging and losing data leave waiting jobs alone. */
  lemma {:induction false} OperationsRely(s: System, now: int, w: WorkerId, k: JobId)
    requires forall j <- s.q.delayed :: j in s.ever
    ensures Rely(s, Dequeue(s.q, w, LEASE_MS, now).0) && Rely(s, Acknowledge(s.q, k, w)) && Rely(s, Expire(s.q, k))
  {
  }

  lemma {:induction false} SubmitRely(s: System, job: Job, now: int)
    requires (forall j <- s.q.delayed :: j in s.ever) && job.id !in s.ever
    ensures Rely(s, Enqueue(s.q, job, now))
  {
  }

  /** So do requeue, nack and reclaim for a job that is not waiting. */
  lemma {:induction false} RequeuesRely(s: System, job: Job, w: WorkerId, msg: string, at: int)
    requires job.id !in s.q.delayed || s.pushes[job.id] > 0
    ensures Rely(s, Requeue(s.q, job)) && Rely(s, Nack(s.q, job, w, msg, at))
    ensures job.id in s.q.data && s.q.data[job.id].id == job.id ==> Rely(s, ReclaimOne(s.q, w, job.id, at))
  {
    if job.id in s.q.data && s.q.data[job.id].id == job.id {
      var j := ReclaimedJob(s.q.data[job.id], at);
      assert Requeue(s.q, j).delayed == s.q.delayed;
    }
  }

  /** Whatever submitters, workers and the reclaimer do in a reachable state, the mover can rely on it. */
  lemma {:induction false} UseRely(s: System, u: Use)
    requires Placed(s) && UseEnabled(s, u) && (forall j <- s.q.delayed :: j in s.ever)
    ensures Rely(s, UseQueue(s, u))
  {
    match u
    case Submit(job) =>
      assert HandedOk(s, job.id);
      SubmitRely(s, job, s.clock);
    case Retry(job) =>
      assert Handed(s, job.id) && HandedOk(s, job.id);
      RequeuesRely(s, job, "", "", 0);
    case Pop(w) => OperationsRely(s, s.clock, w, 0);
    case Ack(k, w) => OperationsRely(s, s.clock, w, k);
    case Fail(job, w, msg, at) =>
      assert Handed(s, job.id) && HandedOk(s, job.id);
      RequeuesRely(s, job, w, msg, at);
    case Reclaim(w, k, at) =>
      assert Handed(s, k) && HandedOk(s, k);
      if k in s.q.data {
        RequeuesRely(s, s.q.data[k], w, "", at);
      }
    case Lapse(k) => OperationsRely(s, s.clock, "", k);
  }

  /** Only `key` can be newly handed out. */
  ghost predicate HandsOnly(s: System, s': System, key: JobId) {
    forall k :: Handed(s', k) ==> Handed(s, k) || k == key
  }

  lemma {:induction false} PushHands(s: System, s': System, p: int, key: JobId)
    requires forall p' :: List(s'.q, p') == if p' == p then [key] + List(s.q, p) else List(s.q, p')
    requires (forall slot <- s'.q.inflight :: slot in s.q.inflight) && s'.popped == s.popped
    ensures HandsOnly(s, s', key)
  {
    forall k | Handed(s', k) && k != key
      ensures Handed(s, k)
    {
      if p' :| k in List(s'.q, p') {
        assert k in List(s.q, p');
      }
    }
  }

  lemma {:induction false} PopHands(s: System, w: WorkerId, s': System)
    requires Placed(s) && s' == Next(s, Other(Pop(w)))
    ensures forall k :: Handed(s', k) ==> Handed(s, k)
  {
    var p := FirstReady(s.q, 0);
    if p != 10 {
      var key := Rightmost(s.q, p);
      assert HandedOk(s, key);
      assert key in List(s.q, p);
      forall k | Handed(s', k)
        ensures Handed(s, k)
      {
        if p' :| k in List(s'.q, p') {
          assert k in List(s.q, p');
        }
      }
    }
  }

  lemma {:induction false} ShrinkHands(s: System, s': System)
    requires s'.q.ready == s.q.ready && s'.popped == s.popped
    requires forall slot <- s'.q.inflight :: slot in s.q.inflight
    ensures forall k :: Handed(s', k) ==> Handed(s, k)
  {
    forall k | Handed(s', k)
      ensures Handed(s, k)
    {
      if p :| k in List(s'.q, p) {
        assert k in List(s.q, p);
      }
    }
  }

  lemma {:induction false} SubmitPlaced(s: System, job: Job, s': System)
    requires Placed(s) && job.id !in s.known && s' == Next(s, Other(Submit(job)))
    ensures Placed(s')
  {
    assert HandedOk(s, job.id);
    if job.scheduledAt <= s.clock {
      PushHands(s, s', job.priority, job.id);
    } else {
      ShrinkHands(s, s');
    }
    forall k: JobId
      ensures HandedOk(s', k)
    {
      assert HandedOk(s, k);
    }
  }

  /** A requeue of a job already handed out. */
  lemma {:induction false} RequeuePlaced(s: System, key: JobId, s': System)
    requires Placed(s) && Handed(s, key) && HandsOnly(s, s', key)
    requires s'.q.delayed == s.q.delayed && s'.pushes == s.pushes && s'.known == s.known
    requires s'.ever == s.ever + s.q.delayed.Keys
    requires forall k <- s'.q.data :: s'.q.data[k].id == k
    ensures Placed(s')
  {
    forall k: JobId
      ensures HandedOk(s', k)
    {
      assert HandedOk(s, k) && HandedOk(s, key);
    }
  }

  lemma {:induction false} RetryPlaced(s: System, u: Use, s': System)
    requires u.Retry? || u.Fail?
    requires Placed(s) && UseEnabled(s, u) && s' == Next(s, Other(u))
    ensures Placed(s')
  {
    forall k <- s'.q.data
      ensures s'.q.data[k].id == k
    {
      assert HandedOk(s, k);
    }
    if u.Fail? && !IsRetryable(u.job) {
      ShrinkHands(s, s');
    } else {
      PushHands(s, s', u.job.priority, u.job.id);
    }
    RequeuePlaced(s, u.job.id, s');
  }

  lemma {:induction false} ReclaimPlaced(s: System, w: WorkerId, k: JobId, at: int, s': System)
    requires Placed(s) && Slot(w, k) in s.q.inflight && s' == Next(s, Other(Reclaim(w, k, at)))
    ensures Placed(s')
  {
    assert HandedOk(s, k);
    forall j <- s'.q.data
      ensures s'.q.data[j].id == j
    {
      assert HandedOk(s, j);
    }
    if k in s.q.data {
      PushHands(s, s', s.q.data[k].priority, k);
    } else {
      ShrinkHands(s, s');
    }
    RequeuePlaced(s, k, s');
  }

  /** No key is newly handed out, and nothing newly delayed. */
  lemma {:induction false} ShrinkPlaced(s: System, s': System)
    requires Placed(s) && forall k :: Handed(s', k) ==> Handed(s, k)
    requires (forall k <- s'.q.delayed :: k in s.q.delayed) && s.pushes <= s'.pushes && s'.known == s.known
    requires s'.ever <= s.ever + s.q.delayed.Keys
    requires forall k <- s'.q.data :: k in s.q.data && s'.q.data[k] == s.q.data[k]
    ensures Placed(s')
  {
    forall k: JobId
      ensures HandedOk(s', k)
    {
      assert HandedOk(s, k);
    }
  }

  lemma {:induction false} OtherPlaced(s: System, u: Use, s': System)
    requires Placed(s) && UseEnabled(s, u) && s' == Next(s, Other(u))
    ensures Placed(s')
  {
    match u
    case Submit(job) => SubmitPlaced(s, job, s');
    case Pop(w) =>
      PopHands(s, w, s');
      ShrinkPlaced(s, s');
    case Reclaim(w, k, at) => ReclaimPlaced(s, w, k, at, s');
    case Ack(_, _) =>
      ShrinkHands(s, s');
      ShrinkPlaced(s, s');
    case Lapse(_) =>
      ShrinkHands(s, s');
      ShrinkPlaced(s, s');
    case _ => RetryPlaced(s, u, s');
  }

  lemma {:induction false} ExecPlaced(s: System, i: nat, s': System)
    requires Placed(s) && Inv(s) && Enabled(s, Exec(i)) && s' == Next(s, Exec(i))
    ensures Placed(s')
  {
    assert TenureOk(s, i);
    var x := s.active[i].pipe[0];
    if x.PushReady? {
      PushHands(s, s', x.p, x.k);
      forall k: JobId
        ensures HandedOk(s', k)
      {
        assert HandedOk(s, k);
      }
    } else {
      ShrinkHands(s, s');
      ShrinkPlaced(s, s');
    }
  }

  lemma {:induction false} PlacedStep(s: System, e: Event)
    requires Placed(s) && Inv(s) && Enabled(s, e)
    ensures Placed(Next(s, e))
  {
    var s' := Next(s, e);
    match e
    case Other(u) => OtherPlaced(s, u, s');
    case Exec(i) => ExecPlaced(s, i, s');
    case _ =>
      ShrinkHands(s, s');
      ShrinkPlaced(s, s');
  }

  lemma {:induction false} InvStep(s: System, e: Event)
    requires Inv(s) && Placed(s) && Enabled(s, e)
    ensures Inv(Next(s, e))
  {
    match e
    case Acquire(i, token) => AcquireKeeps(s, i, token);
    case Scan(i) => ScanKeeps(s, i);
    case Read(i) => ReadKeeps(s, i);
    case Exec(i) =>
      if s.active[i].pipe[0].PushReady? {
        ExecPushKeeps(s, i);
      } else {
        ExecRemoveKeeps(s, i);
      }
    case Release(_) => LeaveKeeps(s, e);
    case Die(_) => LeaveKeeps(s, e);
    case Other(u) =>
      assert forall k <- s.q.delayed :: Counted(s, k);
      UseRely(s, u);
      OtherKeeps(s, UseQueue(s, u), Next(s, e));
    case Tick(t) => TickKeeps(s, t);
  }

  lemma {:induction false} InvRun(s: System, es: seq<Event>)
    requires Inv(s) && Placed(s) && Legal(s, es)
    ensures Inv(After(s, es)) && Placed(After(s, es))
    ensures (forall e <- es :: !e.Die?) ==> After(s, es).cuts == s.cuts
    decreases |es|
  {
    if es != [] {
      InvStep(s, es[0]);
      PlacedStep(s, es[0]);
      InvRun(Next(s, es[0]), es[1..]);
      assert forall e <- es[1..] :: e in es;
    }
  }

  /** With any number of schedulers interleaving command by command and the queue in use meanwhile, as long
      as no command lands after its lock lapsed: at most one tenure runs at a time, a delayed job is pushed
      at most once plus the tenures cut off between its push and its removal, no job is removed unpushed
      while it has data, and every delayed job is still delayed, or was pushed, or had lost its data. */
  lemma {:induction false} MoverSafety(t: int, es: seq<Event>)
    requires Legal(Start(t), es)
    ensures var s := After(Start(t), es);
            && (forall i, j :: i in s.active && j in s.active ==> i == j)
            && (forall k: JobId :: s.pushes[k] <= 1 + s.cuts[k])
            && s.lost == {}
            && (forall k <- s.ever :: k in s.q.delayed || s.pushes[k] > 0 || k in s.discarded)
  {
    InvRun(Start(t), es);
    var s := After(Start(t), es);
    forall k: JobId
      ensures s.pushes[k] <= 1 + s.cuts[k]
      ensures k in s.ever ==> k in s.q.delayed || s.pushes[k] > 0 || k in s.discarded
    {
      assert Counted(s, k);
    }
  }

  /** When every tenure's commands all land in time, no delayed job is pushed twice. */
  lemma {:induction false} NeverPushedTwice(t: int, es: seq<Event>, k: JobId)
    requires Legal(Start(t), es) && forall e <- es :: !e.Die?
    ensures After(Start(t), es).pushes[k] <= 1
  {
    InvRun(Start(t), es);
    assert Counted(After(Start(t), es), k);
  }
}
