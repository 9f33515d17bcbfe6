/** The Redis queue as a value: what each command sequence of the queue does to the stored keys. */
module QueueModel {
  import opened Jobs
  import opened SortedSet

  datatype Slot = Slot(worker: WorkerId, key: JobId)

  /** `ready` holds one list per priority, newest entry first. The per-worker in-flight sorted sets
      are kept in one map, so an absent sorted set and an empty one are the same, as in Redis. */
  datatype Queue = Queue(
    data: map<JobId, Job>,
    ready: map<int, seq<JobId>>,
    delayed: ZSet,
    inflight: map<Slot, int>,
    dlq: seq<JobId>)

  /** The worker pool leases for 5 s, the scheduler reclaims leases 2 min past their score. */
  const LEASE_MS := 5000
  const MAX_AGE_MS := 120000
  const WINDOW_MS := LEASE_MS + MAX_AGE_MS

  const EMPTY := Queue(map[], map[], map[], map[], [])

  function List(q: Queue, p: int): seq<JobId> {
    if p in q.ready then q.ready[p] else []
  }

  function Push(q: Queue, p: int, k: JobId): Queue {
    q.(ready := q.ready[p := [k] + List(q, p)])
  }

  function PopRight(q: Queue, p: int): Queue
    requires List(q, p) != []
  {
    q.(ready := q.ready[p := List(q, p)[..|List(q, p)| - 1]])
  }

  function Rightmost(q: Queue, p: int): JobId
    requires List(q, p) != []
  {
    List(q, p)[|List(q, p)| - 1]
  }

  // ---------------------------------------------------------------------------
  // Operations
  // ---------------------------------------------------------------------------

  function Enqueue(q: Queue, job: Job, now: int): Queue {
    var q1 := q.(data := q.data[job.id := job]);
    if job.scheduledAt <= now then Push(q1, job.priority, job.id)
    else q1.(delayed := q1.delayed[job.id := job.scheduledAt])
  }

  /** The first non-empty list among priorities `p`..9; 10 when there is none. */
  function FirstReady(q: Queue, p: nat): (r: nat)
    requires p <= 10
    ensures p <= r <= 10
    ensures r < 10 ==> List(q, r) != []
    ensures forall i :: p <= i < r ==> List(q, i) == []
    decreases 10 - p
  {
    if p == 10 || List(q, p) != [] then p else FirstReady(q, p + 1)
  }

  /** `Missing`: a key was leased but its data is gone, which the caller sees as a decoding error. */
  datatype Popped = Empty | Missing(key: JobId) | Got(job: Job)

  /** The key a dequeue answers for. */
  function KeyOf(a: Popped): Option<JobId> {
    match a
    case Empty => None
    case Missing(k) => Some(k)
    case Got(job) => Some(job.id)
  }

  /** The answer for a key taken from a store with these records. */
  function AnswerFor(data: map<JobId, Job>, k: JobId): Popped {
    if k in data then Got(data[k]) else Missing(k)
  }

  /** The key the next dequeue takes. */
  function NextKey(q: Queue): Option<JobId> {
    var p := FirstReady(q, 0);
    if p == 10 then None else Some(Rightmost(q, p))
  }

  function Lease(q: Queue, p: int, w: WorkerId, expiry: int): Queue
    requires List(q, p) != []
  {
    PopRight(q, p).(inflight := q.inflight[Slot(w, Rightmost(q, p)) := expiry])
  }

  function Dequeue(q: Queue, w: WorkerId, timeout: int, now: int): (Queue, Popped) {
    var p := FirstReady(q, 0);
    if p == 10 then (q, Empty)
    else
      var k := Rightmost(q, p);
      (Lease(q, p, w, now + timeout), if k in q.data then Got(q.data[k]) else Missing(k))
  }

  function Acknowledge(q: Queue, id: JobId, w: WorkerId): Queue {
    q.(data := q.data - {id}, inflight := q.inflight - {Slot(w, id)})
  }

  function Requeue(q: Queue, job: Job): Queue {
    Push(q.(data := q.data[job.id := job]), job.priority, job.id)
  }

  /** The job record as Nack leaves it; `retryAt` is what `NextRetryTime` gives for the retried record. */
  function NackedJob(job: Job, msg: string, retryAt: int): Job {
    if IsRetryable(job) then
      job.(retryCount := job.retryCount + 1, status := Pending, errorMessage := msg, scheduledAt := retryAt)
    else
      job.(status := DeadLetter, errorMessage := msg)
  }

  function Nack(q: Queue, job: Job, w: WorkerId, msg: string, retryAt: int): Queue {
    var j := NackedJob(job, msg, retryAt);
    if IsRetryable(job) then Requeue(q, j)
    else q.(data := q.data[j.id := j], dlq := [j.id] + q.dlq, inflight := q.inflight - {Slot(w, j.id)})
  }

  /** One delayed key: to its ready list if its data can be read, dropped otherwise. */
  function MoveOne(q: Queue, k: JobId): Queue {
    var q1 := if k in q.data then Push(q, q.data[k].priority, k) else q;
    q1.(delayed := q1.delayed - {k})
  }

  function MoveKeys(q: Queue, ks: seq<JobId>): Queue
    decreases |ks|
  {
    if ks == [] then q else MoveKeys(MoveOne(q, ks[0]), ks[1..])
  }

  function DueKeys(q: Queue, batch: int, now: int): seq<JobId> {
    Limit(RangeByScore(q.delayed, 0, now), batch)
  }

  function MoveDelayed(q: Queue, batch: int, now: int): Queue {
    MoveKeys(q, DueKeys(q, batch, now))
  }

  function InFlightOf(q: Queue, w: WorkerId): ZSet {
    map s | s in q.inflight && s.worker == w :: s.key := q.inflight[s]
  }

  function ReclaimedJob(job: Job, retryAt: int): Job {
    job.(retryCount := job.retryCount + 1, status := Pending, workerId := "", scheduledAt := retryAt)
  }

  /** One expired lease: requeued with its retry count incremented, or dropped if its data is gone. */
  function ReclaimOne(q: Queue, w: WorkerId, k: JobId, retryAt: int): Queue {
    var q1 := if k in q.data then Requeue(q, ReclaimedJob(q.data[k], retryAt)) else q;
    q1.(inflight := q1.inflight - {Slot(w, k)})
  }

  /** The retry time of `k` once its stored count has been incremented. */
  function RetryTimeOf(q: Queue, k: JobId, now: int): int {
    if k in q.data then NextRetryTime(q.data[k].(retryCount := q.data[k].retryCount + 1), now) else now
  }

  function ReclaimKeys(q: Queue, w: WorkerId, ks: seq<JobId>, now: int): Queue
    decreases |ks|
  {
    if ks == [] then q
    else ReclaimKeys(ReclaimOne(q, w, ks[0], RetryTimeOf(q, ks[0], now)), w, ks[1..], now)
  }

  function ExpiredKeys(q: Queue, w: WorkerId, maxAge: int, now: int): seq<JobId> {
    RangeByScore(InFlightOf(q, w), 0, now - maxAge)
  }

  /** `scan` is the order in which SCAN delivers the in-flight keys. */
  function ReclaimOrphaned(q: Queue, scan: seq<WorkerId>, maxAge: int, now: int): Queue
    decreases |scan|
  {
    if scan == [] then q
    else ReclaimOrphaned(ReclaimKeys(q, scan[0], ExpiredKeys(q, scan[0], maxAge, now), now), scan[1..], maxAge, now)
  }

  /** How many of `ks` find their data when their turn comes. */
  function ReclaimKeysCount(q: Queue, w: WorkerId, ks: seq<JobId>, now: int): nat
    decreases |ks|
  {
    if ks == [] then 0
    else
      var q1 := ReclaimOne(q, w, ks[0], RetryTimeOf(q, ks[0], now));
      (if ks[0] in q.data then 1 else 0) + ReclaimKeysCount(q1, w, ks[1..], now)
  }

  function ReclaimCount(q: Queue, scan: seq<WorkerId>, maxAge: int, now: int): nat
    decreases |scan|
  {
    if scan == [] then 0
    else
      var ks := ExpiredKeys(q, scan[0], maxAge, now);
      ReclaimKeysCount(q, scan[0], ks, now)
      + ReclaimCount(ReclaimKeys(q, scan[0], ks, now), scan[1..], maxAge, now)
  }

  /** A data key reaching its TTL. */
  function Expire(q: Queue, k: JobId): Queue {
    q.(data := q.data - {k})
  }

  // ---------------------------------------------------------------------------
  // Where a key is, and how often
  // ---------------------------------------------------------------------------

  datatype Place = Ready(p: int) | Delayed | InFlight(w: WorkerId) | Dead

  /** The places from which a job is still to be delivered. */
  predicate IsWaiting(pl: Place) {
    pl.Ready? || pl.Delayed?
  }

  ghost function Copies(q: Queue, pl: Place, k: JobId): nat {
    match pl
    case Ready(p) => multiset(List(q, p))[k]
    case Delayed => if k in q.delayed then 1 else 0
    case InFlight(w) => if Slot(w, k) in q.inflight then 1 else 0
    case Dead => multiset(q.dlq)[k]
  }

  ghost predicate Located(q: Queue, k: JobId) {
    exists pl :: Copies(q, pl, k) > 0
  }

  ghost predicate DataKeyed(q: Queue) {
    forall k <- q.data :: q.data[k].id == k
  }

  ghost predicate AtMostOnce(q: Queue, k: JobId) {
    && (forall pl :: Copies(q, pl, k) <= 1)
    && (forall pl, pl' :: Copies(q, pl, k) > 0 && Copies(q, pl', k) > 0 ==> pl == pl')
  }

  ghost predicate ExactlyOnce(q: Queue, k: JobId) {
    exists pl :: Copies(q, pl, k) == 1 && forall pl' :: pl' != pl ==> Copies(q, pl', k) == 0
  }

  /** `q'` holds one copy of `k` more than `q` at `pl`, and is otherwise arranged as `q`. */
  ghost predicate Adds(q: Queue, q': Queue, pl: Place, k: JobId) {
    forall pl', j :: Copies(q', pl', j) == Copies(q, pl', j) + (if pl' == pl && j == k then 1 else 0)
  }

  /** One copy of `k` went from `a` to `b`; every other copy of every key is where it was. */
  ghost predicate Moves(q: Queue, q': Queue, k: JobId, a: Place, b: Place) {
    a != b && Copies(q, a, k) == 1 &&
    forall pl, j :: Copies(q', pl, j) ==
      if j == k && pl == a then 0
      else if j == k && pl == b then Copies(q, b, k) + 1
      else Copies(q, pl, j)
  }

  ghost predicate Drops(q: Queue, q': Queue, k: JobId, a: Place) {
    forall pl, j :: Copies(q', pl, j) == if j == k && pl == a then 0 else Copies(q, pl, j)
  }

  ghost predicate SameArrangement(q: Queue, q': Queue) {
    forall pl, j :: Copies(q', pl, j) == Copies(q, pl, j)
  }

  lemma {:induction false} ConsCount(l: seq<JobId>, k: JobId)
    ensures multiset([k] + l) == multiset(l) + multiset{k}
  {
  }

  lemma {:induction false} LastCount(l: seq<JobId>)
    requires l != []
    ensures multiset(l) == multiset(l[..|l| - 1]) + multiset{l[|l| - 1]}
  {
    assert l == l[..|l| - 1] + [l[|l| - 1]];
  }

  lemma {:induction false} PushAdds(q: Queue, p: int, k: JobId)
    ensures Adds(q, Push(q, p, k), Ready(p), k)
  {
    ConsCount(List(q, p), k);
    assert forall p' :: List(Push(q, p, k), p') == if p' == p then [k] + List(q, p) else List(q, p');
  }

  lemma {:induction false} EnqueuePlaces(q: Queue, job: Job, now: int)
    ensures job.scheduledAt <= now ==> Adds(q, Enqueue(q, job, now), Ready(job.priority), job.id)
    ensures job.scheduledAt > now && job.id !in q.delayed ==> Adds(q, Enqueue(q, job, now), Delayed, job.id)
  {
    if job.scheduledAt <= now {
      RequeuePlaces(q, job);
    }
  }

  lemma {:induction false} RequeuePlaces(q: Queue, job: Job)
    ensures Adds(q, Requeue(q, job), Ready(job.priority), job.id)
  {
    var q1 := q.(data := q.data[job.id := job]);
    assert SameArrangement(q, q1);
    PushAdds(q1, job.priority, job.id);
  }

  /** A dequeue takes one copy out of a ready list and leases it: no other copy moves. */
  lemma {:induction false} LeasePlaces(q: Queue, p: int, w: WorkerId, expiry: int)
    requires List(q, p) != []
    ensures var k := Rightmost(q, p);
            && Copies(q, Ready(p), k) > 0
            && Copies(Lease(q, p, w, expiry), InFlight(w), k) == 1
            && Copies(Lease(q, p, w, expiry), Ready(p), k) == Copies(q, Ready(p), k) - 1
            && forall pl, j :: !(j == k && (pl == Ready(p) || pl == InFlight(w))) ==>
                 Copies(Lease(q, p, w, expiry), pl, j) == Copies(q, pl, j)
  {
    LastCount(List(q, p));
  }

  /** `q'` is `q` after the oldest entry `k` of list `p`, the first list with any, went to worker `w`'s
      in-flight set at score `expiry`. */
  ghost predicate Took(q: Queue, q': Queue, p: int, k: JobId, w: WorkerId, expiry: int) {
    && 0 <= p <= 9 && (forall i :: 0 <= i < p ==> List(q, i) == [])
    && List(q, p) == List(q', p) + [k] && (forall i :: i != p ==> List(q', i) == List(q, i))
    && q'.inflight == q.inflight[Slot(w, k) := expiry]
    && q'.data == q.data && q'.delayed == q.delayed && q'.dlq == q.dlq
  }

  /** What the caller of a dequeue gets: nothing, and no change, exactly when all ten lists are empty;
      otherwise the stored record of the very key that left its list and was leased, or, exactly when that
      key has none, the news of it. */
  ghost predicate Answered(q: Queue, q': Queue, w: WorkerId, expiry: int, a: Popped) {
    if forall p :: 0 <= p <= 9 ==> List(q, p) == [] then a == Empty && q' == q
    else exists p, k :: Took(q, q', p, k, w, expiry) && a == if k in q.data then Got(q.data[k]) else Missing(k)
  }

  /** A job that is handed out is the record stored under its own id, leased from now on to `expiry`. */
  ghost predicate HandsOut(q: Queue, q': Queue, w: WorkerId, expiry: int, job: Job) {
    && job.id in q.data && q.data[job.id] == job
    && Slot(w, job.id) in q'.inflight && q'.inflight[Slot(w, job.id)] == expiry
    && exists p :: Took(q, q', p, job.id, w, expiry)
  }

  lemma {:induction false} DequeueAnswers(q: Queue, w: WorkerId, timeout: int, now: int)
    ensures var (q', a) := Dequeue(q, w, timeout, now);
            Answered(q, q', w, now + timeout, a) && (DataKeyed(q) && a.Got? ==> HandsOut(q, q', w, now + timeout, a.job))
  {
    var p, q' := FirstReady(q, 0), Dequeue(q, w, timeout, now).0;
    if p < 10 {
      var l := List(q, p);
      assert l == l[..|l| - 1] + [l[|l| - 1]];
      assert Took(q, q', p, Rightmost(q, p), w, now + timeout);
    }
  }

  /** And there is only one list and key it can have been. */
  lemma {:induction false} TookOne(q: Queue, q': Queue, p: int, k: JobId, p': int, k': JobId, w: WorkerId, expiry: int)
    requires Took(q, q', p, k, w, expiry) && Took(q, q', p', k', w, expiry)
    ensures p == p' && k == k'
  {
    assert |List(q, p)| == |List(q', p)| + 1;
    assert List(q, p)[|List(q, p)| - 1] == k;
  }

  lemma {:induction false} AcknowledgePlaces(q: Queue, id: JobId, w: WorkerId)
    ensures Drops(q, Acknowledge(q, id, w), id, InFlight(w))
  {
  }

  lemma {:induction false} NackDeadPlaces(q: Queue, job: Job, w: WorkerId, msg: string, retryAt: int)
    requires !IsRetryable(job)
    ensures var q' := Nack(q, job, w, msg, retryAt);
            && Copies(q', InFlight(w), job.id) == 0
            && Copies(q', Dead, job.id) == Copies(q, Dead, job.id) + 1
            && forall pl, j :: !(j == job.id && (pl == Dead || pl == InFlight(w))) ==>
                 Copies(q', pl, j) == Copies(q, pl, j)
  {
    ConsCount(q.dlq, job.id);
  }

  lemma {:induction false} MoveOnePlaces(q: Queue, k: JobId)
    requires k in q.delayed
    ensures k in q.data ==> Moves(q, MoveOne(q, k), k, Delayed, Ready(q.data[k].priority))
    ensures k !in q.data ==> Drops(q, MoveOne(q, k), k, Delayed)
  {
    if k in q.data {
      var q1 := Push(q, q.data[k].priority, k);
      PushAdds(q, q.data[k].priority, k);
      UndelayDrops(q1, k);
    }
  }

  lemma {:induction false} UndelayDrops(q: Queue, k: JobId)
    ensures Drops(q, q.(delayed := q.delayed - {k}), k, Delayed)
  {
  }

  lemma {:induction false} ReclaimOnePlaces(q: Queue, w: WorkerId, k: JobId, retryAt: int)
    requires Slot(w, k) in q.inflight
    requires k in q.data ==> q.data[k].id == k
    ensures k in q.data ==> Moves(q, ReclaimOne(q, w, k, retryAt), k, InFlight(w), Ready(q.data[k].priority))
    ensures k !in q.data ==> Drops(q, ReclaimOne(q, w, k, retryAt), k, InFlight(w))
  {
    if k in q.data {
      var j := ReclaimedJob(q.data[k], retryAt);
      RequeuePlaces(q, j);
    }
  }

  // ---------------------------------------------------------------------------
  // An operation on one key leaves every other key alone
  // ---------------------------------------------------------------------------

  ghost predicate SameKey(q: Queue, q': Queue, j: JobId) {
    && (forall pl :: Copies(q', pl, j) == Copies(q, pl, j))
    && (j in q'.data <==> j in q.data)
    && (j in q.data ==> q'.data[j] == q.data[j])
    && (j in q.delayed ==> j in q'.delayed && q'.delayed[j] == q.delayed[j])
    && (forall w :: Slot(w, j) in q'.inflight <==> Slot(w, j) in q.inflight)
    && (forall w :: Slot(w, j) in q.inflight ==> q'.inflight[Slot(w, j)] == q.inflight[Slot(w, j)])
  }

  lemma {:induction false} RequeueOthers(q: Queue, job: Job, j: JobId)
    requires j != job.id
    ensures SameKey(q, Requeue(q, job), j)
  {
    RequeuePlaces(q, job);
  }

  lemma {:induction false} EnqueueOthers(q: Queue, job: Job, now: int, j: JobId)
    requires j != job.id
    ensures SameKey(q, Enqueue(q, job, now), j)
  {
    if job.scheduledAt <= now {
      RequeueOthers(q, job, j);
    }
  }

  lemma {:induction false} LeaseOthers(q: Queue, p: int, w: WorkerId, expiry: int, j: JobId)
    requires List(q, p) != [] && j != Rightmost(q, p)
    ensures SameKey(q, Lease(q, p, w, expiry), j)
  {
    LeasePlaces(q, p, w, expiry);
  }

  lemma {:induction false} AcknowledgeOthers(q: Queue, id: JobId, w: WorkerId, j: JobId)
    requires j != id
    ensures SameKey(q, Acknowledge(q, id, w), j)
  {
  }

  lemma {:induction false} ExpireOthers(q: Queue, k: JobId, j: JobId)
    requires j != k
    ensures SameKey(q, Expire(q, k), j)
  {
  }

  lemma {:induction false} NackOthers(q: Queue, job: Job, w: WorkerId, msg: string, retryAt: int, j: JobId)
    requires j != job.id
    ensures SameKey(q, Nack(q, job, w, msg, retryAt), j)
  {
    if IsRetryable(job) {
      RequeueOthers(q, NackedJob(job, msg, retryAt), j);
    } else {
      NackDeadPlaces(q, job, w, msg, retryAt);
    }
  }

  lemma {:induction false} MoveOneOthers(q: Queue, k: JobId, j: JobId)
    requires k in q.delayed && j != k
    ensures SameKey(q, MoveOne(q, k), j)
  {
    MoveOnePlaces(q, k);
  }

  lemma {:induction false} ReclaimOneOthers(q: Queue, w: WorkerId, k: JobId, retryAt: int, j: JobId)
    requires Slot(w, k) in q.inflight && j != k
    requires k in q.data ==> q.data[k].id == k
    ensures SameKey(q, ReclaimOne(q, w, k, retryAt), j)
  {
    ReclaimOnePlaces(q, w, k, retryAt);
  }
}
