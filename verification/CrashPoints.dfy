/** The queue operations command by command: a client may stop after any of them. */
module CrashPoints {
  import opened Jobs
  import opened QueueModel
  import opened Commands

  function Whole(q: Queue, op: Operation): Queue {
    match op
    case Acking(id, w) => Acknowledge(q, id, w)
    case Nacking(job, w, msg, retryAt) => Nack(q, job, w, msg, retryAt)
    case Moving(k) => MoveOne(q, k)
    case Reclaiming(w, k, retryAt) => ReclaimOne(q, w, k, retryAt)
  }

  lemma {:induction false} ApplyTwo(q: Queue, a: Command, b: Command)
    ensures ApplyAll(q, [a]) == Apply(q, a) && ApplyAll(q, [a, b]) == Apply(Apply(q, a), b)
  {
    assert [a][..0] == [] && [a, b][..1] == [a];
  }

  lemma {:induction false} ApplyThree(q: Queue, a: Command, b: Command, c: Command)
    ensures ApplyAll(q, [a, b, c]) == Apply(Apply(Apply(q, a), b), c)
  {
    ApplyTwo(q, a, b);
    assert [a, b, c][..2] == [a, b];
  }

  /** All commands of an operation together are the operation. */
  lemma {:induction false} CommandsAreOperation(q: Queue, op: Operation)
    ensures ApplyAll(q, CommandsOf(q, op)) == Whole(q, op)
  {
    var cs := CommandsOf(q, op);
    if |cs| == 1 {
      ApplyTwo(q, cs[0], cs[0]);
      assert cs == [cs[0]];
    } else if |cs| == 2 {
      ApplyTwo(q, cs[0], cs[1]);
      assert cs == [cs[0], cs[1]];
    } else {
      ApplyThree(q, cs[0], cs[1], cs[2]);
      assert cs == [cs[0], cs[1], cs[2]];
    }
  }

  // ---------------------------------------------------------------------------
  // Nothing stored is lost at any point
  // ---------------------------------------------------------------------------

  ghost predicate Safe(q: Queue) {
    forall k <- q.data :: Located(q, k)
  }

  /** What the caller of the operation relies on: an entry of the key exists. */
  ghost predicate Justified(q: Queue, op: Operation) {
    match op
    case Acking(_, _) => true
    case Nacking(job, _, _, _) => Located(q, job.id)
    case Moving(k) => k in q.delayed
    case Reclaiming(w, k, _) => Slot(w, k) in q.inflight && (k in q.data ==> q.data[k].id == k)
  }

  ghost predicate Keeps(q: Queue, q': Queue) {
    forall k :: Located(q, k) ==> Located(q', k)
  }

  lemma {:induction false} AddsKeep(q: Queue, q': Queue, pl: Place, k: JobId)
    requires Adds(q, q', pl, k)
    ensures Keeps(q, q') && Located(q', k)
  {
    assert Copies(q', pl, k) > 0;
    forall j: JobId | Located(q, j)
      ensures Located(q', j)
    {
      var at :| Copies(q, at, j) > 0;
      assert Copies(q', at, j) > 0;
    }
  }

  lemma {:induction false} PushKeeps(q: Queue, c: Command)
    requires c.PushReady? || c.PushDead?
    ensures Keeps(q, Apply(q, c)) && Located(Apply(q, c), c.k)
  {
    if c.PushReady? {
      PushAdds(q, c.p, c.k);
      AddsKeep(q, Apply(q, c), Ready(c.p), c.k);
    } else {
      ConsCount(q.dlq, c.k);
      assert Adds(q, Apply(q, c), Dead, c.k);
      AddsKeep(q, Apply(q, c), Dead, c.k);
    }
  }

  lemma {:induction false} DataKeeps(q: Queue, c: Command)
    requires c.Set? || c.Del?
    ensures Keeps(q, Apply(q, c))
  {
    var q' := Apply(q, c);
    forall k: JobId | Located(q, k)
      ensures Located(q', k)
    {
      var pl :| Copies(q, pl, k) > 0;
      assert Copies(q', pl, k) > 0;
    }
  }

  /** Removing one entry of `k` leaves `k` located when it also sits in a list. */
  lemma {:induction false} RemoveKeeps(q: Queue, c: Command, at: Place)
    requires c.EndLease? || c.Undelay?
    requires c.k in q.data ==> (at.Ready? || at.Dead?) && Copies(q, at, c.k) > 0
    requires Safe(q)
    ensures Safe(Apply(q, c))
  {
    var q' := Apply(q, c);
    forall k <- q'.data
      ensures Located(q', k)
    {
      var pl :| Copies(q, pl, k) > 0;
      var here := if k == c.k then at else pl;
      assert Copies(q', here, k) > 0;
    }
  }

  lemma {:induction false} SetSafe(q: Queue, job: Job)
    requires Safe(q) && Located(q, job.id)
    ensures Safe(Apply(q, Set(job))) && Located(Apply(q, Set(job)), job.id)
  {
    DataKeeps(q, Set(job));
  }

  lemma {:induction false} PushSafe(q: Queue, c: Command)
    requires Safe(q) && (c.PushReady? || c.PushDead? || c.Del?)
    ensures Safe(Apply(q, c))
  {
    if c.Del? {
      DataKeeps(q, c);
    } else {
      PushKeeps(q, c);
    }
  }

  lemma {:induction false} LeaseLocates(q: Queue, w: WorkerId, k: JobId)
    requires Slot(w, k) in q.inflight
    ensures Located(q, k)
  {
    assert Copies(q, InFlight(w), k) == 1;
  }

  /** Set, push, remove: safe after each. */
  lemma {:induction false} ThreeSteps(q: Queue, job: Job, push: Command, w: WorkerId)
    requires Safe(q) && Located(q, job.id)
    requires push == PushDead(job.id) || push == PushReady(job.priority, job.id)
    ensures var q1 := Apply(q, Set(job));
            var q2 := Apply(q1, push);
            Safe(q1) && Safe(q2) && Safe(Apply(q2, EndLease(w, job.id)))
  {
    SetSafe(q, job);
    var q1 := Apply(q, Set(job));
    PushSafe(q1, push);
    var q2 := Apply(q1, push);
    var at := if push.PushDead? then Dead else Ready(job.priority);
    assert Copies(q2, at, job.id) > 0 by {
      if push.PushDead? {
        ConsCount(q1.dlq, job.id);
      } else {
        PushAdds(q1, job.priority, job.id);
      }
    }
    RemoveKeeps(q2, EndLease(w, job.id), at);
  }

  lemma {:induction false} AckPoints(q: Queue, id: JobId, w: WorkerId)
    requires Safe(q)
    ensures var q1 := Apply(q, Del(id)); Safe(q1) && Safe(Apply(q1, EndLease(w, id)))
  {
    PushSafe(q, Del(id));
    RemoveKeeps(Apply(q, Del(id)), EndLease(w, id), Dead);
  }

  lemma {:induction false} MovePoints(q: Queue, k: JobId)
    requires Safe(q) && k in q.data
    ensures var q1 := Apply(q, PushReady(q.data[k].priority, k)); Safe(q1) && Safe(Apply(q1, Undelay(k)))
  {
    var p := q.data[k].priority;
    PushSafe(q, PushReady(p, k));
    PushAdds(q, p, k);
    RemoveKeeps(Apply(q, PushReady(p, k)), Undelay(k), Ready(p));
  }

  /** Whatever command an operation's client stops after, with no other client acting meanwhile, every key
      whose data is stored is still in a ready list, the delayed set, an in-flight set or the dead-letter
      list. */
  lemma {:induction false} EveryStopIsSafe(q: Queue, op: Operation, n: nat)
    requires Safe(q) && Justified(q, op) && n <= |CommandsOf(q, op)|
    ensures Safe(ApplyAll(q, CommandsOf(q, op)[..n]))
  {
    var cs := CommandsOf(q, op);
    match op {
      case Acking(id, w) => AckPoints(q, id, w);
      case Nacking(job, w, msg, retryAt) =>
        var j := NackedJob(job, msg, retryAt);
        ThreeSteps(q, j, if IsRetryable(job) then PushReady(j.priority, j.id) else PushDead(j.id), w);
      case Moving(k) =>
        if k in q.data {
          MovePoints(q, k);
        } else {
          RemoveKeeps(q, Undelay(k), Dead);
        }
      case Reclaiming(w, k, retryAt) =>
        if k in q.data {
          var j := ReclaimedJob(q.data[k], retryAt);
          LeaseLocates(q, w, k);
          ThreeSteps(q, j, PushReady(j.priority, j.id), w);
        } else {
          RemoveKeeps(q, EndLease(w, k), Dead);
        }
    }
    PrefixStates(q, cs, n);
  }

  /** The state after `n` of at most three commands. */
  lemma {:induction false} PrefixStates(q: Queue, cs: seq<Command>, n: nat)
    requires 1 <= |cs| <= 3 && n <= |cs|
    ensures ApplyAll(q, cs[..n]) ==
            if n == 0 then q
            else if n == 1 then Apply(q, cs[0])
            else if n == 2 then Apply(Apply(q, cs[0]), cs[1])
            else Apply(Apply(Apply(q, cs[0]), cs[1]), cs[2])
  {
    if n == 1 {
      ApplyTwo(q, cs[0], cs[0]);
      assert cs[..1] == [cs[0]];
    } else if n == 2 {
      ApplyTwo(q, cs[0], cs[1]);
      assert cs[..2] == [cs[0], cs[1]];
    } else if n == 3 {
      ApplyThree(q, cs[0], cs[1], cs[2]);
      assert cs[..3] == [cs[0], cs[1], cs[2]];
    }
  }

  /** Storing a record puts it out of reach exactly when its key is in no list and no set, as for a nack
      whose lease was reclaimed and acknowledged by another. */
  lemma {:induction false} StopAfterSetIff(q: Queue, job: Job)
    requires Safe(q)
    ensures Safe(Apply(q, Set(job))) <==> Located(q, job.id)
  {
    var q' := Apply(q, Set(job));
    if Located(q, job.id) {
      SetSafe(q, job);
    } else {
      assert forall pl :: Copies(q', pl, job.id) == Copies(q, pl, job.id);
      assert job.id in q'.data && !Located(q', job.id);
    }
  }

  /** Ending a lease puts a stored job out of reach exactly when that lease is its only entry. */
  lemma {:induction false} EndLeaseIff(q: Queue, w: WorkerId, k: JobId)
    requires Safe(q)
    ensures Safe(Apply(q, EndLease(w, k)))
            <==> (k in q.data ==> exists pl :: pl != InFlight(w) && Copies(q, pl, k) > 0)
  {
    RemovalIff(q, EndLease(w, k), k, InFlight(w));
  }

  /** The same for the entry in the delayed set. */
  lemma {:induction false} UndelayIff(q: Queue, k: JobId)
    requires Safe(q)
    ensures Safe(Apply(q, Undelay(k)))
            <==> (k in q.data ==> exists pl :: pl != Delayed && Copies(q, pl, k) > 0)
  {
    RemovalIff(q, Undelay(k), k, Delayed);
  }

  lemma {:induction false} RemovalIff(q: Queue, c: Command, k: JobId, at: Place)
    requires Safe(q) && Apply(q, c).data == q.data
    requires Drops(q, Apply(q, c), k, at)
    ensures Safe(Apply(q, c)) <==> (k in q.data ==> exists pl :: pl != at && Copies(q, pl, k) > 0)
  {
    var q' := Apply(q, c);
    forall j <- q.data | j != k
      ensures Located(q', j)
    {
      var pl :| Copies(q, pl, j) > 0;
      assert Copies(q', pl, j) > 0;
    }
    assert Located(q', k) <==> exists pl :: pl != at && Copies(q, pl, k) > 0 by {
      if pl :| pl != at && Copies(q, pl, k) > 0 {
        assert Copies(q', pl, k) > 0;
      }
    }
  }

  // ---------------------------------------------------------------------------
  // Runs
  // ---------------------------------------------------------------------------

  /** An operation of which only the first `n` commands arrived, a scripted step, or lost data. */
  datatype Event =
    | Partial(op: Operation, n: nat)
    | Submit(job: Job, now: int)
    | Pop(w: WorkerId, timeout: int, now: int)
    | Lapse(k: JobId)

  ghost predicate Enabled(q: Queue, e: Event) {
    e.Partial? ==> Justified(q, e.op) && e.n <= |CommandsOf(q, e.op)|
  }

  function Next(q: Queue, e: Event): Queue
    requires e.Partial? ==> e.n <= |CommandsOf(q, e.op)|
  {
    match e
    case Partial(op, n) => ApplyAll(q, CommandsOf(q, op)[..n])
    case Submit(job, now) => Enqueue(q, job, now)
    case Pop(w, timeout, now) => Dequeue(q, w, timeout, now).0
    case Lapse(k) => Expire(q, k)
  }

  ghost predicate Legal(q: Queue, es: seq<Event>)
    decreases |es|
  {
    es == [] || (Enabled(q, es[0]) && Legal(Next(q, es[0]), es[1..]))
  }

  ghost function After(q: Queue, es: seq<Event>): Queue
    requires Legal(q, es)
    decreases |es|
  {
    if es == [] then q else After(Next(q, es[0]), es[1..])
  }

  lemma {:induction false} SameStaysLocated(q: Queue, q': Queue, k: JobId)
    requires Located(q, k) && SameKey(q, q', k)
    ensures Located(q', k)
  {
    var pl :| Copies(q, pl, k) > 0;
    assert Copies(q', pl, k) > 0;
  }

  lemma {:induction false} SubmitSafe(q: Queue, job: Job, now: int)
    requires Safe(q)
    ensures Safe(Enqueue(q, job, now))
  {
    var q' := Enqueue(q, job, now);
    var home := if job.scheduledAt <= now then Ready(job.priority) else Delayed;
    EnqueuePlaces(q, job, now);
    assert Copies(q', home, job.id) > 0;
    forall k <- q'.data | k != job.id
      ensures Located(q', k)
    {
      EnqueueOthers(q, job, now, k);
      SameStaysLocated(q, q', k);
    }
  }

  lemma {:induction false} PopSafe(q: Queue, w: WorkerId, timeout: int, now: int)
    requires Safe(q)
    ensures Safe(Dequeue(q, w, timeout, now).0)
  {
    var p, q' := FirstReady(q, 0), Dequeue(q, w, timeout, now).0;
    if p != 10 {
      var key := Rightmost(q, p);
      assert Slot(w, key) in q'.inflight;
      LeaseLocates(q', w, key);
      forall k <- q'.data | k != key
        ensures Located(q', k)
      {
        LeaseOthers(q, p, w, now + timeout, k);
        SameStaysLocated(q, q', k);
      }
    }
  }

  lemma {:induction false} LapseSafe(q: Queue, k: JobId)
    requires Safe(q)
    ensures Safe(Expire(q, k))
  {
    forall j <- Expire(q, k).data
      ensures Located(Expire(q, k), j)
    {
      var pl :| Copies(q, pl, j) > 0;
      assert Copies(Expire(q, k), pl, j) > 0;
    }
  }

  /** No loss from a client that stops: in every run in which operations follow one another and each may
      stop after any of its commands, every stored job stays within reach. Commands of several clients
      between one another are the subject of `Interleaving`. */
  lemma {:induction false} NoLossAtAnyStop(q: Queue, es: seq<Event>)
    requires Safe(q) && Legal(q, es)
    ensures Safe(After(q, es))
    decreases |es|
  {
    if es != [] {
      match es[0] {
        case Partial(op, n) => EveryStopIsSafe(q, op, n);
        case Submit(job, now) => SubmitSafe(q, job, now);
        case Pop(w, timeout, now) => PopSafe(q, w, timeout, now);
        case Lapse(k) => LapseSafe(q, k);
      }
      NoLossAtAnyStop(Next(q, es[0]), es[1..]);
    }
  }
}
