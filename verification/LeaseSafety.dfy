/** Leases: with prompt answers every stored key is in exactly one place and is delivered at most
    once more than it was reclaimed; a lease is never reclaimed before its 125 s are over. */
module LeaseSafety {
  import opened Jobs
  import opened QueueModel
  import opened Protocol
  import opened ProtocolFrame
  import opened Delivery

  // ---------------------------------------------------------------------------
  // Statuses: nothing stored or delivered is ever `failed` or `running`
  // ---------------------------------------------------------------------------

  predicate Settled(s: Status) {
    s == Pending || s == DeadLetter
  }

  ghost predicate StatusInv(w: World) {
    && (forall k <- w.q.data :: Settled(w.q.data[k].status))
    && (forall d <- w.held :: Settled(w.held[d].job.status))
  }

  lemma {:induction false} StoredStatusStep(w: World, e: Event)
    requires Enabled(w, e) && Obeys(w, e, StatusKept) && StatusInv(w)
    ensures forall k <- NextQueue(w, e).data :: Settled(NextQueue(w, e).data[k].status)
  {
  }

  lemma {:induction false} StatusStep(w: World, e: Event)
    requires Enabled(w, e) && Obeys(w, e, StatusKept) && StatusInv(w)
    ensures StatusInv(Next(w, e))
  {
    StoredStatusStep(w, e);
    HeldStatusStep(w, e);
  }

  lemma {:induction false} HeldStatusStep(w: World, e: Event)
    requires Enabled(w, e) && StatusInv(w)
    ensures forall d <- Next(w, e).held :: Settled(Next(w, e).held[d].job.status)
  {
    assert e.Pop? && NextKey(w.q).Some? && NextKey(w.q).value in w.q.data ==>
        Settled(w.q.data[NextKey(w.q).value].status);
  }

  lemma {:induction false} StatusRun(w: World, es: seq<Event>, rules: set<Rule>)
    requires Legal(w, es, rules) && StatusKept in rules && StatusInv(w)
    ensures StatusInv(After(w, es, rules))
    decreases |es|
  {
    if es != [] {
      StatusStep(w, es[0]);
      StatusRun(Next(w, es[0]), es[1..], rules);
    }
  }

  /** Reachable statuses: when handlers leave the status alone, no stored job is ever `failed` or
      `running`, so a worker's Nack dead-letters on the first failure, however many retries are left. */
  lemma {:induction false} NackAlwaysDeadLetters(t: nat, es: seq<Event>, rules: set<Rule>,
                                                 d: nat, msg: string, retryAt: int)
    requires Legal(Start(t), es, rules) && StatusKept in rules
    requires d in After(Start(t), es, rules).held
    ensures var w := After(Start(t), es, rules);
            var job := w.held[d].job;
            var q' := NextQueue(w, Fail(d, job.status, msg, retryAt));
            && (forall k <- w.q.data :: Settled(w.q.data[k].status))
            && q'.dlq == [job.id] + w.q.dlq && q'.ready == w.q.ready
            && job.id in q'.data && q'.data[job.id] == job.(status := DeadLetter, errorMessage := msg)
  {
    StatusRun(Start(t), es, rules);
  }

  // ---------------------------------------------------------------------------
  // One place per key
  // ---------------------------------------------------------------------------

  ghost predicate Fresh(w: World, d: nat, k: JobId) {
    Waits(w, d, k) && w.clock < w.held[d].at + WINDOW_MS
  }

  /** A delivery still inside its 125 s holds the lease it was given, and is alone in that. */
  ghost predicate LeaseKey(w: World, k: JobId) {
    && (forall d :: Fresh(w, d, k) ==>
          Slot(w.held[d].worker, k) in w.q.inflight &&
          w.q.inflight[Slot(w.held[d].worker, k)] == w.held[d].at + LEASE_MS)
    && (forall d, d' :: Fresh(w, d, k) && Fresh(w, d', k) ==> d == d')
  }

  ghost predicate CountKey(w: World, k: JobId) {
    && w.pops[k] <= 1 + w.reclaims[k]
    && (forall p :: Copies(w.q, Ready(p), k) > 0 ==> w.pops[k] <= w.reclaims[k])
    && (Copies(w.q, Delayed, k) > 0 ==> w.pops[k] <= w.reclaims[k])
  }

  ghost predicate UniqueKey(w: World, k: JobId) {
    AtMostOnce(w.q, k) && LeaseKey(w, k) && CountKey(w, k)
  }

  const PROMPT: set<Rule> := {NoManualRetry, Prompt, StatusKept}

  ghost predicate UniqueInv(w: World) {
    Inv(w) && StatusInv(w) && forall k :: UniqueKey(w, k)
  }

  lemma {:induction false} MovesKeepAtMostOnce(q: Queue, q': Queue, k: JobId, a: Place, b: Place)
    requires AtMostOnce(q, k) && Moves(q, q', k, a, b)
    ensures AtMostOnce(q', k)
  {
  }

  lemma {:induction false} DropsKeepAtMostOnce(q: Queue, q': Queue, k: JobId, a: Place)
    requires AtMostOnce(q, k) && Drops(q, q', k, a)
    ensures AtMostOnce(q', k)
  {
  }

  lemma {:induction false} SameKeepsUnique(w: World, w': World, k: JobId)
    requires UniqueKey(w, k) && SameKey(w.q, w'.q, k) && SameRecorded(w, w', k) && w.clock <= w'.clock
    ensures UniqueKey(w', k)
  {
    assert forall d :: Fresh(w', d, k) ==> Fresh(w, d, k);
  }

  lemma {:induction false} UniqueSubmit(w: World, job: Job)
    requires Enabled(w, Submit(job)) && KeyInv(w, job.id)
    ensures UniqueKey(Next(w, Submit(job)), job.id)
  {
    EnqueuePlaces(w.q, job, w.clock);
    assert Copies(w.q, Delayed, job.id) == 0;
    var w' := Next(w, Submit(job));
    assert forall d :: Fresh(w', d, job.id) ==> Waits(w, d, job.id);
  }

  lemma {:induction false} PopMoves(q: Queue, wk: WorkerId, now: int, k: JobId)
    requires NextKey(q) == Some(k) && AtMostOnce(q, k)
    ensures Moves(q, Dequeue(q, wk, LEASE_MS, now).0, k, Ready(FirstReady(q, 0)), InFlight(wk))
  {
    var p := FirstReady(q, 0);
    LeasePlaces(q, p, wk, now + LEASE_MS);
    assert Copies(q, InFlight(wk), k) == 0;
  }

  lemma {:induction false} ReadyHasNoFresh(w: World, k: JobId, p: int, d: nat)
    requires UniqueKey(w, k) && Copies(w.q, Ready(p), k) > 0
    ensures !Fresh(w, d, k)
  {
    if Fresh(w, d, k) {
      FreshPlace(w, d, k);
    }
  }

  lemma {:induction false} PopLeaseKey(w: World, wk: WorkerId, k: JobId)
    requires Keyed(w) && NextKey(w.q) == Some(k) && forall d :: !Fresh(w, d, k)
    ensures LeaseKey(Next(w, Pop(wk)), k)
  {
    var w' := Next(w, Pop(wk));
    assert forall d :: Fresh(w', d, k) ==> Fresh(w, d, k) || (d == w.issued && k in w.q.data);
  }

  lemma {:induction false} UniquePop(w: World, wk: WorkerId, k: JobId)
    requires Keyed(w) && UniqueKey(w, k) && NextKey(w.q) == Some(k)
    ensures UniqueKey(Next(w, Pop(wk)), k)
  {
    var p, q' := FirstReady(w.q, 0), NextQueue(w, Pop(wk));
    PopMoves(w.q, wk, w.clock, k);
    MovesKeepAtMostOnce(w.q, q', k, Ready(p), InFlight(wk));
    assert Copies(w.q, Ready(p), k) == 1 && Copies(q', InFlight(wk), k) == 1;
    forall d: nat
      ensures !Fresh(w, d, k)
    {
      ReadyHasNoFresh(w, k, p, d);
    }
    PopLeaseKey(w, wk, k);
    assert CountKey(Next(w, Pop(wk)), k);
  }

  /** A fresh delivery's own lease is the one place of its key. */
  lemma {:induction false} FreshPlace(w: World, d: nat, k: JobId)
    requires Fresh(w, d, k) && UniqueKey(w, k)
    ensures Copies(w.q, InFlight(w.held[d].worker), k) == 1
    ensures forall pl :: pl != InFlight(w.held[d].worker) ==> Copies(w.q, pl, k) == 0
  {
  }

  lemma {:induction false} UniqueAck(w: World, d: nat, k: JobId)
    requires Fresh(w, d, k) && UniqueKey(w, k)
    ensures UniqueKey(Next(w, Ack(d)), k)
  {
    var w' := Next(w, Ack(d));
    AcknowledgePlaces(w.q, k, w.held[d].worker);
    DropsKeepAtMostOnce(w.q, w'.q, k, InFlight(w.held[d].worker));
    assert forall i :: Fresh(w', i, k) ==> Fresh(w, i, k) && i != d;
  }

  /** A prompt nack keeps the job in one place exactly when it dead-letters: the retry branch leaves the
      lease beside the waiting copy. */
  lemma {:induction false} UniqueFail(w: World, d: nat, k: JobId, status: Status, msg: string, retryAt: int)
    requires Fresh(w, d, k) && UniqueKey(w, k)
    ensures UniqueKey(Next(w, Fail(d, status, msg, retryAt)), k) <==> !IsRetryable(FailedCopy(w, d, status))
  {
    var wk, j, w' := w.held[d].worker, FailedCopy(w, d, status), Next(w, Fail(d, status, msg, retryAt));
    FreshPlace(w, d, k);
    if IsRetryable(j) {
      RequeuePlaces(w.q, NackedJob(j, msg, retryAt));
      assert Copies(w'.q, Ready(j.priority), k) > 0 && Copies(w'.q, InFlight(wk), k) > 0;
    } else {
      NackDeadPlaces(w.q, j, wk, msg, retryAt);
      assert w'.held == w.held - {d};
      UniqueDead(w, d, k, w');
    }
  }

  lemma {:induction false} UniqueDead(w: World, d: nat, k: JobId, w': World)
    requires Fresh(w, d, k) && UniqueKey(w, k) && w'.held == w.held - {d} && w'.clock == w.clock
    requires w'.pops == w.pops && w'.reclaims == w.reclaims
    requires forall pl :: Copies(w'.q, pl, k) == if pl == Dead then 1 else 0
    ensures UniqueKey(w', k)
  {
    assert forall i :: Fresh(w', i, k) ==> Fresh(w, i, k) && i != d;
  }

  lemma {:induction false} UniqueMove(w: World, k: JobId)
    requires Enabled(w, Move(k)) && UniqueKey(w, k)
    ensures UniqueKey(Next(w, Move(k)), k)
  {
    var w' := Next(w, Move(k));
    MoveOnePlaces(w.q, k);
    if k in w.q.data {
      MovesKeepAtMostOnce(w.q, w'.q, k, Delayed, Ready(w.q.data[k].priority));
    } else {
      DropsKeepAtMostOnce(w.q, w'.q, k, Delayed);
    }
    assert Copies(w.q, Delayed, k) == 1;
    assert forall d :: Fresh(w', d, k) ==> Fresh(w, d, k);
  }

  /** A lease taken at `t` cannot be reclaimed before `t` + 5 s + 2 min. */
  lemma {:induction false} FreshNotReclaimable(w: World, d: nat, k: JobId, wk: WorkerId, retryAt: int)
    requires Enabled(w, Reclaim(wk, k, retryAt)) && UniqueKey(w, k)
    ensures !Fresh(w, d, k)
  {
    assert Copies(w.q, InFlight(wk), k) == 1;
    if Fresh(w, d, k) {
      FreshPlace(w, d, k);
    }
  }

  lemma {:induction false} UniqueReclaim(w: World, wk: WorkerId, k: JobId, retryAt: int)
    requires Enabled(w, Reclaim(wk, k, retryAt)) && Keyed(w) && UniqueKey(w, k)
    ensures UniqueKey(Next(w, Reclaim(wk, k, retryAt)), k)
  {
    var w' := Next(w, Reclaim(wk, k, retryAt));
    ReclaimOnePlaces(w.q, wk, k, retryAt);
    if k in w.q.data {
      MovesKeepAtMostOnce(w.q, w'.q, k, InFlight(wk), Ready(w.q.data[k].priority));
    } else {
      DropsKeepAtMostOnce(w.q, w'.q, k, InFlight(wk));
    }
    forall d
      ensures !Fresh(w', d, k)
    {
      FreshNotReclaimable(w, d, k, wk, retryAt);
    }
  }

  lemma {:induction false} UniqueRest(w: World, e: Event, k: JobId)
    requires e.Crash? || e.Lapse?
    requires Enabled(w, e) && UniqueKey(w, k)
    ensures UniqueKey(Next(w, e), k)
  {
    var w' := Next(w, e);
    assert forall d :: Fresh(w', d, k) ==> Fresh(w, d, k) && w'.held[d] == w.held[d];
    UniqueShrinks(w, w', k);
  }

  lemma {:induction false} UniqueShrinks(w: World, w': World, k: JobId)
    requires UniqueKey(w, k) && forall d :: Fresh(w', d, k) ==> Fresh(w, d, k) && w'.held[d] == w.held[d]
    requires w'.q == w.q.(data := w'.q.data) && w'.pops == w.pops && w'.reclaims == w.reclaims
    ensures UniqueKey(w', k)
  {
    assert forall pl :: Copies(w'.q, pl, k) == Copies(w.q, pl, k);
    assert AtMostOnce(w'.q, k);
  }

  lemma {:induction false} UniqueTouched(w: World, e: Event, k: JobId)
    requires Enabled(w, e) && (forall r <- PROMPT :: Obeys(w, e, r))
    requires Inv(w) && StatusInv(w) && UniqueKey(w, k) && Touched(w, e) == Some(k)
    ensures UniqueKey(Next(w, e), k)
  {
    assert KeyInv(w, k);
    assert Obeys(w, e, NoManualRetry) && Obeys(w, e, Prompt) && Obeys(w, e, StatusKept);
    match e
    case Submit(job) => UniqueSubmit(w, job);
    case Retry(_) =>
    case Pop(wk) => UniquePop(w, wk, k);
    case Ack(d) => UniqueAck(w, d, k);
    case Fail(d, status, msg, retryAt) => UniqueFail(w, d, k, status, msg, retryAt);
    case Move(_) => UniqueMove(w, k);
    case Reclaim(wk, _, retryAt) => UniqueReclaim(w, wk, k, retryAt);
    case _ => UniqueRest(w, e, k);
  }

  lemma {:induction false} UniqueStep(w: World, e: Event)
    requires Enabled(w, e) && (forall r <- PROMPT :: Obeys(w, e, r)) && UniqueInv(w)
    ensures UniqueInv(Next(w, e))
  {
    InvStep(w, e);
    assert StatusKept in PROMPT;
    StatusStep(w, e);
    forall k: JobId
      ensures UniqueKey(Next(w, e), k)
    {
      assert UniqueKey(w, k);
      if Touched(w, e) == Some(k) {
        UniqueTouched(w, e, k);
      } else {
        RecordedFrame(w, e, k);
        StoredFrame(w, e, k);
        SameKeepsUnique(w, Next(w, e), k);
      }
    }
  }

  lemma {:induction false} UniqueRun(w: World, es: seq<Event>, rules: set<Rule>)
    requires Legal(w, es, rules) && PROMPT <= rules && UniqueInv(w)
    ensures UniqueInv(After(w, es, rules))
    decreases |es|
  {
    if es != [] {
      assert forall r <- PROMPT :: r in rules;
      UniqueStep(w, es[0]);
      UniqueRun(Next(w, es[0]), es[1..], rules);
    }
  }

  lemma {:induction false} StartUnique(t: nat)
    ensures UniqueInv(Start(t))
  {
    StartInv(t);
  }

  /** Lease safety: if every ack or nack that is sent lands under 125 s after its dequeue, then, crashes
      and expiries included, each key with data is in exactly one place, and no key is delivered more
      often than once plus its reclaims. */
  lemma {:induction false} ExactlyOnePlace(t: nat, es: seq<Event>, rules: set<Rule>)
    requires Legal(Start(t), es, rules) && PROMPT <= rules
    ensures var w := After(Start(t), es, rules);
            && (forall k <- w.q.data :: ExactlyOnce(w.q, k))
            && (forall k: JobId :: w.pops[k] <= 1 + w.reclaims[k])
  {
    StartUnique(t);
    UniqueRun(Start(t), es, rules);
    var w := After(Start(t), es, rules);
    forall k: JobId
      ensures w.pops[k] <= 1 + w.reclaims[k]
    {
      assert UniqueKey(w, k);
    }
    forall k <- w.q.data
      ensures ExactlyOnce(w.q, k)
    {
      assert KeyInv(w, k) && UniqueKey(w, k);
      var pl :| Copies(w.q, pl, k) > 0;
      assert Copies(w.q, pl, k) == 1;
    }
  }

  // ---------------------------------------------------------------------------
  // Every delivery answered in time
  // ---------------------------------------------------------------------------

  ghost predicate HeldBy(w: World, wk: WorkerId, k: JobId) {
    exists d :: Waits(w, d, k) && w.held[d].worker == wk
  }

  ghost predicate AnsweredKey(w: World, k: JobId) {
    && w.reclaims[k] == 0
    && (forall d :: Waits(w, d, k) ==> Fresh(w, d, k))
    && (k in w.q.data ==> forall wk :: Slot(wk, k) in w.q.inflight ==> HeldBy(w, wk, k))
  }

  lemma {:induction false} AnsweredSame(w: World, e: Event, k: JobId)
    requires Enabled(w, e) && Keyed(w) && Obeys(w, e, Answered) && AnsweredKey(w, k) && Touched(w, e) != Some(k)
    ensures AnsweredKey(Next(w, e), k)
  {
    RecordedFrame(w, e, k);
    StoredFrame(w, e, k);
    var w' := Next(w, e);
    forall d <- w'.held | w'.held[d].job.id == k
      ensures w'.clock < w'.held[d].at + WINDOW_MS
    {
      assert Waits(w, d, k) && Fresh(w, d, k);
    }
    SameKeepsAnswered(w, w', k);
  }

  lemma {:induction false} SameKeepsAnswered(w: World, w': World, k: JobId)
    requires AnsweredKey(w, k) && SameKey(w.q, w'.q, k) && SameRecorded(w, w', k)
    requires forall d <- w'.held :: w'.held[d].job.id == k ==> w'.clock < w'.held[d].at + WINDOW_MS
    ensures AnsweredKey(w', k)
  {
    forall wk | k in w'.q.data && Slot(wk, k) in w'.q.inflight
      ensures HeldBy(w', wk, k)
    {
      var d :| Waits(w, d, k) && w.held[d].worker == wk;
      assert Waits(w', d, k);
    }
    assert forall d :: Waits(w', d, k) ==> Waits(w, d, k);
  }

  lemma {:induction false} AnsweredPop(w: World, wk: WorkerId, k: JobId)
    requires Keyed(w) && UniqueKey(w, k) && AnsweredKey(w, k) && NextKey(w.q) == Some(k)
    ensures AnsweredKey(Next(w, Pop(wk)), k)
  {
    var p, w' := FirstReady(w.q, 0), Next(w, Pop(wk));
    LeasePlaces(w.q, p, wk, w.clock + LEASE_MS);
    assert Copies(w.q, Ready(p), k) > 0;
    if k in w.q.data {
      assert Waits(w', w.issued, k);
      forall wk' | Slot(wk', k) in w'.q.inflight
        ensures HeldBy(w', wk', k)
      {
        assert wk' == wk || Copies(w.q, InFlight(wk'), k) > 0;
      }
    }
    assert forall d :: Waits(w', d, k) ==> Waits(w, d, k) || (d == w.issued && k in w.q.data);
  }

  lemma {:induction false} AnsweredClose(w: World, e: Event, k: JobId)
    requires e.Ack? || (e.Fail? && e.d in w.held && e.status == w.held[e.d].job.status && Settled(e.status))
    requires Enabled(w, e) && UniqueKey(w, k) && AnsweredKey(w, k) && Touched(w, e) == Some(k)
    ensures AnsweredKey(Next(w, e), k)
  {
    var d, w' := e.d, Next(w, e);
    assert Waits(w, d, k) && Fresh(w, d, k);
    FreshPlace(w, d, k);
    assert forall wk :: Slot(wk, k) in w.q.inflight ==> Copies(w.q, InFlight(wk), k) == 1;
    assert forall wk :: Slot(wk, k) !in w'.q.inflight;
    assert forall i :: Waits(w', i, k) ==> Waits(w, i, k);
  }

  /** With every delivery answered, only leases whose data is gone are ever reclaimed. */
  lemma {:induction false} AnsweredReclaim(w: World, wk: WorkerId, k: JobId, retryAt: int)
    requires Enabled(w, Reclaim(wk, k, retryAt)) && UniqueKey(w, k) && AnsweredKey(w, k)
    ensures k !in w.q.data && AnsweredKey(Next(w, Reclaim(wk, k, retryAt)), k)
  {
    var w' := Next(w, Reclaim(wk, k, retryAt));
    assert forall i :: Waits(w', i, k) ==> Waits(w, i, k);
  }

  lemma {:induction false} AnsweredRest(w: World, e: Event, k: JobId)
    requires e.Submit? || e.Move? || e.Lapse?
    requires Enabled(w, e) && KeyInv(w, k) && UniqueKey(w, k) && AnsweredKey(w, k) && Touched(w, e) == Some(k)
    ensures AnsweredKey(Next(w, e), k)
  {
    var w' := Next(w, e);
    assert forall i :: Waits(w', i, k) <==> Waits(w, i, k);
    assert e.Move? ==> Copies(w.q, Delayed, k) == 1;
    assert forall wk :: Slot(wk, k) in w.q.inflight ==> Copies(w.q, InFlight(wk), k) == 1;
    assert k in w'.q.data ==> forall wk :: Slot(wk, k) !in w'.q.inflight;
  }

  lemma {:induction false} AnsweredTouched(w: World, e: Event, k: JobId)
    requires Enabled(w, e) && (forall r <- PROMPT + {Answered} :: Obeys(w, e, r))
    requires UniqueInv(w) && AnsweredKey(w, k) && Touched(w, e) == Some(k)
    ensures AnsweredKey(Next(w, e), k)
  {
    assert KeyInv(w, k) && UniqueKey(w, k);
    assert Obeys(w, e, NoManualRetry) && Obeys(w, e, StatusKept) && Obeys(w, e, Answered);
    match e
    case Pop(wk) => AnsweredPop(w, wk, k);
    case Ack(_) => AnsweredClose(w, e, k);
    case Fail(_, _, _, _) => AnsweredClose(w, e, k);
    case Reclaim(wk, _, retryAt) => AnsweredReclaim(w, wk, k, retryAt);
    case Submit(_) => AnsweredRest(w, e, k);
    case Move(_) => AnsweredRest(w, e, k);
    case Lapse(_) => AnsweredRest(w, e, k);
    case _ =>
  }

  lemma {:induction false} AnsweredRun(w: World, es: seq<Event>, rules: set<Rule>)
    requires Legal(w, es, rules) && PROMPT + {Answered} <= rules
    requires UniqueInv(w) && forall k :: AnsweredKey(w, k)
    ensures UniqueInv(After(w, es, rules))
    ensures forall k :: AnsweredKey(After(w, es, rules), k)
    decreases |es|
  {
    if es != [] {
      var e, w' := es[0], Next(w, es[0]);
      assert forall r <- PROMPT + {Answered} :: Obeys(w, e, r);
      UniqueStep(w, e);
      forall k: JobId
        ensures AnsweredKey(w', k)
      {
        assert AnsweredKey(w, k);
        if Touched(w, e) == Some(k) {
          AnsweredTouched(w, e, k);
        } else {
          AnsweredSame(w, e, k);
        }
      }
      AnsweredRun(w', es[1..], rules);
    }
  }

  /** When every delivery is answered within 125 s, no stored job is ever reclaimed and each
      submitted job is dequeued at most once. */
  lemma {:induction false} DeliveredAtMostOnce(t: nat, es: seq<Event>, rules: set<Rule>, k: JobId)
    requires Legal(Start(t), es, rules) && PROMPT + {Answered} <= rules
    ensures After(Start(t), es, rules).reclaims[k] == 0
    ensures After(Start(t), es, rules).pops[k] <= 1
  {
    StartUnique(t);
    AnsweredRun(Start(t), es, rules);
    var w := After(Start(t), es, rules);
    assert UniqueKey(w, k) && AnsweredKey(w, k);
  }

  // ---------------------------------------------------------------------------
  // Why the premises are there
  // ---------------------------------------------------------------------------

  /** A nack that lands after its lease was reclaimed dead-letters a job that is waiting again. */
  lemma {:induction false} LateNackDuplicates(w: World, d: nat, p: int, msg: string, retryAt: int)
    requires d in w.held && Settled(w.held[d].job.status)
    requires Copies(w.q, Ready(p), w.held[d].job.id) > 0
    ensures var q' := NextQueue(w, Fail(d, w.held[d].job.status, msg, retryAt));
            && Copies(q', Ready(p), w.held[d].job.id) > 0 && Copies(q', Dead, w.held[d].job.id) > 0
            && !AtMostOnce(q', w.held[d].job.id)
  {
    NackDeadPlaces(w.q, FailedCopy(w, d, w.held[d].job.status), w.held[d].worker, msg, retryAt);
  }

  /** The bound of 125 s is exact: from that moment on a delivery that still runs can be reclaimed, and
      its answer then leaves the job both waiting and dead-lettered. Validation allows handlers an hour. */
  lemma {:induction false} SlowHandlerDuplicates(w: World, d: nat, k: JobId, msg: string, retryAt: int)
    requires Keyed(w) && Waits(w, d, k) && Settled(w.held[d].job.status) && k in w.q.data
    requires Slot(w.held[d].worker, k) in w.q.inflight
    requires w.q.inflight[Slot(w.held[d].worker, k)] == w.held[d].at + LEASE_MS
    requires 0 <= w.held[d].at <= w.clock - WINDOW_MS
    ensures var reclaim := Reclaim(w.held[d].worker, k, retryAt);
            && Enabled(w, reclaim)
            && var w1 := Next(w, reclaim);
               var fail := Fail(d, w.held[d].job.status, msg, retryAt);
               Enabled(w1, fail) && !AtMostOnce(NextQueue(w1, fail), k)
  {
    var wk := w.held[d].worker;
    ReclaimOnePlaces(w.q, wk, k, retryAt);
    var w1 := Next(w, Reclaim(wk, k, retryAt));
    LateNackDuplicates(w1, d, w.q.data[k].priority, msg, retryAt);
  }
}
