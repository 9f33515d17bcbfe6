/** At most one delivery, with the commands of all clients interleaved: fresh ids, one mover at a time, and
    answers whose commands all land within 125 s of the dequeue. */
module OneDelivery {
  import opened Jobs
  import opened SortedSet
  import opened QueueModel
  import opened Commands
  import opened Interleaving
  import opened Tokens

  /** History: the leases under which a job was handed out with its data, those that got an answer, and
      the dequeues per key. */
  datatype Service = Service(s: State, delivered: set<Slot>, answered: set<Slot>, pops: multiset<JobId>)

  function Begin(t: nat): Service {
    Service(Start(t), {}, {}, multiset{})
  }

  function AnswerSlot(op: Operation): Slot
    requires op.Acking? || op.Nacking?
  {
    if op.Acking? then Slot(op.w, op.id) else Slot(op.w, op.job.id)
  }

  predicate MoverAtWork(s: State) {
    exists i :: i in s.clients && s.clients[i].role.Mover?
  }

  /** Ids are fresh; an answer is one for a job handed out, given once, and a nack dead-letters; one mover
      works at a time; a client stops when its commands are sent; and time does not reach the moment at
      which a lease that still awaits its answer's last command can be reclaimed. */
  predicate Disciplined(h: Service, e: Event) {
    match e
    case Submit(job) => job.id !in h.s.submitted
    case Answer(_, op) =>
      && (op.Acking? || op.Nacking?)
      && AnswerSlot(op) in h.delivered && AnswerSlot(op) !in h.answered
      && (op.Nacking? ==> !IsRetryable(op.job))
    case Scan(_, role) => role.Mover? ==> !MoverAtWork(h.s)
    case Leave(i) => i in h.s.clients ==> h.s.clients[i].rest == []
    case Tick(t) =>
      forall slot <- h.delivered :: slot in h.s.q.inflight ==> t < h.s.q.inflight[slot] + MAX_AGE_MS
    case _ => true
  }

  function NextService(h: Service, e: Event): Service
    requires Enabled(h.s, e)
  {
    var h' := h.(s := Next(h.s, e));
    match e
    case Pop(w) =>
      (match Dequeue(h.s.q, w, LEASE_MS, h.s.clock).1
       case Empty => h'
       case Missing(k) => h'.(pops := h.pops + multiset{k})
       case Got(job) =>
         h'.(pops := h.pops + multiset{job.id}, delivered := h.delivered + {Slot(w, job.id)}))
    case Answer(_, op) => h'.(answered := h.answered + {AnswerSlot(op)})
    case _ => h'
  }

  /** `h'` is where the events lead, each of them enabled and disciplined when it happens. */
  ghost predicate Serves(h: Service, es: seq<Event>, h': Service)
    decreases |es|
  {
    if es == [] then h == h'
    else Enabled(h.s, es[0]) && Disciplined(h, es[0]) && Serves(NextService(h, es[0]), es[1..], h')
  }

  // ---------------------------------------------------------------------------
  // The invariant
  // ---------------------------------------------------------------------------

  ghost predicate ReadyComing(s: State, k: JobId) {
    exists i :: i in s.clients && exists x <- s.clients[i].rest :: x.PushReady? && x.k == k
  }

  /** `k` is still to be dequeued. */
  ghost predicate Awaits(s: State, k: JobId) {
    (exists p :: Copies(s.q, Ready(p), k) > 0) || Live(s, Delayed, k) > 0 || ReadyComing(s, k)
  }

  ghost predicate HandedOut(h: Service, k: JobId) {
    exists slot <- h.delivered :: slot.key == k
  }

  /** Dequeued without data, which nobody can bring back. */
  ghost predicate Gone(h: Service, k: JobId) {
    k in h.s.submitted && k !in h.s.q.data && h.pops[k] > 0 && NoneComing(h.s, k) && !HandedOut(h, k)
  }

  ghost predicate DeliveryOk(h: Service, k: JobId) {
    && (k !in h.s.submitted ==> NoTokens(h.s, k) && h.pops[k] == 0)
    && h.pops[k] <= 1 && (Awaits(h.s, k) ==> h.pops[k] == 0)
    && (HandedOut(h, k) ==> h.pops[k] > 0)
    && (forall w, w' :: Slot(w, k) in h.delivered && Slot(w', k) in h.delivered ==> w == w')
    && (forall w :: Slot(w, k) in h.s.q.inflight && Slot(w, k) !in h.delivered ==> Gone(h, k))
    && (forall w :: Slot(w, k) in h.delivered && Slot(w, k) !in h.answered ==> NoneBut(h.s, k, InFlight(w)))
  }

  ghost predicate OnTime(h: Service) {
    forall slot <- h.delivered :: slot in h.s.q.inflight ==> h.s.clock < h.s.q.inflight[slot] + MAX_AGE_MS
  }

  ghost predicate ReclaimersIdle(h: Service) {
    forall i :: i in h.s.clients && h.s.clients[i].role.Reclaimer? ==> forall k <- h.s.clients[i].todo :: Gone(h, k)
  }

  ghost predicate MoverOk(s: State, i: nat)
    requires i in s.clients
  {
    var c := s.clients[i];
    && (c.role.Mover? ==> forall j :: j in s.clients && s.clients[j].role.Mover? ==> j == i)
    && (c.role.Mover? ==> forall k <- c.todo :: Live(s, Delayed, k) > 0)
    && (c.role.Mover? ==> forall x, y :: 0 <= x < y < |c.todo| ==> c.todo[x] != c.todo[y])
    && (!c.role.Mover? ==> forall x <- c.rest :: !x.Undelay?)
  }

  ghost predicate Inv(h: Service) {
    && Orderly(h.s) && AllSingle(h.s) && OnTime(h) && ReclaimersIdle(h)
    && (forall i :: i in h.s.clients ==> MoverOk(h.s, i))
    && (forall k :: DeliveryOk(h, k))
  }

  // ---------------------------------------------------------------------------
  // Disciplined events keep to one token
  // ---------------------------------------------------------------------------

  lemma {:induction false} OnlyToken(s: State, k: JobId, at: Place)
    requires AtMostOne(s, k) && Live(s, at, k) > 0
    ensures NoneBut(s, k, at)
  {
    forall i | i in s.clients
      ensures Coming(s.clients[i].rest, k) == 0
    {
      assert Coming(s.clients[i].rest, k) > 0 ==> Live(s, at, k) == 0;
    }
  }

  lemma {:induction false} NothingRevivedAt(s: State, i: nat, pl: Place, k: JobId)
    requires i in s.clients && s.clients[i].rest == []
    ensures !Revives(s, i, pl, k)
  {
    if Doomed(s, pl, k) {
      var n :| n in s.clients && Ends(s.clients[n].rest, pl, k);
      assert n in Without(s, i).clients && Ends(Without(s, i).clients[n].rest, pl, k);
    }
  }

  lemma {:induction false} DisciplinedIsSingle(h: Service, e: Event)
    requires Inv(h) && Enabled(h.s, e) && Disciplined(h, e)
    ensures Single(h.s, e)
  {
    match e
    case Submit(job) => assert DeliveryOk(h, job.id);
    case Answer(_, op) => assert DeliveryOk(h, AnswerSlot(op).key);
    case Read(i) =>
      var c := h.s.clients[i];
      if c.todo != [] && c.todo[0] in h.s.q.data {
        var k := c.todo[0];
        assert k in c.todo && MoverOk(h.s, i) && AtMostOne(h.s, k);
        assert c.role.Reclaimer? ==> Gone(h, k);
        OnlyToken(h.s, k, Delayed);
      }
    case Leave(i) =>
      forall k: JobId
        ensures StopsClean(h.s, i, k)
      {
        forall pl
          ensures !Revives(h.s, i, pl, k)
        {
          NothingRevivedAt(h.s, i, pl, k);
        }
      }
    case _ =>
  }

  // ---------------------------------------------------------------------------
  // Events that do not hand `k` on
  // ---------------------------------------------------------------------------

  /** `k` has no more tokens than before and comes no closer to a delivery. */
  ghost predicate Calm(h: Service, h': Service, k: JobId) {
    && (forall pl :: Live(h'.s, pl, k) <= Live(h.s, pl, k))
    && (NoneComing(h.s, k) ==> NoneComing(h'.s, k))
    && (Awaits(h'.s, k) ==> Awaits(h.s, k))
    && (k in h'.s.q.data ==> k in h.s.q.data || !NoneComing(h.s, k))
    && h'.pops[k] == h.pops[k] && (k in h'.s.submitted <==> k in h.s.submitted)
    && (forall w :: Slot(w, k) in h'.delivered <==> Slot(w, k) in h.delivered)
    && (forall w :: Slot(w, k) in h.answered ==> Slot(w, k) in h'.answered)
    && (forall w :: Slot(w, k) in h'.s.q.inflight ==> Slot(w, k) in h.s.q.inflight)
  }

  lemma {:induction false} CalmHanded(h: Service, h': Service, k: JobId)
    requires Calm(h, h', k)
    ensures HandedOut(h', k) <==> HandedOut(h, k)
  {
    if slot :| slot in h'.delivered && slot.key == k {
      assert Slot(slot.worker, k) in h.delivered;
    }
    if slot :| slot in h.delivered && slot.key == k {
      assert Slot(slot.worker, k) in h'.delivered;
    }
  }

  lemma {:induction false} CalmGone(h: Service, h': Service, k: JobId)
    requires Calm(h, h', k) && Gone(h, k)
    ensures Gone(h', k)
  {
    CalmHanded(h, h', k);
  }

  lemma {:induction false} CalmKeeps(h: Service, h': Service, k: JobId)
    requires Calm(h, h', k) && DeliveryOk(h, k)
    ensures DeliveryOk(h', k)
  {
    CalmHanded(h, h', k);
    if Gone(h, k) {
      CalmGone(h, h', k);
    }
    forall w | Slot(w, k) in h'.delivered && Slot(w, k) !in h'.answered
      ensures NoneBut(h'.s, k, InFlight(w))
    {
      assert NoneBut(h.s, k, InFlight(w));
    }
  }

  /** A script on another key, expiry or time. */
  lemma {:induction false} CalmScript(h: Service, h': Service, k: JobId)
    requires h'.s.clients == h.s.clients && (SameKey(h.s.q, h'.s.q, k) || h'.s.q == Expire(h.s.q, k))
    requires h'.pops[k] == h.pops[k] && (k in h'.s.submitted <==> k in h.s.submitted)
    requires (forall w :: Slot(w, k) in h'.delivered <==> Slot(w, k) in h.delivered) && h'.answered == h.answered
    ensures Calm(h, h', k)
  {
    SameClients(h.s, h'.s, k);
    assert forall pl :: Copies(h'.s.q, pl, k) == Copies(h.s.q, pl, k);
    assert forall pl :: Live(h'.s, pl, k) == Live(h.s, pl, k);
    assert forall w :: Slot(w, k) in h'.s.q.inflight ==> Copies(h'.s.q, InFlight(w), k) == 1;
  }

  lemma {:induction false} SendComing(s: State, i: nat, k: JobId, s': State)
    requires Enabled(s, Send(i)) && s' == Next(s, Send(i))
    ensures NoneComing(s, k) ==> NoneComing(s', k)
    ensures ReadyComing(s', k) ==> ReadyComing(s, k)
  {
    var cs := s.clients[i].rest;
    assert Coming(cs, k) >= Coming(cs[1..], k);
    if ReadyComing(s', k) {
      var n :| n in s'.clients && exists x <- s'.clients[n].rest :: x.PushReady? && x.k == k;
      var x :| x in s'.clients[n].rest && x.PushReady? && x.k == k;
      assert x in s.clients[n].rest;
    }
  }

  lemma {:induction false} SendData(s: State, i: nat, k: JobId, s': State)
    requires Enabled(s, Send(i)) && Orderly(s) && s' == Next(s, Send(i))
    ensures k in s'.q.data ==> k in s.q.data || !NoneComing(s, k)
  {
    var cs := s.clients[i].rest;
    if cs[0].Set? && cs[0].job.id == k {
      assert InOrder(s.clients[i]) && Pushes(cs[1], k);
      ComingIff(cs, k);
    }
  }

  lemma {:induction false} CalmSend(h: Service, i: nat, k: JobId, h': Service)
    requires Enabled(h.s, Send(i)) && Orderly(h.s) && h' == NextService(h, Send(i)) && !Pushes(h.s.clients[i].rest[0], k)
    ensures Calm(h, h', k)
  {
    forall pl
      ensures Live(h'.s, pl, k) <= Live(h.s, pl, k) && Copies(h'.s.q, pl, k) <= Copies(h.s.q, pl, k)
    {
      SendLive(h.s, i, pl, k, h'.s);
    }
    SendComing(h.s, i, k, h'.s);
    SendData(h.s, i, k, h'.s);
    CalmShrink(h, h', k);
  }

  lemma {:induction false} CalmShrink(h: Service, h': Service, k: JobId)
    requires forall pl :: Live(h'.s, pl, k) <= Live(h.s, pl, k) && Copies(h'.s.q, pl, k) <= Copies(h.s.q, pl, k)
    requires NoneComing(h.s, k) ==> NoneComing(h'.s, k)
    requires ReadyComing(h'.s, k) ==> ReadyComing(h.s, k)
    requires k in h'.s.q.data ==> k in h.s.q.data || !NoneComing(h.s, k)
    requires h'.pops == h.pops && h'.delivered == h.delivered && h'.answered == h.answered
    requires h'.s.submitted == h.s.submitted
    ensures Calm(h, h', k)
  {
    forall w | Slot(w, k) in h'.s.q.inflight
      ensures Slot(w, k) in h.s.q.inflight
    {
      assert Copies(h'.s.q, InFlight(w), k) == 1;
    }
    if p :| Copies(h'.s.q, Ready(p), k) > 0 {
      assert Copies(h.s.q, Ready(p), k) > 0;
    }
  }

  lemma {:induction false} CalmGain(h: Service, h': Service, i: nat, more: seq<Command>, k: JobId)
    requires Gains(h.s, h'.s, i, more) && Coming(more, k) == 0
    requires h'.pops == h.pops && h'.s.submitted == h.s.submitted && h'.delivered == h.delivered && h.answered <= h'.answered
    ensures Calm(h, h', k)
  {
    var s, s' := h.s, h'.s;
    ComingAppend(RestOf(s, i), more, k);
    ComingIff(more, k);
    forall pl
      ensures Live(s', pl, k) <= Live(s, pl, k)
    {
      GainDoomed(s, s', i, more, pl, k);
    }
    if ReadyComing(s', k) {
      var n :| n in s'.clients && exists x <- s'.clients[n].rest :: x.PushReady? && x.k == k;
      var x :| x in s'.clients[n].rest && x.PushReady? && x.k == k;
      assert Pushes(x, k) && x !in more;
      assert x in RestOf(s, n);
    }
  }

  lemma {:induction false} CalmLeave(h: Service, i: nat, k: JobId, h': Service)
    requires Enabled(h.s, Leave(i)) && h.s.clients[i].rest == [] && h' == NextService(h, Leave(i))
    ensures Calm(h, h', k)
  {
    var s, s' := h.s, h'.s;
    assert s' == Without(s, i);
    forall pl
      ensures Live(s', pl, k) == Live(s, pl, k)
    {
      LeaveLive(s, i, pl, k);
      NothingRevivedAt(s, i, pl, k);
    }
    if ReadyComing(s', k) {
      var n :| n in s'.clients && exists x <- s'.clients[n].rest :: x.PushReady? && x.k == k;
      assert n in s.clients;
    }
  }

  // ---------------------------------------------------------------------------
  // Events that hand `k` on
  // ---------------------------------------------------------------------------

  /** A key that is still to be dequeued has not been handed out and holds no lease. */
  lemma {:induction false} AwaitsIsNew(h: Service, k: JobId)
    requires DeliveryOk(h, k) && h.pops[k] == 0
    ensures (forall w :: Slot(w, k) !in h.delivered) && (forall w :: Slot(w, k) !in h.s.q.inflight) && !Gone(h, k)
  {
    forall w
      ensures Slot(w, k) !in h.delivered
    {
      assert Slot(w, k) in h.delivered ==> HandedOut(h, k);
    }
  }

  lemma {:induction false} SubmitOk(h: Service, job: Job, h': Service)
    requires Enabled(h.s, Submit(job)) && job.id !in h.s.submitted && h' == NextService(h, Submit(job))
    requires DeliveryOk(h, job.id)
    ensures DeliveryOk(h', job.id) && !Gone(h, job.id)
  {
    AwaitsIsNew(h, job.id);
    assert !HandedOut(h', job.id);
  }

  lemma {:induction false} NoPushes(s: State, k: JobId)
    requires NoneComing(s, k)
    ensures !ReadyComing(s, k)
  {
    forall i, x | i in s.clients && x in s.clients[i].rest
      ensures !(x.PushReady? && x.k == k)
    {
      ComingIff(s.clients[i].rest, k);
    }
  }

  /** What a dequeue of `k` leaves: the lease and nothing else. */
  lemma {:induction false} PopLeaves(s: State, w: WorkerId, k: JobId, s': State)
    requires NextKey(s.q) == Some(k) && AtMostOne(s, k) && s' == Next(s, Pop(w))
    ensures NoneBut(s', k, InFlight(w)) && !Awaits(s', k) && Awaits(s, k) && !NoTokens(s, k)
    ensures forall w' :: Slot(w', k) in s'.q.inflight ==> w' == w || Slot(w', k) in s.q.inflight
  {
    var p := FirstReady(s.q, 0);
    LeasePlaces(s.q, p, w, s.clock + LEASE_MS);
    ListsStay(s, Ready(p), k);
    OnlyToken(s, k, Ready(p));
    SameClients(s, s', k);
    forall pl | pl != InFlight(w)
      ensures Live(s', pl, k) == 0
    {
      assert pl != Ready(p) ==> Live(s, pl, k) == 0;
      ListsStay(s', Ready(p), k);
    }
    NoPushes(s', k);
    forall p'
      ensures Copies(s'.q, Ready(p'), k) == 0
    {
      ListsStay(s', Ready(p'), k);
    }
  }

  lemma {:induction false} PopOk(h: Service, w: WorkerId, k: JobId, h': Service)
    requires DataKeyed(h.s.q) && NextKey(h.s.q) == Some(k) && h' == NextService(h, Pop(w))
    requires AtMostOne(h.s, k) && DeliveryOk(h, k)
    ensures DeliveryOk(h', k) && !Gone(h, k)
  {
    PopLeaves(h.s, w, k, h'.s);
    AwaitsIsNew(h, k);
    assert k in h.s.submitted;
    if k in h.s.q.data {
      assert Slot(w, k) in h'.delivered;
    } else {
      assert !HandedOut(h', k);
      assert Gone(h', k);
    }
  }

  lemma {:induction false} AnswerOk(h: Service, i: nat, op: Operation, k: JobId, h': Service)
    requires Enabled(h.s, Answer(i, op)) && Disciplined(h, Answer(i, op)) && h' == NextService(h, Answer(i, op))
    requires k == AnswerSlot(op).key && DeliveryOk(h, k)
    ensures DeliveryOk(h', k) && !Gone(h, k)
  {
    var s, s', more, slot := h.s, h'.s, CommandsOf(h.s.q, op), AnswerSlot(op);
    assert slot == Slot(slot.worker, k) && HandedOut(h, k) && HandedOut(h', k);
    assert [] + more == more;
    forall pl
      ensures Live(s', pl, k) <= Live(s, pl, k)
    {
      GainDoomed(s, s', i, more, pl, k);
    }
    assert forall x <- more :: !x.PushReady?;
    assert ReadyComing(s', k) ==> ReadyComing(s, k);
  }

  lemma {:induction false} ReadOk(h: Service, i: nat, k: JobId, h': Service)
    requires Enabled(h.s, Read(i)) && h' == NextService(h, Read(i)) && DeliveryOk(h, k) && Live(h.s, Delayed, k) > 0
    ensures DeliveryOk(h', k) && !Gone(h, k)
  {
    assert Awaits(h.s, k);
    AwaitsIsNew(h, k);
    assert k in h.s.submitted && !HandedOut(h', k);
  }

  lemma {:induction false} PushOk(h: Service, i: nat, k: JobId, h': Service)
    requires Enabled(h.s, Send(i)) && h' == NextService(h, Send(i)) && AtMostOne(h.s, k) && DeliveryOk(h, k)
    requires Pushes(h.s.clients[i].rest[0], k)
    ensures DeliveryOk(h', k) && !Gone(h, k)
  {
    var s, s', x := h.s, h'.s, h.s.clients[i].rest[0];
    ComingIff(s.clients[i].rest, k);
    assert !NoneComing(s, k) && k in s.submitted;
    assert forall w :: Slot(w, k) in h.delivered ==> Slot(w, k) in h.answered;
    assert h.delivered == h'.delivered && h.answered == h'.answered;
    assert s'.q.inflight == s.q.inflight;
    if x.PushReady? {
      assert ReadyComing(s, k);
      AwaitsIsNew(h, k);
      assert !HandedOut(h', k);
    } else {
      DeadPush(s, i, k, s');
      assert HandedOut(h', k) ==> HandedOut(h, k);
    }
  }

  lemma {:induction false} DeadPush(s: State, i: nat, k: JobId, s': State)
    requires Enabled(s, Send(i)) && s' == Next(s, Send(i)) && AtMostOne(s, k)
    requires s.clients[i].rest[0] == PushDead(k)
    ensures Awaits(s', k) ==> Awaits(s, k)
  {
    SendComing(s, i, k, s');
    SendDoomed(s, i, Delayed, k, s');
    assert s'.q.ready == s.q.ready && s'.q.delayed == s.q.delayed;
    if p :| Copies(s'.q, Ready(p), k) > 0 {
      assert Copies(s.q, Ready(p), k) > 0;
    }
  }

  // ---------------------------------------------------------------------------
  // Every key under every event
  // ---------------------------------------------------------------------------

  lemma {:induction false} AnswerKeys(h: Service, i: nat, op: Operation, k: JobId, h': Service)
    requires Enabled(h.s, Answer(i, op)) && Disciplined(h, Answer(i, op)) && h' == NextService(h, Answer(i, op))
    requires Orderly(h.s) && DeliveryOk(h, k)
    ensures DeliveryOk(h', k) && (Gone(h, k) ==> Gone(h', k))
  {
    if k == AnswerSlot(op).key {
      AnswerOk(h, i, op, k, h');
    } else {
      var more := CommandsOf(h.s.q, op);
      assert [] + more == more;
      OperationTransfers(h.s.q, op, k);
      CalmGain(h, h', i, more, k);
      CalmEither(h, h', k);
    }
  }

  lemma {:induction false} CalmEither(h: Service, h': Service, k: JobId)
    requires Calm(h, h', k) && DeliveryOk(h, k)
    ensures DeliveryOk(h', k) && (Gone(h, k) ==> Gone(h', k))
  {
    CalmKeeps(h, h', k);
    if Gone(h, k) {
      CalmGone(h, h', k);
    }
  }

  lemma {:induction false} ReadKeys(h: Service, i: nat, k: JobId, h': Service)
    requires Enabled(h.s, Read(i)) && h' == NextService(h, Read(i)) && Orderly(h.s) && DeliveryOk(h, k)
    requires ReclaimersIdle(h) && MoverOk(h.s, i)
    ensures DeliveryOk(h', k) && (Gone(h, k) ==> Gone(h', k))
  {
    var c := h.s.clients[i];
    if c.todo != [] {
      var key, op := c.todo[0], OperationOn(h.s, c.role, c.todo[0]);
      assert key in c.todo;
      OperationTransfers(h.s.q, op, k);
      if k == key && k in h.s.q.data {
        assert c.role.Reclaimer? ==> Gone(h, k);
        ReadOk(h, i, k, h');
      } else {
        CalmGain(h, h', i, CommandsOf(h.s.q, op), k);
        CalmEither(h, h', k);
      }
    } else {
      var more := if NoLeases(h.s.q, c.role.w) then [DropLeases(c.role.w)] else [];
      assert c.rest + [] == c.rest;
      ShortComing(more, k);
      CalmGain(h, h', i, more, k);
      CalmEither(h, h', k);
    }
  }

  lemma {:induction false} ScriptKeys(h: Service, e: Event, k: JobId, h': Service)
    requires e.Submit? || e.Pop? || e.Lapse? || e.Tick?
    requires DataKeyed(h.s.q) && Enabled(h.s, e) && Disciplined(h, e) && h' == NextService(h, e)
    requires AtMostOne(h.s, k) && DeliveryOk(h, k)
    ensures DeliveryOk(h', k) && (Gone(h, k) ==> Gone(h', k))
  {
    if e.Submit? && e.job.id == k {
      SubmitOk(h, e.job, h');
    } else if e.Pop? && NextKey(h.s.q) == Some(k) {
      PopOk(h, e.w, k, h');
    } else {
      ScriptOthers(h, e, k, h');
      CalmScript(h, h', k);
      CalmEither(h, h', k);
    }
  }

  lemma {:induction false} PopOthers(h: Service, w: WorkerId, k: JobId, h': Service)
    requires DataKeyed(h.s.q) && NextKey(h.s.q) != Some(k) && h' == NextService(h, Pop(w))
    ensures SameKey(h.s.q, h'.s.q, k)
    ensures h'.pops[k] == h.pops[k] && forall w' :: Slot(w', k) in h'.delivered <==> Slot(w', k) in h.delivered
  {
    var p := FirstReady(h.s.q, 0);
    if p != 10 {
      LeaseOthers(h.s.q, p, w, h.s.clock + LEASE_MS, k);
    }
  }

  lemma {:induction false} ScriptOthers(h: Service, e: Event, k: JobId, h': Service)
    requires e.Submit? || e.Pop? || e.Lapse? || e.Tick?
    requires DataKeyed(h.s.q) && Enabled(h.s, e) && h' == NextService(h, e)
    requires (e.Submit? ==> e.job.id != k) && (e.Pop? ==> NextKey(h.s.q) != Some(k))
    ensures SameKey(h.s.q, h'.s.q, k) || h'.s.q == Expire(h.s.q, k)
    ensures h'.pops[k] == h.pops[k] && forall w :: Slot(w, k) in h'.delivered <==> Slot(w, k) in h.delivered
  {
    match e
    case Submit(job) => EnqueueOthers(h.s.q, job, h.s.clock, k);
    case Pop(w) => PopOthers(h, w, k, h');
    case Lapse(j) =>
      if j != k {
        ExpireOthers(h.s.q, j, k);
      }
    case _ =>
  }

  lemma {:induction false} KeyStep(h: Service, e: Event, k: JobId, h': Service)
    requires Inv(h) && Enabled(h.s, e) && Disciplined(h, e) && h' == NextService(h, e)
    ensures DeliveryOk(h', k) && (Gone(h, k) ==> Gone(h', k))
  {
    assert DeliveryOk(h, k) && AtMostOne(h.s, k);
    match e
    case Answer(i, op) => AnswerKeys(h, i, op, k, h');
    case Read(i) => ReadKeys(h, i, k, h');
    case Scan(i, role) =>
      var none: seq<Command> := [];
      assert none + none == none;
      CalmGain(h, h', i, none, k);
      CalmEither(h, h', k);
    case Send(i) =>
      if Pushes(h.s.clients[i].rest[0], k) {
        PushOk(h, i, k, h');
      } else {
        CalmSend(h, i, k, h');
        CalmEither(h, h', k);
      }
    case Leave(i) =>
      CalmLeave(h, i, k, h');
      CalmEither(h, h', k);
    case _ => ScriptKeys(h, e, k, h');
  }

  // ---------------------------------------------------------------------------
  // Leases, reclaimers and the mover
  // ---------------------------------------------------------------------------

  lemma {:induction false} OnTimeStep(h: Service, e: Event, h': Service)
    requires DataKeyed(h.s.q) && OnTime(h) && Enabled(h.s, e) && Disciplined(h, e) && h' == NextService(h, e)
    ensures OnTime(h')
  {
    forall slot <- h'.delivered | slot in h'.s.q.inflight
      ensures h'.s.clock < h'.s.q.inflight[slot] + MAX_AGE_MS
    {
      assert slot in h.delivered || (e.Pop? && h'.s.q.inflight[slot] == h.s.clock + LEASE_MS);
      assert slot in h.s.q.inflight || e.Pop?;
    }
  }

  /** What a reclaimer lists has been waiting for it since a dequeue without data. */
  lemma {:induction false} ListedGone(h: Service, w: WorkerId, k: JobId)
    requires OnTime(h) && DeliveryOk(h, k) && k in ExpiredKeys(h.s.q, w, MAX_AGE_MS, h.s.clock)
    ensures Gone(h, k)
  {
    var z := InFlightOf(h.s.q, w);
    RangeListing(z, 0, h.s.clock - MAX_AGE_MS);
    assert k in z && z[k] <= h.s.clock - MAX_AGE_MS;
    assert Slot(w, k) in h.s.q.inflight && h.s.q.inflight[Slot(w, k)] == z[k];
  }

  lemma {:induction false} ReclaimersStep(h: Service, e: Event, h': Service)
    requires Inv(h) && Enabled(h.s, e) && Disciplined(h, e) && h' == NextService(h, e)
    requires forall k :: Gone(h, k) ==> Gone(h', k)
    ensures ReclaimersIdle(h')
  {
    forall i, k | i in h'.s.clients && h'.s.clients[i].role.Reclaimer? && k in h'.s.clients[i].todo
      ensures Gone(h', k)
    {
      if e.Scan? && i == e.i {
        assert DeliveryOk(h, k);
        ListedGone(h, e.role.w, k);
      } else {
        assert i in h.s.clients && h.s.clients[i].role.Reclaimer? && k in h.s.clients[i].todo;
      }
    }
  }

  lemma {:induction false} NoUndelayNoEnd(cs: seq<Command>, k: JobId)
    requires forall x <- cs :: !x.Undelay? || x.k != k
    ensures !Ends(cs, Delayed, k)
  {
  }

  lemma {:induction false} GainKeepsDelayed(s: State, s': State, i: nat, more: seq<Command>, k: JobId)
    requires Gains(s, s', i, more) && Live(s, Delayed, k) > 0 && forall x <- more :: !x.Undelay? || x.k != k
    ensures Live(s', Delayed, k) > 0
  {
    NoUndelayNoEnd(more, k);
    GainDoomed(s, s', i, more, Delayed, k);
  }

  lemma {:induction false} SendKeepsDelayed(s: State, i: nat, k: JobId, s': State)
    requires Enabled(s, Send(i)) && s' == Next(s, Send(i)) && Live(s, Delayed, k) > 0
    requires forall x <- s.clients[i].rest :: !x.Undelay?
    ensures Live(s', Delayed, k) > 0
  {
    assert s.clients[i].rest[0] in s.clients[i].rest;
    SendDoomed(s, i, Delayed, k, s');
    assert s'.q.delayed == s.q.delayed;
  }

  lemma {:induction false} ScriptKeepsDelayed(s: State, e: Event, k: JobId, s': State)
    requires e.Submit? || e.Pop? || e.Lapse? || e.Tick?
    requires Enabled(s, e) && s' == Next(s, e) && Live(s, Delayed, k) > 0
    ensures Live(s', Delayed, k) > 0
  {
    SameClients(s, s', k);
    assert k in s'.q.delayed;
  }

  lemma {:induction false} LeaveKeepsDelayed(s: State, i: nat, k: JobId, s': State)
    requires Enabled(s, Leave(i)) && s' == Next(s, Leave(i)) && Live(s, Delayed, k) > 0
    ensures Live(s', Delayed, k) > 0
  {
    LeaveLive(s, i, Delayed, k);
    assert s' == Without(s, i);
  }

  /** The keys a mover has still to read stay in the delayed set, with nobody else to take them. */
  lemma {:induction false} TodoStays(s: State, e: Event, i: nat, k: JobId, s': State)
    requires Enabled(s, e) && s' == Next(s, e) && (forall n :: n in s.clients ==> MoverOk(s, n))
    requires i in s.clients && s.clients[i].role.Mover? && k in s.clients[i].todo
    requires i in s'.clients && s'.clients[i].role.Mover? && k in s'.clients[i].todo
    ensures Live(s', Delayed, k) > 0
  {
    assert MoverOk(s, i) && Live(s, Delayed, k) > 0;
    match e
    case Answer(n, op) =>
      OperationPaired(s.q, op);
      assert [] + CommandsOf(s.q, op) == CommandsOf(s.q, op);
      GainKeepsDelayed(s, s', n, CommandsOf(s.q, op), k);
    case Scan(n, _) =>
      var none: seq<Command> := [];
      assert none + none == none;
      GainKeepsDelayed(s, s', n, none, k);
    case Read(n) => ReadKeepsDelayed(s, n, i, k, s');
    case Send(n) =>
      assert MoverOk(s, n);
      SendKeepsDelayed(s, n, k, s');
    case Leave(n) => LeaveKeepsDelayed(s, n, k, s');
    case _ => ScriptKeepsDelayed(s, e, k, s');
  }

  lemma {:induction false} ReadKeepsDelayed(s: State, n: nat, i: nat, k: JobId, s': State)
    requires Enabled(s, Read(n)) && s' == Next(s, Read(n)) && MoverOk(s, n) && Live(s, Delayed, k) > 0
    requires i in s.clients && s.clients[i].role.Mover? && k in s.clients[i].todo && k in s'.clients[i].todo
    requires MoverOk(s, i)
    ensures Live(s', Delayed, k) > 0
  {
    var c := s.clients[n];
    if c.todo != [] {
      var op := OperationOn(s, c.role, c.todo[0]);
      OperationPaired(s.q, op);
      assert c.role.Mover? ==> n == i;
      assert n == i ==> k in c.todo[1..] && k != c.todo[0];
      GainKeepsDelayed(s, s', n, CommandsOf(s.q, op), k);
    } else {
      var more := if NoLeases(s.q, c.role.w) then [DropLeases(c.role.w)] else [];
      assert c.rest + [] == c.rest;
      GainKeepsDelayed(s, s', n, more, k);
    }
  }

  /** What a new mover lists. */
  lemma {:induction false} ListedDue(s: State, batch: int)
    requires !MoverAtWork(s) && forall n :: n in s.clients ==> MoverOk(s, n)
    ensures var ks := DueKeys(s.q, batch, s.clock);
            && (forall k <- ks :: Live(s, Delayed, k) > 0)
            && forall x, y :: 0 <= x < y < |ks| ==> ks[x] != ks[y]
  {
    RangeListing(s.q.delayed, 0, s.clock);
    forall k <- DueKeys(s.q, batch, s.clock)
      ensures Live(s, Delayed, k) > 0
    {
      forall n | n in s.clients
        ensures !Ends(s.clients[n].rest, Delayed, k)
      {
        assert MoverOk(s, n);
        NoUndelayNoEnd(s.clients[n].rest, k);
      }
    }
  }

  lemma {:induction false} RoleStep(s: State, e: Event, i: nat, s': State)
    requires Enabled(s, e) && s' == Next(s, e) && i in s'.clients
    ensures s'.clients[i].role.Mover? ==> (i in s.clients && s.clients[i].role.Mover?) || (e.Scan? && e.i == i)
    ensures i in s.clients && s.clients[i].role.Mover? ==> s'.clients[i].role.Mover?
  {
  }

  lemma {:induction false} RestStep(s: State, e: Event, i: nat, s': State)
    requires Enabled(s, e) && s' == Next(s, e) && i in s'.clients && !s'.clients[i].role.Mover?
    requires i in s.clients ==> MoverOk(s, i)
    ensures forall x <- s'.clients[i].rest :: !x.Undelay?
  {
    RoleStep(s, e, i, s');
    match e
    case Answer(_, op) => OperationPaired(s.q, op);
    case Read(n) =>
      var c := s.clients[n];
      if c.todo != [] {
        OperationPaired(s.q, OperationOn(s, c.role, c.todo[0]));
      }
    case _ =>
  }

  lemma {:induction false} MoverStep(h: Service, e: Event, i: nat, h': Service)
    requires Enabled(h.s, e) && Disciplined(h, e) && h' == NextService(h, e) && i in h'.s.clients
    requires forall n :: n in h.s.clients ==> MoverOk(h.s, n)
    ensures MoverOk(h'.s, i)
  {
    var s, s' := h.s, h'.s;
    RoleStep(s, e, i, s');
    if s'.clients[i].role.Mover? {
      forall j | j in s'.clients && s'.clients[j].role.Mover?
        ensures j == i
      {
        RoleStep(s, e, j, s');
        assert i in s.clients && s.clients[i].role.Mover? ==> MoverOk(s, i);
      }
      if e.Scan? && e.i == i {
        var role := e.role;
        ListedDue(s, role.batch);
        NewTodo(s, e, i, s');
      } else {
        OldTodo(s, e, i, s');
      }
    } else {
      RestStep(s, e, i, s');
    }
  }

  lemma {:induction false} NewTodo(s: State, e: Event, i: nat, s': State)
    requires Enabled(s, e) && s' == Next(s, e) && e.Scan? && e.i == i && e.role.Mover?
    requires forall k <- DueKeys(s.q, e.role.batch, s.clock) :: Live(s, Delayed, k) > 0
    ensures forall k <- s'.clients[i].todo :: Live(s', Delayed, k) > 0
  {
    var none: seq<Command> := [];
    assert none + none == none;
    forall k <- s'.clients[i].todo
      ensures Live(s', Delayed, k) > 0
    {
      GainKeepsDelayed(s, s', i, none, k);
    }
  }

  lemma {:induction false} OldTodo(s: State, e: Event, i: nat, s': State)
    requires Enabled(s, e) && s' == Next(s, e) && i in s.clients && s.clients[i].role.Mover?
    requires i in s'.clients && s'.clients[i].role.Mover? && !(e.Scan? && e.i == i)
    requires forall n :: n in s.clients ==> MoverOk(s, n)
    ensures forall k <- s'.clients[i].todo :: Live(s', Delayed, k) > 0
    ensures forall x, y :: 0 <= x < y < |s'.clients[i].todo| ==> s'.clients[i].todo[x] != s'.clients[i].todo[y]
  {
    assert MoverOk(s, i);
    var ks, ks' := s.clients[i].todo, s'.clients[i].todo;
    assert ks' == ks || (e == Read(i) && ks != [] && ks' == ks[1..]);
    forall k <- ks'
      ensures Live(s', Delayed, k) > 0
    {
      TodoStays(s, e, i, k, s');
    }
  }

  // ---------------------------------------------------------------------------
  // The result
  // ---------------------------------------------------------------------------

  lemma {:induction false} InvStep(h: Service, e: Event)
    requires Inv(h) && Enabled(h.s, e) && Disciplined(h, e)
    ensures Inv(NextService(h, e))
  {
    var h' := NextService(h, e);
    OrderlyStep(h.s, e);
    DisciplinedIsSingle(h, e);
    TokenStep(h.s, e);
    OnTimeStep(h, e, h');
    forall k: JobId
      ensures DeliveryOk(h', k) && (Gone(h, k) ==> Gone(h', k))
    {
      KeyStep(h, e, k, h');
    }
    ReclaimersStep(h, e, h');
    forall i | i in h'.s.clients
      ensures MoverOk(h'.s, i)
    {
      MoverStep(h, e, i, h');
    }
  }

  lemma {:induction false} InvRun(h: Service, es: seq<Event>, h': Service)
    requires Inv(h) && Serves(h, es, h')
    ensures Inv(h')
    decreases |es|
  {
    if es != [] {
      InvStep(h, es[0]);
      InvRun(NextService(h, es[0]), es[1..], h');
    }
  }

  /** At most one delivery under any interleaving of commands: from the empty store, with any number of
      submitters, workers and reclaimers, data that expires at any time and one mover at a time, no job is
      dequeued twice if every answer is given once and all its commands land within 125 s of the dequeue;
      and whenever all commands have landed, no key is in two places. */
  lemma {:induction false} DeliveredOnceInterleaved(t: nat, es: seq<Event>, h: Service, k: JobId)
    requires Serves(Begin(t), es, h)
    ensures h.pops[k] <= 1
    ensures (forall i <- h.s.clients :: h.s.clients[i].rest == []) ==> AtMostOnce(h.s.q, k)
  {
    InvRun(Begin(t), es, h);
    assert DeliveryOk(h, k) && AtMostOne(h.s, k);
    if forall i <- h.s.clients :: h.s.clients[i].rest == [] {
      assert forall pl :: !Doomed(h.s, pl, k) && Live(h.s, pl, k) == Copies(h.s.q, pl, k);
    }
  }
}
