/** The queue with the commands of all its clients between one another: reclaimers, movers and answering
    workers each read first and then send their commands one by one. */
module Interleaving {
  import opened Jobs
  import opened SortedSet
  import opened QueueModel
  import opened Commands

  /** `Plain` has nothing more to read; a reclaimer works through one worker's in-flight set. */
  datatype Role = Plain | Reclaimer(w: WorkerId) | Mover(batch: int)

  /** `todo` was listed and not yet read, `rest` are the commands not yet sent, and `stored` is the key of
      the record just stored, whose push is the next command. */
  datatype Client = Client(role: Role, todo: seq<JobId>, rest: seq<Command>, stored: Option<JobId>)

  datatype State = State(q: Queue, clock: nat, submitted: set<JobId>, clients: map<nat, Client>)

  function Start(t: nat): State {
    State(EMPTY, t, {}, map[])
  }

  /** `Answer` starts an acknowledge or a nack, `Scan` a reclaimer or a mover; `Read` reads the next listed
      record, `Send` sends the next command, and `Leave` ends a client wherever it is. */
  datatype Event =
    | Submit(job: Job)
    | Pop(w: WorkerId)
    | Answer(i: nat, op: Operation)
    | Scan(i: nat, role: Role)
    | Read(i: nat)
    | Send(i: nat)
    | Leave(i: nat)
    | Lapse(k: JobId)
    | Tick(t: nat)

  /** A reclaimer reads a record once it has sent all commands of the one before; a mover reads all of
      them and then sends one pipeline. A manual retry is a second submission, due at once. */
  predicate Enabled(s: State, e: Event) {
    match e
    case Submit(job) => job.id !in s.submitted || job.scheduledAt <= s.clock
    case Answer(i, op) => i !in s.clients && (op.Acking? || op.Nacking?)
    case Scan(i, role) => i !in s.clients && !role.Plain?
    case Read(i) =>
      && i in s.clients
      && (match s.clients[i].role
          case Reclaimer(_) => s.clients[i].rest == []
          case Mover(_) => s.clients[i].todo != []
          case Plain => false)
    case Send(i) =>
      i in s.clients && s.clients[i].rest != [] && (s.clients[i].role.Mover? ==> s.clients[i].todo == [])
    case Leave(i) => i in s.clients
    case Tick(t) => s.clock <= t
    case Pop(_) => true
    case Lapse(_) => true
  }

  function Listed(s: State, role: Role): seq<JobId> {
    match role
    case Plain => []
    case Reclaimer(w) => ExpiredKeys(s.q, w, MAX_AGE_MS, s.clock)
    case Mover(batch) => DueKeys(s.q, batch, s.clock)
  }

  function OperationOn(s: State, role: Role, k: JobId): Operation {
    if role.Reclaimer? then Reclaiming(role.w, k, RetryTimeOf(s.q, k, s.clock)) else Moving(k)
  }

  predicate NoLeases(q: Queue, w: WorkerId) {
    forall slot <- q.inflight :: slot.worker != w
  }

  /** The client after its next read: the commands for the record it finds, or, at the end of a reclaim,
      the removal of the in-flight set if it is empty. */
  function AfterRead(s: State, c: Client): Client {
    if c.todo != [] then
      c.(todo := c.todo[1..], rest := c.rest + CommandsOf(s.q, OperationOn(s, c.role, c.todo[0])))
    else if c.role.Reclaimer? && NoLeases(s.q, c.role.w) then
      c.(role := Plain, rest := c.rest + [DropLeases(c.role.w)])
    else c.(role := Plain)
  }

  function AfterSend(c: Client): Client
    requires c.rest != []
  {
    c.(rest := c.rest[1..], stored := if c.rest[0].Set? then Some(c.rest[0].job.id) else None)
  }

  function Next(s: State, e: Event): State
    requires Enabled(s, e)
  {
    match e
    case Submit(job) => s.(q := Enqueue(s.q, job, s.clock), submitted := s.submitted + {job.id})
    case Pop(w) => s.(q := Dequeue(s.q, w, LEASE_MS, s.clock).0)
    case Answer(i, op) => s.(clients := s.clients[i := Client(Plain, [], CommandsOf(s.q, op), None)])
    case Scan(i, role) => s.(clients := s.clients[i := Client(role, Listed(s, role), [], None)])
    case Read(i) => s.(clients := s.clients[i := AfterRead(s, s.clients[i])])
    case Send(i) =>
      s.(q := Apply(s.q, s.clients[i].rest[0]), clients := s.clients[i := AfterSend(s.clients[i])])
    case Leave(i) => s.(clients := s.clients - {i})
    case Lapse(k) => s.(q := Expire(s.q, k))
    case Tick(t) => s.(clock := t)
  }

  // ---------------------------------------------------------------------------
  // What is still going to be removed
  // ---------------------------------------------------------------------------

  predicate Pushes(c: Command, k: JobId) {
    (c.PushReady? || c.PushDead?) && c.k == k
  }

  predicate Removes(c: Command, pl: Place, k: JobId) {
    match c
    case EndLease(w, j) => pl == InFlight(w) && j == k
    case Undelay(j) => pl == Delayed && j == k
    case DropLeases(w) => pl == InFlight(w)
    case _ => false
  }

  /** The commands take away the entry of `k` at `pl` without pushing `k` or deleting its data first. */
  ghost predicate Threatens(cs: seq<Command>, pl: Place, k: JobId) {
    exists i :: 0 <= i < |cs| && Removes(cs[i], pl, k) && Uncovered(cs[..i], k)
  }

  predicate Uncovered(cs: seq<Command>, k: JobId) {
    forall j :: 0 <= j < |cs| ==> !Pushes(cs[j], k) && cs[j] != Del(k)
  }

  ghost predicate Threatened(s: State, pl: Place, k: JobId) {
    exists i :: i in s.clients && Threatens(s.clients[i].rest, pl, k)
  }

  /** The key has an entry that no client is about to remove. */
  ghost predicate Kept(s: State, k: JobId) {
    exists pl :: Copies(s.q, pl, k) > 0 && !Threatened(s, pl, k)
  }

  /** A client has stored the record of `k` and pushes its key next. */
  predicate PushDue(s: State, k: JobId) {
    exists i :: i in s.clients && s.clients[i].stored == Some(k)
  }

  // ---------------------------------------------------------------------------
  // Runs
  // ---------------------------------------------------------------------------

  /** `k` has an entry that no client is about to remove, besides one copy in list `p` and `w`'s lease. */
  ghost predicate KeptBesides(s: State, p: int, w: WorkerId, k: JobId) {
    exists pl ::
      pl != InFlight(w) && !Threatened(s, pl, k) && Copies(s.q, pl, k) > if pl == Ready(p) then 1 else 0
  }

  /** Two premises beyond what the code enforces. A worker id does not dequeue a key while a client has yet
      to remove a lease of the same worker on it, unless the key has a further entry; and a client does not
      stop between storing a record and pushing its key, unless the key has an entry or another push. */
  ghost predicate Careful(s: State, e: Event) {
    match e
    case Pop(w) =>
      (match NextKey(s.q)
       case None => true
       case Some(k) =>
         k in s.q.data && Threatened(s, InFlight(w), k)
         ==> PushDue(s, k) || KeptBesides(s, FirstReady(s.q, 0), w, k))
    case Leave(i) =>
      i in s.clients && s.clients[i].stored.Some? && s.clients[i].stored.value in s.q.data
      ==> Kept(s, s.clients[i].stored.value) || PushDue(s.(clients := s.clients - {i}), s.clients[i].stored.value)
    case _ => true
  }

  /** `s'` is where the events lead from `s`, each of them enabled when it happens. */
  ghost predicate Leads(s: State, es: seq<Event>, s': State)
    decreases |es|
  {
    if es == [] then s == s' else Enabled(s, es[0]) && Leads(Next(s, es[0]), es[1..], s')
  }

  ghost predicate AllCareful(s: State, es: seq<Event>)
    decreases |es|
  {
    es == [] || (Careful(s, es[0]) && (Enabled(s, es[0]) ==> AllCareful(Next(s, es[0]), es[1..])))
  }

  // ---------------------------------------------------------------------------
  // The invariant
  // ---------------------------------------------------------------------------

  /** Every store is followed by the push of its key. */
  predicate Paired(cs: seq<Command>) {
    forall i :: 0 <= i < |cs| && cs[i].Set? ==> i + 1 < |cs| && Pushes(cs[i + 1], cs[i].job.id)
  }

  predicate InOrder(c: Client) {
    Paired(c.rest) && (c.stored.Some? ==> c.rest != [] && Pushes(c.rest[0], c.stored.value))
  }

  /** Whatever a mover is at was submitted once. */
  predicate MovesKnown(c: Client, known: set<JobId>) {
    && (c.role.Mover? ==> forall k <- c.todo :: k in known)
    && forall x <- c.rest :: x.Undelay? ==> x.k in known
  }

  ghost predicate Orderly(s: State) {
    && DataKeyed(s.q)
    && s.q.delayed.Keys <= s.submitted
    && forall i <- s.clients :: InOrder(s.clients[i]) && MovesKnown(s.clients[i], s.submitted)
  }

  ghost predicate Covered(s: State) {
    forall k <- s.q.data :: Kept(s, k) || PushDue(s, k)
  }

  ghost predicate Inv(s: State) {
    Orderly(s) && Covered(s)
  }

  // ---------------------------------------------------------------------------
  // Threats of a client as it reads and sends
  // ---------------------------------------------------------------------------

  lemma {:induction false} ThreatsAfterSend(cs: seq<Command>, pl: Place, k: JobId)
    requires cs != [] && Threatens(cs[1..], pl, k)
    requires !Pushes(cs[0], k) && cs[0] != Del(k)
    ensures Threatens(cs, pl, k)
  {
    var i :| 0 <= i < |cs[1..]| && Removes(cs[1..][i], pl, k) && Uncovered(cs[1..][..i], k);
    assert cs[..i + 1] == [cs[0]] + cs[1..][..i];
    assert Removes(cs[i + 1], pl, k) && Uncovered(cs[..i + 1], k);
  }

  lemma {:induction false} ThreatsAfterRead(cs: seq<Command>, more: seq<Command>, pl: Place, k: JobId)
    requires Threatens(cs + more, pl, k)
    ensures Threatens(cs, pl, k) || Threatens(more, pl, k)
  {
    var all := cs + more;
    var i :| 0 <= i < |all| && Removes(all[i], pl, k) && Uncovered(all[..i], k);
    if i < |cs| {
      assert all[..i] == cs[..i];
      assert Threatens(cs, pl, k);
    } else {
      var m := i - |cs|;
      assert all[..i] == cs + more[..m];
      assert forall j :: 0 <= j < m ==> more[..m][j] == all[..i][|cs| + j];
      assert Removes(more[m], pl, k) && Uncovered(more[..m], k);
    }
  }

  /** What an operation sends for a record it has read removes an entry only after pushing its key or
      deleting its data. */
  lemma {:induction false} ReadThreatens(q: Queue, op: Operation, pl: Place, k: JobId)
    requires DataKeyed(q) && k in q.data
    ensures !Threatens(CommandsOf(q, op), pl, k)
  {
    var cs := CommandsOf(q, op);
    forall i | 0 < i < |cs| && Removes(cs[i], pl, k)
      ensures !Uncovered(cs[..i], k)
    {
      assert cs[..i][i - 1] == cs[i - 1];
    }
  }

  lemma {:induction false} OperationPaired(q: Queue, op: Operation)
    ensures Paired(CommandsOf(q, op)) && CommandsOf(q, op) != []
    ensures forall x <- CommandsOf(q, op) :: x.Undelay? ==> op == Moving(x.k)
  {
  }

  // ---------------------------------------------------------------------------
  // Every event keeps the order
  // ---------------------------------------------------------------------------

  lemma {:induction false} QueueOrderly(s: State, e: Event)
    requires Enabled(s, e) && Orderly(s)
    ensures DataKeyed(Next(s, e).q) && Next(s, e).q.delayed.Keys <= Next(s, e).submitted
  {
  }

  lemma {:induction false} ListedKnown(s: State, batch: int)
    ensures forall k <- DueKeys(s.q, batch, s.clock) :: k in s.q.delayed
  {
    RangeListing(s.q.delayed, 0, s.clock);
  }

  lemma {:induction false} ReadOrderly(s: State, c: Client)
    requires InOrder(c) && MovesKnown(c, s.submitted)
    requires c.todo != [] ==> !c.role.Plain?
    ensures InOrder(AfterRead(s, c)) && MovesKnown(AfterRead(s, c), s.submitted)
  {
    if c.todo != [] {
      var op := OperationOn(s, c.role, c.todo[0]);
      OperationPaired(s.q, op);
      PairedConcat(c.rest, CommandsOf(s.q, op));
    }
  }

  lemma {:induction false} PairedConcat(a: seq<Command>, b: seq<Command>)
    requires Paired(a) && Paired(b)
    ensures Paired(a + b)
  {
    var cs := a + b;
    forall i | 0 <= i < |cs| && cs[i].Set?
      ensures i + 1 < |cs| && Pushes(cs[i + 1], cs[i].job.id)
    {
      if i < |a| {
        assert a[i].Set?;
      } else {
        assert b[i - |a|].Set?;
      }
    }
  }

  lemma {:induction false} SendOrderly(c: Client, known: set<JobId>)
    requires InOrder(c) && MovesKnown(c, known) && c.rest != []
    ensures InOrder(AfterSend(c)) && MovesKnown(AfterSend(c), known)
  {
    assert forall i :: 0 <= i < |c.rest[1..]| ==> c.rest[1..][i] == c.rest[i + 1];
  }

  lemma {:induction false} OrderlyStep(s: State, e: Event)
    requires Enabled(s, e) && Orderly(s)
    ensures Orderly(Next(s, e))
  {
    QueueOrderly(s, e);
    match e
    case Answer(i, op) => OperationPaired(s.q, op);
    case Scan(i, role) =>
      if role.Mover? {
        ListedKnown(s, role.batch);
      }
    case Read(i) => ReadOrderly(s, s.clients[i]);
    case Send(i) => SendOrderly(s.clients[i], s.submitted);
    case _ =>
  }

  // ---------------------------------------------------------------------------
  // Every event keeps the stored keys covered
  // ---------------------------------------------------------------------------

  lemma {:induction false} ApplyCopies(q: Queue, c: Command, pl: Place, k: JobId)
    requires !Removes(c, pl, k)
    ensures Copies(Apply(q, c), pl, k) >= Copies(q, pl, k)
  {
    match c
    case PushReady(p, j) => PushAdds(q, p, j);
    case PushDead(j) => ConsCount(q.dlq, j);
    case _ =>
  }

  lemma {:induction false} PushedIsKept(s: State, c: Command, k: JobId, s': State)
    requires Pushes(c, k) && s'.q == Apply(s.q, c)
    ensures Kept(s', k)
  {
    var pl := if c.PushDead? then Dead else Ready(c.p);
    if c.PushDead? {
      ConsCount(s.q.dlq, k);
    } else {
      PushAdds(s.q, c.p, k);
    }
    assert Copies(s'.q, pl, k) > 0 && !Threatened(s', pl, k);
  }

  /** A command that neither pushes nor deletes `k` leaves the entries that are kept. */
  lemma {:induction false} SentIsKept(s: State, i: nat, k: JobId, s': State)
    requires Enabled(s, Send(i)) && s' == Next(s, Send(i)) && Kept(s, k)
    requires !Pushes(s.clients[i].rest[0], k) && s.clients[i].rest[0] != Del(k)
    ensures Kept(s', k)
  {
    var cs := s.clients[i].rest;
    var pl :| Copies(s.q, pl, k) > 0 && !Threatened(s, pl, k);
    assert !Removes(cs[0], pl, k) by {
      assert Removes(cs[0], pl, k) && Uncovered(cs[..0], k) ==> Threatens(cs, pl, k);
    }
    ApplyCopies(s.q, cs[0], pl, k);
    forall n | n in s'.clients
      ensures !Threatens(s'.clients[n].rest, pl, k)
    {
      if n == i && Threatens(cs[1..], pl, k) {
        ThreatsAfterSend(cs, pl, k);
      }
    }
    assert Copies(s'.q, pl, k) > 0 && !Threatened(s', pl, k);
  }

  lemma {:induction false} SendCovered(s: State, i: nat, s': State)
    requires Enabled(s, Send(i)) && Inv(s) && s' == Next(s, Send(i))
    ensures Covered(s')
  {
    var x := s.clients[i].rest[0];
    forall k <- s'.q.data
      ensures Kept(s', k) || PushDue(s', k)
    {
      if Pushes(x, k) {
        PushedIsKept(s, x, k, s');
      } else if x.Set? && x.job.id == k {
        assert s'.clients[i].stored == Some(k);
      } else if Kept(s, k) {
        SentIsKept(s, i, k, s');
      } else {
        var n :| n in s.clients && s.clients[n].stored == Some(k);
        assert s'.clients[n].stored == Some(k);
      }
    }
  }

  /** A client that reads, or appears, without threatening an entry of a stored key. */
  lemma {:induction false} ReadCovered(s: State, i: nat, c: Client, s': State)
    requires Covered(s) && s' == s.(clients := s.clients[i := c])
    requires i in s.clients ==> s.clients[i].stored == c.stored
    requires forall pl, k :: k in s.q.data && Copies(s.q, pl, k) > 0 && Threatens(c.rest, pl, k) ==> Threatened(s, pl, k)
    ensures Covered(s')
  {
    forall k <- s'.q.data
      ensures Kept(s', k) || PushDue(s', k)
    {
      if Kept(s, k) {
        var pl :| Copies(s.q, pl, k) > 0 && !Threatened(s, pl, k);
        assert !Threatened(s', pl, k);
      } else {
        var n :| n in s.clients && s.clients[n].stored == Some(k);
        assert s'.clients[n].stored == Some(k);
      }
    }
  }

  lemma {:induction false} AfterReadThreatens(s: State, i: nat, pl: Place, k: JobId)
    requires Enabled(s, Read(i)) && Orderly(s) && k in s.q.data && Copies(s.q, pl, k) > 0
    requires Threatens(AfterRead(s, s.clients[i]).rest, pl, k)
    ensures Threatened(s, pl, k)
  {
    var c := s.clients[i];
    if c.todo != [] {
      var op := OperationOn(s, c.role, c.todo[0]);
      ThreatsAfterRead(c.rest, CommandsOf(s.q, op), pl, k);
      ReadThreatens(s.q, op, pl, k);
    }
  }

  lemma {:induction false} PushFirst(cs: seq<Command>, pl: Place, k: JobId)
    requires cs != [] && Pushes(cs[0], k)
    ensures !Threatens(cs, pl, k)
  {
    forall i | 0 < i < |cs|
      ensures !Uncovered(cs[..i], k)
    {
      assert cs[..i][0] == cs[0];
    }
  }

  lemma {:induction false} LeaveCovered(s: State, i: nat, s': State)
    requires Enabled(s, Leave(i)) && Inv(s) && s' == Next(s, Leave(i))
    ensures Covered(s') <==> Careful(s, Leave(i))
  {
    forall k <- s'.q.data | Kept(s, k)
      ensures Kept(s', k)
    {
      var pl :| Copies(s.q, pl, k) > 0 && !Threatened(s, pl, k);
      assert !Threatened(s', pl, k);
    }
    forall k <- s'.q.data | PushDue(s, k) && s.clients[i].stored != Some(k)
      ensures PushDue(s', k)
    {
      var n :| n in s.clients && s.clients[n].stored == Some(k);
      assert s'.clients[n].stored == Some(k);
    }
    if s.clients[i].stored.Some? {
      LeaverHidesNothing(s, i, s.clients[i].stored.value, s');
    }
  }

  /** A client between a store and its push threatens no entry of that key. */
  lemma {:induction false} LeaverHidesNothing(s: State, i: nat, k: JobId, s': State)
    requires Enabled(s, Leave(i)) && Orderly(s) && s' == Next(s, Leave(i)) && s.clients[i].stored == Some(k)
    ensures Kept(s', k) ==> Kept(s, k)
  {
    if Kept(s', k) {
      var pl :| Copies(s'.q, pl, k) > 0 && !Threatened(s', pl, k);
      PushFirst(s.clients[i].rest, pl, k);
      assert forall n :: n in s.clients && n != i ==> n in s'.clients;
      assert !Threatened(s, pl, k);
    }
  }

  /** A script of the queue itself: the key it is about gets a safe entry, the others keep theirs. */
  lemma {:induction false} ScriptCovered(s: State, s': State, key: JobId, at: Place)
    requires Covered(s) && s'.clients == s.clients
    requires key in s'.q.data ==> Copies(s'.q, at, key) > 0 && !Threatened(s, at, key)
    requires forall k :: k != key ==> SameKey(s.q, s'.q, k)
    ensures Covered(s')
  {
    assert key in s'.q.data ==> !Threatened(s', at, key);
    OthersCovered(s, s', key);
  }

  lemma {:induction false} OthersCovered(s: State, s': State, key: JobId)
    requires Covered(s) && s'.clients == s.clients
    requires forall k :: k != key ==> SameKey(s.q, s'.q, k)
    ensures forall k <- s'.q.data :: k != key ==> Kept(s', k) || PushDue(s', k)
  {
    forall k <- s'.q.data | k != key
      ensures Kept(s', k) || PushDue(s', k)
    {
      assert SameKey(s.q, s'.q, k);
      if Kept(s, k) {
        var pl :| Copies(s.q, pl, k) > 0 && !Threatened(s, pl, k);
        assert Copies(s'.q, pl, k) > 0 && !Threatened(s', pl, k);
      }
    }
  }

  lemma {:induction false} SubmitCovered(s: State, job: Job, s': State)
    requires Enabled(s, Submit(job)) && Inv(s) && s' == Next(s, Submit(job))
    ensures Covered(s')
  {
    var home := if job.scheduledAt <= s.clock then Ready(job.priority) else Delayed;
    EnqueuePlaces(s.q, job, s.clock);
    assert Copies(s'.q, home, job.id) > 0;
    assert !Threatened(s, home, job.id);
    forall k | k != job.id
      ensures SameKey(s.q, s'.q, k)
    {
      EnqueueOthers(s.q, job, s.clock, k);
    }
    ScriptCovered(s, s', job.id, home);
  }

  lemma {:induction false} PopCovered(s: State, w: WorkerId, s': State)
    requires Covered(s) && s' == Next(s, Pop(w))
    ensures Covered(s') <==> Careful(s, Pop(w))
  {
    var p := FirstReady(s.q, 0);
    if p != 10 {
      var key := Rightmost(s.q, p);
      LeasePlaces(s.q, p, w, s.clock + LEASE_MS);
      forall k | k != key
        ensures SameKey(s.q, s'.q, k)
      {
        LeaseOthers(s.q, p, w, s.clock + LEASE_MS, k);
      }
      PoppedKept(s, p, w, key, s');
      OthersCovered(s, s', key);
    }
  }

  lemma {:induction false} PoppedKept(s: State, p: int, w: WorkerId, k: JobId, s': State)
    requires List(s.q, p) != [] && k == Rightmost(s.q, p) && s' == s.(q := Lease(s.q, p, w, s.clock + LEASE_MS))
    ensures Kept(s', k) <==> !Threatened(s, InFlight(w), k) || KeptBesides(s, p, w, k)
    ensures PushDue(s', k) <==> PushDue(s, k)
  {
    LeasePlaces(s.q, p, w, s.clock + LEASE_MS);
    assert forall pl :: Threatened(s', pl, k) <==> Threatened(s, pl, k);
    assert Copies(s'.q, InFlight(w), k) > 0;
    if pl :| pl != InFlight(w) && !Threatened(s, pl, k) && Copies(s.q, pl, k) > if pl == Ready(p) then 1 else 0 {
      assert Copies(s'.q, pl, k) > 0 && !Threatened(s', pl, k);
    }
  }

  lemma {:induction false} LapseCovered(s: State, k: JobId, s': State)
    requires Covered(s) && s' == Next(s, Lapse(k))
    ensures Covered(s')
  {
    forall j | j != k
      ensures SameKey(s.q, s'.q, j)
    {
      ExpireOthers(s.q, k, j);
    }
    ScriptCovered(s, s', k, Dead);
  }

  lemma {:induction false} TickCovered(s: State, t: nat)
    requires Covered(s) && s.clock <= t
    ensures Covered(Next(s, Tick(t)))
  {
    var s' := Next(s, Tick(t));
    assert forall pl, k :: Threatened(s, pl, k) <==> Threatened(s', pl, k);
    assert forall k :: PushDue(s, k) <==> PushDue(s', k);
    forall k <- s.q.data | Kept(s, k)
      ensures Kept(s', k)
    {
      var pl :| Copies(s.q, pl, k) > 0 && !Threatened(s, pl, k);
      assert !Threatened(s', pl, k);
    }
  }

  /** Every event keeps the invariant, except exactly the two kinds the premises name. */
  lemma {:induction false} InvStep(s: State, e: Event)
    requires Enabled(s, e) && Inv(s)
    ensures Inv(Next(s, e)) <==> Careful(s, e)
  {
    var s' := Next(s, e);
    OrderlyStep(s, e);
    match e {
      case Submit(job) => SubmitCovered(s, job, s');
      case Pop(w) => PopCovered(s, w, s');
      case Answer(i, op) =>
        forall pl, k | k in s.q.data
          ensures !Threatens(CommandsOf(s.q, op), pl, k)
        {
          ReadThreatens(s.q, op, pl, k);
        }
        ReadCovered(s, i, s'.clients[i], s');
      case Scan(i, role) => ReadCovered(s, i, s'.clients[i], s');
      case Read(i) =>
        forall pl, k | k in s.q.data && Copies(s.q, pl, k) > 0 && Threatens(s'.clients[i].rest, pl, k)
          ensures Threatened(s, pl, k)
        {
          AfterReadThreatens(s, i, pl, k);
        }
        ReadCovered(s, i, s'.clients[i], s');
      case Send(i) => SendCovered(s, i, s');
      case Leave(i) => LeaveCovered(s, i, s');
      case Lapse(k) => LapseCovered(s, k, s');
      case Tick(t) => TickCovered(s, t);
    }
  }

  lemma {:induction false} InvRun(s: State, es: seq<Event>, s': State)
    requires Inv(s) && Leads(s, es, s') && AllCareful(s, es)
    ensures Inv(s')
    decreases |es|
  {
    if es != [] {
      InvStep(s, es[0]);
      InvRun(Next(s, es[0]), es[1..], s');
    }
  }

  /** No loss under any interleaving of commands: from the empty store, in every run of any number of
      submitters, workers, movers and reclaimers that keeps the two premises, a stored job is always in a
      list or a set, unless a client has just stored its record and pushes its key next. */
  lemma {:induction false} NoLossInterleaved(t: nat, es: seq<Event>, s: State)
    requires Leads(Start(t), es, s) && AllCareful(Start(t), es)
    ensures forall k <- s.q.data :: Located(s.q, k) || PushDue(s, k)
    ensures (forall i <- s.clients :: s.clients[i].stored == None) ==> forall k <- s.q.data :: Located(s.q, k)
  {
    InvRun(Start(t), es, s);
    forall k <- s.q.data
      ensures Located(s.q, k) || PushDue(s, k)
    {
      if Kept(s, k) {
        var pl :| Copies(s.q, pl, k) > 0 && !Threatened(s, pl, k);
      }
    }
  }
}
