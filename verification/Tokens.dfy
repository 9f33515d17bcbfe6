/** The dual of no loss under interleaved commands: how many entries of a key there are once the commands
    under way have landed. */
module Tokens {
  import opened Jobs
  import opened QueueModel
  import opened Commands
  import opened Interleaving

  // ---------------------------------------------------------------------------
  // Tokens: entries that stay, and pushes to come
  // ---------------------------------------------------------------------------

  ghost predicate Ends(cs: seq<Command>, pl: Place, k: JobId) {
    exists x <- cs :: Removes(x, pl, k)
  }

  /** Some client is still going to remove the entry of `k` at `pl`. */
  ghost predicate Doomed(s: State, pl: Place, k: JobId) {
    exists i :: i in s.clients && Ends(s.clients[i].rest, pl, k)
  }

  /** The entries of `k` at `pl` that stay. */
  ghost function Live(s: State, pl: Place, k: JobId): nat {
    if Doomed(s, pl, k) then 0 else Copies(s.q, pl, k)
  }

  /** The pushes of `k` still to be sent. */
  function Coming(cs: seq<Command>, k: JobId): nat {
    if cs == [] then 0 else (if Pushes(cs[0], k) then 1 else 0) + Coming(cs[1..], k)
  }

  ghost predicate NoneComing(s: State, k: JobId) {
    forall i :: i in s.clients ==> Coming(s.clients[i].rest, k) == 0
  }

  /** One entry that stays or one push to come, not more. */
  ghost predicate AtMostOne(s: State, k: JobId) {
    && (forall pl :: Live(s, pl, k) <= 1)
    && (forall pl, pl' :: Live(s, pl, k) > 0 && Live(s, pl', k) > 0 ==> pl == pl')
    && (forall i :: i in s.clients ==> Coming(s.clients[i].rest, k) <= 1)
    && (forall i, j ::
          (i in s.clients && j in s.clients && Coming(s.clients[i].rest, k) > 0 && Coming(s.clients[j].rest, k) > 0)
          ==> i == j)
    && (forall i, pl :: i in s.clients && Coming(s.clients[i].rest, k) > 0 ==> Live(s, pl, k) == 0)
  }

  /** No entry that stays, except perhaps at `at`, and no push to come. */
  ghost predicate NoneBut(s: State, k: JobId, at: Place) {
    (forall pl :: pl != at ==> Live(s, pl, k) == 0) && NoneComing(s, k)
  }

  ghost predicate NoTokens(s: State, k: JobId) {
    (forall pl :: Live(s, pl, k) == 0) && NoneComing(s, k)
  }

  /** What remains when client `i` stops. */
  function Without(s: State, i: nat): State {
    s.(clients := s.clients - {i})
  }

  ghost predicate Revives(s: State, i: nat, pl: Place, k: JobId) {
    Copies(s.q, pl, k) > 0 && Doomed(s, pl, k) && !Doomed(Without(s, i), pl, k)
  }

  ghost predicate StopsClean(s: State, i: nat, k: JobId) {
    forall pl :: Revives(s, i, pl, k) ==> NoneBut(Without(s, i), k, pl)
  }

  /** The place a reading client moves a key away from. */
  function Source(role: Role): Place {
    if role.Reclaimer? then InFlight(role.w) else Delayed
  }

  /** What keeps every key to one token: a job is submitted when it has none; a nack that dead-letters is for
      the one lease of its job, and one that requeues for a job with none; a mover or reclaimer takes a key
      that is nowhere else; and a client does not stop before a removal when that leaves a second entry. */
  ghost predicate Single(s: State, e: Event) {
    match e
    case Submit(job) => NoTokens(s, job.id)
    case Answer(_, op) =>
      op.Nacking? ==>
        if IsRetryable(op.job) then NoTokens(s, op.job.id) else NoneBut(s, op.job.id, InFlight(op.w))
    case Read(i) =>
      i in s.clients && s.clients[i].todo != [] && s.clients[i].todo[0] in s.q.data
      ==> NoneBut(s, s.clients[i].todo[0], Source(s.clients[i].role))
    case Leave(i) => forall k :: StopsClean(s, i, k)
    case _ => true
  }

  // ---------------------------------------------------------------------------
  // Counting
  // ---------------------------------------------------------------------------

  lemma {:induction false} ComingAppend(a: seq<Command>, b: seq<Command>, k: JobId)
    ensures Coming(a + b, k) == Coming(a, k) + Coming(b, k)
    decreases |a|
  {
    if a == [] {
      assert a + b == b;
    } else {
      assert (a + b)[1..] == a[1..] + b;
      ComingAppend(a[1..], b, k);
    }
  }

  lemma {:induction false} ComingIff(cs: seq<Command>, k: JobId)
    ensures Coming(cs, k) > 0 <==> exists x <- cs :: Pushes(x, k)
  {
    if cs != [] {
      ComingIff(cs[1..], k);
      assert forall x :: x in cs <==> x == cs[0] || x in cs[1..];
    }
  }

  lemma {:induction false} EndsAppend(a: seq<Command>, b: seq<Command>, pl: Place, k: JobId)
    ensures Ends(a + b, pl, k) <==> Ends(a, pl, k) || Ends(b, pl, k)
  {
    assert forall x :: x in a + b <==> x in a || x in b;
  }

  lemma {:induction false} EndsFirst(cs: seq<Command>, pl: Place, k: JobId)
    requires cs != []
    ensures Ends(cs, pl, k) <==> Removes(cs[0], pl, k) || Ends(cs[1..], pl, k)
  {
    assert cs == [cs[0]] + cs[1..];
    EndsAppend([cs[0]], cs[1..], pl, k);
  }

  lemma {:induction false} ListsStay(s: State, pl: Place, k: JobId)
    requires pl.Ready? || pl.Dead?
    ensures !Doomed(s, pl, k) && Live(s, pl, k) == Copies(s.q, pl, k)
  {
  }

  /** With fewer of everything the bound stays. */
  lemma {:induction false} FewerTokens(s: State, s': State, k: JobId)
    requires AtMostOne(s, k) && forall pl :: Live(s', pl, k) <= Live(s, pl, k)
    requires forall i :: i in s'.clients && Coming(s'.clients[i].rest, k) > 0 ==>
               i in s.clients && Coming(s'.clients[i].rest, k) <= Coming(s.clients[i].rest, k)
    ensures AtMostOne(s', k)
  {
  }

  // ---------------------------------------------------------------------------
  // Sending
  // ---------------------------------------------------------------------------

  /** A push to come becomes an entry. */
  lemma {:induction false} SendPush(s: State, i: nat, k: JobId, s': State)
    requires Enabled(s, Send(i)) && s' == Next(s, Send(i)) && AtMostOne(s, k) && Pushes(s.clients[i].rest[0], k)
    ensures AtMostOne(s', k)
  {
    var x, cs := s.clients[i].rest[0], s.clients[i].rest;
    var home := if x.PushDead? then Dead else Ready(x.p);
    assert Coming(cs, k) == 1 + Coming(cs[1..], k);
    assert forall j :: j in s'.clients ==> Coming(s'.clients[j].rest, k) == 0;
    ListsStay(s, home, k);
    forall pl
      ensures Live(s', pl, k) == if pl == home then 1 else 0
    {
      assert Live(s, pl, k) == 0;
      SendDoomed(s, i, pl, k, s');
      PushCopies(s.q, x, pl, k, home);
      ListsStay(s', home, k);
    }
  }

  lemma {:induction false} PushCopies(q: Queue, x: Command, pl: Place, k: JobId, home: Place)
    requires Pushes(x, k) && home == if x.PushDead? then Dead else Ready(x.p)
    ensures Copies(Apply(q, x), pl, k) == Copies(q, pl, k) + if pl == home then 1 else 0
  {
    if x.PushDead? {
      ConsCount(q.dlq, k);
    } else {
      PushAdds(q, x.p, k);
    }
  }

  lemma {:induction false} SendDoomed(s: State, i: nat, pl: Place, k: JobId, s': State)
    requires Enabled(s, Send(i)) && s' == Next(s, Send(i))
    ensures Doomed(s', pl, k) ==> Doomed(s, pl, k)
    ensures Doomed(s, pl, k) && !Removes(s.clients[i].rest[0], pl, k) ==> Doomed(s', pl, k)
  {
    EndsFirst(s.clients[i].rest, pl, k);
    if Doomed(s', pl, k) {
      var n :| n in s'.clients && Ends(s'.clients[n].rest, pl, k);
      assert Ends(s.clients[n].rest, pl, k);
    }
    if Doomed(s, pl, k) && !Removes(s.clients[i].rest[0], pl, k) {
      var n :| n in s.clients && Ends(s.clients[n].rest, pl, k);
      assert Ends(s'.clients[n].rest, pl, k);
    }
  }

  lemma {:induction false} OtherCopies(q: Queue, x: Command, pl: Place, k: JobId)
    requires !Pushes(x, k)
    ensures Copies(Apply(q, x), pl, k) == if Removes(x, pl, k) then 0 else Copies(q, pl, k)
  {
    match x
    case PushReady(p, j) => PushAdds(q, p, j);
    case PushDead(j) => ConsCount(q.dlq, j);
    case _ =>
  }

  lemma {:induction false} SendOther(s: State, i: nat, k: JobId, s': State)
    requires Enabled(s, Send(i)) && s' == Next(s, Send(i)) && AtMostOne(s, k) && !Pushes(s.clients[i].rest[0], k)
    ensures AtMostOne(s', k)
  {
    forall pl
      ensures Live(s', pl, k) <= Live(s, pl, k)
    {
      SendLive(s, i, pl, k, s');
    }
    FewerTokens(s, s', k);
  }

  lemma {:induction false} SendLive(s: State, i: nat, pl: Place, k: JobId, s': State)
    requires Enabled(s, Send(i)) && s' == Next(s, Send(i)) && !Pushes(s.clients[i].rest[0], k)
    ensures Live(s', pl, k) <= Live(s, pl, k)
    ensures Copies(s'.q, pl, k) <= Copies(s.q, pl, k)
  {
    SendDoomed(s, i, pl, k, s');
    OtherCopies(s.q, s.clients[i].rest[0], pl, k);
  }

  // ---------------------------------------------------------------------------
  // Scripts, expiry and time
  // ---------------------------------------------------------------------------

  lemma {:induction false} SameClients(s: State, s': State, k: JobId)
    requires s'.clients == s.clients
    ensures forall pl :: Doomed(s', pl, k) <==> Doomed(s, pl, k)
    ensures NoneComing(s', k) <==> NoneComing(s, k)
  {
  }

  lemma {:induction false} SameToken(s: State, s': State, k: JobId)
    requires AtMostOne(s, k) && s'.clients == s.clients && forall pl :: Copies(s'.q, pl, k) == Copies(s.q, pl, k)
    ensures AtMostOne(s', k)
  {
    SameClients(s, s', k);
    assert forall pl :: Live(s', pl, k) == Live(s, pl, k);
    FewerTokens(s, s', k);
  }

  lemma {:induction false} PopToken(s: State, w: WorkerId, k: JobId, s': State)
    requires AtMostOne(s, k) && s' == Next(s, Pop(w))
    ensures AtMostOne(s', k)
  {
    var p := FirstReady(s.q, 0);
    SameClients(s, s', k);
    if p == 10 {
      SameToken(s, s', k);
    } else {
      LeasePlaces(s.q, p, w, s.clock + LEASE_MS);
      if k == Rightmost(s.q, p) {
        ListsStay(s, Ready(p), k);
        assert Live(s, Ready(p), k) == 1;
        assert NoneComing(s, k);
        forall pl | pl != InFlight(w)
          ensures Live(s', pl, k) == 0
        {
          assert pl != Ready(p) ==> Live(s, pl, k) == 0;
          ListsStay(s', Ready(p), k);
        }
        assert Live(s', InFlight(w), k) <= 1;
      } else {
        SameToken(s, s', k);
      }
    }
  }

  /** The other tokens are what a newcomer at `home` must not meet. */
  lemma {:induction false} SubmitToken(s: State, job: Job, s': State)
    requires Enabled(s, Submit(job)) && Orderly(s) && s' == Next(s, Submit(job)) && AtMostOne(s, job.id)
    ensures AtMostOne(s', job.id) <==> NoTokens(s, job.id)
  {
    var k := job.id;
    var home := if job.scheduledAt <= s.clock then Ready(job.priority) else Delayed;
    EnqueuePlaces(s.q, job, s.clock);
    SameClients(s, s', k);
    assert !Doomed(s, home, k) && (home == Delayed ==> Copies(s.q, home, k) == 0) by {
      if home == Delayed {
        NewIsNotDoomed(s, k);
      } else {
        ListsStay(s, home, k);
      }
    }
    assert forall pl :: Live(s', pl, k) == Live(s, pl, k) + if pl == home then 1 else 0;
    if AtMostOne(s', k) {
      assert Live(s', home, k) == 1;
      assert forall pl :: Live(s, pl, k) == 0;
      assert forall i :: i in s'.clients && Coming(s'.clients[i].rest, k) > 0 ==> Live(s', home, k) == 0;
    }
  }

  lemma {:induction false} NewIsNotDoomed(s: State, k: JobId)
    requires Orderly(s) && k !in s.submitted
    ensures !Doomed(s, Delayed, k) && k !in s.q.delayed
  {
    forall i | i in s.clients
      ensures !Ends(s.clients[i].rest, Delayed, k)
    {
      assert MovesKnown(s.clients[i], s.submitted);
    }
  }

  // ---------------------------------------------------------------------------
  // A client takes on commands
  // ---------------------------------------------------------------------------

  function RestOf(s: State, i: nat): seq<Command> {
    if i in s.clients then s.clients[i].rest else []
  }

  /** Client `i` has `more` to send; nothing else is different. */
  ghost predicate Gains(s: State, s': State, i: nat, more: seq<Command>) {
    && s'.q == s.q && i in s'.clients && s'.clients[i].rest == RestOf(s, i) + more
    && (forall n :: n != i ==> (n in s'.clients <==> n in s.clients))
    && (forall n :: n != i && n in s.clients ==> s'.clients[n].rest == s.clients[n].rest)
  }

  lemma {:induction false} GainDoomed(s: State, s': State, i: nat, more: seq<Command>, pl: Place, k: JobId)
    requires Gains(s, s', i, more)
    ensures Doomed(s', pl, k) <==> Doomed(s, pl, k) || Ends(more, pl, k)
  {
    EndsAppend(RestOf(s, i), more, pl, k);
    if Doomed(s', pl, k) {
      var n :| n in s'.clients && Ends(s'.clients[n].rest, pl, k);
      assert n != i ==> Ends(s.clients[n].rest, pl, k);
    }
    if Doomed(s, pl, k) {
      var n :| n in s.clients && Ends(s.clients[n].rest, pl, k);
      assert Ends(s'.clients[n].rest, pl, k);
    }
    if Ends(more, pl, k) {
      assert Ends(s'.clients[i].rest, pl, k);
    }
  }

  lemma {:induction false} GainNothing(s: State, s': State, i: nat, more: seq<Command>, k: JobId)
    requires Gains(s, s', i, more) && Coming(more, k) == 0 && AtMostOne(s, k)
    ensures AtMostOne(s', k)
  {
    ComingAppend(RestOf(s, i), more, k);
    forall pl
      ensures Live(s', pl, k) <= Live(s, pl, k)
    {
      GainDoomed(s, s', i, more, pl, k);
    }
    FewerTokens(s, s', k);
  }

  /** A push to come, and the removal of the entry at `at` if it has one. */
  ghost predicate Transfers(more: seq<Command>, k: JobId, at: Option<Place>) {
    Coming(more, k) == 1 && forall pl :: Ends(more, pl, k) <==> at == Some(pl)
  }

  ghost predicate NoneButAt(s: State, k: JobId, at: Option<Place>) {
    (forall pl :: at != Some(pl) ==> Live(s, pl, k) == 0) && NoneComing(s, k)
  }

  lemma {:induction false} GainTransfer(s: State, s': State, i: nat, more: seq<Command>, k: JobId, at: Option<Place>)
    requires Gains(s, s', i, more) && Transfers(more, k, at) && AtMostOne(s, k)
    ensures AtMostOne(s', k) <==> NoneButAt(s, k, at)
  {
    ComingAppend(RestOf(s, i), more, k);
    forall pl
      ensures Live(s', pl, k) == if at == Some(pl) then 0 else Live(s, pl, k)
    {
      GainDoomed(s, s', i, more, pl, k);
    }
    if AtMostOne(s', k) {
      assert Coming(s'.clients[i].rest, k) > 0;
      assert forall pl :: Live(s', pl, k) == 0;
      forall n | n in s.clients
        ensures Coming(s.clients[n].rest, k) == 0
      {
        assert n in s'.clients;
      }
    }
  }

  lemma {:induction false} ShortComing(cs: seq<Command>, k: JobId)
    requires |cs| <= 3
    ensures Coming(cs, k) == (if |cs| > 0 && Pushes(cs[0], k) then 1 else 0)
                             + (if |cs| > 1 && Pushes(cs[1], k) then 1 else 0)
                             + (if |cs| > 2 && Pushes(cs[2], k) then 1 else 0)
  {
    if |cs| > 1 {
      assert Coming(cs[1..], k) == (if Pushes(cs[1], k) then 1 else 0) + Coming(cs[1..][1..], k);
    }
    if |cs| > 2 {
      assert cs[1..][1..] == [cs[2]] && [cs[2]][1..] == [];
      assert Coming([cs[2]], k) == (if Pushes(cs[2], k) then 1 else 0) + Coming([], k);
    }
  }

  /** The key an operation pushes, if it does, and the place it then removes the key from. */
  ghost function PushedKey(q: Queue, op: Operation): Option<JobId> {
    match op
    case Acking(_, _) => None
    case Nacking(job, _, _, _) => Some(job.id)
    case Moving(k) => if k in q.data then Some(k) else None
    case Reclaiming(_, k, _) => if k in q.data then Some(k) else None
  }

  ghost function PushedFrom(op: Operation): Option<Place> {
    match op
    case Acking(_, w) => Some(InFlight(w))
    case Nacking(job, w, _, _) => if IsRetryable(job) then None else Some(InFlight(w))
    case Moving(_) => Some(Delayed)
    case Reclaiming(w, _, _) => Some(InFlight(w))
  }

  lemma {:induction false} OperationTransfers(q: Queue, op: Operation, k: JobId)
    requires DataKeyed(q)
    ensures PushedKey(q, op) == Some(k) ==> Transfers(CommandsOf(q, op), k, PushedFrom(op))
    ensures PushedKey(q, op) != Some(k) ==> Coming(CommandsOf(q, op), k) == 0
  {
    ShortComing(CommandsOf(q, op), k);
    if PushedKey(q, op) == Some(k) {
      OperationEnds(q, op, k);
    }
  }

  lemma {:induction false} OperationEnds(q: Queue, op: Operation, k: JobId)
    requires DataKeyed(q) && PushedKey(q, op) == Some(k)
    ensures forall pl :: Ends(CommandsOf(q, op), pl, k) <==> PushedFrom(op) == Some(pl)
  {
    var cs := CommandsOf(q, op);
    forall pl
      ensures Ends(cs, pl, k) <==> PushedFrom(op) == Some(pl)
    {
      if PushedFrom(op) == Some(pl) {
        assert Removes(cs[|cs| - 1], pl, k) && cs[|cs| - 1] in cs;
      }
    }
  }

  /** Reading or answering: the key pushed is the one to look at. */
  lemma {:induction false} GainOperation(s: State, s': State, i: nat, op: Operation)
    requires DataKeyed(s.q) && Gains(s, s', i, CommandsOf(s.q, op)) && forall k :: AtMostOne(s, k)
    ensures (forall k :: AtMostOne(s', k))
            <==> (PushedKey(s.q, op).Some? ==> NoneButAt(s, PushedKey(s.q, op).value, PushedFrom(op)))
  {
    var more, key := CommandsOf(s.q, op), PushedKey(s.q, op);
    forall k: JobId
      ensures key != Some(k) ==> AtMostOne(s', k)
      ensures key == Some(k) ==> (AtMostOne(s', k) <==> NoneButAt(s, k, PushedFrom(op)))
    {
      assert AtMostOne(s, k);
      OperationTransfers(s.q, op, k);
      if key == Some(k) {
        GainTransfer(s, s', i, more, k, PushedFrom(op));
      } else {
        GainNothing(s, s', i, more, k);
      }
    }
  }

  lemma {:induction false} AnswerToken(s: State, i: nat, op: Operation, s': State)
    requires Enabled(s, Answer(i, op)) && Orderly(s) && s' == Next(s, Answer(i, op)) && forall k :: AtMostOne(s, k)
    ensures (forall k :: AtMostOne(s', k)) <==> Single(s, Answer(i, op))
  {
    assert [] + CommandsOf(s.q, op) == CommandsOf(s.q, op);
    GainOperation(s, s', i, op);
    if op.Nacking? {
      var k, w := op.job.id, op.w;
      assert NoneButAt(s, k, None) <==> NoTokens(s, k);
      assert NoneButAt(s, k, Some(InFlight(w))) <==> NoneBut(s, k, InFlight(w));
    }
  }

  lemma {:induction false} ReadToken(s: State, i: nat, s': State)
    requires Enabled(s, Read(i)) && Orderly(s) && s' == Next(s, Read(i)) && forall k :: AtMostOne(s, k)
    ensures (forall k :: AtMostOne(s', k)) <==> Single(s, Read(i))
  {
    var c := s.clients[i];
    if c.todo != [] {
      var op := OperationOn(s, c.role, c.todo[0]);
      GainOperation(s, s', i, op);
      var k := c.todo[0];
      assert NoneButAt(s, k, Some(Source(c.role))) <==> NoneBut(s, k, Source(c.role));
    } else {
      var more := if NoLeases(s.q, c.role.w) then [DropLeases(c.role.w)] else [];
      assert c.rest + [] == c.rest;
      forall k: JobId
        ensures AtMostOne(s', k)
      {
        assert AtMostOne(s, k);
        ShortComing(more, k);
        GainNothing(s, s', i, more, k);
      }
    }
  }

  lemma {:induction false} ScanToken(s: State, i: nat, role: Role, k: JobId, s': State)
    requires Enabled(s, Scan(i, role)) && s' == Next(s, Scan(i, role)) && AtMostOne(s, k)
    ensures AtMostOne(s', k)
  {
    var none: seq<Command> := [];
    assert none + none == none;
    GainNothing(s, s', i, [], k);
  }

  // ---------------------------------------------------------------------------
  // A client stops
  // ---------------------------------------------------------------------------

  lemma {:induction false} LeaveLive(s: State, i: nat, pl: Place, k: JobId)
    ensures Live(Without(s, i), pl, k) == if Revives(s, i, pl, k) then Copies(s.q, pl, k) else Live(s, pl, k)
  {
    if n :| n in Without(s, i).clients && Ends(Without(s, i).clients[n].rest, pl, k) {
      assert n in s.clients && Ends(s.clients[n].rest, pl, k);
    }
  }

  lemma {:induction false} LeaveToken(s: State, i: nat, k: JobId, s': State)
    requires s' == Without(s, i) && AtMostOne(s, k)
    ensures AtMostOne(s', k) <==> StopsClean(s, i, k)
  {
    forall pl
      ensures Live(s', pl, k) == if Revives(s, i, pl, k) then 1 else Live(s, pl, k)
    {
      LeaveLive(s, i, pl, k);
      ListsAreNotRevived(s, i, pl, k);
    }
    if pl :| Revives(s, i, pl, k) {
      assert Live(s', pl, k) == 1;
    } else {
      FewerTokens(s, s', k);
    }
  }

  lemma {:induction false} ListsAreNotRevived(s: State, i: nat, pl: Place, k: JobId)
    ensures Revives(s, i, pl, k) ==> Copies(s.q, pl, k) == 1
  {
    if pl.Ready? || pl.Dead? {
      ListsStay(s, pl, k);
    }
  }

  // ---------------------------------------------------------------------------
  // Every event
  // ---------------------------------------------------------------------------

  ghost predicate AllSingle(s: State) {
    forall k :: AtMostOne(s, k)
  }

  lemma {:induction false} SubmitTokens(s: State, job: Job, s': State)
    requires Enabled(s, Submit(job)) && Orderly(s) && AllSingle(s) && s' == Next(s, Submit(job))
    ensures AllSingle(s') <==> NoTokens(s, job.id)
  {
    forall k: JobId
      ensures k != job.id ==> AtMostOne(s', k)
    {
      assert AtMostOne(s, k);
      if k != job.id {
        EnqueueOthers(s.q, job, s.clock, k);
        SameToken(s, s', k);
      }
    }
    assert AtMostOne(s, job.id);
    SubmitToken(s, job, s');
  }

  lemma {:induction false} LeaveTokens(s: State, i: nat, s': State)
    requires Enabled(s, Leave(i)) && AllSingle(s) && s' == Next(s, Leave(i))
    ensures AllSingle(s') <==> Single(s, Leave(i))
  {
    forall k: JobId
      ensures AtMostOne(s', k) <==> StopsClean(s, i, k)
    {
      assert AtMostOne(s, k);
      LeaveToken(s, i, k, s');
    }
  }

  lemma {:induction false} QuietTokens(s: State, e: Event, s': State)
    requires e.Pop? || e.Scan? || e.Send? || e.Lapse? || e.Tick?
    requires Enabled(s, e) && AllSingle(s) && s' == Next(s, e)
    ensures AllSingle(s')
  {
    forall k: JobId
      ensures AtMostOne(s', k)
    {
      assert AtMostOne(s, k);
      match e
      case Pop(w) => PopToken(s, w, k, s');
      case Scan(i, role) => ScanToken(s, i, role, k, s');
      case Send(i) =>
        if Pushes(s.clients[i].rest[0], k) {
          SendPush(s, i, k, s');
        } else {
          SendOther(s, i, k, s');
        }
      case Lapse(_) => SameToken(s, s', k);
      case Tick(_) => SameToken(s, s', k);
      case _ =>
    }
  }

  /** Every event keeps each key to one token, except exactly those that `Single` names. */
  lemma {:induction false} TokenStep(s: State, e: Event)
    requires Enabled(s, e) && Orderly(s) && AllSingle(s)
    ensures AllSingle(Next(s, e)) <==> Single(s, e)
  {
    var s' := Next(s, e);
    match e
    case Submit(job) => SubmitTokens(s, job, s');
    case Answer(i, op) => AnswerToken(s, i, op, s');
    case Read(i) => ReadToken(s, i, s');
    case Leave(i) => LeaveTokens(s, i, s');
    case _ => QuietTokens(s, e, s');
  }

  ghost predicate SingleRun(s: State, es: seq<Event>)
    decreases |es|
  {
    es == [] || (Single(s, es[0]) && (Enabled(s, es[0]) ==> SingleRun(Next(s, es[0]), es[1..])))
  }

  lemma {:induction false} TokenRun(s: State, es: seq<Event>, s': State)
    requires Orderly(s) && AllSingle(s) && Leads(s, es, s') && SingleRun(s, es)
    ensures Orderly(s') && AllSingle(s')
    decreases |es|
  {
    if es != [] {
      OrderlyStep(s, es[0]);
      TokenStep(s, es[0]);
      TokenRun(Next(s, es[0]), es[1..], s');
    }
  }

  /** No doubling under any interleaving of commands: from the empty store, in every run of such events, a
      key has at most one entry that stays or push to come, and so at most one entry whenever all commands
      have landed. */
  lemma {:induction false} NoDoubleInterleaved(t: nat, es: seq<Event>, s: State)
    requires Leads(Start(t), es, s) && SingleRun(Start(t), es)
    ensures AllSingle(s)
    ensures (forall i <- s.clients :: s.clients[i].rest == []) ==> forall k :: AtMostOnce(s.q, k)
  {
    TokenRun(Start(t), es, s);
    if forall i <- s.clients :: s.clients[i].rest == [] {
      forall k: JobId
        ensures AtMostOnce(s.q, k)
      {
        assert AtMostOne(s, k);
        assert forall pl :: !Doomed(s, pl, k) && Live(s, pl, k) == Copies(s.q, pl, k);
      }
    }
  }
}
