/** Runs from the empty store on which commands of several clients meet: how a job is lost or doubled. */
module LosingRuns {
  import opened Jobs
  import opened SortedSet
  import opened QueueModel
  import opened Commands
  import opened Interleaving
  import opened SoloStore

  // ---------------------------------------------------------------------------
  // Putting runs together
  // ---------------------------------------------------------------------------

  lemma {:induction false} Joined(a: State, es: seq<Event>, b: State, fs: seq<Event>, c: State)
    requires Leads(a, es, b) && Leads(b, fs, c)
    ensures Leads(a, es + fs, c)
    decreases |es|
  {
    if es == [] {
      assert es + fs == fs;
    } else {
      Joined(Next(a, es[0]), es[1..], b, fs, c);
      assert (es + fs)[1..] == es[1..] + fs;
    }
  }

  lemma {:induction false} TwoEvents(a: State, x: Event, b: State, y: Event, c: State)
    requires Enabled(a, x) && b == Next(a, x) && Enabled(b, y) && c == Next(b, y)
    ensures Leads(a, [x, y], c)
  {
    assert [x, y][1..] == [y] && [y][1..] == [];
    assert Leads(c, [], c);
    assert Leads(b, [y], c);
  }

  lemma {:induction false} ThreeEvents(a: State, x: Event, b: State, y: Event, c: State, z: Event, d: State)
    requires Enabled(a, x) && b == Next(a, x) && Enabled(b, y) && c == Next(b, y) && Enabled(c, z) && d == Next(c, z)
    ensures Leads(a, [x, y, z], d)
  {
    TwoEvents(b, y, c, z, d);
    assert [x, y, z][1..] == [y, z];
  }

  // ---------------------------------------------------------------------------
  // A worker past its time, and a reclaimer that has read the record
  // ---------------------------------------------------------------------------

  /** 125 s after worker `w` took the only job, with the given clients at work. */
  function Overdue(job: Job, w: WorkerId, t: nat, cs: map<nat, Client>): State {
    State(Solo(job, job.priority, [], map[Slot(w, job.id) := t + LEASE_MS]), t + WINDOW_MS, {job.id}, cs)
  }

  lemma {:induction false} ReachOverdue(job: Job, w: WorkerId, t: nat)
    requires Due(job, t)
    ensures Leads(Start(t), [Submit(job), Pop(w), Tick(t + WINDOW_MS)], Overdue(job, w, t, map[]))
  {
    var p := job.priority;
    var s1 := State(Solo(job, p, [job.id], map[]), t, {job.id}, map[]);
    var s2 := State(Solo(job, p, [], map[Slot(w, job.id) := t + LEASE_MS]), t, {job.id}, map[]);
    SoloEnqueue(job, t);
    SoloPop(job, p, [], map[], w, LEASE_MS, t);
    ThreeEvents(Start(t), Submit(job), s1, Pop(w), s2, Tick(t + WINDOW_MS), Overdue(job, w, t, map[]));
  }

  /** The record as the reclaimer writes it back. */
  function Reclaimed(job: Job, w: WorkerId, t: nat): Job {
    ReclaimedJob(job, RetryTimeOf(Overdue(job, w, t, map[]).q, job.id, t + WINDOW_MS))
  }

  function ReclaimCommands(job: Job, w: WorkerId, t: nat): seq<Command> {
    [Set(Reclaimed(job, w, t)), PushReady(job.priority, job.id), EndLease(w, job.id)]
  }

  /** A reclaimer with its commands not yet sent. */
  function Poised(job: Job, w: WorkerId, t: nat): Client {
    Client(Reclaimer(w), [], ReclaimCommands(job, w, t), None)
  }

  lemma {:induction false} ScanAndRead(job: Job, w: WorkerId, t: nat, cs: map<nat, Client>, i: nat)
    requires i !in cs
    ensures Leads(Overdue(job, w, t, cs), [Scan(i, Reclaimer(w)), Read(i)], Overdue(job, w, t, cs[i := Poised(job, w, t)]))
  {
    var s, s' := Overdue(job, w, t, cs), Overdue(job, w, t, cs[i := Poised(job, w, t)]);
    var m := Overdue(job, w, t, cs[i := Client(Reclaimer(w), [job.id], [], None)]);
    SoloExpired(job, job.priority, [], w, t + LEASE_MS, t + LEASE_MS);
    assert Next(s, Scan(i, Reclaimer(w))) == m;
    assert [job.id][1..] == [];
    assert AfterRead(m, m.clients[i]) == Poised(job, w, t);
    assert m.clients[i := Poised(job, w, t)] == s'.clients;
    TwoEvents(s, Scan(i, Reclaimer(w)), m, Read(i), s');
  }

  function UntilRead(job: Job, w: WorkerId, t: nat): seq<Event> {
    [Submit(job), Pop(w), Tick(t + WINDOW_MS)] + [Scan(0, Reclaimer(w)), Read(0)]
  }

  lemma {:induction false} ReachRead(job: Job, w: WorkerId, t: nat)
    requires Due(job, t)
    ensures Leads(Start(t), UntilRead(job, w, t), Overdue(job, w, t, map[0 := Poised(job, w, t)]))
  {
    ReachOverdue(job, w, t);
    ScanAndRead(job, w, t, map[], 0);
    assert map[][0 := Poised(job, w, t)] == map[0 := Poised(job, w, t)];
    Joined(Start(t), [Submit(job), Pop(w), Tick(t + WINDOW_MS)], Overdue(job, w, t, map[]),
           [Scan(0, Reclaimer(w)), Read(0)], Overdue(job, w, t, map[0 := Poised(job, w, t)]));
  }

  /** The state with the given queue and one client that still has to send `rest`. */
  function OneClient(q: Queue, job: Job, t: nat, role: Role, rest: seq<Command>, stored: Option<JobId>): State {
    State(q, t + WINDOW_MS, {job.id}, map[0 := Client(role, [], rest, stored)])
  }

  lemma {:induction false} SendOne(q: Queue, job: Job, t: nat, role: Role, rest: seq<Command>, stored: Option<JobId>)
    requires rest != [] && !role.Mover?
    ensures var s := OneClient(q, job, t, role, rest, stored);
            && Enabled(s, Send(0))
            && Next(s, Send(0)) == OneClient(Apply(q, rest[0]), job, t, role, rest[1..],
                                             if rest[0].Set? then Some(rest[0].job.id) else None)
  {
    var s := OneClient(q, job, t, role, rest, stored);
    var c := AfterSend(s.clients[0]);
    assert s.clients[0 := c] == map[0 := c];
  }

  /** The reclaimer has stored and pushed, and still has to end the lease. */
  function Pushed(job: Job, w: WorkerId, t: nat): State {
    OneClient(Solo(Reclaimed(job, w, t), job.priority, [job.id], map[Slot(w, job.id) := t + LEASE_MS]), job, t,
              Reclaimer(w), [EndLease(w, job.id)], None)
  }

  lemma {:induction false} StoreAndPush(job: Job, w: WorkerId, t: nat)
    ensures Leads(Overdue(job, w, t, map[0 := Poised(job, w, t)]), [Send(0), Send(0)], Pushed(job, w, t))
  {
    var p, cs, j := job.priority, ReclaimCommands(job, w, t), Reclaimed(job, w, t);
    var leases := map[Slot(w, job.id) := t + LEASE_MS];
    var q, q1 := Solo(job, p, [], leases), Solo(j, p, [], leases);
    SoloApply(job, p, [], leases, j, w);
    SendOne(q, job, t, Reclaimer(w), cs, None);
    SoloApply(j, p, [], leases, j, w);
    SendOne(q1, job, t, Reclaimer(w), cs[1..], Some(job.id));
    assert cs[1..][1..] == [EndLease(w, job.id)] && [job.id] + [] == [job.id];
    TwoEvents(OneClient(q, job, t, Reclaimer(w), cs, None), Send(0),
              OneClient(q1, job, t, Reclaimer(w), cs[1..], Some(job.id)), Send(0), Pushed(job, w, t));
  }

  function UntilPushed(job: Job, w: WorkerId, t: nat): seq<Event> {
    UntilRead(job, w, t) + [Send(0), Send(0)]
  }

  lemma {:induction false} ReachPushed(job: Job, w: WorkerId, t: nat)
    requires Due(job, t)
    ensures Leads(Start(t), UntilPushed(job, w, t), Pushed(job, w, t))
  {
    ReachRead(job, w, t);
    StoreAndPush(job, w, t);
    Joined(Start(t), UntilRead(job, w, t), Overdue(job, w, t, map[0 := Poised(job, w, t)]), [Send(0), Send(0)],
           Pushed(job, w, t));
  }

  // ---------------------------------------------------------------------------
  // Runs that lose a job
  // ---------------------------------------------------------------------------

  /** A store that holds the record and no entry of its key, with the client's work done. */
  function Lost(job: Job, w: WorkerId, t: nat, role: Role): State {
    OneClient(Solo(Reclaimed(job, w, t), job.priority, [], map[]), job, t, role, [], None)
  }

  lemma {:induction false} LostIsLost(job: Job, w: WorkerId, t: nat, role: Role)
    ensures var s := Lost(job, w, t, role);
            job.id in s.q.data && !Located(s.q, job.id) && !PushDue(s, job.id)
  {
    SoloUnlocated(Reclaimed(job, w, t), job.priority);
  }

  lemma {:induction false} RacingPop(job: Job, w: WorkerId, t: nat)
    requires 0 <= job.priority < 10
    ensures Leads(Pushed(job, w, t), [Pop(w), Send(0)], Lost(job, w, t, Reclaimer(w)))
  {
    var p, j, slot := job.priority, Reclaimed(job, w, t), Slot(w, job.id);
    SoloPop(j, p, [], map[slot := t + LEASE_MS], w, LEASE_MS, t + WINDOW_MS);
    var leases := map[slot := t + WINDOW_MS + LEASE_MS];
    assert map[slot := t + LEASE_MS][slot := t + WINDOW_MS + LEASE_MS] == leases && leases - {slot} == map[];
    SoloApply(j, p, [], leases, j, w);
    var m := OneClient(Solo(j, p, [], leases), job, t, Reclaimer(w), [EndLease(w, job.id)], None);
    SendOne(m.q, job, t, Reclaimer(w), [EndLease(w, job.id)], None);
    assert [EndLease(w, job.id)][1..] == [];
    TwoEvents(Pushed(job, w, t), Pop(w), m, Send(0), Lost(job, w, t, Reclaimer(w)));
  }

  /** Submit, dequeue, 125 s, a reclaimer reads, stores and pushes; the same worker id takes the key again
      and only then does the reclaimer end the lease, now the new one: the record of any due new job is
      stored and its key is nowhere. */
  lemma {:induction false} ReclaimRaceLoses(job: Job, w: WorkerId, t: nat)
    requires Due(job, t)
    ensures Leads(Start(t), UntilPushed(job, w, t) + [Pop(w), Send(0)], Lost(job, w, t, Reclaimer(w)))
    ensures var s := Lost(job, w, t, Reclaimer(w));
            job.id in s.q.data && !Located(s.q, job.id) && !PushDue(s, job.id)
  {
    ReachPushed(job, w, t);
    RacingPop(job, w, t);
    Joined(Start(t), UntilPushed(job, w, t), Pushed(job, w, t), [Pop(w), Send(0)], Lost(job, w, t, Reclaimer(w)));
    LostIsLost(job, w, t, Reclaimer(w));
  }

  /** The lease has ended and the reclaimer has found the worker's in-flight set empty. */
  function Cleaning(job: Job, w: WorkerId, t: nat): State {
    OneClient(Solo(Reclaimed(job, w, t), job.priority, [job.id], map[]), job, t, Plain, [DropLeases(w)], None)
  }

  lemma {:induction false} EndAndCount(job: Job, w: WorkerId, t: nat)
    ensures Leads(Pushed(job, w, t), [Send(0), Read(0)], Cleaning(job, w, t))
  {
    var j, p, slot := Reclaimed(job, w, t), job.priority, Slot(w, job.id);
    SoloApply(j, p, [job.id], map[slot := t + LEASE_MS], j, w);
    assert map[slot := t + LEASE_MS] - {slot} == map[];
    SendOne(Pushed(job, w, t).q, job, t, Reclaimer(w), [EndLease(w, job.id)], None);
    assert [EndLease(w, job.id)][1..] == [];
    var m := OneClient(Solo(j, p, [job.id], map[]), job, t, Reclaimer(w), [], None);
    var c := AfterRead(m, m.clients[0]);
    assert c == Client(Plain, [], [DropLeases(w)], None);
    assert m.clients[0 := c] == map[0 := c];
    TwoEvents(Pushed(job, w, t), Send(0), m, Read(0), Cleaning(job, w, t));
  }

  lemma {:induction false} CleanupDrops(job: Job, w: WorkerId, t: nat)
    requires 0 <= job.priority < 10
    ensures Leads(Cleaning(job, w, t), [Pop(w), Send(0)], Lost(job, w, t, Plain))
  {
    var j, p, slot := Reclaimed(job, w, t), job.priority, Slot(w, job.id);
    SoloPop(j, p, [], map[], w, LEASE_MS, t + WINDOW_MS);
    var q := Solo(j, p, [], map[slot := t + WINDOW_MS + LEASE_MS]);
    SendOne(q, job, t, Plain, [DropLeases(w)], None);
    assert [DropLeases(w)][1..] == [];
    assert Apply(q, DropLeases(w)).inflight == map[];
    TwoEvents(Cleaning(job, w, t), Pop(w), OneClient(q, job, t, Plain, [DropLeases(w)], None), Send(0),
              Lost(job, w, t, Plain));
  }

  /** A reclaimer that counts a worker's leases, finds none and deletes the set loses whatever that worker
      dequeues in between. */
  lemma {:induction false} CleanupRaceLoses(job: Job, w: WorkerId, t: nat)
    requires Due(job, t)
    ensures Leads(Start(t), UntilPushed(job, w, t) + [Send(0), Read(0)] + [Pop(w), Send(0)], Lost(job, w, t, Plain))
    ensures var s := Lost(job, w, t, Plain);
            job.id in s.q.data && !Located(s.q, job.id) && !PushDue(s, job.id)
  {
    var es := UntilPushed(job, w, t);
    ReachPushed(job, w, t);
    EndAndCount(job, w, t);
    Joined(Start(t), es, Pushed(job, w, t), [Send(0), Read(0)], Cleaning(job, w, t));
    CleanupDrops(job, w, t);
    Joined(Start(t), es + [Send(0), Read(0)], Cleaning(job, w, t), [Pop(w), Send(0)], Lost(job, w, t, Plain));
    LostIsLost(job, w, t, Plain);
  }

  /** The worker's late acknowledge has run between the reclaimer's read and its first command. */
  function Acknowledged(job: Job, w: WorkerId, t: nat): State {
    State(Queue(map[], map[job.priority := []], map[], map[], []), t + WINDOW_MS, {job.id},
          map[0 := Poised(job, w, t), 1 := Client(Plain, [], [], None)])
  }

  lemma {:induction false} LateAck(job: Job, w: WorkerId, t: nat)
    ensures Leads(Overdue(job, w, t, map[0 := Poised(job, w, t)]), [Answer(1, Acking(job.id, w)), Send(1), Send(1)],
                  Acknowledged(job, w, t))
  {
    var s, k, c0 := Overdue(job, w, t, map[0 := Poised(job, w, t)]), job.id, Poised(job, w, t);
    var cs := [Del(k), EndLease(w, k)];
    var a := s.(clients := map[0 := c0, 1 := Client(Plain, [], cs, None)]);
    var b := s.(q := s.q.(data := map[]), clients := map[0 := c0, 1 := Client(Plain, [], cs[1..], None)]);
    assert s.clients[1 := a.clients[1]] == a.clients;
    assert a.clients[1 := b.clients[1]] == b.clients && s.q.data - {k} == map[];
    assert b.clients[1 := Client(Plain, [], [], None)] == Acknowledged(job, w, t).clients;
    assert s.q.inflight - {Slot(w, k)} == map[] && cs[1..] == [EndLease(w, k)] && cs[1..][1..] == [];
    ThreeEvents(s, Answer(1, Acking(k, w)), a, Send(1), b, Send(1), Acknowledged(job, w, t));
  }

  /** What the reclaimer leaves behind that stops after its first command. */
  function Revived(job: Job, w: WorkerId, t: nat): State {
    State(Solo(Reclaimed(job, w, t), job.priority, [], map[]), t + WINDOW_MS, {job.id}, map[1 := Client(Plain, [], [], None)])
  }

  lemma {:induction false} StoreAndStop(job: Job, w: WorkerId, t: nat)
    ensures Leads(Acknowledged(job, w, t), [Send(0), Leave(0)], Revived(job, w, t))
  {
    var s, j := Acknowledged(job, w, t), Reclaimed(job, w, t);
    var m := Next(s, Send(0));
    assert map[][job.id := j] == map[job.id := j];
    assert m.clients - {0} == map[1 := Client(Plain, [], [], None)];
    TwoEvents(s, Send(0), m, Leave(0), Revived(job, w, t));
  }

  /** A reclaimer that reads the record, is overtaken by the worker's late acknowledge, and stops after
      storing leaves a record whose key is nowhere. */
  lemma {:induction false} StoppedReclaimLoses(job: Job, w: WorkerId, t: nat)
    requires Due(job, t)
    ensures Leads(Start(t),
                  UntilRead(job, w, t) + [Answer(1, Acking(job.id, w)), Send(1), Send(1)] + [Send(0), Leave(0)],
                  Revived(job, w, t))
    ensures var s := Revived(job, w, t);
            job.id in s.q.data && !Located(s.q, job.id) && !PushDue(s, job.id)
  {
    var es, fs := UntilRead(job, w, t), [Answer(1, Acking(job.id, w)), Send(1), Send(1)];
    ReachRead(job, w, t);
    LateAck(job, w, t);
    Joined(Start(t), es, Overdue(job, w, t, map[0 := Poised(job, w, t)]), fs, Acknowledged(job, w, t));
    StoreAndStop(job, w, t);
    Joined(Start(t), es + fs, Acknowledged(job, w, t), [Send(0), Leave(0)], Revived(job, w, t));
    SoloUnlocated(Reclaimed(job, w, t), job.priority);
  }

  // ---------------------------------------------------------------------------
  // A run that doubles a job
  // ---------------------------------------------------------------------------

  /** A reclaimer sends its three commands to a store that holds the record, whatever has become of the
      lease it read. */
  lemma {:induction false} ThreeSends(job: Job, w: WorkerId, t: nat, s: State, i: nat, d: Job, list: seq<JobId>,
                                      leases: map<Slot, int>)
    requires i in s.clients && s.clients[i] == Poised(job, w, t)
    requires d.id == job.id && s.q == Solo(d, job.priority, list, leases)
    ensures Leads(s, [Send(i), Send(i), Send(i)],
                  s.(q := Solo(Reclaimed(job, w, t), job.priority, [job.id] + list, leases - {Slot(w, job.id)}),
                     clients := s.clients[i := Client(Reclaimer(w), [], [], None)]))
  {
    var cs, j, p := ReclaimCommands(job, w, t), Reclaimed(job, w, t), job.priority;
    SoloApply(d, p, list, leases, j, w);
    SoloApply(j, p, list, leases, j, w);
    SoloApply(j, p, [job.id] + list, leases, j, w);
    var a := s.(q := Solo(j, p, list, leases),
                clients := s.clients[i := Client(Reclaimer(w), [], cs[1..], Some(job.id))]);
    var b := s.(q := Solo(j, p, [job.id] + list, leases),
                clients := s.clients[i := Client(Reclaimer(w), [], cs[2..], None)]);
    var c := s.(q := Solo(j, p, [job.id] + list, leases - {Slot(w, job.id)}),
                clients := s.clients[i := Client(Reclaimer(w), [], [], None)]);
    assert cs[1..][1..] == cs[2..] && cs[2..][1..] == [];
    assert a.clients[i := b.clients[i]] == b.clients && b.clients[i := c.clients[i]] == c.clients;
    assert Next(s, Send(i)) == a;
    assert Next(a, Send(i)) == b;
    ThreeEvents(s, Send(i), a, Send(i), b, Send(i), c);
  }

  function Twice(job: Job, w: WorkerId, t: nat): State {
    var done := Client(Reclaimer(w), [], [], None);
    State(Solo(Reclaimed(job, w, t), job.priority, [job.id, job.id], map[]), t + WINDOW_MS, {job.id}, map[0 := done, 1 := done])
  }

  lemma {:induction false} TwoReclaims(job: Job, w: WorkerId, t: nat, s: State)
    requires s == Overdue(job, w, t, map[0 := Poised(job, w, t)][1 := Poised(job, w, t)])
    ensures Leads(s, [Send(0), Send(0), Send(0)] + [Send(1), Send(1), Send(1)], Twice(job, w, t))
  {
    var p, j, slot := job.priority, Reclaimed(job, w, t), Slot(w, job.id);
    var leases := map[slot := t + LEASE_MS];
    var done := Client(Reclaimer(w), [], [], None);
    ThreeSends(job, w, t, s, 0, job, [], leases);
    assert leases - {slot} == map[] && [job.id] + [] == [job.id];
    var m := s.(q := Solo(j, p, [job.id], map[]), clients := s.clients[0 := done]);
    var none: map<Slot, int> := map[];
    ThreeSends(job, w, t, m, 1, j, [job.id], none);
    assert none - {slot} == none && [job.id] + [job.id] == [job.id, job.id];
    assert m.clients[1 := done] == Twice(job, w, t).clients;
    Joined(s, [Send(0), Send(0), Send(0)], m, [Send(1), Send(1), Send(1)], Twice(job, w, t));
  }

  /** Two reclaimers that read the same lease before either ends it push the key twice: from the empty
      store, any due new job waits twice. */
  lemma {:induction false} OverlappingReclaimsDouble(job: Job, w: WorkerId, t: nat)
    requires Due(job, t)
    ensures Leads(Start(t),
                  UntilRead(job, w, t) + [Scan(1, Reclaimer(w)), Read(1)]
                  + ([Send(0), Send(0), Send(0)] + [Send(1), Send(1), Send(1)]),
                  Twice(job, w, t))
    ensures Copies(Twice(job, w, t).q, Ready(job.priority), job.id) == 2 && !AtMostOnce(Twice(job, w, t).q, job.id)
  {
    var c := Poised(job, w, t);
    var es := UntilRead(job, w, t);
    var both := Overdue(job, w, t, map[0 := c][1 := c]);
    ReachRead(job, w, t);
    ScanAndRead(job, w, t, map[0 := c], 1);
    Joined(Start(t), es, Overdue(job, w, t, map[0 := c]), [Scan(1, Reclaimer(w)), Read(1)], both);
    TwoReclaims(job, w, t, both);
    Joined(Start(t), es + [Scan(1, Reclaimer(w)), Read(1)], both,
           [Send(0), Send(0), Send(0)] + [Send(1), Send(1), Send(1)], Twice(job, w, t));
    assert Copies(Twice(job, w, t).q, Ready(job.priority), job.id) == 2;
  }

  // ---------------------------------------------------------------------------
  // Two movers, as when one outlives its lock
  // ---------------------------------------------------------------------------

  /** The store with the one job delayed or pushed, at its due time. */
  function AtDueTime(job: Job, ready: map<int, seq<JobId>>, delayed: map<JobId, int>, cs: map<nat, Client>): State
    requires 0 <= job.scheduledAt
  {
    State(Queue(map[job.id := job], ready, delayed, map[], []), job.scheduledAt, {job.id}, cs)
  }

  function MoveCommands(job: Job): seq<Command> {
    [PushReady(job.priority, job.id), Undelay(job.id)]
  }

  /** A mover with its pipeline not yet sent. */
  function PoisedMover(job: Job, batch: int): Client {
    Client(Mover(batch), [], MoveCommands(job), None)
  }

  lemma {:induction false} ReachDue(job: Job, t: nat)
    requires IsNew(job) && t < job.scheduledAt
    ensures Leads(Start(t), [Submit(job), Tick(job.scheduledAt)],
                  AtDueTime(job, map[], map[job.id := job.scheduledAt], map[]))
  {
    var m := State(Queue(map[job.id := job], map[], map[job.id := job.scheduledAt], map[], []), t, {job.id}, map[]);
    assert EMPTY.data[job.id := job] == map[job.id := job];
    assert EMPTY.delayed[job.id := job.scheduledAt] == map[job.id := job.scheduledAt];
    assert Next(Start(t), Submit(job)) == m;
    TwoEvents(Start(t), Submit(job), m, Tick(job.scheduledAt),
              AtDueTime(job, map[], map[job.id := job.scheduledAt], map[]));
  }

  lemma {:induction false} DueListed(k: JobId, at: nat, batch: int, q: Queue)
    requires q.delayed == map[k := at]
    ensures DueKeys(q, batch, at) == [k]
  {
    assert Within(q.delayed, 0, at) == {k};
    RangeListing(q.delayed, 0, at);
    ListingUnique(q.delayed, {k}, RangeByScore(q.delayed, 0, at), [k]);
  }

  lemma {:induction false} ScanAndReadDue(job: Job, batch: int, cs: map<nat, Client>, i: nat, s: State, s': State)
    requires 0 <= job.scheduledAt && i !in cs
    requires s == AtDueTime(job, map[], map[job.id := job.scheduledAt], cs)
    requires s' == s.(clients := cs[i := PoisedMover(job, batch)])
    ensures Leads(s, [Scan(i, Mover(batch)), Read(i)], s')
  {
    var m := s.(clients := cs[i := Client(Mover(batch), [job.id], [], None)]);
    DueListed(job.id, job.scheduledAt, batch, s.q);
    assert Next(s, Scan(i, Mover(batch))) == m;
    assert [job.id][1..] == [] && [] + MoveCommands(job) == MoveCommands(job);
    assert AfterRead(m, m.clients[i]) == PoisedMover(job, batch);
    assert m.clients[i := PoisedMover(job, batch)] == s'.clients;
    TwoEvents(s, Scan(i, Mover(batch)), m, Read(i), s');
  }

  /** A mover sends its pipeline, whatever another has done to the key meanwhile. */
  lemma {:induction false} SendPipeline(job: Job, batch: int, s: State, i: nat, list: seq<JobId>, s': State)
    requires 0 <= job.scheduledAt && i in s.clients && s.clients[i] == PoisedMover(job, batch)
    requires List(s.q, job.priority) == list && s.q.ready.Keys <= {job.priority}
    requires s.q == AtDueTime(job, s.q.ready, s.q.delayed, map[]).q && s.q.delayed.Keys <= {job.id}
    requires s' == s.(q := AtDueTime(job, map[job.priority := [job.id] + list], map[], map[]).q,
                      clients := s.clients[i := Client(Mover(batch), [], [], None)])
    ensures Leads(s, [Send(i), Send(i)], s')
  {
    var cs, k, p := MoveCommands(job), job.id, job.priority;
    var m := s.(q := Push(s.q, p, k), clients := s.clients[i := Client(Mover(batch), [], cs[1..], None)]);
    assert Next(s, Send(i)) == m;
    assert m.q.ready == map[p := [k] + list] && m.q.delayed - {k} == map[];
    assert cs[1..] == [Undelay(k)] && cs[1..][1..] == [];
    assert m.clients[i := s'.clients[i]] == s'.clients;
    TwoEvents(s, Send(i), m, Send(i), s');
  }

  function MovedTwice(job: Job, batch: int): State
    requires 0 <= job.scheduledAt
  {
    var done := Client(Mover(batch), [], [], None);
    AtDueTime(job, map[job.priority := [job.id, job.id]], map[], map[0 := done, 1 := done])
  }

  lemma {:induction false} TwoPipelines(job: Job, batch: int, s: State)
    requires 0 <= job.scheduledAt
    requires s == AtDueTime(job, map[], map[job.id := job.scheduledAt],
                            map[0 := PoisedMover(job, batch)][1 := PoisedMover(job, batch)])
    ensures Leads(s, [Send(0), Send(0)] + [Send(1), Send(1)], MovedTwice(job, batch))
  {
    var k, p, done := job.id, job.priority, Client(Mover(batch), [], [], None);
    var m := s.(q := AtDueTime(job, map[p := [k]], map[], map[]).q, clients := s.clients[0 := done]);
    assert [k] + [] == [k] && [k] + [k] == [k, k];
    SendPipeline(job, batch, s, 0, [], m);
    assert m.clients[1 := done] == MovedTwice(job, batch).clients;
    SendPipeline(job, batch, m, 1, [k], MovedTwice(job, batch));
    Joined(s, [Send(0), Send(0)], m, [Send(1), Send(1)], MovedTwice(job, batch));
  }

  /** Two movers at once, which is what a lock that lapses within a tenure allows: from the empty store, any
      new job that was delayed waits twice. */
  lemma {:induction false} OverlappingMoversDouble(job: Job, batch: int, t: nat)
    requires IsNew(job) && t < job.scheduledAt
    ensures Leads(Start(t),
                  [Submit(job), Tick(job.scheduledAt)] + [Scan(0, Mover(batch)), Read(0)]
                  + [Scan(1, Mover(batch)), Read(1)] + ([Send(0), Send(0)] + [Send(1), Send(1)]),
                  MovedTwice(job, batch))
    ensures Copies(MovedTwice(job, batch).q, Ready(job.priority), job.id) == 2
  {
    var c, delayed := PoisedMover(job, batch), map[job.id := job.scheduledAt];
    var es := [Submit(job), Tick(job.scheduledAt)];
    var s0, s1 := AtDueTime(job, map[], delayed, map[]), AtDueTime(job, map[], delayed, map[0 := c]);
    var s2 := AtDueTime(job, map[], delayed, map[0 := c][1 := c]);
    ReachDue(job, t);
    assert s0.clients[0 := c] == s1.clients;
    ScanAndReadDue(job, batch, map[], 0, s0, s1);
    Joined(Start(t), es, s0, [Scan(0, Mover(batch)), Read(0)], s1);
    ScanAndReadDue(job, batch, map[0 := c], 1, s1, s2);
    Joined(Start(t), es + [Scan(0, Mover(batch)), Read(0)], s1, [Scan(1, Mover(batch)), Read(1)], s2);
    TwoPipelines(job, batch, s2);
    Joined(Start(t), es + [Scan(0, Mover(batch)), Read(0)] + [Scan(1, Mover(batch)), Read(1)], s2,
           [Send(0), Send(0)] + [Send(1), Send(1)], MovedTwice(job, batch));
  }
}
