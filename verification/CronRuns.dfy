/** Recurring definitions: registration, and the loop that fires a due definition and advances it. */
module CronRuns {
  import opened Jobs
  import opened Text
  import opened CronField
  import opened Calendar
  import opened Cron
  import CronWindow

  /** `next` is a minute number. */
  datatype Definition = Definition(expr: string, next: nat)

  /** An instance that was persisted and enqueued for `minute` by a tick that read the clock at `at`, after
      which the expression was parsed at minute `parsed`. */
  datatype Firing = Firing(id: JobId, minute: nat, at: nat, parsed: nat)

  /** History: the firings, and the minute at which each definition was registered. */
  datatype Crons = Crons(defs: map<JobId, Definition>, fired: seq<Firing>, registered: map<JobId, nat>)

  /** One definition's turn in a tick: the clock when ParseCron is called, and whether the store and the
      queue accepted the instance. */
  datatype Turn = Turn(id: JobId, later: nat, persisted: bool, enqueued: bool)

  predicate Due(d: Definition, now: nat) {
    d.next * MINUTE_NS < now
  }

  function Schedule(s: Crons, now: nat, t: Turn): Crons
    requires t.id in s.defs
  {
    var d := s.defs[t.id];
    if !t.persisted || !t.enqueued then s
    else
      var s1 := s.(fired := s.fired + [Firing(t.id, d.next, now, MinuteOf(t.later))]);
      match NextAfter(d.expr, MinuteOf(t.later))
      case NextRun(k) => s1.(defs := s.defs[t.id := d.(next := k)])
      case _ => s1
  }

  function TakeTurn(s: Crons, now: nat, t: Turn): Crons {
    if t.id in s.defs && Due(s.defs[t.id], now) then Schedule(s, now, t) else s
  }

  function TakeTurns(s: Crons, now: nat, ts: seq<Turn>): Crons
    decreases |ts|
  {
    if ts == [] then s else TakeTurns(TakeTurn(s, now, ts[0]), now, ts[1..])
  }

  /** What a caller asks to have registered. */
  datatype Request = Request(jobType: string, payload: string, priority: int, maxRetries: int, timeout: int, cron: string)

  function OptionsOf(req: Request): seq<JobOption> {
    [WithPriority(req.priority), WithMaxRetries(req.maxRetries), WithTimeout(req.timeout), WithCron(req.cron)]
  }

  predicate ValidRequest(req: Request) {
    req.cron != "" && ValidJob(req)
  }

  predicate ValidJob(req: Request) {
    req.jobType != "" && 0 <= req.priority <= 9 && 0 <= req.maxRetries <= 20 && 0 < req.timeout <= 3600000
  }

  /** `persisted` says whether the store accepted the definition's row. */
  function Register(s: Crons, id: JobId, req: Request, now: nat, persisted: bool): Crons {
    match NextAfter(req.cron, MinuteOf(now))
    case NextRun(k) =>
      if ValidRequest(req) && persisted
      then s.(defs := s.defs[id := Definition(req.cron, k)], registered := s.registered[id := MinuteOf(now)])
      else s
    case _ => s
  }

  /** Job validation accepts exactly the requests with a valid job, and the job carries the expression. */
  lemma {:induction false} RequestedJob(id: JobId, req: Request, now: int)
    ensures var job := Configured(Defaults(id, req.jobType, req.payload, now), OptionsOf(req));
            && (Validate(job) == None <==> ValidJob(req))
            && job.jobType == req.jobType && job.payload == req.payload && job.priority == req.priority
            && job.maxRetries == req.maxRetries && job.timeout == req.timeout && job.cron == req.cron
  {
    var opts, j := OptionsOf(req), Defaults(id, req.jobType, req.payload, now);
    assert Configured(j, opts[..0]) == j;
    assert opts[..1][..0] == opts[..0] && opts[..2][..1] == opts[..1] && opts[..3][..2] == opts[..2];
    assert Configured(j, opts[..1]) == j.(priority := req.priority);
    assert Configured(j, opts[..2]) == j.(priority := req.priority, maxRetries := req.maxRetries);
    assert Configured(j, opts[..3]) == j.(priority := req.priority, maxRetries := req.maxRetries, timeout := req.timeout);
  }

  /** `k` is a minute the expression matches. */
  ghost predicate Matches(expr: string, k: nat) {
    |Words(expr)| == 5 && Verdicts(Matcher(Words(expr)))(k) == Yes
  }

  /** `k` is the first matching minute after `m`, within the window. */
  ghost predicate FirstMatch(expr: string, m: nat, k: nat) {
    m < k <= m + WINDOW && Matches(expr, k) && forall x :: m < x < k ==> !Matches(expr, x)
  }

  lemma {:induction false} NextIsFirst(expr: string, m: nat, k: nat)
    requires NextAfter(expr, m) == NextRun(k)
    ensures FirstMatch(expr, m, k)
  {
    EarliestMatch(expr, m, k);
  }

  class Core {
    var cronJobs: map<JobId, Definition>
    ghost var fired: seq<Firing>
    ghost var registered: map<JobId, nat>

    ghost function Value(): Crons
      reads this
    {
      Crons(cronJobs, fired, registered)
    }

    constructor ()
      ensures Value() == Crons(map[], [], map[])
    {
      cronJobs := map[];
      fired := [];
      registered := map[];
    }

    /** Refused without an expression, then without a next run, then by job validation, then by the
        store; nothing is registered in any of these cases. */
    method RegisterCronJob(id: JobId, req: Request, now: nat, persisted: bool) returns (ok: bool)
      modifies this
      ensures Value() == Register(old(Value()), id, req, now, persisted)
      ensures ok <==> ValidRequest(req) && NextAfter(req.cron, MinuteOf(now)).NextRun? && persisted
      ensures !ok ==> Value() == old(Value())
      ensures ok ==> id in cronJobs && cronJobs[id].expr == req.cron
                     && FirstMatch(req.cron, MinuteOf(now), cronJobs[id].next)
    {
      if NextAfter(req.cron, MinuteOf(now)).NextRun? {
        NextIsFirst(req.cron, MinuteOf(now), NextAfter(req.cron, MinuteOf(now)).minute);
      }
      if req.cron == "" {
        return false;
      }
      var r := ParseCron(req.cron, now);
      if !r.NextRun? {
        return false;
      }
      var job := NewJob(id, req.jobType, req.payload, OptionsOf(req), now / 1_000_000);
      RequestedJob(id, req, now / 1_000_000);
      if job.Rejected? {
        return false;
      }
      if !persisted {
        return false;
      }
      cronJobs := cronJobs[id := Definition(req.cron, r.minute)];
      registered := registered[id := MinuteOf(now)];
      return true;
    }

    method ScheduleCronInstance(now: nat, t: Turn)
      requires t.id in cronJobs
      modifies this
      ensures Value() == Schedule(old(Value()), now, t)
      ensures t.id in cronJobs && cronJobs[t.id].expr == old(cronJobs)[t.id].expr
      ensures t.persisted && t.enqueued && NextAfter(old(cronJobs)[t.id].expr, MinuteOf(t.later)).NextRun? ==>
                FirstMatch(cronJobs[t.id].expr, MinuteOf(t.later), cronJobs[t.id].next)
    {
      var was := cronJobs[t.id];
      if NextAfter(was.expr, MinuteOf(t.later)).NextRun? {
        NextIsFirst(was.expr, MinuteOf(t.later), NextAfter(was.expr, MinuteOf(t.later)).minute);
      }
      if !t.persisted {
        return;
      }
      if !t.enqueued {
        return;
      }
      var d := cronJobs[t.id];
      fired := fired + [Firing(t.id, d.next, now, MinuteOf(t.later))];
      var r := ParseCron(d.expr, t.later);
      if r.NextRun? {
        cronJobs := cronJobs[t.id := d.(next := r.minute)];
      }
    }

    /** `ts` lists the definitions in the order the map is walked. */
    method ProcessCronJobs(now: nat, ts: seq<Turn>)
      modifies this
      ensures Value() == TakeTurns(old(Value()), now, ts)
    {
      for i := 0 to |ts|
        invariant TakeTurns(old(Value()), now, ts) == TakeTurns(Value(), now, ts[i..])
      {
        assert ts[i..][0] == ts[i] && ts[i..][1..] == ts[i + 1..];
        if ts[i].id in cronJobs && cronJobs[ts[i].id].next * MINUTE_NS < now {
          ScheduleCronInstance(now, ts[i]);
        }
      }
    }
  }

  // ---------------------------------------------------------------------------
  // Runs
  // ---------------------------------------------------------------------------

  datatype Event =
    | Add(id: JobId, req: Request, now: nat, persisted: bool)
    | Tick(now: nat, turns: seq<Turn>)

  /** Every search window holds a match. */
  ghost predicate Recurs(expr: string) {
    forall m: nat :: NextAfter(expr, m).NextRun?
  }

  /** Fresh ids, schedules that recur, and a clock that does not run backwards. */
  ghost predicate Allowed(s: Crons, e: Event) {
    match e
    case Add(id, req, _, _) => id !in s.defs && Recurs(req.cron)
    case Tick(now, turns) => forall t <- turns :: now <= t.later
  }

  function Step(s: Crons, e: Event): Crons {
    match e
    case Add(id, req, now, persisted) => Register(s, id, req, now, persisted)
    case Tick(now, turns) => TakeTurns(s, now, turns)
  }

  ghost predicate Legal(s: Crons, es: seq<Event>)
    decreases |es|
  {
    es == [] || (Allowed(s, es[0]) && Legal(Step(s, es[0]), es[1..]))
  }

  function After(s: Crons, es: seq<Event>): Crons
    decreases |es|
  {
    if es == [] then s else After(Step(s, es[0]), es[1..])
  }

  /** The minute at which the definition's expression was last parsed before firing `n`: by the firing before,
      or at its registration in minute `start`. */
  function ParsedBefore(fired: seq<Firing>, n: nat, id: JobId, start: nat): nat
    requires n <= |fired|
  {
    if n == 0 then start
    else if fired[n - 1].id == id then fired[n - 1].parsed
    else ParsedBefore(fired, n - 1, id, start)
  }

  ghost predicate DefinitionOk(s: Crons, id: JobId) {
    id in s.defs ==>
      && Recurs(s.defs[id].expr) && id in s.registered
      && FirstMatch(s.defs[id].expr, ParsedBefore(s.fired, |s.fired|, id, s.registered[id]), s.defs[id].next)
  }

  ghost predicate FiringOk(s: Crons, i: nat)
    requires i < |s.fired|
  {
    var f := s.fired[i];
    && f.id in s.defs && f.id in s.registered && f.minute < s.defs[f.id].next
    && FirstMatch(s.defs[f.id].expr, ParsedBefore(s.fired, i, f.id, s.registered[f.id]), f.minute)
    && f.minute * MINUTE_NS < f.at
  }

  /** Firings of one definition are for ever later minutes. */
  ghost predicate Increasing(fired: seq<Firing>) {
    forall i, j :: 0 <= i < j < |fired| && fired[i].id == fired[j].id ==> fired[i].minute < fired[j].minute
  }

  ghost predicate Inv(s: Crons) {
    && (forall id :: DefinitionOk(s, id))
    && (forall i :: 0 <= i < |s.fired| ==> FiringOk(s, i))
    && Increasing(s.fired)
  }

  lemma {:induction false} DueIsPast(d: Definition, now: nat, later: nat)
    requires Due(d, now) && now <= later
    ensures d.next <= MinuteOf(later)
  {
  }

  lemma {:induction false} TurnAdvances(s: Crons, now: nat, t: Turn) returns (k: nat)
    requires t.id in s.defs && DefinitionOk(s, t.id) && Due(s.defs[t.id], now)
    requires t.persisted && t.enqueued && now <= t.later
    ensures var d := s.defs[t.id];
            && Schedule(s, now, t)
               == s.(defs := s.defs[t.id := d.(next := k)],
                     fired := s.fired + [Firing(t.id, d.next, now, MinuteOf(t.later))])
            && d.next <= MinuteOf(t.later) && FirstMatch(d.expr, MinuteOf(t.later), k)
  {
    var d := s.defs[t.id];
    assert NextAfter(d.expr, MinuteOf(t.later)).NextRun?;
    k := NextAfter(d.expr, MinuteOf(t.later)).minute;
    NextIsFirst(d.expr, MinuteOf(t.later), k);
    DueIsPast(d, now, t.later);
  }

  lemma {:induction false} ParsedPrefix(fired: seq<Firing>, more: seq<Firing>, n: nat, id: JobId, start: nat)
    requires n <= |fired|
    ensures ParsedBefore(fired + more, n, id, start) == ParsedBefore(fired, n, id, start)
  {
    if n > 0 {
      ParsedPrefix(fired, more, n - 1, id, start);
    }
  }

  lemma {:induction false} AdvanceKeeps(s: Crons, s': Crons, id: JobId, k: nat, at: nat, parsed: nat)
    requires Inv(s) && id in s.defs && s.defs[id].next <= parsed && FirstMatch(s.defs[id].expr, parsed, k)
    requires s.defs[id].next * MINUTE_NS < at
    requires s' == s.(defs := s.defs[id := s.defs[id].(next := k)],
                      fired := s.fired + [Firing(id, s.defs[id].next, at, parsed)])
    ensures Inv(s')
  {
    var n, more := |s.fired|, [Firing(id, s.defs[id].next, at, parsed)];
    assert DefinitionOk(s, id);
    forall j
      ensures DefinitionOk(s', j)
    {
      assert DefinitionOk(s, j);
      if j in s.defs {
        ParsedPrefix(s.fired, more, n, j, s.registered[j]);
      }
    }
    forall i | 0 <= i <= n
      ensures FiringOk(s', i)
    {
      if i < n {
        assert FiringOk(s, i) && s'.fired[i] == s.fired[i];
        ParsedPrefix(s.fired, more, i, s.fired[i].id, s.registered[s.fired[i].id]);
      } else {
        ParsedPrefix(s.fired, more, n, id, s.registered[id]);
      }
    }
    forall i | 0 <= i < n && s.fired[i].id == id
      ensures s.fired[i].minute < s.defs[id].next
    {
      assert FiringOk(s, i);
    }
  }

  lemma {:induction false} TurnsKeep(s: Crons, now: nat, ts: seq<Turn>)
    requires Inv(s) && forall t <- ts :: now <= t.later
    ensures Inv(TakeTurns(s, now, ts))
    decreases |ts|
  {
    if ts != [] {
      var t := ts[0];
      assert t in ts && forall u <- ts[1..] :: u in ts;
      if t.id in s.defs && Due(s.defs[t.id], now) && t.persisted && t.enqueued {
        assert DefinitionOk(s, t.id);
        var k := TurnAdvances(s, now, t);
        AdvanceKeeps(s, Schedule(s, now, t), t.id, k, now, MinuteOf(t.later));
      }
      TurnsKeep(TakeTurn(s, now, t), now, ts[1..]);
    }
  }

  lemma {:induction false} NeverFired(s: Crons, n: nat, id: JobId, start: nat)
    requires Inv(s) && id !in s.defs && n <= |s.fired|
    ensures ParsedBefore(s.fired, n, id, start) == start
  {
    if n > 0 {
      assert FiringOk(s, n - 1);
      NeverFired(s, n - 1, id, start);
    }
  }

  lemma {:induction false} AddKeeps(s: Crons, id: JobId, req: Request, now: nat, persisted: bool)
    requires Inv(s) && id !in s.defs && Recurs(req.cron)
    ensures Inv(Register(s, id, req, now, persisted))
  {
    var s' := Register(s, id, req, now, persisted);
    if s' != s {
      var k := NextAfter(req.cron, MinuteOf(now)).minute;
      NextIsFirst(req.cron, MinuteOf(now), k);
      assert s' == s.(defs := s.defs[id := Definition(req.cron, k)], registered := s.registered[id := MinuteOf(now)]);
      NeverFired(s, |s.fired|, id, MinuteOf(now));
      forall j
        ensures DefinitionOk(s', j)
      {
        assert DefinitionOk(s, j);
      }
      forall i | 0 <= i < |s'.fired|
        ensures FiringOk(s', i)
      {
        assert FiringOk(s, i) && s.fired[i].id != id;
      }
    }
  }

  lemma {:induction false} InvRun(s: Crons, es: seq<Event>)
    requires Inv(s) && Legal(s, es)
    ensures Inv(After(s, es))
    decreases |es|
  {
    if es != [] {
      match es[0] {
        case Add(id, req, now, persisted) => AddKeeps(s, id, req, now, persisted);
        case Tick(now, turns) => TurnsKeep(s, now, turns);
      }
      InvRun(Step(s, es[0]), es[1..]);
    }
  }

  /** Over every run: each definition's next run is a minute its expression matches; its instances are for
      strictly increasing minutes, so at most one per minute, each a matching one and fired only after it. */
  lemma {:induction false} InstancesOncePerMinute(es: seq<Event>)
    requires Legal(Crons(map[], [], map[]), es)
    ensures var s := After(Crons(map[], [], map[]), es);
            && (forall id <- s.defs :: Matches(s.defs[id].expr, s.defs[id].next))
            && Increasing(s.fired)
            && forall i :: 0 <= i < |s.fired| ==>
                 var f := s.fired[i];
                 f.id in s.defs && Matches(s.defs[f.id].expr, f.minute) && f.minute * MINUTE_NS < f.at
  {
    InvRun(Crons(map[], [], map[]), es);
    var s := After(Crons(map[], [], map[]), es);
    forall id <- s.defs
      ensures Matches(s.defs[id].expr, s.defs[id].next)
    {
      assert DefinitionOk(s, id);
    }
    forall i | 0 <= i < |s.fired|
      ensures var f := s.fired[i];
              f.id in s.defs && Matches(s.defs[f.id].expr, f.minute) && f.minute * MINUTE_NS < f.at
    {
      assert FiringOk(s, i);
    }
  }

  /** And none is skipped: every instance is for the first matching minute after the one at which the
      expression was last parsed before, by the firing before it or at the registration; so is the next run
      of every definition. */
  lemma {:induction false} NoneSkipped(es: seq<Event>)
    requires Legal(Crons(map[], [], map[]), es)
    ensures var s := After(Crons(map[], [], map[]), es);
            && (forall i :: 0 <= i < |s.fired| ==>
                 var f := s.fired[i];
                 f.id in s.defs && f.id in s.registered
                 && FirstMatch(s.defs[f.id].expr, ParsedBefore(s.fired, i, f.id, s.registered[f.id]), f.minute))
            && (forall id <- s.defs ::
                  id in s.registered
                  && FirstMatch(s.defs[id].expr, ParsedBefore(s.fired, |s.fired|, id, s.registered[id]), s.defs[id].next))
  {
    InvRun(Crons(map[], [], map[]), es);
    var s := After(Crons(map[], [], map[]), es);
    forall i | 0 <= i < |s.fired|
      ensures var f := s.fired[i];
              && f.id in s.defs && f.id in s.registered
              && FirstMatch(s.defs[f.id].expr, ParsedBefore(s.fired, i, f.id, s.registered[f.id]), f.minute)
    {
      assert FiringOk(s, i);
    }
    forall id <- s.defs
      ensures id in s.registered
      ensures FirstMatch(s.defs[id].expr, ParsedBefore(s.fired, |s.fired|, id, s.registered[id]), s.defs[id].next)
    {
      assert DefinitionOk(s, id);
    }
  }

  /** In particular no matching minute lies between the parse of one firing and the minute of the next. */
  lemma {:induction false} NoneBetweenFirings(es: seq<Event>, i: nat, j: nat, x: nat)
    requires Legal(Crons(map[], [], map[]), es)
    requires var s := After(Crons(map[], [], map[]), es);
             && i < j < |s.fired| && s.fired[i].id == s.fired[j].id
             && (forall n :: i < n < j ==> s.fired[n].id != s.fired[j].id)
             && s.fired[i].parsed < x < s.fired[j].minute
    ensures var s := After(Crons(map[], [], map[]), es);
            s.fired[j].id in s.defs && !Matches(s.defs[s.fired[j].id].expr, x)
  {
    NoneSkipped(es);
    var s := After(Crons(map[], [], map[]), es);
    LastParse(s.fired, i, j, s.registered[s.fired[j].id]);
  }

  lemma {:induction false} LastParse(fired: seq<Firing>, i: nat, j: nat, start: nat)
    requires i < j <= |fired| && forall n :: i < n < j ==> fired[n].id != fired[i].id
    ensures ParsedBefore(fired, j, fired[i].id, start) == fired[i].parsed
    decreases j
  {
    if i + 1 < j {
      LastParse(fired, i, j - 1, start);
    }
  }

  /** `s'` has fired `id` and moved its next run forward, or left both alone. */
  ghost predicate Grown(s: Crons, s': Crons, id: JobId) {
    && id in s.defs && id in s'.defs && s'.defs[id].expr == s.defs[id].expr && s.fired <= s'.fired
    && (if exists i :: |s.fired| <= i < |s'.fired| && s'.fired[i].id == id
        then s.defs[id].next < s'.defs[id].next
        else s.defs[id] == s'.defs[id])
  }

  lemma {:induction false} GrownThen(a: Crons, b: Crons, c: Crons, id: JobId)
    requires Grown(a, b, id) && Grown(b, c, id)
    ensures Grown(a, c, id)
  {
    assert forall i :: |a.fired| <= i < |b.fired| ==> c.fired[i] == b.fired[i];
    if i :| |b.fired| <= i < |c.fired| && c.fired[i].id == id {
      assert |a.fired| <= i < |c.fired| && c.fired[i].id == id;
    }
    if i :| |a.fired| <= i < |b.fired| && b.fired[i].id == id {
      assert |a.fired| <= i < |c.fired| && c.fired[i].id == id;
    }
  }

  lemma {:induction false} TurnGrows(s: Crons, now: nat, t: Turn, id: JobId)
    requires Inv(s) && id in s.defs && now <= t.later
    ensures Inv(TakeTurn(s, now, t)) && Grown(s, TakeTurn(s, now, t), id)
  {
    if t.id in s.defs && Due(s.defs[t.id], now) && t.persisted && t.enqueued {
      assert DefinitionOk(s, t.id);
      var k := TurnAdvances(s, now, t);
      var s' := Schedule(s, now, t);
      AdvanceKeeps(s, s', t.id, k, now, MinuteOf(t.later));
      assert s'.fired[|s.fired|].id == t.id;
    }
  }

  lemma {:induction false} TurnsGrow(s: Crons, now: nat, ts: seq<Turn>, id: JobId)
    requires Inv(s) && id in s.defs && forall t <- ts :: now <= t.later
    ensures Grown(s, TakeTurns(s, now, ts), id)
    decreases |ts|
  {
    if ts != [] {
      assert ts[0] in ts && forall u <- ts[1..] :: u in ts;
      var s1 := TakeTurn(s, now, ts[0]);
      TurnGrows(s, now, ts[0], id);
      TurnsGrow(s1, now, ts[1..], id);
      GrownThen(s, s1, TakeTurns(s1, now, ts[1..]), id);
    }
  }

  /** Over every stretch of a run a definition's next run strictly increases if it fired in it, and stays
      as it is otherwise. */
  lemma {:induction false} NextRunIncreases(s: Crons, es: seq<Event>, id: JobId)
    requires Inv(s) && Legal(s, es) && id in s.defs
    ensures Grown(s, After(s, es), id)
    decreases |es|
  {
    if es != [] {
      var s1 := Step(s, es[0]);
      match es[0] {
        case Add(added, req, now, persisted) =>
          AddKeeps(s, added, req, now, persisted);
          assert Grown(s, s1, id);
        case Tick(now, turns) =>
          TurnsKeep(s, now, turns);
          TurnsGrow(s, now, turns, id);
      }
      NextRunIncreases(s1, es[1..], id);
      GrownThen(s, s1, After(s1, es[1..]), id);
    }
  }

  /** Such schedules exist: every date that occurs each year recurs. */
  lemma {:induction false} YearlyRecurs(c: CronWindow.Date)
    requires c.EveryYear()
    ensures Recurs(CronWindow.Expression(c.Fields()))
  {
    forall m: nat
      ensures NextAfter(CronWindow.Expression(c.Fields()), m).NextRun?
    {
      CronWindow.YearlyAlwaysFound(c, m);
    }
  }

  function FiringsOf(fired: seq<Firing>, id: JobId): seq<Firing> {
    if fired == [] then []
    else FiringsOf(fired[..|fired| - 1], id) + (if fired[|fired| - 1].id == id then [fired[|fired| - 1]] else [])
  }

  lemma {:induction false} FiringsAppend(fired: seq<Firing>, f: Firing, id: JobId)
    ensures FiringsOf(fired + [f], id) == FiringsOf(fired, id) + if f.id == id then [f] else []
  {
    assert (fired + [f])[..|fired|] == fired;
  }

  /** Two histories that are the same for one definition. */
  predicate SameFor(s: Crons, s': Crons, id: JobId) {
    && (id in s.defs <==> id in s'.defs) && (id in s.defs ==> s.defs[id] == s'.defs[id])
    && FiringsOf(s.fired, id) == FiringsOf(s'.fired, id)
  }

  lemma {:induction false} OtherTurn(s: Crons, now: nat, t: Turn, id: JobId)
    requires t.id != id
    ensures SameFor(s, TakeTurn(s, now, t), id)
  {
    if t.id in s.defs {
      FiringsAppend(s.fired, Firing(t.id, s.defs[t.id].next, now, MinuteOf(t.later)), id);
      assert FiringsOf(s.fired, id) + [] == FiringsOf(s.fired, id);
    }
  }

  lemma {:induction false} SameTurn(s: Crons, s': Crons, now: nat, t: Turn)
    requires SameFor(s, s', t.id)
    ensures SameFor(TakeTurn(s, now, t), TakeTurn(s', now, t), t.id)
  {
    if t.id in s.defs {
      FiringsAppend(s.fired, Firing(t.id, s.defs[t.id].next, now, MinuteOf(t.later)), t.id);
      FiringsAppend(s'.fired, Firing(t.id, s.defs[t.id].next, now, MinuteOf(t.later)), t.id);
    }
  }

  lemma {:induction false} NoTurn(s: Crons, now: nat, ts: seq<Turn>, id: JobId)
    requires forall t <- ts :: t.id != id
    ensures SameFor(s, TakeTurns(s, now, ts), id)
    decreases |ts|
  {
    if ts != [] {
      assert ts[0] in ts && forall t <- ts[1..] :: t in ts;
      OtherTurn(s, now, ts[0], id);
      NoTurn(TakeTurn(s, now, ts[0]), now, ts[1..], id);
    }
  }

  /** One tick gives every definition its turn, in whatever order the map is walked: what becomes of it is
      what its own turn makes of it, and definitions without a turn stay as they are. */
  lemma {:induction false} EveryTurnTaken(s: Crons, now: nat, ts: seq<Turn>, i: nat)
    requires i < |ts| && forall a, b :: 0 <= a < b < |ts| ==> ts[a].id != ts[b].id
    ensures SameFor(TakeTurn(s, now, ts[i]), TakeTurns(s, now, ts), ts[i].id)
    decreases |ts|
  {
    var t, s1 := ts[i], TakeTurn(s, now, ts[0]);
    assert forall a :: 0 <= a < |ts[1..]| ==> ts[1..][a] == ts[a + 1];
    if i == 0 {
      NoTurn(s1, now, ts[1..], t.id);
    } else {
      EveryTurnTaken(s1, now, ts[1..], i - 1);
      OtherTurn(s, now, ts[0], t.id);
      SameTurn(s, s1, now, t);
    }
  }

  /** A turn fires exactly when the definition's minute has passed and both calls succeed, and then for that
      minute. */
  lemma {:induction false} TurnFiresIff(s: Crons, now: nat, t: Turn)
    requires t.id in s.defs
    ensures var fired := TakeTurn(s, now, t).fired;
            && (fired != s.fired <==> s.defs[t.id].next * MINUTE_NS < now && t.persisted && t.enqueued)
            && (fired != s.fired ==>
                  && |fired| == |s.fired| + 1 && fired[..|s.fired|] == s.fired
                  && fired[|s.fired|].id == t.id && fired[|s.fired|].minute == s.defs[t.id].next)
  {
    var fired := TakeTurn(s, now, t).fired;
    assert fired == s.fired || |fired| == |s.fired| + 1;
  }

  /** A definition advances exactly when ParseCron succeeds after its instance was enqueued. */
  lemma {:induction false} AdvancesIffParsed(s: Crons, now: nat, t: Turn)
    requires t.id in s.defs && Due(s.defs[t.id], now) && t.persisted && t.enqueued && now <= t.later
    ensures TakeTurn(s, now, t).defs != s.defs <==> NextAfter(s.defs[t.id].expr, MinuteOf(t.later)).NextRun?
  {
    var d := s.defs[t.id];
    if NextAfter(d.expr, MinuteOf(t.later)).NextRun? {
      NextIsFirst(d.expr, MinuteOf(t.later), NextAfter(d.expr, MinuteOf(t.later)).minute);
      DueIsPast(d, now, t.later);
    }
  }

  /** A tick that reaches one definition: the clock it read, and the clock when it parses again. */
  datatype Poll = Poll(now: nat, later: nat)

  function Polls(id: JobId, ps: seq<Poll>): seq<Event> {
    seq(|ps|, (i: nat) requires i < |ps| => Tick(ps[i].now, [Turn(id, ps[i].later, true, true)]))
  }

  /** One firing per poll, all for the same minute. */
  function Repeats(id: JobId, minute: nat, ps: seq<Poll>): seq<Firing> {
    seq(|ps|, (i: nat) requires i < |ps| => Firing(id, minute, ps[i].now, MinuteOf(ps[i].later)))
  }

  /** A definition whose expression no longer parses fires again, for the same minute, on every tick. */
  lemma {:induction false} StuckFiresEveryTick(s: Crons, id: JobId, ps: seq<Poll>)
    requires id in s.defs
    requires forall p <- ps :: Due(s.defs[id], p.now) && !NextAfter(s.defs[id].expr, MinuteOf(p.later)).NextRun?
    ensures After(s, Polls(id, ps)) == s.(fired := s.fired + Repeats(id, s.defs[id].next, ps))
    decreases |ps|
  {
    var es := Polls(id, ps);
    if ps == [] {
      assert s.fired + Repeats(id, s.defs[id].next, ps) == s.fired;
    } else {
      var d, t := s.defs[id], Turn(id, ps[0].later, true, true);
      var s1 := s.(fired := s.fired + [Firing(id, d.next, ps[0].now, MinuteOf(ps[0].later))]);
      assert ps[0] in ps && forall p <- ps[1..] :: p in ps;
      assert [t][1..] == [];
      assert TakeTurns(s1, ps[0].now, []) == s1;
      assert Step(s, es[0]) == s1;
      StuckFiresEveryTick(s1, id, ps[1..]);
      assert es[1..] == Polls(id, ps[1..]);
      assert s1.fired + Repeats(id, d.next, ps[1..]) == s.fired + Repeats(id, d.next, ps);
    }
  }
}
