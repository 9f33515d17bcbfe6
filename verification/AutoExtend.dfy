/** The managed lock: a ticker re-extends every third of the TTL until Release. */
module AutoExtend {
  import opened LockModel

  /** One tenure. Times are nanoseconds: `acquired` is when the acquire ran in Redis, `started` when the
      extender's ticker was created. The TTL is a whole number of milliseconds. */
  datatype Tenure = Tenure(key: string, token: Token, ttlMs: nat, acquired: int, started: int) {
    ghost predicate Valid() {
      1 <= ttlMs && acquired <= started
    }

    function Ttl(): int {
      ttlMs * 1_000_000
    }

    function Period(): int {
      Ttl() / 3
    }

    /** When tick `n` of the ticker fires. */
    function Fires(n: nat): int {
      started + n * Period()
    }
  }

  /** `tick` is the last tick whose Extend ran in Redis, at time `landed`; 0 stands for the acquire. */
  datatype Extender = Extender(locks: Locks, clock: int, tick: nat, landed: int)

  function ServerMs(ns: int): int {
    ns / 1_000_000
  }

  function Begin(t: Tenure, others: Locks): Extender {
    Extender(others[t.key := Held(t.token, ServerMs(t.acquired) + t.ttlMs)], t.acquired, 0, t.acquired)
  }

  datatype Event =
    | Other(cmd: Command)     // any other client, with any token but this one
    | Land(n: nat)            // this extender's Extend for tick n runs in Redis
    | Advance(now: int)

  /** Tick `n` can be the next one handled: a tick is dropped only while an earlier one still waits. */
  predicate CanFollow(t: Tenure, x: Extender, n: nat) {
    x.tick < n && (n == x.tick + 1 || t.Fires(n - 1) <= x.landed)
  }

  /** The acquire latency plus the delay of tick `n` is still below two thirds of the TTL. */
  predicate InTime(t: Tenure, n: nat, now: int) {
    3 * ((t.started - t.acquired) + (now - t.Fires(n))) < 2 * t.Ttl()
  }

  ghost predicate Enabled(t: Tenure, x: Extender, e: Event) {
    match e
    case Other(cmd) => cmd.token != t.token
    case Land(n) => CanFollow(t, x, n) && t.Fires(n) <= x.clock && InTime(t, n, x.clock)
    case Advance(now) => x.clock <= now && exists n: nat :: CanFollow(t, x, n) && InTime(t, n, now)
  }

  function Next(t: Tenure, x: Extender, e: Event): Extender {
    match e
    case Other(cmd) => x.(locks := Run(x.locks, ServerMs(x.clock), cmd).0)
    case Land(n) =>
      x.(locks := Run(x.locks, ServerMs(x.clock), Extend(t.key, t.token, t.ttlMs)).0, tick := n, landed := x.clock)
    case Advance(now) => x.(clock := now)
  }

  ghost predicate Legal(t: Tenure, x: Extender, es: seq<Event>)
    decreases |es|
  {
    es == [] || (Enabled(t, x, es[0]) && Legal(t, Next(t, x, es[0]), es[1..]))
  }

  function After(t: Tenure, x: Extender, es: seq<Event>): Extender
    decreases |es|
  {
    if es == [] then x else After(t, Next(t, x, es[0]), es[1..])
  }

  ghost predicate Inv(t: Tenure, x: Extender) {
    && t.key in x.locks && x.locks[t.key] == Held(t.token, ServerMs(x.landed) + t.ttlMs)
    && x.landed <= x.clock < x.landed + t.Ttl()
    && (if x.tick == 0 then x.landed == t.acquired else t.Fires(x.tick) <= x.landed)
  }

  lemma {:induction false} StillLive(t: Tenure, x: Extender)
    requires t.Valid() && Inv(t, x)
    ensures Holds(x.locks, ServerMs(x.clock), t.key, t.token)
  {
  }

  /** Whatever tick comes next, the time it may still take ends within one TTL of the last landing. */
  lemma {:induction false} NextTickBound(t: Tenure, x: Extender, n: nat, now: int)
    requires t.Valid() && Inv(t, x) && CanFollow(t, x, n) && InTime(t, n, now)
    ensures now < x.landed + t.Ttl()
  {
    var p := t.Period();
    assert 3 * p <= t.Ttl();
    assert n * p == (n - 1) * p + p;
  }

  lemma {:induction false} InvStep(t: Tenure, x: Extender, e: Event)
    requires t.Valid() && Inv(t, x) && Enabled(t, x, e)
    ensures Inv(t, Next(t, x, e))
  {
    StillLive(t, x);
    match e
    case Other(_) =>
    case Land(_) =>
    case Advance(now) =>
      var n: nat :| CanFollow(t, x, n) && InTime(t, n, now);
      NextTickBound(t, x, n, now);
  }

  lemma {:induction false} InvRun(t: Tenure, x: Extender, es: seq<Event>)
    requires t.Valid() && Inv(t, x) && Legal(t, x, es)
    ensures Inv(t, After(t, x, es))
    decreases |es|
  {
    if es != [] {
      InvStep(t, x, es[0]);
      InvRun(t, Next(t, x, es[0]), es[1..]);
    }
  }

  /** Auto-extension keeps the lock: as long as every tick reaches Redis in time, the key is held with
      this token at every moment of the tenure, for any number of ticks and whatever others send. */
  lemma {:induction false} LockIsKept(t: Tenure, others: Locks, es: seq<Event>)
    requires t.Valid() && Legal(t, Begin(t, others), es)
    ensures var x := After(t, Begin(t, others), es); Holds(x.locks, ServerMs(x.clock), t.key, t.token)
  {
    InvRun(t, Begin(t, others), es);
    StillLive(t, After(t, Begin(t, others), es));
  }
}
