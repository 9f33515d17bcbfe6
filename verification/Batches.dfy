/** The batch operations of the scheduler: one call is a run of single-key steps, a reclaim reaches
    every expired lease, and repeated moves drain the due jobs in order. */
module Batches {
  import opened Jobs
  import opened SortedSet
  import opened QueueModel
  import opened Protocol
  import opened ProtocolFrame
  import opened Delivery

  // ---------------------------------------------------------------------------
  // A batch is a run of steps
  // ---------------------------------------------------------------------------

  function MoveEvents(ks: seq<JobId>): seq<Event> {
    if ks == [] then [] else [Move(ks[0])] + MoveEvents(ks[1..])
  }

  lemma {:induction false} RunCons(w: World, e: Event, es: seq<Event>, rules: set<Rule>)
    requires Enabled(w, e) && (forall r <- rules :: Obeys(w, e, r)) && Legal(Next(w, e), es, rules)
    ensures Legal(w, [e] + es, rules) && After(w, [e] + es, rules) == After(Next(w, e), es, rules)
  {
    assert ([e] + es)[1..] == es;
  }

  lemma {:induction false} LegalAppend(w: World, a: seq<Event>, b: seq<Event>, rules: set<Rule>)
    requires Legal(w, a, rules) && Legal(After(w, a, rules), b, rules)
    ensures Legal(w, a + b, rules)
    decreases |a|
  {
    if a == [] {
      assert a + b == b;
    } else {
      assert (a + b)[0] == a[0] && (a + b)[1..] == a[1..] + b;
      LegalAppend(Next(w, a[0]), a[1..], b, rules);
    }
  }

  lemma {:induction false} AfterAppend(w: World, a: seq<Event>, b: seq<Event>, rules: set<Rule>)
    requires Legal(w, a, rules) && Legal(After(w, a, rules), b, rules) && Legal(w, a + b, rules)
    ensures After(w, a + b, rules) == After(After(w, a, rules), b, rules)
    decreases |a|
  {
    if a == [] {
      assert a + b == b;
    } else {
      assert (a + b)[0] == a[0] && (a + b)[1..] == a[1..] + b;
      AfterAppend(Next(w, a[0]), a[1..], b, rules);
    }
  }

  ghost predicate Movable(w: World, ks: seq<JobId>) {
    && (forall k <- ks :: k in w.q.delayed && 0 <= w.q.delayed[k] <= w.clock)
    && (forall i, j :: 0 <= i < j < |ks| ==> ks[i] != ks[j])
  }

  lemma {:induction false} MoveRun(w: World, ks: seq<JobId>, rules: set<Rule>)
    requires Movable(w, ks)
    ensures Legal(w, MoveEvents(ks), rules)
    ensures var w' := After(w, MoveEvents(ks), rules); w'.q == MoveKeys(w.q, ks) && w'.clock == w.clock
    decreases |ks|
  {
    if ks != [] {
      var w1 := Next(w, Move(ks[0]));
      forall k <- ks[1..]
        ensures k in w1.q.delayed && w1.q.delayed[k] == w.q.delayed[k]
      {
        var i :| 0 <= i < |ks[1..]| && ks[1..][i] == k;
        assert ks[i + 1] == k && ks[0] != ks[i + 1];
      }
      MoveRun(w1, ks[1..], rules);
      RunCons(w, Move(ks[0]), MoveEvents(ks[1..]), rules);
    }
  }

  lemma {:induction false} DueKeysMovable(w: World, batch: int)
    ensures Movable(w, DueKeys(w.q, batch, w.clock))
  {
    var all, ks := RangeByScore(w.q.delayed, 0, w.clock), DueKeys(w.q, batch, w.clock);
    RangeListing(w.q.delayed, 0, w.clock);
    assert forall i :: 0 <= i < |ks| ==> ks[i] == all[i];
    forall k <- ks
      ensures k in Within(w.q.delayed, 0, w.clock)
    {
      var i :| 0 <= i < |ks| && ks[i] == k;
      assert all[i] in all;
    }
  }

  /** One MoveDelayed call is a run of single-key moves, so whatever holds in every run holds around it. */
  lemma {:induction false} MoveDelayedIsRun(w: World, batch: int, rules: set<Rule>)
    ensures var es := MoveEvents(DueKeys(w.q, batch, w.clock));
            Legal(w, es, rules) && After(w, es, rules).q == MoveDelayed(w.q, batch, w.clock)
  {
    DueKeysMovable(w, batch);
    MoveRun(w, DueKeys(w.q, batch, w.clock), rules);
  }

  function ReclaimEvents(q: Queue, wk: WorkerId, ks: seq<JobId>, now: int): seq<Event>
    decreases |ks|
  {
    if ks == [] then []
    else
      var at := RetryTimeOf(q, ks[0], now);
      [Reclaim(wk, ks[0], at)] + ReclaimEvents(ReclaimOne(q, wk, ks[0], at), wk, ks[1..], now)
  }

  ghost predicate Reclaimable(w: World, wk: WorkerId, ks: seq<JobId>) {
    && (forall k <- ks :: Slot(wk, k) in w.q.inflight && 0 <= w.q.inflight[Slot(wk, k)] <= w.clock - MAX_AGE_MS)
    && (forall i, j :: 0 <= i < j < |ks| ==> ks[i] != ks[j])
  }

  lemma {:induction false} ReclaimableTail(w: World, wk: WorkerId, ks: seq<JobId>, at: int)
    requires Reclaimable(w, wk, ks) && ks != []
    ensures Enabled(w, Reclaim(wk, ks[0], at)) && Reclaimable(Next(w, Reclaim(wk, ks[0], at)), wk, ks[1..])
  {
    var w1 := Next(w, Reclaim(wk, ks[0], at));
    assert w1.q.inflight == w.q.inflight - {Slot(wk, ks[0])};
    forall k <- ks[1..]
      ensures k in ks && k != ks[0]
    {
      var i :| 0 <= i < |ks[1..]| && ks[1..][i] == k;
      assert ks[i + 1] == k && ks[0] != ks[i + 1];
    }
  }

  lemma {:induction false} ReclaimRun(w: World, wk: WorkerId, ks: seq<JobId>, rules: set<Rule>)
    requires Reclaimable(w, wk, ks) && NoReclaim !in rules
    ensures var es := ReclaimEvents(w.q, wk, ks, w.clock);
            && Legal(w, es, rules)
            && After(w, es, rules).q == ReclaimKeys(w.q, wk, ks, w.clock)
            && After(w, es, rules).clock == w.clock
    decreases |ks|
  {
    if ks != [] {
      var at := RetryTimeOf(w.q, ks[0], w.clock);
      var w1 := Next(w, Reclaim(wk, ks[0], at));
      ReclaimableTail(w, wk, ks, at);
      ReclaimRun(w1, wk, ks[1..], rules);
      RunCons(w, Reclaim(wk, ks[0], at), ReclaimEvents(w1.q, wk, ks[1..], w.clock), rules);
    }
  }

  /** One ReclaimOrphaned call is a run of single-lease reclaims, in whatever order SCAN delivers. */
  lemma {:induction false} ReclaimIsRun(w: World, scan: seq<WorkerId>, rules: set<Rule>) returns (es: seq<Event>)
    requires NoReclaim !in rules
    ensures Legal(w, es, rules)
    ensures After(w, es, rules).q == ReclaimOrphaned(w.q, scan, MAX_AGE_MS, w.clock)
    decreases |scan|
  {
    if scan == [] {
      es := [];
    } else {
      var ks := ExpiredKeys(w.q, scan[0], MAX_AGE_MS, w.clock);
      var first := ReclaimEvents(w.q, scan[0], ks, w.clock);
      RangeListing(InFlightOf(w.q, scan[0]), 0, w.clock - MAX_AGE_MS);
      ReclaimRun(w, scan[0], ks, rules);
      var rest := ReclaimIsRun(After(w, first, rules), scan[1..], rules);
      LegalAppend(w, first, rest, rules);
      AfterAppend(w, first, rest, rules);
      es := first + rest;
    }
  }

  // ---------------------------------------------------------------------------
  // Every expired lease comes back
  // ---------------------------------------------------------------------------

  ghost predicate InReady(q: Queue, k: JobId) {
    exists p :: k in List(q, p)
  }

  /** Reclaiming only ever adds to the ready lists and keeps every record. */
  ghost predicate Grows(q: Queue, q': Queue) {
    && q'.data.Keys == q.data.Keys && DataKeyed(q')
    && (forall p, k :: k in List(q, p) ==> k in List(q', p))
  }

  lemma {:induction false} ReclaimOneGrows(q: Queue, w: WorkerId, k: JobId, at: int)
    requires DataKeyed(q)
    ensures Grows(q, ReclaimOne(q, w, k, at))
    ensures ReclaimOne(q, w, k, at).inflight == q.inflight - {Slot(w, k)}
    ensures k in q.data ==> InReady(ReclaimOne(q, w, k, at), k)
  {
    if k in q.data {
      assert k in List(ReclaimOne(q, w, k, at), q.data[k].priority);
    }
  }

  lemma {:induction false} ReclaimKeysGrows(q: Queue, w: WorkerId, ks: seq<JobId>, now: int)
    requires DataKeyed(q)
    ensures Grows(q, ReclaimKeys(q, w, ks, now))
    ensures forall s :: s in ReclaimKeys(q, w, ks, now).inflight <==> s in q.inflight && !(s.worker == w && s.key in ks)
    ensures forall s <- ReclaimKeys(q, w, ks, now).inflight :: ReclaimKeys(q, w, ks, now).inflight[s] == q.inflight[s]
    ensures forall k <- ks :: k in q.data ==> InReady(ReclaimKeys(q, w, ks, now), k)
    decreases |ks|
  {
    if ks != [] {
      var q1 := ReclaimOne(q, w, ks[0], RetryTimeOf(q, ks[0], now));
      ReclaimOneGrows(q, w, ks[0], RetryTimeOf(q, ks[0], now));
      ReclaimKeysGrows(q1, w, ks[1..], now);
      var q' := ReclaimKeys(q1, w, ks[1..], now);
      assert forall k :: k in ks <==> k == ks[0] || k in ks[1..];
      if ks[0] in q.data {
        var p :| ks[0] in List(q1, p);
        assert ks[0] in List(q', p);
      }
    }
  }

  /** A reclaim at or after a lease's score plus maxAge returns the leased job to a ready list and ends
      the lease, whatever else it reclaims and in whatever order the workers are scanned. */
  lemma {:induction false} ReclaimReturns(q: Queue, scan: seq<WorkerId>, maxAge: int, now: int, w: WorkerId, k: JobId)
    requires DataKeyed(q) && k in q.data && Slot(w, k) in q.inflight && w in scan
    requires 0 <= q.inflight[Slot(w, k)] && q.inflight[Slot(w, k)] + maxAge <= now
    ensures InReady(ReclaimOrphaned(q, scan, maxAge, now), k)
    ensures Slot(w, k) !in ReclaimOrphaned(q, scan, maxAge, now).inflight
    decreases |scan|
  {
    var ks := ExpiredKeys(q, scan[0], maxAge, now);
    var q1 := ReclaimKeys(q, scan[0], ks, now);
    ReclaimKeysGrows(q, scan[0], ks, now);
    RangeListing(InFlightOf(q, scan[0]), 0, now - maxAge);
    if scan[0] == w {
      assert k in InFlightOf(q, w) && k in ks;
      StaysReady(q1, scan[1..], maxAge, now, w, k);
    } else {
      ReclaimReturns(q1, scan[1..], maxAge, now, w, k);
    }
  }

  lemma {:induction false} StaysReady(q: Queue, scan: seq<WorkerId>, maxAge: int, now: int, w: WorkerId, k: JobId)
    requires DataKeyed(q) && InReady(q, k) && Slot(w, k) !in q.inflight
    ensures InReady(ReclaimOrphaned(q, scan, maxAge, now), k)
    ensures Slot(w, k) !in ReclaimOrphaned(q, scan, maxAge, now).inflight
    decreases |scan|
  {
    if scan != [] {
      var ks := ExpiredKeys(q, scan[0], maxAge, now);
      ReclaimKeysGrows(q, scan[0], ks, now);
      var p :| k in List(q, p);
      assert k in List(ReclaimKeys(q, scan[0], ks, now), p);
      StaysReady(ReclaimKeys(q, scan[0], ks, now), scan[1..], maxAge, now, w, k);
    }
  }

  /** In every reachable state, crashes included, one reclaim at or after a lease's score plus two minutes
      puts its stored job back into a ready list. */
  lemma {:induction false} LeasedComesBack(t: nat, es: seq<Event>, rules: set<Rule>,
                                           w: WorkerId, k: JobId, scan: seq<WorkerId>, now: int)
    requires Legal(Start(t), es, rules)
    requires var q := After(Start(t), es, rules).q;
             && k in q.data && Slot(w, k) in q.inflight && w in scan
             && q.inflight[Slot(w, k)] + MAX_AGE_MS <= now
    ensures InReady(ReclaimOrphaned(After(Start(t), es, rules).q, scan, MAX_AGE_MS, now), k)
    ensures After(Start(t), es, rules).q.inflight[Slot(w, k)] <= After(Start(t), es, rules).clock + LEASE_MS
  {
    StartInv(t);
    InvRun(Start(t), es, rules);
    assert KeyInv(After(Start(t), es, rules), k);
    ReclaimReturns(After(Start(t), es, rules).q, scan, MAX_AGE_MS, now, w, k);
  }

  // ---------------------------------------------------------------------------
  // Draining the delayed set
  // ---------------------------------------------------------------------------

  /** The readable keys of `ks` with priority `p`, newest first: what a ready list receives. */
  function Arrivals(data: map<JobId, Job>, ks: seq<JobId>, p: int): seq<JobId> {
    if ks == [] then []
    else Arrivals(data, ks[1..], p) + (if ks[0] in data && data[ks[0]].priority == p then [ks[0]] else [])
  }

  lemma {:induction false} ArrivalsAppend(data: map<JobId, Job>, a: seq<JobId>, b: seq<JobId>, p: int)
    ensures Arrivals(data, a + b, p) == Arrivals(data, b, p) + Arrivals(data, a, p)
    decreases |a|
  {
    if a == [] {
      assert a + b == b;
    } else {
      assert (a + b)[1..] == a[1..] + b;
      ArrivalsAppend(data, a[1..], b, p);
    }
  }

  lemma {:induction false} MoveKeysEffect(q: Queue, ks: seq<JobId>)
    ensures var q' := MoveKeys(q, ks);
            && q'.data == q.data && q'.inflight == q.inflight && q'.dlq == q.dlq
            && q'.delayed == q.delayed - (set k <- ks)
    decreases |ks|
  {
    if ks != [] {
      MoveKeysEffect(MoveOne(q, ks[0]), ks[1..]);
      assert (set k <- ks) == {ks[0]} + (set k <- ks[1..]);
    }
  }

  lemma {:induction false} MoveKeysArrive(q: Queue, ks: seq<JobId>, p: int)
    ensures List(MoveKeys(q, ks), p) == Arrivals(q.data, ks, p) + List(q, p)
    decreases |ks|
  {
    if ks != [] {
      var q1 := MoveOne(q, ks[0]);
      var head := if ks[0] in q.data && q.data[ks[0]].priority == p then [ks[0]] else [];
      assert q1.data == q.data && List(q1, p) == head + List(q, p);
      MoveKeysArrive(q1, ks[1..], p);
      assert Arrivals(q.data, ks, p) == Arrivals(q.data, ks[1..], p) + head;
    }
  }

  function MoveTimes(q: Queue, batch: int, now: int, n: nat): Queue {
    if n == 0 then q else MoveDelayed(MoveTimes(q, batch, now, n - 1), batch, now)
  }

  function Min(a: nat, b: nat): nat {
    if a < b then a else b
  }

  /** `q'` is `q` with the first `m` due keys moved to their ready lists, in due-time order. */
  ghost predicate Moved(q: Queue, q': Queue, due: seq<JobId>, m: nat)
    requires m <= |due|
  {
    && q'.data == q.data
    && q'.delayed == q.delayed - (set k <- due[..m])
    && forall p :: List(q', p) == Arrivals(q.data, due[..m], p) + List(q, p)
  }

  lemma {:induction false} ArriveMore(q: Queue, q0: Queue, a: seq<JobId>, b: seq<JobId>, p: int)
    requires q0.data == q.data && List(q0, p) == Arrivals(q.data, a, p) + List(q, p)
    ensures List(MoveKeys(q0, b), p) == Arrivals(q.data, a + b, p) + List(q, p)
  {
    MoveKeysArrive(q0, b, p);
    ArrivalsAppend(q.data, a, b, p);
  }

  lemma {:induction false} MovedMore(q: Queue, q0: Queue, due: seq<JobId>, m0: nat, m: nat)
    requires m0 <= m <= |due| && Moved(q, q0, due, m0)
    ensures Moved(q, MoveKeys(q0, due[m0..m]), due, m)
  {
    var q', a, b := MoveKeys(q0, due[m0..m]), due[..m0], due[m0..m];
    MoveKeysEffect(q0, b);
    assert due[..m] == a + b;
    assert (set k <- due[..m]) == (set k <- a) + (set k <- b);
    assert q'.delayed == q.delayed - (set k <- due[..m]);
    forall p
      ensures List(q', p) == Arrivals(q.data, due[..m], p) + List(q, p)
    {
      ArriveMore(q, q0, a, b, p);
    }
  }

  /** How many of `l` due keys `n` calls take, call by call. */
  function Quota(n: nat, b: nat, l: nat): (m: nat)
    ensures m <= l
  {
    if n == 0 then 0 else Min(Quota(n - 1, b, l) + b, l)
  }

  lemma {:induction false} QuotaIsProduct(n: nat, b: nat, l: nat)
    ensures Quota(n, b, l) == Min(n * b, l)
  {
    if n > 0 {
      QuotaIsProduct(n - 1, b, l);
      assert n * b == (n - 1) * b + b;
      assert (n - 1) * b >= 0;
    }
  }

  lemma {:induction false} MovedNone(q: Queue, due: seq<JobId>)
    ensures Moved(q, q, due, 0) && due[0..] == due
  {
    assert due[..0] == [];
    assert (set k <- due[..0]) == {};
    forall p
      ensures List(q, p) == Arrivals(q.data, due[..0], p) + List(q, p)
    {
    }
  }

  /** Exactly the first `m` due keys moved, the others still listed. */
  ghost predicate DrainedTo(q: Queue, q': Queue, now: int, due: seq<JobId>, m: nat) {
    m <= |due| && Moved(q, q', due, m) && RangeByScore(q'.delayed, 0, now) == due[m..]
  }

  lemma {:induction false} DrainByCall(q: Queue, q': Queue, b: nat, now: int, n: nat, due: seq<JobId>)
    requires b >= 1 && due == RangeByScore(q.delayed, 0, now) && q' == MoveTimes(q, b, now, n)
    ensures DrainedTo(q, q', now, due, Quota(n, b, |due|))
    decreases n
  {
    if n == 0 {
      MovedNone(q, due);
    } else {
      var q0, m0, m := MoveTimes(q, b, now, n - 1), Quota(n - 1, b, |due|), Quota(n, b, |due|);
      assert q' == MoveDelayed(q0, b, now) && m == Min(m0 + b, |due|);
      DrainByCall(q, q0, b, now, n - 1, due);
      DrainCall(q, q0, q', b, now, due, m0, m);
    }
  }

  lemma {:induction false} DrainCall(q: Queue, q0: Queue, q': Queue, b: nat, now: int, due: seq<JobId>, m0: nat, m: nat)
    requires b >= 1 && due == RangeByScore(q.delayed, 0, now) && DrainedTo(q, q0, now, due, m0)
    requires q' == MoveDelayed(q0, b, now) && m == Min(m0 + b, |due|)
    ensures DrainedTo(q, q', now, due, m)
  {
    assert DueKeys(q0, b, now) == due[m0..m];
    MovedMore(q, q0, due, m0, m);
    RangeDrop(q.delayed, 0, now, m, q'.delayed);
  }

  /** `n` calls with batch size `b` move exactly the first n*b due keys, in due-time order. */
  lemma {:induction false} DrainProgress(q: Queue, b: nat, now: int, n: nat, due: seq<JobId>)
    requires b >= 1 && due == RangeByScore(q.delayed, 0, now)
    ensures DrainedTo(q, MoveTimes(q, b, now, n), now, due, Min(n * b, |due|))
  {
    DrainByCall(q, MoveTimes(q, b, now, n), b, now, n, due);
    QuotaIsProduct(n, b, |due|);
  }

  /** Repeated calls at a fixed time leave nothing due exactly from the ceil(n/b)-th call on. */
  lemma {:induction false} DrainedAfter(q: Queue, b: nat, now: int, calls: nat)
    requires b >= 1
    ensures var n := |RangeByScore(q.delayed, 0, now)|;
            RangeByScore(MoveTimes(q, b, now, calls).delayed, 0, now) == [] <==> calls >= (n + b - 1) / b
  {
    var due := RangeByScore(q.delayed, 0, now);
    DrainProgress(q, b, now, calls, due);
    CeilDiv(|due|, b, calls);
  }

  lemma {:induction false} CeilDiv(n: nat, b: nat, c: nat)
    requires b >= 1
    ensures c * b >= n <==> c >= (n + b - 1) / b
  {
    var d := (n + b - 1) / b;
    assert d * b <= n + b - 1 < d * b + b;
    if c >= d {
      assert c * b >= d * b;
    } else {
      assert (c + 1) * b <= d * b;
    }
  }
}
