/** What one call of a batch operation leaves behind, for every scan order: the whole store and the count
    it returns. */
module Effects {
  import opened Jobs
  import opened SortedSet
  import opened QueueModel
  import opened Pipeline

  // ---------------------------------------------------------------------------
  // Reclaiming
  // ---------------------------------------------------------------------------

  function LeasesOf(leases: set<Slot>, k: JobId): set<Slot> {
    set s | s in leases && s.key == k
  }

  /** The record of a job of which `n` leases were reclaimed at `now`: `n` more retries, and if there was any,
      pending, without worker, due when the new count says; nothing else is different. */
  ghost predicate Returned(was: Job, got: Job, n: nat, now: int) {
    && SameTask(got, was) && got.errorMessage == was.errorMessage && got.retryCount == was.retryCount + n
    && if n == 0 then got == was
       else got.status == Pending && got.workerId == ""
            && got.scheduledAt == now + NextRetryDelay(was.id, was.retryCount + n) / 1_000_000
  }

  ghost predicate RecordsReturned(q: Queue, q': Queue, leases: set<Slot>, now: int) {
    && q'.data.Keys == q.data.Keys
    && forall k <- q.data :: Returned(q.data[k], q'.data[k], |LeasesOf(leases, k)|, now)
  }

  function ReadyAgain(q: Queue, leases: set<Slot>, p: int, k: JobId): nat {
    if k in q.data && q.data[k].priority == p then |LeasesOf(leases, k)| else 0
  }

  ghost predicate ReadyGains(q: Queue, q': Queue, leases: set<Slot>) {
    forall p, k :: Copies(q', Ready(p), k) == Copies(q, Ready(p), k) + ReadyAgain(q, leases, p, k)
  }

  /** `q'` is `q` after these leases were reclaimed: they are gone, and each job with data waits once more
      per lease, with its record changed accordingly. */
  ghost predicate Reclaims(q: Queue, q': Queue, leases: set<Slot>, now: int) {
    && leases <= q.inflight.Keys && q'.inflight == q.inflight - leases
    && q'.delayed == q.delayed && q'.dlq == q.dlq
    && RecordsReturned(q, q', leases, now) && ReadyGains(q, q', leases)
  }

  /** The leases whose job still has data. */
  function WithData(q: Queue, leases: set<Slot>): set<Slot> {
    set s | s in leases && s.key in q.data
  }

  lemma {:induction false} ReclaimsKeyed(q: Queue, q': Queue, leases: set<Slot>, now: int)
    requires Reclaims(q, q', leases, now) && DataKeyed(q)
    ensures DataKeyed(q')
  {
    forall k <- q'.data
      ensures q'.data[k].id == k
    {
      assert Returned(q.data[k], q'.data[k], |LeasesOf(leases, k)|, now);
    }
  }

  lemma {:induction false} LeasesJoin(a: set<Slot>, b: set<Slot>, k: JobId)
    requires a !! b
    ensures |LeasesOf(a + b, k)| == |LeasesOf(a, k)| + |LeasesOf(b, k)|
  {
    assert LeasesOf(a + b, k) == LeasesOf(a, k) + LeasesOf(b, k);
  }

  lemma {:induction false} RecordsJoin(q: Queue, a: set<Slot>, q1: Queue, b: set<Slot>, q2: Queue, now: int)
    requires a !! b && RecordsReturned(q, q1, a, now) && RecordsReturned(q1, q2, b, now)
    ensures RecordsReturned(q, q2, a + b, now)
  {
    forall k <- q.data
      ensures Returned(q.data[k], q2.data[k], |LeasesOf(a + b, k)|, now)
    {
      LeasesJoin(a, b, k);
      ReturnedTwice(q.data[k], q1.data[k], q2.data[k], |LeasesOf(a, k)|, |LeasesOf(b, k)|, now);
    }
  }

  lemma {:induction false} ReturnedTwice(was: Job, mid: Job, got: Job, n: nat, m: nat, now: int)
    requires Returned(was, mid, n, now) && Returned(mid, got, m, now)
    ensures Returned(was, got, n + m, now)
  {
  }

  lemma {:induction false} ReadyJoin(q: Queue, a: set<Slot>, q1: Queue, b: set<Slot>, q2: Queue, now: int)
    requires a !! b && RecordsReturned(q, q1, a, now) && ReadyGains(q, q1, a) && ReadyGains(q1, q2, b)
    ensures ReadyGains(q, q2, a + b)
  {
    forall p, k
      ensures ReadyAgain(q, a + b, p, k) == ReadyAgain(q, a, p, k) + ReadyAgain(q1, b, p, k)
    {
      LeasesJoin(a, b, k);
      assert k in q.data ==> Returned(q.data[k], q1.data[k], |LeasesOf(a, k)|, now);
    }
    forall p, k
      ensures Copies(q2, Ready(p), k) == Copies(q, Ready(p), k) + ReadyAgain(q, a + b, p, k)
    {
      assert Copies(q2, Ready(p), k) == Copies(q1, Ready(p), k) + ReadyAgain(q1, b, p, k);
    }
  }

  lemma {:induction false} GoneJoin(m: map<Slot, int>, a: set<Slot>, m1: map<Slot, int>, b: set<Slot>, m2: map<Slot, int>)
    requires a <= m.Keys && m1 == m - a && b <= m1.Keys && m2 == m1 - b
    ensures a !! b && a + b <= m.Keys && m2 == m - (a + b)
  {
  }

  lemma {:induction false} CountJoin(q: Queue, a: set<Slot>, q1: Queue, b: set<Slot>)
    requires a !! b && q1.data.Keys == q.data.Keys
    ensures |WithData(q, a + b)| == |WithData(q, a)| + |WithData(q1, b)|
  {
    assert forall k :: k in q1.data <==> k in q.data;
    assert WithData(q, a + b) == WithData(q, a) + WithData(q1, b);
  }

  lemma {:induction false} ReclaimsJoin(q: Queue, a: set<Slot>, q1: Queue, b: set<Slot>, q2: Queue, now: int)
    requires Reclaims(q, q1, a, now) && Reclaims(q1, q2, b, now)
    ensures a !! b && Reclaims(q, q2, a + b, now)
    ensures |WithData(q, a + b)| == |WithData(q, a)| + |WithData(q1, b)|
  {
    GoneJoin(q.inflight, a, q1.inflight, b, q2.inflight);
    RecordsJoin(q, a, q1, b, q2, now);
    ReadyJoin(q, a, q1, b, q2, now);
    CountJoin(q, a, q1, b);
  }

  lemma {:induction false} ReclaimsNone(q: Queue, now: int)
    ensures Reclaims(q, q, {}, now) && WithData(q, {}) == {}
  {
    assert q.inflight - {} == q.inflight;
    assert forall k :: LeasesOf({}, k) == {};
  }

  lemma {:induction false} OneLease(s: Slot, k: JobId)
    ensures |LeasesOf({s}, k)| == if s.key == k then 1 else 0
  {
    assert LeasesOf({s}, k) == if s.key == k then {s} else {};
  }

  /** One lease: the record that is stored, said in full. */
  lemma {:induction false} ReclaimOneEffect(q: Queue, w: WorkerId, k: JobId, now: int)
    requires Slot(w, k) in q.inflight && DataKeyed(q)
    ensures Reclaims(q, ReclaimOne(q, w, k, RetryTimeOf(q, k, now)), {Slot(w, k)}, now)
    ensures |WithData(q, {Slot(w, k)})| == if k in q.data then 1 else 0
  {
    var q' := ReclaimOne(q, w, k, RetryTimeOf(q, k, now));
    assert WithData(q, {Slot(w, k)}) == if k in q.data then {Slot(w, k)} else {};
    OneRecord(q, w, k, now, q');
    OneReady(q, w, k, now, q');
  }

  lemma {:induction false} OneRecord(q: Queue, w: WorkerId, k: JobId, now: int, q': Queue)
    requires DataKeyed(q) && q' == ReclaimOne(q, w, k, RetryTimeOf(q, k, now))
    ensures RecordsReturned(q, q', {Slot(w, k)}, now)
  {
    forall j <- q.data
      ensures Returned(q.data[j], q'.data[j], |LeasesOf({Slot(w, k)}, j)|, now)
    {
      OneLease(Slot(w, k), j);
    }
  }

  lemma {:induction false} OneReady(q: Queue, w: WorkerId, k: JobId, now: int, q': Queue)
    requires Slot(w, k) in q.inflight && DataKeyed(q) && q' == ReclaimOne(q, w, k, RetryTimeOf(q, k, now))
    ensures ReadyGains(q, q', {Slot(w, k)})
  {
    ReclaimOnePlaces(q, w, k, RetryTimeOf(q, k, now));
    forall p, j
      ensures Copies(q', Ready(p), j) == Copies(q, Ready(p), j) + ReadyAgain(q, {Slot(w, k)}, p, j)
    {
      OneLease(Slot(w, k), j);
    }
  }

  function SlotsOf(w: WorkerId, ks: seq<JobId>): set<Slot> {
    set k | k in ks :: Slot(w, k)
  }

  ghost predicate Distinct(ks: seq<JobId>) {
    forall i, j :: 0 <= i < j < |ks| ==> ks[i] != ks[j]
  }

  lemma {:induction false} DistinctTail(ks: seq<JobId>)
    requires Distinct(ks) && ks != []
    ensures Distinct(ks[1..]) && ks[0] !in ks[1..] && forall k :: k in ks <==> k == ks[0] || k in ks[1..]
  {
    assert ks == [ks[0]] + ks[1..];
    assert forall i :: 0 <= i < |ks[1..]| ==> ks[1..][i] == ks[i + 1];
  }

  lemma {:induction false} ReclaimKeysEffect(q: Queue, w: WorkerId, ks: seq<JobId>, now: int)
    requires DataKeyed(q) && Distinct(ks) && SlotsOf(w, ks) <= q.inflight.Keys
    ensures Reclaims(q, ReclaimKeys(q, w, ks, now), SlotsOf(w, ks), now)
    ensures ReclaimKeysCount(q, w, ks, now) == |WithData(q, SlotsOf(w, ks))|
    decreases |ks|
  {
    if ks == [] {
      ReclaimsNone(q, now);
    } else {
      DistinctTail(ks);
      var q1 := ReclaimOne(q, w, ks[0], RetryTimeOf(q, ks[0], now));
      assert Slot(w, ks[0]) in SlotsOf(w, ks);
      ReclaimOneEffect(q, w, ks[0], now);
      ReclaimsKeyed(q, q1, {Slot(w, ks[0])}, now);
      assert SlotsOf(w, ks) == {Slot(w, ks[0])} + SlotsOf(w, ks[1..]);
      ReclaimKeysEffect(q1, w, ks[1..], now);
      ReclaimsJoin(q, {Slot(w, ks[0])}, q1, SlotsOf(w, ks[1..]), ReclaimKeys(q, w, ks, now), now);
    }
  }

  /** The leases a pass over these workers finds expired. */
  function ExpiredLeases(q: Queue, scan: seq<WorkerId>, maxAge: int, now: int): set<Slot> {
    set s | s in q.inflight && s.worker in scan && 0 <= q.inflight[s] <= now - maxAge
  }

  lemma {:induction false} ExpiredListed(q: Queue, w: WorkerId, maxAge: int, now: int)
    ensures Distinct(ExpiredKeys(q, w, maxAge, now))
    ensures SlotsOf(w, ExpiredKeys(q, w, maxAge, now)) == ExpiredLeases(q, [w], maxAge, now)
  {
    var z := InFlightOf(q, w);
    RangeListing(z, 0, now - maxAge);
    assert forall k :: k in ExpiredKeys(q, w, maxAge, now) <==> k in z && 0 <= z[k] <= now - maxAge;
    assert forall k :: k in z <==> Slot(w, k) in q.inflight;
    forall s
      ensures s in SlotsOf(w, ExpiredKeys(q, w, maxAge, now)) <==> s in ExpiredLeases(q, [w], maxAge, now)
    {
      if s.worker == w {
        assert s == Slot(w, s.key);
      }
    }
  }

  lemma {:induction false} ExpiredRest(q: Queue, scan: seq<WorkerId>, maxAge: int, now: int, q1: Queue)
    requires scan != [] && q1.inflight == q.inflight - ExpiredLeases(q, [scan[0]], maxAge, now)
    ensures ExpiredLeases(q, scan, maxAge, now)
            == ExpiredLeases(q, [scan[0]], maxAge, now) + ExpiredLeases(q1, scan[1..], maxAge, now)
  {
    assert scan == [scan[0]] + scan[1..];
  }

  /** The whole effect of one ReclaimOrphaned call, whatever the order and however often SCAN names a worker:
      exactly the expired leases of the scanned workers are gone, every job with data waits once more per
      lease with its retry count up by as much, and the count returned is the number of leases that went
      back to a ready list. */
  lemma {:induction false} ReclaimOrphanedEffect(q: Queue, scan: seq<WorkerId>, maxAge: int, now: int)
    requires DataKeyed(q)
    ensures var leases := ExpiredLeases(q, scan, maxAge, now);
            && Reclaims(q, ReclaimOrphaned(q, scan, maxAge, now), leases, now)
            && ReclaimCount(q, scan, maxAge, now) == |WithData(q, leases)|
    decreases |scan|
  {
    if scan == [] {
      ReclaimsNone(q, now);
      assert ExpiredLeases(q, scan, maxAge, now) == {};
    } else {
      var w, ks := scan[0], ExpiredKeys(q, scan[0], maxAge, now);
      var first, q1 := ExpiredLeases(q, [w], maxAge, now), ReclaimKeys(q, w, ks, now);
      ExpiredListed(q, w, maxAge, now);
      ReclaimKeysEffect(q, w, ks, now);
      ReclaimsKeyed(q, q1, first, now);
      ReclaimOrphanedEffect(q1, scan[1..], maxAge, now);
      ReclaimsJoin(q, first, q1, ExpiredLeases(q1, scan[1..], maxAge, now), ReclaimOrphaned(q, scan, maxAge, now), now);
      ExpiredRest(q, scan, maxAge, now, q1);
    }
  }

  // ---------------------------------------------------------------------------
  // Moving delayed jobs
  // ---------------------------------------------------------------------------

  function MovedTo(q: Queue, ks: set<JobId>, p: int, k: JobId): nat {
    if k in ks && k in q.data && q.data[k].priority == p then 1 else 0
  }

  /** `q'` is `q` after the keys left the delayed set, those with data for the ready list of their priority. */
  ghost predicate MovesAll(q: Queue, q': Queue, ks: set<JobId>) {
    && q'.delayed == q.delayed - ks && q'.data == q.data && q'.inflight == q.inflight && q'.dlq == q.dlq
    && forall p, k :: Copies(q', Ready(p), k) == Copies(q, Ready(p), k) + MovedTo(q, ks, p, k)
  }

  lemma {:induction false} MoveOneEffect(q: Queue, k: JobId)
    requires k in q.delayed
    ensures MovesAll(q, MoveOne(q, k), {k})
  {
    MoveOnePlaces(q, k);
  }

  lemma {:induction false} MovesJoin(q: Queue, a: set<JobId>, q1: Queue, b: set<JobId>, q2: Queue)
    requires a !! b && MovesAll(q, q1, a) && MovesAll(q1, q2, b)
    ensures MovesAll(q, q2, a + b)
  {
    assert q.delayed - a - b == q.delayed - (a + b);
    forall p, k
      ensures Copies(q2, Ready(p), k) == Copies(q, Ready(p), k) + MovedTo(q, a + b, p, k)
    {
      assert Copies(q2, Ready(p), k) == Copies(q1, Ready(p), k) + MovedTo(q1, b, p, k);
    }
  }

  function Members(ks: seq<JobId>): set<JobId> {
    set k | k in ks
  }

  lemma {:induction false} MoveKeysEffect(q: Queue, ks: seq<JobId>)
    requires Distinct(ks) && forall k <- ks :: k in q.delayed
    ensures MovesAll(q, MoveKeys(q, ks), Members(ks))
    decreases |ks|
  {
    if ks == [] {
      assert q.delayed - {} == q.delayed;
    } else {
      DistinctTail(ks);
      var q1 := MoveOne(q, ks[0]);
      MoveOneEffect(q, ks[0]);
      MoveKeysEffect(q1, ks[1..]);
      MovesJoin(q, {ks[0]}, q1, Members(ks[1..]), MoveKeys(q, ks));
      assert Members(ks) == {ks[0]} + Members(ks[1..]);
    }
  }

  lemma {:induction false} MembersCount(ks: seq<JobId>)
    requires Distinct(ks)
    ensures |Members(ks)| == |ks|
  {
    if ks != [] {
      DistinctTail(ks);
      MembersCount(ks[1..]);
      assert Members(ks) == {ks[0]} + Members(ks[1..]);
    }
  }

  function Stored(data: map<JobId, Job>, ks: set<JobId>): set<JobId> {
    set k | k in ks && k in data
  }

  lemma {:induction false} ReadableCount(data: map<JobId, Job>, ks: seq<JobId>)
    requires Distinct(ks)
    ensures Readable(data, ks) == |Stored(data, Members(ks))|
  {
    if ks != [] {
      var n := |ks| - 1;
      assert ks == ks[..n] + [ks[n]];
      assert forall i, j :: 0 <= i < j < n ==> ks[..n][i] != ks[..n][j];
      ReadableCount(data, ks[..n]);
      assert ks[n] !in ks[..n];
      assert Stored(data, Members(ks)) == Stored(data, Members(ks[..n])) + if ks[n] in data then {ks[n]} else {};
    }
  }

  /** Which keys a call takes: all due ones, or with a positive batch that many of them, the earliest. */
  ghost predicate Takes(q: Queue, batch: int, now: int, ks: set<JobId>) {
    var due := Within(q.delayed, 0, now);
    && ks <= due
    && |ks| == (if 0 < batch < |due| then batch else |due|)
    && forall a, b :: a in ks && b in due && b !in ks ==> Before(q.delayed, a, b)
  }

  lemma {:induction false} DueKeysTake(q: Queue, batch: int, now: int)
    ensures Distinct(DueKeys(q, batch, now)) && Takes(q, batch, now, Members(DueKeys(q, batch, now)))
  {
    var z, all, ks := q.delayed, RangeByScore(q.delayed, 0, now), DueKeys(q, batch, now);
    var due := Within(z, 0, now);
    RangeListing(z, 0, now);
    assert Members(all) == due && Distinct(all);
    MembersCount(all);
    assert ks <= all;
    assert forall i :: 0 <= i < |ks| ==> ks[i] == all[i];
    MembersCount(ks);
    assert forall k <- ks :: k in all;
    forall a, b | a in Members(ks) && b in due && b !in Members(ks)
      ensures Before(z, a, b)
    {
      var i :| 0 <= i < |ks| && ks[i] == a;
      var j :| 0 <= j < |all| && all[j] == b;
      assert j >= |ks| by {
        assert forall x :: 0 <= x < |ks| ==> all[x] in ks;
      }
      assert all[i] == a;
    }
  }

  /** The whole effect of one MoveDelayed call: the keys it takes leave the delayed set, those with data join
      the ready list of their priority, each once, nothing else changes, and the count returned is the
      number of entries the ready lists gained. */
  ghost predicate Moved(q: Queue, q': Queue, batch: int, now: int, moved: nat) {
    exists ks :: Takes(q, batch, now, ks) && MovesAll(q, q', ks) && moved == |Stored(q.data, ks)|
  }

  lemma {:induction false} MoveDelayedEffect(q: Queue, batch: int, now: int)
    ensures Moved(q, MoveDelayed(q, batch, now), batch, now, Readable(q.data, DueKeys(q, batch, now)))
  {
    var list := DueKeys(q, batch, now);
    var ks := Members(list);
    DueKeysTake(q, batch, now);
    assert forall k <- list :: k in ks;
    MoveKeysEffect(q, list);
    ReadableCount(q.data, list);
    assert Takes(q, batch, now, ks) && MovesAll(q, MoveDelayed(q, batch, now), ks);
  }
}
