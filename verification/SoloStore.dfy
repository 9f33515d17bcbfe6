/** A store that holds one job: what each operation makes of it, for the concrete runs. */
module SoloStore {
  import opened Jobs
  import opened SortedSet
  import opened QueueModel
  import opened Commands

  /** A store whose one record is `job`, with its list and leases as given. */
  function Solo(job: Job, p: int, list: seq<JobId>, inflight: map<Slot, int>): Queue {
    Queue(map[job.id := job], map[p := list], map[], inflight, [])
  }

  /** A job as a producer submits it, due at once. */
  predicate Due(job: Job, t: int) {
    IsNew(job) && job.scheduledAt <= t
  }

  lemma {:induction false} SoloEnqueue(job: Job, now: int)
    requires job.scheduledAt <= now
    ensures Enqueue(EMPTY, job, now) == Solo(job, job.priority, [job.id], map[])
  {
    assert [job.id] + [] == [job.id];
    assert map[][job.id := job] == map[job.id := job];
    assert map[][job.priority := [job.id]] == map[job.priority := [job.id]];
  }

  lemma {:induction false} SoloPop(job: Job, p: nat, list: seq<JobId>, inflight: map<Slot, int>, w: WorkerId,
                                   timeout: int, now: int)
    requires p < 10
    ensures NextKey(Solo(job, p, list + [job.id], inflight)) == Some(job.id)
    ensures Dequeue(Solo(job, p, list + [job.id], inflight), w, timeout, now)
            == (Solo(job, p, list, inflight[Slot(w, job.id) := now + timeout]), Got(job))
    ensures list == [] ==> list + [job.id] == [job.id]
  {
    var q := Solo(job, p, list + [job.id], inflight);
    assert List(q, p) == list + [job.id] && FirstReady(q, 0) == p;
    assert (list + [job.id])[..|list|] == list;
    assert q.ready[p := list] == map[p := list];
  }

  lemma {:induction false} SoloApply(job: Job, p: int, list: seq<JobId>, inflight: map<Slot, int>, j: Job, w: WorkerId)
    requires j.id == job.id
    ensures Apply(Solo(job, p, list, inflight), Set(j)) == Solo(j, p, list, inflight)
    ensures Apply(Solo(job, p, list, inflight), PushReady(p, job.id)) == Solo(job, p, [job.id] + list, inflight)
    ensures Apply(Solo(job, p, list, inflight), EndLease(w, job.id)) == Solo(job, p, list, inflight - {Slot(w, job.id)})
  {
    assert map[job.id := job][job.id := j] == map[job.id := j];
    assert map[p := list][p := [job.id] + list] == map[p := [job.id] + list];
  }

  lemma {:induction false} SoloExpired(job: Job, p: int, list: seq<JobId>, w: WorkerId, score: int, hi: int)
    requires 0 <= score <= hi
    ensures RangeByScore(InFlightOf(Solo(job, p, list, map[Slot(w, job.id) := score]), w), 0, hi) == [job.id]
  {
    var q := Solo(job, p, list, map[Slot(w, job.id) := score]);
    var z := InFlightOf(q, w);
    assert Slot(w, job.id) in q.inflight;
    assert Within(z, 0, hi) == {job.id};
    RangeListing(z, 0, hi);
    ListingUnique(z, {job.id}, RangeByScore(z, 0, hi), [job.id]);
  }

  lemma {:induction false} SoloUnlocated(job: Job, p: int)
    ensures job.id in Solo(job, p, [], map[]).data && !Located(Solo(job, p, [], map[]), job.id)
  {
    forall pl
      ensures Copies(Solo(job, p, [], map[]), pl, job.id) == 0
    {
    }
  }
}
