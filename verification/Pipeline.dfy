/** Pipelines of the delayed mover: commands collected first and executed together. */
module Pipeline {
  import opened Jobs
  import opened QueueModel
  import opened Commands

  /** The commands a mover sends. */
  type MoveCommand = c: Command | c.PushReady? || c.Undelay? witness Undelay(0)

  /** What the mover appends for one key, given the data it read. */
  function CommandsFor(data: map<JobId, Job>, k: JobId): seq<MoveCommand> {
    if k in data then [PushReady(data[k].priority, k), Undelay(k)] else [Undelay(k)]
  }

  function Collected(data: map<JobId, Job>, ks: seq<JobId>): seq<MoveCommand> {
    if ks == [] then [] else Collected(data, ks[..|ks| - 1]) + CommandsFor(data, ks[|ks| - 1])
  }

  function Readable(data: map<JobId, Job>, ks: seq<JobId>): nat {
    if ks == [] then 0
    else Readable(data, ks[..|ks| - 1]) + (if ks[|ks| - 1] in data then 1 else 0)
  }

  lemma {:induction false} CollectedCons(data: map<JobId, Job>, ks: seq<JobId>)
    requires ks != []
    ensures Collected(data, ks) == CommandsFor(data, ks[0]) + Collected(data, ks[1..])
    decreases |ks|
  {
    if |ks| > 1 {
      var n := |ks| - 1;
      CollectedCons(data, ks[..n]);
      assert ks[..n][1..] == ks[1..][..n - 1] && ks[1..][n - 1] == ks[n];
    } else {
      assert ks[..0] == [] && ks[1..] == [];
    }
  }

  lemma {:induction false} MovesOne(q: Queue, k: JobId)
    ensures ApplyAll(q, CommandsFor(q.data, k)) == MoveOne(q, k)
  {
    var cs := CommandsFor(q.data, k);
    assert ApplyAll(q, cs[..|cs| - 1]) == if k in q.data then Apply(q, cs[0]) else q by {
      assert k in q.data ==> cs[..1] == [cs[0]] && cs[..1][..0] == [];
    }
  }

  /** Reading all the data first and then running the pipeline moves the keys one after the other. */
  lemma {:induction false} PipelineMoves(q: Queue, ks: seq<JobId>)
    ensures ApplyAll(q, Collected(q.data, ks)) == MoveKeys(q, ks)
    decreases |ks|
  {
    if ks != [] {
      CollectedCons(q.data, ks);
      ApplyAppend(q, CommandsFor(q.data, ks[0]), Collected(q.data, ks[1..]));
      MovesOne(q, ks[0]);
      PipelineMoves(MoveOne(q, ks[0]), ks[1..]);
    }
  }
}
