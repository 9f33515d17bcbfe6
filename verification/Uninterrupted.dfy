/** A client that nobody interrupts carries out its whole operation. */
module Uninterrupted {
  import opened Jobs
  import opened QueueModel
  import opened Commands
  import CrashPoints
  import opened Interleaving
  import opened LosingRuns

  function Sends(i: nat, n: nat): seq<Event> {
    if n == 0 then [] else [Send(i)] + Sends(i, n - 1)
  }

  /** It sends all it has to send. */
  lemma {:induction false} SendAll(s: State, i: nat) returns (s': State)
    requires i in s.clients && (s.clients[i].role.Mover? ==> s.clients[i].todo == [])
    ensures Leads(s, Sends(i, |s.clients[i].rest|), s')
    ensures s'.q == ApplyAll(s.q, s.clients[i].rest) && s'.clock == s.clock
    ensures i in s'.clients && s'.clients[i].rest == []
    ensures s'.clients[i].todo == s.clients[i].todo && s'.clients[i].role == s.clients[i].role
    decreases |s.clients[i].rest|
  {
    var cs := s.clients[i].rest;
    if cs == [] {
      s' := s;
    } else {
      var m := Next(s, Send(i));
      ApplyFirst(s.q, cs);
      s' := SendAll(m, i);
      assert Sends(i, |cs|)[1..] == Sends(i, |cs| - 1);
    }
  }

  /** An acknowledge or a nack. */
  lemma {:induction false} AnswerAlone(s: State, i: nat, op: Operation) returns (s': State)
    requires i !in s.clients && (op.Acking? || op.Nacking?)
    ensures Leads(s, [Answer(i, op)] + Sends(i, |CommandsOf(s.q, op)|), s') && s'.q == CrashPoints.Whole(s.q, op)
  {
    var m := Next(s, Answer(i, op));
    s' := SendAll(m, i);
    CrashPoints.CommandsAreOperation(s.q, op);
    assert ([Answer(i, op)] + Sends(i, |CommandsOf(s.q, op)|))[1..] == Sends(i, |CommandsOf(s.q, op)|);
  }

  lemma {:induction false} ReadStep(s: State, i: nat, c: Client, op: Operation, m: State)
    requires i in s.clients && s.clients[i] == c && c.role.Reclaimer? && c.rest == [] && c.todo != []
    requires op == OperationOn(s, c.role, c.todo[0])
    requires m == s.(clients := s.clients[i := c.(todo := c.todo[1..], rest := CommandsOf(s.q, op))])
    ensures Enabled(s, Read(i)) && Next(s, Read(i)) == m
  {
    assert [] + CommandsOf(s.q, op) == CommandsOf(s.q, op);
  }

  lemma {:induction false} Before(s: State, e: Event, m: State, es: seq<Event>, s': State)
    requires Enabled(s, e) && m == Next(s, e) && Leads(m, es, s')
    ensures Leads(s, [e] + es, s')
  {
    assert ([e] + es)[1..] == es;
  }

  lemma {:induction false} WholeReclaim(q: Queue, op: Operation)
    requires op.Reclaiming?
    ensures ApplyAll(q, CommandsOf(q, op)) == ReclaimOne(q, op.w, op.k, op.retryAt)
  {
    CrashPoints.CommandsAreOperation(q, op);
  }

  /** A reclaimer reads one record and sends its commands. */
  lemma {:induction false} OneReclaim(s: State, i: nat, w: WorkerId, c: Client) returns (es: seq<Event>, s': State)
    requires i in s.clients && s.clients[i] == c && c.role == Reclaimer(w) && c.rest == [] && c.todo != []
    ensures Leads(s, es, s') && s'.clock == s.clock && forall e <- es :: e == Read(i) || e == Send(i)
    ensures s'.q == ReclaimOne(s.q, w, c.todo[0], RetryTimeOf(s.q, c.todo[0], s.clock))
    ensures i in s'.clients && s'.clients[i].role == Reclaimer(w) && s'.clients[i].rest == []
    ensures s'.clients[i].todo == c.todo[1..]
  {
    var op := OperationOn(s, c.role, c.todo[0]);
    var n := |CommandsOf(s.q, op)|;
    var m := s.(clients := s.clients[i := c.(todo := c.todo[1..], rest := CommandsOf(s.q, op))]);
    ReadStep(s, i, c, op, m);
    s' := SendAll(m, i);
    WholeReclaim(s.q, op);
    Before(s, Read(i), m, Sends(i, n), s');
    OnlySends(i, n);
    es := [Read(i)] + Sends(i, n);
  }

  /** It works through what it listed. */
  lemma {:induction false} ReclaimsAlone(s: State, i: nat, w: WorkerId) returns (es: seq<Event>, s': State)
    requires i in s.clients && s.clients[i].role == Reclaimer(w) && s.clients[i].rest == []
    ensures Leads(s, es, s') && s'.q == ReclaimKeys(s.q, w, s.clients[i].todo, s.clock)
    ensures forall e <- es :: e == Read(i) || e == Send(i)
    decreases |s.clients[i].todo|
  {
    var ks := s.clients[i].todo;
    if ks == [] {
      es, s' := [], s;
    } else {
      var first, m := OneReclaim(s, i, w, s.clients[i]);
      var rest;
      rest, s' := ReclaimsAlone(m, i, w);
      Joined(s, first, m, rest, s');
      es := first + rest;
      assert forall e <- es :: e in first || e in rest;
    }
  }

  lemma {:induction false} OnlySends(i: nat, n: nat)
    ensures forall e <- Sends(i, n) :: e == Send(i)
  {
    if n > 0 {
      OnlySends(i, n - 1);
    }
  }

  /** From the scan of a worker's leases to the last command: the reclaim of that worker. */
  lemma {:induction false} ReclaimerAlone(s: State, i: nat, w: WorkerId) returns (es: seq<Event>, s': State)
    requires i !in s.clients
    ensures Leads(s, [Scan(i, Reclaimer(w))] + es, s')
    ensures s'.q == ReclaimKeys(s.q, w, ExpiredKeys(s.q, w, MAX_AGE_MS, s.clock), s.clock)
    ensures (forall e <- es :: e == Read(i) || e == Send(i))
  {
    var m := Next(s, Scan(i, Reclaimer(w)));
    es, s' := ReclaimsAlone(m, i, w);
    assert ([Scan(i, Reclaimer(w))] + es)[1..] == es;
  }
}
