/** A tenure that nobody interrupts is one MoveDelayed call. */
module MoverAlone {
  import opened Jobs
  import opened QueueModel
  import opened Commands
  import opened Pipeline
  import opened Mover

  function Times(e: Event, n: nat): seq<Event> {
    if n == 0 then [] else [e] + Times(e, n - 1)
  }

  ghost predicate Reaches(s: System, es: seq<Event>, s': System) {
    Legal(s, es) && After(s, es) == s'
  }

  lemma {:induction false} First(s: System, e: Event, m: System, es: seq<Event>, s': System)
    requires Enabled(s, e) && m == Next(s, e) && Reaches(m, es, s')
    ensures Reaches(s, [e] + es, s')
  {
    assert ([e] + es)[1..] == es;
  }

  lemma {:induction false} Joins(s: System, a: seq<Event>, m: System, b: seq<Event>, s': System)
    requires Reaches(s, a, m) && Reaches(m, b, s')
    ensures Reaches(s, a + b, s')
    decreases |a|
  {
    if a == [] {
      assert a + b == b;
    } else {
      var next := Next(s, a[0]);
      Joins(next, a[1..], m, b, s');
      First(s, a[0], next, a[1..] + b, s');
      assert [a[0]] + (a[1..] + b) == a + b;
    }
  }

  lemma {:induction false} ReadStep(s: System, i: nat, a: Tenure, a': Tenure)
    requires i in s.active && s.active[i] == a && a.todo != []
    requires a' == a.(todo := a.todo[1..], pipe := a.pipe + CommandsFor(s.q.data, a.todo[0]))
    ensures Enabled(s, Read(i)) && Next(s, Read(i)) == s.(active := s.active[i := a'])
  {
  }

  lemma {:induction false} ReadsAll(s: System, i: nat, a: Tenure)
    requires i in s.active && s.active[i] == a
    ensures Reaches(s, Times(Read(i), |a.todo|),
                    s.(active := s.active[i := a.(todo := [], pipe := a.pipe + Collected(s.q.data, a.todo))]))
    decreases |a.todo|
  {
    if a.todo == [] {
      assert a.pipe + [] == a.pipe && s.active[i := a] == s.active;
    } else {
      var more := CommandsFor(s.q.data, a.todo[0]);
      var a1 := a.(todo := a.todo[1..], pipe := a.pipe + more);
      var m := s.(active := s.active[i := a1]);
      var last := a.(todo := [], pipe := a.pipe + Collected(s.q.data, a.todo));
      ReadStep(s, i, a, a1);
      ReadsAll(m, i, a1);
      CollectedCons(s.q.data, a.todo);
      assert a.pipe + more + Collected(s.q.data, a.todo[1..]) == a.pipe + Collected(s.q.data, a.todo);
      assert m.active[i := last] == s.active[i := last];
      First(s, Read(i), m, Times(Read(i), |a.todo| - 1), s.(active := s.active[i := last]));
    }
  }

  lemma {:induction false} ExecStep(s: System, i: nat, m: System)
    requires i in s.active && s.active[i].todo == [] && s.active[i].pipe != [] && m == RunExec(s, i)
    ensures Enabled(s, Exec(i)) && Next(s, Exec(i)) == m
    ensures m.q == Apply(s.q, s.active[i].pipe[0]) && i in m.active
    ensures m.active[i].todo == [] && m.active[i].pipe == s.active[i].pipe[1..]
  {
  }

  lemma {:induction false} ExecsAll(s: System, i: nat, cs: seq<MoveCommand>) returns (s': System)
    requires i in s.active && s.active[i].todo == [] && s.active[i].pipe == cs
    ensures Reaches(s, Times(Exec(i), |cs|), s') && s'.q == ApplyAll(s.q, cs)
    decreases |cs|
  {
    if cs == [] {
      s' := s;
    } else {
      var m := RunExec(s, i);
      ExecStep(s, i, m);
      s' := ExecsAll(m, i, cs[1..]);
      ApplyFirst(s.q, cs);
      First(s, Exec(i), m, Times(Exec(i), |cs| - 1), s');
    }
  }

  lemma {:induction false} ScanStep(s: System, i: nat, a: Tenure)
    requires i in s.active && !s.active[i].scanned
    requires a == s.active[i].(scanned := true, todo := DueKeys(s.q, BATCH, s.clock))
    ensures Enabled(s, Scan(i)) && Next(s, Scan(i)) == s.(active := s.active[i := a])
  {
  }

  /** A tenure left alone moves the due keys exactly as one MoveDelayed call does. */
  lemma {:induction false} TenureIsMoveDelayed(s: System, i: nat) returns (s': System)
    requires i in s.active && !s.active[i].scanned && s.active[i].pipe == []
    ensures var ks := DueKeys(s.q, BATCH, s.clock);
            Reaches(s, [Scan(i)] + (Times(Read(i), |ks|) + Times(Exec(i), |Collected(s.q.data, ks)|)), s')
    ensures s'.q == MoveDelayed(s.q, BATCH, s.clock)
  {
    var ks := DueKeys(s.q, BATCH, s.clock);
    var cs := Collected(s.q.data, ks);
    var a := s.active[i].(scanned := true, todo := ks);
    var m := s.(active := s.active[i := a]);
    var m1 := m.(active := m.active[i := a.(todo := [], pipe := cs)]);
    ScanStep(s, i, a);
    ReadsAll(m, i, a);
    assert [] + cs == cs;
    s' := ExecsAll(m1, i, cs);
    PipelineMoves(s.q, ks);
    Joins(m, Times(Read(i), |ks|), m1, Times(Exec(i), |cs|), s');
    First(s, Scan(i), m, Times(Read(i), |ks|) + Times(Exec(i), |cs|), s');
  }
}
