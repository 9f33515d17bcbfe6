/** The ready lists as one stable priority queue, and how long an entry waits. */
module ReadyOrder {
  import opened Jobs
  import opened QueueModel

  datatype Item = Item(priority: int, key: JobId)

  datatype Op = PushOp(p: int, k: JobId) | PopOp(w: WorkerId, timeout: int, now: int)

  // ---------------------------------------------------------------------------
  // The simple queue: items in push order; a pop takes the least (priority, position)
  // ---------------------------------------------------------------------------

  predicate Served(i: Item) {
    0 <= i.priority <= 9
  }

  ghost predicate IsNext(a: seq<Item>, i: nat) {
    && i < |a| && Served(a[i])
    && forall j :: 0 <= j < |a| && Served(a[j]) ==>
         a[i].priority < a[j].priority || (a[i].priority == a[j].priority && i <= j)
  }

  function NextIndex(a: seq<Item>): Option<nat> {
    if a == [] then None
    else
      var n := |a| - 1;
      match NextIndex(a[..n])
      case None => if Served(a[n]) then Some(n) else None
      case Some(i) => if Served(a[n]) && i < n && a[n].priority < a[i].priority then Some(n) else Some(i)
  }

  function Without(a: seq<Item>, i: nat): seq<Item>
    requires i < |a|
  {
    a[..i] + a[i + 1..]
  }

  lemma {:induction false} NextIndexIsNext(a: seq<Item>)
    ensures NextIndex(a).Some? ==> IsNext(a, NextIndex(a).value)
    ensures NextIndex(a) == None ==> forall i :: 0 <= i < |a| ==> !Served(a[i])
  {
    if a != [] {
      var n := |a| - 1;
      NextIndexIsNext(a[..n]);
      assert forall i :: 0 <= i < n ==> a[..n][i] == a[i];
    }
  }

  /** `data` are the stored records; the answer of a pop is the record of the key it takes. */
  function SimpleStep(a: seq<Item>, data: map<JobId, Job>, op: Op): (seq<Item>, Popped) {
    match op
    case PushOp(p, k) => (a + [Item(p, k)], Empty)
    case PopOp(_, _, _) =>
      match NextIndex(a)
      case None => (a, Empty)
      case Some(i) => if i < |a| then (Without(a, i), AnswerFor(data, a[i].key)) else (a, Empty)
  }

  // ---------------------------------------------------------------------------
  // The ten lists
  // ---------------------------------------------------------------------------

  function ListStep(q: Queue, op: Op): (Queue, Popped) {
    match op
    case PushOp(p, k) => (Push(q, p, k), Empty)
    case PopOp(w, timeout, now) => Dequeue(q, w, timeout, now)
  }

  /** The items of priority `p`, newest first. */
  function NewestFirst(a: seq<Item>, p: int): seq<JobId> {
    if a == [] then []
    else
      var n := |a| - 1;
      (if a[n].priority == p then [a[n].key] else []) + NewestFirst(a[..n], p)
  }

  ghost predicate Refines(q: Queue, a: seq<Item>) {
    forall p :: List(q, p) == NewestFirst(a, p)
  }

  lemma {:induction false} NewestFirstEmpty(a: seq<Item>, p: int)
    ensures NewestFirst(a, p) == [] <==> forall i :: 0 <= i < |a| ==> a[i].priority != p
  {
    if a != [] {
      var n := |a| - 1;
      NewestFirstEmpty(a[..n], p);
      assert forall i :: 0 <= i < n ==> a[..n][i] == a[i];
      if NewestFirst(a, p) == [] {
        assert a[n].priority != p;
      }
    }
  }

  lemma {:induction false} NewestFirstAppend(a: seq<Item>, b: seq<Item>, p: int)
    ensures NewestFirst(a + b, p) == NewestFirst(b, p) + NewestFirst(a, p)
    decreases |b|
  {
    if b == [] {
      assert a + b == a;
    } else {
      var n := |b| - 1;
      assert (a + b)[..|a + b| - 1] == a + b[..n] && (a + b)[|a + b| - 1] == b[n];
      NewestFirstAppend(a, b[..n], p);
      var head := if b[n].priority == p then [b[n].key] else [];
      assert NewestFirst(b, p) == head + NewestFirst(b[..n], p);
      assert NewestFirst(a + b, p) == head + NewestFirst(a + b[..n], p);
    }
  }

  lemma {:induction false} NewestFirstOne(it: Item, p: int)
    ensures NewestFirst([it], p) == if it.priority == p then [it.key] else []
  {
    assert [it][..0] == [];
  }

  lemma {:induction false} MiddleLists(x: seq<Item>, it: Item, y: seq<Item>, p: int)
    requires forall j :: 0 <= j < |x| ==> x[j].priority != it.priority
    ensures p != it.priority ==> NewestFirst(x + y, p) == NewestFirst(x + [it] + y, p)
    ensures p == it.priority ==> NewestFirst(x + [it] + y, p) == NewestFirst(x + y, p) + [it.key]
  {
    NewestFirstAppend(x + [it], y, p);
    NewestFirstAppend(x, [it], p);
    NewestFirstAppend(x, y, p);
    NewestFirstOne(it, p);
    NewestFirstEmpty(x, p);
  }

  /** Taking item `i` out affects only its own list, and there only its oldest entry when none before
      `i` has its priority. */
  lemma {:induction false} WithoutLists(a: seq<Item>, i: nat, p: int)
    requires i < |a| && forall j :: 0 <= j < i ==> a[j].priority != a[i].priority
    ensures p != a[i].priority ==> NewestFirst(Without(a, i), p) == NewestFirst(a, p)
    ensures p == a[i].priority ==> NewestFirst(a, p) == NewestFirst(Without(a, i), p) + [a[i].key]
  {
    assert a == a[..i] + [a[i]] + a[i + 1..];
    MiddleLists(a[..i], a[i], a[i + 1..], p);
  }

  lemma {:induction false} NextPriority(q: Queue, a: seq<Item>, i: nat)
    requires Refines(q, a) && IsNext(a, i)
    ensures FirstReady(q, 0) == a[i].priority
  {
    var p := a[i].priority;
    NewestFirstEmpty(a, p);
    assert List(q, p) != [];
    forall j | 0 <= j < p
      ensures List(q, j) == []
    {
      NewestFirstEmpty(a, j);
    }
  }

  lemma {:induction false} PopRefines(q: Queue, a: seq<Item>, i: nat, w: WorkerId, timeout: int, now: int)
    requires Refines(q, a) && IsNext(a, i)
    ensures Dequeue(q, w, timeout, now).1 == AnswerFor(q.data, a[i].key)
    ensures Refines(Dequeue(q, w, timeout, now).0, Without(a, i))
  {
    NextPriority(q, a, i);
    var p, q' := a[i].priority, Dequeue(q, w, timeout, now).0;
    WithoutLists(a, i, p);
    assert List(q, p) == NewestFirst(Without(a, i), p) + [a[i].key];
    forall r
      ensures List(q', r) == NewestFirst(Without(a, i), r)
    {
      WithoutLists(a, i, r);
    }
  }

  lemma {:induction false} PushRefines(q: Queue, a: seq<Item>, p: int, k: JobId)
    requires Refines(q, a)
    ensures Refines(Push(q, p, k), a + [Item(p, k)])
  {
    forall r
      ensures List(Push(q, p, k), r) == NewestFirst(a + [Item(p, k)], r)
    {
      NewestFirstAppend(a, [Item(p, k)], r);
      NewestFirstOne(Item(p, k), r);
    }
  }

  lemma {:induction false} NothingToPop(q: Queue, a: seq<Item>)
    requires Refines(q, a) && forall i :: 0 <= i < |a| ==> !Served(a[i])
    ensures FirstReady(q, 0) == 10
  {
    forall p | 0 <= p < 10
      ensures List(q, p) == []
    {
      NewestFirstEmpty(a, p);
    }
  }

  /** Each step of the ten lists is the step of the one stable queue, with the same answer. */
  lemma {:induction false} StepRefines(q: Queue, a: seq<Item>, op: Op)
    requires Refines(q, a)
    ensures ListStep(q, op).1 == SimpleStep(a, q.data, op).1
    ensures Refines(ListStep(q, op).0, SimpleStep(a, q.data, op).0)
    ensures ListStep(q, op).0.data == q.data
  {
    match op
    case PushOp(p, k) => PushRefines(q, a, p, k);
    case PopOp(w, timeout, now) =>
      NextIndexIsNext(a);
      match NextIndex(a)
      case Some(i) => PopRefines(q, a, i, w, timeout, now);
      case None => NothingToPop(q, a);
  }

  function ListAnswers(q: Queue, ops: seq<Op>): seq<Popped>
    decreases |ops|
  {
    if ops == [] then [] else [ListStep(q, ops[0]).1] + ListAnswers(ListStep(q, ops[0]).0, ops[1..])
  }

  function SimpleAnswers(a: seq<Item>, data: map<JobId, Job>, ops: seq<Op>): seq<Popped>
    decreases |ops|
  {
    if ops == [] then []
    else [SimpleStep(a, data, ops[0]).1] + SimpleAnswers(SimpleStep(a, data, ops[0]).0, data, ops[1..])
  }

  /** Over any sequence of pushes and pops the ten push-left/pop-right lists answer exactly as one stable
      queue that always yields the least (priority, push order), and hand out the record of that entry. */
  lemma {:induction false} ListsAreOneStableQueue(q: Queue, a: seq<Item>, ops: seq<Op>)
    requires Refines(q, a)
    ensures ListAnswers(q, ops) == SimpleAnswers(a, q.data, ops)
    decreases |ops|
  {
    if ops != [] {
      StepRefines(q, a, ops[0]);
      ListsAreOneStableQueue(ListStep(q, ops[0]).0, SimpleStep(a, q.data, ops[0]).0, ops[1..]);
    }
  }

  /** In particular from empty lists on, with any records stored. */
  lemma {:induction false} FromTheEmptyStore(data: map<JobId, Job>, ops: seq<Op>)
    ensures ListAnswers(EMPTY.(data := data), ops) == SimpleAnswers([], data, ops)
  {
    ListsAreOneStableQueue(EMPTY.(data := data), [], ops);
  }

  // ---------------------------------------------------------------------------
  // Rank
  // ---------------------------------------------------------------------------

  function Higher(q: Queue, p: nat): nat {
    if p == 0 then 0 else Higher(q, p - 1) + |List(q, p - 1)|
  }

  /** `k` sits in list `p` with `ahead` entries to be popped before it from that list. */
  predicate EntryAt(q: Queue, p: nat, ahead: nat, k: JobId) {
    ahead < |List(q, p)| && List(q, p)[|List(q, p)| - 1 - ahead] == k
  }

  function Rank(q: Queue, p: nat, ahead: nat): nat {
    Higher(q, p) + ahead
  }

  lemma {:induction false} HigherEmpty(q: Queue, p: nat, r: nat)
    requires r <= p && forall i :: 0 <= i < r ==> List(q, i) == []
    ensures Higher(q, r) == 0
    ensures Higher(q, p) == 0 ==> forall i :: 0 <= i < p ==> List(q, i) == []
    decreases p
  {
    if r < p {
      HigherEmpty(q, p - 1, r);
    } else if 0 < p {
      HigherEmpty(q, p - 1, r - 1);
    }
  }

  lemma {:induction false} HigherAfter(q: Queue, q': Queue, p: nat, r: nat)
    requires forall i :: 0 <= i < p ==> |List(q', i)| == |List(q, i)| - (if i == r then 1 else 0)
    ensures Higher(q', p) == Higher(q, p) - (if r < p then 1 else 0)
  {
    if p > 0 {
      HigherAfter(q, q', p - 1, r);
    }
  }

  /** One dequeue: an entry of rank 0 is delivered, any other moves up by exactly one. */
  lemma {:induction false} DequeueLowersRank(q: Queue, p: nat, ahead: nat, k: JobId, w: WorkerId, timeout: int, now: int)
    returns (ahead': nat)
    requires p <= 9 && EntryAt(q, p, ahead, k)
    ensures Rank(q, p, ahead) == 0 ==> Dequeue(q, w, timeout, now).1 == AnswerFor(q.data, k)
    ensures Rank(q, p, ahead) > 0 ==>
              var q' := Dequeue(q, w, timeout, now).0;
              EntryAt(q', p, ahead', k) && Rank(q', p, ahead') == Rank(q, p, ahead) - 1
  {
    var r := FirstReady(q, 0);
    assert p < r ==> List(q, p) == [];
    HigherEmpty(q, p, r);
    var q' := Dequeue(q, w, timeout, now).0;
    HigherAfter(q, q', p, r);
    ahead' := if r < p || ahead == 0 then ahead else ahead - 1;
  }

  lemma {:induction false} PushKeepsRank(q: Queue, p: nat, ahead: nat, k: JobId, p': int, k': JobId)
    requires EntryAt(q, p, ahead, k) && p' >= p
    ensures EntryAt(Push(q, p', k'), p, ahead, k) && Rank(Push(q, p', k'), p, ahead) == Rank(q, p, ahead)
  {
    HigherAfter(q, Push(q, p', k'), p, p);
  }

  function Pops(ops: seq<Op>): nat {
    if ops == [] then 0 else (if ops[0].PopOp? then 1 else 0) + Pops(ops[1..])
  }

  function ListsAfter(q: Queue, ops: seq<Op>): Queue
    decreases |ops|
  {
    if ops == [] then q else ListsAfter(ListStep(q, ops[0]).0, ops[1..])
  }

  lemma {:induction false} SameData(q: Queue, ops: seq<Op>)
    ensures ListsAfter(q, ops).data == q.data
    decreases |ops|
  {
    if ops != [] {
      SameData(ListStep(q, ops[0]).0, ops[1..]);
    }
  }

  /** While nothing is pushed at a higher priority, an entry's rank falls by one per dequeue. */
  lemma {:induction false} RankFalls(q: Queue, ops: seq<Op>, p: nat, ahead: nat, k: JobId) returns (ahead': nat)
    requires p <= 9 && EntryAt(q, p, ahead, k) && Pops(ops) <= Rank(q, p, ahead)
    requires forall op <- ops :: op.PushOp? ==> op.p >= p
    ensures var q' := ListsAfter(q, ops);
            EntryAt(q', p, ahead', k) && Rank(q', p, ahead') == Rank(q, p, ahead) - Pops(ops)
    decreases |ops|
  {
    if ops == [] {
      ahead' := ahead;
    } else {
      var next := ahead;
      match ops[0] {
        case PushOp(p', k') => PushKeepsRank(q, p, ahead, k, p', k');
        case PopOp(w, timeout, now) => next := DequeueLowersRank(q, p, ahead, k, w, timeout, now);
      }
      ahead' := RankFalls(ListStep(q, ops[0]).0, ops[1..], p, next, k);
    }
  }

  /** So the entry is delivered by exactly the (rank + 1)-th dequeue. */
  lemma {:induction false} DeliveredAtRank(q: Queue, ops: seq<Op>, p: nat, ahead: nat, k: JobId,
                                           w: WorkerId, timeout: int, now: int)
    requires p <= 9 && EntryAt(q, p, ahead, k) && Pops(ops) == Rank(q, p, ahead)
    requires forall op <- ops :: op.PushOp? ==> op.p >= p
    ensures Dequeue(ListsAfter(q, ops), w, timeout, now).1 == AnswerFor(q.data, k)
  {
    var ahead' := RankFalls(q, ops, p, ahead, k);
    var unused := DequeueLowersRank(ListsAfter(q, ops), p, ahead', k, w, timeout, now);
    SameData(q, ops);
  }
}
