/** Any number of clients sending commands in any order. */
module LockRuns {
  import opened LockModel

  datatype Sent = Sent(at: int, cmd: Command)

  ghost predicate Ordered(tr: seq<Sent>) {
    forall i, j :: 0 <= i <= j < |tr| ==> tr[i].at <= tr[j].at
  }

  /** Tokens are random: no two Acquire calls draw the same one. */
  ghost predicate FreshTokens(tr: seq<Sent>) {
    forall i, j :: 0 <= i < j < |tr| && tr[i].cmd.Acquire? && tr[j].cmd.Acquire? ==>
      tr[i].cmd.token != tr[j].cmd.token
  }

  function StateAt(tr: seq<Sent>, n: nat): Locks
    requires n <= |tr|
  {
    if n == 0 then map[] else Run(StateAt(tr, n - 1), tr[n - 1].at, tr[n - 1].cmd).0
  }

  function ReplyAt(tr: seq<Sent>, n: nat): Reply
    requires n < |tr|
  {
    Run(StateAt(tr, n), tr[n].at, tr[n].cmd).1
  }

  predicate Won(tr: seq<Sent>, i: nat, key: string)
    requires i < |tr|
  {
    tr[i].cmd.Acquire? && tr[i].cmd.key == key && ReplyAt(tr, i) == Ok
  }

  /** Command `m` gives the token of acquire `i` a new expiry. */
  predicate Sets(tr: seq<Sent>, m: nat, i: nat, key: string)
    requires i < |tr| && m < |tr|
  {
    m == i ||
    (tr[m].cmd.Extend? && tr[m].cmd.key == key && tr[m].cmd.token == tr[i].cmd.token &&
     ReplyAt(tr, m) == Ok && tr[m].cmd.ttl > 0)
  }

  /** Command `m` gives the lock of acquire `i` up. */
  predicate Ends(tr: seq<Sent>, m: nat, i: nat, key: string)
    requires i < |tr| && m < |tr|
  {
    !tr[m].cmd.Acquire? && tr[m].cmd.key == key && tr[m].cmd.token == tr[i].cmd.token && ReplyAt(tr, m) == Ok &&
    (tr[m].cmd.Extend? ==> tr[m].cmd.ttl <= 0)
  }

  function ExpirySet(tr: seq<Sent>, m: nat): int
    requires m < |tr| && !tr[m].cmd.Release?
  {
    tr[m].at + tr[m].cmd.ttl
  }

  /** `m` is the last command before `n` that set the expiry of acquire `i`. */
  ghost predicate LastSet(tr: seq<Sent>, m: nat, n: nat, i: nat, key: string)
    requires i < |tr| && tr[i].cmd.Acquire? && n <= |tr|
  {
    i <= m < n && Sets(tr, m, i, key) && forall x :: m < x < n ==> !Sets(tr, x, i, key)
  }

  ghost predicate Ended(tr: seq<Sent>, n: nat, i: nat, key: string)
    requires i < |tr| && n <= |tr|
  {
    exists m :: i < m < n && Ends(tr, m, i, key)
  }

  ghost predicate Current(tr: seq<Sent>, n: nat, i: nat, key: string)
    requires i < |tr| && tr[i].cmd.Acquire? && n <= |tr|
  {
    exists m :: LastSet(tr, m, n, i, key) && key in StateAt(tr, n) &&
      StateAt(tr, n)[key] == Held(tr[i].cmd.token, ExpirySet(tr, m))
  }

  ghost predicate Dead(tr: seq<Sent>, n: nat, now: int, key: string, token: Token)
    requires n <= |tr|
  {
    key in StateAt(tr, n) && StateAt(tr, n)[key].token == token ==> StateAt(tr, n)[key].expiry < now
  }

  /** Some command before `n` came after the last expiry set for acquire `i` had passed. */
  ghost predicate Expired(tr: seq<Sent>, n: nat, i: nat, key: string)
    requires i < |tr| && tr[i].cmd.Acquire? && n <= |tr|
  {
    exists m: nat, x: nat :: LastSet(tr, m, n, i, key) && m < x < n && ExpirySet(tr, m) < tr[x].at &&
      Dead(tr, n, tr[x].at, key, tr[i].cmd.token)
  }

  lemma {:induction false} CurrentStep(tr: seq<Sent>, n: nat, i: nat, key: string)
    requires Ordered(tr) && FreshTokens(tr) && i < n < |tr| && Won(tr, i, key) && Current(tr, n, i, key)
    ensures Ended(tr, n + 1, i, key) || Current(tr, n + 1, i, key) || Expired(tr, n + 1, i, key)
  {
    var m :| LastSet(tr, m, n, i, key) && StateAt(tr, n)[key] == Held(tr[i].cmd.token, ExpirySet(tr, m));
    var s := StateAt(tr, n);
    if Ends(tr, n, i, key) {
      assert Ended(tr, n + 1, i, key);
    } else if Sets(tr, n, i, key) {
      assert LastSet(tr, n, n + 1, i, key);
    } else {
      assert LastSet(tr, m, n + 1, i, key);
      if Won(tr, n, key) {
        assert !Live(s, tr[n].at, key);
        assert ExpirySet(tr, m) < tr[n].at;
        assert Dead(tr, n + 1, tr[n].at, key, tr[i].cmd.token);
      } else {
        assert StateAt(tr, n + 1) == Run(s, tr[n].at, tr[n].cmd).0;
      }
    }
  }

  lemma {:induction false} DeadStep(tr: seq<Sent>, n: nat, now: int, key: string, token: Token)
    requires n < |tr| && now <= tr[n].at && Dead(tr, n, now, key, token)
    requires !(tr[n].cmd.Acquire? && tr[n].cmd.token == token)
    ensures Dead(tr, n + 1, now, key, token)
    ensures !tr[n].cmd.Acquire? && tr[n].cmd.key == key && tr[n].cmd.token == token ==>
              ReplyAt(tr, n) == LockNotHeld && StateAt(tr, n + 1) == StateAt(tr, n)
  {
  }

  lemma {:induction false} ExpiredStep(tr: seq<Sent>, n: nat, i: nat, key: string)
    requires Ordered(tr) && FreshTokens(tr) && i < n < |tr| && Won(tr, i, key) && Expired(tr, n, i, key)
    ensures Expired(tr, n + 1, i, key)
  {
    var m: nat, x: nat :| LastSet(tr, m, n, i, key) && m < x < n && ExpirySet(tr, m) < tr[x].at &&
      Dead(tr, n, tr[x].at, key, tr[i].cmd.token);
    DeadStep(tr, n, tr[x].at, key, tr[i].cmd.token);
    assert !Sets(tr, n, i, key);
    assert LastSet(tr, m, n + 1, i, key);
  }

  lemma {:induction false} FateStart(tr: seq<Sent>, i: nat, key: string)
    requires i < |tr| && Won(tr, i, key)
    ensures Current(tr, i + 1, i, key)
  {
    assert LastSet(tr, i, i + 1, i, key);
  }

  lemma {:induction false} EndedStep(tr: seq<Sent>, n: nat, i: nat, key: string)
    requires i < n < |tr| && Ended(tr, n, i, key)
    ensures Ended(tr, n + 1, i, key)
  {
    var m :| i < m < n && Ends(tr, m, i, key);
    assert i < m < n + 1;
  }

  ghost predicate Fated(tr: seq<Sent>, n: nat, i: nat, key: string)
    requires i < |tr| && tr[i].cmd.Acquire? && n <= |tr|
  {
    Ended(tr, n, i, key) || Current(tr, n, i, key) || Expired(tr, n, i, key)
  }

  lemma {:induction false} FateStep(tr: seq<Sent>, n: nat, i: nat, key: string)
    requires Ordered(tr) && FreshTokens(tr) && i < n < |tr| && Won(tr, i, key) && Fated(tr, n, i, key)
    ensures Fated(tr, n + 1, i, key)
  {
    if Ended(tr, n, i, key) {
      EndedStep(tr, n, i, key);
    } else if Current(tr, n, i, key) {
      CurrentStep(tr, n, i, key);
    } else {
      ExpiredStep(tr, n, i, key);
    }
  }

  lemma {:induction false} Fate(tr: seq<Sent>, n: nat, i: nat, key: string)
    requires Ordered(tr) && FreshTokens(tr) && i < n <= |tr| && Won(tr, i, key)
    ensures Fated(tr, n, i, key)
  {
    if n == i + 1 {
      FateStart(tr, i, key);
    } else {
      Fate(tr, n - 1, i, key);
      FateStep(tr, n - 1, i, key);
    }
  }

  /** Mutual exclusion: between two successful acquires of a key, in any interleaving of any number of
      clients, the first holder gave the lock up, or the expiry its last acquire or extend had set
      passed before the second acquire. */
  lemma {:induction false} AcquiresAreSeparated(tr: seq<Sent>, i: nat, j: nat, key: string)
    requires Ordered(tr) && FreshTokens(tr) && i < j < |tr| && Won(tr, i, key) && Won(tr, j, key)
    ensures Ended(tr, j, i, key) ||
            exists m :: LastSet(tr, m, j, i, key) && ExpirySet(tr, m) < tr[j].at
  {
    Fate(tr, j, i, key);
    if Current(tr, j, i, key) {
      var m :| LastSet(tr, m, j, i, key) && StateAt(tr, j)[key] == Held(tr[i].cmd.token, ExpirySet(tr, m));
      assert !Live(StateAt(tr, j), tr[j].at, key);
    } else if Expired(tr, j, i, key) {
      var m: nat, x: nat :| LastSet(tr, m, j, i, key) && m < x < j && ExpirySet(tr, m) < tr[x].at &&
        Dead(tr, j, tr[x].at, key, tr[i].cmd.token);
    }
  }

  // ---------------------------------------------------------------------------
  // And nothing else stands in the way
  // ---------------------------------------------------------------------------

  /** A stored key is there because of a winner that has not given it up and whose last expiry it carries. */
  ghost predicate Owned(tr: seq<Sent>, n: nat, key: string)
    requires n <= |tr|
  {
    exists i :: 0 <= i < n && Won(tr, i, key) && OwnedBy(tr, n, i, key)
  }

  ghost predicate OwnedBy(tr: seq<Sent>, n: nat, i: nat, key: string)
    requires i < |tr| && tr[i].cmd.Acquire? && n <= |tr|
  {
    !Ended(tr, n, i, key) && Current(tr, n, i, key)
  }

  lemma {:induction false} NotEndedStep(tr: seq<Sent>, n: nat, i: nat, key: string)
    requires i < n < |tr| && !Ended(tr, n, i, key) && !Ends(tr, n, i, key)
    ensures !Ended(tr, n + 1, i, key)
  {
  }

  lemma {:induction false} OwnedByStep(tr: seq<Sent>, n: nat, i: nat, key: string)
    requires i < n < |tr| && Won(tr, i, key) && OwnedBy(tr, n, i, key) && key in StateAt(tr, n + 1)
    requires !Won(tr, n, key)
    ensures OwnedBy(tr, n + 1, i, key)
  {
    var m :| LastSet(tr, m, n, i, key) && StateAt(tr, n)[key] == Held(tr[i].cmd.token, ExpirySet(tr, m));
    assert StateAt(tr, n + 1) == Run(StateAt(tr, n), tr[n].at, tr[n].cmd).0;
    assert !Ends(tr, n, i, key);
    NotEndedStep(tr, n, i, key);
    if Sets(tr, n, i, key) {
      assert LastSet(tr, n, n + 1, i, key);
    } else {
      assert LastSet(tr, m, n + 1, i, key);
      assert StateAt(tr, n + 1)[key] == StateAt(tr, n)[key];
    }
  }

  lemma {:induction false} OwnedStep(tr: seq<Sent>, n: nat, key: string)
    requires n < |tr| && key in StateAt(tr, n + 1) && (key in StateAt(tr, n) ==> Owned(tr, n, key))
    ensures Owned(tr, n + 1, key)
  {
    if Won(tr, n, key) {
      FateStart(tr, n, key);
      assert !Ended(tr, n + 1, n, key);
      assert OwnedBy(tr, n + 1, n, key);
    } else {
      assert key in StateAt(tr, n);
      var i :| 0 <= i < n && Won(tr, i, key) && OwnedBy(tr, n, i, key);
      OwnedByStep(tr, n, i, key);
    }
  }

  lemma {:induction false} StoredIsOwned(tr: seq<Sent>, n: nat, key: string)
    requires n <= |tr| && key in StateAt(tr, n)
    ensures Owned(tr, n, key)
  {
    if n > 0 {
      if key in StateAt(tr, n - 1) {
        StoredIsOwned(tr, n - 1, key);
      }
      OwnedStep(tr, n - 1, key);
    }
  }

  /** Winner `i` has given the lock up before command `j`, or its last set expiry has passed by then. */
  ghost predicate Over(tr: seq<Sent>, i: nat, j: nat, key: string)
    requires i < |tr| && tr[i].cmd.Acquire? && j < |tr|
  {
    Ended(tr, j, i, key) || exists m :: LastSet(tr, m, j, i, key) && ExpirySet(tr, m) < tr[j].at
  }

  lemma {:induction false} LastSetUnique(tr: seq<Sent>, m: nat, m': nat, n: nat, i: nat, key: string)
    requires i < |tr| && tr[i].cmd.Acquire? && n <= |tr| && LastSet(tr, m, n, i, key) && LastSet(tr, m', n, i, key)
    ensures m == m'
  {
  }

  /** An acquire with a positive TTL is won exactly when every earlier winner of the key has given it up or
      let it expire: exclusion, and no lock that a crashed holder leaves behind for good. */
  lemma {:induction false} AcquireWonIff(tr: seq<Sent>, j: nat, key: string)
    requires Ordered(tr) && FreshTokens(tr) && j < |tr|
    requires tr[j].cmd.Acquire? && tr[j].cmd.key == key && tr[j].cmd.ttl > 0
    ensures Won(tr, j, key) <==> forall i :: 0 <= i < j && Won(tr, i, key) ==> Over(tr, i, j, key)
  {
    if Won(tr, j, key) {
      forall i | 0 <= i < j && Won(tr, i, key)
        ensures Over(tr, i, j, key)
      {
        AcquiresAreSeparated(tr, i, j, key);
      }
    } else {
      assert Live(StateAt(tr, j), tr[j].at, key);
      StoredIsOwned(tr, j, key);
      var i :| 0 <= i < j && Won(tr, i, key) && OwnedBy(tr, j, i, key);
      var m :| LastSet(tr, m, j, i, key) && StateAt(tr, j)[key] == Held(tr[i].cmd.token, ExpirySet(tr, m));
      if m' :| LastSet(tr, m', j, i, key) && ExpirySet(tr, m') < tr[j].at {
        LastSetUnique(tr, m, m', j, i, key);
      }
      assert !Over(tr, i, j, key);
    }
  }

  /** A token that is no longer live stays dead: whatever is sent later, its Release and Extend are
      refused and change nothing. */
  lemma {:induction false} DeadStaysDead(tr: seq<Sent>, i: nat, n: nat, n': nat, now: int, key: string)
    requires Ordered(tr) && FreshTokens(tr) && i < n <= n' <= |tr| && Won(tr, i, key)
    requires Dead(tr, n, now, key, tr[i].cmd.token) && (n < |tr| ==> now <= tr[n].at)
    ensures Dead(tr, n', now, key, tr[i].cmd.token)
    ensures forall x :: n <= x < n' && !tr[x].cmd.Acquire? && tr[x].cmd.key == key && tr[x].cmd.token == tr[i].cmd.token ==>
              ReplyAt(tr, x) == LockNotHeld && StateAt(tr, x + 1) == StateAt(tr, x)
  {
    if n < n' {
      DeadStaysDead(tr, i, n, n' - 1, now, key);
      DeadStep(tr, n' - 1, now, key, tr[i].cmd.token);
    }
  }

  /** An Extend that arrives after the Release never revives the lock. */
  lemma {:induction false} ReleaseIsFinal(tr: seq<Sent>, i: nat, r: nat, n: nat, key: string)
    requires Ordered(tr) && FreshTokens(tr) && i < r < n <= |tr| && Won(tr, i, key)
    requires tr[r].cmd == Release(key, tr[i].cmd.token)
    ensures !Holds(StateAt(tr, n), tr[n - 1].at, key, tr[i].cmd.token)
    ensures forall x :: r < x < n && tr[x].cmd.Extend? && tr[x].cmd.key == key && tr[x].cmd.token == tr[i].cmd.token ==>
              ReplyAt(tr, x) == LockNotHeld
  {
    assert Dead(tr, r + 1, tr[r].at, key, tr[i].cmd.token);
    DeadStaysDead(tr, i, r + 1, n, tr[r].at, key);
  }
}
