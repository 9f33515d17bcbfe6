/** Redis sorted sets: a score per member, read in (score, member) order. */
module SortedSet {
  import opened Jobs

  type ZSet = map<JobId, int>

  predicate Before(z: ZSet, a: JobId, b: JobId)
    requires a in z && b in z
  {
    z[a] < z[b] || (z[a] == z[b] && a <= b)
  }

  predicate IsFirst(z: ZSet, ks: set<JobId>, k: JobId)
    requires ks <= z.Keys
  {
    k in ks && forall j <- ks :: Before(z, k, j)
  }

  lemma {:induction false} FirstExists(z: ZSet, ks: set<JobId>)
    requires ks <= z.Keys && ks != {}
    ensures exists k :: IsFirst(z, ks, k)
    decreases ks
  {
    var x :| x in ks;
    if ks == {x} {
      assert IsFirst(z, ks, x);
    } else {
      FirstExists(z, ks - {x});
      var k :| IsFirst(z, ks - {x}, k);
      assert forall j <- ks :: j == x || j in ks - {x};
      if Before(z, x, k) {
        assert IsFirst(z, ks, x);
      } else {
        assert IsFirst(z, ks, k);
      }
    }
  }

  /** The members `ks` listed by score, ties by member. */
  function ByScore(z: ZSet, ks: set<JobId>): seq<JobId>
    requires ks <= z.Keys
    decreases ks
  {
    if ks == {} then []
    else
      FirstExists(z, ks);
      var k :| IsFirst(z, ks, k);
      [k] + ByScore(z, ks - {k})
  }

  function Within(z: ZSet, lo: int, hi: int): set<JobId> {
    set k | k in z && lo <= z[k] <= hi
  }

  /** `ZRANGEBYSCORE z lo hi`. */
  function RangeByScore(z: ZSet, lo: int, hi: int): seq<JobId> {
    ByScore(z, Within(z, lo, hi))
  }

  /** The `LIMIT 0 count` clause, which the client sends only for a non-zero count;
      a negative count means no limit to Redis. */
  function Limit(s: seq<JobId>, count: int): (r: seq<JobId>)
    ensures r <= s
  {
    if count <= 0 || |s| <= count then s else s[..count]
  }

  ghost predicate IsListing(z: ZSet, ks: set<JobId>, r: seq<JobId>) {
    && ks <= z.Keys
    && (forall k :: k in r <==> k in ks)
    && forall i, j :: 0 <= i < j < |r| ==> r[i] != r[j] && Before(z, r[i], r[j])
  }

  /** A range lists exactly the members scored within it, each once, in (score, member) order. */
  lemma {:induction false} RangeListing(z: ZSet, lo: int, hi: int)
    ensures IsListing(z, Within(z, lo, hi), RangeByScore(z, lo, hi))
  {
    ByScoreListing(z, Within(z, lo, hi));
  }

  lemma {:induction false} ByScoreListing(z: ZSet, ks: set<JobId>)
    requires ks <= z.Keys
    ensures IsListing(z, ks, ByScore(z, ks))
    decreases ks
  {
    if ks != {} {
      FirstExists(z, ks);
      var k := ByScore(z, ks)[0];
      assert IsFirst(z, ks, k) && ByScore(z, ks) == [k] + ByScore(z, ks - {k});
      ByScoreListing(z, ks - {k});
    }
  }

  lemma {:induction false} ListingTail(z: ZSet, ks: set<JobId>, r: seq<JobId>)
    requires IsListing(z, ks, r) && r != []
    ensures IsListing(z, ks - {r[0]}, r[1..])
  {
    assert r == [r[0]] + r[1..];
  }

  /** A listing in order is determined by its members. */
  lemma {:induction false} ListingUnique(z: ZSet, ks: set<JobId>, a: seq<JobId>, b: seq<JobId>)
    requires IsListing(z, ks, a) && IsListing(z, ks, b)
    ensures a == b
    decreases ks
  {
    assert b == [] || b[0] in a;
    if a != [] {
      assert a[0] in ks;
      assert b[0] in a && a[0] in b;
      assert a[0] == b[0];
      ListingTail(z, ks, a);
      ListingTail(z, ks, b);
      ListingUnique(z, ks - {a[0]}, a[1..], b[1..]);
      assert a == [a[0]] + a[1..] && b == [b[0]] + b[1..];
    }
  }

  lemma {:induction false} ListingSuffix(z: ZSet, ks: set<JobId>, r: seq<JobId>, n: nat, z': ZSet, ks': set<JobId>)
    requires IsListing(z, ks, r) && n <= |r|
    requires forall k :: k in ks' <==> k in ks && k !in r[..n]
    requires forall k <- ks' :: k in z' && z'[k] == z[k]
    ensures IsListing(z', ks', r[n..])
  {
    var tail := r[n..];
    assert forall i :: 0 <= i < |tail| ==> tail[i] == r[n + i];
    forall k
      ensures k in tail <==> k in ks'
    {
      assert r == r[..n] + tail;
    }
  }

  /** Dropping the first `n` members of a range leaves the rest of the listing, in the same order. */
  lemma {:induction false} RangeDrop(z: ZSet, lo: int, hi: int, n: nat, z': ZSet)
    requires n <= |RangeByScore(z, lo, hi)|
    requires z' == z - (set k <- RangeByScore(z, lo, hi)[..n])
    ensures RangeByScore(z', lo, hi) == RangeByScore(z, lo, hi)[n..]
  {
    var all := RangeByScore(z, lo, hi);
    var ks, ks' := Within(z, lo, hi), Within(z', lo, hi);
    RangeListing(z, lo, hi);
    RangeListing(z', lo, hi);
    ListingSuffix(z, ks, all, n, z', ks');
    ListingUnique(z', ks', RangeByScore(z', lo, hi), all[n..]);
  }
}
