/** The sliding-window limiter: a log of call times per key, kept in a list in memory or in a sorted
    set in Redis.  Refused calls are logged too. */
module RateLimiter {
  import opened Domain

  type Time = real

  /** The entries later than the cutoff. */
  function Prune(bucket: seq<Time>, cutoff: Time): seq<Time> {
    if bucket == [] then []
    else
      var front, t := bucket[..|bucket| - 1], bucket[|bucket| - 1];
      Prune(front, cutoff) + if t > cutoff then [t] else []
  }

  /** A sorted set of distinct scores and the time at which its key expires. */
  datatype SortedSet = SortedSet(members: set<Time>, expiresAt: Time)

  /** What is left when a call at `now` has removed the scores from 0 up to the cutoff. */
  function Remaining(z: Option<SortedSet>, now: Time, window: Time): set<Time> {
    if z.None? || z.value.expiresAt <= now then {}
    else set t | t in z.value.members && !(0.0 <= t <= now - window)
  }

  class Limiter {
    var enabled: bool
    var buckets: map<string, seq<Time>>
    var sortedSets: map<string, SortedSet>

    constructor (enabled: bool)
      ensures this.enabled == enabled && buckets == map[] && sortedSets == map[]
    {
      this.enabled, buckets, sortedSets := enabled, map[], map[];
    }

    function BucketOf(key: string): seq<Time>
      reads `buckets
    {
      if key in buckets then buckets[key] else []
    }

    function SetOf(key: string): Option<SortedSet>
      reads `sortedSets
    {
      if key in sortedSets then Some(sortedSets[key]) else None
    }

    /** The in-memory path, called for the time `ts[n]` of a history.  If the bucket is the one that the
        first n calls left, it becomes the one that n + 1 calls leave, with their verdict. */
    method IsRateLimited(key: string, maxRequests: int, window: Time, now: Time,
                         ghost ts: seq<Time>, ghost n: nat)
      returns (limited: bool)
      requires n < |ts| && ts[n] == now
      modifies `buckets
      ensures !enabled ==> !limited && buckets == old(buckets)
      ensures enabled ==>
        && buckets == old(buckets)[key := Prune(old(BucketOf(key)), now - window) + [now]]
        && (limited <==> |BucketOf(key)| > maxRequests)
      ensures enabled && old(BucketOf(key)) == Bucket(ts, n, window) ==>
        && BucketOf(key) == Bucket(ts, n + 1, window)
        && (limited <==> Limited(ts, n + 1, maxRequests, window))
    {
      if !enabled {
        return false;
      }
      var bucket := BucketOf(key);
      var kept: seq<Time> := [];
      for k := 0 to |bucket|
        invariant kept == Prune(bucket[..k], now - window)
      {
        assert bucket[..k + 1][..k] == bucket[..k];
        if bucket[k] > now - window {
          kept := kept + [bucket[k]];
        }
      }
      assert bucket[..|bucket|] == bucket;
      kept := kept + [now];
      buckets := buckets[key := kept];
      return |kept| > maxRequests;
    }

    /** The Redis path: one pipeline of four commands. */
    method IsRateLimitedSorted(key: string, maxRequests: int, window: Time, now: Time,
                               ghost ts: seq<Time>, ghost n: nat)
      returns (limited: bool)
      requires n < |ts| && ts[n] == now
      modifies `sortedSets
      ensures !enabled ==> !limited && sortedSets == old(sortedSets)
      ensures enabled ==>
        var left := Remaining(old(SetOf(key)), now, window);
        && sortedSets == old(sortedSets)[key := SortedSet(left + {now}, now + window)]
        && (limited <==> |left| >= maxRequests)
      ensures enabled && old(SetOf(key)) == SortedAfter(ts, n, window) ==>
        && SetOf(key) == SortedAfter(ts, n + 1, window)
        && (limited <==> LimitedSorted(ts, n + 1, maxRequests, window))
    {
      if !enabled {
        return false;
      }
      var left := Remaining(SetOf(key), now, window);
      sortedSets := sortedSets[key := SortedSet(left + {now}, now + window)];
      return |left| >= maxRequests;
    }
  }

  // ---- The first n calls of one key ----

  /** The bucket after the first n calls. */
  function Bucket(ts: seq<Time>, n: nat, window: Time): seq<Time>
    requires n <= |ts|
  {
    if n == 0 then [] else Prune(Bucket(ts, n - 1, window), ts[n - 1] - window) + [ts[n - 1]]
  }

  function SortedAfter(ts: seq<Time>, n: nat, window: Time): Option<SortedSet>
    requires n <= |ts|
  {
    if n == 0 then None
    else
      var now := ts[n - 1];
      Some(SortedSet(Remaining(SortedAfter(ts, n - 1, window), now, window) + {now}, now + window))
  }

  /** The verdicts on the n-th call, as the two paths give them. */
  predicate Limited(ts: seq<Time>, n: nat, maxRequests: int, window: Time)
    requires 0 < n <= |ts|
  {
    |Bucket(ts, n, window)| > maxRequests
  }

  predicate LimitedSorted(ts: seq<Time>, n: nat, maxRequests: int, window: Time)
    requires 0 < n <= |ts|
  {
    |Remaining(SortedAfter(ts, n - 1, window), ts[n - 1], window)| >= maxRequests
  }

  predicate NonDecreasing(ts: seq<Time>) {
    forall j, k | 0 <= j < k < |ts| :: ts[j] <= ts[k]
  }

  predicate Increasing(ts: seq<Time>) {
    forall j, k | 0 <= j < k < |ts| :: ts[j] < ts[k]
  }

  predicate NotNegative(ts: seq<Time>) {
    forall k | 0 <= k < |ts| :: ts[k] >= 0.0
  }

  lemma PruneAppend(bucket: seq<Time>, t: Time, c: Time)
    ensures Prune(bucket + [t], c) == Prune(bucket, c) + if t > c then [t] else []
  {
    assert (bucket + [t])[..|bucket|] == bucket;
  }

  lemma {:induction false} PruneTwice(bucket: seq<Time>, c: Time, d: Time)
    requires c <= d
    ensures Prune(Prune(bucket, c), d) == Prune(bucket, d)
  {
    if bucket != [] {
      var front, t := bucket[..|bucket| - 1], bucket[|bucket| - 1];
      PruneTwice(front, c, d);
      PruneAppend(Prune(front, c), t, d);
      assert t <= c ==> Prune(bucket, c) == Prune(front, c);
    }
  }

  lemma {:induction false} PruneMembers(bucket: seq<Time>, c: Time, t: Time)
    ensures t in Prune(bucket, c) <==> t in bucket && t > c
  {
    if bucket != [] {
      var front, x := bucket[..|bucket| - 1], bucket[|bucket| - 1];
      PruneMembers(front, c, t);
      assert bucket == front + [x];
    }
  }

  lemma PruneLater(older: seq<Time>, last: Time, c: Time, d: Time)
    requires c <= d
    ensures Prune(Prune(older, c) + [last], d) == Prune(older + [last], d)
  {
    PruneTwice(older, c, d);
    PruneAppend(Prune(older, c), last, d);
    PruneAppend(older, last, d);
  }

  /** The calls, allowed or not, before the n-th one that its window still covers. */
  function Recent(ts: seq<Time>, n: nat, window: Time): seq<Time>
    requires 0 < n <= |ts|
  {
    Prune(ts[..n - 1], ts[n - 1] - window)
  }

  /** Nothing is forgotten too early: the pruned bucket is the whole history filtered to the window. */
  lemma {:induction false} BucketIsWindow(ts: seq<Time>, n: nat, window: Time)
    requires 0 < n <= |ts| && NonDecreasing(ts)
    ensures Bucket(ts, n, window) == Recent(ts, n, window) + [ts[n - 1]]
  {
    if n > 1 {
      BucketIsWindow(ts, n - 1, window);
      PruneLater(ts[..n - 2], ts[n - 2], ts[n - 2] - window, ts[n - 1] - window);
      assert ts[..n - 2] + [ts[n - 2]] == ts[..n - 1];
    }
  }

  /** The n-th call is refused exactly when the limit is reached by earlier calls in its window. */
  lemma LimitedExactlyWhen(ts: seq<Time>, n: nat, maxRequests: int, window: Time)
    requires 0 < n <= |ts| && NonDecreasing(ts)
    ensures Limited(ts, n, maxRequests, window) <==> |Recent(ts, n, window)| >= maxRequests
  {
    BucketIsWindow(ts, n, window);
  }

  /** The calls among the first n that were allowed and fall into the window from `a`. */
  function AllowedWithin(ts: seq<Time>, n: nat, a: Time, maxRequests: int, window: Time): nat
    requires n <= |ts|
  {
    if n == 0 then 0
    else
      AllowedWithin(ts, n - 1, a, maxRequests, window)
      + if a <= ts[n - 1] < a + window && !Limited(ts, n, maxRequests, window) then 1 else 0
  }

  lemma {:induction false} AllowedAreInHistory(ts: seq<Time>, n: nat, a: Time, maxRequests: int, window: Time, c: Time)
    requires n <= |ts| && c < a
    ensures AllowedWithin(ts, n, a, maxRequests, window) <= |Prune(ts[..n], c)|
  {
    if n > 0 {
      AllowedAreInHistory(ts, n - 1, a, maxRequests, window, c);
      PruneAppend(ts[..n - 1], ts[n - 1], c);
      assert ts[..n - 1] + [ts[n - 1]] == ts[..n];
    }
  }

  lemma AllowedAreRecent(ts: seq<Time>, n: nat, a: Time, maxRequests: int, window: Time)
    requires 0 < n <= |ts| && ts[n - 1] < a + window
    ensures AllowedWithin(ts, n - 1, a, maxRequests, window) <= |Recent(ts, n, window)|
  {
    AllowedAreInHistory(ts, n - 1, a, maxRequests, window, ts[n - 1] - window);
  }

  /** Over any history with a clock that does not go back, no window holds more allowed calls than the
      limit. */
  lemma {:induction false} AtMostLimitPerWindow(ts: seq<Time>, n: nat, a: Time, maxRequests: int, window: Time)
    requires n <= |ts| && NonDecreasing(ts) && maxRequests >= 0
    ensures AllowedWithin(ts, n, a, maxRequests, window) <= maxRequests
  {
    if n > 0 {
      AtMostLimitPerWindow(ts, n - 1, a, maxRequests, window);
      if a <= ts[n - 1] < a + window && !Limited(ts, n, maxRequests, window) {
        LimitedExactlyWhen(ts, n, maxRequests, window);
        AllowedAreRecent(ts, n, a, maxRequests, window);
      }
    }
  }

  // ---- The sorted set against the list ----

  function Distinct(s: seq<Time>): set<Time> {
    set t | t in s
  }

  lemma {:induction false} DistinctSize(s: seq<Time>)
    ensures |Distinct(s)| <= |s|
    ensures Increasing(s) ==> |Distinct(s)| == |s|
  {
    if s != [] {
      var front, x := s[..|s| - 1], s[|s| - 1];
      DistinctSize(front);
      assert Distinct(s) == Distinct(front) + {x} by {
        assert s == front + [x];
      }
    }
  }

  /** The times of the first n calls that are later than the cutoff. */
  ghost function TimesAfter(ts: seq<Time>, n: nat, cutoff: Time): set<Time>
    requires n <= |ts|
  {
    set k | 0 <= k < n && ts[k] > cutoff :: ts[k]
  }

  lemma {:induction false} PruneTimes(ts: seq<Time>, n: nat, c: Time)
    requires n <= |ts|
    ensures Distinct(Prune(ts[..n], c)) == TimesAfter(ts, n, c)
  {
    if n > 0 {
      PruneTimes(ts, n - 1, c);
      PruneAppend(ts[..n - 1], ts[n - 1], c);
      assert ts[..n - 1] + [ts[n - 1]] == ts[..n];
      DistinctAppend(Prune(ts[..n - 1], c), ts[n - 1]);
      TimesAfterNext(ts, n, c);
    }
  }

  lemma TimesAfterNext(ts: seq<Time>, n: nat, c: Time)
    requires 0 < n <= |ts|
    ensures TimesAfter(ts, n, c) == TimesAfter(ts, n - 1, c) + if ts[n - 1] > c then {ts[n - 1]} else {}
  {
  }

  lemma DistinctAppend(s: seq<Time>, x: Time)
    ensures Distinct(s + [x]) == Distinct(s) + {x}
  {
  }

  /** Whether or not its key has expired, the sorted set holds the distinct times of the window. */
  lemma {:induction false} SortedHoldsWindow(ts: seq<Time>, n: nat, window: Time)
    requires 0 < n <= |ts| && NonDecreasing(ts) && NotNegative(ts)
    ensures Remaining(SortedAfter(ts, n - 1, window), ts[n - 1], window) == TimesAfter(ts, n - 1, ts[n - 1] - window)
  {
    if n > 1 {
      SortedHoldsWindow(ts, n - 1, window);
      var z := SortedSet(TimesAfter(ts, n - 2, ts[n - 2] - window) + {ts[n - 2]}, ts[n - 2] + window);
      assert SortedAfter(ts, n - 1, window) == Some(z);
      RemainingTimes(ts, n, window, z);
    }
  }

  lemma RemainingTimes(ts: seq<Time>, n: nat, window: Time, z: SortedSet)
    requires 1 < n <= |ts| && NonDecreasing(ts) && NotNegative(ts)
    requires z == SortedSet(TimesAfter(ts, n - 2, ts[n - 2] - window) + {ts[n - 2]}, ts[n - 2] + window)
    ensures Remaining(Some(z), ts[n - 1], window) == TimesAfter(ts, n - 1, ts[n - 1] - window)
  {
    assert ts[n - 2] <= ts[n - 1];
    forall k | 0 <= k < n - 1 ensures 0.0 <= ts[k] <= ts[n - 2] {
    }
  }

  /** What is kept of increasing times is increasing. */
  lemma {:induction false} PruneKeepsOrder(bucket: seq<Time>, c: Time)
    requires Increasing(bucket)
    ensures Increasing(Prune(bucket, c))
  {
    if bucket != [] {
      var front, x := bucket[..|bucket| - 1], bucket[|bucket| - 1];
      PruneKeepsOrder(front, c);
      forall k | 0 <= k < |Prune(front, c)| ensures Prune(front, c)[k] < x {
        PruneMembers(front, c, Prune(front, c)[k]);
      }
    }
  }

  /** The list counts the earlier calls in the window, the sorted set their distinct times.  So the
      sorted set is never the stricter, and with strictly increasing times the two paths give the same
      verdict on every call. */
  lemma PathsAgree(ts: seq<Time>, n: nat, maxRequests: int, window: Time)
    requires 0 < n <= |ts| && NonDecreasing(ts) && NotNegative(ts)
    ensures Limited(ts, n, maxRequests, window) <==> |Recent(ts, n, window)| >= maxRequests
    ensures LimitedSorted(ts, n, maxRequests, window) <==> |Distinct(Recent(ts, n, window))| >= maxRequests
    ensures LimitedSorted(ts, n, maxRequests, window) ==> Limited(ts, n, maxRequests, window)
    ensures Increasing(ts) ==> (LimitedSorted(ts, n, maxRequests, window) <==> Limited(ts, n, maxRequests, window))
  {
    LimitedExactlyWhen(ts, n, maxRequests, window);
    SortedHoldsWindow(ts, n, window);
    PruneTimes(ts, n - 1, ts[n - 1] - window);
    DistinctSize(Recent(ts, n, window));
    if Increasing(ts) {
      PruneKeepsOrder(ts[..n - 1], ts[n - 1] - window);
    }
  }

  /** Calls at the same time count once in the sorted set: of three or more, the one that exceeds the
      limit is refused in memory and allowed by Redis. */
  lemma SimultaneousCallsDiffer(ts: seq<Time>, n: nat, t: Time, window: Time)
    requires n == |ts| >= 3 && t >= 0.0 && window > 0.0 && forall k | 0 <= k < n :: ts[k] == t
    ensures Limited(ts, n, n - 1, window) && !LimitedSorted(ts, n, n - 1, window)
  {
    var front := ts[..n - 1];
    SameTimes(front, t, t - window);
    assert Recent(ts, n, window) == front;
    PathsAgree(ts, n, n - 1, window);
  }

  lemma SameTimes(s: seq<Time>, t: Time, c: Time)
    requires s != [] && t > c && forall k | 0 <= k < |s| :: s[k] == t
    ensures Prune(s, c) == s && |Distinct(s)| == 1
  {
    PruneKeepsAll(s, c);
    assert s[0] == t;
    assert Distinct(s) == {t};
  }

  lemma {:induction false} PruneKeepsAll(bucket: seq<Time>, c: Time)
    requires forall k | 0 <= k < |bucket| :: bucket[k] > c
    ensures Prune(bucket, c) == bucket
  {
    if bucket != [] {
      PruneKeepsAll(bucket[..|bucket| - 1], c);
    }
  }
}
