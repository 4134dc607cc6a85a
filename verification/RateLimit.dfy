/** The in-memory limiter of lib/rateLimit.js: a fixed window per key, opened by its first hit. */
module RateLimit {
  import opened Options

  datatype Bucket = Bucket(start: int, count: nat)

  datatype Limits = Limits(limit: nat, windowMs: nat) {
    ghost predicate Valid() { limit >= 1 && windowMs >= 1 }
  }

  /** One call of `hit`: who called and what the clock said. */
  datatype Call = Call(key: string, at: int)

  type Buckets = map<string, Bucket>

  function Opened(b: Buckets, c: Call, windowMs: nat): Bucket {
    if c.key in b && c.at - b[c.key].start < windowMs then b[c.key] else Bucket(c.at, 0)
  }

  function After(b: Buckets, c: Call, windowMs: nat): Buckets {
    var bucket := Opened(b, c, windowMs);
    b[c.key := Bucket(bucket.start, bucket.count + 1)]
  }

  predicate Admits(b: Buckets, c: Call, l: Limits) {
    Opened(b, c, l.windowMs).count + 1 <= l.limit
  }

  class Limiter {
    const limits: Limits
    var buckets: Buckets

    constructor (limits: Limits)
      ensures this.limits == limits && buckets == map[]
    {
      this.limits := limits;
      buckets := map[];
    }

    method Hit(key: string, now: int) returns (allowed: bool)
      modifies this
      ensures buckets == After(old(buckets), Call(key, now), limits.windowMs)
      ensures allowed == Admits(old(buckets), Call(key, now), limits)
    {
      var bucket := Bucket(0, 0);
      if key !in buckets || now - buckets[key].start >= limits.windowMs {
        bucket := Bucket(now, 0);
        buckets := buckets[key := bucket];
      } else {
        bucket := buckets[key];
      }
      bucket := Bucket(bucket.start, bucket.count + 1);
      buckets := buckets[key := bucket];
      allowed := bucket.count <= limits.limit;
    }
  }

  // ---- whole runs ----

  function Run(calls: seq<Call>, windowMs: nat): Buckets {
    if |calls| == 0 then map[]
    else After(Run(calls[..|calls| - 1], windowMs), calls[|calls| - 1], windowMs)
  }

  /** Was call number i of the run let through? */
  predicate Admitted(calls: seq<Call>, i: nat, l: Limits)
    requires i < |calls|
  {
    Admits(Run(calls[..i], l.windowMs), calls[i], l)
  }

  ghost predicate Nondecreasing(calls: seq<Call>) {
    forall i, j :: 0 <= i < j < |calls| ==> calls[i].at <= calls[j].at
  }

  /** Calls of `key` in the half-open interval [from, till), and how many of them were admitted. */
  function Hits(calls: seq<Call>, key: string, from: int, till: int): (n: nat) {
    if |calls| == 0 then 0
    else
      var c := calls[|calls| - 1];
      Hits(calls[..|calls| - 1], key, from, till) + (if c.key == key && from <= c.at < till then 1 else 0)
  }

  function AdmittedHits(calls: seq<Call>, key: string, from: int, till: int, l: Limits): (n: nat) {
    if |calls| == 0 then 0
    else
      var i := |calls| - 1;
      AdmittedHits(calls[..i], key, from, till, l)
      + (if calls[i].key == key && from <= calls[i].at < till && Admitted(calls, i, l) then 1 else 0)
  }

  function Min(a: int, b: int): int { if a <= b then a else b }

  /** What the live bucket of a key says about all calls so far. */
  ghost predicate BucketCovers(calls: seq<Call>, key: string, l: Limits) {
    var b := Run(calls, l.windowMs);
    && (key !in b ==> forall i :: 0 <= i < |calls| ==> calls[i].key != key)
    && (key in b ==> (
          && b[key].count >= 1
          && (exists i :: 0 <= i < |calls| && b[key].start <= calls[i].at)
          && (forall i :: 0 <= i < |calls| && calls[i].key == key ==> calls[i].at < b[key].start + l.windowMs)))
  }

  lemma {:induction false} BucketsCover(calls: seq<Call>, key: string, l: Limits)
    requires l.Valid() && Nondecreasing(calls)
    ensures BucketCovers(calls, key, l)
  {
    if |calls| > 0 {
      var i := |calls| - 1;
      BucketsCover(calls[..i], key, l);
      assert forall j :: 0 <= j < i ==> calls[..i][j] == calls[j];
      if calls[i].key == key {
        assert Run(calls, l.windowMs)[key].start <= calls[i].at;
      }
    }
  }

  lemma {:induction false} NoneBefore(calls: seq<Call>, key: string, from: int, till: int, l: Limits)
    requires forall i :: 0 <= i < |calls| && calls[i].key == key ==> calls[i].at < from
    ensures AdmittedHits(calls, key, from, till, l) == 0
  {
    if |calls| > 0 {
      NoneBefore(calls[..|calls| - 1], key, from, till, l);
    }
  }

  /**
   * The bound on admitted hits in [from, from + windowMs) that the live bucket (start s)
   * still allows: nothing of an older bucket can be inside once s <= from, and an older
   * bucket that reaches into the interval was opened before it, so it lost its first hit.
   */
  function Allowance(b: Bucket, from: int, l: Limits): int {
    var inBucket := Min(b.count, l.limit);
    if b.start < from then inBucket - 1
    else if b.start == from then inBucket
    else if b.start < from + l.windowMs then l.limit - 1 + inBucket
    else if l.windowMs == 1 then l.limit
    else 2 * l.limit - 1
  }

  lemma {:induction false} WithinAllowance(calls: seq<Call>, key: string, from: int, l: Limits)
    requires l.Valid() && Nondecreasing(calls)
    ensures var b := Run(calls, l.windowMs);
            AdmittedHits(calls, key, from, from + l.windowMs, l) <= if key in b then Allowance(b[key], from, l) else 0
  {
    if |calls| > 0 {
      var i := |calls| - 1;
      var before, c := calls[..i], calls[i];
      var b := Run(before, l.windowMs);
      WithinAllowance(before, key, from, l);
      BucketsCover(before, key, l);
      if c.key == key && (key !in b || c.at - b[key].start >= l.windowMs) && c.at <= from {
        NoneBefore(before, key, from, from + l.windowMs, l);
      }
    }
  }

  /**
   * Every half-open interval of one window length admits at most 2 * limit - 1 hits of a
   * key. The file's header promises a sliding window, which would admit `limit`.
   */
  lemma AdmittedInAnyWindow(calls: seq<Call>, key: string, from: int, l: Limits)
    requires l.Valid() && Nondecreasing(calls)
    ensures AdmittedHits(calls, key, from, from + l.windowMs, l) <= 2 * l.limit - 1
  {
    WithinAllowance(calls, key, from, l);
  }

  // ---- the bound is attained ----

  function Repeat(c: Call, n: nat): (r: seq<Call>)
    ensures |r| == n && forall i :: 0 <= i < n ==> r[i] == c
  {
    if n == 0 then [] else Repeat(c, n - 1) + [c]
  }

  lemma OneMoreCall(calls: seq<Call>, c: Call, key: string, from: int, till: int, l: Limits)
    ensures Run(calls + [c], l.windowMs) == After(Run(calls, l.windowMs), c, l.windowMs)
    ensures AdmittedHits(calls + [c], key, from, till, l) == AdmittedHits(calls, key, from, till, l)
      + (if c.key == key && from <= c.at < till && Admits(Run(calls, l.windowMs), c, l) then 1 else 0)
  {
    assert (calls + [c])[..|calls|] == calls;
  }

  lemma OneMoreRepeat(calls: seq<Call>, c: Call, n: nat)
    requires n > 0
    ensures calls + Repeat(c, n) == (calls + Repeat(c, n - 1)) + [c]
  {
  }

  /** A burst at one instant fills one bucket. */
  lemma {:induction false} BurstBucket(calls: seq<Call>, c: Call, n: nat, l: Limits)
    requires l.Valid()
    ensures var was, b := Opened(Run(calls, l.windowMs), c, l.windowMs), Run(calls + Repeat(c, n), l.windowMs);
            && Opened(b, c, l.windowMs) == Bucket(was.start, was.count + n)
            && (n > 0 ==> c.key in b && b[c.key] == Bucket(was.start, was.count + n))
  {
    if n == 0 {
      assert calls + Repeat(c, 0) == calls;
    } else {
      BurstBucket(calls, c, n - 1, l);
      OneMoreRepeat(calls, c, n);
      OneMoreCall(calls + Repeat(c, n - 1), c, c.key, 0, 0, l);
    }
  }

  /** It is admitted whole while it fits. */
  lemma {:induction false} Burst(calls: seq<Call>, c: Call, n: nat, from: int, l: Limits)
    requires l.Valid() && from <= c.at < from + l.windowMs
    requires Opened(Run(calls, l.windowMs), c, l.windowMs).count + n <= l.limit
    ensures AdmittedHits(calls + Repeat(c, n), c.key, from, from + l.windowMs, l)
         == AdmittedHits(calls, c.key, from, from + l.windowMs, l) + n
  {
    if n == 0 {
      assert calls + Repeat(c, 0) == calls;
    } else {
      Burst(calls, c, n - 1, from, l);
      BurstBucket(calls, c, n - 1, l);
      OneMoreRepeat(calls, c, n);
      OneMoreCall(calls + Repeat(c, n - 1), c, c.key, from, from + l.windowMs, l);
    }
  }

  /** One early hit, limit-1 hits at the end of its window, then a fresh full bucket. */
  function Straddle(key: string, l: Limits): seq<Call>
    requires l.Valid()
  {
    [Call(key, 0)] + Repeat(Call(key, l.windowMs - 1), l.limit - 1) + Repeat(Call(key, l.windowMs), l.limit)
  }

  lemma FirstHit(key: string, l: Limits)
    requires l.Valid()
    ensures Run([Call(key, 0)], l.windowMs) == map[key := Bucket(0, 1)]
    ensures AdmittedHits([Call(key, 0)], key, 1, 1 + l.windowMs, l) == 0
  {
    var first := [Call(key, 0)];
    assert first[..0] == [];
  }

  lemma FirstWindow(key: string, l: Limits) returns (full: seq<Call>)
    requires l.Valid() && l.windowMs >= 2
    ensures full == [Call(key, 0)] + Repeat(Call(key, l.windowMs - 1), l.limit - 1)
    ensures key in Run(full, l.windowMs) && Run(full, l.windowMs)[key].start == 0
    ensures AdmittedHits(full, key, 1, 1 + l.windowMs, l) == l.limit - 1
  {
    var first, late := [Call(key, 0)], Call(key, l.windowMs - 1);
    full := first + Repeat(late, l.limit - 1);
    FirstHit(key, l);
    BurstBucket(first, late, l.limit - 1, l);
    Burst(first, late, l.limit - 1, 1, l);
    if l.limit == 1 { assert full == first; }
  }

  lemma {:induction false} BoundIsAttained(key: string, l: Limits)
    requires l.Valid() && l.windowMs >= 2
    ensures Nondecreasing(Straddle(key, l))
    ensures AdmittedHits(Straddle(key, l), key, 1, 1 + l.windowMs, l) == 2 * l.limit - 1
  {
    var full := FirstWindow(key, l);
    Burst(full, Call(key, l.windowMs), l.limit, 1, l);
  }

  // ---- when the promise holds ----

  /** The admitted hits of one window length. */
  function AdmittedFrom(calls: seq<Call>, key: string, from: int, l: Limits): nat {
    AdmittedHits(calls, key, from, from + l.windowMs, l)
  }

  /** A sliding window: no interval of one window length admits more than `limit` hits of a key. */
  ghost predicate Slides(l: Limits)
    requires l.Valid()
  {
    forall calls, key, from :: Nondecreasing(calls) ==> AdmittedFrom(calls, key, from, l) <= l.limit
  }

  /** The fixed window is the promised sliding one exactly for a limit of one hit or a window of one millisecond. */
  lemma SlidesExactly(l: Limits)
    requires l.Valid()
    ensures Slides(l) <==> l.limit == 1 || l.windowMs == 1
  {
    if l.limit == 1 || l.windowMs == 1 {
      forall calls, key, from | Nondecreasing(calls)
        ensures AdmittedFrom(calls, key, from, l) <= l.limit
      {
        if l.limit == 1 {
          AdmittedInAnyWindow(calls, key, from, l);
        } else {
          WithinAllowance(calls, key, from, l);
        }
      }
    } else {
      BoundIsAttained("", l);
      assert AdmittedFrom(Straddle("", l), "", 1, l) > l.limit;
    }
  }

  // ---- refusals ----

  lemma {:induction false} BucketCounts(calls: seq<Call>, key: string, till: int, l: Limits)
    requires l.Valid() && Nondecreasing(calls)
    requires forall i :: 0 <= i < |calls| ==> calls[i].at < till
    ensures var b := Run(calls, l.windowMs);
            key in b ==> Hits(calls, key, b[key].start, till) >= b[key].count
  {
    if |calls| > 0 {
      var i := |calls| - 1;
      assert forall j :: 0 <= j < i ==> calls[..i][j] == calls[j];
      BucketCounts(calls[..i], key, till, l);
      BucketsCover(calls[..i], key, l);
      if calls[i].key == key && key in Run(calls[..i], l.windowMs) {
        assert exists j :: 0 <= j < i && Run(calls[..i], l.windowMs)[key].start <= calls[..i][j].at;
      }
    }
  }

  lemma {:induction false} HitsShrink(calls: seq<Call>, key: string, from: int, later: int, till: int)
    requires from <= later
    ensures Hits(calls, key, later, till) <= Hits(calls, key, from, till)
  {
    if |calls| > 0 {
      HitsShrink(calls[..|calls| - 1], key, from, later, till);
    }
  }

  /** A refused call saw at least `limit` earlier hits of its key in the window that ends with it. */
  lemma RefusalIsEarned(calls: seq<Call>, i: nat, l: Limits)
    requires l.Valid() && Nondecreasing(calls) && i < |calls| && !Admitted(calls, i, l)
    ensures Hits(calls[..i], calls[i].key, calls[i].at - l.windowMs + 1, calls[i].at + 1) >= l.limit
  {
    var before, c := calls[..i], calls[i];
    assert forall j :: 0 <= j < i ==> before[j] == calls[j];
    BucketCounts(before, c.key, c.at + 1, l);
    var b := Run(before, l.windowMs)[c.key];
    HitsShrink(before, c.key, c.at - l.windowMs + 1, b.start, c.at + 1);
  }
}
