/** The fixed-window rate limiter: one bucket per key, a window of one second. */
module RateLimit {
  datatype Bucket = Bucket(windowStart: real, count: int)

  function BucketOf<K>(table: map<K, Bucket>, key: K): Bucket {
    if key in table then table[key] else Bucket(0.0, 0)
  }

  /** The bucket after one more request at time `t`. */
  function Bump(b: Bucket, t: real): Bucket {
    if t - b.windowStart >= 1.0 then Bucket(t, 1) else Bucket(b.windowStart, b.count + 1)
  }

  /** `allow_rate`: the table after the request, and whether it is admitted. */
  function AllowRate<K>(table: map<K, Bucket>, key: K, t: real, maxPerSec: int): (map<K, Bucket>, bool) {
    var b := Bump(BucketOf(table, key), t);
    (table[key := b], b.count <= maxPerSec)
  }

  /** The bucket table as the source keeps it. */
  class RateTable<K(==)> {
    var buckets: map<K, Bucket>

    constructor ()
      ensures buckets == map[]
    {
      buckets := map[];
    }

    method Allow(key: K, t: real, maxPerSec: int) returns (ok: bool)
      modifies this
      ensures (buckets, ok) == AllowRate(old(buckets), key, t, maxPerSec)
    {
      var b := if key in buckets then buckets[key] else Bucket(0.0, 0);
      if t - b.windowStart >= 1.0 {
        b := Bucket(t, 0);
      }
      b := b.(count := b.count + 1);
      buckets := buckets[key := b];
      ok := b.count <= maxPerSec;
    }
  }

  // ---------------------------------------------------------------- runs of requests

  datatype Request<K> = Request(key: K, t: real)

  function TableAfter<K>(reqs: seq<Request<K>>, maxPerSec: int): map<K, Bucket> {
    if reqs == [] then map[]
    else
      var r := reqs[|reqs| - 1];
      AllowRate(TableAfter(reqs[..|reqs| - 1], maxPerSec), r.key, r.t, maxPerSec).0
  }

  /** How many requests of `key` with a time in [w, w + 1) the run admits. */
  function AdmittedIn<K(==)>(reqs: seq<Request<K>>, maxPerSec: int, key: K, w: real): (n: nat) {
    if reqs == [] then 0
    else
      var front, r := reqs[..|reqs| - 1], reqs[|reqs| - 1];
      var ok := AllowRate(TableAfter(front, maxPerSec), r.key, r.t, maxPerSec).1;
      AdmittedIn(front, maxPerSec, key, w) + if r.key == key && w <= r.t < w + 1.0 && ok then 1 else 0
  }

  function Clip(n: int, max: nat): nat {
    if n < 0 then 0 else if n < max then n else max
  }

  /** What the bucket of a key tells about the interval starting at `w`, `n` being the
      requests admitted in it up to the time `now`: an interval meets at most two windows. */
  ghost predicate Accounted(b: Bucket, max: nat, w: real, n: nat, now: real) {
    && b.count >= 0
    && (b.windowStart + 1.0 <= w ==> n == 0)
    && (b.windowStart <= w ==> n <= Clip(b.count, max))
    && (w < b.windowStart < w + 1.0 ==> n <= max + Clip(b.count, max))
    && (w + 1.0 <= b.windowStart ==> n <= Clip(b.count, max) || (b.windowStart <= now && n <= 2 * max))
  }

  lemma BumpAccounted(b: Bucket, max: nat, w: real, n: nat, t: real)
    requires Accounted(b, max, w, n, t)
    ensures Accounted(Bump(b, t), max, w, n + if w <= t < w + 1.0 && Bump(b, t).count <= max then 1 else 0, t)
  {
  }

  /** The requests of one key come in the order of time, and none after `now`. */
  ghost predicate InTime<K(!new)>(reqs: seq<Request<K>>, key: K, now: real) {
    && (forall i :: 0 <= i < |reqs| && reqs[i].key == key ==> reqs[i].t <= now)
    && (forall i, j :: 0 <= i < j < |reqs| && reqs[i].key == reqs[j].key == key ==> reqs[i].t <= reqs[j].t)
  }

  lemma {:induction false} RunAccounted<K(!new)>(reqs: seq<Request<K>>, max: nat, key: K, w: real, now: real)
    requires InTime(reqs, key, now)
    ensures Accounted(BucketOf(TableAfter(reqs, max), key), max, w, AdmittedIn(reqs, max, key, w), now)
  {
    if reqs != [] {
      var front, r := reqs[..|reqs| - 1], reqs[|reqs| - 1];
      if r.key == key {
        RunAccounted(front, max, key, w, r.t);
        BumpAccounted(BucketOf(TableAfter(front, max), key), max, w, AdmittedIn(front, max, key, w), r.t);
      } else {
        RunAccounted(front, max, key, w, now);
      }
    }
  }

  /** Any half-open interval of one second admits at most twice the limit for each key. */
  lemma AtMostTwice<K(!new)>(reqs: seq<Request<K>>, max: nat, key: K, w: real)
    requires forall i, j :: 0 <= i < j < |reqs| && reqs[i].key == reqs[j].key == key ==> reqs[i].t <= reqs[j].t
    ensures AdmittedIn(reqs, max, key, w) <= 2 * max
  {
    var now := Latest(reqs, key);
    RunAccounted(reqs, max, key, w, now);
  }

  lemma {:induction false} Latest<K(!new)>(reqs: seq<Request<K>>, key: K) returns (now: real)
    ensures forall i :: 0 <= i < |reqs| && reqs[i].key == key ==> reqs[i].t <= now
  {
    if reqs == [] {
      now := 0.0;
    } else {
      var n := Latest(reqs[..|reqs| - 1], key);
      var r := reqs[|reqs| - 1];
      now := if r.t <= n then n else r.t;
    }
  }

  // ---------------------------------------------------------------- keys do not affect each other

  function Only<K(==)>(reqs: seq<Request<K>>, key: K): seq<Request<K>> {
    if reqs == [] then []
    else
      var r := reqs[|reqs| - 1];
      Only(reqs[..|reqs| - 1], key) + if r.key == key then [r] else []
  }

  /** A key is served as if no other key existed. */
  lemma {:induction false} KeysIndependent<K>(reqs: seq<Request<K>>, maxPerSec: int, key: K, t: real)
    ensures BucketOf(TableAfter(reqs, maxPerSec), key) == BucketOf(TableAfter(Only(reqs, key), maxPerSec), key)
    ensures AllowRate(TableAfter(reqs, maxPerSec), key, t, maxPerSec).1
         == AllowRate(TableAfter(Only(reqs, key), maxPerSec), key, t, maxPerSec).1
  {
    if reqs != [] {
      var front, r := reqs[..|reqs| - 1], reqs[|reqs| - 1];
      KeysIndependent(front, maxPerSec, key, t);
      if r.key == key {
        assert (Only(front, key) + [r])[..|Only(front, key)|] == Only(front, key);
      } else {
        assert Only(reqs, key) == Only(front, key);
      }
    }
  }

  // ---------------------------------------------------------------- nobody starves

  /** A request at least a second after its window began is admitted if and only if the
      limit is positive. */
  lemma FreshWindowAdmits<K>(reqs: seq<Request<K>>, maxPerSec: int, key: K, t: real)
    requires t >= BucketOf(TableAfter(reqs, maxPerSec), key).windowStart + 1.0
    ensures AllowRate(TableAfter(reqs, maxPerSec), key, t, maxPerSec).1 <==> maxPerSec > 0
  {
  }

  /** With non-decreasing times a key's window never begins after its latest request, so
      a key that kept silent for a second is always served. */
  lemma {:induction false} WindowInThePast<K>(reqs: seq<Request<K>>, maxPerSec: int, key: K, now: real)
    requires now >= 0.0 && forall i :: 0 <= i < |reqs| && reqs[i].key == key ==> reqs[i].t <= now
    ensures BucketOf(TableAfter(reqs, maxPerSec), key).windowStart <= now
  {
    if reqs != [] {
      WindowInThePast(reqs[..|reqs| - 1], maxPerSec, key, now);
    }
  }

  lemma SilenceIsRewarded<K>(reqs: seq<Request<K>>, maxPerSec: int, key: K, t: real)
    requires t >= 1.0 && forall i :: 0 <= i < |reqs| && reqs[i].key == key ==> reqs[i].t + 1.0 <= t
    ensures AllowRate(TableAfter(reqs, maxPerSec), key, t, maxPerSec).1 <==> maxPerSec > 0
  {
    WindowInThePast(reqs, maxPerSec, key, t - 1.0);
  }

  // ---------------------------------------------------------------- the bound is exact

  /** `n` requests in the last moment of the first window, then `m` in the next one. */
  function Burst<K>(key: K, n: nat, m: nat): seq<Request<K>> {
    if m > 0 then Burst(key, n, m - 1) + [Request(key, 1.0)]
    else if n > 0 then Burst(key, n - 1, 0) + [Request(key, 0.5)]
    else []
  }

  /** Twice the limit is reached: two bursts either side of a window's end. */
  lemma {:induction false} TwiceReached<K>(key: K, max: nat, n: nat, m: nat)
    requires n <= max && m <= max
    ensures AdmittedIn(Burst(key, n, m), max, key, 0.5) == n + m
    ensures BucketOf(TableAfter(Burst(key, n, m), max), key) == if m > 0 then Bucket(1.0, m) else Bucket(0.0, n)
    decreases m, n
  {
    if m > 0 {
      TwiceReached(key, max, n, m - 1);
      assert Burst(key, n, m)[..|Burst(key, n, m)| - 1] == Burst(key, n, m - 1);
    } else if n > 0 {
      TwiceReached(key, max, n - 1, 0);
      assert Burst(key, n, 0)[..|Burst(key, n, 0)| - 1] == Burst(key, n - 1, 0);
    }
  }

  /** Why the order of time is a hypothesis: if a clock could jump forth and back, two full
      bursts would be followed by one more request in the same second. The server's steady
      clock never does. */
  lemma BackwardClockBreaksBound<K>(key: K, max: nat)
    requires max >= 2
    ensures var reqs := Burst(key, max, max) + [Request(key, 9.0)] + [Request(key, 1.0)];
            AdmittedIn(reqs, max, key, 0.5) == 2 * max + 1
  {
    var burst := Burst(key, max, max);
    TwiceReached(key, max, max, max);
    var forth := burst + [Request(key, 9.0)];
    assert forth[..|burst|] == burst;
    assert BucketOf(TableAfter(forth, max), key) == Bucket(9.0, 1);
    assert (forth + [Request(key, 1.0)])[..|forth|] == forth;
  }
}
