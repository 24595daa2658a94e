/**
 The Redis limiter: a counter per window-long bucket, the previous bucket weighted by the part of it
 that a sliding window would still cover. Fractions are compared after multiplying by the window.
 */
module SlidingWindow {
  import opened Times

  datatype Bucket = Bucket(count: nat, expiresAt: int)

  /** Keyed by client and bucket number. */
  type Buckets = map<(string, int), Bucket>

  datatype Result = Result(allowed: bool, limit: int, remaining: int, retryAfter: int)

  /** GET: a key past its expiry is not there, whether or not Redis has removed it yet. */
  function Get(bs: Buckets, key: string, index: int, now: int): nat {
    if (key, index) in bs && now <= bs[(key, index)].expiresAt then bs[(key, index)].count else 0
  }

  /** previous * weight + current, times the window. */
  function Scaled(previous: nat, current: nat, window: int, elapsed: int): int {
    previous * (window - elapsed) + current * window
  }

  predicate Admits(previous: nat, current: nat, window: int, limit: int, elapsed: int) {
    Scaled(previous, current, window, elapsed) < limit * window
  }

  function Script(bs: Buckets, key: string, window: int, limit: int, now: int): (Buckets, Result)
    requires window > 0
  {
    var index := now / window;
    var elapsed := now % window;
    var current := Get(bs, key, index, now);
    var previous := Get(bs, key, index - 1, now);
    if !Admits(previous, current, window, limit, elapsed) then (bs, Result(false, limit, 0, window - elapsed))
    else
      var left := (limit * window - Scaled(previous, current + 1, window, elapsed)) / window;
      (bs[(key, index) := Bucket(current + 1, now + window * 2)],
       Result(true, limit, if left < 0 then 0 else left, window - elapsed))
  }

  const DEFAULT_WINDOW := 1000

  class RedisLimiter {
    var buckets: Buckets

    constructor ()
      ensures buckets == map[]
    {
      buckets := map[];
    }

    method Allow(key: string, requests: int, windowMs: int, now: int) returns (r: Result)
      modifies this
      ensures (buckets, r) ==
        Script(old(buckets), key, if windowMs <= 0 then DEFAULT_WINDOW else windowMs, requests, now)
      ensures var window := if windowMs <= 0 then 1000 else windowMs;
        var count := Get(old(buckets), key, now / window, now);
        buckets == if !r.allowed then old(buckets)
          else old(buckets)[(key, now / window) := Bucket(count + 1, now + 2 * window)]
    {
      var window := windowMs;
      if window <= 0 {
        window := DEFAULT_WINDOW;
      }
      var index := now / window;
      var current := Get(buckets, key, index, now);
      var previous := Get(buckets, key, index - 1, now);
      var elapsed := now % window;
      var count := previous * (window - elapsed) + current * window;
      var retry := window - elapsed;
      if count >= requests * window {
        return Result(false, requests, 0, retry);
      }
      current := current + 1;
      buckets := buckets[(key, index) := Bucket(current, now + window * 2)];
      count := previous * (window - elapsed) + current * window;
      var remaining := (requests * window - count) / window;
      if remaining < 0 {
        remaining := 0;
      }
      r := Result(true, requests, remaining, retry);
    }
  }

  // Histories

  function InBucket(h: seq<int>, index: int, window: int): nat {
    Count(h, index * window, (index + 1) * window)
  }

  /** The same limiter with every bucket kept forever: its counters are counts of its own admissions. */
  predicate AdmitsForever(h: seq<int>, window: int, limit: int, now: int)
    requires window > 0
  {
    Admits(InBucket(h, now / window - 1, window), InBucket(h, now / window, window), window, limit, now % window)
  }

  function Forever(times: seq<int>, window: int, limit: int): seq<int>
    requires window > 0
  {
    if times == [] then []
    else
      var h := Forever(times[..|times| - 1], window, limit);
      var now := times[|times| - 1];
      if AdmitsForever(h, window, limit, now) then h + [now] else h
  }

  /** One call, and the expired keys Redis removes on its own just before it. */
  datatype Call = Call(key: string, window: int, limit: int, now: int, removed: set<(string, int)>)

  function Remove(bs: Buckets, call: Call): Buckets {
    map k | k in bs && !(k in call.removed && bs[k].expiresAt < call.now) :: bs[k]
  }

  function Run(calls: seq<Call>): Buckets
    requires forall c :: c in calls ==> c.window > 0
  {
    if calls == [] then map[]
    else
      var c := calls[|calls| - 1];
      Script(Remove(Run(calls[..|calls| - 1]), c), c.key, c.window, c.limit, c.now).0
  }

  predicate Decision(calls: seq<Call>, c: Call)
    requires forall c :: c in calls ==> c.window > 0
    requires c.window > 0
  {
    Script(Remove(Run(calls), c), c.key, c.window, c.limit, c.now).1.allowed
  }

  /** Times of the calls of one client. */
  function TimesOf(calls: seq<Call>, key: string): seq<int> {
    if calls == [] then []
    else
      var c := calls[|calls| - 1];
      TimesOf(calls[..|calls| - 1], key) + (if c.key == key then [c.now] else [])
  }

  /** Readings of one clock never go back, and a client always comes with the same rule. */
  ghost predicate Orderly(calls: seq<Call>, key: string, window: int, limit: int) {
    && (forall i, j :: 0 <= i < j < |calls| ==> calls[i].now <= calls[j].now)
    && (forall i :: 0 <= i < |calls| ==> calls[i].window > 0)
    && (forall i :: 0 <= i < |calls| && calls[i].key == key ==> calls[i].window == window && calls[i].limit == limit)
  }

  // Expiry is invisible

  /** A live or future bucket holds its count; a missing one is empty or two windows in the past. */
  ghost predicate Mirrors(bs: Buckets, key: string, h: seq<int>, window: int, clock: int) {
    forall index ::
      if (key, index) in bs then
        bs[(key, index)].count == InBucket(h, index, window) && (index + 2) * window <= bs[(key, index)].expiresAt
      else InBucket(h, index, window) == 0 || (index + 2) * window <= clock
  }

  lemma Multiply(a: int, b: int, w: int)
    requires a <= b && w >= 0
    ensures a * w <= b * w
  {
    assert (b - a) * w >= 0;
  }

  lemma DivFacts(now: int, window: int)
    requires window > 0
    ensures now / window * window == now - now % window && 0 <= now % window < window
    ensures (now / window + 1) * window == now / window * window + window
  {
  }

  lemma BucketOf(now: int, window: int, index: int)
    requires window > 0
    ensures index * window <= now < (index + 1) * window <==> index == now / window
    ensures now < (now / window + 1) * window && now / window * window == now - now % window
  {
    DivFacts(now, window);
    if index < now / window { Multiply(index + 1, now / window, window); }
    if index > now / window { Multiply(now / window + 1, index, window); }
  }

  lemma GetsAgree(bs: Buckets, key: string, h: seq<int>, window: int, now: int)
    requires window > 0 && Mirrors(bs, key, h, window, now)
    ensures Get(bs, key, now / window, now) == InBucket(h, now / window, window)
    ensures Get(bs, key, now / window - 1, now) == InBucket(h, now / window - 1, window)
  {
    var index := now / window;
    BucketOf(now, window, index);
    assert (index - 1 + 2) * window == (index + 1) * window;
    assert (index + 2) * window == (index + 1) * window + window;
  }

  lemma RemoveMirrors(bs: Buckets, call: Call, key: string, h: seq<int>, window: int, clock: int)
    requires Mirrors(bs, key, h, window, clock) && clock <= call.now
    ensures Mirrors(Remove(bs, call), key, h, window, call.now)
  {
  }

  lemma CallMirrors(bs: Buckets, key: string, h: seq<int>, window: int, limit: int, now: int)
    requires window > 0 && Mirrors(bs, key, h, window, now)
    ensures Script(bs, key, window, limit, now).1.allowed == AdmitsForever(h, window, limit, now)
    ensures Mirrors(Script(bs, key, window, limit, now).0, key,
      if AdmitsForever(h, window, limit, now) then h + [now] else h, window, now)
  {
    GetsAgree(bs, key, h, window, now);
    if AdmitsForever(h, window, limit, now) {
      var after := Script(bs, key, window, limit, now).0;
      var q := now / window;
      assert (h + [now])[..|h|] == h;
      forall index
        ensures InBucket(h + [now], index, window) == InBucket(h, index, window) + (if index == q then 1 else 0)
      {
        BucketOf(now, window, index);
      }
      BucketOf(now, window, q);
      assert (q + 2) * window == q * window + 2 * window;
      forall index
        ensures if (key, index) in after then
            after[(key, index)].count == InBucket(h + [now], index, window)
              && (index + 2) * window <= after[(key, index)].expiresAt
          else InBucket(h + [now], index, window) == 0 || (index + 2) * window <= now
      {
      }
    }
  }

  lemma OtherKey(bs: Buckets, key: string, other: string, h: seq<int>, window: int, clock: int, w: int, limit: int,
                 now: int)
    requires Mirrors(bs, key, h, window, clock) && other != key && w > 0
    ensures Mirrors(Script(bs, other, w, limit, now).0, key, h, window, clock)
  {
    var after := Script(bs, other, w, limit, now).0;
    forall index ensures (key, index) in after <==> (key, index) in bs {
    }
  }

  lemma {:induction false} RunMirrors(calls: seq<Call>, key: string, window: int, limit: int, clock: int)
    requires window > 0 && Orderly(calls, key, window, limit)
    requires forall c :: c in calls ==> c.now <= clock
    ensures Mirrors(Run(calls), key, Forever(TimesOf(calls, key), window, limit), window, clock)
  {
    if calls == [] {
      assert forall index :: InBucket([], index, window) == 0;
    } else {
      var c := calls[|calls| - 1];
      var before := calls[..|calls| - 1];
      RunMirrors(before, key, window, limit, c.now);
      var h := Forever(TimesOf(before, key), window, limit);
      var bs := Remove(Run(before), c);
      RemoveMirrors(Run(before), c, key, h, window, c.now);
      if c.key == key {
        CallMirrors(bs, key, h, window, limit, c.now);
        assert TimesOf(calls, key)[..|TimesOf(calls, key)| - 1] == TimesOf(before, key);
      } else {
        OtherKey(bs, key, c.key, h, window, c.now, c.window, c.limit, c.now);
        assert TimesOf(calls, key) == TimesOf(before, key);
      }
    }
  }

  /** A limiter whose keys expire two windows after their last increment answers every call as one
      that never forgets, whatever other clients do and whenever Redis removes what has expired. */
  lemma ExpiryChangesNothing(calls: seq<Call>, c: Call)
    requires Orderly(calls + [c], c.key, c.window, c.limit)
    ensures (forall x :: x in calls ==> x.window > 0) && c.window > 0
    ensures Decision(calls, c)
      == AdmitsForever(Forever(TimesOf(calls, c.key), c.window, c.limit), c.window, c.limit, c.now)
  {
    assert (calls + [c])[|calls|] == c;
    forall i | 0 <= i < |calls| ensures calls[i] == (calls + [c])[i] {}
    RunMirrors(calls, c.key, c.window, c.limit, c.now);
    var h := Forever(TimesOf(calls, c.key), c.window, c.limit);
    RemoveMirrors(Run(calls), c, c.key, h, c.window, c.now);
    CallMirrors(Remove(Run(calls), c), c.key, h, c.window, c.limit, c.now);
  }

  // How many are let through

  /** Every admission was decided on the admissions before it. */
  ghost predicate Decided(h: seq<int>, window: int, limit: int)
    requires window > 0
  {
    Sorted(h) && AllDecided(h, window, limit, |h|)
  }

  lemma {:induction false} ForeverFromTimes(times: seq<int>, window: int, limit: int)
    requires window > 0
    ensures forall t :: t in Forever(times, window, limit) ==> t in times
  {
    if times != [] { ForeverFromTimes(times[..|times| - 1], window, limit); }
  }

  ghost predicate AllDecided(h: seq<int>, window: int, limit: int, n: nat)
    requires window > 0 && n <= |h|
  {
    forall i :: 0 <= i < n ==> AdmitsForever(h[..i], window, limit, h[i])
  }

  lemma ExtendDecided(h: seq<int>, window: int, limit: int, now: int)
    requires window > 0 && AllDecided(h, window, limit, |h|)
    ensures AllDecided(h + [now], window, limit, |h|)
  {
    forall i | 0 <= i < |h| ensures (h + [now])[..i] == h[..i] && (h + [now])[i] == h[i] {
    }
  }

  lemma AppendDecided(h: seq<int>, window: int, limit: int, now: int)
    requires window > 0 && Decided(h, window, limit) && AdmitsForever(h, window, limit, now)
    requires forall t :: t in h ==> t <= now
    ensures Decided(h + [now], window, limit)
  {
    ExtendDecided(h, window, limit, now);
    SortedAppend(h, now);
    var all := h + [now];
    assert all[..|h|] == h && all[|h|] == now;
    LastDecided(all, window, limit, |h|);
  }

  lemma LastDecided(h: seq<int>, window: int, limit: int, n: nat)
    requires window > 0 && n < |h|
    requires AllDecided(h, window, limit, n) && AdmitsForever(h[..n], window, limit, h[n])
    ensures AllDecided(h, window, limit, n + 1)
  {
  }

  lemma PrefixDecided(h: seq<int>, window: int, limit: int)
    requires window > 0 && h != [] && Decided(h, window, limit)
    ensures Decided(h[..|h| - 1], window, limit)
    ensures AdmitsForever(h[..|h| - 1], window, limit, h[|h| - 1])
  {
    var front := h[..|h| - 1];
    forall i | 0 <= i < |front| ensures AdmitsForever(front[..i], window, limit, front[i]) {
      assert front[..i] == h[..i];
    }
  }

  lemma {:induction false} ForeverDecided(times: seq<int>, window: int, limit: int)
    requires window > 0 && Sorted(times)
    ensures Decided(Forever(times, window, limit), window, limit)
  {
    if times != [] {
      var front := times[..|times| - 1];
      ForeverDecided(front, window, limit);
      ForeverFromTimes(front, window, limit);
      if AdmitsForever(Forever(front, window, limit), window, limit, times[|times| - 1]) {
        AppendDecided(Forever(front, window, limit), window, limit, times[|times| - 1]);
      }
    }
  }

  lemma CurrentBelowLimit(previous: nat, current: nat, window: int, limit: int, elapsed: int)
    requires window > 0 && 0 <= elapsed < window && Admits(previous, current, window, limit, elapsed)
    ensures current < limit
  {
    assert previous * (window - elapsed) >= 0;
    if current >= limit { Multiply(limit, current, window); }
  }

  /** No bucket ever admits more than the limit. */
  lemma {:induction false} BucketBound(h: seq<int>, window: int, limit: nat, index: int)
    requires window > 0 && Decided(h, window, limit)
    ensures InBucket(h, index, window) <= limit
  {
    if h != [] {
      var n := |h| - 1;
      PrefixDecided(h, window, limit);
      BucketBound(h[..n], window, limit, index);
      BucketOf(h[n], window, index);
      if index == h[n] / window {
        CurrentBelowLimit(InBucket(h[..n], index - 1, window), InBucket(h[..n], index, window), window, limit,
          h[n] % window);
      }
    }
  }

  /** A window ending at t reaches at most into the previous bucket. */
  lemma WindowSpansTwoBuckets(h: seq<int>, t: int, window: int)
    requires window > 0
    ensures Count(h, t - window + 1, t + 1) <= InBucket(h, t / window - 1, window) + InBucket(h, t / window, window)
  {
    var q := t / window;
    DivFacts(t, window);
    assert (q - 1) * window == q * window - window;
    CountSplit(h, t - window + 1, q * window, t + 1);
    CountWider(h, t - window + 1, q * window, (q - 1) * window, q * window);
    CountWider(h, q * window, t + 1, q * window, (q + 1) * window);
  }

  lemma Sharp(total: int, p: nat, c: nat, window: int, limit: int, e: int)
    requires window > 0 && total <= p + c + 1 && Admits(p, c, window, limit, e)
    ensures total * window < (limit + 1) * window + p * e
  {
    Multiply(total, p + c + 1, window);
    assert p * (window - e) == p * window - p * e;
    assert (p + c + 1) * window == p * window + c * window + window;
    assert (limit + 1) * window == limit * window + window;
  }

  /** The sharp bound: at an admission, the window ending there holds T with T*W < (L+1)*W + P*e,
      P being the previous bucket's count and e the time since the bucket began. */
  lemma WindowAtAdmission(h: seq<int>, window: int, limit: nat)
    requires window > 0 && h != [] && Decided(h, window, limit)
    ensures var before, t := h[..|h| - 1], h[|h| - 1];
      Count(h, t - window + 1, t + 1) * window
        < (limit + 1) * window + InBucket(before, t / window - 1, window) * (t % window)
    ensures Count(h, h[|h| - 1] - window + 1, h[|h| - 1] + 1) <= 2 * limit
  {
    var before, t := h[..|h| - 1], h[|h| - 1];
    PrefixDecided(h, window, limit);
    var p, c := InBucket(before, t / window - 1, window), InBucket(before, t / window, window);
    WindowSpansTwoBuckets(before, t, window);
    var total := Count(h, t - window + 1, t + 1);
    Sharp(total, p, c, window, limit, t % window);
    BucketBound(before, window, limit, t / window - 1);
    TwiceLimit(total, p, limit, window, t % window);
  }

  lemma TwiceLimit(total: int, p: nat, limit: nat, window: int, e: int)
    requires p <= limit && 0 <= e < window && total * window < (limit + 1) * window + p * e
    ensures total <= 2 * limit
  {
    Multiply(p, limit, e);
    Multiply(e, window, limit);
    assert p * e <= limit * window;
    assert (2 * limit + 1) * window == (limit + 1) * window + limit * window;
    if total > 2 * limit { Multiply(2 * limit + 1, total, window); }
  }

  /** No interval one window long ever admits more than twice the limit. */
  lemma {:induction false} AnyWindowBound(h: seq<int>, window: int, limit: nat, lo: int)
    requires window > 0 && Decided(h, window, limit)
    ensures Count(h, lo, lo + window) <= 2 * limit
  {
    if h != [] {
      var n := |h| - 1;
      if lo <= h[n] < lo + window {
        WindowAtAdmission(h, window, limit);
        LastIsLatest(h, lo, lo + window);
        CountWider(h, lo, h[n] + 1, h[n] - window + 1, h[n] + 1);
      } else {
        PrefixDecided(h, window, limit);
        AnyWindowBound(h[..n], window, limit, lo);
      }
    }
  }

  lemma LastIsLatest(h: seq<int>, lo: int, hi: int)
    requires h != [] && Sorted(h) && lo <= h[|h| - 1] < hi
    ensures Count(h, lo, hi) == Count(h, lo, h[|h| - 1] + 1)
  {
    var last := h[|h| - 1];
    CountSplit(h, lo, last + 1, hi);
    NoneAbove(h, last + 1, hi);
  }

  /** The times at which the script let this client through. */
  function Admitted(calls: seq<Call>, key: string): seq<int>
    requires forall c :: c in calls ==> c.window > 0
  {
    if calls == [] then []
    else
      var before, c := calls[..|calls| - 1], calls[|calls| - 1];
      Admitted(before, key) + (if c.key == key && Decision(before, c) then [c.now] else [])
  }

  lemma {:induction false} AdmittedIsForever(calls: seq<Call>, key: string, window: int, limit: int)
    requires window > 0 && Orderly(calls, key, window, limit)
    ensures Admitted(calls, key) == Forever(TimesOf(calls, key), window, limit)
  {
    if calls != [] {
      var before, c := calls[..|calls| - 1], calls[|calls| - 1];
      AdmittedIsForever(before, key, window, limit);
      assert calls == before + [c];
      if c.key == key {
        ExpiryChangesNothing(before, c);
        ForeverStep(TimesOf(before, key), c.now, window, limit);
      } else {
        assert TimesOf(calls, key) == TimesOf(before, key);
      }
    }
  }

  /** The theorem over whole runs: one bucket admits at most L, any window at most 2L. */
  lemma SlidingBound(calls: seq<Call>, key: string, window: int, limit: nat, lo: int, index: int)
    requires window > 0 && Orderly(calls, key, window, limit)
    ensures InBucket(Admitted(calls, key), index, window) <= limit
    ensures Count(Admitted(calls, key), lo, lo + window) <= 2 * limit
  {
    AdmittedIsForever(calls, key, window, limit);
    TimesSorted(calls, key, window, limit);
    ForeverDecided(TimesOf(calls, key), window, limit);
    BucketBound(Admitted(calls, key), window, limit, index);
    AnyWindowBound(Admitted(calls, key), window, limit, lo);
  }

  /** The answer when p requests were let through in the previous bucket, n in the current one, and e milliseconds of it
      are gone: it passes exactly when p*(w-e)/w + n is below the limit, and what then remains is what is left of the
      limit, rounded down. */
  predicate IsAnswer(r: Result, p: nat, n: nat, e: int, w: int, limit: int)
    requires w > 0
  {
    && (r.allowed <==> p * (w - e) + n * w < limit * w)
    && (r.allowed ==>
         var left := (limit * w - p * (w - e) - (n + 1) * w) / w;
         r.remaining == if left < 0 then 0 else left)
    && (!r.allowed ==> r.remaining == 0)
    && r.limit == limit && r.retryAfter == w - e
  }

  lemma ScriptAnswers(bs: Buckets, key: string, w: int, limit: int, t: int, p: nat, n: nat)
    requires w > 0 && Get(bs, key, t / w - 1, t) == p && Get(bs, key, t / w, t) == n
    ensures IsAnswer(Script(bs, key, w, limit, t).1, p, n, t % w, w, limit)
  {
  }

  lemma GetsAreCounts(calls: seq<Call>, c: Call)
    requires c.window > 0 && Orderly(calls, c.key, c.window, c.limit) && forall x :: x in calls ==> x.now <= c.now
    requires forall x :: x in calls ==> x.window > 0
    ensures var bs, h := Remove(Run(calls), c), Admitted(calls, c.key);
      && Get(bs, c.key, c.now / c.window - 1, c.now) == InBucket(h, c.now / c.window - 1, c.window)
      && Get(bs, c.key, c.now / c.window, c.now) == InBucket(h, c.now / c.window, c.window)
  {
    var h := Forever(TimesOf(calls, c.key), c.window, c.limit);
    RunMirrors(calls, c.key, c.window, c.limit, c.now);
    RemoveMirrors(Run(calls), c, c.key, h, c.window, c.now);
    GetsAgree(Remove(Run(calls), c), c.key, h, c.window, c.now);
    AdmittedIsForever(calls, c.key, c.window, c.limit);
  }

  lemma OrderlyBefore(calls: seq<Call>, c: Call)
    requires Orderly(calls + [c], c.key, c.window, c.limit)
    ensures Orderly(calls, c.key, c.window, c.limit) && c.window > 0
    ensures forall x :: x in calls ==> x.window > 0 && x.now <= c.now
  {
    var all := calls + [c];
    assert all[|calls|] == c;
    forall i | 0 <= i < |calls| ensures calls[i] == all[i] {}
  }

  /** Every answer of a run is the one for what was let through before. */
  lemma AnswerByCounts(calls: seq<Call>, c: Call)
    requires Orderly(calls + [c], c.key, c.window, c.limit)
    ensures (forall x :: x in calls ==> x.window > 0) && c.window > 0
    ensures var h, index := Admitted(calls, c.key), c.now / c.window;
      IsAnswer(Script(Remove(Run(calls), c), c.key, c.window, c.limit, c.now).1,
        InBucket(h, index - 1, c.window), InBucket(h, index, c.window), c.now % c.window, c.window, c.limit)
  {
    OrderlyBefore(calls, c);
    GetsAreCounts(calls, c);
    var h, index := Admitted(calls, c.key), c.now / c.window;
    ScriptAnswers(Remove(Run(calls), c), c.key, c.window, c.limit, c.now, InBucket(h, index - 1, c.window),
      InBucket(h, index, c.window));
  }

  lemma {:induction false} TimesSorted(calls: seq<Call>, key: string, window: int, limit: int)
    requires Orderly(calls, key, window, limit)
    ensures Sorted(TimesOf(calls, key))
    ensures calls != [] ==> forall t :: t in TimesOf(calls, key) ==> t <= calls[|calls| - 1].now
  {
    if |calls| > 1 {
      var front := calls[..|calls| - 1];
      TimesSorted(front, key, window, limit);
      assert front[|front| - 1].now <= calls[|calls| - 1].now;
      assert forall t :: t in TimesOf(front, key) ==> t <= calls[|calls| - 1].now;
      SortedAppend(TimesOf(front, key), calls[|calls| - 1].now);
    } else if calls != [] {
      assert TimesOf(calls[..0], key) == [];
    }
  }

  lemma AdmitsByCounts(h: seq<int>, window: int, limit: int, index: int, elapsed: int, p: nat, c: nat)
    requires 0 <= elapsed < window
    requires Count(h, (index - 1) * window, index * window) == p && Count(h, index * window, (index + 1) * window) == c
    ensures AdmitsForever(h, window, limit, index * window + elapsed) <==> Admits(p, c, window, limit, elapsed)
  {
    var now := index * window + elapsed;
    assert (index + 1) * window == index * window + window;
    BucketOf(now, window, index);
    assert index - 1 + 1 == index;
  }

  lemma ForeverStep(times: seq<int>, now: int, window: int, limit: int)
    requires window > 0
    ensures var h := Forever(times, window, limit);
      Forever(times + [now], window, limit) == if AdmitsForever(h, window, limit, now) then h + [now] else h
  {
    assert (times + [now])[..|times|] == times;
  }

  // When the bound is reached

  lemma MissedInside(total: int, p: nat, limit: nat, window: int, e: int)
    requires p <= limit && limit >= 1 && 0 <= e <= window - 2 && window <= 2 * limit
    requires total * window < (limit + 1) * window + p * e
    ensures total < 2 * limit
  {
    Multiply(p, limit, e);
    Multiply(2, window - e, limit);
    assert limit * (window - e) == limit * window - limit * e;
    assert (2 * limit) * window == (limit + 1) * window + limit * window - window;
    if total >= 2 * limit { Multiply(2 * limit, total, window); }
  }

  /** With a limit of half the window's milliseconds or more, a window that ends at an admission holds less than 2L. */
  lemma MissedAtAdmission(h: seq<int>, window: int, limit: nat)
    requires window > 0 && limit >= 1 && window <= 2 * limit && h != [] && Decided(h, window, limit)
    ensures Count(h, h[|h| - 1] - window + 1, h[|h| - 1] + 1) < 2 * limit
  {
    var before, t := h[..|h| - 1], h[|h| - 1];
    DivFacts(t, window);
    if t % window == window - 1 {
      BucketBound(h, window, limit, t / window);
    } else {
      PrefixDecided(h, window, limit);
      WindowAtAdmission(h, window, limit);
      BucketBound(before, window, limit, t / window - 1);
      MissedInside(Count(h, t - window + 1, t + 1), InBucket(before, t / window - 1, window), limit, window,
        t % window);
    }
  }

  lemma {:induction false} AlwaysMissed(h: seq<int>, window: int, limit: nat, lo: int)
    requires window > 0 && limit >= 1 && window <= 2 * limit && Decided(h, window, limit)
    ensures Count(h, lo, lo + window) < 2 * limit
  {
    if h != [] {
      var n := |h| - 1;
      if lo <= h[n] < lo + window {
        MissedAtAdmission(h, window, limit);
        LastIsLatest(h, lo, lo + window);
        CountWider(h, lo, h[n] + 1, h[n] - window + 1, h[n] + 1);
      } else {
        PrefixDecided(h, window, limit);
        AlwaysMissed(h[..n], window, limit, lo);
      }
    }
  }

  lemma AdmitsInFirst(h: seq<int>, window: int, limit: int, elapsed: int, c: nat)
    requires 0 <= elapsed < window && Count(h, -window, 0) == 0 && Count(h, 0, window) == c
    ensures AdmitsForever(h, window, limit, elapsed) <==> Admits(0, c, window, limit, elapsed)
  {
    AdmitsByCounts(h, window, limit, 0, elapsed, 0, c);
  }

  lemma AdmitsInSecond(h: seq<int>, window: int, limit: int, elapsed: int, p: nat, c: nat)
    requires 0 <= elapsed < window && Count(h, 0, window) == p && Count(h, window, 2 * window) == c
    ensures AdmitsForever(h, window, limit, window + elapsed) <==> Admits(p, c, window, limit, elapsed)
  {
    AdmitsByCounts(h, window, limit, 1, elapsed, p, c);
  }

  lemma RoomForFirst(window: int, limit: nat, n: nat)
    requires 1 <= n <= limit && window > 0
    ensures Admits(0, n - 1, window, limit, window - 1)
  {
    Multiply(n, limit, window);
    assert n * window == (n - 1) * window + window;
  }

  lemma RoomForSecond(window: int, limit: nat, n: nat)
    requires 1 <= n <= limit && 2 * limit < window
    ensures Admits(limit, n - 1, window, limit, window - 2)
  {
    Multiply(n, limit, window);
    assert n * window == (n - 1) * window + window;
  }

  lemma FirstAdmits(window: int, limit: nat, n: nat)
    requires 1 <= n <= limit && window > 0
    ensures AdmitsForever(Repeat(window - 1, n - 1), window, limit, window - 1)
  {
    CountRepeat(window - 1, n - 1, -window, 0);
    CountRepeat(window - 1, n - 1, 0, window);
    RoomForFirst(window, limit, n);
    AdmitsInFirst(Repeat(window - 1, n - 1), window, limit, window - 1, n - 1);
  }

  lemma OneMorePasses(h: seq<int>, t: int, window: int, limit: int)
    requires window > 0 && Forever(h, window, limit) == h && AdmitsForever(h, window, limit, t)
    ensures Forever(h + [t], window, limit) == h + [t]
  {
    ForeverStep(h, t, window, limit);
  }

  /** L calls in the last millisecond of the first bucket all pass. */
  lemma {:induction false} FirstBurst(window: int, limit: nat, n: nat)
    requires window > 0 && n <= limit
    ensures Forever(Repeat(window - 1, n), window, limit) == Repeat(window - 1, n)
  {
    if n > 0 {
      FirstBurst(window, limit, n - 1);
      FirstAdmits(window, limit, n);
      OneMorePasses(Repeat(window - 1, n - 1), window - 1, window, limit);
    }
  }

  function TwoBursts(window: int, limit: nat, n: nat): seq<int> {
    Repeat(window - 1, limit) + Repeat(2 * window - 2, n)
  }

  lemma SecondAdmits(window: int, limit: nat, n: nat)
    requires 1 <= n <= limit && 2 * limit < window
    ensures AdmitsForever(TwoBursts(window, limit, n - 1), window, limit, 2 * window - 2)
  {
    var h := TwoBursts(window, limit, n - 1);
    BurstCounts(window, limit, n - 1, 0, window);
    BurstCounts(window, limit, n - 1, window, 2 * window);
    RoomForSecond(window, limit, n);
    AdmitsInSecond(h, window, limit, window - 2, limit, n - 1);
  }

  lemma OneMore(window: int, limit: nat, n: nat)
    requires n >= 1
    ensures TwoBursts(window, limit, n) == TwoBursts(window, limit, n - 1) + [2 * window - 2]
  {
    assert Repeat(2 * window - 2, n) == Repeat(2 * window - 2, n - 1) + [2 * window - 2];
  }

  /** Almost a window later the first burst weighs 2L/W, less than one request, and L more pass. */
  lemma {:induction false} SecondBurst(window: int, limit: nat, n: nat)
    requires n <= limit && 2 * limit < window
    ensures Forever(TwoBursts(window, limit, n), window, limit) == TwoBursts(window, limit, n)
  {
    if n == 0 {
      FirstBurst(window, limit, limit);
      assert TwoBursts(window, limit, 0) == Repeat(window - 1, limit);
    } else {
      SecondBurst(window, limit, n - 1);
      SecondAdmits(window, limit, n);
      OneMorePasses(TwoBursts(window, limit, n - 1), 2 * window - 2, window, limit);
      OneMore(window, limit, n);
    }
  }

  lemma BurstCounts(window: int, limit: nat, n: nat, lo: int, hi: int)
    ensures Count(TwoBursts(window, limit, n), lo, hi)
      == (if lo <= window - 1 < hi then limit else 0) + (if lo <= 2 * window - 2 < hi then n else 0)
  {
    CountAppend(Repeat(window - 1, limit), Repeat(2 * window - 2, n), lo, hi);
    CountRepeat(window - 1, limit, lo, hi);
    CountRepeat(2 * window - 2, n, lo, hi);
  }

  function CallsAt(times: seq<int>, key: string, window: int, limit: int): seq<Call> {
    seq(|times|, i requires 0 <= i < |times| => Call(key, window, limit, times[i], {}))
  }

  lemma {:induction false} TimesOfCallsAt(times: seq<int>, key: string, window: int, limit: int)
    ensures TimesOf(CallsAt(times, key, window, limit), key) == times
  {
    if times != [] {
      TimesOfCallsAt(times[..|times| - 1], key, window, limit);
      assert CallsAt(times, key, window, limit)[..|times| - 1] == CallsAt(times[..|times| - 1], key, window, limit);
    }
  }

  /** Somewhere in this run a window-length interval admits 2L requests of the client. */
  ghost predicate ReachesTwice(calls: seq<Call>, key: string, window: int, limit: nat, lo: int) {
    Orderly(calls, key, window, limit) && Count(Admitted(calls, key), lo, lo + window) >= 2 * limit
  }

  lemma BurstTimes(window: int, limit: nat, n: nat)
    ensures |TwoBursts(window, limit, n)| == limit + n
    ensures forall i :: 0 <= i < limit + n ==>
      TwoBursts(window, limit, n)[i] == if i < limit then window - 1 else 2 * window - 2
  {
    var a, b := Repeat(window - 1, limit), Repeat(2 * window - 2, n);
    CountRepeat(window - 1, limit, 0, 0);
    CountRepeat(2 * window - 2, n, 0, 0);
    forall i | 0 <= i < limit + n ensures (a + b)[i] == if i < limit then window - 1 else 2 * window - 2 {
      if i < limit { assert a[i] in a; } else { assert b[i - limit] in b; }
    }
  }

  lemma BurstsAreOrderly(window: int, limit: nat, key: string)
    requires 2 * limit < window
    ensures Orderly(CallsAt(TwoBursts(window, limit, limit), key, window, limit), key, window, limit)
  {
    BurstTimes(window, limit, limit);
  }

  lemma PassingTimesReach(times: seq<int>, key: string, window: int, limit: nat, lo: int)
    requires window > 0 && Orderly(CallsAt(times, key, window, limit), key, window, limit)
    requires Forever(times, window, limit) == times && Count(times, lo, lo + window) >= 2 * limit
    ensures ReachesTwice(CallsAt(times, key, window, limit), key, window, limit, lo)
  {
    TimesOfCallsAt(times, key, window, limit);
    AdmittedIsForever(CallsAt(times, key, window, limit), key, window, limit);
  }

  lemma BurstsReachTwice(window: int, limit: nat, key: string)
    requires 2 * limit < window
    ensures ReachesTwice(CallsAt(TwoBursts(window, limit, limit), key, window, limit), key, window, limit, window - 1)
  {
    BurstsAreOrderly(window, limit, key);
    SecondBurst(window, limit, limit);
    BurstCounts(window, limit, limit, window - 1, window - 1 + window);
    PassingTimesReach(TwoBursts(window, limit, limit), key, window, limit, window - 1);
  }

  /** The exact condition: for a limit of at least one, some run puts 2L requests into one window, if and only if 2L is
      less than the window's milliseconds. */
  lemma TwiceLimitIff(window: int, limit: nat)
    requires window > 0 && limit >= 1
    ensures (exists calls, key, lo :: ReachesTwice(calls, key, window, limit, lo)) <==> 2 * limit < window
  {
    if calls, key, lo :| ReachesTwice(calls, key, window, limit, lo) {
      AdmittedIsForever(calls, key, window, limit);
      TimesSorted(calls, key, window, limit);
      ForeverDecided(TimesOf(calls, key), window, limit);
      if window <= 2 * limit { AlwaysMissed(Admitted(calls, key), window, limit, lo); }
    }
    if 2 * limit < window { BurstsReachTwice(window, limit, ""); }
  }

  // What `remaining` promises

  /** n more calls at the same instant: the buckets they leave, and how many of them pass. */
  function Burst(bs: Buckets, key: string, window: int, limit: int, now: int, n: nat): (Buckets, nat)
    requires window > 0
  {
    if n == 0 then (bs, 0)
    else
      var (before, passed) := Burst(bs, key, window, limit, now, n - 1);
      var (after, r) := Script(before, key, window, limit, now);
      (after, if r.allowed then passed + 1 else passed)
  }

  /** Headroom of the current window, times the window. */
  function Room(bs: Buckets, key: string, window: int, limit: int, now: int): int
    requires window > 0
  {
    limit * window - Scaled(Get(bs, key, now / window - 1, now), Get(bs, key, now / window, now), window, now % window)
  }

  function Whole(room: int, window: int): nat
    requires window > 0
  {
    if room / window < 0 then 0 else room / window
  }

  /** How many requests fit the headroom. */
  function Fits(room: int, window: int): nat
    requires window > 0
  {
    var left := Whole(room, window);
    if room > left * window then left + 1 else left
  }

  lemma OneFits(bs: Buckets, key: string, window: int, limit: int, now: int)
    requires window > 0
    ensures var (after, r) := Script(bs, key, window, limit, now);
      && r.allowed == (Room(bs, key, window, limit, now) > 0)
      && Room(after, key, window, limit, now) == Room(bs, key, window, limit, now) - (if r.allowed then window else 0)
      && (r.allowed ==> r.remaining == Whole(Room(after, key, window, limit, now), window))
  {
    var index := now / window;
    var previous, current := Get(bs, key, index - 1, now), Get(bs, key, index, now);
    if Admits(previous, current, window, limit, now % window) {
      var after := Script(bs, key, window, limit, now).0;
      assert Get(after, key, index, now) == current + 1 && Get(after, key, index - 1, now) == previous;
      assert (current + 1) * window == current * window + window;
    }
  }

  lemma {:induction false} BurstFits(bs: Buckets, key: string, window: int, limit: int, now: int, n: nat)
    requires window > 0
    ensures var fits := Fits(Room(bs, key, window, limit, now), window);
      var (after, passed) := Burst(bs, key, window, limit, now, n);
      && passed == (if n < fits then n else fits)
      && Room(after, key, window, limit, now) == Room(bs, key, window, limit, now) - passed * window
  {
    if n > 0 {
      BurstFits(bs, key, window, limit, now, n - 1);
      var (before, passed) := Burst(bs, key, window, limit, now, n - 1);
      OneFits(before, key, window, limit, now);
      RoomFor(Room(bs, key, window, limit, now), passed, window);
      assert (passed + 1) * window == passed * window + window;
    }
  }

  /** `remaining` is a promise kept at that instant: of any number of further requests exactly `remaining` pass, or one
      more where rounding down hid a fraction of a request. */
  lemma RemainingIsGranted(bs: Buckets, key: string, window: int, limit: int, now: int, n: nat)
    requires window > 0 && Script(bs, key, window, limit, now).1.allowed
    ensures var (after, r) := Script(bs, key, window, limit, now);
      var granted := if Room(after, key, window, limit, now) > r.remaining * window then r.remaining + 1
        else r.remaining;
      r.remaining >= 0 && Burst(after, key, window, limit, now, n).1 == if n < granted then n else granted
  {
    OneFits(bs, key, window, limit, now);
    BurstFits(Script(bs, key, window, limit, now).0, key, window, limit, now, n);
  }

  lemma RoomFor(room: int, m: nat, window: int)
    requires window > 0
    ensures var left := if room / window < 0 then 0 else room / window;
      (m * window < room <==> (m < left || (m == left && room > left * window)))
  {
    DivFacts(room, window);
    var q := room / window;
    if q < 0 {
      Multiply(q, -1, window);
      Multiply(0, m, window);
    } else if m < q {
      Multiply(m + 1, q, window);
    } else if m > q {
      Multiply(q + 1, m, window);
    }
  }
}
