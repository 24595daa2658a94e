/** The in-memory limiter: per client, a window that opens at its first request and counts up to the limit. */
module FixedWindow {
  import opened Options
  import opened Times

  datatype Bucket = Bucket(count: nat, expiresAt: int)
  type Clients = map<string, Bucket>
  datatype Result = Result(allowed: bool, limit: int, remaining: int, retryAfter: int)

  const DEFAULT_WINDOW := 60_000_000_000

  /** The client's window at this instant, opened anew when there is none or it is over. */
  function Current(clients: Clients, key: string, window: int, now: int): Bucket {
    if key in clients && now <= clients[key].expiresAt then clients[key] else Bucket(0, now + window)
  }

  function Step(clients: Clients, key: string, requests: int, window: int, now: int): (Clients, Result) {
    var b := Current(clients, key, window, now);
    if b.count >= requests then (clients[key := b], Result(false, requests, 0, b.expiresAt - now))
    else (clients[key := Bucket(b.count + 1, b.expiresAt)],
          Result(true, requests, requests - b.count - 1, b.expiresAt - now))
  }

  class MemoryLimiter {
    var clients: Clients

    constructor ()
      ensures clients == map[]
    {
      clients := map[];
    }

    method Allow(key: string, requests: int, window: int, now: int) returns (r: Result)
      modifies this
      ensures (clients, r) == Step(old(clients), key, requests, if window <= 0 then DEFAULT_WINDOW else window, now)
    {
      var span := window;
      if span <= 0 {
        span := DEFAULT_WINDOW;
      }
      if key !in clients || now > clients[key].expiresAt {
        clients := clients[key := Bucket(0, now + span)];
      }
      var bucket := clients[key];
      assert clients == old(clients)[key := Current(old(clients), key, span, now)];
      var retryAfter := bucket.expiresAt - now;
      if retryAfter < 0 {
        retryAfter := 0;
      }
      if bucket.count >= requests {
        return Result(false, requests, 0, retryAfter);
      }
      bucket := Bucket(bucket.count + 1, bucket.expiresAt);
      clients := clients[key := bucket];
      assert clients == old(clients)[key := bucket];
      var remaining := requests - bucket.count;
      if remaining < 0 {
        remaining := 0;
      }
      r := Result(true, requests, remaining, retryAfter);
    }
  }

  datatype Call = Call(key: string, window: int, limit: int, now: int)

  function Run(calls: seq<Call>): Clients {
    if calls == [] then map[]
    else
      var c := calls[|calls| - 1];
      Step(Run(calls[..|calls| - 1]), c.key, c.limit, c.window, c.now).0
  }

  function Admitted(calls: seq<Call>, key: string): seq<int> {
    if calls == [] then []
    else
      var before, c := calls[..|calls| - 1], calls[|calls| - 1];
      Admitted(before, key) +
        if c.key == key && Step(Run(before), c.key, c.limit, c.window, c.now).1.allowed then [c.now] else []
  }

  ghost predicate Orderly(calls: seq<Call>, key: string, window: int, limit: int) {
    && (forall i, j :: 0 <= i < j < |calls| ==> calls[i].now <= calls[j].now)
    && (forall i :: 0 <= i < |calls| && calls[i].key == key ==> calls[i].window == window && calls[i].limit == limit)
  }

  /** Admissions in the window-length interval from lo on. */
  function Within(h: seq<int>, lo: int, window: int): nat {
    Count(h, lo, lo + window)
  }

  /** A bucket counts the admissions since its window opened; the window-length before that holds at most L. */
  ghost predicate BucketOk(b: Bucket, h: seq<int>, window: int, limit: nat, clock: int) {
    var start := b.expiresAt - window;
    && start <= clock
    && Count(h, start, clock + 1) == b.count <= limit
    && Within(h, start - window, window) <= limit
    && forall t :: t in h ==> t <= b.expiresAt
  }

  ghost predicate Inv(clients: Clients, key: string, h: seq<int>, window: int, limit: nat, clock: int) {
    && (forall t :: t in h ==> t <= clock)
    && (if key in clients then BucketOk(clients[key], h, window, limit, clock) else h == [])
    && (forall lo :: Within(h, lo, window) <= 2 * limit)
  }

  lemma LaterClock(h: seq<int>, lo: int, hi: int, clock: int)
    requires forall t :: t in h ==> t <= clock
    requires clock < hi && lo <= clock + 1
    ensures Count(h, lo, hi) == Count(h, lo, clock + 1)
  {
    CountSplit(h, lo, clock + 1, hi);
    forall i | 0 <= i < |h| ensures h[i] < clock + 1 { assert h[i] in h; }
    NoneAbove(h, clock + 1, hi);
  }

  /** A window that is over began more than its length ago, so a new one starts with at most L behind it. */
  lemma CurrentOk(clients: Clients, key: string, h: seq<int>, window: int, limit: nat, clock: int, now: int)
    requires window > 0 && Inv(clients, key, h, window, limit, clock) && clock <= now
    ensures BucketOk(Current(clients, key, window, now), h, window, limit, now)
  {
    if key in clients {
      var start := clients[key].expiresAt - window;
      LaterClock(h, start, now + 1, clock);
      if now > clients[key].expiresAt {
        CountWider(h, now - window, now, start, now + 1);
        forall i | 0 <= i < |h| ensures h[i] < now { assert h[i] in h; }
        NoneAbove(h, now, now + 1);
      }
    }
  }

  lemma AdmitInCurrent(b: Bucket, h: seq<int>, window: int, limit: nat, now: int, lo: int)
    requires window > 0 && BucketOk(b, h, window, limit, now) && b.count < limit && now <= b.expiresAt
    requires (forall t :: t in h ==> t <= now) && Within(h, lo, window) <= 2 * limit
    ensures Within(h + [now], lo, window) <= 2 * limit
    ensures BucketOk(Bucket(b.count + 1, b.expiresAt), h + [now], window, limit, now)
  {
    var start := b.expiresAt - window;
    if lo <= now < lo + window {
      LaterClock(h, lo, lo + window, now);
      if start <= lo {
        CountWider(h, lo, now + 1, start, now + 1);
      } else {
        CountSplit(h, lo, start, now + 1);
        CountWider(h, lo, start, start - window, start);
      }
    }
  }

  lemma CallKeepsInv(clients: Clients, key: string, h: seq<int>, window: int, limit: nat, clock: int, now: int)
    requires window > 0 && Inv(clients, key, h, window, limit, clock) && clock <= now
    ensures var (after, r) := Step(clients, key, limit, window, now);
      Inv(after, key, if r.allowed then h + [now] else h, window, limit, now)
  {
    CurrentOk(clients, key, h, window, limit, clock, now);
    var b := Current(clients, key, window, now);
    if b.count < limit {
      forall lo ensures Within(h + [now], lo, window) <= 2 * limit {
        AdmitInCurrent(b, h, window, limit, now, lo);
      }
      AdmitInCurrent(b, h, window, limit, now, 0);
    }
  }

  lemma OtherKey(clients: Clients, key: string, h: seq<int>, window: int, limit: nat, clock: int, c: Call)
    requires Inv(clients, key, h, window, limit, clock) && clock <= c.now && c.key != key
    ensures Inv(Step(clients, c.key, c.limit, c.window, c.now).0, key, h, window, limit, c.now)
  {
    if key in clients { LaterClock(h, clients[key].expiresAt - window, c.now + 1, clock); }
  }

  lemma {:induction false} RunKeepsInv(calls: seq<Call>, key: string, window: int, limit: nat)
    requires window > 0 && Orderly(calls, key, window, limit) && calls != []
    ensures Inv(Run(calls), key, Admitted(calls, key), window, limit, calls[|calls| - 1].now)
  {
    var before, c := calls[..|calls| - 1], calls[|calls| - 1];
    if before != [] {
      RunKeepsInv(before, key, window, limit);
      assert before[|before| - 1].now <= c.now;
    }
    var clock := if before == [] then c.now else before[|before| - 1].now;
    assert Inv(Run(before), key, Admitted(before, key), window, limit, clock);
    assert Admitted(before, key) + [] == Admitted(before, key);
    if c.key == key {
      assert c.window == window && c.limit == limit;
      CallKeepsInv(Run(before), key, Admitted(before, key), window, limit, clock, c.now);
    } else {
      OtherKey(Run(before), key, Admitted(before, key), window, limit, clock, c);
    }
  }

  /** No interval one window long admits more than twice the limit, and a full window refuses the rest. */
  lemma FixedBound(calls: seq<Call>, key: string, window: int, limit: nat, lo: int)
    requires window > 0 && Orderly(calls, key, window, limit)
    ensures Count(Admitted(calls, key), lo, lo + window) <= 2 * limit
    ensures key in Run(calls) ==>
      Count(Admitted(calls, key), Run(calls)[key].expiresAt - window, Run(calls)[key].expiresAt + 1)
        == Run(calls)[key].count <= limit
  {
    if calls != [] {
      RunKeepsInv(calls, key, window, limit);
      var h := Admitted(calls, key);
      assert Within(h, lo, window) <= 2 * limit;
      if key in Run(calls) {
        var b := Run(calls)[key];
        var clock := calls[|calls| - 1].now;
        if clock < b.expiresAt {
          LaterClock(h, b.expiresAt - window, b.expiresAt + 1, clock);
        } else {
          LaterClock(h, b.expiresAt - window, clock + 1, b.expiresAt);
        }
      }
    }
  }

  /** When the client's window opened that its last call fell into: at the first call after the one before was over. */
  function Opened(calls: seq<Call>, key: string, window: int): Option<int> {
    if calls == [] then None
    else
      var o, c := Opened(calls[..|calls| - 1], key, window), calls[|calls| - 1];
      if c.key != key then o
      else if o.None? || c.now > o.value + window then Some(c.now)
      else o
  }

  lemma {:induction false} OpenedIsCurrent(calls: seq<Call>, key: string, window: int, limit: int)
    requires Orderly(calls, key, window, limit)
    ensures key in Run(calls) <==> Opened(calls, key, window).Some?
    ensures key in Run(calls) ==> Run(calls)[key].expiresAt == Opened(calls, key, window).value + window
  {
    if calls != [] { OpenedIsCurrent(calls[..|calls| - 1], key, window, limit); }
  }

  lemma OpenedByCall(calls: seq<Call>, c: Call)
    requires c.window > 0 && Orderly(calls + [c], c.key, c.window, c.limit)
    ensures var o := Opened(calls + [c], c.key, c.window);
      o.Some? && o.value + c.window == Current(Run(calls), c.key, c.window, c.now).expiresAt >= c.now
  {
    assert (calls + [c])[|calls|] == c && (calls + [c])[..|calls|] == calls;
    forall i | 0 <= i < |calls| ensures calls[i] == (calls + [c])[i] {}
    OpenedIsCurrent(calls, c.key, c.window, c.limit);
  }

  lemma HistoryCount(calls: seq<Call>, c: Call)
    requires c.window > 0 && c.limit >= 0 && Orderly(calls + [c], c.key, c.window, c.limit)
    ensures var b := Current(Run(calls), c.key, c.window, c.now);
      Count(Admitted(calls, c.key), b.expiresAt - c.window, c.now + 1) == b.count
  {
    assert (calls + [c])[|calls|] == c;
    forall i | 0 <= i < |calls| ensures calls[i] == (calls + [c])[i] {}
    if calls != [] {
      RunKeepsInv(calls, c.key, c.window, c.limit);
      CurrentOk(Run(calls), c.key, Admitted(calls, c.key), c.window, c.limit, calls[|calls| - 1].now, c.now);
    }
  }

  /** The answer when n requests were let through since the current window opened: it passes exactly when that is below
      the limit, and it says how many still may and when the window ends. */
  predicate IsAnswer(r: Result, n: nat, begin: int, window: int, limit: int, now: int) {
    && (r.allowed <==> n < limit)
    && r.remaining == (if n < limit then limit - n - 1 else 0)
    && r.limit == limit && r.retryAfter == begin + window - now >= 0
  }

  /** Every answer of a run is the one for what was let through before. */
  lemma AnswerByCounts(calls: seq<Call>, c: Call) returns (begin: int)
    requires c.window > 0 && Orderly(calls + [c], c.key, c.window, c.limit)
    ensures Opened(calls + [c], c.key, c.window) == Some(begin)
    ensures IsAnswer(Step(Run(calls), c.key, c.limit, c.window, c.now).1,
      Count(Admitted(calls, c.key), begin, c.now + 1), begin, c.window, c.limit, c.now)
  {
    OpenedByCall(calls, c);
    CountedByCall(calls, c);
    begin := Current(Run(calls), c.key, c.window, c.now).expiresAt - c.window;
    StepAnswers(Run(calls), c, Count(Admitted(calls, c.key), begin, c.now + 1));
  }

  lemma StepAnswers(clients: Clients, c: Call, n: nat)
    requires var b := Current(clients, c.key, c.window, c.now);
      (b.count == n || (b.count >= c.limit && n >= c.limit)) && b.expiresAt >= c.now
    ensures IsAnswer(Step(clients, c.key, c.limit, c.window, c.now).1, n,
      Current(clients, c.key, c.window, c.now).expiresAt - c.window, c.window, c.limit, c.now)
  {
  }

  lemma CountedByCall(calls: seq<Call>, c: Call)
    requires c.window > 0 && Orderly(calls + [c], c.key, c.window, c.limit)
    ensures var b := Current(Run(calls), c.key, c.window, c.now);
      var n := Count(Admitted(calls, c.key), b.expiresAt - c.window, c.now + 1);
      b.count == n || (b.count >= c.limit && n >= c.limit)
  {
    if c.limit >= 0 { HistoryCount(calls, c); }
  }

  /** Of a burst, exactly as many pass as the client's current window has left, whatever the table held before. */
  lemma {:induction false} BurstTakesWhatIsLeft(clients: Clients, key: string, limit: nat, window: int, now: int,
                                                n: nat)
    requires window > 0
    ensures var b, (passed, after) := Current(clients, key, window, now), Burst(clients, key, limit, window, now, n);
      var left := if b.count < limit then limit - b.count else 0;
      && passed == (if n < left then n else left)
      && (n > 0 ==> key in after && after[key] == Bucket(b.count + passed, b.expiresAt))
  {
    if n > 0 { BurstTakesWhatIsLeft(clients, key, limit, window, now, n - 1); }
  }

  /** n requests at one instant: how many pass, and the table afterwards. */
  function Burst(clients: Clients, key: string, limit: nat, window: int, now: int, n: nat): (nat, Clients) {
    if n == 0 then (0, clients)
    else
      var (passed, before) := Burst(clients, key, limit, window, now, n - 1);
      var (after, r) := Step(before, key, limit, window, now);
      (if r.allowed then passed + 1 else passed, after)
  }
}
