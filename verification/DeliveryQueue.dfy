/** The notification delivery queue: leased claims, capped attempts, stepped backoff. Time is in seconds. */
module DeliveryQueue {
  import opened Options

  datatype Status = Pending | Sending | Sent | Failed | Skipped

  /** `user` and `inApp` are the columns that MarkRead asks for. */
  datatype Delivery = Delivery(
    user: nat,
    inApp: bool,
    status: Status,
    attempts: int,
    maxAttempts: int,
    nextAttemptAt: int,
    lockedUntil: Option<int>,
    readAt: Option<int>,
    version: int
  )

  const LEASE := 60
  const SEND_TIMEOUT := 15
  const QUERY_TIMEOUT := 5
  const DEFAULT_MAX_ATTEMPTS := 5
  const DEFAULT_BATCH := 25

  function NewDelivery(user: nat, inApp: bool, skipped: bool, maxAttempts: int, now: int): Delivery {
    Delivery(user, inApp, if skipped then Skipped else Pending, 0,
      if maxAttempts < 1 then DEFAULT_MAX_ATTEMPTS else maxAttempts, now, None, None, 1)
  }

  predicate Terminal(st: Status) {
    st.Sent? || st.Failed? || st.Skipped?
  }

  predicate Due(d: Delivery, now: int) {
    && d.nextAttemptAt <= now
    && ((d.status.Pending? && (d.lockedUntil.None? || d.lockedUntil.value < now))
        || (d.status.Sending? && d.lockedUntil.Some? && d.lockedUntil.value < now))
  }

  /** No test of `attempts < max_attempts` here. */
  function Claimed(d: Delivery, now: int): Delivery {
    d.(status := Sending, attempts := d.attempts + 1, lockedUntil := Some(now + LEASE))
  }

  function ClaimedRows(rows: map<nat, Delivery>, ids: set<nat>, now: int): map<nat, Delivery> {
    map id | id in rows :: if id in ids then Claimed(rows[id], now) else rows[id]
  }

  /** No test of who holds the claim here. */
  function Finished(d: Delivery, status: Status, next: int): Delivery {
    d.(status := status, nextAttemptAt := next, lockedUntil := None, version := d.version + 1)
  }

  function Backoff(attempt: int): int {
    if attempt == 1 then 30 else if attempt == 2 then 120 else if attempt == 3 then 600 else 3600
  }

  /** The rows are being sent, with one attempt more, for a minute, and nothing else changes. */
  ghost predicate IsClaim(before: map<nat, Delivery>, after: map<nat, Delivery>, ids: set<nat>, now: int) {
    && after.Keys == before.Keys
    && forall id :: id in before ==> after[id] == if id !in ids then before[id]
         else before[id].(status := Sending, attempts := before[id].attempts + 1, lockedUntil := Some(now + 60))
  }

  /** Nobody has the row: it is waiting and not locked, or its claim has run out. */
  predicate IsFree(d: Delivery, now: int) {
    match d.lockedUntil
    case None => d.status == Pending
    case Some(until) => (d.status == Pending || d.status == Sending) && until < now
  }

  lemma ClaimMeaning(rows: map<nat, Delivery>, ids: set<nat>, now: int)
    ensures IsClaim(rows, ClaimedRows(rows, ids, now), ids, now)
  {
  }

  datatype SendResult = Delivered | Rejected | Unavailable   // no error, permanent error, any other error

  /** The status after a send, and the delay before the row is due again. */
  function Verdict(attempt: int, maxAttempts: int, sent: SendResult): (Status, int) {
    if sent.Delivered? then (Sent, 0)
    else if sent.Rejected? || attempt >= maxAttempts then (Failed, 0)
    else (Pending, Backoff(attempt))
  }

  datatype Attempt = Attempt(id: nat, number: int, status: Status)

  predicate Readable(d: Delivery, user: nat) {
    d.user == user && d.inApp && d.status.Sent? && d.readAt.None?
  }

  function Read(d: Delivery, now: int): Delivery {
    d.(readAt := Some(now), version := d.version + 1)
  }

  // The store and the dispatcher

  datatype Row = Row(id: nat, delivery: Delivery)

  class Store {
    var rows: map<nat, Delivery>
    var log: seq<Attempt>

    constructor ()
      ensures rows == map[] && log == []
    {
      rows, log := map[], [];
    }

    ghost function DueRows(now: int, skip: set<nat>): set<nat>
      reads this
    {
      set id | id in rows && id !in skip && Due(rows[id], now)
    }

    method Earliest(ids: set<nat>) returns (first: nat)
      requires ids != {} && ids <= rows.Keys
      ensures first in ids && forall id :: id in ids ==> rows[first].nextAttemptAt <= rows[id].nextAttemptAt
    {
      first :| first in ids;
      var rest := ids - {first};
      while rest != {}
        invariant first in ids && rest <= ids
        invariant forall id :: id in ids - rest ==> rows[first].nextAttemptAt <= rows[id].nextAttemptAt
        decreases rest
      {
        var id :| id in rest;
        if rows[id].nextAttemptAt < rows[first].nextAttemptAt {
          first := id;
        }
        rest := rest - {id};
      }
    }

    /** `skip` are the rows locked by other transactions. The claimed rows come back as updated. */
    method Claim(limit: nat, now: int, skip: set<nat>) returns (claimed: seq<Row>)
      modifies this`rows
      ensures var due := old(DueRows(now, skip));
        var ids := set r | r in claimed :: r.id;
        && ids <= due && |claimed| <= limit
        && (|claimed| < limit ==> ids == due)
        && (forall i, j :: 0 <= i < j < |claimed| ==> claimed[i].id != claimed[j].id)
        && rows == ClaimedRows(old(rows), ids, now)
        && IsClaim(old(rows), rows, ids, now)
        && (forall id :: id in due <==>
             id in old(rows) && id !in skip && old(rows)[id].nextAttemptAt <= now && IsFree(old(rows)[id], now))
        && (forall r :: r in claimed ==> r.id in rows && r.delivery == rows[r.id])
        && (forall r, other :: r in claimed && other in due - ids ==>
             old(rows)[r.id].nextAttemptAt <= old(rows)[other].nextAttemptAt)
    {
      var left := set id | id in rows && id !in skip && Due(rows[id], now);
      ghost var due := left;
      ghost var ids: set<nat> := {};
      claimed := [];
      var rows0 := rows;
      while left != {} && |claimed| < limit
        invariant ids + left == due <= rows.Keys && ids !! left && |claimed| <= limit
        invariant rows == rows0 && (set r | r in claimed :: r.id) == ids
        invariant forall i, j :: 0 <= i < j < |claimed| ==> claimed[i].id != claimed[j].id
        invariant forall r :: r in claimed ==> r.id in due && r.delivery == Claimed(rows[r.id], now)
        invariant forall r, other :: r in claimed && other in left ==>
          rows[r.id].nextAttemptAt <= rows[other].nextAttemptAt
        decreases left
      {
        var id := Earliest(left);
        ghost var before := claimed;
        claimed, left := claimed + [Row(id, Claimed(rows[id], now))], left - {id};
        assert (set r | r in claimed :: r.id) == (set r | r in before :: r.id) + {id};
        ids := ids + {id};
      }
      assert due - ids == left;
      ClaimMeaning(rows, set r | r in claimed :: r.id, now);
      rows := ClaimedRows(rows, set r | r in claimed :: r.id, now);
    }

    method Finish(id: nat, status: Status, next: int) returns (found: bool)
      modifies this`rows
      ensures found == (id in old(rows))
      ensures rows == if !found then old(rows)
        else old(rows)[id := old(rows)[id].(status := status, nextAttemptAt := next, lockedUntil := None,
          version := old(rows)[id].version + 1)]
    {
      found := id in rows;
      if found {
        rows := rows[id := Finished(rows[id], status, next)];
      }
    }

    method AddAttempt(id: nat, number: int, status: Status)
      modifies this`log
      ensures log == old(log) + [Attempt(id, number, status)]
    {
      log := log + [Attempt(id, number, status)];
    }

    method MarkRead(id: nat, user: nat, now: int) returns (found: bool)
      modifies this`rows
      ensures found <==>
        && id in old(rows) && old(rows)[id].user == user && old(rows)[id].inApp
        && old(rows)[id].status == Sent && old(rows)[id].readAt == None
      ensures rows == if !found then old(rows)
        else old(rows)[id := old(rows)[id].(readAt := Some(now), version := old(rows)[id].version + 1)]
    {
      found := id in rows && Readable(rows[id], user);
      if found {
        rows := rows[id := Read(rows[id], now)];
      }
    }
  }

  /** What happens to one row: the outcome of the send, how long the send and the two writes took, and whether each
      write reached the table; the dispatcher goes on either way. */
  datatype Took = Took(sent: SendResult, send: nat, finish: nat, log: nat, finishLands: bool, logLands: bool)

  function Duration(took: Took): nat {
    took.send + took.finish + took.log
  }

  /** The table and the attempt log after one row whose send began at `start`. */
  function Handled(rows: map<nat, Delivery>, log: seq<Attempt>, row: Row, took: Took, start: int)
    : (map<nat, Delivery>, seq<Attempt>)
  {
    var (status, delay) := Verdict(row.delivery.attempts, row.delivery.maxAttempts, took.sent);
    (if took.finishLands && row.id in rows
       then rows[row.id := Finished(rows[row.id], status, start + took.send + delay)] else rows,
     if took.logLands then log + [Attempt(row.id, row.delivery.attempts, status)] else log)
  }

  /** The wait before the next attempt. */
  function WaitAfter(attempt: int): int {
    match attempt
    case 1 => 30
    case 2 => 120
    case 3 => 600
    case _ => 3600
  }

  /** A row after its send, by columns: sent, or failed for good when the channel rejects it or it was the last attempt,
      or pending with the wait of its attempt, counted from the end of the send; and one entry in the attempt log. */
  lemma HandledAnswers(rows: map<nat, Delivery>, log: seq<Attempt>, row: Row, took: Took, start: int)
    ensures var (after, attempts) := Handled(rows, log, row, took, start);
      var last := row.delivery.attempts >= row.delivery.maxAttempts;
      var status := if took.sent == Delivered then Sent
        else if took.sent == Rejected || (took.sent == Unavailable && last) then Failed else Pending;
      var wait := if status == Pending then WaitAfter(row.delivery.attempts) else 0;
      && attempts == (if took.logLands then log + [Attempt(row.id, row.delivery.attempts, status)] else log)
      && (!(took.finishLands && row.id in rows) ==> after == rows)
      && (took.finishLands && row.id in rows ==>
           after == rows[row.id := rows[row.id].(status := status, nextAttemptAt := start + took.send + wait,
             lockedUntil := None, version := rows[row.id].version + 1)])
  {
  }

  /** Send one claimed row, then finish it and log the attempt. */
  method Deliver(store: Store, row: Row, took: Took, start: int)
    modifies store
    ensures (store.rows, store.log) == Handled(old(store.rows), old(store.log), row, took, start)
  {
    var status := Sent;
    var next := start + took.send;
    if !took.sent.Delivered? {
      if took.sent.Rejected? || row.delivery.attempts >= row.delivery.maxAttempts {
        status := Failed;
      } else {
        status := Pending;
        next := next + Backoff(row.delivery.attempts);
      }
    }
    if took.finishLands {
      var found := store.Finish(row.id, status, next);
    }
    if took.logLands {
      store.AddAttempt(row.id, row.delivery.attempts, status);
    }
  }

  /** Time spent on the first n rows of a batch. */
  function Elapsed(tooks: seq<Took>, n: nat): nat
    requires n <= |tooks|
  {
    if n == 0 then 0 else Elapsed(tooks, n - 1) + Duration(tooks[n - 1])
  }

  /** The first n rows of a batch, one after the other from `start` on. */
  function Batch(rows: map<nat, Delivery>, log: seq<Attempt>, claimed: seq<Row>, tooks: seq<Took>, start: int, n: nat)
    : (map<nat, Delivery>, seq<Attempt>)
    requires n <= |claimed| <= |tooks|
  {
    if n == 0 then (rows, log)
    else
      var (rows', log') := Batch(rows, log, claimed, tooks, start, n - 1);
      Handled(rows', log', claimed[n - 1], tooks[n - 1], start + Elapsed(tooks, n - 1))
  }

  predicate DistinctIds(claimed: seq<Row>) {
    forall i, j :: 0 <= i < j < |claimed| ==> claimed[i].id != claimed[j].id
  }

  lemma {:induction false} BatchOthers(rows: map<nat, Delivery>, log: seq<Attempt>, claimed: seq<Row>,
                                       tooks: seq<Took>, start: int, n: nat, id: nat)
    requires n <= |claimed| <= |tooks| && forall j :: 0 <= j < n ==> claimed[j].id != id
    ensures var after := Batch(rows, log, claimed, tooks, start, n).0;
      after.Keys == rows.Keys && (id in rows ==> after[id] == rows[id])
  {
    if n > 0 { BatchOthers(rows, log, claimed, tooks, start, n - 1, id); }
  }

  /** Each row of a poll is handled once, its send beginning when the rows before it are done; rows of other ids are
      left alone. */
  lemma {:induction false} BatchAnswers(rows: map<nat, Delivery>, log: seq<Attempt>, claimed: seq<Row>,
                                        tooks: seq<Took>, start: int, n: nat, i: nat)
    requires i < n <= |claimed| <= |tooks| && DistinctIds(claimed) && claimed[i].id in rows
    ensures var after := Batch(rows, log, claimed, tooks, start, n).0;
      && claimed[i].id in after
      && after[claimed[i].id] == Handled(rows, log, claimed[i], tooks[i], start + Elapsed(tooks, i)).0[claimed[i].id]
  {
    if i < n - 1 {
      BatchAnswers(rows, log, claimed, tooks, start, n - 1, i);
    } else {
      BatchOthers(rows, log, claimed, tooks, start, n - 1, claimed[i].id);
    }
  }

  /** One poll: rows are claimed together at `now`, and sent one after the other once the claim has returned. */
  method DispatchOnce(store: Store, limit: nat, now: int, skip: set<nat>, claimTook: nat, tooks: seq<Took>)
    returns (claimed: seq<Row>)
    requires |tooks| >= limit
    modifies store
    ensures var ids := set r | r in claimed :: r.id;
      var rows := ClaimedRows(old(store.rows), ids, now);
      && ids <= old(store.DueRows(now, skip)) && |claimed| <= limit
      && (forall i, j :: 0 <= i < j < |claimed| ==> claimed[i].id != claimed[j].id)
      && (forall r :: r in claimed ==> r.id in rows && r.delivery == rows[r.id])
      && (store.rows, store.log) == Batch(rows, old(store.log), claimed, tooks, now + claimTook, |claimed|)
  {
    claimed := store.Claim(limit, now, skip);
    ghost var rows := store.rows;
    var clock := now + claimTook;
    for i := 0 to |claimed|
      invariant clock == now + claimTook + Elapsed(tooks, i)
      invariant (store.rows, store.log) == Batch(rows, old(store.log), claimed, tooks, now + claimTook, i)
    {
      Deliver(store, claimed[i], tooks[i], clock);
      clock := clock + Duration(tooks[i]);
    }
  }

  // How many rows one lease is enough for

  /** When the update of the i-th row lands, counted from the claim. */
  function FinishedAfter(claimTook: nat, tooks: seq<Took>, i: nat): nat
    requires i < |tooks|
  {
    claimTook + Elapsed(tooks, i) + tooks[i].send + tooks[i].finish
  }

  /** Sends and queries that keep to their timeouts. */
  ghost predicate Timely(claimTook: nat, tooks: seq<Took>, send: nat, query: nat) {
    claimTook <= query
    && forall i :: 0 <= i < |tooks| ==> tooks[i].send <= send && tooks[i].finish <= query && tooks[i].log <= query
  }

  lemma {:induction false} ElapsedBound(tooks: seq<Took>, n: nat, send: nat, query: nat)
    requires n <= |tooks| && Timely(0, tooks, send, query)
    ensures Elapsed(tooks, n) <= n * (send + 2 * query)
  {
    if n > 0 {
      ElapsedBound(tooks, n - 1, send, query);
      assert n * (send + 2 * query) == (n - 1) * (send + 2 * query) + (send + 2 * query);
    }
  }

  lemma FinishedBound(claimTook: nat, tooks: seq<Took>, i: nat, send: nat, query: nat)
    requires i < |tooks| && Timely(claimTook, tooks, send, query)
    ensures FinishedAfter(claimTook, tooks, i) <= (i + 1) * (send + 2 * query)
  {
    ElapsedBound(tooks, i, send, query);
    assert (i + 1) * (send + 2 * query) == i * (send + 2 * query) + (send + 2 * query);
  }

  function Slowest(n: nat, send: nat, query: nat): seq<Took> {
    seq(n, i => Took(Unavailable, send, query, query, true, true))
  }

  lemma {:induction false} SlowestElapsed(n: nat, k: nat, send: nat, query: nat)
    requires k <= n
    ensures Elapsed(Slowest(n, send, query), k) == k * (send + 2 * query)
  {
    if k > 0 {
      SlowestElapsed(n, k - 1, send, query);
      assert k * (send + 2 * query) == (k - 1) * (send + 2 * query) + (send + 2 * query);
    }
  }

  ghost predicate AlwaysInLease(limit: nat, send: nat, query: nat, lease: int) {
    forall claimTook: nat, tooks: seq<Took>, i: nat ::
      i < |tooks| <= limit && Timely(claimTook, tooks, send, query) ==> FinishedAfter(claimTook, tooks, i) <= lease
  }

  lemma Multiply(a: nat, b: nat, w: nat)
    requires a <= b
    ensures a * w <= b * w
  {
    assert (b - a) * w >= 0;
  }

  lemma FitsInLease(limit: nat, send: nat, query: nat, lease: nat)
    requires limit * (send + 2 * query) <= lease
    ensures AlwaysInLease(limit, send, query, lease)
  {
    forall claimTook: nat, tooks: seq<Took>, i: nat | i < |tooks| <= limit && Timely(claimTook, tooks, send, query)
      ensures FinishedAfter(claimTook, tooks, i) <= lease
    {
      FinishedBound(claimTook, tooks, i, send, query);
      Multiply(i + 1, limit, send + 2 * query);
    }
  }

  lemma SlowestLast(limit: nat, send: nat, query: nat)
    requires limit > 0
    ensures FinishedAfter(query, Slowest(limit, send, query), limit - 1) == limit * (send + 2 * query)
  {
    SlowestElapsed(limit, limit - 1, send, query);
    assert limit * (send + 2 * query) == (limit - 1) * (send + 2 * query) + (send + 2 * query);
  }

  /** The condition on the batch size: every row of every batch is updated within its lease, whatever the timeouts
      allow, if and only if the whole batch fits. */
  lemma BatchFitsIff(limit: nat, send: nat, query: nat, lease: nat)
    ensures AlwaysInLease(limit, send, query, lease) <==> limit * (send + 2 * query) <= lease
  {
    if limit * (send + 2 * query) <= lease {
      FitsInLease(limit, send, query, lease);
    } else if limit > 0 {
      SlowestLast(limit, send, query);
      assert Timely(query, Slowest(limit, send, query), send, query);
      assert !(FinishedAfter(query, Slowest(limit, send, query), limit - 1) <= lease);
    }
  }

  /** With the timeouts of the code that is two rows; even if queries took no time it would be four. */
  lemma RowsPerLease(limit: nat)
    ensures AlwaysInLease(limit, SEND_TIMEOUT, QUERY_TIMEOUT, LEASE) <==> limit <= 2
    ensures AlwaysInLease(limit, SEND_TIMEOUT, 0, LEASE) <==> limit <= 4
  {
    BatchFitsIff(limit, SEND_TIMEOUT, QUERY_TIMEOUT, LEASE);
    BatchFitsIff(limit, SEND_TIMEOUT, 0, LEASE);
  }
}
