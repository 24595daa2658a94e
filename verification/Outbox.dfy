/** The transactional outbox: a leased queue with an attempt cap. */
module Outbox {
  import opened Collections
  import opened Events
  import opened Options

  datatype Row = Row(
    topic: string,
    key: string,
    event: Event,
    headers: map<string, string>,   // under any names; see Relay.ProducedIsFreshIff
    availableAt: int,
    attempts: int,
    maxAttempts: int,
    publishedAt: Option<int>,
    lockedAt: Option<int>,
    lockedBy: string
  )

  type Table = map<nat, Row>

  const DEFAULT_MAX_ATTEMPTS := 20
  const DEFAULT_LIMIT := 100

  function NewRow(topic: string, key: string, e: Event, headers: map<string, string>, now: int): Row {
    Row(topic, key, e, headers, now, 0, DEFAULT_MAX_ATTEMPTS, None, None, "")
  }

  predicate Claimable(r: Row, now: int, lease: int) {
    && r.publishedAt.None?
    && r.attempts < r.maxAttempts
    && r.availableAt <= now
    && (r.lockedAt.None? || r.lockedAt.value < now - lease)
  }

  function ClaimRow(r: Row, worker: string, now: int): Row {
    r.(lockedAt := Some(now), lockedBy := worker, attempts := r.attempts + 1)
  }

  function ClaimRows(t: Table, ids: set<nat>, worker: string, now: int): Table {
    map id | id in t :: if id in ids then ClaimRow(t[id], worker, now) else t[id]
  }

  /** Neither mark asks who holds the claim. */
  function Published(r: Row, now: int): Row {
    r.(publishedAt := Some(now), lockedAt := None, lockedBy := "")
  }

  function Failed(r: Row, retryAt: int): Row {
    r.(availableAt := retryAt, lockedAt := None, lockedBy := "")
  }

  /** `ORDER BY available_at, occurred_at`. */
  predicate Earlier(a: Row, b: Row) {
    a.availableAt < b.availableAt || (a.availableAt == b.availableAt && a.event.time < b.event.time)
  }

  // When a row can be claimed at all

  ghost predicate EverClaimable(r: Row, lease: int) {
    exists now :: Claimable(r, now, lease)
  }

  /** Only publication and exhaustion take a row out of the queue for good. */
  lemma EverClaimableIff(r: Row, lease: int)
    ensures EverClaimable(r, lease) <==> r.publishedAt.None? && r.attempts < r.maxAttempts
  {
    var locked := if r.lockedAt.Some? then r.lockedAt.value + lease + 1 else 0;
    var now := if locked > r.availableAt then locked else r.availableAt;
    if r.publishedAt.None? && r.attempts < r.maxAttempts {
      assert Claimable(r, now, lease);
    }
  }

  /** A late failure mark by a worker that lost its claim does not bring a published row back. */
  lemma PublishedStaysOut(r: Row, now: int, retryAt: int, later: int, lease: int)
    requires r.publishedAt.Some?
    ensures !Claimable(Failed(r, retryAt), later, lease) && !Claimable(Published(r, now), later, lease)
    ensures Failed(r, retryAt).publishedAt == r.publishedAt
  {
    assert Failed(r, retryAt).publishedAt.Some?;
  }

  /** A claim holds for the lease, and no longer: until then nobody else can take the row, and right after it anybody
      can, if it is still due and has attempts left. */
  lemma ClaimHoldsForLease(r: Row, worker: string, now: int, lease: int, t: int)
    ensures t <= now + lease ==> !Claimable(ClaimRow(r, worker, now), t, lease)
    ensures now + lease < t && r.availableAt <= t && r.publishedAt.None? && r.attempts + 1 < r.maxAttempts ==>
      Claimable(ClaimRow(r, worker, now), t, lease)
  {
  }

  /** The picked rows are locked by this worker with one attempt more, and nothing else changes. */
  ghost predicate IsClaim(before: Table, after: Table, picked: set<nat>, worker: string, now: int) {
    && after.Keys == before.Keys
    && forall id :: id in before ==> after[id] == if id !in picked then before[id]
         else before[id].(lockedAt := Some(now), lockedBy := worker, attempts := before[id].attempts + 1)
  }

  lemma ClaimMeaning(t: Table, picked: set<nat>, worker: string, now: int, lease: int)
    requires picked <= t.Keys
    ensures IsClaim(t, ClaimRows(t, picked, worker, now), picked, worker, now)
    ensures forall later, id :: later <= now + lease && id in picked ==>
      !Claimable(ClaimRows(t, picked, worker, now)[id], later, lease)
  {
  }

  /** Attempts a row still has, 0 once it is published. */
  function Left(r: Row): int {
    if r.publishedAt.Some? then 0 else r.maxAttempts - r.attempts
  }

  ghost function Budget(t: Table, ids: set<nat>): int
    requires ids <= t.Keys
  {
    if ids == {} then 0 else
      var id :| id in ids;
      Left(t[id]) + Budget(t, ids - {id})
  }

  lemma {:induction false} BudgetSplit(t: Table, ids: set<nat>, id: nat)
    requires ids <= t.Keys && id in ids
    ensures Budget(t, ids) == Left(t[id]) + Budget(t, ids - {id})
  {
    var pick :| pick in ids && Budget(t, ids) == Left(t[pick]) + Budget(t, ids - {pick});
    if pick != id {
      BudgetSplit(t, ids - {pick}, id);
      BudgetSplit(t, ids - {id}, pick);
      assert ids - {pick} - {id} == ids - {id} - {pick};
    }
  }

  lemma {:induction false} BudgetCongruent(t: Table, u: Table, ids: set<nat>)
    requires ids <= t.Keys && ids <= u.Keys && forall id :: id in ids ==> Left(t[id]) == Left(u[id])
    ensures Budget(t, ids) == Budget(u, ids)
  {
    if ids != {} {
      var id :| id in ids;
      BudgetSplit(t, ids, id);
      BudgetSplit(u, ids, id);
      BudgetCongruent(t, u, ids - {id});
    }
  }

  /** A claim spends exactly one attempt of the budget per row it takes. */
  lemma {:induction false} ClaimSpends(t: Table, picked: set<nat>, worker: string, now: int, lease: int, ids: set<nat>)
    requires picked <= ids <= t.Keys && forall id :: id in picked ==> Claimable(t[id], now, lease)
    ensures Budget(ClaimRows(t, picked, worker, now), ids) == Budget(t, ids) - |picked|
  {
    var u := ClaimRows(t, picked, worker, now);
    if ids == {} {
    } else {
      var id :| id in ids;
      BudgetSplit(t, ids, id);
      BudgetSplit(u, ids, id);
      var rest := picked - {id};
      ClaimSpends(t, rest, worker, now, lease, ids - {id});
      BudgetCongruent(u, ClaimRows(t, rest, worker, now), ids - {id});
    }
  }

  // The store

  datatype Record = Record(id: nat, row: Row)

  function IdsOf(records: seq<Record>): set<nat> {
    set r | r in records :: r.id
  }

  predicate DistinctIds(records: seq<Record>) {
    forall i, j :: 0 <= i < j < |records| ==> records[i].id != records[j].id
  }

  lemma {:induction false} IdsAtMost(records: seq<Record>)
    ensures |IdsOf(records)| <= |records|
  {
    if records != [] {
      var n := |records| - 1;
      IdsAtMost(records[..n]);
      assert IdsOf(records) == IdsOf(records[..n]) + {records[n].id};
    }
  }

  /** As many ids as records: every row comes once. */
  lemma EachOnce(records: seq<Record>)
    requires |IdsOf(records)| == |records|
    ensures DistinctIds(records)
  {
    forall i, j | 0 <= i < j < |records| ensures records[i].id != records[j].id {
      if records[i].id == records[j].id {
        var rest := records[..j] + records[j + 1..];
        assert rest[i] == records[i];
        forall r | r in records ensures r.id in IdsOf(rest) {
          var k :| 0 <= k < |records| && records[k] == r;
          if k > j { assert rest[k - 1] == r; } else if k < j { assert rest[k] == r; }
        }
        assert IdsOf(records) <= IdsOf(rest);
        IdsAtMost(rest);
        SubsetSize(IdsOf(records), IdsOf(rest));
      }
    }
  }

  datatype EnqueueResult = Enqueued | Invalid | AlreadyThere

  class Store {
    var rows: Table

    constructor ()
      ensures rows == map[]
    {
      rows := map[];
    }

    method Enqueue(topic: string, key: string, e: Event, headers: map<string, string>, now: int)
      returns (result: EnqueueResult)
      modifies this
      ensures result == if !Valid(e) then Invalid else if e.id in old(rows) then AlreadyThere else Enqueued
      ensures result.Invalid? <==>
        || e.specVersion != "1.0" || e.id == NIL_ID || e.time == 0 || e.version < 1 || !e.dataIsJson
        || e.source == "" || e.eventType == "" || e.subject == "" || e.dataSchema == ""
        || e.contentType != "application/json" || !e.correlation.Uuid?
      ensures !result.Enqueued? ==> rows == old(rows)
      ensures result.Enqueued? ==>
        rows == old(rows)[e.id := Row(topic, key, e, headers, now, 0, DEFAULT_MAX_ATTEMPTS, None, None, "")]
    {
      if !Valid(e) {
        return Invalid;
      }
      if e.id in rows {
        return AlreadyThere;
      }
      rows := rows[e.id := NewRow(topic, key, e, headers, now)];
      result := Enqueued;
    }

    ghost function Candidates(now: int, lease: int, skip: set<nat>): set<nat>
      reads this
    {
      set id | id in rows && id !in skip && Claimable(rows[id], now, lease)
    }

    method First(ids: set<nat>) returns (first: nat)
      requires ids != {} && ids <= rows.Keys
      ensures first in ids && forall id :: id in ids ==> !Earlier(rows[id], rows[first])
    {
      first :| first in ids;
      var rest := ids - {first};
      while rest != {}
        invariant first in ids && rest <= ids
        invariant forall id :: id in ids - rest ==> !Earlier(rows[id], rows[first])
        decreases rest
      {
        var id :| id in rest;
        if Earlier(rows[id], rows[first]) {
          first := id;
        }
        rest := rest - {id};
      }
    }

    /** The candidates of one claim: the earliest ones first, no more than `cap`. */
    method Select(candidates: set<nat>, cap: nat) returns (picked: set<nat>)
      requires candidates <= rows.Keys
      ensures picked <= candidates && |picked| <= cap
      ensures |picked| < cap ==> picked == candidates
      ensures forall id, other :: id in picked && other in candidates - picked ==> !Earlier(rows[other], rows[id])
    {
      var left := candidates;
      picked := {};
      while left != {} && |picked| < cap
        invariant picked + left == candidates && picked !! left && |picked| <= cap
        invariant forall id, other :: id in picked && other in left ==> !Earlier(rows[other], rows[id])
        decreases left
      {
        var id := First(left);
        picked, left := picked + {id}, left - {id};
      }
      assert candidates - picked == left;
    }

    /** The rows an update returns come back in no particular order. */
    method Returning(picked: set<nat>) returns (records: seq<Record>)
      requires picked <= rows.Keys
      ensures |records| == |picked| && IdsOf(records) == picked
      ensures forall r :: r in records ==> r.id in rows && r.row == rows[r.id]
    {
      records := [];
      var rest := picked;
      while rest != {}
        invariant rest <= picked && |records| + |rest| == |picked|
        invariant IdsOf(records) == picked - rest
        invariant forall r :: r in records ==> r.id in rows && r.row == rows[r.id]
        decreases rest
      {
        var id :| id in rest;
        ghost var before := records;
        records, rest := records + [Record(id, rows[id])], rest - {id};
        assert IdsOf(records) == IdsOf(before) + {id};
      }
    }

    /** `skip` are the rows locked by other transactions. What is taken is unpublished, due, below its attempt cap and
        free, or locked for longer than the lease; it is then locked by this worker with one attempt more, and no
        candidate for anybody until the lease is over. */
    method Claim(worker: string, limit: int, lease: int, now: int, skip: set<nat>) returns (records: seq<Record>)
      modifies this
      ensures var candidates := old(Candidates(now, lease, skip));
        var picked := IdsOf(records);
        var cap := if limit < 1 then DEFAULT_LIMIT else limit;
        && |records| == |picked|
        && (forall r :: r in records ==> r.id in rows && r.row == rows[r.id])
        && rows == ClaimRows(old(rows), picked, worker, now)
        && picked <= candidates && |picked| <= cap
        && (|picked| < cap ==> picked == candidates)
        && DistinctIds(records)
        && (forall id, other :: id in picked && other in candidates - picked ==>
             var (first, second) := (old(rows)[id], old(rows)[other]);
             && first.availableAt <= second.availableAt
             && (first.availableAt == second.availableAt ==> first.event.time <= second.event.time))
        && (forall id :: id in candidates <==>
             && id in old(rows) && id !in skip && old(rows)[id].publishedAt.None?
             && old(rows)[id].attempts < old(rows)[id].maxAttempts && old(rows)[id].availableAt <= now
             && (old(rows)[id].lockedAt.Some? ==> old(rows)[id].lockedAt.value + lease < now))
        && IsClaim(old(rows), rows, picked, worker, now)
        && (forall t :: t <= now + lease ==> picked !! Candidates(t, lease, {}))
    {
      var cap := if limit < 1 then DEFAULT_LIMIT else limit;
      var candidates := set id | id in rows && id !in skip && Claimable(rows[id], now, lease);
      var picked := Select(candidates, cap);
      ClaimMeaning(rows, picked, worker, now, lease);
      rows := ClaimRows(rows, picked, worker, now);
      records := Returning(picked);
      EachOnce(records);
    }

    method MarkPublished(id: nat, now: int) returns (found: bool)
      modifies this
      ensures found == (id in old(rows))
      ensures rows == if !found then old(rows)
        else old(rows)[id := old(rows)[id].(publishedAt := Some(now), lockedAt := None, lockedBy := "")]
    {
      found := id in rows;
      if found {
        rows := rows[id := Published(rows[id], now)];
      }
    }

    method MarkFailed(id: nat, now: int, delay: int)
      modifies this
      ensures rows == if id !in old(rows) then old(rows)
        else old(rows)[id := old(rows)[id].(availableAt := now + delay, lockedAt := None, lockedBy := "")]
    {
      if id in rows {
        rows := rows[id := Failed(rows[id], now + delay)];
      }
    }
  }
}
