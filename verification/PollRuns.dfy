/** A poll of the dispatcher among other workers, and the batch size up to which its lease protects it. */
module PollRuns {
  import opened DeliveryQueue
  import opened DeliveryRuns
  import opened DispatchRuns
  import opened Options

  /** A step of somebody else: it does not use this claim. */
  predicate Spares(l: Label, tk: Token) {
    match l
    case Finish(token, _, _) => token != tk
    case FinishLost(token) => token != tk
    case Log(token, _) => token != tk
    case Stop(token) => token != tk
    case _ => true
  }

  ghost predicate SparesAll(labels: seq<Label>, rows: seq<Row>, until: int) {
    forall i, j :: 0 <= i < |labels| && 0 <= j < |rows| ==> Spares(labels[i], TokenOf(rows[j], until))
  }

  /** Any run of the other workers, of producers and of readers; if `leased`, they keep to their own leases. */
  ghost predicate Others(leased: bool, s: State, rows: seq<Row>, until: int, t: State) {
    exists p :: Leads(leased, s, p, t) && SparesAll(p.labels, rows, until)
  }

  /** The states of a poll: before each row, when its update lands, and when its attempt is logged. */
  datatype Poll = Poll(before: seq<State>, met: seq<State>, logged: seq<State>)

  /** One row, with anything the others do before its update and before its log entry. */
  ghost predicate RowAmong(leased: bool, s: State, rows: seq<Row>, row: Row, until: int, took: Took, start: int,
                           met: State, logged: State, t: State) {
    && Others(leased, s, rows, until, met) && met.now <= Landing(took, start)
    && Others(leased, AfterFinish(met, row, until, took, start), rows, until, logged)
    && logged.now <= start + Duration(took)
    && t == AfterLog(logged, row, until, took, start)
  }

  /** The first n rows of a batch among others, one after the other from `start` on. */
  ghost predicate Among(leased: bool, poll: Poll, rows: seq<Row>, until: int, tooks: seq<Took>, start: int, n: nat) {
    && n <= |rows| <= |tooks| && |poll.before| == |rows| + 1 && |poll.met| == |poll.logged| == |rows|
    && forall i :: 0 <= i < n ==> IthAmong(leased, poll, rows, until, tooks, start, i)
  }

  ghost predicate IthAmong(leased: bool, poll: Poll, rows: seq<Row>, until: int, tooks: seq<Took>, start: int, i: nat)
    requires i < |rows| <= |tooks| && |poll.before| == |rows| + 1 && |poll.met| == |poll.logged| == |rows|
  {
    RowAmong(leased, poll.before[i], rows, rows[i], until, tooks[i], start + Elapsed(tooks, i),
      poll.met[i], poll.logged[i], poll.before[i + 1])
  }

  /** A poll that claims `rows` in state s, at any time of a run. */
  ghost predicate IsPoll(leased: bool, s: State, ids: set<nat>, rows: seq<Row>, claimTook: nat, tooks: seq<Took>,
                         poll: Poll) {
    && Reached(leased, s) && IsClaimed(s, ids, rows)
    && Among(leased, poll, rows, s.now + LEASE, tooks, s.now + claimTook, |rows|)
    && poll.before[0] == Step(s, Claim(ids))
  }

  // A poll among others makes only steps of the queue, in its lease or not

  lemma {:induction false} PathKeepsHolds(p: Path, rows: seq<Row>, until: int, k: nat)
    requires IsRun(p.states, p.labels) && SparesAll(p.labels, rows, until) && k < |rows|
    requires Holds(p.states[0], rows[k], until)
    ensures Holds(p.states[|p.labels|], rows[k], until)
    decreases |p.labels|
  {
    if p.labels != [] {
      var n := |p.labels| - 1;
      PathKeepsHolds(Path(p.states[..n + 1], p.labels[..n]), rows, until, k);
      assert Spares(p.labels[n], TokenOf(rows[k], until));
    }
  }

  lemma {:induction false} PathKeepsUnlogged(p: Path, rows: seq<Row>, until: int, k: nat)
    requires IsRun(p.states, p.labels) && SparesAll(p.labels, rows, until) && k < |rows|
    requires TokenOf(rows[k], until) in p.states[0].unlogged
    ensures TokenOf(rows[k], until) in p.states[|p.labels|].unlogged
    decreases |p.labels|
  {
    if p.labels != [] {
      var n := |p.labels| - 1;
      PathKeepsUnlogged(Path(p.states[..n + 1], p.labels[..n]), rows, until, k);
      assert Spares(p.labels[n], TokenOf(rows[k], until));
    }
  }

  lemma OthersKeep(leased: bool, s: State, rows: seq<Row>, until: int, t: State, n: nat)
    requires Reached(leased, s) && Others(leased, s, rows, until, t) && HoldsFrom(s, rows, until, n)
    ensures Reached(leased, t) && HoldsFrom(t, rows, until, n)
    ensures forall k :: 0 <= k < |rows| && TokenOf(rows[k], until) in s.unlogged ==>
      TokenOf(rows[k], until) in t.unlogged
  {
    var p :| Leads(leased, s, p, t) && SparesAll(p.labels, rows, until);
    ReachedFrom(leased, s, p, t);
    forall k | n <= k < |rows| ensures Holds(t, rows[k], until) { PathKeepsHolds(p, rows, until, k); }
    forall k | 0 <= k < |rows| && TokenOf(rows[k], until) in s.unlogged ensures TokenOf(rows[k], until) in t.unlogged {
      PathKeepsUnlogged(p, rows, until, k);
    }
  }

  lemma FinishKeepsOthers(s: State, rows: seq<Row>, until: int, took: Took, start: int, n: nat)
    requires n < |rows| && HoldsFrom(s, rows, until, n) && DistinctRows(rows)
    ensures HoldsFrom(AfterFinish(s, rows[n], until, took, start), rows, until, n + 1)
  {
    forall k | n + 1 <= k < |rows| ensures Holds(AfterFinish(s, rows[n], until, took, start), rows[k], until) {
      assert Holds(s, rows[k], until);
    }
  }

  lemma OneRow(leased: bool, s: State, rows: seq<Row>, n: nat, until: int, took: Took, start: int,
               met: State, logged: State, t: State)
    requires Reached(leased, s) && n < |rows| && HoldsFrom(s, rows, until, n) && DistinctRows(rows)
    requires RowAmong(leased, s, rows, rows[n], until, took, start, met, logged, t)
    requires leased ==> Landing(took, start) <= until
    ensures Reached(leased, met) && Reached(leased, t) && HoldsFrom(t, rows, until, n + 1)
  {
    OthersKeep(leased, s, rows, until, met, n);
    assert Holds(met, rows[n], until);
    var p := FinishIsRun(leased, met, rows[n], until, took, start);
    var finished := AfterFinish(met, rows[n], until, took, start);
    ReachedFrom(leased, met, p, finished);
    FinishKeepsOthers(met, rows, until, took, start, n);
    OthersKeep(leased, finished, rows, until, logged, n + 1);
    ReachedInv(leased, logged);
    var q := LogIsRun(leased, logged, rows[n], until, took, start);
    ReachedFrom(leased, logged, q, t);
    LogKeepsOthers(logged, rows, until, took, start, n);
  }

  lemma LogKeepsOthers(s: State, rows: seq<Row>, until: int, took: Took, start: int, n: nat)
    requires n < |rows| && HoldsFrom(s, rows, until, n + 1)
    ensures HoldsFrom(AfterLog(s, rows[n], until, took, start), rows, until, n + 1)
  {
    forall k | n + 1 <= k < |rows| ensures Holds(AfterLog(s, rows[n], until, took, start), rows[k], until) {
      assert Holds(s, rows[k], until);
    }
  }

  lemma IthIsRun(leased: bool, poll: Poll, rows: seq<Row>, until: int, tooks: seq<Took>, start: int, i: nat)
    requires i < |rows| <= |tooks| && |poll.before| == |rows| + 1 && |poll.met| == |poll.logged| == |rows|
    requires IthAmong(leased, poll, rows, until, tooks, start, i) && DistinctRows(rows)
    requires Reached(leased, poll.before[i]) && HoldsFrom(poll.before[i], rows, until, i)
    requires leased ==> RowFits(tooks, start, until, i)
    ensures Reached(leased, poll.met[i])
    ensures Reached(leased, poll.before[i + 1]) && HoldsFrom(poll.before[i + 1], rows, until, i + 1)
  {
    OneRow(leased, poll.before[i], rows, i, until, tooks[i], start + Elapsed(tooks, i),
      poll.met[i], poll.logged[i], poll.before[i + 1]);
  }

  lemma {:induction false} AmongIsRun(leased: bool, poll: Poll, rows: seq<Row>, until: int, tooks: seq<Took>,
                                      start: int, n: nat)
    requires Among(leased, poll, rows, until, tooks, start, n) && DistinctRows(rows)
    requires Reached(leased, poll.before[0]) && HoldsFrom(poll.before[0], rows, until, 0)
    requires leased ==> FitsLease(tooks, start, until, n)
    ensures Reached(leased, poll.before[n]) && HoldsFrom(poll.before[n], rows, until, n)
    ensures forall i :: 0 <= i < n ==> Reached(leased, poll.met[i])
    decreases n
  {
    if n > 0 {
      AmongIsRun(leased, poll, rows, until, tooks, start, n - 1);
      IthIsRun(leased, poll, rows, until, tooks, start, n - 1);
    }
  }

  lemma ClaimReached(leased: bool, s: State, ids: set<nat>, rows: seq<Row>)
    requires Reached(leased, s) && IsClaimed(s, ids, rows)
    ensures Reached(leased, Step(s, Claim(ids))) && HoldsFrom(Step(s, Claim(ids)), rows, s.now + LEASE, 0)
  {
    ReachedInv(leased, s);
    var p := One(leased, s, Claim(ids));
    ReachedFrom(leased, s, p, Step(s, Claim(ids)));
    ClaimHolds(s, ids, rows);
  }

  /** Whatever the others do before any of its writes, and however late these are, a poll reaches states of runs. */
  lemma PollIsRun(s: State, ids: set<nat>, rows: seq<Row>, claimTook: nat, tooks: seq<Took>, poll: Poll, n: nat)
    requires IsPoll(false, s, ids, rows, claimTook, tooks, poll) && n <= |rows|
    ensures Reached(false, poll.before[n])
  {
    ClaimReached(false, s, ids, rows);
    AmongIsRun(false, poll, rows, s.now + LEASE, tooks, s.now + claimTook, n);
  }

  // A poll that fits its lease

  /** The row is as this worker claimed it. */
  ghost predicate AsClaimed(s: State, row: Row, until: int) {
    && row.id in s.rows && s.rows[row.id] == row.delivery
    && row.delivery.status.Sending? && row.delivery.lockedUntil == Some(until)
    && TokenOf(row, until) in s.open
  }

  ghost predicate AsClaimedFrom(s: State, rows: seq<Row>, until: int, n: nat) {
    forall k :: n <= k < |rows| ==> AsClaimed(s, rows[k], until)
  }

  lemma StepKeepsClaimed(s: State, l: Label, row: Row, until: int)
    requires Inv(s) && Enabled(s, l) && InLease(s, l) && Spares(l, TokenOf(row, until)) && AsClaimed(s, row, until)
    requires Step(s, l).now <= until
    ensures AsClaimed(Step(s, l), row, until) && s.now <= Step(s, l).now
  {
    if l.Finish? && l.token.id == row.id {
      FinishHitsSending(s, l);
    }
  }

  lemma {:induction false} PathKeepsClaimed(p: Path, rows: seq<Row>, until: int, k: nat)
    requires IsRun(p.states, p.labels) && AllInLease(p.states, p.labels) && Inv(p.states[0])
    requires SparesAll(p.labels, rows, until) && k < |rows|
    requires AsClaimed(p.states[0], rows[k], until) && p.states[|p.labels|].now <= until
    ensures AsClaimed(p.states[|p.labels|], rows[k], until)
    decreases |p.labels|
  {
    if p.labels != [] {
      var n := |p.labels| - 1;
      RunKeepsInv(p.states[..n + 1], p.labels[..n]);
      assert Spares(p.labels[n], TokenOf(rows[k], until));
      assert p.states[n].now <= Step(p.states[n], p.labels[n]).now;
      PathKeepsClaimed(Path(p.states[..n + 1], p.labels[..n]), rows, until, k);
      StepKeepsClaimed(p.states[n], p.labels[n], rows[k], until);
    }
  }

  lemma OthersKeepClaimed(s: State, rows: seq<Row>, until: int, t: State, n: nat)
    requires Reached(true, s) && Others(true, s, rows, until, t) && AsClaimedFrom(s, rows, until, n) && t.now <= until
    ensures AsClaimedFrom(t, rows, until, n)
  {
    ReachedInv(true, s);
    var p :| Leads(true, s, p, t) && SparesAll(p.labels, rows, until);
    forall k | n <= k < |rows| ensures AsClaimed(t, rows[k], until) { PathKeepsClaimed(p, rows, until, k); }
  }

  lemma IthKeepsClaimed(poll: Poll, rows: seq<Row>, until: int, tooks: seq<Took>, start: int, i: nat)
    requires Among(true, poll, rows, until, tooks, start, |rows|) && DistinctRows(rows) && i < |rows|
    requires FitsLease(tooks, start, until, |rows|)
    requires Reached(true, poll.before[i]) && HoldsFrom(poll.before[i], rows, until, i)
    requires AsClaimedFrom(poll.before[i], rows, until, i)
    ensures AsClaimed(poll.met[i], rows[i], until) && AsClaimedFrom(poll.before[i + 1], rows, until, i + 1)
  {
    assert IthAmong(true, poll, rows, until, tooks, start, i) && RowFits(tooks, start, until, i);
    var met, logged, began := poll.met[i], poll.logged[i], start + Elapsed(tooks, i);
    OthersKeep(true, poll.before[i], rows, until, met, i);
    OthersKeepClaimed(poll.before[i], rows, until, met, i);
    if i + 1 < |rows| {
      assert RowFits(tooks, start, until, i + 1);
      var finished := AfterFinish(met, rows[i], until, tooks[i], began);
      assert Holds(met, rows[i], until);
      var p := FinishIsRun(true, met, rows[i], until, tooks[i], began);
      ReachedFrom(true, met, p, finished);
      FinishKeepsClaimed(met, rows, until, tooks[i], began, i);
      OthersKeepClaimed(finished, rows, until, logged, i + 1);
      LogKeepsClaimed(logged, rows, until, tooks[i], began, i);
    }
  }

  lemma FinishKeepsClaimed(s: State, rows: seq<Row>, until: int, took: Took, start: int, n: nat)
    requires n < |rows| && AsClaimedFrom(s, rows, until, n) && DistinctRows(rows)
    ensures AsClaimedFrom(AfterFinish(s, rows[n], until, took, start), rows, until, n + 1)
  {
    forall k | n + 1 <= k < |rows| ensures AsClaimed(AfterFinish(s, rows[n], until, took, start), rows[k], until) {
      assert AsClaimed(s, rows[k], until);
    }
  }

  lemma LogKeepsClaimed(s: State, rows: seq<Row>, until: int, took: Took, start: int, n: nat)
    requires n < |rows| && AsClaimedFrom(s, rows, until, n + 1)
    ensures AsClaimedFrom(AfterLog(s, rows[n], until, took, start), rows, until, n + 1)
  {
    forall k | n + 1 <= k < |rows| ensures AsClaimed(AfterLog(s, rows[n], until, took, start), rows[k], until) {
      assert AsClaimed(s, rows[k], until);
    }
  }

  lemma {:induction false} AmongKeepsClaimed(poll: Poll, rows: seq<Row>, until: int, tooks: seq<Took>, start: int,
                                             n: nat)
    requires Among(true, poll, rows, until, tooks, start, |rows|) && DistinctRows(rows) && n <= |rows|
    requires FitsLease(tooks, start, until, |rows|)
    requires Reached(true, poll.before[0]) && HoldsFrom(poll.before[0], rows, until, 0)
    requires AsClaimedFrom(poll.before[0], rows, until, 0)
    ensures AsClaimedFrom(poll.before[n], rows, until, n)
    ensures forall i :: 0 <= i < n ==> AsClaimed(poll.met[i], rows[i], until)
    decreases n
  {
    if n > 0 {
      AmongKeepsClaimed(poll, rows, until, tooks, start, n - 1);
      AmongIsRun(true, poll, rows, until, tooks, start, n - 1);
      IthKeepsClaimed(poll, rows, until, tooks, start, n - 1);
    }
  }

  lemma ClaimedAtFirst(s: State, ids: set<nat>, rows: seq<Row>)
    requires Reached(true, s) && IsClaimed(s, ids, rows)
    ensures AsClaimedFrom(Step(s, Claim(ids)), rows, s.now + LEASE, 0)
  {
    var t := Step(s, Claim(ids));
    forall k | 0 <= k < |rows| ensures AsClaimed(t, rows[k], s.now + LEASE) {
      assert TokenOf(rows[k], s.now + LEASE) in Taken(s, ids);
    }
  }

  /** A poll whose batch fits the lease has its rows to itself, whatever the others do meanwhile: it is a run in which
      every update is in its lease, and each of its updates meets the row exactly as it was claimed. */
  lemma PollOwnsItsRows(s: State, ids: set<nat>, rows: seq<Row>, claimTook: nat, tooks: seq<Took>, poll: Poll,
                        limit: nat, send: nat, query: nat)
    requires IsPoll(true, s, ids, rows, claimTook, tooks, poll)
    requires |tooks| <= limit && Timely(claimTook, tooks, send, query) && limit * (send + 2 * query) <= LEASE
    ensures Reached(true, poll.before[|rows|])
    ensures forall i :: 0 <= i < |rows| ==>
      Reached(true, poll.met[i]) && AsClaimed(poll.met[i], rows[i], s.now + LEASE)
  {
    var start, until := s.now + claimTook, s.now + LEASE;
    TimelyFits(s.now, claimTook, tooks, limit, send, query, |rows|);
    ClaimReached(true, s, ids, rows);
    ClaimedAtFirst(s, ids, rows);
    AmongIsRun(true, poll, rows, until, tooks, start, |rows|);
    AmongKeepsClaimed(poll, rows, until, tooks, start, |rows|);
  }

  // A poll that does not fit

  /** The states of a poll that nobody interrupts, before its i-th row and when that one's attempt is logged. */
  function Alone(s: State, rows: seq<Row>, until: int, tooks: seq<Took>, start: int, i: nat): State
    requires i <= |rows| <= |tooks|
    decreases i, 0
  {
    if i == 0 then s
    else AfterLog(AloneLogged(s, rows, until, tooks, start, i - 1), rows[i - 1], until, tooks[i - 1],
      start + Elapsed(tooks, i - 1))
  }

  function AloneLogged(s: State, rows: seq<Row>, until: int, tooks: seq<Took>, start: int, i: nat): State
    requires i < |rows| <= |tooks|
    decreases i, 1
  {
    AfterFinish(Alone(s, rows, until, tooks, start, i), rows[i], until, tooks[i], start + Elapsed(tooks, i))
  }

  lemma {:induction false} AloneKeeps(s: State, rows: seq<Row>, until: int, tooks: seq<Took>, start: int, i: nat,
                                      k: nat)
    requires i <= k < |rows| <= |tooks| && DistinctRows(rows) && s.now <= start && rows[k].id in s.rows
    ensures var t := Alone(s, rows, until, tooks, start, i);
      t.now <= start + Elapsed(tooks, i) && rows[k].id in t.rows && t.rows[rows[k].id] == s.rows[rows[k].id]
  {
    if i > 0 { AloneKeeps(s, rows, until, tooks, start, i - 1, k); }
  }

  lemma NobodyActs(s: State, rows: seq<Row>, until: int)
    ensures Others(true, s, rows, until, s)
  {
    var p := Stay(true, s);
    assert SparesAll(p.labels, rows, until);
  }

  lemma AloneRow(s: State, rows: seq<Row>, until: int, tooks: seq<Took>, start: int, i: nat)
    requires i < |rows| <= |tooks| && Alone(s, rows, until, tooks, start, i).now <= start + Elapsed(tooks, i)
    ensures var t := Alone(s, rows, until, tooks, start, i);
      RowAmong(true, t, rows, rows[i], until, tooks[i], start + Elapsed(tooks, i), t,
        AloneLogged(s, rows, until, tooks, start, i), Alone(s, rows, until, tooks, start, i + 1))
  {
    NobodyActs(Alone(s, rows, until, tooks, start, i), rows, until);
    NobodyActs(AloneLogged(s, rows, until, tooks, start, i), rows, until);
  }

  /** A poll that nobody interrupts until the update of its last row is due, and then another worker does, as far as
      `met`. */
  function LateMeeting(s: State, rows: seq<Row>, until: int, tooks: seq<Took>, start: int, met: State): Poll
    requires 0 < |rows| <= |tooks|
  {
    var n := |rows| - 1;
    var began := start + Elapsed(tooks, n);
    var logged := AfterFinish(met, rows[n], until, tooks[n], began);
    Poll(seq(n + 1, i requires 0 <= i <= n => Alone(s, rows, until, tooks, start, i))
           + [AfterLog(logged, rows[n], until, tooks[n], began)],
         seq(n, i requires 0 <= i < n => Alone(s, rows, until, tooks, start, i)) + [met],
         seq(n, i requires 0 <= i < n => AloneLogged(s, rows, until, tooks, start, i)) + [logged])
  }

  lemma EarlierRow(s: State, rows: seq<Row>, until: int, tooks: seq<Took>, start: int, met: State, i: nat)
    requires i + 1 < |rows| <= |tooks| && DistinctRows(rows) && s.now <= start && rows[i].id in s.rows
    ensures IthAmong(true, LateMeeting(s, rows, until, tooks, start, met), rows, until, tooks, start, i)
  {
    AloneKeeps(s, rows, until, tooks, start, i, i);
    AloneRow(s, rows, until, tooks, start, i);
  }

  lemma LastRow(s: State, rows: seq<Row>, until: int, tooks: seq<Took>, start: int, met: State, n: nat)
    requires n + 1 == |rows| <= |tooks|
    requires Others(true, Alone(s, rows, until, tooks, start, n), rows, until, met)
    requires met.now <= Landing(tooks[n], start + Elapsed(tooks, n))
    ensures IthAmong(true, LateMeeting(s, rows, until, tooks, start, met), rows, until, tooks, start, n)
  {
    NobodyActs(AfterFinish(met, rows[n], until, tooks[n], start + Elapsed(tooks, n)), rows, until);
  }

  lemma LateMeetingAmong(s: State, rows: seq<Row>, until: int, tooks: seq<Took>, start: int, met: State)
    requires 0 < |rows| <= |tooks| && DistinctRows(rows) && s.now <= start
    requires forall i :: 0 <= i < |rows| ==> rows[i].id in s.rows
    requires Others(true, Alone(s, rows, until, tooks, start, |rows| - 1), rows, until, met)
    requires met.now <= Landing(tooks[|rows| - 1], start + Elapsed(tooks, |rows| - 1))
    ensures Among(true, LateMeeting(s, rows, until, tooks, start, met), rows, until, tooks, start, |rows|)
  {
    var n := |rows| - 1;
    LastRow(s, rows, until, tooks, start, met, n);
    forall i | 0 <= i < n
      ensures IthAmong(true, LateMeeting(s, rows, until, tooks, start, met), rows, until, tooks, start, i)
    {
      EarlierRow(s, rows, until, tooks, start, met, i);
    }
  }

  // n rows, claimed by one worker

  const NEW := NewDelivery(1, false, false, DEFAULT_MAX_ATTEMPTS, 0)

  function Fresh(n: nat): (rows: map<nat, Delivery>)
    ensures forall id: nat :: id in rows <==> id < n
    ensures forall id: nat :: id in rows ==> rows[id] == NEW
  {
    if n == 0 then map[] else Fresh(n - 1)[n - 1 := NEW]
  }

  function Enqueued(n: nat): State {
    State(0, Fresh(n), {}, {}, [], map[], map[])
  }

  lemma {:induction false} EnqueuedReached(n: nat)
    ensures Reached(true, Enqueued(n))
  {
    if n == 0 {
      var p := Stay(true, INIT);
    } else {
      EnqueuedReached(n - 1);
      var l := Create(n - 1, 1, false, false, DEFAULT_MAX_ATTEMPTS);
      var p := One(true, Enqueued(n - 1), l);
      ReachedFrom(true, Enqueued(n - 1), p, Enqueued(n));
    }
  }

  function FirstRows(n: nat): seq<Row> {
    seq(n, i requires i >= 0 => Row(i, Claimed(NEW, 0)))
  }

  /** Another worker claims the row when its lease is over, and sends it at once. */
  lemma TakenOver(s: State, rows: seq<Row>, id: nat, at: int) returns (t: State)
    requires id in s.rows && s.rows[id] == Claimed(NEW, 0) && s.now <= at && LEASE < at
    requires forall r :: r in rows ==> r.delivery.attempts == 1
    ensures Others(true, s, rows, LEASE, t) && t.now == at
    ensures id in t.rows && t.rows[id].status.Sent?
  {
    var s1 := Step(s, Tick(at));
    var first := One(true, s, Tick(at));
    var s2 := Step(s1, Claim({id}));
    var second := One(true, s1, Claim({id}));
    var tk := Token(id, 2, at + LEASE);
    assert tk in Taken(s1, {id});
    var third := One(true, s2, Finish(tk, Delivered, at));
    t := Step(s2, Finish(tk, Delivered, at));
    var p := Then(true, s, first, s1, second, s2);
    p := Then(true, s, p, s2, third, t);
    assert SparesAll(p.labels, rows, LEASE);
  }

  /** This update takes a row out of sent, failed or skipped. */
  predicate Undoes(poll: Poll, rows: seq<Row>, i: nat) {
    && i < |rows| == |poll.met| && |poll.before| == |rows| + 1
    && var (id, met, after) := (rows[i].id, poll.met[i], poll.before[i + 1]);
       id in met.rows && Terminal(met.rows[id].status) && id in after.rows && !Terminal(after.rows[id].status)
  }

  /** One worker has claimed all n rows. */
  function Started(n: nat): State {
    Step(Enqueued(n), Claim(Enqueued(n).rows.Keys))
  }

  lemma AllClaimed(n: nat)
    ensures Reached(true, Enqueued(n)) && IsClaimed(Enqueued(n), Enqueued(n).rows.Keys, FirstRows(n))
    ensures Started(n).now == 0
    ensures forall id: nat :: id < n ==> id in Started(n).rows && Started(n).rows[id] == Claimed(NEW, 0)
  {
    EnqueuedReached(n);
  }

  lemma UpdateUndoes(met: State, row: Row, tooks: seq<Took>, start: int, poll: Poll, rows: seq<Row>, s: State)
    requires 0 < |rows| <= |tooks| && row == rows[|rows| - 1] && row.delivery == Claimed(NEW, 0)
    requires row.id in met.rows && met.rows[row.id].status.Sent?
    requires tooks[|rows| - 1].finishLands && tooks[|rows| - 1].sent.Unavailable?
    requires poll == LateMeeting(s, rows, LEASE, tooks, start, met)
    ensures Undoes(poll, rows, |rows| - 1)
  {
  }

  lemma LateBegins(s: State, rows: seq<Row>, until: int, tooks: seq<Took>, start: int, met: State)
    requires 0 < |rows| <= |tooks|
    ensures LateMeeting(s, rows, until, tooks, start, met).before[0] == s
  {
    assert Alone(s, rows, until, tooks, start, 0) == s;
  }

  lemma PollFromZero(s: State, ids: set<nat>, rows: seq<Row>, claimTook: nat, tooks: seq<Took>, poll: Poll, s1: State)
    requires Reached(true, s) && s.now == 0 && IsClaimed(s, ids, rows) && s1 == Step(s, Claim(ids))
    requires Among(true, poll, rows, LEASE, tooks, claimTook, |rows|) && poll.before[0] == s1
    ensures IsPoll(true, s, ids, rows, claimTook, tooks, poll)
  {
  }

  lemma LateIsPoll(n: nat, query: nat, tooks: seq<Took>, met: State)
    requires 0 < n == |tooks|
    requires Others(true, Alone(Started(n), FirstRows(n), LEASE, tooks, query, n - 1), FirstRows(n), LEASE, met)
    requires met.now <= Landing(tooks[n - 1], query + Elapsed(tooks, n - 1))
    ensures IsPoll(true, Enqueued(n), Enqueued(n).rows.Keys, FirstRows(n), query, tooks,
      LateMeeting(Started(n), FirstRows(n), LEASE, tooks, query, met))
  {
    var rows := FirstRows(n);
    AllClaimed(n);
    LateMeetingAmong(Started(n), rows, LEASE, tooks, query, met);
    LateBegins(Started(n), rows, LEASE, tooks, query, met);
    PollFromZero(Enqueued(n), Enqueued(n).rows.Keys, rows, query, tooks,
      LateMeeting(Started(n), rows, LEASE, tooks, query, met), Started(n));
  }

  /** A batch that the timeouts let outlast the lease: its last row has been claimed and sent by another worker when
      its update lands, and is pending again. */
  lemma SlowPollResends(limit: nat, send: nat, query: nat)
    returns (s: State, ids: set<nat>, rows: seq<Row>, poll: Poll)
    requires limit * (send + 2 * query) > LEASE
    ensures |rows| == limit > 0 && IsPoll(true, s, ids, rows, query, Slowest(limit, send, query), poll)
    ensures Undoes(poll, rows, limit - 1)
  {
    s, rows := Enqueued(limit), FirstRows(limit);
    ids := s.rows.Keys;
    AllClaimed(limit);
    var tooks := Slowest(limit, send, query);
    var met := LastTakenOver(Started(limit), rows, tooks, limit, send, query);
    poll := LateMeeting(Started(limit), rows, LEASE, tooks, query, met);
    LateIsPoll(limit, query, tooks, met);
    UpdateUndoes(met, rows[limit - 1], tooks, query, poll, rows, Started(limit));
  }

  lemma LastTakenOver(s: State, rows: seq<Row>, tooks: seq<Took>, limit: nat, send: nat, query: nat)
    returns (met: State)
    requires limit * (send + 2 * query) > LEASE && tooks == Slowest(limit, send, query) && rows == FirstRows(limit)
    requires s.now == 0 && forall id: nat :: id < limit ==> id in s.rows && s.rows[id] == Claimed(NEW, 0)
    ensures limit > 0 && Others(true, Alone(s, rows, LEASE, tooks, query, limit - 1), rows, LEASE, met)
    ensures met.now <= Landing(tooks[limit - 1], query + Elapsed(tooks, limit - 1))
    ensures limit - 1 in met.rows && met.rows[limit - 1].status.Sent?
  {
    SlowestLast(limit, send, query);
    var n := limit - 1;
    AloneKeeps(s, rows, LEASE, tooks, query, n, n);
    var landing := Landing(tooks[n], query + Elapsed(tooks, n));
    assert landing == FinishedAfter(query, tooks, n);
    met := TakenOver(Alone(s, rows, LEASE, tooks, query, n), rows, n, landing);
  }

  /** No poll of at most `limit` rows within these timeouts takes a row out of sent, failed or skipped, whatever other
      workers within their leases do. */
  ghost predicate PollsAbsorb(limit: nat, send: nat, query: nat) {
    forall s, ids, rows, claimTook: nat, tooks, poll, i: nat ::
      IsPoll(true, s, ids, rows, claimTook, tooks, poll) && |tooks| <= limit && Timely(claimTook, tooks, send, query)
      ==> !Undoes(poll, rows, i)
  }

  /** The exact condition on the batch size. */
  lemma PollsAbsorbIff(limit: nat, send: nat, query: nat)
    ensures PollsAbsorb(limit, send, query) <==> limit * (send + 2 * query) <= LEASE
  {
    if limit * (send + 2 * query) <= LEASE {
      forall s, ids, rows, claimTook: nat, tooks, poll, i: nat |
        IsPoll(true, s, ids, rows, claimTook, tooks, poll) && |tooks| <= limit && Timely(claimTook, tooks, send, query)
        ensures !Undoes(poll, rows, i)
      {
        PollOwnsItsRows(s, ids, rows, claimTook, tooks, poll, limit, send, query);
        if i < |rows| { assert AsClaimed(poll.met[i], rows[i], s.now + LEASE); }
      }
    } else {
      var s, ids, rows, poll := SlowPollResends(limit, send, query);
      assert Timely(query, Slowest(limit, send, query), send, query);
    }
  }

  /** With the timeouts of the code that is a batch of two rows; its default is 25. */
  lemma DefaultBatchResends(limit: nat)
    ensures PollsAbsorb(limit, SEND_TIMEOUT, QUERY_TIMEOUT) <==> limit <= 2
    ensures !PollsAbsorb(DEFAULT_BATCH, SEND_TIMEOUT, QUERY_TIMEOUT)
  {
    PollsAbsorbIff(limit, SEND_TIMEOUT, QUERY_TIMEOUT);
    PollsAbsorbIff(DEFAULT_BATCH, SEND_TIMEOUT, QUERY_TIMEOUT);
  }
}
