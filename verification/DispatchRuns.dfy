/** A poll of the dispatcher that nobody interrupts is a run of the delivery queue, inside its lease when it fits. */
module DispatchRuns {
  import opened DeliveryQueue
  import opened DeliveryRuns

  datatype Path = Path(states: seq<State>, labels: seq<Label>)

  /** A run from s to t, in which every update arrives inside its lease if `leased`. */
  ghost predicate Leads(leased: bool, s: State, p: Path, t: State) {
    && IsRun(p.states, p.labels) && (leased ==> AllInLease(p.states, p.labels))
    && p.states[0] == s && p.states[|p.labels|] == t
  }

  ghost predicate Reached(leased: bool, s: State) {
    exists p :: Leads(leased, INIT, p, s)
  }

  lemma Stay(leased: bool, s: State) returns (p: Path)
    ensures Leads(leased, s, p, s) && p.labels == []
  {
    p := Path([s], []);
  }

  lemma One(leased: bool, s: State, l: Label) returns (p: Path)
    requires Enabled(s, l) && (leased ==> InLease(s, l))
    ensures Leads(leased, s, p, Step(s, l)) && p.labels == [l]
  {
    p := Path([s, Step(s, l)], [l]);
  }

  lemma Then(leased: bool, s: State, p: Path, t: State, q: Path, u: State) returns (r: Path)
    requires Leads(leased, s, p, t) && Leads(leased, t, q, u)
    ensures Leads(leased, s, r, u) && r.labels == p.labels + q.labels
  {
    var n := |p.labels|;
    r := Path(p.states[..n] + q.states, p.labels + q.labels);
    forall i | 0 <= i < |r.labels|
      ensures Enabled(r.states[i], r.labels[i]) && r.states[i + 1] == Step(r.states[i], r.labels[i])
      ensures leased ==> InLease(r.states[i], r.labels[i])
    {
      if i < n {
        assert r.states[i] == p.states[i] && r.states[i + 1] == p.states[i + 1] && r.labels[i] == p.labels[i];
      } else {
        var j := i - n;
        assert r.states[i] == q.states[j] && r.states[i + 1] == q.states[j + 1] && r.labels[i] == q.labels[j];
      }
    }
  }

  lemma ReachedFrom(leased: bool, s: State, p: Path, t: State)
    requires Reached(leased, s) && Leads(leased, s, p, t)
    ensures Reached(leased, t)
  {
    var before :| Leads(leased, INIT, before, s);
    var all := Then(leased, INIT, before, s, p, t);
  }

  lemma ReachedInv(leased: bool, s: State)
    requires Reached(leased, s)
    ensures LogInv(s) && (leased ==> Inv(s))
  {
    var p :| Leads(leased, INIT, p, s);
    RunKeepsLogInv(p.states, p.labels);
    if leased { RunKeepsInv(p.states, p.labels); }
  }

  function TokenOf(row: Row, until: int): Token {
    Token(row.id, row.delivery.attempts, until)
  }

  /** The worker has the row's claim in hand. */
  ghost predicate Holds(s: State, row: Row, until: int) {
    && row.id in s.rows && s.rows[row.id].maxAttempts == row.delivery.maxAttempts
    && TokenOf(row, until) in s.open && TokenOf(row, until) !in s.unlogged
  }

  /** When the update of a row lands whose send began at `start`. */
  function Landing(took: Took, start: int): int {
    start + took.send + took.finish
  }

  /** The state after the update, or its loss. */
  function AfterFinish(s: State, row: Row, until: int, took: Took, start: int): State {
    var (status, delay) := Verdict(row.delivery.attempts, row.delivery.maxAttempts, took.sent);
    s.(now := Landing(took, start), rows := Handled(s.rows, s.log, row, took, start).0,
       open := s.open - {TokenOf(row, until)}, unlogged := s.unlogged + {TokenOf(row, until)},
       scheduled := if took.finishLands && status.Pending?
         then s.scheduled[row.id := Scheduled(s, row.id) + delay] else s.scheduled)
  }

  /** The state after the attempt log, or its loss. */
  function AfterLog(s: State, row: Row, until: int, took: Took, start: int): State {
    s.(now := start + Duration(took), log := Handled(s.rows, s.log, row, took, start).1,
       unlogged := s.unlogged - {TokenOf(row, until)})
  }

  lemma FinishIsRun(leased: bool, s: State, row: Row, until: int, took: Took, start: int) returns (p: Path)
    requires Holds(s, row, until) && s.now <= Landing(took, start) && (leased ==> Landing(took, start) <= until)
    ensures Leads(leased, s, p, AfterFinish(s, row, until, took, start))
  {
    var tk := TokenOf(row, until);
    var wait := Tick(Landing(took, start));
    var s1 := Step(s, wait);
    var first := One(leased, s, wait);
    var l := if took.finishLands then Finish(tk, took.sent, start + took.send) else FinishLost(tk);
    var second := One(leased, s1, l);
    assert Step(s1, l) == AfterFinish(s, row, until, took, start);
    p := Then(leased, s, first, s1, second, Step(s1, l));
  }

  lemma LogIsRun(leased: bool, s: State, row: Row, until: int, took: Took, start: int) returns (p: Path)
    requires TokenOf(row, until) in s.unlogged && TokenOf(row, until) !in s.open && s.now <= start + Duration(took)
    ensures Leads(leased, s, p, AfterLog(s, row, until, took, start))
  {
    var tk := TokenOf(row, until);
    var status := Verdict(row.delivery.attempts, row.delivery.maxAttempts, took.sent).0;
    var wait := Tick(start + Duration(took));
    var s1 := Step(s, wait);
    var first := One(leased, s, wait);
    var l := if took.logLands then Log(tk, status) else Stop(tk);
    var second := One(leased, s1, l);
    assert Step(s1, l) == AfterLog(s, row, until, took, start);
    p := Then(leased, s, first, s1, second, Step(s1, l));
  }

  /** One row of a batch is a run that leaves the table and the log as the dispatcher does. */
  lemma RowIsRun(s: State, row: Row, until: int, took: Took, start: int) returns (p: Path, t: State)
    requires Holds(s, row, until) && s.now <= start && Landing(took, start) <= until
    ensures Leads(true, s, p, t) && t.now == start + Duration(took)
    ensures (t.rows, t.log) == Handled(s.rows, s.log, row, took, start)
    ensures t.open == s.open - {TokenOf(row, until)} && t.unlogged == s.unlogged
  {
    var first := FinishIsRun(true, s, row, until, took, start);
    var s1 := AfterFinish(s, row, until, took, start);
    var second := LogIsRun(true, s1, row, until, took, start);
    t := AfterLog(s1, row, until, took, start);
    p := Then(true, s, first, s1, second, t);
  }

  ghost predicate RowFits(tooks: seq<Took>, start: int, until: int, i: nat)
    requires i < |tooks|
  {
    Landing(tooks[i], start + Elapsed(tooks, i)) <= until
  }

  ghost predicate FitsLease(tooks: seq<Took>, start: int, until: int, n: nat) {
    n <= |tooks| && forall i :: 0 <= i < n ==> RowFits(tooks, start, until, i)
  }

  ghost predicate HoldsFrom(s: State, rows: seq<Row>, until: int, n: nat) {
    forall i :: n <= i < |rows| ==> Holds(s, rows[i], until)
  }

  ghost predicate DistinctRows(rows: seq<Row>) {
    forall i, j :: 0 <= i < j < |rows| ==> rows[i].id != rows[j].id
  }

  lemma NextRow(s: State, rows: seq<Row>, until: int, took: Took, start: int, n: nat) returns (p: Path, t: State)
    requires n < |rows| && HoldsFrom(s, rows, until, n) && DistinctRows(rows)
    requires s.now <= start && Landing(took, start) <= until
    ensures Leads(true, s, p, t) && t.now == start + Duration(took)
    ensures (t.rows, t.log) == Handled(s.rows, s.log, rows[n], took, start)
    ensures HoldsFrom(t, rows, until, n + 1)
  {
    assert Holds(s, rows[n], until);
    p, t := RowIsRun(s, rows[n], until, took, start);
    forall i | n + 1 <= i < |rows| ensures Holds(t, rows[i], until) {
    }
  }

  lemma {:induction false} BatchIsRun(
    s: State, rows: seq<Row>, until: int, tooks: seq<Took>, start: int, n: nat) returns (p: Path, t: State)
    requires HoldsFrom(s, rows, until, 0) && DistinctRows(rows)
    requires n <= |rows| <= |tooks| && s.now <= start && FitsLease(tooks, start, until, n)
    ensures Leads(true, s, p, t) && t.now <= start + Elapsed(tooks, n)
    ensures (t.rows, t.log) == Batch(s.rows, s.log, rows, tooks, start, n)
    ensures HoldsFrom(t, rows, until, n)
  {
    if n == 0 {
      p := Stay(true, s);
      t := s;
    } else {
      var first, s1 := BatchIsRun(s, rows, until, tooks, start, n - 1);
      assert RowFits(tooks, start, until, n - 1);
      var second;
      second, t := NextRow(s1, rows, until, tooks[n - 1], start + Elapsed(tooks, n - 1), n - 1);
      p := Then(true, s, first, s1, second, t);
    }
  }

  /** The rows a claim hands out, each once, as the table has them afterwards. */
  ghost predicate IsClaimed(s: State, ids: set<nat>, claimed: seq<Row>) {
    && ids <= s.rows.Keys && (forall id :: id in ids ==> Due(s.rows[id], s.now))
    && DistinctRows(claimed)
    && forall i :: 0 <= i < |claimed| ==>
         claimed[i].id in ids && claimed[i].delivery == Claimed(s.rows[claimed[i].id], s.now)
  }

  lemma ClaimHolds(s: State, ids: set<nat>, claimed: seq<Row>)
    requires LogInv(s) && IsClaimed(s, ids, claimed)
    ensures HoldsFrom(Step(s, Claim(ids)), claimed, s.now + LEASE, 0)
  {
    forall i | 0 <= i < |claimed| ensures Holds(Step(s, Claim(ids)), claimed[i], s.now + LEASE) {
      var tk := TokenOf(claimed[i], s.now + LEASE);
      assert tk in Taken(s, ids);
      assert !TokenOk(s, tk);
    }
  }

  lemma TimelyFits(now: int, claimTook: nat, tooks: seq<Took>, limit: nat, send: nat, query: nat, n: nat)
    requires n <= |tooks| <= limit && Timely(claimTook, tooks, send, query) && limit * (send + 2 * query) <= LEASE
    ensures FitsLease(tooks, now + claimTook, now + LEASE, n)
  {
    FitsInLease(limit, send, query, LEASE);
    var start, until := now + claimTook, now + LEASE;
    forall i | 0 <= i < n ensures RowFits(tooks, start, until, i) {
      assert FinishedAfter(claimTook, tooks, i) <= LEASE;
    }
  }

  /** The steps of a poll whose batch fits, and the state they end in. */
  lemma DispatchPath(s: State, ids: set<nat>, claimed: seq<Row>, claimTook: nat, tooks: seq<Took>,
                     limit: nat, send: nat, query: nat)
    returns (p: Path, t: State)
    requires LogInv(s) && IsClaimed(s, ids, claimed)
    requires |claimed| <= |tooks| <= limit && Timely(claimTook, tooks, send, query)
    requires limit * (send + 2 * query) <= LEASE
    ensures Leads(true, s, p, t)
    ensures (t.rows, t.log)
      == Batch(ClaimedRows(s.rows, ids, s.now), s.log, claimed, tooks, s.now + claimTook, |claimed|)
  {
    var s1 := Step(s, Claim(ids));
    var first := One(true, s, Claim(ids));
    ClaimHolds(s, ids, claimed);
    TimelyFits(s.now, claimTook, tooks, limit, send, query, |claimed|);
    var rest;
    rest, t := BatchIsRun(s1, claimed, s.now + LEASE, tooks, s.now + claimTook, |claimed|);
    p := Then(true, s, first, s1, rest, t);
  }

  /** What `DispatchOnce` does after any state of a run is itself a run with the same table and attempt log, and every
      update of it arrives inside its lease, when the batch fits: so one holder and absorbing states hold of it. */
  lemma DispatchIsRun(s: State, ids: set<nat>, claimed: seq<Row>, claimTook: nat, tooks: seq<Took>,
                      limit: nat, send: nat, query: nat)
    requires LogInv(s) && IsClaimed(s, ids, claimed)
    requires |claimed| <= |tooks| <= limit && Timely(claimTook, tooks, send, query)
    requires limit * (send + 2 * query) <= LEASE
    ensures var after := Batch(ClaimedRows(s.rows, ids, s.now), s.log, claimed, tooks, s.now + claimTook, |claimed|);
      exists p, t :: Leads(true, s, p, t) && (t.rows, t.log) == after
  {
    var p, t := DispatchPath(s, ids, claimed, claimTook, tooks, limit, send, query);
  }

  // A row can always be brought to rest

  /** Sends of the row end as `answer` says, attempt by attempt. */
  ghost predicate Answered(labels: seq<Label>, answer: int -> SendResult) {
    forall i :: 0 <= i < |labels| && labels[i].Finish? ==> labels[i].sent == answer(labels[i].token.attempt)
  }

  lemma {:induction false} WorkJoins(a: seq<Label>, b: seq<Label>, id: nat)
    ensures WorkOn(a + b, id) == WorkOn(a, id) + WorkOn(b, id)
  {
    if b == [] {
      assert a + b == a;
    } else {
      WorkJoins(a, b[..|b| - 1], id);
      assert (a + b)[..|a + b| - 1] == a + b[..|b| - 1];
    }
  }

  lemma ClaimWhenDue(s: State, id: nat, answer: int -> SendResult) returns (p: Path, t: State)
    requires Inv(s) && id in s.rows && !Terminal(s.rows[id].status)
    ensures Leads(true, s, p, t) && Answered(p.labels, answer)
    ensures id in t.rows && t.rows[id] == Claimed(s.rows[id], t.now)
    ensures Token(id, s.rows[id].attempts + 1, t.now + LEASE) in t.open
    ensures Expired(t, id) == Expired(s, id) + if s.rows[id].status.Sending? then 1 else 0
    ensures WorkOn(p.labels, id) == 1
  {
    var later := UnfinishedRowsComeDue(s, id);
    var s1 := Step(s, Tick(later));
    var first := One(true, s, Tick(later));
    var second := One(true, s1, Claim({id}));
    t := Step(s1, Claim({id}));
    assert Token(id, s.rows[id].attempts + 1, later + LEASE) in Taken(s1, {id});
    p := Then(true, s, first, s1, second, t);
    WorkJoins(first.labels, second.labels, id);
  }

  lemma SendAtOnce(s: State, id: nat, tk: Token, answer: int -> SendResult) returns (p: Path, t: State)
    requires id in s.rows && tk.id == id && tk in s.open && s.now <= tk.until && tk.attempt == s.rows[id].attempts
    ensures Leads(true, s, p, t) && Answered(p.labels, answer) && WorkOn(p.labels, id) == 1
    ensures t.expired == s.expired && id in t.rows
    ensures var (d, e) := (s.rows[id], t.rows[id]);
      && e.attempts == d.attempts && e.maxAttempts == d.maxAttempts
      && (Terminal(e.status) || (e.status.Pending? && e.attempts < e.maxAttempts))
      && (answer(e.attempts).Unavailable? ==> (Terminal(e.status) <==> e.attempts >= e.maxAttempts))
  {
    var l := Finish(tk, answer(tk.attempt), s.now);
    p := One(true, s, l);
    t := Step(s, l);
  }

  /** Claim the row as soon as it is due, and send it at once. */
  lemma OneRound(s: State, id: nat, answer: int -> SendResult) returns (p: Path, t: State)
    requires Inv(s) && id in s.rows && !Terminal(s.rows[id].status)
    ensures Leads(true, s, p, t) && Answered(p.labels, answer) && Inv(t) && id in t.rows
    ensures t.rows[id].attempts == s.rows[id].attempts + 1 && t.rows[id].maxAttempts == s.rows[id].maxAttempts
    ensures Terminal(t.rows[id].status) || (t.rows[id].status.Pending? && t.rows[id].attempts < t.rows[id].maxAttempts)
    ensures answer(t.rows[id].attempts).Unavailable? ==>
      (Terminal(t.rows[id].status) <==> t.rows[id].attempts >= t.rows[id].maxAttempts)
    ensures Expired(t, id) == Expired(s, id) + if s.rows[id].status.Sending? then 1 else 0
    ensures WorkOn(p.labels, id) == 2
  {
    var first, s1 := ClaimWhenDue(s, id, answer);
    var attempt := s.rows[id].attempts + 1;
    var second;
    second, t := SendAtOnce(s1, id, Token(id, attempt, s1.now + LEASE), answer);
    p := Then(true, s, first, s1, second, t);
    RunKeepsInv(p.states, p.labels);
    WorkJoins(first.labels, second.labels, id);
  }

  /** Whatever the sends answer, workers that claim a row when it is due and keep their leases bring it to rest; when
      every send fails, that takes exactly a claim and an update for each attempt left. */
  lemma {:induction false} RoundsEnd(s: State, id: nat, answer: int -> SendResult) returns (p: Path, t: State)
    requires Inv(s) && id in s.rows
    ensures Leads(true, s, p, t) && Answered(p.labels, answer)
    ensures id in t.rows && Terminal(t.rows[id].status)
    ensures Expired(t, id) <= Expired(s, id) + if s.rows[id].status.Sending? then 1 else 0
    ensures (forall n :: answer(n).Unavailable?) && s.rows[id].status.Pending? ==>
      WorkOn(p.labels, id) == 2 * (s.rows[id].maxAttempts - s.rows[id].attempts)
    decreases if Terminal(s.rows[id].status) then 0
      else if s.rows[id].attempts < s.rows[id].maxAttempts then s.rows[id].maxAttempts - s.rows[id].attempts + 1 else 1
  {
    if Terminal(s.rows[id].status) {
      p := Stay(true, s);
      t := s;
    } else {
      assert RowInv(s, id);
      var first, s1 := OneRound(s, id, answer);
      if Terminal(s1.rows[id].status) {
        p, t := first, s1;
      } else {
        var rest;
        rest, t := RoundsEnd(s1, id, answer);
        p := Then(true, s, first, s1, rest, t);
        WorkJoins(first.labels, rest.labels, id);
      }
    }
  }

  /** So the rank is never too small for a row to come to rest, and for a new row whose sends all fail not too large:
      its 2 * max_attempts claims and updates are all made. */
  lemma RowComesToRest(s: State, id: nat, answer: int -> SendResult) returns (p: Path, t: State)
    requires Inv(s) && id in s.rows
    ensures Leads(true, s, p, t) && Answered(p.labels, answer)
    ensures id in t.rows && Terminal(t.rows[id].status)
    ensures WorkOn(p.labels, id) <= RankIn(s, id, Expired(t, id))
    ensures (forall n :: answer(n).Unavailable?) && s.rows[id].status.Pending? && s.rows[id].attempts == 0 ==>
      WorkOn(p.labels, id) == RankIn(s, id, Expired(t, id)) == 2 * s.rows[id].maxAttempts
  {
    p, t := RoundsEnd(s, id, answer);
    RunKeepsInv(p.states, p.labels);
    WorkIsBounded(p.states, p.labels, id, Expired(t, id));
    RankIsZeroIff(t, id, Expired(t, id));
    assert RowInv(s, id);
  }
}
