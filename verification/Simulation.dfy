/** The relay's loop makes only steps of the pipeline, alone or among others: what holds of every run holds of it. */
module Simulation {
  import opened Kafka
  import opened Options
  import opened Pipeline
  import Agreement
  import Lineage
  import Outbox
  import Relay

  /** A run, and what each of its steps appends to a log. */
  datatype Path = Path(states: seq<State>, labels: seq<Label>, outs: seq<seq<Message>>)

  ghost function MessageOf(cons: Consumers, s: State, l: Label): seq<Message>
    requires Enabled(cons, s, l)
  {
    if Written(cons, s, l).Some? then [Written(cons, s, l).value.1.message] else []
  }

  ghost predicate IsPath(cons: Consumers, p: Path) {
    && IsRun(cons, p.states, p.labels) && |p.outs| == |p.labels|
    && forall i :: 0 <= i < |p.labels| ==> p.outs[i] == MessageOf(cons, p.states[i], p.labels[i])
  }

  function Flatten(outs: seq<seq<Message>>): seq<Message> {
    if outs == [] then [] else outs[0] + Flatten(outs[1..])
  }

  lemma {:induction false} FlattenAppend(a: seq<seq<Message>>, b: seq<seq<Message>>)
    ensures Flatten(a + b) == Flatten(a) + Flatten(b)
  {
    if a == [] {
      assert a + b == b;
    } else {
      assert (a + b)[1..] == a[1..] + b;
      FlattenAppend(a[1..], b);
    }
  }

  /** The path is a run from s to t that writes exactly `out`, in this order. */
  ghost predicate Leads(cons: Consumers, s: State, p: Path, t: State, out: seq<Message>) {
    IsPath(cons, p) && p.states[0] == s && p.states[|p.labels|] == t && Flatten(p.outs) == out
  }

  lemma Stay(cons: Consumers, s: State) returns (p: Path)
    ensures Leads(cons, s, p, s, [])
  {
    p := Path([s], [], []);
  }

  lemma One(cons: Consumers, s: State, l: Label) returns (p: Path)
    requires Enabled(cons, s, l)
    ensures Leads(cons, s, p, Step(cons, s, l), MessageOf(cons, s, l))
  {
    p := Path([s, Step(cons, s, l)], [l], [MessageOf(cons, s, l)]);
    assert p.outs[1..] == [];
  }

  lemma Then(cons: Consumers, s: State, p: Path, t: State, out: seq<Message>, q: Path, u: State, more: seq<Message>)
    returns (r: Path)
    requires Leads(cons, s, p, t, out) && Leads(cons, t, q, u, more)
    ensures Leads(cons, s, r, u, out + more)
  {
    var n := |p.labels|;
    r := Path(p.states[..n] + q.states, p.labels + q.labels, p.outs + q.outs);
    forall i | 0 <= i < |r.labels|
      ensures Enabled(cons, r.states[i], r.labels[i]) && r.states[i + 1] == Step(cons, r.states[i], r.labels[i])
        && r.outs[i] == MessageOf(cons, r.states[i], r.labels[i])
    {
      if i < n {
        assert r.states[i] == p.states[i] && r.states[i + 1] == p.states[i + 1] && r.labels[i] == p.labels[i];
      } else {
        assert r.states[i] == q.states[i - n] && r.states[i + 1] == q.states[i - n + 1]
          && r.labels[i] == q.labels[i - n];
      }
    }
    FlattenAppend(p.outs, q.outs);
  }

  lemma StillReachable(cons: Consumers, s: State, p: Path, t: State, out: seq<Message>)
    requires Reachable(cons, s) && Leads(cons, s, p, t, out)
    ensures Reachable(cons, t)
  {
    var states, labels :| IsRun(cons, states, labels) && states[0] == INIT && states[|states| - 1] == s;
    RunsJoin(cons, states, labels, p.states, p.labels);
  }

  lemma RunsJoin(cons: Consumers, a: seq<State>, la: seq<Label>, b: seq<State>, lb: seq<Label>)
    requires IsRun(cons, a, la) && IsRun(cons, b, lb) && a[|la|] == b[0] && a[0] == INIT
    ensures Reachable(cons, b[|lb|])
  {
    var n := |la|;
    var states, labels := a[..n] + b, la + lb;
    forall i | 0 <= i < |labels|
      ensures Enabled(cons, states[i], labels[i]) && states[i + 1] == Step(cons, states[i], labels[i])
    {
      if i < n {
        assert states[i] == a[i] && states[i + 1] == a[i + 1] && labels[i] == la[i];
      } else {
        assert states[i] == b[i - n] && states[i + 1] == b[i - n + 1] && labels[i] == lb[i - n];
      }
    }
    assert IsRun(cons, states, labels) && states[0] == INIT && states[|states| - 1] == b[|lb|];
  }

  // The relay

  function ClaimOf(r: Outbox.Record): Claim {
    Claim(r.id, r.row.attempts)
  }

  /** The worker still holds the claim it got the record with, and has not published it yet. */
  ghost predicate Holds(s: State, r: Outbox.Record) {
    && r.id in s.rows && RowGrown(r.row, s.rows[r.id]) && r.row.attempts >= 1
    && ClaimOf(r) in s.open && ClaimOf(r) !in s.landed
  }

  /** What one pass of the relay's loop does to the shared state: publish, then mark. */
  ghost function AfterRecord(s: State, r: Outbox.Record, a: Relay.Answer, index: nat): State
    requires forall k :: k in a.order ==> k in r.row.headers
  {
    s.(now := a.now,
       rows := if a.mark.Lost? then s.rows else Relay.Marked(s.rows, r, a),
       open := if a.mark.Lost? then s.open else s.open - {ClaimOf(r)},
       landed := if a.fate.Dropped? then s.landed else s.landed + {ClaimOf(r)},
       logs := if a.fate.Dropped? then s.logs else
         Append(s, Partition(r.row.topic, index), Entry(Relay.Produced(r.id, r.row, a.order), Relayed(ClaimOf(r)))))
  }

  lemma LandIsRun(cons: Consumers, s: State, r: Outbox.Record, a: Relay.Answer, index: nat) returns (p: Path, t: State)
    requires Holds(s, r) && Relay.IsListing(a.order, r.row.headers.Keys)
    ensures Leads(cons, s, p, t, Relay.Appended(r, a))
    ensures t == s.(landed := t.landed, logs := t.logs)
    ensures t.landed == if a.fate.Dropped? then s.landed else s.landed + {ClaimOf(r)}
    ensures t.logs == if a.fate.Dropped? then s.logs else
      Append(s, Partition(r.row.topic, index), Entry(Relay.Produced(r.id, r.row, a.order), Relayed(ClaimOf(r))))
  {
    if a.fate.Dropped? {
      p := Stay(cons, s);
      t := s;
    } else {
      var l := Land(ClaimOf(r), index, a.order);
      p := One(cons, s, l);
      t := Step(cons, s, l);
    }
  }

  lemma MarkIsRun(cons: Consumers, s: State, r: Outbox.Record, a: Relay.Answer) returns (p: Path, t: State)
    requires r.id in s.rows && ClaimOf(r) in s.open && (a.fate.Acked? ==> ClaimOf(r) in s.landed) && s.now == a.now
    ensures Leads(cons, s, p, t, [])
    ensures t == s.(rows := if a.mark.Lost? then s.rows else Relay.Marked(s.rows, r, a),
      open := if a.mark.Lost? then s.open else s.open - {ClaimOf(r)})
  {
    if a.mark.Lost? {
      p := Stay(cons, s);
      t := s;
    } else {
      var l := if a.fate.Acked? then MarkPublished(ClaimOf(r))
        else MarkFailed(ClaimOf(r), Relay.RetryDelay(r.row.attempts, a.roll));
      p := One(cons, s, l);
      t := Step(cons, s, l);
    }
  }

  /** One pass of the loop, from any state in which the worker holds the record, is a run. */
  lemma RecordIsRun(cons: Consumers, s: State, r: Outbox.Record, a: Relay.Answer, index: nat) returns (p: Path)
    requires Holds(s, r) && Relay.IsListing(a.order, r.row.headers.Keys) && s.now <= a.now
    ensures Leads(cons, s, p, AfterRecord(s, r, a, index), Relay.Appended(r, a))
  {
    var s1 := Step(cons, s, Tick(a.now));
    var tick := One(cons, s, Tick(a.now));
    var land, s2 := LandIsRun(cons, s1, r, a, index);
    var both := Then(cons, s, tick, s1, [], land, s2, Relay.Appended(r, a));
    assert [] + Relay.Appended(r, a) == Relay.Appended(r, a) == Relay.Appended(r, a) + [];
    var mark, s3 := MarkIsRun(cons, s2, r, a);
    p := Then(cons, s, both, s2, Relay.Appended(r, a), mark, s3, []);
    assert s3 == AfterRecord(s, r, a, index);
  }

  ghost predicate HoldsAll(s: State, records: seq<Outbox.Record>) {
    && (forall i :: 0 <= i < |records| ==> Holds(s, records[i]))
    && (forall i, j :: 0 <= i < j < |records| ==> records[i].id != records[j].id)
  }

  ghost predicate InOrder(now: int, answers: seq<Relay.Answer>) {
    && (forall i :: 0 <= i < |answers| ==> now <= answers[i].now)
    && (forall i, j :: 0 <= i < j < |answers| ==> answers[i].now <= answers[j].now)
  }

  lemma StillHeld(s: State, records: seq<Outbox.Record>, a: Relay.Answer, index: nat)
    requires HoldsAll(s, records) && records != [] && Relay.IsListing(a.order, records[0].row.headers.Keys)
    ensures HoldsAll(AfterRecord(s, records[0], a, index), records[1..])
  {
    var t := AfterRecord(s, records[0], a, index);
    forall i | 0 <= i < |records[1..]| ensures Holds(t, records[1..][i]) {
      assert Holds(s, records[i + 1]) && records[0].id != records[i + 1].id;
    }
  }

  /** A batch, answer by answer, is a run of pipeline steps that leaves the same rows and the same records. */
  lemma {:induction false} SettleIsRun(
    cons: Consumers, s: State, records: seq<Outbox.Record>, answers: seq<Relay.Answer>, part: string -> nat)
    returns (p: Path, t: State)
    requires Relay.Answers(records, answers) && HoldsAll(s, records) && InOrder(s.now, answers)
    ensures Leads(cons, s, p, t, Relay.Settle(s.rows, records, answers).log)
    ensures t.rows == Relay.Settle(s.rows, records, answers).rows
    decreases |records|
  {
    if records == [] {
      p := Stay(cons, s);
      t := s;
    } else {
      var r, a := records[0], answers[0];
      assert Holds(s, r);
      assert Relay.IsListing(a.order, r.row.headers.Keys);
      var first := RecordIsRun(cons, s, r, a, part(r.row.key));
      var s1 := AfterRecord(s, r, a, part(r.row.key));
      if !a.mark.Confirmed? {
        p, t := first, s1;
      } else {
        StillHeld(s, records, a, part(r.row.key));
        var rest;
        rest, t := SettleIsRun(cons, s1, records[1..], answers[1..], part);
        var more := Relay.Settle(s1.rows, records[1..], answers[1..]).log;
        p := Then(cons, s, first, s1, Relay.Appended(r, a), rest, t, more);
      }
    }
  }

  /** What `runBatch` does after any reachable state is reachable: it claims due rows, and everything it then publishes
      and marks is a run, with the rows and the records the loop leaves. */
  lemma BatchIsRun(cons: Consumers, s: State, picked: set<nat>, worker: string, lease: int,
                   records: seq<Outbox.Record>, answers: seq<Relay.Answer>, part: string -> nat)
    requires Reachable(cons, s) && picked <= s.rows.Keys
    requires forall id :: id in picked ==> Outbox.Claimable(s.rows[id], s.now, lease)
    requires IsClaimed(Outbox.ClaimRows(s.rows, picked, worker, s.now), picked, records)
    requires Relay.Answers(records, answers) && InOrder(s.now, answers)
    ensures var batch := Relay.Settle(Outbox.ClaimRows(s.rows, picked, worker, s.now), records, answers);
      exists p, t :: Leads(cons, s, p, t, batch.log) && t.rows == batch.rows && Reachable(cons, t)
  {
    var claim := ClaimBatch(picked, worker, lease);
    var s1 := Step(cons, s, claim);
    var first := One(cons, s, claim);
    ClaimHolds(cons, s, picked, worker, lease, records);
    var rest, t := SettleIsRun(cons, s1, records, answers, part);
    var out := Relay.Settle(s1.rows, records, answers).log;
    var p := Then(cons, s, first, s1, [], rest, t, out);
    assert [] + out == out;
    StillReachable(cons, s, p, t, out);
  }

  /** The records a claim hands out: each claimed row once, with its counted attempt. */
  ghost predicate IsClaimed(claimed: Outbox.Table, picked: set<nat>, records: seq<Outbox.Record>) {
    && picked <= claimed.Keys
    && (forall i :: 0 <= i < |records| ==> records[i].id in picked && records[i].row == claimed[records[i].id])
    && (forall i, j :: 0 <= i < j < |records| ==> records[i].id != records[j].id)
  }

  lemma ClaimHolds(cons: Consumers, s: State, picked: set<nat>, worker: string, lease: int, records: seq<Outbox.Record>)
    requires Reachable(cons, s) && Enabled(cons, s, ClaimBatch(picked, worker, lease))
    requires IsClaimed(Outbox.ClaimRows(s.rows, picked, worker, s.now), picked, records)
    ensures HoldsAll(Step(cons, s, ClaimBatch(picked, worker, lease)), records)
  {
    Agreement.ReachableInv(cons, s);
    forall i | 0 <= i < |records| ensures Holds(Step(cons, s, ClaimBatch(picked, worker, lease)), records[i]) {
      FreshClaim(cons, s, picked, worker, lease, records[i]);
    }
  }

  lemma FreshClaim(cons: Consumers, s: State, picked: set<nat>, worker: string, lease: int, r: Outbox.Record)
    requires Agreement.Inv(s) && Enabled(cons, s, ClaimBatch(picked, worker, lease)) && r.id in picked
    requires r.row == Outbox.ClaimRow(s.rows[r.id], worker, s.now)
    ensures Holds(Step(cons, s, ClaimBatch(picked, worker, lease)), r)
  {
    assert Lineage.RowOk(r.id, s.rows[r.id]);
    assert !Agreement.ClaimOfRow(s, ClaimOf(r));
  }

  // The relay among others

  /** A step of somebody else: it neither lands, marks nor gives up this claim. */
  ghost predicate Spares(l: Label, cl: Claim) {
    match l
    case Land(claim, _, _) => claim != cl
    case MarkPublished(claim) => claim != cl
    case MarkFailed(claim, _) => claim != cl
    case RelayStops(claims) => cl !in claims
    case _ => true
  }

  lemma HoldsStays(cons: Consumers, s: State, l: Label, r: Outbox.Record)
    requires Enabled(cons, s, l) && Spares(l, ClaimOf(r)) && Holds(s, r)
    ensures Holds(Step(cons, s, l), r)
  {
    StepGrows(cons, s, l);
  }

  lemma {:induction false} PathKeepsHolds(cons: Consumers, states: seq<State>, labels: seq<Label>, r: Outbox.Record)
    requires IsRun(cons, states, labels) && Holds(states[0], r)
    requires forall i :: 0 <= i < |labels| ==> Spares(labels[i], ClaimOf(r))
    ensures Holds(states[|labels|], r)
  {
    if labels != [] {
      var n := |labels| - 1;
      PathKeepsHolds(cons, states[..n + 1], labels[..n], r);
      HoldsStays(cons, states[n], labels[n], r);
    }
  }

  ghost predicate SparesAll(labels: seq<Label>, records: seq<Outbox.Record>) {
    forall i, j :: 0 <= i < |labels| && 0 <= j < |records| ==> Spares(labels[i], ClaimOf(records[j]))
  }

  /** Any run of the other workers, producers, consumers and operators. */
  ghost predicate Others(cons: Consumers, s: State, records: seq<Outbox.Record>, t: State) {
    exists p, out :: Leads(cons, s, p, t, out) && SparesAll(p.labels, records)
  }

  /** The loop over the claimed records, with anything the others do before each of them. */
  ghost predicate Interleaved(
    cons: Consumers, s: State, records: seq<Outbox.Record>, answers: seq<Relay.Answer>, part: string -> nat, t: State)
    requires Relay.Answers(records, answers)
    decreases |records|
  {
    if records == [] then t == s
    else
      var r, a := records[0], answers[0];
      assert Relay.IsListing(a.order, r.row.headers.Keys);
      exists s1 :: Others(cons, s, records, s1) && s1.now <= a.now
        && var s2 := AfterRecord(s1, r, a, part(r.row.key));
           if a.mark.Confirmed? then Interleaved(cons, s2, records[1..], answers[1..], part, t) else t == s2
  }

  lemma OthersKeepHolds(cons: Consumers, s: State, records: seq<Outbox.Record>, t: State)
    requires HoldsAll(s, records) && Others(cons, s, records, t)
    ensures HoldsAll(t, records)
  {
    var p, out :| Leads(cons, s, p, t, out) && SparesAll(p.labels, records);
    forall i | 0 <= i < |records| ensures Holds(t, records[i]) {
      PathKeepsHolds(cons, p.states, p.labels, records[i]);
    }
  }

  lemma OnePass(cons: Consumers, s: State, records: seq<Outbox.Record>, s1: State, a: Relay.Answer, index: nat)
    requires Reachable(cons, s) && HoldsAll(s, records) && records != [] && Others(cons, s, records, s1)
    requires Relay.IsListing(a.order, records[0].row.headers.Keys) && s1.now <= a.now
    ensures var s2 := AfterRecord(s1, records[0], a, index); Reachable(cons, s2) && HoldsAll(s2, records[1..])
  {
    OthersKeepHolds(cons, s, records, s1);
    var p, out :| Leads(cons, s, p, s1, out) && SparesAll(p.labels, records);
    StillReachable(cons, s, p, s1, out);
    assert Holds(s1, records[0]);
    var q := RecordIsRun(cons, s1, records[0], a, index);
    StillReachable(cons, s1, q, AfterRecord(s1, records[0], a, index), Relay.Appended(records[0], a));
    StillHeld(s1, records, a, index);
  }

  /** The loop of one relay worker among all the others makes only pipeline steps, however the rows changed under it. */
  lemma {:induction false} InterleavedIsRun(
    cons: Consumers, s: State, records: seq<Outbox.Record>, answers: seq<Relay.Answer>, part: string -> nat, t: State)
    requires Relay.Answers(records, answers) && HoldsAll(s, records) && Reachable(cons, s)
    requires Interleaved(cons, s, records, answers, part, t)
    ensures Reachable(cons, t)
    decreases |records|
  {
    if records != [] {
      var a, index := answers[0], part(records[0].row.key);
      assert Relay.IsListing(a.order, records[0].row.headers.Keys);
      var s1 :| Others(cons, s, records, s1) && s1.now <= a.now
        && var s2 := AfterRecord(s1, records[0], a, index);
           if a.mark.Confirmed? then Interleaved(cons, s2, records[1..], answers[1..], part, t) else t == s2;
      OnePass(cons, s, records, s1, a, index);
      if a.mark.Confirmed? {
        InterleavedIsRun(cons, AfterRecord(s1, records[0], a, index), records[1..], answers[1..], part, t);
      }
    }
  }
}
