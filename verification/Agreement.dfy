/** The outbox table and the logs agree, and the relay's work is bounded. */
module Agreement {
  import opened Collections
  import opened Events
  import opened Kafka
  import opened Lineage
  import opened Options
  import opened Pipeline
  import Consumer
  import Inbox
  import NoLoss
  import Outbox

  ghost predicate ClaimOfRow(s: State, cl: Claim) {
    cl.id in s.rows && 1 <= cl.attempt <= s.rows[cl.id].attempts
  }

  ghost predicate ClaimsOk(s: State) {
    forall cl :: cl in s.open || cl in s.landed ==> ClaimOfRow(s, cl)
  }

  ghost predicate LandedAt(s: State, cl: Claim, pos: Position) {
    && Has(s, pos) && At(s, pos).origin == Relayed(cl)
    && cl.id in s.rows && pos.partition.topic == s.rows[cl.id].topic
    && At(s, pos).message.value == Encoded(s.rows[cl.id].event) && At(s, pos).message.key == s.rows[cl.id].key
  }

  ghost predicate LandedOk(s: State) {
    forall cl :: cl in s.landed ==> exists pos :: LandedAt(s, cl, pos)
  }

  ghost predicate RelayedOk(s: State) {
    forall pos :: Has(s, pos) && At(s, pos).origin.Relayed? ==>
      At(s, pos).origin.claim in s.landed && LandedAt(s, At(s, pos).origin.claim, pos)
  }

  ghost predicate OncePerClaim(s: State) {
    forall a, b :: Has(s, a) && Has(s, b) && At(s, a).origin.Relayed? && At(s, b).origin == At(s, a).origin ==> a == b
  }

  ghost predicate PublishedOk(s: State) {
    forall id :: id in s.rows && s.rows[id].publishedAt.Some? ==> exists n :: Claim(id, n) in s.landed
  }

  ghost predicate Inv(s: State) {
    RowsOk(s) && ClaimsOk(s) && LandedOk(s) && RelayedOk(s) && OncePerClaim(s) && PublishedOk(s)
  }

  lemma StepKeepsClaims(cons: Consumers, s: State, l: Label)
    requires Inv(s) && Enabled(cons, s, l)
    ensures ClaimsOk(Step(cons, s, l))
  {
    StepGrows(cons, s, l);
  }

  lemma PublishedBefore(cons: Consumers, s: State, l: Label, id: nat)
    requires Enabled(cons, s, l) && id in NextRows(cons, s, l) && NextRows(cons, s, l)[id].publishedAt.Some?
    ensures (l.MarkPublished? && l.claim.id == id) || (id in s.rows && s.rows[id].publishedAt.Some?)
  {
  }

  lemma StepKeepsPublished(cons: Consumers, s: State, l: Label)
    requires Inv(s) && Enabled(cons, s, l)
    ensures PublishedOk(Step(cons, s, l))
  {
    var t := Step(cons, s, l);
    forall id | id in t.rows && t.rows[id].publishedAt.Some? ensures exists n :: Claim(id, n) in t.landed {
      PublishedBefore(cons, s, l, id);
      if l.MarkPublished? && l.claim.id == id {
        assert Claim(id, l.claim.attempt) in t.landed;
      } else {
        var n :| Claim(id, n) in s.landed;
        assert Claim(id, n) in t.landed;
      }
    }
  }

  lemma LandedStays(s: State, t: State, cl: Claim, pos: Position)
    requires Grown(s, t) && LandedAt(s, cl, pos)
    ensures LandedAt(t, cl, pos)
  {
    assert Log(s, pos.partition) <= Log(t, pos.partition);
  }

  lemma OriginOfWritten(cons: Consumers, s: State, l: Label, pos: Position)
    requires Enabled(cons, s, l) && Has(Step(cons, s, l), pos) && !Has(s, pos)
    requires At(Step(cons, s, l), pos).origin.Relayed?
    ensures l.Land? && At(Step(cons, s, l), pos).origin.claim == l.claim
    ensures LandedAt(Step(cons, s, l), l.claim, pos)
    ensures pos == Position(Partition(s.rows[l.claim.id].topic, l.index),
      |Log(s, Partition(s.rows[l.claim.id].topic, l.index))|)
  {
    StepEntries(cons, s, l, pos);
  }

  lemma StepKeepsLanded(cons: Consumers, s: State, l: Label)
    requires Inv(s) && Enabled(cons, s, l)
    ensures LandedOk(Step(cons, s, l))
  {
    var t := Step(cons, s, l);
    StepGrows(cons, s, l);
    forall cl | cl in t.landed ensures exists pos :: LandedAt(t, cl, pos) {
      if cl in s.landed {
        var pos :| LandedAt(s, cl, pos);
        LandedStays(s, t, cl, pos);
      } else {
        var p := Partition(s.rows[cl.id].topic, l.index);
        assert LandedAt(t, cl, Position(p, |Log(s, p)|));
      }
    }
  }

  lemma StepKeepsRelayed(cons: Consumers, s: State, l: Label)
    requires Inv(s) && Enabled(cons, s, l)
    ensures RelayedOk(Step(cons, s, l))
  {
    var t := Step(cons, s, l);
    StepGrows(cons, s, l);
    forall pos | Has(t, pos) && At(t, pos).origin.Relayed?
      ensures At(t, pos).origin.claim in t.landed && LandedAt(t, At(t, pos).origin.claim, pos)
    {
      if Has(s, pos) {
        StepEntries(cons, s, l, pos);
        LandedStays(s, t, At(s, pos).origin.claim, pos);
      } else {
        OriginOfWritten(cons, s, l, pos);
      }
    }
  }

  lemma StepKeepsOnce(cons: Consumers, s: State, l: Label)
    requires Inv(s) && Enabled(cons, s, l)
    ensures OncePerClaim(Step(cons, s, l))
  {
    var t := Step(cons, s, l);
    forall a, b | Has(t, a) && Has(t, b) && At(t, a).origin.Relayed? && At(t, b).origin == At(t, a).origin
      ensures a == b
    {
      if Has(s, a) { StepEntries(cons, s, l, a); } else { OriginOfWritten(cons, s, l, a); }
      if Has(s, b) { StepEntries(cons, s, l, b); } else { OriginOfWritten(cons, s, l, b); }
    }
  }

  lemma StepKeepsInv(cons: Consumers, s: State, l: Label)
    requires Inv(s) && Enabled(cons, s, l)
    ensures Inv(Step(cons, s, l))
  {
    StepKeepsRows(cons, s, l);
    StepKeepsClaims(cons, s, l);
    StepKeepsPublished(cons, s, l);
    StepKeepsLanded(cons, s, l);
    StepKeepsRelayed(cons, s, l);
    StepKeepsOnce(cons, s, l);
  }

  lemma {:induction false} RunKeepsInv(cons: Consumers, states: seq<State>, labels: seq<Label>)
    requires IsRun(cons, states, labels) && states[0] == INIT
    ensures Inv(states[|labels|])
  {
    if labels != [] {
      var n := |labels| - 1;
      RunKeepsInv(cons, states[..n + 1], labels[..n]);
      StepKeepsInv(cons, states[n], labels[n]);
    }
  }

  lemma ReachableInv(cons: Consumers, s: State)
    requires Reachable(cons, s)
    ensures Inv(s)
  {
    var states, labels :| IsRun(cons, states, labels) && states[0] == INIT && states[|states| - 1] == s;
    RunKeepsInv(cons, states, labels);
  }

  // Agreement

  /** A row marked published has its record in its topic, with its key and its event. */
  lemma PublishedMeansInLog(cons: Consumers, s: State, id: nat) returns (pos: Position)
    requires Reachable(cons, s) && id in s.rows && s.rows[id].publishedAt.Some?
    ensures Has(s, pos) && pos.partition.topic == s.rows[id].topic
    ensures At(s, pos).message.value == Encoded(s.rows[id].event) && At(s, pos).message.key == s.rows[id].key
  {
    ReachableInv(cons, s);
    var n :| Claim(id, n) in s.landed;
    pos :| LandedAt(s, Claim(id, n), pos);
  }

  /** A record in a source topic, relayed or replayed, is one of the outbox's events in its own topic. */
  lemma SourceRecordHasRow(cons: Consumers, s: State, pos: Position)
    requires ValidConsumers(cons) && Reachable(cons, s) && Has(s, pos) && IsSourceTopic(pos.partition.topic)
    ensures var m := At(s, pos).message;
      && m.value.Encoded? && m.value.event.id in s.rows
      && s.rows[m.value.event.id].event == m.value.event && s.rows[m.value.event.id].key == m.key
      && s.rows[m.value.event.id].topic == pos.partition.topic
  {
    ReachableLineage(cons, s);
    var m := At(s, pos).message;
    assert MessageOk(cons, s.rows, m) && m.topic == pos.partition.topic;
    SubscribedSource(cons, m);
  }

  lemma SubscribedSource(cons: Consumers, m: Message)
    requires Placed(cons, m) && IsSourceTopic(m.topic)
    ensures OnSource(m)
  {
    if c :| OnRetry(cons, m, c) {
      TopicKindsDisjoint(Consumer.SourceOf(m), c, m.topic, c);
    } else if c :| OnDLQ(cons, m, c) {
      TopicKindsDisjoint(Consumer.SourceOf(m), c, m.topic, c);
    }
  }

  /** Records of one row that came from the relay rather than from a replay. */
  ghost function RelayedCopies(s: State, id: nat): set<Position> {
    set p, i | p in s.logs && 0 <= i < |s.logs[p]| && s.logs[p][i].origin.Relayed? && s.logs[p][i].origin.claim.id == id
      :: Position(p, i)
  }

  /** Claims still being worked on whose record has not reached the log. */
  ghost function Outstanding(s: State, id: nat): set<Claim> {
    set cl | cl in s.open && cl.id == id && cl !in s.landed
  }

  ghost function ClaimsUpTo(id: nat, n: nat): set<Claim> {
    set k | 1 <= k <= n :: Claim(id, k)
  }

  lemma {:induction false} ClaimsUpToSize(id: nat, n: nat)
    ensures |ClaimsUpTo(id, n)| == n
  {
    if n == 0 {
      assert ClaimsUpTo(id, 0) == {};
    } else {
      ClaimsUpToSize(id, n - 1);
      assert ClaimsUpTo(id, n) == ClaimsUpTo(id, n - 1) + {Claim(id, n)};
    }
  }

  /** Distinct relayed records belong to distinct claims. */
  lemma {:induction false} CopiesPerClaim(s: State, copies: set<Position>, claims: set<Claim>)
    requires OncePerClaim(s)
    requires forall pos :: pos in copies ==>
      Has(s, pos) && At(s, pos).origin.Relayed? && At(s, pos).origin.claim in claims
    ensures |copies| <= |claims|
    decreases |copies|
  {
    if copies != {} {
      var pos :| pos in copies;
      var cl := At(s, pos).origin.claim;
      CopiesPerClaim(s, copies - {pos}, claims - {cl});
    }
  }

  ghost function LandedClaims(s: State, id: nat): set<Claim> {
    set cl | cl in s.landed && cl.id == id
  }

  lemma CopiesPerLanded(s: State, id: nat)
    requires Inv(s)
    ensures |RelayedCopies(s, id)| <= |LandedClaims(s, id)|
  {
    forall pos | pos in RelayedCopies(s, id)
      ensures Has(s, pos) && At(s, pos).origin.Relayed? && At(s, pos).origin.claim in LandedClaims(s, id)
    {
      assert Log(s, pos.partition) == s.logs[pos.partition];
    }
    CopiesPerClaim(s, RelayedCopies(s, id), LandedClaims(s, id));
  }

  /** Copies in the log plus publishes still possible never exceed the attempts counted, nor those allowed. */
  lemma CopiesBoundedByAttempts(cons: Consumers, s: State, id: nat)
    requires Reachable(cons, s) && id in s.rows
    ensures |RelayedCopies(s, id)| + |Outstanding(s, id)| <= s.rows[id].attempts <= s.rows[id].maxAttempts
  {
    ReachableInv(cons, s);
    var all := ClaimsUpTo(id, s.rows[id].attempts);
    var landed := LandedClaims(s, id);
    ClaimsUpToSize(id, s.rows[id].attempts);
    CopiesPerLanded(s, id);
    forall cl | cl in landed + Outstanding(s, id) ensures cl in all {
      assert ClaimOfRow(s, cl);
      assert cl == Claim(id, cl.attempt);
    }
    SubsetSize(landed + Outstanding(s, id), all);
    assert landed !! Outstanding(s, id);
  }

  ghost predicate RowDeadLettered(s: State, c: string, row: Outbox.Row, pos: Position) {
    Has(s, pos) && At(s, pos).message.topic == DLQTopic(row.topic, c)
    && At(s, pos).message.key == row.key && At(s, pos).message.value == Encoded(row.event)
  }

  /** From table to consumer: a published row's event is handled, superseded, or dead-lettered once a consumer of
      its topic has drained that topic and its retries. */
  lemma PublishedReachesConsumer(cons: Consumers, s: State, id: nat, c: string)
    requires ValidConsumers(cons) && Reachable(cons, s) && c in cons
    requires id in s.rows && s.rows[id].publishedAt.Some?
    requires s.rows[id].topic in cons[c].sources && NoLoss.Drained(s, c, s.rows[id].topic)
    ensures (c, id) in s.inbox.processed || Inbox.Superseded(s.inbox, c, s.rows[id].event)
      || exists dead :: RowDeadLettered(s, c, s.rows[id], dead)
  {
    ReachableInv(cons, s);
    ReachableLineage(cons, s);
    var pos := PublishedMeansInLog(cons, s, id);
    NoLoss.DrainedMeansAccountedFor(cons, s, c, pos);
    var m := At(s, pos).message;
    if (c, id) !in s.inbox.processed && !Inbox.Superseded(s.inbox, c, s.rows[id].event) {
      var dead :| NoLoss.DeadLettered(s, c, m, dead);
      assert MessageOk(cons, s.rows, m);
      assert RowDeadLettered(s, c, s.rows[id], dead);
    }
  }

  // The relay stops

  ghost function BudgetOf(s: State): int {
    Outbox.Budget(s.rows, s.rows.Keys)
  }

  function ClaimsIn(l: Label): nat {
    if l.ClaimBatch? then |l.ids| else 0
  }

  function TotalClaims(labels: seq<Label>): nat {
    if labels == [] then 0 else TotalClaims(labels[..|labels| - 1]) + ClaimsIn(labels[|labels| - 1])
  }

  function Enqueues(labels: seq<Label>): nat {
    if labels == [] then 0
    else Enqueues(labels[..|labels| - 1]) + (if labels[|labels| - 1].Enqueue? then 1 else 0)
  }

  lemma {:induction false} BudgetNonNegative(s: State, ids: set<nat>)
    requires RowsOk(s) && ids <= s.rows.Keys
    ensures Outbox.Budget(s.rows, ids) >= 0
  {
    if ids != {} {
      var id :| id in ids;
      Outbox.BudgetSplit(s.rows, ids, id);
      BudgetNonNegative(s, ids - {id});
    }
  }

  lemma OneRowBudget(t: Outbox.Table, u: Outbox.Table, id: nat)
    requires id in u && t.Keys + {id} == u.Keys && forall k :: k in t && k != id ==> u[k] == t[k]
    ensures Outbox.Budget(u, u.Keys) - Outbox.Left(u[id])
      == Outbox.Budget(t, t.Keys) - (if id in t then Outbox.Left(t[id]) else 0)
  {
    Outbox.BudgetSplit(u, u.Keys, id);
    if id in t { Outbox.BudgetSplit(t, t.Keys, id); }
    assert u.Keys - {id} == t.Keys - {id};
    Outbox.BudgetCongruent(t, u, t.Keys - {id});
  }

  lemma MarkBudget(cons: Consumers, s: State, l: Label)
    requires RowsOk(s) && Enabled(cons, s, l) && (l.MarkPublished? || l.MarkFailed?)
    ensures BudgetOf(Step(cons, s, l)) <= BudgetOf(s)
  {
    OneRowBudget(s.rows, NextRows(cons, s, l), l.claim.id);
  }

  lemma StepBudget(cons: Consumers, s: State, l: Label)
    requires RowsOk(s) && Enabled(cons, s, l)
    ensures BudgetOf(Step(cons, s, l)) + ClaimsIn(l)
      <= BudgetOf(s) + (if l.Enqueue? then Outbox.DEFAULT_MAX_ATTEMPTS else 0)
  {
    var t := Step(cons, s, l);
    match l
    case Enqueue(topic, key, event, headers) => OneRowBudget(s.rows, t.rows, event.id);
    case ClaimBatch(ids, worker, lease) =>
      Outbox.ClaimSpends(s.rows, ids, worker, s.now, lease, s.rows.Keys);
      assert t.rows.Keys == s.rows.Keys;
    case MarkPublished(claim) => MarkBudget(cons, s, l);
    case MarkFailed(claim, delay) => MarkBudget(cons, s, l);
    case _ => assert t.rows == s.rows;
  }

  lemma {:induction false} RunKeepsRows(cons: Consumers, states: seq<State>, labels: seq<Label>)
    requires IsRun(cons, states, labels) && RowsOk(states[0])
    ensures RowsOk(states[|labels|])
  {
    if labels != [] {
      var n := |labels| - 1;
      RunKeepsRows(cons, states[..n + 1], labels[..n]);
      StepKeepsRows(cons, states[n], labels[n]);
    }
  }

  /** However workers crash and leases expire, the relay claims at most 20 times per enqueued row: each
      claim spends one attempt of the unpublished rows, and none is ever given back. */
  lemma {:induction false} ClaimsAreBounded(cons: Consumers, states: seq<State>, labels: seq<Label>)
    requires IsRun(cons, states, labels) && RowsOk(states[0])
    ensures BudgetOf(states[|labels|]) + TotalClaims(labels)
      <= BudgetOf(states[0]) + Outbox.DEFAULT_MAX_ATTEMPTS * Enqueues(labels)
    ensures BudgetOf(states[|labels|]) >= 0
  {
    RunKeepsRows(cons, states, labels);
    BudgetNonNegative(states[|labels|], states[|labels|].rows.Keys);
    if labels != [] {
      var n := |labels| - 1;
      ClaimsAreBounded(cons, states[..n + 1], labels[..n]);
      LastBudget(cons, states, labels);
    }
  }

  lemma LastBudget(cons: Consumers, states: seq<State>, labels: seq<Label>)
    requires IsRun(cons, states, labels) && RowsOk(states[0]) && labels != []
    ensures var n := |labels| - 1;
      BudgetOf(states[n + 1]) + ClaimsIn(labels[n])
        <= BudgetOf(states[n]) + (if labels[n].Enqueue? then Outbox.DEFAULT_MAX_ATTEMPTS else 0)
  {
    var n := |labels| - 1;
    RunKeepsRows(cons, states[..n + 1], labels[..n]);
    StepBudget(cons, states[n], labels[n]);
  }

  /** Nothing is claimable at any later time exactly when every row is published or exhausted. */
  lemma QuietIffPublishedOrExhausted(cons: Consumers, s: State, lease: int)
    requires Reachable(cons, s)
    ensures (forall id :: id in s.rows ==> !Outbox.EverClaimable(s.rows[id], lease))
       <==> (forall id :: id in s.rows ==>
              s.rows[id].publishedAt.Some? || s.rows[id].attempts == s.rows[id].maxAttempts)
  {
    ReachableInv(cons, s);
    forall id | id in s.rows
      ensures !Outbox.EverClaimable(s.rows[id], lease)
         <==> s.rows[id].publishedAt.Some? || s.rows[id].attempts == s.rows[id].maxAttempts
    {
      Outbox.EverClaimableIff(s.rows[id], lease);
    }
  }

  /** Once published a row is never claimed again, whatever marks arrive late. */
  lemma {:induction false} PublishedIsFinal(cons: Consumers, states: seq<State>, labels: seq<Label>, id: nat)
    requires IsRun(cons, states, labels) && id in states[0].rows && states[0].rows[id].publishedAt.Some?
    ensures id in states[|labels|].rows && states[|labels|].rows[id].publishedAt.Some?
    ensures states[|labels|].rows[id].attempts == states[0].rows[id].attempts
    ensures forall i :: 0 <= i < |labels| && labels[i].ClaimBatch? ==> id !in labels[i].ids
  {
    if labels != [] {
      var n := |labels| - 1;
      PublishedIsFinal(cons, states[..n + 1], labels[..n], id);
      StepGrows(cons, states[n], labels[n]);
      forall i | 0 <= i < |labels| && labels[i].ClaimBatch? ensures id !in labels[i].ids {
        if i < n { assert labels[..n][i] == labels[i]; }
      }
    }
  }

  // Leases

  /** A mark of the row, by whichever worker. */
  predicate MarksRow(l: Label, id: nat) {
    (l.MarkPublished? || l.MarkFailed?) && l.claim.id == id
  }

  /** The row has been locked at `since` or later. */
  ghost predicate LockedSince(s: State, id: nat, since: int) {
    && since <= s.now && id in s.rows
    && s.rows[id].lockedAt.Some? && since <= s.rows[id].lockedAt.value
  }

  lemma StepKeepsLock(cons: Consumers, s: State, l: Label, id: nat, since: int)
    requires Enabled(cons, s, l) && LockedSince(s, id, since) && !MarksRow(l, id)
    ensures LockedSince(Step(cons, s, l), id, since)
  {
  }

  lemma {:induction false} LockStays(cons: Consumers, states: seq<State>, labels: seq<Label>, id: nat, since: int)
    requires IsRun(cons, states, labels) && LockedSince(states[0], id, since)
    requires forall k :: 0 <= k < |labels| ==> !MarksRow(labels[k], id)
    ensures LockedSince(states[|labels|], id, since)
  {
    if labels != [] {
      var n := |labels| - 1;
      LockStays(cons, states[..n + 1], labels[..n], id, since);
      StepKeepsLock(cons, states[n], labels[n], id, since);
    }
  }

  /** Two batches that take the same row, nobody having marked it in between, are more than the later one's lease
      apart. */
  lemma ClaimsAreApart(cons: Consumers, states: seq<State>, labels: seq<Label>, i: nat, j: nat, id: nat)
    requires IsRun(cons, states, labels) && i < j < |labels|
    requires labels[i].ClaimBatch? && id in labels[i].ids && labels[j].ClaimBatch? && id in labels[j].ids
    requires forall k :: i < k < j ==> !MarksRow(labels[k], id)
    ensures states[i].now + labels[j].lease < states[j].now
  {
    var since := states[i].now;
    assert states[i + 1] == Step(cons, states[i], labels[i]);
    var rest, steps := states[i + 1..j + 1], labels[i + 1..j];
    assert LockedSince(rest[0], id, since);
    LockStays(cons, rest, steps, id, since);
    assert rest[|steps|] == states[j];
    assert Enabled(cons, states[j], labels[j]);
  }
}
