/** What every record in every log is: a copy of an outbox row, with well-kept failure headers. */
module Lineage {
  import opened Events
  import opened Headers
  import opened Kafka
  import opened Options
  import opened Pipeline
  import opened Text
  import Consumer
  import Outbox
  import Relay
  import ReplayTool

  ghost predicate RowOk(id: nat, r: Outbox.Row) {
    && Valid(r.event) && r.event.id == id
    && IsSourceTopic(r.topic) && Untracked(r.headers.Keys)
    && 0 <= r.attempts <= r.maxAttempts == Outbox.DEFAULT_MAX_ATTEMPTS
  }

  ghost predicate RowsOk(s: State) {
    forall id :: id in s.rows ==> RowOk(id, s.rows[id])
  }

  /** Key, value and source of the row with the event's id. */
  ghost predicate CopyOfRow(rows: Outbox.Table, m: Message) {
    && m.value.Encoded?
    && m.value.event.id in rows
    && rows[m.value.event.id].event == m.value.event
    && rows[m.value.event.id].key == m.key
    && Consumer.SourceOf(m) == rows[m.value.event.id].topic
  }

  /** On a source topic no attempt is counted; on consumer c's failure topics at least one is. */
  ghost predicate OnSource(m: Message) {
    IsSourceTopic(m.topic) && Consumer.SourceOf(m) == m.topic && HeaderValue(m.headers, RetryAttempt) == ""
  }

  ghost predicate Tracked(m: Message) {
    HeaderValue(m.headers, SourceTopic) != "" && HeaderValue(m.headers, FirstFailedAt) != ""
  }

  ghost predicate OnRetry(cons: Consumers, m: Message, c: string) {
    && c in cons && m.topic == RetryTopic(Consumer.SourceOf(m), c) && Tracked(m)
    && 1 <= Consumer.RetryAttemptOf(m) < cons[c].maxAttempts
  }

  ghost predicate OnDLQ(cons: Consumers, m: Message, c: string) {
    && c in cons && m.topic == DLQTopic(Consumer.SourceOf(m), c) && Tracked(m)
    && 1 <= Consumer.RetryAttemptOf(m) <= cons[c].maxAttempts
  }

  ghost predicate Placed(cons: Consumers, m: Message) {
    OnSource(m) || (exists c :: OnRetry(cons, m, c)) || (exists c :: OnDLQ(cons, m, c))
  }

  ghost predicate MessageOk(cons: Consumers, rows: Outbox.Table, m: Message) {
    CopyOfRow(rows, m) && UniqueKeys(m.headers) && Placed(cons, m)
  }

  ghost predicate EntriesOk(cons: Consumers, s: State) {
    forall pos :: Has(s, pos) ==>
      At(s, pos).message.topic == pos.partition.topic && MessageOk(cons, s.rows, At(s, pos).message)
  }

  ghost predicate SessionsPlaced(cons: Consumers, s: State) {
    forall sid :: sid in s.sessions ==>
      Subscribed(cons, s.sessions[sid].consumer, s.sessions[sid].partition.topic)
  }

  ghost predicate LineageInv(cons: Consumers, s: State) {
    RowsOk(s) && EntriesOk(cons, s) && SessionsPlaced(cons, s)
  }

  // A relayed record

  lemma RelayedOk(cons: Consumers, rows: Outbox.Table, id: nat, order: seq<string>)
    requires id in rows && rows[id].event.id == id && IsSourceTopic(rows[id].topic)
    requires Untracked(rows[id].headers.Keys) && Relay.IsListing(order, rows[id].headers.Keys)
    ensures MessageOk(cons, rows, Relay.Produced(id, rows[id], order))
  {
    var m := Relay.Produced(id, rows[id], order);
    forall k: Key | !k.Other? ensures Count(m.headers, k) == 0 && HeaderValue(m.headers, k) == "" {
      Relay.ProducedIsFresh(id, rows[id], order, k);
    }
    assert OnSource(m);
  }

  // A replayed record

  lemma ReplayedOk(cons: Consumers, rows: Outbox.Table, m: Message)
    requires MessageOk(cons, rows, m) && HeaderValue(m.headers, SourceTopic) != ""
    requires IsSourceTopic(Consumer.SourceOf(m))
    ensures MessageOk(cons, rows, ReplayTool.ReplayMessage(m))
    ensures HeaderValue(ReplayTool.ReplayMessage(m).headers, FirstFailedAt) == HeaderValue(m.headers, FirstFailedAt)
  {
    var r := ReplayTool.ReplayMessage(m);
    forall k: Key | !k.Other? ensures Count(r.headers, k) <= 1 {
      ReplayKeeps(m.headers, k);
    }
    ReplayKeeps(m.headers, SourceTopic);
    ReplayKeeps(m.headers, RetryAttempt);
    ReplayKeeps(m.headers, FirstFailedAt);
    assert OnSource(r);
  }

  // A forwarded record

  /** A subscribed record is either fresh or on this very consumer's retry topic. */
  lemma SubscribedAttempt(cons: Consumers, m: Message, c: string)
    requires ValidConsumers(cons) && Placed(cons, m) && Subscribed(cons, c, m.topic)
    ensures OnSource(m) || OnRetry(cons, m, c)
    ensures 0 <= Consumer.RetryAttemptOf(m) < cons[c].maxAttempts
    ensures Consumer.NextAttempt(m) == Consumer.RetryAttemptOf(m) + 1
  {
    if exists d :: OnRetry(cons, m, d) {
      var d :| OnRetry(cons, m, d);
      var source := Consumer.SourceOf(m);
      if IsSourceTopic(m.topic) {
        TopicKindsDisjoint(source, d, m.topic, d);
      } else {
        var other :| other in cons[c].sources && m.topic == RetryTopic(other, c);
        FailureTopicsInjective(source, d, other, c);
      }
    } else if exists d :: OnDLQ(cons, m, d) {
      var d :| OnDLQ(cons, m, d);
      var source := Consumer.SourceOf(m);
      TopicKindsDisjoint(source, d, m.topic, d);
      if !IsSourceTopic(m.topic) {
        var other :| other in cons[c].sources && m.topic == RetryTopic(other, c);
        TopicKindsDisjoint(other, c, source, d);
      }
    }
  }

  /** What one failed attempt forwards: the same record one attempt later, never a panic. */
  ghost predicate IsNext(m: Message, copy: Message) {
    && copy.key == m.key && copy.value == m.value
    && Consumer.SourceOf(copy) == Consumer.SourceOf(m)
    && Consumer.RetryAttemptOf(copy) == Consumer.RetryAttemptOf(m) + 1
    && (HeaderValue(m.headers, FirstFailedAt) != "" ==>
         HeaderValue(copy.headers, FirstFailedAt) == HeaderValue(m.headers, FirstFailedAt))
  }

  lemma ForwardedOk(cons: Consumers, rows: Outbox.Table, m: Message, c: string, kind: FailureClass, now: int)
    requires ValidConsumers(cons) && MessageOk(cons, rows, m) && Subscribed(cons, c, m.topic)
    requires IsSourceTopic(Consumer.SourceOf(m))
    ensures Consumer.Forwarded(cons[c], m, kind, now).Some?
    ensures var copy := Consumer.Forwarded(cons[c], m, kind, now).value;
      MessageOk(cons, rows, copy) && IsNext(m, copy) && (OnRetry(cons, copy, c) || OnDLQ(cons, copy, c))
  {
    var cfg := cons[c];
    SubscribedAttempt(cons, m, c);
    var attempt := Consumer.NextAttempt(m);
    Consumer.RetryDelayPanicsIff(cfg, attempt);
    var route := Consumer.Choose(cfg, m, kind);
    var delay := match route case ToRetry(a, d) => d case _ => 0;
    AtoiOfItoa(attempt);
    Consumer.FailureHeadersMeaning(cfg, m, attempt, kind, now, delay);
    var copy := Consumer.Forwarded(cfg, m, kind, now).value;
    assert copy.headers == Consumer.FailureHeaders(cfg, m, attempt, kind, now, delay);
    assert HeaderValue(copy.headers, SourceTopic) == Consumer.SourceOf(m) != "";
    assert OnRetry(cons, copy, c) || OnDLQ(cons, copy, c);
  }

  // Every step

  lemma CopyOfGrownRow(cons: Consumers, s: State, t: State, m: Message)
    requires Grown(s, t) && MessageOk(cons, s.rows, m)
    ensures MessageOk(cons, t.rows, m)
  {
  }

  lemma WrittenOk(cons: Consumers, s: State, l: Label)
    requires ValidConsumers(cons) && LineageInv(cons, s) && Enabled(cons, s, l) && Written(cons, s, l).Some?
    ensures var (p, e) := Written(cons, s, l).value;
      e.message.topic == p.topic && MessageOk(cons, s.rows, e.message)
  {
    match l
    case Land(claim, index, order) => RelayedOk(cons, s.rows, claim.id, order);
    case Forward(sid, index, acked, at) =>
      var pos := Current(s, sid);
      ForwardedOk(cons, s.rows, At(s, pos).message, s.sessions[sid].consumer, s.sessions[sid].phase.kind, at);
    case Replay(from, index) =>
      ReplayedOk(cons, s.rows, At(s, from).message);
    case _ =>
  }

  lemma StepKeepsRows(cons: Consumers, s: State, l: Label)
    requires RowsOk(s) && Enabled(cons, s, l)
    ensures RowsOk(Step(cons, s, l))
  {
    forall id | id in Step(cons, s, l).rows ensures RowOk(id, Step(cons, s, l).rows[id]) {
    }
  }

  lemma StepKeepsSessions(cons: Consumers, s: State, l: Label)
    requires SessionsPlaced(cons, s) && Enabled(cons, s, l)
    ensures SessionsPlaced(cons, Step(cons, s, l))
  {
  }

  lemma StepKeepsEntries(cons: Consumers, s: State, l: Label)
    requires ValidConsumers(cons) && LineageInv(cons, s) && Enabled(cons, s, l)
    ensures EntriesOk(cons, Step(cons, s, l))
  {
    var t := Step(cons, s, l);
    StepGrows(cons, s, l);
    forall pos | Has(t, pos)
      ensures At(t, pos).message.topic == pos.partition.topic && MessageOk(cons, t.rows, At(t, pos).message)
    {
      StepEntries(cons, s, l, pos);
      if !Has(s, pos) { WrittenOk(cons, s, l); }
      CopyOfGrownRow(cons, s, t, At(t, pos).message);
    }
  }

  lemma StepKeepsLineage(cons: Consumers, s: State, l: Label)
    requires ValidConsumers(cons) && LineageInv(cons, s) && Enabled(cons, s, l)
    ensures LineageInv(cons, Step(cons, s, l))
  {
    StepKeepsRows(cons, s, l);
    StepKeepsEntries(cons, s, l);
    StepKeepsSessions(cons, s, l);
  }

  lemma {:induction false} RunKeepsLineage(cons: Consumers, states: seq<State>, labels: seq<Label>)
    requires ValidConsumers(cons) && IsRun(cons, states, labels) && states[0] == INIT
    ensures LineageInv(cons, states[|labels|])
  {
    if labels == [] {
    } else {
      var n := |labels| - 1;
      RunKeepsLineage(cons, states[..n + 1], labels[..n]);
      StepKeepsLineage(cons, states[n], labels[n]);
    }
  }

  lemma ReachableLineage(cons: Consumers, s: State)
    requires ValidConsumers(cons) && Reachable(cons, s)
    ensures LineageInv(cons, s)
  {
    var states, labels :| IsRun(cons, states, labels) && states[0] == INIT && states[|states| - 1] == s;
    RunKeepsLineage(cons, states, labels);
  }

  // The theorems about records

  /** Attempt numbers stay in range, so no consumer ever panics on a reachable record. */
  lemma BoundedRetries(cons: Consumers, s: State, pos: Position)
    requires ValidConsumers(cons) && Reachable(cons, s) && Has(s, pos)
    ensures var m := At(s, pos).message;
      && (OnSource(m) || (exists c :: OnRetry(cons, m, c)) || (exists c :: OnDLQ(cons, m, c)))
      && (forall c, kind, now :: Subscribed(cons, c, m.topic) ==>
           Consumer.Forwarded(cons[c], m, kind, now).Some?)
  {
    ReachableLineage(cons, s);
    var m := At(s, pos).message;
    forall c, kind, now | Subscribed(cons, c, m.topic)
      ensures Consumer.Forwarded(cons[c], m, kind, now).Some?
    {
      ForwardedOk(cons, s.rows, m, c, kind, now);
    }
  }

  // Ancestry

  /** How an entry relates to the record it was made from. */
  ghost predicate EdgeOk(m: Message, child: Entry) {
    var copy := child.message;
    && copy.key == m.key && copy.value == m.value && Consumer.SourceOf(copy) == Consumer.SourceOf(m)
    && (HeaderValue(m.headers, FirstFailedAt) != "" ==>
         HeaderValue(copy.headers, FirstFailedAt) == HeaderValue(m.headers, FirstFailedAt))
    && if child.origin.Forwarded? then IsNext(m, copy)
       else copy.topic == Consumer.SourceOf(m) && Consumer.RetryAttemptOf(copy) == 0
  }

  ghost predicate EdgesOk(s: State) {
    forall pos :: Has(s, pos) && !At(s, pos).origin.Relayed? ==>
      Has(s, At(s, pos).origin.from) && EdgeOk(At(s, At(s, pos).origin.from).message, At(s, pos))
  }

  lemma WrittenEdge(cons: Consumers, s: State, l: Label)
    requires ValidConsumers(cons) && LineageInv(cons, s) && Enabled(cons, s, l)
    requires Written(cons, s, l).Some? && !Written(cons, s, l).value.1.origin.Relayed?
    ensures var e := Written(cons, s, l).value.1;
      Has(s, e.origin.from) && EdgeOk(At(s, e.origin.from).message, e)
  {
    match l
    case Forward(sid, index, acked, at) =>
      var pos := Current(s, sid);
      ForwardedOk(cons, s.rows, At(s, pos).message, s.sessions[sid].consumer, s.sessions[sid].phase.kind, at);
    case Replay(from, index) =>
      ReplayedOk(cons, s.rows, At(s, from).message);
      ReplayKeeps(At(s, from).message.headers, RetryAttempt);
      ReplayKeeps(At(s, from).message.headers, SourceTopic);
  }

  lemma StepKeepsEdges(cons: Consumers, s: State, l: Label)
    requires ValidConsumers(cons) && LineageInv(cons, s) && EdgesOk(s) && Enabled(cons, s, l)
    ensures EdgesOk(Step(cons, s, l))
  {
    var t := Step(cons, s, l);
    forall pos | Has(t, pos) && !At(t, pos).origin.Relayed?
      ensures Has(t, At(t, pos).origin.from) && EdgeOk(At(t, At(t, pos).origin.from).message, At(t, pos))
    {
      StepEntries(cons, s, l, pos);
      if !Has(s, pos) { WrittenEdge(cons, s, l); }
      var from := At(t, pos).origin.from;
      assert Has(s, from);
      StepGrows(cons, s, l);
      assert Log(s, from.partition) <= Log(t, from.partition);
    }
  }

  lemma {:induction false} RunKeepsEdges(cons: Consumers, states: seq<State>, labels: seq<Label>)
    requires ValidConsumers(cons) && IsRun(cons, states, labels) && states[0] == INIT
    ensures EdgesOk(states[|labels|])
  {
    if labels != [] {
      var n := |labels| - 1;
      RunKeepsEdges(cons, states[..n + 1], labels[..n]);
      RunKeepsLineage(cons, states[..n + 1], labels[..n]);
      StepKeepsEdges(cons, states[n], labels[n]);
    }
  }

  /** Positions each made from the one before, by forwarding or by replay. */
  ghost predicate IsAncestry(s: State, path: seq<Position>) {
    && path != []
    && (forall i :: 0 <= i < |path| ==> Has(s, path[i]))
    && forall i :: 0 < i < |path| ==> !At(s, path[i]).origin.Relayed? && At(s, path[i]).origin.from == path[i - 1]
  }

  ghost predicate AllForwarded(s: State, path: seq<Position>)
    requires forall i :: 0 <= i < |path| ==> Has(s, path[i])
  {
    forall i :: 0 < i < |path| ==> At(s, path[i]).origin.Forwarded?
  }

  lemma {:induction false} AncestryKeeps(cons: Consumers, s: State, path: seq<Position>)
    requires EdgesOk(s) && IsAncestry(s, path)
    ensures var m, last := At(s, path[0]).message, At(s, path[|path| - 1]).message;
      && last.key == m.key && last.value == m.value && Consumer.SourceOf(last) == Consumer.SourceOf(m)
      && (HeaderValue(m.headers, FirstFailedAt) != "" ==>
           HeaderValue(last.headers, FirstFailedAt) == HeaderValue(m.headers, FirstFailedAt))
      && (AllForwarded(s, path) ==> Consumer.RetryAttemptOf(last) == Consumer.RetryAttemptOf(m) + |path| - 1)
  {
    if |path| > 1 {
      var front := path[..|path| - 1];
      AncestryKeeps(cons, s, front);
      assert At(s, path[|path| - 1]).origin.from == front[|front| - 1];
      assert AllForwarded(s, path) ==> AllForwarded(s, front);
    }
  }

  /** However often a record was retried, dead-lettered and replayed, it kept its key, its value,
      its original topic, and the time it first failed. */
  lemma RetryLineage(cons: Consumers, s: State, path: seq<Position>)
    requires ValidConsumers(cons) && Reachable(cons, s) && IsAncestry(s, path)
    ensures var m, last := At(s, path[0]).message, At(s, path[|path| - 1]).message;
      && UniqueKeys(last.headers)
      && last.key == m.key && last.value == m.value && Consumer.SourceOf(last) == Consumer.SourceOf(m)
      && (HeaderValue(m.headers, FirstFailedAt) != "" ==>
           HeaderValue(last.headers, FirstFailedAt) == HeaderValue(m.headers, FirstFailedAt))
  {
    var states, labels :| IsRun(cons, states, labels) && states[0] == INIT && states[|states| - 1] == s;
    RunKeepsEdges(cons, states, labels);
    RunKeepsLineage(cons, states, labels);
    AncestryKeeps(cons, s, path);
  }

  /** The consumer whose limit bounds the attempts counted on a record. */
  ghost predicate CountedBy(cons: Consumers, m: Message, c: string) {
    c in cons && (OnRetry(cons, m, c) || OnDLQ(cons, m, c)) && Consumer.RetryAttemptOf(m) <= cons[c].maxAttempts
  }

  lemma PlacedAttempts(cons: Consumers, m: Message)
    requires Placed(cons, m)
    ensures Consumer.RetryAttemptOf(m) >= 0
    ensures Consumer.RetryAttemptOf(m) > 0 ==> exists c :: CountedBy(cons, m, c)
  {
    if c :| OnRetry(cons, m, c) {
      assert CountedBy(cons, m, c);
    } else if c :| OnDLQ(cons, m, c) {
      assert CountedBy(cons, m, c);
    }
  }

  /** Between replays a record is forwarded at most as often as its consumer's attempt limit says. */
  lemma ForwardedAtMostMaxAttempts(cons: Consumers, s: State, path: seq<Position>) returns (c: string)
    requires ValidConsumers(cons) && Reachable(cons, s) && IsAncestry(s, path) && AllForwarded(s, path)
    requires |path| > 1
    ensures CountedBy(cons, At(s, path[|path| - 1]).message, c) && |path| - 1 <= cons[c].maxAttempts
  {
    var states, labels :| IsRun(cons, states, labels) && states[0] == INIT && states[|states| - 1] == s;
    RunKeepsEdges(cons, states, labels);
    RunKeepsLineage(cons, states, labels);
    AncestryKeeps(cons, s, path);
    PlacedAttempts(cons, At(s, path[0]).message);
    PlacedAttempts(cons, At(s, path[|path| - 1]).message);
    c :| CountedBy(cons, At(s, path[|path| - 1]).message, c);
  }
}
