/** Offsets never pass a record that was not handled, superseded, or forwarded. */
module NoLoss {
  import opened Events
  import opened Kafka
  import opened Lineage
  import opened Pipeline
  import Consumer
  import Inbox

  /** A copy this consumer forwarded from this very record. */
  ghost predicate IsFailureCopy(s: State, c: string, pos: Position, copy: Position) {
    && Has(s, pos) && Has(s, copy)
    && At(s, copy).origin == Forwarded(pos)
    && var m, made := At(s, pos).message, At(s, copy).message;
       made.key == m.key && made.value == m.value
       && (made.topic == RetryTopic(Consumer.SourceOf(m), c) || made.topic == DLQTopic(Consumer.SourceOf(m), c))
  }

  ghost predicate Accounted(s: State, c: string, pos: Position) {
    && Has(s, pos) && At(s, pos).message.value.Encoded?
    && var e := At(s, pos).message.value.event;
       || (c, e.id) in s.inbox.processed
       || Inbox.Superseded(s.inbox, c, e)
       || exists copy :: IsFailureCopy(s, c, pos, copy)
  }

  ghost predicate AccountedBelow(s: State, c: string, p: Partition, n: nat) {
    forall i: nat :: i < n ==> Accounted(s, c, Position(p, i))
  }

  ghost predicate CommittedOk(s: State) {
    forall c, p :: AccountedBelow(s, c, p, CommittedOffset(s, c, p))
  }

  ghost predicate SessionOk(s: State, ses: Session) {
    && AccountedBelow(s, ses.consumer, ses.partition, ses.offset)
    && (ses.phase.Handled? ==> Accounted(s, ses.consumer, Position(ses.partition, ses.offset)))
  }

  ghost predicate SessionsOk(s: State) {
    forall sid :: sid in s.sessions ==> SessionOk(s, s.sessions[sid])
  }

  ghost predicate Inv(cons: Consumers, s: State) {
    LineageInv(cons, s) && Inbox.Inv(s.inbox) && CommittedOk(s) && SessionsOk(s)
  }

  lemma AccountedStays(s: State, t: State, c: string, pos: Position)
    requires Grown(s, t) && Accounted(s, c, pos)
    ensures Accounted(t, c, pos)
  {
    var e := At(s, pos).message.value.event;
    assert Log(s, pos.partition) <= Log(t, pos.partition);
    if (c, e.id) in s.inbox.processed {
    } else if Inbox.Superseded(s.inbox, c, e) {
      var i :| 0 <= i < |s.inbox.effects| && Inbox.IsNewer(s.inbox.effects[i], c, e);
      assert Inbox.IsNewer(t.inbox.effects[i], c, e);
    } else {
      var copy :| IsFailureCopy(s, c, pos, copy);
      assert Log(s, copy.partition) <= Log(t, copy.partition);
      assert IsFailureCopy(t, c, pos, copy);
    }
  }

  lemma AccountedBelowStays(s: State, t: State, c: string, p: Partition, n: nat)
    requires Grown(s, t) && AccountedBelow(s, c, p, n)
    ensures AccountedBelow(t, c, p, n)
  {
    forall i: nat | i < n ensures Accounted(t, c, Position(p, i)) {
      AccountedStays(s, t, c, Position(p, i));
    }
  }

  lemma SessionStays(s: State, t: State, ses: Session)
    requires Grown(s, t) && SessionOk(s, ses)
    ensures SessionOk(t, ses)
  {
    AccountedBelowStays(s, t, ses.consumer, ses.partition, ses.offset);
    if ses.phase.Handled? { AccountedStays(s, t, ses.consumer, Position(ses.partition, ses.offset)); }
  }

  lemma HandleAccounts(cons: Consumers, s: State, sid: nat, cond: Consumer.Conditions)
    requires ValidConsumers(cons) && Inv(cons, s) && Enabled(cons, s, Handle(sid, cond))
    ensures var t := Step(cons, s, Handle(sid, cond));
      Inbox.Inv(t.inbox) && SessionOk(t, t.sessions[sid])
  {
    var t := Step(cons, s, Handle(sid, cond));
    var ses := s.sessions[sid];
    Consumer.AttemptMeaning(cons[ses.consumer], s.inbox, At(s, Current(s, sid)).message, cond);
    StepGrows(cons, s, Handle(sid, cond));
    AccountedBelowStays(s, t, ses.consumer, ses.partition, ses.offset);
    assert At(t, Current(s, sid)) == At(s, Current(s, sid));
  }

  lemma ForwardAccounts(cons: Consumers, s: State, sid: nat, index: nat, acked: bool, at: int)
    requires ValidConsumers(cons) && Inv(cons, s) && Enabled(cons, s, Forward(sid, index, acked, at))
    ensures var t := Step(cons, s, Forward(sid, index, acked, at));
      Accounted(t, s.sessions[sid].consumer, Current(s, sid))
  {
    var l := Forward(sid, index, acked, at);
    var t := Step(cons, s, l);
    var ses := s.sessions[sid];
    var pos := Current(s, sid);
    var m := At(s, pos).message;
    StepGrows(cons, s, l);
    assert Log(s, pos.partition) <= Log(t, pos.partition);
    var made := Copy(cons, s, sid, at).value;
    var copy := Position(Partition(made.topic, index), |Log(s, Partition(made.topic, index))|);
    assert At(t, copy) == Entry(made, Forwarded(pos));
    assert IsFailureCopy(t, ses.consumer, pos, copy);
    assert MessageOk(cons, s.rows, m);
  }

  lemma BeginAccounts(cons: Consumers, s: State, l: Label)
    requires ValidConsumers(cons) && Inv(cons, s) && Enabled(cons, s, l) && l.Begin?
    ensures var t := Step(cons, s, l); l.sid in t.sessions && SessionOk(t, t.sessions[l.sid])
  {
    StepGrows(cons, s, l);
    assert AccountedBelow(s, l.consumer, l.partition, CommittedOffset(s, l.consumer, l.partition));
    AccountedBelowStays(s, Step(cons, s, l), l.consumer, l.partition, CommittedOffset(s, l.consumer, l.partition));
  }

  lemma NextSessionAccounts(t: State, ses: Session)
    requires SessionOk(t, ses) && ses.phase.Handled?
    ensures AccountedBelow(t, ses.consumer, ses.partition, ses.offset + 1)
    ensures SessionOk(t, Session(ses.consumer, ses.partition, ses.offset + 1, Ready))
  {
  }

  lemma CommitAccounts(cons: Consumers, s: State, l: Label)
    requires ValidConsumers(cons) && Inv(cons, s) && Enabled(cons, s, l) && l.Commit?
    ensures var t := Step(cons, s, l);
      && l.sid in t.sessions && SessionOk(t, t.sessions[l.sid])
      && AccountedBelow(t, s.sessions[l.sid].consumer, s.sessions[l.sid].partition, s.sessions[l.sid].offset + 1)
  {
    var t := Step(cons, s, l);
    var ses := s.sessions[l.sid];
    StepGrows(cons, s, l);
    SessionStays(s, t, ses);
    NextSessionAccounts(t, ses);
    assert NextSessions(cons, s, l)[l.sid] == Session(ses.consumer, ses.partition, ses.offset + 1, Ready);
  }

  lemma ForwardSession(cons: Consumers, s: State, l: Label)
    requires ValidConsumers(cons) && Inv(cons, s) && Enabled(cons, s, l) && l.Forward?
    ensures var t := Step(cons, s, l); l.sid in t.sessions ==> SessionOk(t, t.sessions[l.sid])
  {
    var ses := s.sessions[l.sid];
    StepGrows(cons, s, l);
    ForwardAccounts(cons, s, l.sid, l.index, l.acked, l.at);
    AccountedBelowStays(s, Step(cons, s, l), ses.consumer, ses.partition, ses.offset);
  }

  predicate Touches(l: Label, sid: nat) {
    (l.Begin? || l.Handle? || l.Forward? || l.Commit? || l.SessionStops?) && l.sid == sid
  }

  lemma OtherSessions(cons: Consumers, s: State, l: Label, sid: nat)
    requires Enabled(cons, s, l) && sid in Step(cons, s, l).sessions && !Touches(l, sid)
    ensures sid in s.sessions && Step(cons, s, l).sessions[sid] == s.sessions[sid]
  {
  }

  lemma StepKeepsSessions(cons: Consumers, s: State, l: Label)
    requires ValidConsumers(cons) && Inv(cons, s) && Enabled(cons, s, l)
    ensures SessionsOk(Step(cons, s, l))
  {
    var t := Step(cons, s, l);
    forall sid | sid in t.sessions ensures SessionOk(t, t.sessions[sid]) {
      if !Touches(l, sid) {
        OtherSessions(cons, s, l, sid);
        StepGrows(cons, s, l);
        SessionStays(s, t, s.sessions[sid]);
      } else if l.Begin? {
        BeginAccounts(cons, s, l);
      } else if l.Handle? {
        HandleAccounts(cons, s, sid, l.cond);
      } else if l.Forward? {
        ForwardSession(cons, s, l);
      } else if l.Commit? {
        CommitAccounts(cons, s, l);
      }
    }
  }

  lemma StepKeepsCommitted(cons: Consumers, s: State, l: Label)
    requires ValidConsumers(cons) && Inv(cons, s) && Enabled(cons, s, l)
    ensures CommittedOk(Step(cons, s, l))
  {
    var t := Step(cons, s, l);
    StepGrows(cons, s, l);
    if l.Commit? { CommitAccounts(cons, s, l); }
    forall c, p ensures AccountedBelow(t, c, p, CommittedOffset(t, c, p)) {
      if CommittedOffset(t, c, p) == CommittedOffset(s, c, p) {
        assert AccountedBelow(s, c, p, CommittedOffset(s, c, p));
        AccountedBelowStays(s, t, c, p, CommittedOffset(s, c, p));
      }
    }
  }

  lemma StepKeepsInv(cons: Consumers, s: State, l: Label)
    requires ValidConsumers(cons) && Inv(cons, s) && Enabled(cons, s, l)
    ensures Inv(cons, Step(cons, s, l))
  {
    StepKeepsLineage(cons, s, l);
    StepKeepsSessions(cons, s, l);
    StepKeepsCommitted(cons, s, l);
    if l.Handle? { HandleAccounts(cons, s, l.sid, l.cond); }
  }

  lemma {:induction false} RunKeepsInv(cons: Consumers, states: seq<State>, labels: seq<Label>)
    requires ValidConsumers(cons) && IsRun(cons, states, labels) && states[0] == INIT
    ensures Inv(cons, states[|labels|])
  {
    if labels == [] {
      assert Inbox.WatermarksMatch(INIT.inbox);
    } else {
      var n := |labels| - 1;
      RunKeepsInv(cons, states[..n + 1], labels[..n]);
      StepKeepsInv(cons, states[n], labels[n]);
    }
  }

  lemma ReachableInv(cons: Consumers, s: State)
    requires ValidConsumers(cons) && Reachable(cons, s)
    ensures Inv(cons, s)
  {
    var states, labels :| IsRun(cons, states, labels) && states[0] == INIT && states[|states| - 1] == s;
    RunKeepsInv(cons, states, labels);
  }

  // The theorems

  /** No committed record is lost. */
  lemma NoCommittedRecordIsLost(cons: Consumers, s: State, c: string, p: Partition, offset: nat)
    requires ValidConsumers(cons) && Reachable(cons, s) && offset < CommittedOffset(s, c, p)
    ensures Accounted(s, c, Position(p, offset))
  {
    ReachableInv(cons, s);
    assert AccountedBelow(s, c, p, CommittedOffset(s, c, p));
  }

  /** Over any run each consumer's handler takes effect at most once per event, in version order
      per subject, and the watermark is the highest version it committed. */
  lemma EffectsAtMostOnce(cons: Consumers, s: State)
    requires ValidConsumers(cons) && Reachable(cons, s)
    ensures Inbox.AtMostOnce(s.inbox.effects) && Inbox.VersionsInOrder(s.inbox.effects)
    ensures forall c, subject :: Inbox.Watermark(s.inbox, c, subject) == Inbox.MaxVersion(s.inbox.effects, c, subject)
  {
    ReachableInv(cons, s);
  }

  /** Consumer c has committed everything in this source topic and in its own retry topic of it. */
  ghost predicate Drained(s: State, c: string, source: string) {
    forall p: Partition :: p.topic == source || p.topic == RetryTopic(source, c) ==>
      CommittedOffset(s, c, p) == |Log(s, p)|
  }

  ghost predicate DeadLettered(s: State, c: string, m: Message, pos: Position) {
    Has(s, pos) && At(s, pos).message.topic == DLQTopic(Consumer.SourceOf(m), c)
    && At(s, pos).message.key == m.key && At(s, pos).message.value == m.value
  }

  /** Where the consumer reads the records of a source topic. */
  ghost predicate OnItsTopics(cons: Consumers, c: string, source: string, m: Message) {
    && c in cons && source in cons[c].sources && Consumer.SourceOf(m) == source
    && (m.topic == source || m.topic == RetryTopic(source, c))
  }

  /** Follow a record through its retries to where it ended. */
  lemma {:induction false} Chase(cons: Consumers, s: State, c: string, source: string, pos: Position)
    requires ValidConsumers(cons) && Inv(cons, s) && EdgesOk(s) && c in cons && Drained(s, c, source)
    requires Has(s, pos) && OnItsTopics(cons, c, source, At(s, pos).message)
    ensures var m := At(s, pos).message;
      && m.value.Encoded?
      && ((c, m.value.event.id) in s.inbox.processed || Inbox.Superseded(s.inbox, c, m.value.event)
           || exists dead :: DeadLettered(s, c, m, dead))
    decreases cons[c].maxAttempts - Consumer.RetryAttemptOf(At(s, pos).message)
  {
    var m := At(s, pos).message;
    assert m.topic == pos.partition.topic && MessageOk(cons, s.rows, m);
    assert AccountedBelow(s, c, pos.partition, CommittedOffset(s, c, pos.partition));
    assert Accounted(s, c, Position(pos.partition, pos.offset));
    if (c, m.value.event.id) !in s.inbox.processed && !Inbox.Superseded(s.inbox, c, m.value.event) {
      var copy :| IsFailureCopy(s, c, pos, copy);
      var made := At(s, copy).message;
      assert made.topic == copy.partition.topic;
      if made.topic == DLQTopic(source, c) {
        assert DeadLettered(s, c, m, copy);
      } else {
        SubscribedAttempt(cons, m, c);
        assert EdgeOk(m, At(s, copy));
        Chase(cons, s, c, source, copy);
        var dead: Position;
        if (c, m.value.event.id) !in s.inbox.processed && !Inbox.Superseded(s.inbox, c, m.value.event) {
          dead :| DeadLettered(s, c, made, dead);
          assert DeadLettered(s, c, m, dead);
        }
      }
    }
  }

  /** Once a consumer has drained a source topic it subscribes to, every record there, relayed or replayed, was
      handled, made obsolete by a newer event, or sits in the consumer's dead-letter topic. */
  lemma DrainedMeansAccountedFor(cons: Consumers, s: State, c: string, pos: Position)
    requires ValidConsumers(cons) && Reachable(cons, s) && c in cons && Has(s, pos)
    requires pos.partition.topic in cons[c].sources && Drained(s, c, pos.partition.topic)
    ensures var m := At(s, pos).message;
      && m.value.Encoded?
      && ((c, m.value.event.id) in s.inbox.processed || Inbox.Superseded(s.inbox, c, m.value.event)
           || exists dead :: DeadLettered(s, c, m, dead))
  {
    var states, labels :| IsRun(cons, states, labels) && states[0] == INIT && states[|states| - 1] == s;
    RunKeepsInv(cons, states, labels);
    RunKeepsEdges(cons, states, labels);
    var m := At(s, pos).message;
    assert m.topic == pos.partition.topic && MessageOk(cons, s.rows, m);
    SubscribedAttempt(cons, m, c);
    NotARetry(cons, m, c);
    Chase(cons, s, c, pos.partition.topic, pos);
  }

  lemma NotARetry(cons: Consumers, m: Message, c: string)
    requires IsSourceTopic(m.topic) && (OnSource(m) || OnRetry(cons, m, c))
    ensures OnSource(m)
  {
    TopicKindsDisjoint(Consumer.SourceOf(m), c, m.topic, c);
  }

  // Where effects come from

  /** This step is the transaction in which the consumer's handler succeeded on the event, as read from its record. */
  ghost predicate Handles(cons: Consumers, s: State, l: Label, f: Inbox.Effect) {
    && Enabled(cons, s, l) && l.Handle? && l.cond.handler.Succeeds? && l.cond.schema.Succeeds?
    && cons[s.sessions[l.sid].consumer].name == f.consumer
    && f.event.eventType in cons[s.sessions[l.sid].consumer].handlers
    && At(s, Current(s, l.sid)).message.value == Events.Encoded(f.event)
    && !Inbox.HasEffect(s.inbox.effects, f.consumer, f.event.id)
  }

  lemma StepEffects(cons: Consumers, s: State, l: Label)
    requires Inbox.Inv(s.inbox) && Enabled(cons, s, l)
    ensures var before, after := s.inbox.effects, Step(cons, s, l).inbox.effects;
      || after == before
      || (|after| == |before| + 1 && before == after[..|before|] && Handles(cons, s, l, after[|before|]))
  {
    if l.Handle? {
      var cfg, m := cons[s.sessions[l.sid].consumer], At(s, Current(s, l.sid)).message;
      Consumer.AttemptAnswers(cfg, s.inbox, m, l.cond);
      assert Step(cons, s, l).inbox == Consumer.Attempt(cfg, s.inbox, m, l.cond).0;
    }
  }

  /** Every effect of a run was made by a handler that succeeded on that very event, the first time it did. */
  lemma {:induction false} EffectsComeFromSuccess(cons: Consumers, states: seq<State>, labels: seq<Label>, k: nat)
    returns (i: nat)
    requires ValidConsumers(cons) && IsRun(cons, states, labels) && states[0] == INIT
    requires k < |states[|labels|].inbox.effects|
    ensures i < |labels| && Handles(cons, states[i], labels[i], states[|labels|].inbox.effects[k])
  {
    var n := |labels| - 1;
    LastEffects(cons, states, labels);
    if k < |states[n].inbox.effects| {
      i := EffectsComeFromSuccess(cons, states[..n + 1], labels[..n], k);
    } else {
      i := n;
    }
  }

  lemma LastEffects(cons: Consumers, states: seq<State>, labels: seq<Label>)
    requires ValidConsumers(cons) && IsRun(cons, states, labels) && states[0] == INIT && labels != []
    ensures var n := |labels| - 1;
      var before, after := states[n].inbox.effects, states[n + 1].inbox.effects;
      || after == before
      || (&& |after| == |before| + 1 && before == after[..|before|]
          && Handles(cons, states[n], labels[n], after[|before|]))
  {
    var n := |labels| - 1;
    RunKeepsInv(cons, states[..n + 1], labels[..n]);
    StepEffects(cons, states[n], labels[n]);
  }
}
