/**
 The event pipeline as a labelled transition system: outbox rows, relay claims, topic logs,
 consumer sessions, inbox, and operator replays. Crashes, lost acknowledgements, late appends,
 redeliveries and re-claims are ordinary steps.
 */
module Pipeline {
  import opened Events
  import opened Options
  import opened Headers
  import opened Kafka
  import opened Text
  import Consumer
  import Inbox
  import Outbox
  import Relay
  import ReplayTool

  datatype Partition = Partition(topic: string, index: nat)
  datatype Position = Position(partition: Partition, offset: nat)

  /** The n-th claim of a row; the attempt counter makes it unique. */
  datatype Claim = Claim(id: nat, attempt: int)

  /** How a record came into its log. Bookkeeping only: no step reads it. */
  datatype Origin = Relayed(claim: Claim) | Forwarded(from: Position) | Replayed(from: Position)
  datatype Entry = Entry(message: Message, origin: Origin)

  datatype Phase = Ready | Failing(kind: FailureClass) | Handled

  /** A consumer process at work on one partition. Several may be at work on the same one. */
  datatype Session = Session(consumer: string, partition: Partition, offset: nat, phase: Phase)

  datatype State = State(
    now: int,
    rows: Outbox.Table,
    open: set<Claim>,        // claims a relay worker still means to mark
    landed: set<Claim>,      // claims whose record reached the log
    logs: map<Partition, seq<Entry>>,
    committed: map<(string, Partition), nat>,
    inbox: Inbox.State,
    sessions: map<nat, Session>
  )

  type Consumers = map<string, Consumer.Config>

  ghost predicate ValidConsumers(cons: Consumers) {
    forall c :: c in cons ==>
      && IsSegment(c) && cons[c].name == c && Consumer.WellFormed(cons[c]) && cons[c].maxAttempts <= MAX_INT64
      && forall source :: source in cons[c].sources ==> IsSourceTopic(source)
  }

  const INIT := State(0, map[], {}, {}, map[], map[], Inbox.EMPTY, map[])

  function Log(s: State, p: Partition): seq<Entry> {
    if p in s.logs then s.logs[p] else []
  }

  predicate Has(s: State, pos: Position) {
    pos.offset < |Log(s, pos.partition)|
  }

  function At(s: State, pos: Position): Entry
    requires Has(s, pos)
  {
    Log(s, pos.partition)[pos.offset]
  }

  function CommittedOffset(s: State, c: string, p: Partition): nat {
    if (c, p) in s.committed then s.committed[(c, p)] else 0
  }

  ghost predicate Subscribed(cons: Consumers, c: string, topic: string) {
    && c in cons
    && (topic in cons[c].sources || exists source :: source in cons[c].sources && topic == RetryTopic(source, c))
  }

  datatype Label =
    | Enqueue(topic: string, key: string, event: Event, headers: map<string, string>)
    | Tick(to: int)
    | ClaimBatch(ids: set<nat>, worker: string, lease: int)
    | Land(claim: Claim, index: nat, order: seq<string>)
    | MarkPublished(claim: Claim)
    | MarkFailed(claim: Claim, delay: int)
    | RelayStops(claims: set<Claim>)
    | Begin(sid: nat, consumer: string, partition: Partition)
    | Handle(sid: nat, cond: Consumer.Conditions)
    | Forward(sid: nat, index: nat, acked: bool, at: int)   // stamped at `at`, appended now or long after
    | Commit(sid: nat)
    | SessionStops(sid: nat)
    | Replay(from: Position, index: nat)

  predicate InSession(s: State, sid: nat) {
    sid in s.sessions && Has(s, Position(s.sessions[sid].partition, s.sessions[sid].offset))
  }

  function Current(s: State, sid: nat): Position
    requires sid in s.sessions
  {
    Position(s.sessions[sid].partition, s.sessions[sid].offset)
  }

  /** The record a failing session has to forward, stamped at `at`. */
  function Copy(cons: Consumers, s: State, sid: nat, at: int): Option<Message>
    requires InSession(s, sid) && s.sessions[sid].phase.Failing?
  {
    var ses := s.sessions[sid];
    if ses.consumer in cons && Consumer.WellFormed(cons[ses.consumer]) then
      Consumer.Forwarded(cons[ses.consumer], At(s, Current(s, sid)).message, ses.phase.kind, at)
    else None
  }

  ghost predicate Enabled(cons: Consumers, s: State, l: Label) {
    match l
    case Enqueue(topic, key, event, headers) =>
      IsSourceTopic(topic) && Valid(event) && event.id !in s.rows && Untracked(headers.Keys)
    case Tick(to) => s.now <= to
    case ClaimBatch(ids, worker, lease) =>
      ids <= s.rows.Keys && forall id :: id in ids ==> Outbox.Claimable(s.rows[id], s.now, lease)
    case Land(claim, index, order) =>
      && claim.id in s.rows && 1 <= claim.attempt <= s.rows[claim.id].attempts && claim !in s.landed
      && Relay.IsListing(order, s.rows[claim.id].headers.Keys)
    case MarkPublished(claim) => claim in s.open && claim in s.landed && claim.id in s.rows
    case MarkFailed(claim, delay) => claim in s.open && claim.id in s.rows
    case RelayStops(claims) => claims <= s.open
    case Begin(sid, consumer, partition) =>
      sid !in s.sessions && Subscribed(cons, consumer, partition.topic)
    case Handle(sid, cond) => InSession(s, sid) && s.sessions[sid].phase.Ready? && s.sessions[sid].consumer in cons
    case Forward(sid, index, acked, at) =>
      InSession(s, sid) && s.sessions[sid].phase.Failing? && at <= s.now && Copy(cons, s, sid, at).Some?
    case Commit(sid) => sid in s.sessions && s.sessions[sid].phase.Handled?
    case SessionStops(sid) => sid in s.sessions
    case Replay(from, index) => Has(s, from) && HeaderValue(At(s, from).message.headers, SourceTopic) != ""
  }

  /** The one log entry a step writes, if it writes any. */
  ghost function Written(cons: Consumers, s: State, l: Label): Option<(Partition, Entry)>
    requires Enabled(cons, s, l)
  {
    match l
    case Land(claim, index, order) =>
      var m := Relay.Produced(claim.id, s.rows[claim.id], order);
      Some((Partition(m.topic, index), Entry(m, Relayed(claim))))
    case Forward(sid, index, acked, at) =>
      var m := Copy(cons, s, sid, at).value;
      Some((Partition(m.topic, index), Entry(m, Forwarded(Current(s, sid)))))
    case Replay(from, index) =>
      var m := ReplayTool.ReplayMessage(At(s, from).message);
      Some((Partition(m.topic, index), Entry(m, Replayed(from))))
    case _ => None
  }

  function Append(s: State, p: Partition, e: Entry): map<Partition, seq<Entry>> {
    s.logs[p := Log(s, p) + [e]]
  }

  function InPhase(s: State, sid: nat, phase: Phase): map<nat, Session>
    requires sid in s.sessions
  {
    s.sessions[sid := s.sessions[sid].(phase := phase)]
  }

  // One function per component: what the step does to it

  ghost function NextRows(cons: Consumers, s: State, l: Label): Outbox.Table
    requires Enabled(cons, s, l)
  {
    match l
    case Enqueue(topic, key, event, headers) =>
      s.rows[event.id := Outbox.NewRow(topic, key, event, headers, s.now)]
    case ClaimBatch(ids, worker, lease) => Outbox.ClaimRows(s.rows, ids, worker, s.now)
    case MarkPublished(claim) => s.rows[claim.id := Outbox.Published(s.rows[claim.id], s.now)]
    case MarkFailed(claim, delay) => s.rows[claim.id := Outbox.Failed(s.rows[claim.id], s.now + delay)]
    case _ => s.rows
  }

  ghost function NextOpen(cons: Consumers, s: State, l: Label): set<Claim>
    requires Enabled(cons, s, l)
  {
    match l
    case ClaimBatch(ids, worker, lease) => s.open + set id | id in ids :: Claim(id, s.rows[id].attempts + 1)
    case MarkPublished(claim) => s.open - {claim}
    case MarkFailed(claim, delay) => s.open - {claim}
    case RelayStops(claims) => s.open - claims
    case _ => s.open
  }

  ghost function NextLogs(cons: Consumers, s: State, l: Label): map<Partition, seq<Entry>>
    requires Enabled(cons, s, l)
  {
    match Written(cons, s, l)
    case None => s.logs
    case Some(w) => Append(s, w.0, w.1)
  }

  function NextCommitted(s: State, l: Label): map<(string, Partition), nat> {
    if l.Commit? && l.sid in s.sessions then
      var ses := s.sessions[l.sid];
      s.committed[(ses.consumer, ses.partition) := ses.offset + 1]
    else s.committed
  }

  /** The inbox transaction of a handling session. */
  ghost function Attempted(cons: Consumers, s: State, sid: nat, cond: Consumer.Conditions)
    : (Inbox.State, Consumer.Outcome)
    requires InSession(s, sid) && s.sessions[sid].consumer in cons
  {
    Consumer.Attempt(cons[s.sessions[sid].consumer], s.inbox, At(s, Current(s, sid)).message, cond)
  }

  ghost function NextInbox(cons: Consumers, s: State, l: Label): Inbox.State
    requires Enabled(cons, s, l)
  {
    if l.Handle? then Attempted(cons, s, l.sid, l.cond).0 else s.inbox
  }

  ghost function NextSessions(cons: Consumers, s: State, l: Label): map<nat, Session>
    requires Enabled(cons, s, l)
  {
    match l
    case Begin(sid, consumer, partition) =>
      s.sessions[sid := Session(consumer, partition, CommittedOffset(s, consumer, partition), Ready)]
    case Handle(sid, cond) =>
      var outcome := Attempted(cons, s, sid, cond).1;
      InPhase(s, sid, if outcome.Settled? then Handled else Failing(outcome.kind))
    case Forward(sid, index, acked, _) => if acked then InPhase(s, sid, Handled) else s.sessions - {sid}
    case Commit(sid) =>
      var ses := s.sessions[sid];
      s.sessions[sid := Session(ses.consumer, ses.partition, ses.offset + 1, Ready)]
    case SessionStops(sid) => s.sessions - {sid}
    case _ => s.sessions
  }

  ghost function Step(cons: Consumers, s: State, l: Label): State
    requires Enabled(cons, s, l)
  {
    State(
      if l.Tick? then l.to else s.now,
      NextRows(cons, s, l),
      NextOpen(cons, s, l),
      if l.Land? then s.landed + {l.claim} else s.landed,
      NextLogs(cons, s, l),
      NextCommitted(s, l),
      NextInbox(cons, s, l),
      NextSessions(cons, s, l))
  }

  /** States and the labels between them. */
  ghost predicate IsRun(cons: Consumers, states: seq<State>, labels: seq<Label>) {
    && |states| == |labels| + 1
    && forall i :: 0 <= i < |labels| ==>
         Enabled(cons, states[i], labels[i]) && states[i + 1] == Step(cons, states[i], labels[i])
  }

  ghost predicate Reachable(cons: Consumers, s: State) {
    exists states, labels :: IsRun(cons, states, labels) && states[0] == INIT && states[|states| - 1] == s
  }

  // Everything only grows

  ghost predicate Grown(s: State, t: State) {
    && (forall p :: Log(s, p) <= Log(t, p))
    && s.inbox.processed <= t.inbox.processed
    && s.inbox.effects <= t.inbox.effects
    && s.landed <= t.landed
    && (forall id :: id in s.rows ==> id in t.rows && RowGrown(s.rows[id], t.rows[id]))
  }

  ghost predicate RowGrown(a: Outbox.Row, b: Outbox.Row) {
    && a.topic == b.topic && a.key == b.key && a.event == b.event && a.headers == b.headers
    && a.maxAttempts == b.maxAttempts && a.attempts <= b.attempts
    && (a.publishedAt.Some? ==> b.publishedAt.Some? && b.attempts == a.attempts)
  }

  lemma StepGrows(cons: Consumers, s: State, l: Label)
    requires Enabled(cons, s, l)
    ensures Grown(s, Step(cons, s, l))
  {
    var t := Step(cons, s, l);
    match l
    case Handle(sid, cond) =>
      var m := At(s, Current(s, sid)).message;
      var cfg := cons[s.sessions[sid].consumer];
      assert t.inbox == Consumer.Attempt(cfg, s.inbox, m, cond).0;
      assert t.inbox == s.inbox || t.inbox == Inbox.Commit(s.inbox, cfg.name, Decode(m.value).value);
    case _ =>
  }

  /** An entry after a step is an entry from before it, or the one the step wrote. */
  lemma StepEntries(cons: Consumers, s: State, l: Label, pos: Position)
    requires Enabled(cons, s, l) && Has(Step(cons, s, l), pos)
    ensures var t := Step(cons, s, l);
      if Has(s, pos) then At(t, pos) == At(s, pos)
      else Written(cons, s, l) == Some((pos.partition, At(t, pos))) && pos.offset == |Log(s, pos.partition)|
  {
  }
}
