/** One consumer: handle a record, and forward it to a retry or dead-letter topic when it fails. */
module Consumer {
  import opened Collections
  import opened Text
  import opened Headers
  import opened Events
  import opened Options
  import opened Kafka
  import Inbox

  /** `sources` are the source topics its client subscribes to, besides their retry topics. */
  datatype Config = Config(
    name: string,
    maxAttempts: int,
    retryDelays: seq<int>,
    handlers: set<string>,
    sources: set<string>
  )

  const MINUTE := 60_000_000_000

  /** What `NewConsumer` makes of its configuration. */
  function Defaults(cfg: Config): (r: Config)
    ensures WellFormed(r) && (WellFormed(cfg) ==> r == cfg)
  {
    var attempts := if cfg.maxAttempts < 1 then 4 else cfg.maxAttempts;
    var delays := if cfg.retryDelays == [] then [MINUTE, 10 * MINUTE, 60 * MINUTE] else cfg.retryDelays;
    cfg.(maxAttempts := attempts, retryDelays := delays)
  }

  predicate WellFormed(cfg: Config) {
    cfg.maxAttempts >= 1 && cfg.retryDelays != []
  }

  /** A database failure around the inbox transaction, invisible or not to the tables. */
  datatype Fault = NoFault | RolledBack | CommitAckLost

  /** What the world answers while one record is handled. */
  datatype Conditions = Conditions(schema: Inbox.Verdict, handler: Inbox.Verdict, fault: Fault)

  datatype Outcome = Settled | Failed(kind: FailureClass)

  function Attempt(cfg: Config, st: Inbox.State, msg: Message, cond: Conditions): (Inbox.State, Outcome) {
    match Decode(msg.value)
    case None => (st, Failed(Permanent))
    case Some(e) =>
      if cond.schema.Fails? then (st, Failed(cond.schema.kind))
      else if e.eventType !in cfg.handlers then (st, Failed(Permanent))
      else if cond.fault.RolledBack? then (st, Failed(Transient))
      else
        var (after, result) := Inbox.Transact(st, cfg.name, e, cond.handler);
        match result
        case Applied => (after, if cond.fault.CommitAckLost? then Failed(Transient) else Settled)
        case Duplicate => (after, Settled)
        case Stale => (after, Settled)
        case Failed(kind) => (after, Failed(kind))
  }

  function RetryAttemptOf(msg: Message): int {
    Atoi(HeaderValue(msg.headers, RetryAttempt))
  }

  function NextAttempt(msg: Message): int {
    Wrap64(RetryAttemptOf(msg) + 1)
  }

  function SourceOf(msg: Message): string {
    var source := HeaderValue(msg.headers, SourceTopic);
    if source != "" then source else msg.topic
  }

  /** None is the index-out-of-range panic of the slice access. */
  function RetryDelay(cfg: Config, attempt: int): Option<int>
    requires WellFormed(cfg)
  {
    var index := Wrap64(attempt - 1);
    if index >= |cfg.retryDelays| then Some(cfg.retryDelays[|cfg.retryDelays| - 1])
    else if index < 0 then None
    else Some(cfg.retryDelays[index])
  }

  datatype Route = ToRetry(attempt: int, delay: int) | ToDLQ(attempt: int) | Panic

  function Choose(cfg: Config, msg: Message, kind: FailureClass): Route
    requires WellFormed(cfg)
  {
    var attempt := NextAttempt(msg);
    if kind.Permanent? || attempt >= cfg.maxAttempts then ToDLQ(attempt)
    else match RetryDelay(cfg, attempt)
      case None => Panic
      case Some(delay) => ToRetry(attempt, delay)
  }

  /** Timestamps are written in decimal. */
  function Stamp(now: int): (s: string)
    ensures s != ""
  {
    Itoa(now)
  }

  /** The headers every failure writes, in the order the code writes them. */
  function AttemptHeaders(cfg: Config, msg: Message, attempt: int, now: int): seq<Header> {
    var h1 := SetHeader(msg.headers, Key.RetryAttempt, Itoa(attempt));
    var h2 := SetHeader(h1, Key.SourceTopic, SourceOf(msg));
    var h3 := SetHeader(h2, FailedConsumer, cfg.name);
    SetHeader(h3, LastFailedAt, Stamp(now))
  }

  function FailureHeaders(cfg: Config, msg: Message, attempt: int, kind: FailureClass, now: int, delay: int)
    : seq<Header>
  {
    var h4 := AttemptHeaders(cfg, msg, attempt, now);
    var h5 := if HeaderValue(msg.headers, FirstFailedAt) == "" then SetHeader(h4, FirstFailedAt, Stamp(now)) else h4;
    var h6 := SetHeader(h5, Key.ErrorClass, ClassName(kind));
    if delay > 0 then SetHeader(h6, NotBefore, Stamp(now + delay)) else h6
  }

  function FailureMessage(cfg: Config, msg: Message, topic: string, attempt: int, kind: FailureClass, now: int,
                          delay: int): Message
  {
    Message(topic, msg.key, msg.value, FailureHeaders(cfg, msg, attempt, kind, now, delay))
  }

  /** The record that a failed attempt leaves behind, None on a panic. */
  function Forwarded(cfg: Config, msg: Message, kind: FailureClass, now: int): Option<Message>
    requires WellFormed(cfg)
  {
    match Choose(cfg, msg, kind)
    case Panic => None
    case ToDLQ(attempt) =>
      Some(FailureMessage(cfg, msg, DLQTopic(SourceOf(msg), cfg.name), attempt, kind, now, 0))
    case ToRetry(attempt, delay) =>
      Some(FailureMessage(cfg, msg, RetryTopic(SourceOf(msg), cfg.name), attempt, kind, now, delay))
  }

  // What these functions mean

  /** The slice access panics exactly on the attempt numbers that only a foreign header can carry. */
  lemma RetryDelayPanicsIff(cfg: Config, attempt: int)
    requires WellFormed(cfg) && MIN_INT64 <= attempt <= MAX_INT64
    ensures RetryDelay(cfg, attempt) == None <==> MIN_INT64 < attempt < 1
    ensures 1 <= attempt < |cfg.retryDelays| ==> RetryDelay(cfg, attempt) == Some(cfg.retryDelays[attempt - 1])
    ensures |cfg.retryDelays| <= attempt ==> RetryDelay(cfg, attempt) == Some(cfg.retryDelays[|cfg.retryDelays| - 1])
  {
    if attempt == MIN_INT64 {
      assert Wrap64(attempt - 1) == MAX_INT64;
    }
  }

  lemma AttemptHeadersMeaning(cfg: Config, msg: Message, attempt: int, now: int)
    requires UniqueKeys(msg.headers)
    ensures var hs := AttemptHeaders(cfg, msg, attempt, now);
      && UniqueKeys(hs)
      && HeaderValue(hs, Key.RetryAttempt) == Itoa(attempt)
      && HeaderValue(hs, Key.SourceTopic) == SourceOf(msg)
      && HeaderValue(hs, FailedConsumer) == cfg.name
      && HeaderValue(hs, LastFailedAt) == Stamp(now)
      && forall k: Key :: k.FirstFailedAt? || k.ErrorClass? || k.NotBefore? || k.Other? ==>
           HeaderValue(hs, k) == HeaderValue(msg.headers, k)
  {
    var h1 := SetHeader(msg.headers, Key.RetryAttempt, Itoa(attempt));
    SetThenGet(msg.headers, Key.RetryAttempt, Itoa(attempt));
    var h2 := SetHeader(h1, Key.SourceTopic, SourceOf(msg));
    SetThenGet(h1, Key.SourceTopic, SourceOf(msg));
    var h3 := SetHeader(h2, FailedConsumer, cfg.name);
    SetThenGet(h2, FailedConsumer, cfg.name);
    SetThenGet(h3, LastFailedAt, Stamp(now));
  }

  /** The headers of a forwarded record, key by key. */
  lemma FailureHeadersMeaning(cfg: Config, msg: Message, attempt: int, kind: FailureClass, now: int, delay: int)
    requires UniqueKeys(msg.headers)
    ensures var hs := FailureHeaders(cfg, msg, attempt, kind, now, delay);
      && UniqueKeys(hs)
      && HeaderValue(hs, Key.RetryAttempt) == Itoa(attempt)
      && HeaderValue(hs, Key.SourceTopic) == SourceOf(msg)
      && HeaderValue(hs, FailedConsumer) == cfg.name
      && HeaderValue(hs, LastFailedAt) == Stamp(now)
      && HeaderValue(hs, Key.ErrorClass) == ClassName(kind)
      && HeaderValue(hs, FirstFailedAt) ==
           (if HeaderValue(msg.headers, FirstFailedAt) == "" then Stamp(now)
             else HeaderValue(msg.headers, FirstFailedAt))
      && HeaderValue(hs, NotBefore) == (if delay > 0 then Stamp(now + delay) else HeaderValue(msg.headers, NotBefore))
      && forall name :: HeaderValue(hs, Other(name)) == HeaderValue(msg.headers, Other(name))
  {
    AttemptHeadersMeaning(cfg, msg, attempt, now);
    var h4 := AttemptHeaders(cfg, msg, attempt, now);
    var h5 := if HeaderValue(msg.headers, FirstFailedAt) == "" then SetHeader(h4, FirstFailedAt, Stamp(now)) else h4;
    SetThenGet(h4, FirstFailedAt, Stamp(now));
    var h6 := SetHeader(h5, Key.ErrorClass, ClassName(kind));
    SetThenGet(h5, Key.ErrorClass, ClassName(kind));
    SetThenGet(h6, NotBefore, Stamp(now + delay));
  }

  /** A settled event is in the inbox or older than one that is; a failed one may still have committed. */
  lemma AttemptMeaning(cfg: Config, st: Inbox.State, msg: Message, cond: Conditions)
    requires Inbox.Inv(st)
    ensures var (after, outcome) := Attempt(cfg, st, msg, cond);
      && Inbox.Inv(after)
      && st.processed <= after.processed && st.effects <= after.effects
      && (outcome.Settled? ==> msg.value.Encoded? && Valid(msg.value.event))
      && (outcome.Settled? ==>
           (cfg.name, msg.value.event.id) in after.processed || Inbox.Superseded(after, cfg.name, msg.value.event))
  {
    if Decode(msg.value).Some? {
      Inbox.ProcessKeepsInv(st, cfg.name, msg.value.event, cond.handler);
      Inbox.ProcessMeaning(st, cfg.name, msg.value.event, cond.handler);
    }
  }

  // The code

  datatype HandleResult = Done | Error | Panicked

  /** Inputs that decide one call of `handle`. */
  datatype Script = Script(cond: Conditions, fate: Fate, now: int)

  /** One call of `handle`: the inbox it leaves, what it appends to the log, and its result. */
  function Handling(cfg: Config, st: Inbox.State, msg: Message, script: Script)
    : (Inbox.State, seq<Message>, HandleResult)
    requires WellFormed(cfg)
  {
    var (after, outcome) := Attempt(cfg, st, msg, script.cond);
    match outcome
    case Settled => (after, [], Done)
    case Failed(kind) =>
      match Forwarded(cfg, msg, kind, script.now)
      case None => (after, [], Panicked)
      case Some(copy) =>
        (after, if script.fate.Dropped? then [] else [copy], if script.fate.Acked? then Done else Error)
  }

  /** What an attempt ends in, by what it met: a value that is no event, a schema failure, an unknown type, a lost
      database, an event handled or superseded before, and last the handler. */
  lemma AttemptAnswers(cfg: Config, st: Inbox.State, msg: Message, cond: Conditions)
    requires Inbox.Inv(st)
    ensures var (after, outcome) := Attempt(cfg, st, msg, cond);
      && (!(msg.value.Encoded? && Valid(msg.value.event)) ==> outcome == Failed(Permanent) && after == st)
      && (msg.value.Encoded? && Valid(msg.value.event) ==>
           var e := msg.value.event;
           var known := Inbox.Superseded(st, cfg.name, e) || Inbox.HasEffect(st.effects, cfg.name, e.id);
           && (forall k :: cond.schema == Inbox.Fails(k) ==> outcome == Failed(k) && after == st)
           && (cond.schema.Succeeds? && e.eventType !in cfg.handlers ==> outcome == Failed(Permanent) && after == st)
           && (cond.schema.Succeeds? && e.eventType in cfg.handlers ==>
                && (cond.fault.RolledBack? ==> outcome == Failed(Transient) && after == st)
                && (!cond.fault.RolledBack? && known ==> outcome == Settled && after == st)
                && (!cond.fault.RolledBack? && !known ==>
                     && (forall k :: cond.handler == Inbox.Fails(k) ==> outcome == Failed(k) && after == st)
                     && (cond.handler.Succeeds? ==>
                          && outcome == (if cond.fault.CommitAckLost? then Failed(Transient) else Settled)
                          && after.effects == st.effects + [Inbox.Effect(cfg.name, e)]))))
  {
    if msg.value.Encoded? && Valid(msg.value.event) {
      Inbox.ProcessAnswers(st, cfg.name, msg.value.event, cond.handler);
    }
  }

  /** The attempt number the failed record carries on, as its header says. */
  function Counted(msg: Message): int {
    Atoi(HeaderValue(msg.headers, Key.RetryAttempt))
  }

  /** Its source topic: the header's, or else the topic it was read from. */
  ghost predicate ComesFrom(msg: Message, source: string) {
    if HeaderValue(msg.headers, Key.SourceTopic) == "" then source == msg.topic
    else source == HeaderValue(msg.headers, Key.SourceTopic)
  }

  /** The one copy of a failed record: where it goes, and what its headers say. */
  ghost predicate IsCopy(cfg: Config, msg: Message, copy: Message, suffix: string, kind: FailureClass, now: int,
                         wait: int) {
    && copy.key == msg.key && copy.value == msg.value
    && (forall source :: ComesFrom(msg, source) ==> copy.topic == source + "." + cfg.name + suffix)
    && (UniqueKeys(msg.headers) ==>
         && HeaderValue(copy.headers, Key.ErrorClass) == (if kind == Permanent then "permanent" else "transient")
         && (Counted(msg) < MAX_INT64 ==> HeaderValue(copy.headers, Key.RetryAttempt) == Itoa(Counted(msg) + 1))
         && HeaderValue(copy.headers, NotBefore)
              == (if wait > 0 then Itoa(now + wait) else HeaderValue(msg.headers, NotBefore)))
  }

  /** Where a record goes. A permanent failure, and a transient one of the last attempt allowed, is put on the
      dead-letter topic with no wait of its own; any other transient one on the retry topic, with the configured wait
      of its attempt, or the last one configured. The call succeeds exactly when there is nothing to put or the put
      is acknowledged. */
  lemma HandlingRoutes(cfg: Config, st: Inbox.State, msg: Message, script: Script)
    requires WellFormed(cfg) && cfg.maxAttempts <= MAX_INT64
    ensures var (after, out, result) := Handling(cfg, st, msg, script);
      var outcome, n := Attempt(cfg, st, msg, script.cond).1, Counted(msg) + 1;
      && after == Attempt(cfg, st, msg, script.cond).0
      && (outcome.Settled? ==> out == [] && result.Done?)
      && (outcome == Failed(Transient) && MIN_INT64 < n < 1 ==> out == [] && result.Panicked?)
      && (outcome == Failed(Permanent) || (outcome == Failed(Transient) && cfg.maxAttempts <= n <= MAX_INT64) ==>
           && result == (if script.fate.Acked? then Done else Error)
           && (if script.fate.Dropped? then out == [] else
                |out| == 1 && IsCopy(cfg, msg, out[0], ".dlq.v1", outcome.kind, script.now, 0)))
      && (outcome == Failed(Transient) && 1 <= n < cfg.maxAttempts ==>
           var wait := cfg.retryDelays[(if n < |cfg.retryDelays| then n else |cfg.retryDelays|) - 1];
           && result == (if script.fate.Acked? then Done else Error)
           && (if script.fate.Dropped? then out == [] else
                |out| == 1 && IsCopy(cfg, msg, out[0], ".retry.v1", Transient, script.now, wait)))
  {
    var outcome, n := Attempt(cfg, st, msg, script.cond).1, Counted(msg) + 1;
    if outcome == Failed(Permanent) || (outcome == Failed(Transient) && cfg.maxAttempts <= n <= MAX_INT64) {
      DeadLetterRoute(cfg, msg, outcome.kind, script.now);
    } else if outcome == Failed(Transient) && 1 <= n < cfg.maxAttempts {
      RetryRoute(cfg, msg, script.now);
    } else if outcome == Failed(Transient) {
      HandlePanicsIff(cfg, st, msg, script);
    }
  }

  lemma DeadLetterRoute(cfg: Config, msg: Message, kind: FailureClass, now: int)
    requires WellFormed(cfg)
    requires kind.Permanent? || cfg.maxAttempts <= Counted(msg) + 1 <= MAX_INT64
    ensures Forwarded(cfg, msg, kind, now).Some?
    ensures IsCopy(cfg, msg, Forwarded(cfg, msg, kind, now).value, ".dlq.v1", kind, now, 0)
  {
    CopyMeaning(cfg, msg, DLQ_SUFFIX, NextAttempt(msg), kind, now, 0);
  }

  lemma RetryRoute(cfg: Config, msg: Message, now: int)
    requires WellFormed(cfg) && cfg.maxAttempts <= MAX_INT64 && 1 <= Counted(msg) + 1 < cfg.maxAttempts
    ensures Forwarded(cfg, msg, Transient, now).Some?
    ensures var n := Counted(msg) + 1;
      IsCopy(cfg, msg, Forwarded(cfg, msg, Transient, now).value, ".retry.v1", Transient, now,
        cfg.retryDelays[(if n < |cfg.retryDelays| then n else |cfg.retryDelays|) - 1])
  {
    RetryChoice(cfg, msg);
    var wait := Choose(cfg, msg, Transient).delay;
    CopyMeaning(cfg, msg, RETRY_SUFFIX, NextAttempt(msg), Transient, now, wait);
  }

  lemma RetryChoice(cfg: Config, msg: Message)
    requires WellFormed(cfg) && cfg.maxAttempts <= MAX_INT64 && 1 <= Counted(msg) + 1 < cfg.maxAttempts
    ensures var n := Counted(msg) + 1;
      && NextAttempt(msg) == n
      && Choose(cfg, msg, Transient)
           == ToRetry(n, cfg.retryDelays[(if n < |cfg.retryDelays| then n else |cfg.retryDelays|) - 1])
  {
    RetryDelayPanicsIff(cfg, NextAttempt(msg));
  }

  /** With nothing configured that is: again after one, ten and sixty minutes, and then the dead-letter topic. */
  lemma DefaultRoutes(raw: Config, st: Inbox.State, msg: Message, script: Script)
    requires raw.maxAttempts < 1 && raw.retryDelays == [] && script.fate.Acked? && 0 <= Counted(msg) < MAX_INT64
    ensures var cfg := Defaults(raw);
      var (_, out, _) := Handling(cfg, st, msg, script);
      && cfg.name == raw.name && cfg.handlers == raw.handlers && cfg.sources == raw.sources
      && (Attempt(raw, st, msg, script.cond).1 == Failed(Transient) ==>
           && |out| == 1
           && if Counted(msg) >= 3 then IsCopy(raw, msg, out[0], ".dlq.v1", Transient, script.now, 0)
              else IsCopy(raw, msg, out[0], ".retry.v1", Transient, script.now,
                60_000_000_000 * if Counted(msg) == 0 then 1 else if Counted(msg) == 1 then 10 else 60))
  {
    var cfg := Defaults(raw);
    assert Attempt(cfg, st, msg, script.cond) == Attempt(raw, st, msg, script.cond);
    HandlingRoutes(cfg, st, msg, script);
  }

  lemma CopyMeaning(cfg: Config, msg: Message, suffix: string, attempt: int, kind: FailureClass, now: int, wait: int)
    requires attempt == NextAttempt(msg)
    ensures var topic := SourceOf(msg) + "." + cfg.name + suffix;
      IsCopy(cfg, msg, FailureMessage(cfg, msg, topic, attempt, kind, now, wait), suffix, kind, now, wait)
  {
    if UniqueKeys(msg.headers) { FailureHeadersMeaning(cfg, msg, attempt, kind, now, wait); }
  }

  /** `handle` panics exactly when a transient failure meets a record whose attempt header, plus one, is below 1
      (and not the smallest integer): the code writes no such header, but it reads them. */
  lemma HandlePanicsIff(cfg: Config, st: Inbox.State, msg: Message, script: Script)
    requires WellFormed(cfg)
    ensures Handling(cfg, st, msg, script).2.Panicked? <==>
      Attempt(cfg, st, msg, script.cond).1 == Failed(Transient) && MIN_INT64 < NextAttempt(msg) < 1
  {
    RetryDelayPanicsIff(cfg, NextAttempt(msg));
  }

  lemma NextOfMinusFive(topic: string, key: string, value: Payload)
    ensures NextAttempt(Message(topic, key, value, [Header(Key.RetryAttempt, "-5")])) == -4
  {
    var hs := [Header(Key.RetryAttempt, "-5")];
    ValueAtLastMatch(hs, Key.RetryAttempt, 0);
    assert "-5"[1..] == "5";
    assert Value("5") == 5 by { assert "5"[..0] == []; }
  }

  /** Any event whose handler fails transiently will do: with "-5" in its attempt header the consumer crashes, and so
      it will again on every redelivery. */
  lemma NegativeAttemptPanics(cfg: Config, st: Inbox.State, e: Event, key: string, topic: string, script: Script)
    requires WellFormed(cfg) && Valid(e) && e.eventType in cfg.handlers
    requires !Inbox.Rejected(st, cfg.name, e) && (cfg.name, e.id) !in st.processed
    requires script.cond == Conditions(Inbox.Succeeds, Inbox.Fails(Transient), NoFault)
    ensures var msg := Message(topic, key, Encoded(e), [Header(Key.RetryAttempt, "-5")]);
      Handling(cfg, st, msg, script) == (st, [], Panicked)
  {
    NextOfMinusFive(topic, key, Encoded(e));
    HandlePanicsIff(cfg, st, Message(topic, key, Encoded(e), [Header(Key.RetryAttempt, "-5")]), script);
  }

  // The poll loop

  /** Fate of one offset commit: done and confirmed, not done, or done although an error came back. */
  datatype CommitFate = Committed | NotCommitted | Unconfirmed

  /** What the loop meets for one record: a wait that may be cut short, the handling, and the offset commit. */
  datatype Turn = Turn(ready: bool, script: Script, commit: CommitFate)

  /** The inbox, what was appended to the log, by how many records the committed offset moved, and whether trouble
      ended the loop. */
  datatype Progress = Progress(inbox: Inbox.State, log: seq<Message>, committed: nat, stopped: bool)

  function Pass(cfg: Config, st: Inbox.State, msg: Message, turn: Turn): Progress
    requires WellFormed(cfg)
  {
    if !turn.ready then Progress(st, [], 0, true)
    else
      var (after, out, result) := Handling(cfg, st, msg, turn.script);
      if !result.Done? then Progress(after, out, 0, true)
      else Progress(after, out, if turn.commit.NotCommitted? then 0 else 1, !turn.commit.Committed?)
  }

  function Joined(a: Progress, b: Progress): Progress {
    Progress(b.inbox, a.log + b.log, a.committed + b.committed, b.stopped)
  }

  /** The records of one fetch, in order, up to the first trouble. */
  function Loop(cfg: Config, st: Inbox.State, msgs: seq<Message>, turns: seq<Turn>): Progress
    requires WellFormed(cfg) && |turns| == |msgs|
    decreases |msgs|
  {
    if msgs == [] then Progress(st, [], 0, false)
    else
      var one := Pass(cfg, st, msgs[0], turns[0]);
      if one.stopped then one else Joined(one, Loop(cfg, one.inbox, msgs[1..], turns[1..]))
  }

  lemma LoopFrom(cfg: Config, st: Inbox.State, msgs: seq<Message>, turns: seq<Turn>, n: nat)
    requires WellFormed(cfg) && |turns| == |msgs| && n < |msgs|
    ensures var one := Pass(cfg, st, msgs[n], turns[n]);
      Loop(cfg, st, msgs[n..], turns[n..]) ==
        if one.stopped then one else Joined(one, Loop(cfg, one.inbox, msgs[n + 1..], turns[n + 1..]))
  {
    assert msgs[n..][1..] == msgs[n + 1..] && turns[n..][1..] == turns[n + 1..];
  }

  lemma JoinedAgain(a: Progress, b: Progress, c: Progress)
    ensures Joined(a, Joined(b, c)) == Joined(Joined(a, b), c)
  {
    AppendAgain(a.log, b.log, c.log);
  }

  /** One more pass over the n-th record, after `done`. */
  lemma LoopStep(cfg: Config, whole: Progress, done: Progress, msgs: seq<Message>, turns: seq<Turn>, n: nat,
                 one: Progress)
    requires WellFormed(cfg) && |turns| == |msgs| && n < |msgs| && one == Pass(cfg, done.inbox, msgs[n], turns[n])
    requires whole == Joined(done, Loop(cfg, done.inbox, msgs[n..], turns[n..]))
    ensures whole == if one.stopped then Joined(done, one)
      else Joined(Joined(done, one), Loop(cfg, one.inbox, msgs[n + 1..], turns[n + 1..]))
    ensures one.committed <= 1 && (!one.stopped ==> one.committed == 1)
  {
    LoopFrom(cfg, done.inbox, msgs, turns, n);
    JoinedAgain(done, one, Loop(cfg, one.inbox, msgs[n + 1..], turns[n + 1..]));
  }

  ghost predicate CopiedTo(cfg: Config, m: Message, copy: Message) {
    && copy.key == m.key && copy.value == m.value
    && (copy.topic == RetryTopic(SourceOf(m), cfg.name) || copy.topic == DLQTopic(SourceOf(m), cfg.name))
  }

  ghost predicate SettledIn(cfg: Config, st: Inbox.State, m: Message) {
    && m.value.Encoded?
    && ((cfg.name, m.value.event.id) in st.processed || Inbox.Superseded(st, cfg.name, m.value.event))
  }

  ghost predicate CaredFor(cfg: Config, p: Progress, m: Message) {
    SettledIn(cfg, p.inbox, m) || exists j :: 0 <= j < |p.log| && CopiedTo(cfg, m, p.log[j])
  }

  ghost predicate Grown(st: Inbox.State, later: Inbox.State) {
    st.processed <= later.processed && st.effects <= later.effects
  }

  lemma SettledStays(cfg: Config, st: Inbox.State, later: Inbox.State, m: Message)
    requires SettledIn(cfg, st, m) && Grown(st, later)
    ensures SettledIn(cfg, later, m)
  {
    var e := m.value.event;
    if Inbox.Superseded(st, cfg.name, e) {
      var i :| 0 <= i < |st.effects| && Inbox.IsNewer(st.effects[i], cfg.name, e);
      assert Inbox.IsNewer(later.effects[i], cfg.name, e);
    }
  }

  /** `handle` returns no error only if the record is cared for. */
  lemma HandlingMeaning(cfg: Config, st: Inbox.State, m: Message, script: Script)
    requires WellFormed(cfg) && Inbox.Inv(st)
    ensures var (after, out, result) := Handling(cfg, st, m, script);
      && Inbox.Inv(after) && Grown(st, after)
      && (result.Done? ==> SettledIn(cfg, after, m) || (|out| == 1 && CopiedTo(cfg, m, out[0])))
  {
    AttemptMeaning(cfg, st, m, script.cond);
  }

  lemma PassMeaning(cfg: Config, st: Inbox.State, m: Message, turn: Turn)
    requires WellFormed(cfg) && Inbox.Inv(st)
    ensures var p := Pass(cfg, st, m, turn);
      && Inbox.Inv(p.inbox) && Grown(st, p.inbox) && p.committed <= 1 && (!p.stopped ==> p.committed == 1)
      && (p.committed == 1 ==> CaredFor(cfg, p, m))
  {
    HandlingMeaning(cfg, st, m, turn.script);
    var (after, out, result) := Handling(cfg, st, m, turn.script);
    if |out| == 1 && CopiedTo(cfg, m, out[0]) {
      assert CopiedTo(cfg, m, Pass(cfg, st, m, turn.(ready := true)).log[0]);
    }
  }

  lemma {:induction false} LoopGrows(cfg: Config, st: Inbox.State, msgs: seq<Message>, turns: seq<Turn>)
    requires WellFormed(cfg) && |turns| == |msgs| && Inbox.Inv(st)
    ensures var p := Loop(cfg, st, msgs, turns);
      && Grown(st, p.inbox) && p.committed <= |msgs|
      && (p.stopped <==> p.committed < |msgs| || (msgs != [] && turns[|msgs| - 1].commit.Unconfirmed?))
    decreases |msgs|
  {
    if msgs != [] {
      PassMeaning(cfg, st, msgs[0], turns[0]);
      var one := Pass(cfg, st, msgs[0], turns[0]);
      if !one.stopped { LoopGrows(cfg, one.inbox, msgs[1..], turns[1..]); }
    }
  }

  lemma CaredForJoined(cfg: Config, a: Progress, b: Progress, m: Message)
    requires (CaredFor(cfg, a, m) && Grown(a.inbox, b.inbox)) || CaredFor(cfg, b, m)
    ensures CaredFor(cfg, Joined(a, b), m)
  {
    var p := Joined(a, b);
    if CaredFor(cfg, b, m) {
      if !SettledIn(cfg, b.inbox, m) {
        var j :| 0 <= j < |b.log| && CopiedTo(cfg, m, b.log[j]);
        assert p.log[|a.log| + j] == b.log[j];
      }
    } else if SettledIn(cfg, a.inbox, m) {
      SettledStays(cfg, a.inbox, b.inbox, m);
    } else {
      var j :| 0 <= j < |a.log| && CopiedTo(cfg, m, a.log[j]);
      assert p.log[j] == a.log[j];
    }
  }

  /** The loop commits no offset past a record that is neither handled, nor superseded, nor copied to the consumer's
      retry or dead-letter topic. */
  lemma {:induction false} LoopMeaning(cfg: Config, st: Inbox.State, msgs: seq<Message>, turns: seq<Turn>, i: nat)
    requires WellFormed(cfg) && |turns| == |msgs| && Inbox.Inv(st)
    ensures var p := Loop(cfg, st, msgs, turns);
      i < p.committed ==> i < |msgs| && CaredFor(cfg, p, msgs[i])
    decreases |msgs|
  {
    if msgs != [] {
      PassMeaning(cfg, st, msgs[0], turns[0]);
      var one := Pass(cfg, st, msgs[0], turns[0]);
      if !one.stopped && i < Loop(cfg, st, msgs, turns).committed {
        var rest := Loop(cfg, one.inbox, msgs[1..], turns[1..]);
        LoopGrows(cfg, one.inbox, msgs[1..], turns[1..]);
        if i > 0 { LoopMeaning(cfg, one.inbox, msgs[1..], turns[1..], i - 1); }
        CaredForJoined(cfg, one, rest, msgs[i]);
      }
    }
  }

  /** The contents of polled records, which nobody writes to. */
  ghost predicate PolledAs(records: seq<Record>, msgs: seq<Message>)
    reads records, set r | r in records :: r.headers
  {
    |msgs| == |records| && forall i :: 0 <= i < |records| ==> msgs[i] == records[i].Polled()
  }

  class Worker {
    const cfg: Config
    const inbox: Inbox.Store
    const broker: Broker

    constructor (raw: Config, inbox: Inbox.Store, broker: Broker)
      ensures cfg == Defaults(raw) && WellFormed(cfg) && this.inbox == inbox && this.broker == broker
    {
      this.cfg := Defaults(raw);
      this.inbox, this.broker := inbox, broker;
    }

    method SourceTopicOf(record: Record) returns (topic: string)
      ensures topic == SourceOf(record.Polled())
    {
      topic := record.headers.Get(Key.SourceTopic);
      if topic == "" {
        topic := record.topic;
      }
    }

    /** Writes the failure headers into a clone, so the polled record keeps its own. */
    method PublishFailure(record: Record, topic: string, attempt: int, kind: FailureClass, delay: int, fate: Fate,
                          now: int)
      returns (ok: bool)
      modifies broker
      ensures ok <==> fate.Acked?
      ensures broker.log == old(broker.log) + (if fate.Dropped? then []
        else [FailureMessage(cfg, record.Polled(), topic, attempt, kind, now, delay)])
    {
      var headers := record.headers.Clone();
      headers.Set(Key.RetryAttempt, Itoa(attempt));
      var source := SourceTopicOf(record);
      headers.Set(Key.SourceTopic, source);
      headers.Set(FailedConsumer, cfg.name);
      headers.Set(LastFailedAt, Stamp(now));
      var first := record.headers.Get(FirstFailedAt);
      if first == "" {
        headers.Set(FirstFailedAt, Stamp(now));
      }
      headers.Set(Key.ErrorClass, ClassName(kind));
      if delay > 0 {
        headers.Set(NotBefore, Stamp(now + delay));
      }
      ok := broker.Publish(Message(topic, record.key, record.value, headers.items), fate);
    }

    /** Decode, validate, and run the handler in the inbox transaction. */
    method TryEvent(record: Record, cond: Conditions) returns (outcome: Outcome)
      modifies inbox
      ensures (inbox.Contents(), outcome) == Attempt(cfg, old(inbox.Contents()), record.Polled(), cond)
    {
      var decoded := Decode(record.value);
      if decoded.None? {
        return Failed(Permanent);
      }
      var e := decoded.value;
      if cond.schema.Fails? {
        return Failed(cond.schema.kind);
      }
      if e.eventType !in cfg.handlers {
        return Failed(Permanent);
      }
      if cond.fault.RolledBack? {
        return Failed(Transient);
      }
      var result := inbox.Process(cfg.name, e, cond.handler);
      match result {
        case Duplicate => outcome := Settled;
        case Stale => outcome := Settled;
        case Applied => outcome := if cond.fault.CommitAckLost? then Failed(Transient) else Settled;
        case Failed(kind) => outcome := Failed(kind);
      }
    }

    /** The second half of `handle`: where a failed record goes. */
    method Reroute(record: Record, kind: FailureClass, fate: Fate, now: int) returns (result: HandleResult)
      requires WellFormed(cfg)
      modifies broker
      ensures match Forwarded(cfg, record.Polled(), kind, now) {
        case None => result == Panicked && broker.log == old(broker.log)
        case Some(copy) =>
          && (result == if fate.Acked? then Done else Error)
          && broker.log == old(broker.log) + (if fate.Dropped? then [] else [copy])
      }
    {
      var raw := record.headers.Get(Key.RetryAttempt);
      var attempt := Wrap64(Atoi(raw) + 1);
      var source := SourceTopicOf(record);
      var ok: bool;
      ghost var msg := record.Polled();
      assert attempt == NextAttempt(msg) && source == SourceOf(msg);
      if kind.Permanent? || attempt >= cfg.maxAttempts {
        assert Choose(cfg, msg, kind) == ToDLQ(attempt);
        ok := PublishFailure(record, DLQTopic(source, cfg.name), attempt, kind, 0, fate, now);
      } else {
        var delay := RetryDelay(cfg, attempt);
        if delay.None? {
          assert Choose(cfg, msg, kind) == Panic;
          return Panicked;
        }
        assert Choose(cfg, msg, kind) == ToRetry(attempt, delay.value);
        ok := PublishFailure(record, RetryTopic(source, cfg.name), attempt, kind, delay.value, fate, now);
      }
      result := if ok then Done else Error;
    }

    method Handle(record: Record, script: Script) returns (result: HandleResult)
      requires WellFormed(cfg)
      modifies inbox, broker
      ensures var (after, out, result') := Handling(cfg, old(inbox.Contents()), record.Polled(), script);
        inbox.Contents() == after && broker.log == old(broker.log) + out && result == result'
    {
      var outcome := TryEvent(record, script.cond);
      if outcome.Settled? {
        return Done;
      }
      result := Reroute(record, outcome.kind, script.fate, script.now);
    }

    /** One pass of the inner loop of `Run`: wait, handle, commit. `moved` is what became of the offset. */
    method Take(record: Record, turn: Turn) returns (stopped: bool, moved: nat, ghost p: Progress)
      requires WellFormed(cfg)
      modifies inbox, broker
      ensures p == Pass(cfg, old(inbox.Contents()), record.Polled(), turn)
      ensures inbox.Contents() == p.inbox && broker.log == old(broker.log) + p.log
      ensures stopped == p.stopped && moved == p.committed
    {
      p := Pass(cfg, inbox.Contents(), record.Polled(), turn);
      if !turn.ready {
        return true, 0, p;
      }
      var result := Handle(record, turn.script);
      if !result.Done? {
        return true, 0, p;
      }
      moved := if turn.commit.NotCommitted? then 0 else 1;
      stopped := !turn.commit.Committed?;
    }

    /** One fetch of `Run`; `committed` counts the offsets that moved. */
    method Run(fetched: seq<Record>, turns: seq<Turn>, ghost msgs: seq<Message>)
      returns (committed: nat, stopped: bool)
      requires WellFormed(cfg) && |turns| == |fetched| && PolledAs(fetched, msgs)
      modifies inbox, broker
      ensures var p := Loop(cfg, old(inbox.Contents()), msgs, turns);
        && inbox.Contents() == p.inbox && broker.log == old(broker.log) + p.log
        && committed == p.committed && stopped == p.stopped
    {
      committed := 0;
      ghost var before := broker.log;
      ghost var whole := Loop(cfg, inbox.Contents(), msgs, turns);
      ghost var done := Progress(inbox.Contents(), [], 0, false);
      for i := 0 to |fetched|
        invariant PolledAs(fetched, msgs)
        invariant inbox.Contents() == done.inbox && broker.log == before + done.log && done.committed == committed
        invariant whole == Joined(done, Loop(cfg, done.inbox, msgs[i..], turns[i..])) && !done.stopped
      {
        var moved;
        ghost var one;
        stopped, moved, one := Take(fetched[i], turns[i]);
        LoopStep(cfg, whole, done, msgs, turns, i, one);
        AppendAgain(before, done.log, one.log);
        done := Joined(done, one);
        committed := committed + moved;
        if stopped {
          return;
        }
      }
      stopped := false;
    }
  }
}
