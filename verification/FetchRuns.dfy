/** A fetch of a consumer and one of the replay tool make only steps of the pipeline, alone or among others. */
module FetchRuns {
  import opened Headers
  import opened Kafka
  import opened Options
  import opened Pipeline
  import opened Simulation
  import Consumer
  import Events
  import Inbox
  import ReplayTool

  ghost predicate IsAt(s: State, p: Partition, offset: nat, m: Message) {
    Has(s, Position(p, offset)) && At(s, Position(p, offset)).message == m
  }

  /** The session is at work for a known consumer, and m is the record it has come to. */
  ghost predicate AtRecord(cons: Consumers, s: State, sid: nat, m: Message) {
    && sid in s.sessions && s.sessions[sid].consumer in cons
    && IsAt(s, s.sessions[sid].partition, s.sessions[sid].offset, m)
  }

  // What each part of a turn does to the shared state

  function Stopped(s: State, sid: nat): State {
    s.(sessions := s.sessions - {sid})
  }

  function AfterAttempt(s: State, sid: nat, inbox: Inbox.State, outcome: Consumer.Outcome, now: int): State
    requires sid in s.sessions
  {
    s.(now := now, inbox := inbox,
       sessions := InPhase(s, sid, if outcome.Settled? then Handled else Failing(outcome.kind)))
  }

  function AfterPublish(s: State, sid: nat, copy: Message, index: nat, fate: Fate): State
    requires sid in s.sessions
  {
    s.(logs := if fate.Dropped? then s.logs
         else Append(s, Partition(copy.topic, index), Entry(copy, Forwarded(Current(s, sid)))),
       sessions := if fate.Acked? then InPhase(s, sid, Handled) else s.sessions - {sid})
  }

  function AfterCommit(s: State, sid: nat, commit: Consumer.CommitFate): State
    requires sid in s.sessions
  {
    var ses := s.sessions[sid];
    s.(committed := if commit.NotCommitted? then s.committed
         else s.committed[(ses.consumer, ses.partition) := ses.offset + 1],
       sessions := if commit.Committed?
         then s.sessions[sid := ses.(offset := ses.offset + 1, phase := Ready)] else s.sessions - {sid})
  }

  lemma StopIsRun(cons: Consumers, s: State, sid: nat) returns (p: Path)
    requires sid in s.sessions
    ensures Leads(cons, s, p, Stopped(s, sid), [])
  {
    p := One(cons, s, SessionStops(sid));
    assert Step(cons, s, SessionStops(sid)) == Stopped(s, sid);
  }

  lemma AttemptIsRun(cons: Consumers, s: State, sid: nat, m: Message, script: Consumer.Script) returns (p: Path)
    requires AtRecord(cons, s, sid, m) && s.sessions[sid].phase.Ready? && s.now <= script.now
    ensures var (inbox, outcome) := Consumer.Attempt(cons[s.sessions[sid].consumer], s.inbox, m, script.cond);
      Leads(cons, s, p, AfterAttempt(s, sid, inbox, outcome, script.now), [])
  {
    var s1 := Step(cons, s, Tick(script.now));
    var first := One(cons, s, Tick(script.now));
    var l := Handle(sid, script.cond);
    assert At(s1, Current(s1, sid)).message == m;
    var second := One(cons, s1, l);
    p := Then(cons, s, first, s1, [], second, Step(cons, s1, l), []);
  }

  lemma PublishIsRun(cons: Consumers, s: State, sid: nat, m: Message, copy: Message, index: nat, fate: Fate, now: int)
    returns (p: Path)
    requires ValidConsumers(cons) && AtRecord(cons, s, sid, m) && s.sessions[sid].phase.Failing? && now <= s.now
    requires Consumer.Forwarded(cons[s.sessions[sid].consumer], m, s.sessions[sid].phase.kind, now) == Some(copy)
    ensures Leads(cons, s, p, AfterPublish(s, sid, copy, index, fate), if fate.Dropped? then [] else [copy])
  {
    if fate.Dropped? {
      p := StopIsRun(cons, s, sid);
    } else {
      assert At(s, Current(s, sid)).message == m;
      var l := Forward(sid, index, fate.Acked?, now);
      p := One(cons, s, l);
      assert Step(cons, s, l) == AfterPublish(s, sid, copy, index, fate);
    }
  }

  lemma CommitIsRun(cons: Consumers, s: State, sid: nat, commit: Consumer.CommitFate) returns (p: Path)
    requires sid in s.sessions && s.sessions[sid].phase.Handled?
    ensures Leads(cons, s, p, AfterCommit(s, sid, commit), [])
  {
    if commit.NotCommitted? {
      p := StopIsRun(cons, s, sid);
    } else {
      p := One(cons, s, Commit(sid));
      if commit.Unconfirmed? {
        var s1 := Step(cons, s, Commit(sid));
        var stop := StopIsRun(cons, s1, sid);
        p := Then(cons, s, p, s1, [], stop, Stopped(s1, sid), []);
        assert Stopped(s1, sid) == AfterCommit(s, sid, commit);
      }
    }
  }

  // A turn and a fetch that nobody interrupts

  function CfgOf(cons: Consumers, s: State, sid: nat): Consumer.Config
    requires sid in s.sessions && s.sessions[sid].consumer in cons
  {
    cons[s.sessions[sid].consumer]
  }

  function AfterTurn(cons: Consumers, s: State, sid: nat, m: Message, turn: Consumer.Turn, part: string -> nat): State
    requires sid in s.sessions && s.sessions[sid].consumer in cons && Consumer.WellFormed(CfgOf(cons, s, sid))
  {
    if !turn.ready then Stopped(s, sid)
    else
      var (inbox, outcome) := Consumer.Attempt(CfgOf(cons, s, sid), s.inbox, m, turn.script.cond);
      var tried := AfterAttempt(s, sid, inbox, outcome, turn.script.now);
      match outcome
      case Settled => AfterCommit(tried, sid, turn.commit)
      case Failed(kind) =>
        match Consumer.Forwarded(CfgOf(cons, s, sid), m, kind, turn.script.now)
        case None => Stopped(tried, sid)
        case Some(copy) =>
          var published := AfterPublish(tried, sid, copy, part(copy.key), turn.script.fate);
          if turn.script.fate.Acked? then AfterCommit(published, sid, turn.commit) else published
  }

  lemma RerouteIsRun(cons: Consumers, s: State, sid: nat, m: Message, turn: Consumer.Turn, copy: Message,
                     part: string -> nat) returns (p: Path)
    requires ValidConsumers(cons) && AtRecord(cons, s, sid, m) && s.sessions[sid].phase.Failing?
    requires turn.script.now <= s.now
    requires Consumer.Forwarded(CfgOf(cons, s, sid), m, s.sessions[sid].phase.kind, turn.script.now) == Some(copy)
    ensures var t := AfterPublish(s, sid, copy, part(copy.key), turn.script.fate);
      Leads(cons, s, p, if turn.script.fate.Acked? then AfterCommit(t, sid, turn.commit) else t,
        if turn.script.fate.Dropped? then [] else [copy])
  {
    var fate, out := turn.script.fate, if turn.script.fate.Dropped? then [] else [copy];
    p := PublishIsRun(cons, s, sid, m, copy, part(copy.key), fate, turn.script.now);
    if fate.Acked? {
      var t := AfterPublish(s, sid, copy, part(copy.key), fate);
      var last := CommitIsRun(cons, t, sid, turn.commit);
      p := Then(cons, s, p, t, out, last, AfterCommit(t, sid, turn.commit), []);
      assert out + [] == out;
    }
  }

  /** One pass of the consumer's loop is a run that appends what `Consumer.Pass` says. */
  lemma TurnIsRun(cons: Consumers, s: State, sid: nat, m: Message, turn: Consumer.Turn, part: string -> nat)
    returns (p: Path)
    requires ValidConsumers(cons) && AtRecord(cons, s, sid, m) && s.sessions[sid].phase.Ready?
    requires s.now <= turn.script.now
    ensures Leads(cons, s, p, AfterTurn(cons, s, sid, m, turn, part),
      Consumer.Pass(CfgOf(cons, s, sid), s.inbox, m, turn).log)
  {
    if !turn.ready {
      p := StopIsRun(cons, s, sid);
    } else {
      var (inbox, outcome) := Consumer.Attempt(CfgOf(cons, s, sid), s.inbox, m, turn.script.cond);
      var tried := AfterAttempt(s, sid, inbox, outcome, turn.script.now);
      var first := AttemptIsRun(cons, s, sid, m, turn.script);
      var rest, out := RestIsRun(cons, tried, sid, m, outcome, turn, part);
      p := Then(cons, s, first, tried, [], rest, AfterTurn(cons, s, sid, m, turn, part), out);
      assert [] + out == out;
    }
  }

  lemma RestIsRun(cons: Consumers, tried: State, sid: nat, m: Message, outcome: Consumer.Outcome, turn: Consumer.Turn,
                  part: string -> nat) returns (p: Path, out: seq<Message>)
    requires ValidConsumers(cons) && AtRecord(cons, tried, sid, m) && tried.now == turn.script.now
    requires tried.sessions[sid].phase == if outcome.Settled? then Handled else Failing(outcome.kind)
    ensures var copy := if outcome.Settled? then None
        else Consumer.Forwarded(CfgOf(cons, tried, sid), m, outcome.kind, turn.script.now);
      var t := if outcome.Settled? then AfterCommit(tried, sid, turn.commit)
        else if copy.None? then Stopped(tried, sid)
        else
          var published := AfterPublish(tried, sid, copy.value, part(copy.value.key), turn.script.fate);
          if turn.script.fate.Acked? then AfterCommit(published, sid, turn.commit) else published;
      Leads(cons, tried, p, t, out) && out == if copy.None? || turn.script.fate.Dropped? then [] else [copy.value]
  {
    out := [];
    if outcome.Settled? {
      p := CommitIsRun(cons, tried, sid, turn.commit);
    } else {
      var copy := Consumer.Forwarded(CfgOf(cons, tried, sid), m, outcome.kind, turn.script.now);
      if copy.None? {
        p := StopIsRun(cons, tried, sid);
      } else {
        p := RerouteIsRun(cons, tried, sid, m, turn, copy.value, part);
        out := if turn.script.fate.Dropped? then [] else [copy.value];
      }
    }
  }

  /** What a session did to the shared state, told by a `Consumer.Progress`: a session that met trouble is gone, and
      the offset moved by exactly the number of records committed. */
  ghost predicate Took(s: State, sid: nat, p: Consumer.Progress, t: State)
    requires sid in s.sessions
  {
    var ses := s.sessions[sid];
    && t.inbox == p.inbox && t.rows == s.rows
    && LogsGrow(s, t)
    && t.committed == (if p.committed == 0 then s.committed
         else s.committed[(ses.consumer, ses.partition) := ses.offset + p.committed])
    && (p.stopped <==> sid !in t.sessions)
    && (sid in t.sessions ==> t.sessions[sid] == ses.(offset := ses.offset + p.committed))
  }

  ghost predicate LogsGrow(s: State, t: State) {
    forall q :: Log(s, q) <= Log(t, q)
  }

  lemma {:induction false} RunGrows(cons: Consumers, states: seq<State>, labels: seq<Label>)
    requires IsRun(cons, states, labels)
    ensures LogsGrow(states[0], states[|labels|])
  {
    if labels != [] {
      var n := |labels| - 1;
      RunGrows(cons, states[..n + 1], labels[..n]);
      StepGrows(cons, states[n], labels[n]);
      GrownTwice(states[0], states[n], states[n + 1]);
    }
  }

  lemma GrownTwice(s: State, s1: State, t: State)
    requires LogsGrow(s, s1) && LogsGrow(s1, t)
    ensures LogsGrow(s, t)
  {
    forall q ensures Log(s, q) <= Log(t, q) {
      assert Log(s, q) <= Log(s1, q) && Log(s1, q) <= Log(t, q);
    }
  }

  /** `handle` returned no error. */
  ghost predicate Did(s: State, sid: nat, inbox: Inbox.State, t: State)
    requires sid in s.sessions
  {
    && t.inbox == inbox && t.rows == s.rows && t.committed == s.committed && LogsGrow(s, t)
    && sid in t.sessions && t.sessions[sid] == s.sessions[sid].(phase := Handled)
  }

  lemma CommitTook(s: State, sid: nat, inbox: Inbox.State, t: State, commit: Consumer.CommitFate, out: seq<Message>)
    requires sid in s.sessions && s.sessions[sid].phase.Ready? && Did(s, sid, inbox, t)
    ensures var moved := if commit.NotCommitted? then 0 else 1;
      Took(s, sid, Consumer.Progress(inbox, out, moved, !commit.Committed?), AfterCommit(t, sid, commit))
  {
    assert forall q :: Log(AfterCommit(t, sid, commit), q) == Log(t, q);
  }

  lemma PublishGrows(s: State, sid: nat, copy: Message, index: nat, fate: Fate)
    requires sid in s.sessions
    ensures LogsGrow(s, AfterPublish(s, sid, copy, index, fate))
  {
  }

  lemma AttemptGrows(s: State, sid: nat, inbox: Inbox.State, outcome: Consumer.Outcome, now: int)
    requires sid in s.sessions
    ensures LogsGrow(s, AfterAttempt(s, sid, inbox, outcome, now))
  {
    assert forall q :: Log(AfterAttempt(s, sid, inbox, outcome, now), q) == Log(s, q);
  }

  lemma RerouteTook(s: State, sid: nat, turn: Consumer.Turn, inbox: Inbox.State, kind: Events.FailureClass,
                    copy: Message, index: nat)
    requires sid in s.sessions && s.sessions[sid].phase.Ready?
    ensures var fate := turn.script.fate;
      var tried := AfterAttempt(s, sid, inbox, Consumer.Failed(kind), turn.script.now);
      var published := AfterPublish(tried, sid, copy, index, fate);
      var out := if fate.Dropped? then [] else [copy];
      if fate.Acked? then
        var moved := if turn.commit.NotCommitted? then 0 else 1;
        Took(s, sid, Consumer.Progress(inbox, out, moved, !turn.commit.Committed?),
          AfterCommit(published, sid, turn.commit))
      else Took(s, sid, Consumer.Progress(inbox, out, 0, true), published)
  {
    var fate := turn.script.fate;
    var tried := AfterAttempt(s, sid, inbox, Consumer.Failed(kind), turn.script.now);
    var published := AfterPublish(tried, sid, copy, index, fate);
    AttemptGrows(s, sid, inbox, Consumer.Failed(kind), turn.script.now);
    PublishGrows(tried, sid, copy, index, fate);
    GrownTwice(s, tried, published);
    if fate.Acked? {
      CommitTook(s, sid, inbox, published, turn.commit, [copy]);
    }
  }

  lemma TurnTook(cons: Consumers, s: State, sid: nat, m: Message, turn: Consumer.Turn, part: string -> nat)
    requires ValidConsumers(cons) && AtRecord(cons, s, sid, m) && s.sessions[sid].phase.Ready?
    ensures Took(s, sid, Consumer.Pass(CfgOf(cons, s, sid), s.inbox, m, turn), AfterTurn(cons, s, sid, m, turn, part))
  {
    if turn.ready {
      var (inbox, outcome) := Consumer.Attempt(CfgOf(cons, s, sid), s.inbox, m, turn.script.cond);
      AttemptGrows(s, sid, inbox, outcome, turn.script.now);
      var tried := AfterAttempt(s, sid, inbox, outcome, turn.script.now);
      match outcome
      case Settled => CommitTook(s, sid, inbox, tried, turn.commit, []);
      case Failed(kind) =>
        var copy := Consumer.Forwarded(CfgOf(cons, s, sid), m, kind, turn.script.now);
        if copy.Some? { RerouteTook(s, sid, turn, inbox, kind, copy.value, part(copy.value.key)); }
    }
  }

  lemma TookTwice(s: State, sid: nat, a: Consumer.Progress, s1: State, b: Consumer.Progress, t: State)
    requires sid in s.sessions && Took(s, sid, a, s1) && sid in s1.sessions && Took(s1, sid, b, t)
    ensures Took(s, sid, Consumer.Joined(a, b), t)
  {
    GrownTwice(s, s1, t);
  }

  /** The next records of the session's partition. */
  ghost predicate Upcoming(s: State, sid: nat, msgs: seq<Message>)
    requires sid in s.sessions
  {
    forall i :: 0 <= i < |msgs| ==> IsAt(s, s.sessions[sid].partition, s.sessions[sid].offset + i, msgs[i])
  }

  ghost predicate TurnsInOrder(now: int, turns: seq<Consumer.Turn>) {
    && (forall i :: 0 <= i < |turns| ==> now <= turns[i].script.now)
    && (forall i, j :: 0 <= i < j < |turns| ==> turns[i].script.now <= turns[j].script.now)
  }

  lemma StillUpcoming(s: State, sid: nat, msgs: seq<Message>, one: Consumer.Progress, t: State)
    requires sid in s.sessions && Took(s, sid, one, t) && sid in t.sessions && one.committed == 1
    requires msgs != [] && Upcoming(s, sid, msgs)
    ensures Upcoming(t, sid, msgs[1..])
  {
    var ses := s.sessions[sid];
    forall i | 0 <= i < |msgs[1..]| ensures IsAt(t, ses.partition, t.sessions[sid].offset + i, msgs[1..][i]) {
      assert IsAt(s, ses.partition, ses.offset + (i + 1), msgs[i + 1]);
      assert Log(s, ses.partition) <= Log(t, ses.partition);
    }
  }

  /** A fetch from one partition that nobody interrupts is a run: same inbox, same copies in order, and the committed
      offset moves by exactly the number of records the loop counts. */
  lemma {:induction false} LoopIsRun(
    cons: Consumers, s: State, sid: nat, msgs: seq<Message>, turns: seq<Consumer.Turn>, part: string -> nat)
    returns (p: Path, t: State)
    requires ValidConsumers(cons) && sid in s.sessions && s.sessions[sid].phase.Ready?
    requires s.sessions[sid].consumer in cons
    requires |turns| == |msgs| && Upcoming(s, sid, msgs) && TurnsInOrder(s.now, turns)
    ensures var all := Consumer.Loop(CfgOf(cons, s, sid), s.inbox, msgs, turns);
      Leads(cons, s, p, t, all.log) && Took(s, sid, all, t)
    decreases |msgs|
  {
    if msgs == [] {
      p := Stay(cons, s);
      t := s;
    } else {
      var one := Consumer.Pass(CfgOf(cons, s, sid), s.inbox, msgs[0], turns[0]);
      assert IsAt(s, s.sessions[sid].partition, s.sessions[sid].offset + 0, msgs[0]);
      p := TurnIsRun(cons, s, sid, msgs[0], turns[0], part);
      t := AfterTurn(cons, s, sid, msgs[0], turns[0], part);
      TurnTook(cons, s, sid, msgs[0], turns[0], part);
      if !one.stopped {
        var s1 := t;
        StillUpcoming(s, sid, msgs, one, s1);
        var rest;
        rest, t := LoopIsRun(cons, s1, sid, msgs[1..], turns[1..], part);
        var more := Consumer.Loop(CfgOf(cons, s, sid), one.inbox, msgs[1..], turns[1..]);
        TookTwice(s, sid, one, s1, more, t);
        p := Then(cons, s, p, s1, one.log, rest, t, more.log);
      }
    }
  }

  // A fetch among others, from any number of partitions

  /** A step of somebody else: none of the sessions `mine` takes it. */
  predicate Leaves(l: Label, mine: seq<nat>) {
    match l
    case Begin(sid, _, _) => sid !in mine
    case Handle(sid, _) => sid !in mine
    case Forward(sid, _, _, _) => sid !in mine
    case Commit(sid) => sid !in mine
    case SessionStops(sid) => sid !in mine
    case _ => true
  }

  /** Any run of relays, producers, operators and other consumer processes, which may read the same partitions. */
  ghost predicate OtherSteps(cons: Consumers, s: State, mine: seq<nat>, t: State) {
    exists p, out :: Leads(cons, s, p, t, out) && forall i :: 0 <= i < |p.labels| ==> Leaves(p.labels[i], mine)
  }

  /** What other steps leave alone. */
  ghost predicate Kept(s: State, mine: seq<nat>, t: State) {
    && LogsGrow(s, t) && s.now <= t.now
    && forall sid :: sid in mine ==>
         (sid in t.sessions <==> sid in s.sessions) && (sid in s.sessions ==> t.sessions[sid] == s.sessions[sid])
  }

  lemma StepKeeps(cons: Consumers, s: State, l: Label, mine: seq<nat>)
    requires Enabled(cons, s, l) && Leaves(l, mine)
    ensures Kept(s, mine, Step(cons, s, l))
  {
    StepGrows(cons, s, l);
  }

  lemma KeptTwice(s: State, s1: State, t: State, mine: seq<nat>)
    requires Kept(s, mine, s1) && Kept(s1, mine, t)
    ensures Kept(s, mine, t)
  {
    GrownTwice(s, s1, t);
  }

  lemma {:induction false} RunKeeps(cons: Consumers, states: seq<State>, labels: seq<Label>, mine: seq<nat>)
    requires IsRun(cons, states, labels) && forall i :: 0 <= i < |labels| ==> Leaves(labels[i], mine)
    ensures Kept(states[0], mine, states[|labels|])
  {
    if labels != [] {
      var n := |labels| - 1;
      RunKeeps(cons, states[..n + 1], labels[..n], mine);
      StepKeeps(cons, states[n], labels[n], mine);
      KeptTwice(states[0], states[n], states[n + 1], mine);
    }
  }

  lemma OthersKeep(cons: Consumers, s: State, mine: seq<nat>, t: State)
    requires Reachable(cons, s) && OtherSteps(cons, s, mine, t)
    ensures Reachable(cons, t) && Kept(s, mine, t)
  {
    var p, out :| Leads(cons, s, p, t, out) && forall i :: 0 <= i < |p.labels| ==> Leaves(p.labels[i], mine);
    StillReachable(cons, s, p, t, out);
    RunKeeps(cons, p.states, p.labels, mine);
  }

  /** The states a turn meets: when its inbox transaction runs, when its copy is published, when its offset is
      committed. */
  datatype Meetings = Meetings(tried: State, published: State, committed: State)

  /** The commit that ends a turn. */
  ghost predicate CommitAmong(cons: Consumers, s: State, mine: seq<nat>, sid: nat, turn: Consumer.Turn, w: Meetings,
                              t: State) {
    && OtherSteps(cons, s, mine, w.committed) && sid in w.committed.sessions
    && t == AfterCommit(w.committed, sid, turn.commit)
  }

  ghost predicate RestAmong(cons: Consumers, s: State, mine: seq<nat>, sid: nat, m: Message, outcome: Consumer.Outcome,
                            turn: Consumer.Turn, part: string -> nat, w: Meetings, t: State)
    requires sid in s.sessions && s.sessions[sid].consumer in cons && Consumer.WellFormed(CfgOf(cons, s, sid))
  {
    && OtherSteps(cons, s, mine, w.published) && sid in w.published.sessions
    && match outcome
       case Settled => CommitAmong(cons, w.published, mine, sid, turn, w, t)
       case Failed(kind) =>
         match Consumer.Forwarded(CfgOf(cons, s, sid), m, kind, turn.script.now)
         case None => t == Stopped(w.published, sid)
         case Some(copy) =>
           var u := AfterPublish(w.published, sid, copy, part(copy.key), turn.script.fate);
           if turn.script.fate.Acked? then CommitAmong(cons, u, mine, sid, turn, w, t) else t == u
  }

  /** One turn on record m, with anything the others do before its transaction, its publish and its commit. */
  ghost predicate TurnAmong(cons: Consumers, s: State, mine: seq<nat>, sid: nat, m: Message, turn: Consumer.Turn,
                            part: string -> nat, w: Meetings, t: State) {
    && OtherSteps(cons, s, mine, w.tried) && sid in w.tried.sessions && w.tried.sessions[sid].consumer in cons
    && Consumer.WellFormed(CfgOf(cons, w.tried, sid))
    && if !turn.ready then t == Stopped(w.tried, sid)
       else
         var (inbox, outcome) := Consumer.Attempt(CfgOf(cons, w.tried, sid), w.tried.inbox, m, turn.script.cond);
         && w.tried.now <= turn.script.now
         && RestAmong(cons, AfterAttempt(w.tried, sid, inbox, outcome, turn.script.now), mine, sid, m, outcome, turn,
              part, w, t)
  }

  lemma CommitAmongIsRun(cons: Consumers, s: State, mine: seq<nat>, sid: nat, turn: Consumer.Turn, w: Meetings,
                         t: State)
    requires Reachable(cons, s) && sid in mine && CommitAmong(cons, s, mine, sid, turn, w, t)
    requires sid in s.sessions && s.sessions[sid].phase.Handled?
    ensures Reachable(cons, t) && MovedOn(s, mine, sid, t)
  {
    OthersKeep(cons, s, mine, w.committed);
    var p := CommitIsRun(cons, w.committed, sid, turn.commit);
    StillReachable(cons, w.committed, p, t, []);
    RunGrows(cons, p.states, p.labels);
    GrownTwice(s, w.committed, t);
  }

  /** The session is gone, or has come to its next record; the others of this process are where they were. */
  ghost predicate MovedOn(s: State, mine: seq<nat>, sid: nat, t: State) {
    && LogsGrow(s, t)
    && (sid in t.sessions ==>
         sid in s.sessions && t.sessions[sid] == s.sessions[sid].(offset := s.sessions[sid].offset + 1, phase := Ready))
    && forall other :: other in mine && other != sid && other in t.sessions ==>
         other in s.sessions && t.sessions[other] == s.sessions[other]
  }

  lemma KeptMovedOn(s: State, s1: State, t: State, mine: seq<nat>, sid: nat)
    requires Kept(s, mine, s1) && MovedOn(s1, mine, sid, t) && sid in mine
    ensures MovedOn(s, mine, sid, t)
  {
    GrownTwice(s, s1, t);
  }

  lemma StillAt(cons: Consumers, s: State, mine: seq<nat>, sid: nat, m: Message, t: State)
    requires AtRecord(cons, s, sid, m) && Kept(s, mine, t) && sid in mine
    ensures AtRecord(cons, t, sid, m)
  {
    assert Log(s, s.sessions[sid].partition) <= Log(t, s.sessions[sid].partition);
  }

  lemma RestAmongIsRun(cons: Consumers, s: State, mine: seq<nat>, sid: nat, m: Message, outcome: Consumer.Outcome,
                       turn: Consumer.Turn, part: string -> nat, w: Meetings, t: State)
    requires ValidConsumers(cons) && Reachable(cons, s) && sid in mine && AtRecord(cons, s, sid, m)
    requires s.sessions[sid].phase == if outcome.Settled? then Handled else Failing(outcome.kind)
    requires s.now == turn.script.now && RestAmong(cons, s, mine, sid, m, outcome, turn, part, w, t)
    ensures Reachable(cons, t) && MovedOn(s, mine, sid, t)
  {
    OthersKeep(cons, s, mine, w.published);
    StillAt(cons, s, mine, sid, m, w.published);
    if outcome.Settled? {
      CommitAmongIsRun(cons, w.published, mine, sid, turn, w, t);
    } else {
      var copy := Consumer.Forwarded(CfgOf(cons, s, sid), m, outcome.kind, turn.script.now);
      if copy.None? {
        var p := StopIsRun(cons, w.published, sid);
        StillReachable(cons, w.published, p, t, []);
        RunGrows(cons, p.states, p.labels);
      } else {
        RerouteAmongIsRun(cons, w.published, mine, sid, m, copy.value, turn, part, w, t);
      }
    }
    KeptMovedOn(s, w.published, t, mine, sid);
  }

  lemma RerouteAmongIsRun(cons: Consumers, s: State, mine: seq<nat>, sid: nat, m: Message, copy: Message,
                          turn: Consumer.Turn, part: string -> nat, w: Meetings, t: State)
    requires ValidConsumers(cons) && Reachable(cons, s) && sid in mine && AtRecord(cons, s, sid, m)
    requires s.sessions[sid].phase.Failing? && turn.script.now <= s.now
    requires Consumer.Forwarded(CfgOf(cons, s, sid), m, s.sessions[sid].phase.kind, turn.script.now) == Some(copy)
    requires var u := AfterPublish(s, sid, copy, part(copy.key), turn.script.fate);
      if turn.script.fate.Acked? then CommitAmong(cons, u, mine, sid, turn, w, t) else t == u
    ensures Reachable(cons, t) && MovedOn(s, mine, sid, t)
  {
    var fate := turn.script.fate;
    var u := AfterPublish(s, sid, copy, part(copy.key), fate);
    var p := PublishIsRun(cons, s, sid, m, copy, part(copy.key), fate, turn.script.now);
    StillReachable(cons, s, p, u, if fate.Dropped? then [] else [copy]);
    PublishGrows(s, sid, copy, part(copy.key), fate);
    if fate.Acked? {
      CommitAmongIsRun(cons, u, mine, sid, turn, w, t);
      GrownTwice(s, u, t);
    }
  }

  lemma TurnAmongIsRun(cons: Consumers, s: State, mine: seq<nat>, sid: nat, m: Message, turn: Consumer.Turn,
                       part: string -> nat, w: Meetings, t: State)
    requires ValidConsumers(cons) && Reachable(cons, s) && sid in mine && AtRecord(cons, s, sid, m)
    requires s.sessions[sid].phase.Ready? && TurnAmong(cons, s, mine, sid, m, turn, part, w, t)
    ensures Reachable(cons, t) && MovedOn(s, mine, sid, t) && AtRecord(cons, w.tried, sid, m)
  {
    OthersKeep(cons, s, mine, w.tried);
    StillAt(cons, s, mine, sid, m, w.tried);
    if !turn.ready {
      var p := StopIsRun(cons, w.tried, sid);
      StillReachable(cons, w.tried, p, t, []);
      RunGrows(cons, p.states, p.labels);
    } else {
      var (inbox, outcome) := Consumer.Attempt(CfgOf(cons, w.tried, sid), w.tried.inbox, m, turn.script.cond);
      var u := AfterAttempt(w.tried, sid, inbox, outcome, turn.script.now);
      var p := AttemptIsRun(cons, w.tried, sid, m, turn.script);
      StillReachable(cons, w.tried, p, u, []);
      AttemptGrows(w.tried, sid, inbox, outcome, turn.script.now);
      RestAmongIsRun(cons, u, mine, sid, m, outcome, turn, part, w, t);
      GrownTwice(w.tried, u, t);
    }
    KeptMovedOn(s, w.tried, t, mine, sid);
  }

  /** Records of session `sid` among the first n. */
  function Times(sids: seq<nat>, n: nat, sid: nat): nat
    requires n <= |sids|
  {
    if n == 0 then 0 else Times(sids, n - 1, sid) + if sids[n - 1] == sid then 1 else 0
  }

  /** A fetch: its i-th record belongs to the session sids[i], one session per partition, in the order of each log. */
  ghost predicate Fetched(cons: Consumers, s: State, sids: seq<nat>, msgs: seq<Message>) {
    |msgs| == |sids| && forall i :: 0 <= i < |sids| ==> FetchedAt(cons, s, sids, msgs[i], i)
  }

  ghost predicate FetchedAt(cons: Consumers, s: State, sids: seq<nat>, m: Message, i: nat)
    requires i < |sids|
  {
    && sids[i] in s.sessions && s.sessions[sids[i]].phase.Ready? && s.sessions[sids[i]].consumer in cons
    && IsAt(s, s.sessions[sids[i]].partition, s.sessions[sids[i]].offset + Times(sids, i, sids[i]), m)
  }

  /** The states of a loop: before each turn, and what that turn meets. */
  datatype Fetch = Fetch(before: seq<State>, met: seq<Meetings>)

  ghost predicate TurnAt(cons: Consumers, sids: seq<nat>, msgs: seq<Message>, turns: seq<Consumer.Turn>,
                         part: string -> nat, f: Fetch, i: nat)
    requires i < |sids| == |msgs| == |turns| == |f.met| && |f.before| == |sids| + 1
  {
    TurnAmong(cons, f.before[i], sids, sids[i], msgs[i], turns[i], part, f.met[i], f.before[i + 1])
  }

  /** The loop over the first n records. */
  ghost predicate FetchAmong(cons: Consumers, sids: seq<nat>, msgs: seq<Message>, turns: seq<Consumer.Turn>,
                             part: string -> nat, f: Fetch, n: nat) {
    && n <= |sids| == |msgs| == |turns| == |f.met| && |f.before| == |sids| + 1
    && forall i :: 0 <= i < n ==> TurnAt(cons, sids, msgs, turns, part, f, i)
  }

  /** Each session has moved on by its turns, or is gone. */
  ghost predicate Along(s: State, sids: seq<nat>, n: nat, t: State)
    requires n <= |sids|
  {
    && LogsGrow(s, t)
    && forall sid :: sid in sids && sid in t.sessions ==>
         && sid in s.sessions
         && t.sessions[sid] == s.sessions[sid].(offset := s.sessions[sid].offset + Times(sids, n, sid))
  }

  lemma AlongOneMore(cons: Consumers, s: State, sids: seq<nat>, n: nat, s1: State, t: State)
    requires n < |sids| && Along(s, sids, n, s1) && MovedOn(s1, sids, sids[n], t)
    requires forall sid :: sid in sids && sid in s.sessions ==> s.sessions[sid].phase.Ready?
    ensures Along(s, sids, n + 1, t)
  {
    GrownTwice(s, s1, t);
  }

  lemma AtNext(cons: Consumers, s: State, sids: seq<nat>, msgs: seq<Message>, n: nat, t: State)
    requires Fetched(cons, s, sids, msgs) && n < |sids| && Along(s, sids, n, t) && sids[n] in t.sessions
    ensures AtRecord(cons, t, sids[n], msgs[n]) && t.sessions[sids[n]].phase.Ready?
  {
    assert FetchedAt(cons, s, sids, msgs[n], n);
    assert Log(s, s.sessions[sids[n]].partition) <= Log(t, s.sessions[sids[n]].partition);
  }

  lemma NextTurn(cons: Consumers, s: State, sids: seq<nat>, msgs: seq<Message>, n: nat, s1: State, turn: Consumer.Turn,
                 part: string -> nat, w: Meetings, t: State)
    requires ValidConsumers(cons) && Fetched(cons, s, sids, msgs) && n < |sids| && Along(s, sids, n, s1)
    requires Reachable(cons, s1) && TurnAmong(cons, s1, sids, sids[n], msgs[n], turn, part, w, t)
    ensures Reachable(cons, t) && Along(s, sids, n + 1, t) && AtRecord(cons, w.tried, sids[n], msgs[n])
  {
    TurnHasSession(cons, s1, sids, sids[n], msgs[n], turn, part, w, t);
    AtNext(cons, s, sids, msgs, n, s1);
    TurnAmongIsRun(cons, s1, sids, sids[n], msgs[n], turn, part, w, t);
    AllReady(cons, s, sids, msgs);
    AlongOneMore(cons, s, sids, n, s1, t);
  }

  /** Where the loop is after n turns. */
  ghost predicate LoopInv(cons: Consumers, s: State, sids: seq<nat>, n: nat, t: State)
    requires n <= |sids|
  {
    Reachable(cons, t) && Along(s, sids, n, t)
  }

  lemma LoopStarts(cons: Consumers, s: State, sids: seq<nat>)
    requires Reachable(cons, s)
    ensures LoopInv(cons, s, sids, 0, s)
  {
  }

  lemma LoopGoesOn(cons: Consumers, s: State, sids: seq<nat>, msgs: seq<Message>, turns: seq<Consumer.Turn>,
                   part: string -> nat, f: Fetch, n: nat)
    requires n < |sids| == |msgs| == |turns| == |f.met| && |f.before| == |sids| + 1
    requires ValidConsumers(cons) && TurnAt(cons, sids, msgs, turns, part, f, n)
    requires Fetched(cons, s, sids, msgs) && LoopInv(cons, s, sids, n, f.before[n])
    ensures LoopInv(cons, s, sids, n + 1, f.before[n + 1]) && AtRecord(cons, f.met[n].tried, sids[n], msgs[n])
  {
    NextTurn(cons, s, sids, msgs, n, f.before[n], turns[n], part, f.met[n], f.before[n + 1]);
  }

  /** The loop of one consumer process among all the others makes only pipeline steps, whatever they do to inbox, logs
      and committed offsets before any of its transactions, publishes and commits; each turn handles the record that
      was fetched, and each session moves by its own turns. */
  lemma {:induction false} FetchIsRun(cons: Consumers, sids: seq<nat>, msgs: seq<Message>, turns: seq<Consumer.Turn>,
                                      part: string -> nat, f: Fetch, n: nat)
    requires ValidConsumers(cons) && FetchAmong(cons, sids, msgs, turns, part, f, n)
    requires Reachable(cons, f.before[0]) && Fetched(cons, f.before[0], sids, msgs)
    ensures LoopInv(cons, f.before[0], sids, n, f.before[n])
    ensures n > 0 ==> AtRecord(cons, f.met[n - 1].tried, sids[n - 1], msgs[n - 1])
    decreases n
  {
    if n == 0 {
      LoopStarts(cons, f.before[0], sids);
    } else {
      FetchIsRun(cons, sids, msgs, turns, part, f, n - 1);
      LoopGoesOn(cons, f.before[0], sids, msgs, turns, part, f, n - 1);
    }
  }

  lemma TurnHasSession(cons: Consumers, s: State, mine: seq<nat>, sid: nat, m: Message, turn: Consumer.Turn,
                       part: string -> nat, w: Meetings, t: State)
    requires Reachable(cons, s) && sid in mine && TurnAmong(cons, s, mine, sid, m, turn, part, w, t)
    ensures sid in s.sessions
  {
    OthersKeep(cons, s, mine, w.tried);
  }

  lemma AllReady(cons: Consumers, s: State, sids: seq<nat>, msgs: seq<Message>)
    requires Fetched(cons, s, sids, msgs)
    ensures forall sid :: sid in sids && sid in s.sessions ==> s.sessions[sid].phase.Ready?
  {
    forall sid | sid in sids ensures sid in s.sessions && s.sessions[sid].phase.Ready? {
      var i :| 0 <= i < |sids| && sids[i] == sid;
      assert FetchedAt(cons, s, sids, msgs[i], i);
    }
  }

  // The replay tool

  /** The fetched dead letters and where they are. */
  ghost predicate DeadLetters(s: State, from: seq<Position>, msgs: seq<Message>) {
    |msgs| == |from| && forall i :: 0 <= i < |from| ==> IsAt(s, from[i].partition, from[i].offset, msgs[i])
  }

  ghost predicate Sourced(m: Message) {
    HeaderValue(m.headers, SourceTopic) != ""
  }

  /** What one pass of the tool's loop does: its copy is in the log unless the produce was dropped. */
  function AfterReplay(s: State, pos: Position, m: Message, turn: ReplayTool.Turn, part: string -> nat): State {
    if ReplayTool.Appended(m, turn) == [] then s
    else
      var copy := ReplayTool.ReplayMessage(m);
      s.(logs := Append(s, Partition(copy.topic, part(m.key)), Entry(copy, Replayed(pos))))
  }

  lemma ReplayOne(cons: Consumers, s: State, pos: Position, m: Message, turn: ReplayTool.Turn, part: string -> nat)
    returns (p: Path)
    requires IsAt(s, pos.partition, pos.offset, m)
    ensures Leads(cons, s, p, AfterReplay(s, pos, m, turn, part), ReplayTool.Appended(m, turn))
  {
    if ReplayTool.Appended(m, turn) == [] {
      p := Stay(cons, s);
    } else {
      assert pos == Position(pos.partition, pos.offset);
      p := One(cons, s, Replay(pos, part(m.key)));
      assert Step(cons, s, Replay(pos, part(m.key))) == AfterReplay(s, pos, m, turn, part);
    }
  }

  lemma ReplayMore(cons: Consumers, s: State, p: Path, s1: State, out: seq<Message>, pos: Position, m: Message,
                   turn: ReplayTool.Turn, part: string -> nat) returns (q: Path, t: State)
    requires Leads(cons, s, p, s1, out) && LogsGrow(s, s1) && IsAt(s, pos.partition, pos.offset, m)
    ensures Leads(cons, s, q, t, out + ReplayTool.Appended(m, turn)) && LogsGrow(s, t)
  {
    assert Log(s, pos.partition) <= Log(s1, pos.partition);
    var last := ReplayOne(cons, s1, pos, m, turn, part);
    t := AfterReplay(s1, pos, m, turn, part);
    q := Then(cons, s, p, s1, out, last, t, ReplayTool.Appended(m, turn));
    RunGrows(cons, q.states, q.labels);
  }

  /** The path replays the first n messages. */
  ghost predicate Replays(cons: Consumers, s: State, p: Path, t: State, msgs: seq<Message>, n: nat) {
    n <= |msgs| && Leads(cons, s, p, t, ReplayTool.Replayed(msgs, n)) && LogsGrow(s, t)
  }

  lemma OneMoreCopy(cons: Consumers, s: State, p: Path, s1: State, pos: Position, msgs: seq<Message>, n: nat,
                    part: string -> nat) returns (q: Path, t: State)
    requires Replays(cons, s, p, s1, msgs, n) && n < |msgs| && Sourced(msgs[n])
    requires IsAt(s, pos.partition, pos.offset, msgs[n])
    ensures Replays(cons, s, q, t, msgs, n + 1)
  {
    var turn := ReplayTool.Turn(Acked, true);
    assert ReplayTool.Appended(msgs[n], turn) == [ReplayTool.ReplayMessage(msgs[n])];
    q, t := ReplayMore(cons, s, p, s1, ReplayTool.Replayed(msgs, n), pos, msgs[n], turn, part);
  }

  lemma NoCopy(cons: Consumers, s: State, msgs: seq<Message>) returns (p: Path)
    ensures Replays(cons, s, p, s, msgs, 0)
  {
    p := Stay(cons, s);
  }

  lemma {:induction false} ReplayAllIsRun(cons: Consumers, s: State, from: seq<Position>, msgs: seq<Message>, n: nat,
                                          part: string -> nat) returns (p: Path, t: State)
    requires DeadLetters(s, from, msgs) && n <= |msgs| && forall i :: 0 <= i < n ==> Sourced(msgs[i])
    ensures Replays(cons, s, p, t, msgs, n)
    decreases n
  {
    if n == 0 {
      p := NoCopy(cons, s, msgs);
      t := s;
    } else {
      p, t := ReplayAllIsRun(cons, s, from, msgs, n - 1, part);
      p, t := OneMoreCopy(cons, s, p, t, from[n - 1], msgs, n - 1, part);
    }
  }

  /** A fetch of the tool that nobody interrupts is a run that writes the copies of the n records replayed, in order,
      and after a failure what the failed pass still appended. */
  lemma ReplayIsRun(cons: Consumers, s: State, from: seq<Position>, msgs: seq<Message>, n: nat,
                    failed: Option<ReplayTool.Turn>, part: string -> nat) returns (p: Path, t: State)
    requires DeadLetters(s, from, msgs) && n <= |msgs| && (failed.Some? ==> n < |msgs|)
    requires forall i :: 0 <= i < n ==> Sourced(msgs[i])
    ensures Leads(cons, s, p, t, ReplayTool.Replayed(msgs, n)
      + if failed.None? then [] else ReplayTool.Appended(msgs[n], failed.value))
  {
    var out := ReplayTool.Replayed(msgs, n);
    p, t := ReplayAllIsRun(cons, s, from, msgs, n, part);
    if failed.None? {
      assert out + [] == out;
    } else {
      p, t := ReplayMore(cons, s, p, t, out, from[n], msgs[n], failed.value, part);
    }
  }

  ghost predicate ReplayAt(cons: Consumers, from: seq<Position>, msgs: seq<Message>, turns: seq<ReplayTool.Turn>,
                           part: string -> nat, before: seq<State>, met: seq<State>, i: nat)
    requires i < |from| == |msgs| == |turns| == |met| && |before| == |from| + 1
  {
    && OtherSteps(cons, before[i], [], met[i])
    && before[i + 1] == AfterReplay(met[i], from[i], msgs[i], turns[i], part)
  }

  /** The tool's loop over the first n records, with anything the others do before each produce lands. */
  ghost predicate ReplayAmong(cons: Consumers, from: seq<Position>, msgs: seq<Message>, turns: seq<ReplayTool.Turn>,
                              part: string -> nat, before: seq<State>, met: seq<State>, n: nat) {
    && n <= |from| == |msgs| == |turns| == |met| && |before| == |from| + 1
    && forall i :: 0 <= i < n ==> ReplayAt(cons, from, msgs, turns, part, before, met, i)
  }

  lemma ReplayNext(cons: Consumers, s: State, pos: Position, m: Message, turn: ReplayTool.Turn, part: string -> nat,
                   met: State)
    requires Reachable(cons, s) && OtherSteps(cons, s, [], met) && IsAt(s, pos.partition, pos.offset, m)
    ensures Reachable(cons, AfterReplay(met, pos, m, turn, part)) && LogsGrow(s, AfterReplay(met, pos, m, turn, part))
    ensures IsAt(met, pos.partition, pos.offset, m)
  {
    OthersKeep(cons, s, [], met);
    assert Log(s, pos.partition) <= Log(met, pos.partition);
    var p := ReplayOne(cons, met, pos, m, turn, part);
    StillReachable(cons, met, p, AfterReplay(met, pos, m, turn, part), ReplayTool.Appended(m, turn));
    RunGrows(cons, p.states, p.labels);
    GrownTwice(s, met, AfterReplay(met, pos, m, turn, part));
  }

  /** And so does the tool among the others, whichever of its produces fail or are unsure. */
  lemma {:induction false} ReplayAmongIsRun(
    cons: Consumers, from: seq<Position>, msgs: seq<Message>, turns: seq<ReplayTool.Turn>, part: string -> nat,
    before: seq<State>, met: seq<State>, n: nat)
    requires ReplayAmong(cons, from, msgs, turns, part, before, met, n) && Reachable(cons, before[0])
    requires DeadLetters(before[0], from, msgs)
    ensures Reachable(cons, before[n]) && LogsGrow(before[0], before[n])
    decreases n
  {
    if n > 0 {
      ReplayAmongIsRun(cons, from, msgs, turns, part, before, met, n - 1);
      assert ReplayAt(cons, from, msgs, turns, part, before, met, n - 1);
      var pos := from[n - 1];
      assert IsAt(before[0], pos.partition, pos.offset, msgs[n - 1]);
      assert Log(before[0], pos.partition) <= Log(before[n - 1], pos.partition);
      ReplayNext(cons, before[n - 1], pos, msgs[n - 1], turns[n - 1], part, met[n - 1]);
      GrownTwice(before[0], before[n - 1], before[n]);
    }
  }
}
