/** The operator's replay: read a dead-letter topic, put each record back on its source topic, commit. */
module ReplayTool {
  import opened Headers
  import opened Kafka
  import opened Collections
  import Consumer

  function ReplayMessage(m: Message): Message {
    Message(HeaderValue(m.headers, SourceTopic), m.key, m.value, ReplayHeaders(m.headers))
  }

  function Replayed(msgs: seq<Message>, n: nat): seq<Message>
    requires n <= |msgs|
  {
    if n == 0 then [] else Replayed(msgs, n - 1) + [ReplayMessage(msgs[n - 1])]
  }

  lemma {:induction false} ReplayedInOrder(msgs: seq<Message>, n: nat, i: nat)
    requires i < n <= |msgs|
    ensures |Replayed(msgs, n)| == n && Replayed(msgs, n)[i] == ReplayMessage(msgs[i])
  {
    if i < n - 1 {
      ReplayedInOrder(msgs, n - 1, i);
    } else if n > 1 {
      ReplayedInOrder(msgs, n - 1, 0);
    }
  }

  datatype Turn = Turn(fate: Fate, commitOk: bool)

  datatype End = Ok | LimitReached | NoSource | ProduceFailed | CommitFailed

  /** Why the loop stops at a record, if it does. */
  predicate StopsAt(m: Message, turn: Turn) {
    HeaderValue(m.headers, SourceTopic) == "" || !turn.fate.Acked? || !turn.commitOk
  }

  /** One pass of the loop: what it appends, whatever becomes of it. */
  function Appended(m: Message, turn: Turn): seq<Message> {
    if HeaderValue(m.headers, SourceTopic) == "" || turn.fate.Dropped? then [] else [ReplayMessage(m)]
  }

  method ReplayOne(broker: Broker, record: Record, turn: Turn) returns (end: End)
    modifies broker
    ensures !end.LimitReached? && (end.Ok? <==> !StopsAt(record.Polled(), turn))
    ensures broker.log == old(broker.log) + Appended(record.Polled(), turn)
  {
    var source := record.headers.Get(SourceTopic);
    if source == "" {
      return NoSource;
    }
    var kept := FilterForReplay(record.headers.items);
    var ok := broker.Publish(Message(source, record.key, record.value, kept), turn.fate);
    end := if !ok then ProduceFailed else if !turn.commitOk then CommitFailed else Ok;
  }

  ghost predicate AllGoOn(msgs: seq<Message>, turns: seq<Turn>, n: nat)
    requires n <= |msgs| == |turns|
  {
    forall i :: 0 <= i < n ==> !StopsAt(msgs[i], turns[i])
  }

  /** One fetch of the loop. `before` records were replayed by earlier fetches; `limit` 0 means no limit. Every
      replayed record is in the log once; after a failure one more may be. */
  method ReplayFetch(broker: Broker, fetched: seq<Record>, turns: seq<Turn>, limit: int, before: nat,
                     ghost msgs: seq<Message>)
    returns (replayed: nat, end: End)
    requires Consumer.PolledAs(fetched, msgs)
    requires |turns| == |fetched| && (limit > 0 ==> before < limit)
    modifies broker
    ensures replayed <= |fetched| && (limit > 0 ==> before + replayed <= limit)
    ensures end.LimitReached? <==> limit > 0 && before + replayed == limit
    ensures AllGoOn(msgs, turns, replayed)
    ensures end.Ok? ==> replayed == |fetched|
    ensures !end.Ok? && !end.LimitReached? ==> replayed < |fetched| && StopsAt(msgs[replayed], turns[replayed])
    ensures broker.log == old(broker.log) + Replayed(msgs, replayed)
      + if end.Ok? || end.LimitReached? then [] else Appended(msgs[replayed], turns[replayed])
  {
    replayed := 0;
    ghost var before' := broker.log;
    while replayed < |fetched|
      invariant replayed <= |fetched| == |msgs| && (limit > 0 ==> before + replayed < limit)
      invariant Consumer.PolledAs(fetched, msgs)
      invariant AllGoOn(msgs, turns, replayed)
      invariant broker.log == before' + Replayed(msgs, replayed)
    {
      end := ReplayOne(broker, fetched[replayed], turns[replayed]);
      if !end.Ok? {
        return;
      }
      AppendAgain(before', Replayed(msgs, replayed), [ReplayMessage(msgs[replayed])]);
      replayed := replayed + 1;
      if limit > 0 && before + replayed >= limit {
        return replayed, LimitReached;
      }
    }
    end := Ok;
  }

  /** A replayed record is a fresh start: its source topic, its key and value, the time it first failed, no attempt
      counted, and headers no consumer of the source topic takes for a retry. */
  lemma ReplayMeaning(m: Message)
    requires UniqueKeys(m.headers)
    ensures var r := ReplayMessage(m);
      && r.topic == HeaderValue(m.headers, SourceTopic) && r.key == m.key && r.value == m.value
      && UniqueKeys(r.headers)
      && HeaderValue(r.headers, RetryAttempt) == HeaderValue(r.headers, NotBefore) == ""
      && HeaderValue(r.headers, Key.ErrorClass) == HeaderValue(r.headers, LastFailedAt) == ""
      && HeaderValue(r.headers, FailedConsumer) == HeaderValue(m.headers, FailedConsumer)
      && HeaderValue(r.headers, FirstFailedAt) == HeaderValue(m.headers, FirstFailedAt)
      && HeaderValue(r.headers, SourceTopic) == r.topic
      && forall name :: HeaderValue(r.headers, Other(name)) == HeaderValue(m.headers, Other(name))
  {
    forall k: Key ensures (!k.Other? ==> Count(ReplayHeaders(m.headers), k) <= 1)
      && (!Headers.Dropped(k) ==> HeaderValue(ReplayHeaders(m.headers), k) == HeaderValue(m.headers, k))
      && (Headers.Dropped(k) ==> HeaderValue(ReplayHeaders(m.headers), k) == "")
    {
      ReplayKeeps(m.headers, k);
    }
  }
}
