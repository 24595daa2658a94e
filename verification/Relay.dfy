/** The relay: claim a batch, publish each row, mark it. */
module Relay {
  import opened Collections
  import opened Text
  import opened Headers
  import opened Events
  import opened Kafka
  import opened Options
  import Outbox

  const SECOND := 1_000_000_000
  const MINUTE := 60 * SECOND

  function Pow2(n: nat): nat {
    if n == 0 then 1 else 2 * Pow2(n - 1)
  }

  /** Float to 64-bit conversion; out of range it yields the smallest integer, as on amd64. */
  function ToDuration(seconds: nat): int {
    if seconds * SECOND > MAX_INT64 then MIN_INT64 else seconds * SECOND
  }

  function RetryDelayBase(attempt: int): int {
    var delay := ToDuration(Pow2(if attempt - 1 > 0 then attempt - 1 else 0));
    if delay > MINUTE then MINUTE else delay
  }

  /** `roll` is the random draw, taken modulo a quarter of the base. */
  function RetryDelay(attempt: int, roll: nat): int {
    var base := RetryDelayBase(attempt);
    if base <= 0 then base else base + roll % (base / 4 + 1)
  }

  lemma {:induction false} Pow2Monotone(m: nat, n: nat)
    requires m <= n
    ensures Pow2(m) <= Pow2(n)
  {
    if m < n { Pow2Monotone(m, n - 1); }
  }

  lemma Pow2Values()
    ensures Pow2(33) == 8_589_934_592 && Pow2(34) == 17_179_869_184
  {
    assert Pow2(8) == 256;
    assert Pow2(16) == 65_536;
    assert Pow2(24) == 16_777_216;
    assert Pow2(32) == 4_294_967_296;
  }

  /** Doubling from one second, capped at a minute, as long as the float still fits 64 bits: 34 attempts. */
  lemma RetryDelayBaseIff(attempt: int)
    requires attempt >= 1
    ensures RetryDelayBase(attempt) == (if Pow2(attempt - 1) < 60 then Pow2(attempt - 1) else 60) * SECOND
       <==> attempt <= 34
    ensures attempt > 34 ==> RetryDelayBase(attempt) == MIN_INT64
  {
    Pow2Values();
    if attempt <= 34 {
      Pow2Monotone(attempt - 1, 33);
    } else {
      Pow2Monotone(34, attempt - 1);
    }
  }

  /** The attempt cap of a row (20) keeps the delay between a second and 75 seconds, growing with attempts. */
  lemma RetryDelayBounds(attempt: int, later: int, roll: nat)
    requires 1 <= attempt <= later <= 34
    ensures SECOND <= RetryDelay(attempt, roll) <= 75 * SECOND
    ensures RetryDelayBase(attempt) <= RetryDelay(attempt, roll)
    ensures RetryDelayBase(attempt) <= RetryDelayBase(later)
  {
    RetryDelayBaseIff(attempt);
    RetryDelayBaseIff(later);
    Pow2Monotone(0, attempt - 1);
    Pow2Monotone(attempt - 1, later - 1);
    var base := RetryDelayBase(attempt);
    assert SECOND <= base <= MINUTE;
    assert 0 <= roll % (base / 4 + 1) <= base / 4;
  }

  // Publishing

  ghost predicate IsListing(order: seq<string>, keys: set<string>) {
    |order| == |keys| && forall k :: k in keys <==> k in order
  }

  function Listed(order: seq<string>, headers: map<string, string>): seq<Header>
    requires forall k :: k in order ==> k in headers
  {
    if order == [] then [] else [Header(KeyOf(order[0]), headers[order[0]])] + Listed(order[1..], headers)
  }

  /** Row headers in whatever order the map yields them, then three fixed ones. */
  function Produced(id: nat, row: Outbox.Row, order: seq<string>): Message
    requires forall k :: k in order ==> k in row.headers
  {
    Message(row.topic, row.key, Encoded(row.event), Listed(order, row.headers) + [
      Header(Other("event-id"), Itoa(id)),
      Header(Other("event-type"), row.event.eventType),
      Header(Other("schema-uri"), row.event.dataSchema)
    ])
  }

  lemma {:induction false} NoTracking(hs: seq<Header>, key: Key)
    requires forall i :: 0 <= i < |hs| ==> hs[i].key.Other?
    requires !key.Other?
    ensures Count(hs, key) == 0 && HeaderValue(hs, key) == ""
  {
    NoMatchCount(hs, key);
  }

  lemma {:induction false} ListedKeys(order: seq<string>, headers: map<string, string>, key: Key)
    requires forall k :: k in order ==> k in headers
    ensures Count(Listed(order, headers), key) == 0 <==> forall k :: k in order ==> KeyOf(k) != key
  {
    if order != [] { ListedKeys(order[1..], headers, key); }
  }

  lemma {:induction false} CountAppend(a: seq<Header>, b: seq<Header>, key: Key)
    ensures Count(a + b, key) == Count(a, key) + Count(b, key)
  {
    if a == [] {
      assert a + b == b;
    } else {
      assert (a + b)[1..] == a[1..] + b;
      CountAppend(a[1..], b, key);
    }
  }

  /** Headers are published as the row has them: a failure-tracking key is absent from the record exactly when the
      row has no header of that name. */
  lemma ProducedIsFreshIff(id: nat, row: Outbox.Row, order: seq<string>, key: Key)
    requires IsListing(order, row.headers.Keys) && !key.Other?
    ensures Count(Produced(id, row, order).headers, key) == 0
      <==> forall name :: name in row.headers ==> KeyOf(name) != key
  {
    var fixed' := [Header(Other("event-id"), Itoa(id)), Header(Other("event-type"), row.event.eventType),
      Header(Other("schema-uri"), row.event.dataSchema)];
    NoTracking(fixed', key);
    CountAppend(Listed(order, row.headers), fixed', key);
    ListedKeys(order, row.headers, key);
  }

  /** So a record of a row without such headers is its own source, at attempt zero. */
  lemma ProducedIsFresh(id: nat, row: Outbox.Row, order: seq<string>, key: Key)
    requires IsListing(order, row.headers.Keys) && Untracked(row.headers.Keys) && !key.Other?
    ensures Count(Produced(id, row, order).headers, key) == 0
    ensures HeaderValue(Produced(id, row, order).headers, key) == ""
  {
    ProducedIsFreshIff(id, row, order, key);
    NoValue(Produced(id, row, order).headers, key);
  }

  // One batch

  /** Fate of one mark: done and confirmed, not done, or done although an error came back. */
  datatype MarkFate = Confirmed | Lost | Unconfirmed

  /** The world's answers for the i-th record of a batch. */
  datatype Answer = Answer(fate: Fate, mark: MarkFate, now: int, roll: nat, order: seq<string>)

  /** The rows, what was appended to the log, and whether a failed mark ended the batch. */
  datatype Progress = Progress(rows: Outbox.Table, log: seq<Message>, stopped: bool)

  ghost predicate Answers(records: seq<Outbox.Record>, answers: seq<Answer>) {
    |answers| == |records| && forall i :: 0 <= i < |records| ==>
      IsListing(answers[i].order, records[i].row.headers.Keys)
  }

  function Marked(rows: Outbox.Table, r: Outbox.Record, a: Answer): Outbox.Table {
    if r.id !in rows then rows
    else if a.fate.Acked? then rows[r.id := Outbox.Published(rows[r.id], a.now)]
    else rows[r.id := Outbox.Failed(rows[r.id], a.now + RetryDelay(r.row.attempts, a.roll))]
  }

  function Appended(r: Outbox.Record, a: Answer): seq<Message>
    requires forall k :: k in a.order ==> k in r.row.headers
  {
    if a.fate.Dropped? then [] else [Produced(r.id, r.row, a.order)]
  }

  /** One record: publish, then mark. */
  function Pass(rows: Outbox.Table, r: Outbox.Record, a: Answer): Progress
    requires forall k :: k in a.order ==> k in r.row.headers
  {
    Progress(if a.mark.Lost? then rows else Marked(rows, r, a), Appended(r, a),
      !a.mark.Confirmed? || (a.fate.Acked? && r.id !in rows))
  }

  function Joined(a: Progress, b: Progress): Progress {
    Progress(b.rows, a.log + b.log, b.stopped)
  }

  /** The records of a batch from the first on, up to the first failed mark. */
  ghost function Settle(rows: Outbox.Table, records: seq<Outbox.Record>, answers: seq<Answer>): Progress
    requires Answers(records, answers)
    decreases |records|
  {
    if records == [] then Progress(rows, [], false)
    else
      assert IsListing(answers[0].order, records[0].row.headers.Keys);
      var one := Pass(rows, records[0], answers[0]);
      if one.stopped then one else Joined(one, Settle(one.rows, records[1..], answers[1..]))
  }

  lemma JoinedAgain(a: Progress, b: Progress, c: Progress)
    ensures Joined(a, Joined(b, c)) == Joined(Joined(a, b), c)
  {
    AppendAgain(a.log, b.log, c.log);
  }

  lemma SettleStep(whole: Progress, done: Progress, records: seq<Outbox.Record>, answers: seq<Answer>, n: nat)
    requires Answers(records, answers) && n < |records|
    requires Answers(records[n..], answers[n..]) && whole == Joined(done, Settle(done.rows, records[n..], answers[n..]))
    ensures IsListing(answers[n].order, records[n].row.headers.Keys)
    ensures var one := Pass(done.rows, records[n], answers[n]);
      && Answers(records[n + 1..], answers[n + 1..])
      && whole == if one.stopped then Joined(done, one)
         else Joined(Joined(done, one), Settle(one.rows, records[n + 1..], answers[n + 1..]))
  {
    assert IsListing(answers[n].order, records[n].row.headers.Keys);
    assert records[n..][1..] == records[n + 1..] && answers[n..][1..] == answers[n + 1..];
    var one := Pass(done.rows, records[n], answers[n]);
    if !one.stopped { JoinedAgain(done, one, Settle(one.rows, records[n + 1..], answers[n + 1..])); }
  }

  // What a batch leaves, record by record

  /** The loop goes on after this record: its mark was confirmed, and there was a row to mark published. */
  predicate GoesOn(rows: Outbox.Table, r: Outbox.Record, a: Answer) {
    a.mark.Confirmed? && (a.fate.Acked? ==> r.id in rows)
  }

  predicate Reached(rows: Outbox.Table, records: seq<Outbox.Record>, answers: seq<Answer>, n: nat)
    requires n <= |records| == |answers|
  {
    forall i :: 0 <= i < n ==> GoesOn(rows, records[i], answers[i])
  }

  /** The wait after a failed publish, without its random part: doubling from one second, a minute at most. */
  function Wait(attempt: int): int
    requires 1 <= attempt <= 34
  {
    if Pow2(attempt - 1) < 60 then Pow2(attempt - 1) * SECOND else 60 * SECOND
  }

  /** A row after its record was settled at `now`: published and free, or free again and due after a wait. */
  ghost predicate IsSettled(before: Outbox.Row, after: Outbox.Row, attempt: int, a: Answer) {
    if a.fate.Acked? then after == before.(publishedAt := Some(a.now), lockedAt := None, lockedBy := "")
    else
      && after == before.(availableAt := after.availableAt, lockedAt := None, lockedBy := "")
      && (1 <= attempt <= 34 ==>
           Wait(attempt) <= after.availableAt - a.now && 4 * (after.availableAt - a.now) <= 5 * Wait(attempt))
  }

  lemma MarkedIsSettled(rows: Outbox.Table, r: Outbox.Record, a: Answer)
    requires r.id in rows
    ensures Marked(rows, r, a).Keys == rows.Keys && IsSettled(rows[r.id], Marked(rows, r, a)[r.id], r.row.attempts, a)
    ensures forall id :: id in rows && id != r.id ==> Marked(rows, r, a)[id] == rows[id]
  {
    if 1 <= r.row.attempts <= 34 {
      RetryDelayBaseIff(r.row.attempts);
      RetryDelayBounds(r.row.attempts, r.row.attempts, a.roll);
      assert RetryDelayBase(r.row.attempts) == Wait(r.row.attempts);
    }
  }

  lemma PassAnswers(rows: Outbox.Table, r: Outbox.Record, a: Answer)
    requires forall k :: k in a.order ==> k in r.row.headers
    ensures var one := Pass(rows, r, a);
      && one.rows.Keys == rows.Keys && (one.stopped <==> !GoesOn(rows, r, a))
      && (forall id :: id in rows && id != r.id ==> one.rows[id] == rows[id])
      && (r.id in rows ==>
           if a.mark.Lost? then one.rows[r.id] == rows[r.id]
           else IsSettled(rows[r.id], one.rows[r.id], r.row.attempts, a))
  {
    if r.id in rows { MarkedIsSettled(rows, r, a); }
  }

  lemma TailReached(rows: Outbox.Table, one: Outbox.Table, records: seq<Outbox.Record>, answers: seq<Answer>, n: nat)
    requires 0 < n <= |records| == |answers| && one.Keys == rows.Keys && GoesOn(rows, records[0], answers[0])
    ensures Reached(rows, records, answers, n) <==> Reached(one, records[1..], answers[1..], n - 1)
  {
    if Reached(one, records[1..], answers[1..], n - 1) {
      forall i | 0 <= i < n ensures GoesOn(rows, records[i], answers[i]) {
        if i > 0 { assert GoesOn(one, records[1..][i - 1], answers[1..][i - 1]); }
      }
    }
  }

  /** The loop leaves the rows of all other ids alone, and stops exactly when it does not get past some record. */
  lemma {:induction false} SettleStops(rows: Outbox.Table, records: seq<Outbox.Record>, answers: seq<Answer>)
    requires Answers(records, answers)
    ensures var p := Settle(rows, records, answers);
      && p.rows.Keys == rows.Keys
      && (p.stopped <==> !Reached(rows, records, answers, |records|))
      && (forall id :: id in rows && (forall r :: r in records ==> r.id != id) ==> p.rows[id] == rows[id])
    decreases |records|
  {
    if records != [] {
      assert IsListing(answers[0].order, records[0].row.headers.Keys);
      PassAnswers(rows, records[0], answers[0]);
      if GoesOn(rows, records[0], answers[0]) {
        var one := Pass(rows, records[0], answers[0]).rows;
        SettleStops(one, records[1..], answers[1..]);
        TailReached(rows, one, records, answers, |records|);
      }
    }
  }

  /** The rows after a batch, by columns: a record that the loop came to and whose mark was not lost is settled by what
      its publish answered; otherwise its row is as it was. */
  lemma {:induction false} SettleAnswers(rows: Outbox.Table, records: seq<Outbox.Record>, answers: seq<Answer>, i: nat)
    requires Answers(records, answers) && Outbox.DistinctIds(records) && i < |records| && records[i].id in rows
    ensures var after := Settle(rows, records, answers).rows;
      && records[i].id in after
      && if Reached(rows, records, answers, i) && !answers[i].mark.Lost?
         then IsSettled(rows[records[i].id], after[records[i].id], records[i].row.attempts, answers[i])
         else after[records[i].id] == rows[records[i].id]
    decreases |records|
  {
    assert IsListing(answers[0].order, records[0].row.headers.Keys);
    PassAnswers(rows, records[0], answers[0]);
    var one := Pass(rows, records[0], answers[0]).rows;
    if GoesOn(rows, records[0], answers[0]) {
      SettleStops(one, records[1..], answers[1..]);
      if i > 0 {
        assert records[0].id != records[i].id;
        SettleAnswers(one, records[1..], answers[1..], i - 1);
        TailReached(rows, one, records, answers, i);
      }
    } else if i > 0 {
      assert records[0].id != records[i].id;
    }
  }

  /** What a record is in its topic: the row's topic, key and event, its headers, and the event's id and type. */
  ghost predicate IsRecordOf(r: Outbox.Record, m: Message) {
    && m.topic == r.row.topic && m.key == r.row.key && m.value == Encoded(r.row.event)
    && (forall name :: name in r.row.headers ==> Header(KeyOf(name), r.row.headers[name]) in m.headers)
    && Header(Other("event-id"), Itoa(r.id)) in m.headers
    && Header(Other("event-type"), r.row.event.eventType) in m.headers
    && Header(Other("schema-uri"), r.row.event.dataSchema) in m.headers
    && |m.headers| == |r.row.headers| + 3
  }

  lemma {:induction false} ListedAll(order: seq<string>, headers: map<string, string>)
    requires forall k :: k in order ==> k in headers
    ensures |Listed(order, headers)| == |order|
    ensures forall k :: k in order ==> Header(KeyOf(k), headers[k]) in Listed(order, headers)
  {
    if order != [] { ListedAll(order[1..], headers); }
  }

  /** Records that the loop came to and whose publish was not dropped. */
  function Written(rows: Outbox.Table, records: seq<Outbox.Record>, answers: seq<Answer>): seq<Outbox.Record>
    requires |answers| == |records|
  {
    if records == [] then []
    else
      (if answers[0].fate.Dropped? then [] else [records[0]])
      + (if GoesOn(rows, records[0], answers[0]) then Written(rows, records[1..], answers[1..]) else [])
  }

  lemma {:induction false} WrittenSame(rows: Outbox.Table, one: Outbox.Table, records: seq<Outbox.Record>,
                                       answers: seq<Answer>)
    requires |answers| == |records| && rows.Keys == one.Keys
    ensures Written(rows, records, answers) == Written(one, records, answers)
  {
    if records != [] { WrittenSame(rows, one, records[1..], answers[1..]); }
  }

  /** The log after a batch: one record for each of those, in order, acknowledged or not. */
  lemma {:induction false} SettleWrites(rows: Outbox.Table, records: seq<Outbox.Record>, answers: seq<Answer>)
    requires Answers(records, answers)
    ensures var log, written := Settle(rows, records, answers).log, Written(rows, records, answers);
      |log| == |written| && forall j :: 0 <= j < |log| ==> IsRecordOf(written[j], log[j])
    decreases |records|
  {
    if records != [] {
      var r, a := records[0], answers[0];
      assert IsListing(a.order, r.row.headers.Keys);
      PassAnswers(rows, r, a);
      ProducedIsRecord(r, a.order);
      if GoesOn(rows, r, a) {
        var one := Pass(rows, r, a).rows;
        SettleWrites(one, records[1..], answers[1..]);
        WrittenSame(rows, one, records[1..], answers[1..]);
      }
    }
  }

  lemma ProducedIsRecord(r: Outbox.Record, order: seq<string>)
    requires IsListing(order, r.row.headers.Keys)
    ensures IsRecordOf(r, Produced(r.id, r.row, order))
  {
    ListedAll(order, r.row.headers);
    var listed := Listed(order, r.row.headers);
    var hs := Produced(r.id, r.row, order).headers;
    assert hs[|listed|] == Header(Other("event-id"), Itoa(r.id));
    assert hs[|listed| + 1] == Header(Other("event-type"), r.row.event.eventType);
    assert hs[|listed| + 2] == Header(Other("schema-uri"), r.row.event.dataSchema);
    forall name | name in r.row.headers ensures Header(KeyOf(name), r.row.headers[name]) in hs {
      assert name in order;
      assert Header(KeyOf(name), r.row.headers[name]) in listed;
    }
  }

  method Produce(id: nat, row: Outbox.Row, order: seq<string>) returns (message: Message)
    requires IsListing(order, row.headers.Keys)
    ensures message == Produced(id, row, order)
  {
    var headers := Listed(order, row.headers);
    headers := headers + [
      Header(Other("event-id"), Itoa(id)),
      Header(Other("event-type"), row.event.eventType),
      Header(Other("schema-uri"), row.event.dataSchema)];
    message := Message(row.topic, row.key, Encoded(row.event), headers);
  }

  /** One pass of the loop of `runBatch`. */
  method SettleRecord(outbox: Outbox.Store, broker: Broker, record: Outbox.Record, answer: Answer)
    returns (stopped: bool)
    requires IsListing(answer.order, record.row.headers.Keys)
    modifies outbox, broker
    ensures var p := Pass(old(outbox.rows), record, answer);
      outbox.rows == p.rows && broker.log == old(broker.log) + p.log && stopped == p.stopped
  {
    var message := Produce(record.id, record.row, answer.order);
    var ok := broker.Publish(message, answer.fate);
    if answer.mark.Lost? {
      return true;
    }
    if !ok {
      outbox.MarkFailed(record.id, answer.now, RetryDelay(record.row.attempts, answer.roll));
      return answer.mark.Unconfirmed?;
    }
    var found := outbox.MarkPublished(record.id, answer.now);
    stopped := !found || answer.mark.Unconfirmed?;
  }

  /** The loop of `runBatch` over the records it claimed. */
  method SettleBatch(outbox: Outbox.Store, broker: Broker, records: seq<Outbox.Record>, answers: seq<Answer>)
    returns (stopped: bool)
    requires Answers(records, answers)
    modifies outbox, broker
    ensures var p := Settle(old(outbox.rows), records, answers);
      outbox.rows == p.rows && broker.log == old(broker.log) + p.log && stopped == p.stopped
  {
    ghost var before := broker.log;
    ghost var whole := Settle(outbox.rows, records, answers);
    ghost var done := Progress(outbox.rows, [], false);
    for i := 0 to |records|
      invariant Answers(records[i..], answers[i..]) && !done.stopped
      invariant outbox.rows == done.rows && broker.log == before + done.log
      invariant whole == Joined(done, Settle(done.rows, records[i..], answers[i..]))
    {
      SettleStep(whole, done, records, answers, i);
      ghost var one := Pass(done.rows, records[i], answers[i]);
      AppendAgain(before, done.log, one.log);
      done := Joined(done, one);
      stopped := SettleRecord(outbox, broker, records[i], answers[i]);
      if stopped {
        return;
      }
    }
    stopped := false;
  }

  function Asked(ask: (int, Outbox.Record) -> Answer, records: seq<Outbox.Record>): seq<Answer> {
    seq(|records|, i requires 0 <= i < |records| => ask(i, records[i]))
  }

  /** `ask(i, r)` is how the world treats the i-th claimed record. */
  method RunBatch(outbox: Outbox.Store, broker: Broker, worker: string, limit: int, lease: int, now: int,
                  skip: set<nat>, ask: (int, Outbox.Record) -> Answer)
    returns (records: seq<Outbox.Record>, stopped: bool)
    requires forall i, r: Outbox.Record :: IsListing(ask(i, r).order, r.row.headers.Keys)
    modifies outbox, broker
    ensures var picked := Outbox.IdsOf(records);
      && picked <= old(outbox.Candidates(now, lease, skip)) && Outbox.DistinctIds(records)
      && (forall r :: r in records ==>
           r.id in old(outbox.rows) && r.row == Outbox.ClaimRow(old(outbox.rows)[r.id], worker, now))
      && Answers(records, Asked(ask, records))
      && var p := Settle(Outbox.ClaimRows(old(outbox.rows), picked, worker, now), records, Asked(ask, records));
         outbox.rows == p.rows && broker.log == old(broker.log) + p.log && stopped == p.stopped
  {
    records := outbox.Claim(worker, limit, lease, now, skip);
    stopped := SettleBatch(outbox, broker, records, Asked(ask, records));
  }
}
