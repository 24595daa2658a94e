/** The idempotent fan-out: one delivery row per channel, all or none, once per idempotency key. */
module Fanout {

  datatype Channel = Email | Sms | Push | InApp | Telegram

  const ALL_CHANNELS: seq<Channel> := [Email, Sms, Push, InApp, Telegram]

  /** A delivery row: the call that made it, its place in that call, and the unique columns. */
  datatype Row = Row(call: nat, index: nat, key: string, channel: Channel)

  datatype Call = Call(key: string, channels: seq<Channel>)

  /** No channels asked for means every channel. */
  function Wanted(c: Call): (channels: seq<Channel>)
    ensures channels != []
  {
    if c.channels == [] then ALL_CHANNELS else c.channels
  }

  predicate Distinct(channels: seq<Channel>) {
    forall i, j :: 0 <= i < j < |channels| ==> channels[i] != channels[j]
  }

  predicate Overlap(a: Call, b: Call) {
    exists ch :: ch in Wanted(a) && ch in Wanted(b)
  }

  function ByKey(rows: set<Row>, key: string): set<Row> {
    set r | r in rows && r.key == key
  }

  /** The partial unique index on (idempotency_key, channel). */
  predicate Clash(rows: set<Row>, key: string, channel: Channel) {
    key != "" && exists r :: r in rows && r.key == key && r.channel == channel
  }

  /** The first n rows of a call. */
  function RowsOf(id: nat, c: Call, n: nat): set<Row>
    requires n <= |Wanted(c)|
  {
    set i | 0 <= i < n :: Row(id, i, c.key, Wanted(c)[i])
  }

  lemma RowsOfStep(id: nat, c: Call, n: nat)
    requires n < |Wanted(c)|
    ensures RowsOf(id, c, n + 1) == RowsOf(id, c, n) + {Row(id, n, c.key, Wanted(c)[n])}
  {
  }

  /** When nobody else used the key, a call can only conflict with its own earlier rows. */
  lemma ClashIffRepeated(before: set<Row>, id: nat, c: Call, n: nat, channel: Channel)
    requires n <= |Wanted(c)| && c.key != "" && ByKey(before, c.key) == {}
    ensures Clash(before + RowsOf(id, c, n), c.key, channel) <==> channel in Wanted(c)[..n]
  {
    assert forall r :: r in before && r.key == c.key ==> r in ByKey(before, c.key);
    forall i | 0 <= i < n ensures Row(id, i, c.key, Wanted(c)[i]) in RowsOf(id, c, n) {
    }
  }

  /** A call makes one row for each channel it names, and for every channel there is when it names none. */
  lemma RowPerChannel(id: nat, c: Call, channel: Channel)
    ensures var rows := RowsOf(id, c, |Wanted(c)|);
      && ((exists r :: r in rows && r.channel == channel) <==> c.channels == [] || channel in c.channels)
      && (c.channels == [] ==> Distinct(Wanted(c)) && |Wanted(c)| == 5)
      && (Distinct(Wanted(c)) ==>
           forall r, other :: r in rows && other in rows && r.channel == other.channel ==> r == other)
      && forall r :: r in rows ==> r.call == id && r.key == c.key
  {
    var channels := Wanted(c);
    if channel in channels {
      var i :| 0 <= i < |channels| && channels[i] == channel;
      assert Row(id, i, c.key, channels[i]) in RowsOf(id, c, |channels|);
    }
    if c.channels == [] {
      assert channel == channels[0] || channel == channels[1] || channel == channels[2] || channel == channels[3]
        || channel == channels[4];
    }
  }

  // One call on its own

  class Table {
    var rows: set<Row>

    constructor ()
      ensures rows == {}
    {
      rows := {};
    }

    /** The insert loop, which a unique-index conflict rolls back. */
    method InsertAll(id: nat, c: Call) returns (created: set<Row>, conflict: bool)
      requires c.key != "" ==> ByKey(rows, c.key) == {}
      modifies this
      ensures conflict <==> c.key != "" && !Distinct(Wanted(c))
      ensures !conflict ==> created == RowsOf(id, c, |Wanted(c)|)
      ensures rows == if conflict then old(rows) else old(rows) + created
    {
      var before := rows;
      created := {};
      var channels := Wanted(c);
      for i := 0 to |channels|
        invariant created == RowsOf(id, c, i) && rows == before + created
        invariant c.key != "" ==> Distinct(channels[..i])
      {
        if c.key != "" { ClashIffRepeated(before, id, c, i, channels[i]); }
        if Clash(rows, c.key, channels[i]) {
          rows := before;
          return created, true;
        }
        RowsOfStep(id, c, i);
        var row := Row(id, i, c.key, channels[i]);
        rows, created := rows + {row}, created + {row};
      }
      assert channels[..|channels|] == channels;
      conflict := false;
    }

    /** Rows under the key are returned as they are; otherwise all are inserted or, on a conflict, none. */
    method Enqueue(id: nat, c: Call) returns (result: set<Row>, replay: bool)
      modifies this
      ensures c.key != "" && (exists r :: r in old(rows) && r.key == c.key) ==>
        replay && forall r :: r in result <==> r in old(rows) && r.key == c.key
      ensures c.key != "" && ByKey(old(rows), c.key) != {} ==>
        result == ByKey(old(rows), c.key) && replay && rows == old(rows)
      ensures (c.key == "" || ByKey(old(rows), c.key) == {}) && (c.key == "" || Distinct(Wanted(c))) ==>
        result == RowsOf(id, c, |Wanted(c)|) && !replay && rows == old(rows) + result
      ensures c.key != "" && ByKey(old(rows), c.key) == {} && !Distinct(Wanted(c)) ==>
        result == {} && replay && rows == old(rows)
    {
      if c.key != "" {
        var existing := ByKey(rows, c.key);
        assert forall r :: r in rows && r.key == c.key ==> r in existing;
        if existing != {} {
          return existing, true;
        }
      }
      var created, conflict := InsertAll(id, c);
      if conflict {
        return ByKey(rows, c.key), true;
      }
      result, replay := created, false;
    }
  }

  // Concurrent calls

  datatype Phase =
    | Reading
    | Inserting(next: nat)
    | Conflicted
    | Returned(rows: set<Row>, replay: bool)
    | Aborted

  datatype Tx = Tx(call: Call, phase: Phase)

  datatype State = State(rows: set<Row>, txs: map<nat, Tx>)

  const INIT := State({}, map[])

  datatype Label =
    | Begin(id: nat, call: Call)
    | Read(id: nat)
    | Insert(id: nat)
    | Commit(id: nat)
    | Reload(id: nat)
    | Abort(id: nat)

  /** Rows a transaction has inserted and not yet committed. */
  function Staged(s: State, id: nat): set<Row>
    requires id in s.txs
  {
    var tx := s.txs[id];
    if tx.phase.Inserting? && tx.phase.next <= |Wanted(tx.call)| then RowsOf(id, tx.call, tx.phase.next) else {}
  }

  /** Another open transaction holds the index entry: the insert has to wait for it. */
  ghost predicate Blocked(s: State, id: nat, key: string, channel: Channel) {
    exists other :: other in s.txs && other != id && Clash(Staged(s, other), key, channel)
  }

  ghost predicate Enabled(s: State, l: Label) {
    match l
    case Begin(id, call) => id !in s.txs
    case Read(id) => id in s.txs && s.txs[id].phase.Reading?
    case Insert(id) =>
      && id in s.txs && s.txs[id].phase.Inserting?
      && s.txs[id].phase.next < |Wanted(s.txs[id].call)|
      && !Blocked(s, id, s.txs[id].call.key, Wanted(s.txs[id].call)[s.txs[id].phase.next])
    case Commit(id) =>
      id in s.txs && s.txs[id].phase.Inserting? && s.txs[id].phase.next == |Wanted(s.txs[id].call)|
    case Reload(id) => id in s.txs && s.txs[id].phase.Conflicted?
    case Abort(id) => id in s.txs && !s.txs[id].phase.Returned?
  }

  function To(s: State, id: nat, phase: Phase): map<nat, Tx>
    requires id in s.txs
  {
    s.txs[id := Tx(s.txs[id].call, phase)]
  }

  ghost function Step(s: State, l: Label): State
    requires Enabled(s, l)
  {
    match l
    case Begin(id, call) => s.(txs := s.txs[id := Tx(call, Reading)])
    case Read(id) =>
      var key := s.txs[id].call.key;
      var existing := ByKey(s.rows, key);
      s.(txs := To(s, id, if key != "" && existing != {} then Returned(existing, true) else Inserting(0)))
    case Insert(id) =>
      var c, n := s.txs[id].call, s.txs[id].phase.next;
      var clash := Clash(s.rows, c.key, Wanted(c)[n]) || Clash(Staged(s, id), c.key, Wanted(c)[n]);
      s.(txs := To(s, id, if clash then Conflicted else Inserting(n + 1)))
    case Commit(id) => State(s.rows + Staged(s, id), To(s, id, Returned(Staged(s, id), false)))
    case Reload(id) => s.(txs := To(s, id, Returned(ByKey(s.rows, s.txs[id].call.key), true)))
    case Abort(id) => s.(txs := To(s, id, Aborted))
  }

  ghost predicate IsRun(states: seq<State>, labels: seq<Label>) {
    && |states| == |labels| + 1
    && forall i :: 0 <= i < |labels| ==> Enabled(states[i], labels[i]) && states[i + 1] == Step(states[i], labels[i])
  }

  ghost predicate IsCreator(s: State, id: nat) {
    id in s.txs && s.txs[id].phase.Returned? && !s.txs[id].phase.replay
  }

  /** Rows committed and rows in flight, with their owners. */
  ghost predicate Holds(s: State, r: Row) {
    r in s.rows || (r.call in s.txs && r in Staged(s, r.call))
  }

  ghost predicate UniqueIndex(s: State) {
    forall a, b :: Holds(s, a) && Holds(s, b) && a.key != "" && a.key == b.key && a.channel == b.channel ==> a == b
  }

  /** Committed rows are whole calls: everything of a creator, nothing of anybody else. */
  ghost predicate WholeCalls(s: State) {
    && (forall r :: r in s.rows ==> IsCreator(s, r.call) && r in s.txs[r.call].phase.rows)
    && (forall id :: IsCreator(s, id) ==>
         && s.txs[id].phase.rows == RowsOf(id, s.txs[id].call, |Wanted(s.txs[id].call)|)
         && s.txs[id].phase.rows <= s.rows)
    && (forall id :: id in s.txs && s.txs[id].phase.Inserting? ==> s.txs[id].phase.next <= |Wanted(s.txs[id].call)|)
  }

  lemma InsertKeepsIndex(s: State, l: Label)
    requires UniqueIndex(s) && WholeCalls(s) && Enabled(s, l) && l.Insert?
    ensures UniqueIndex(Step(s, l))
  {
    var t := Step(s, l);
    var c, n := s.txs[l.id].call, s.txs[l.id].phase.next;
    var added := Row(l.id, n, c.key, Wanted(c)[n]);
    forall r | Holds(t, r) ensures Holds(s, r) || (r == added && t.txs[l.id].phase.Inserting?) {
      if r !in s.rows && r.call != l.id { assert Staged(t, r.call) == Staged(s, r.call); }
    }
    if t.txs[l.id].phase.Inserting? && c.key != "" {
      forall r | Holds(s, r) && r.key == c.key ensures r.channel != added.channel {
        if r !in s.rows && r.call != l.id && r.channel == added.channel {
          assert Clash(Staged(s, r.call), c.key, added.channel);
        }
      }
    }
  }

  lemma OtherStepsKeepIndex(s: State, l: Label)
    requires UniqueIndex(s) && WholeCalls(s) && Enabled(s, l) && !l.Insert?
    ensures UniqueIndex(Step(s, l))
  {
    var t := Step(s, l);
    forall r | Holds(t, r) ensures Holds(s, r) {
      if r !in t.rows && r.call != l.id { assert Staged(t, r.call) == Staged(s, r.call); }
    }
  }

  lemma StepKeepsWhole(s: State, l: Label)
    requires WholeCalls(s) && Enabled(s, l)
    ensures WholeCalls(Step(s, l))
  {
  }

  // Calls that share a key

  /** Every call with this key asks for distinct channels, and any two of them share one. */
  ghost predicate WellUsed(s: State, key: string) {
    forall a, b :: a in s.txs && b in s.txs && s.txs[a].call.key == key && s.txs[b].call.key == key ==>
      Distinct(Wanted(s.txs[a].call)) && Overlap(s.txs[a].call, s.txs[b].call)
  }

  /** A rolled-back or replaying call of this key has a committed one to answer with. */
  ghost predicate Answered(s: State, key: string) {
    forall id :: id in s.txs && s.txs[id].call.key == key ==>
      && (s.txs[id].phase.Conflicted? ==> ByKey(s.rows, key) != {})
      && (s.txs[id].phase.Returned? && s.txs[id].phase.replay ==>
           s.txs[id].phase.rows == ByKey(s.rows, key) != {})
  }

  lemma SharedChannel(a: Call, b: Call) returns (i: nat, j: nat)
    requires Overlap(a, b)
    ensures i < |Wanted(a)| && j < |Wanted(b)| && Wanted(a)[i] == Wanted(b)[j]
  {
    var ch :| ch in Wanted(a) && ch in Wanted(b);
    i :| 0 <= i < |Wanted(a)| && Wanted(a)[i] == ch;
    j :| 0 <= j < |Wanted(b)| && Wanted(b)[j] == ch;
  }

  lemma OneCreator(s: State, key: string, a: nat, b: nat)
    requires UniqueIndex(s) && WholeCalls(s) && WellUsed(s, key) && key != ""
    requires IsCreator(s, a) && IsCreator(s, b) && s.txs[a].call.key == key && s.txs[b].call.key == key
    ensures a == b
  {
    var ca, cb := s.txs[a].call, s.txs[b].call;
    var i, j := SharedChannel(ca, cb);
    assert Holds(s, Row(a, i, key, Wanted(ca)[i])) && Holds(s, Row(b, j, key, Wanted(cb)[j]));
  }

  /** A call that is about to commit shares a channel with any earlier creator, so there is none. */
  lemma CommitIsFirst(s: State, id: nat)
    requires UniqueIndex(s) && WholeCalls(s) && Enabled(s, Commit(id))
    requires s.txs[id].call.key != "" && WellUsed(s, s.txs[id].call.key)
    ensures ByKey(s.rows, s.txs[id].call.key) == {}
  {
    var key := s.txs[id].call.key;
    forall r | r in s.rows ensures r.key != key {
      if r.key == key { NoOtherCreator(s, id, r.call); }
    }
  }

  lemma CreatorHolds(s: State, id: nat, i: nat)
    requires WholeCalls(s) && IsCreator(s, id) && i < |Wanted(s.txs[id].call)|
    ensures Holds(s, Row(id, i, s.txs[id].call.key, Wanted(s.txs[id].call)[i]))
  {
  }

  lemma NoOtherCreator(s: State, id: nat, other: nat)
    requires UniqueIndex(s) && WholeCalls(s) && Enabled(s, Commit(id)) && other in s.txs
    requires s.txs[id].call.key == s.txs[other].call.key != "" && Overlap(s.txs[id].call, s.txs[other].call)
    ensures !IsCreator(s, other)
  {
    var c := s.txs[id].call;
    var i, j := SharedChannel(c, s.txs[other].call);
    assert Holds(s, Row(id, i, c.key, Wanted(c)[i]));
    if IsCreator(s, other) { CreatorHolds(s, other, j); }
  }

  lemma ConflictHasRow(s: State, id: nat)
    requires WholeCalls(s) && Enabled(s, Insert(id)) && Distinct(Wanted(s.txs[id].call))
    requires Step(s, Insert(id)).txs[id].phase.Conflicted?
    ensures ByKey(s.rows, s.txs[id].call.key) != {}
  {
    var c, n := s.txs[id].call, s.txs[id].phase.next;
    assert !Clash(Staged(s, id), c.key, Wanted(c)[n]);
    var r :| r in s.rows && r.key == c.key && r.channel == Wanted(c)[n];
    assert r in ByKey(s.rows, c.key);
  }

  lemma WasWellUsed(s: State, l: Label, key: string)
    requires Enabled(s, l) && WellUsed(Step(s, l), key)
    ensures WellUsed(s, key)
  {
    var t := Step(s, l);
    forall a, b | a in s.txs && b in s.txs && s.txs[a].call.key == key && s.txs[b].call.key == key
      ensures Distinct(Wanted(s.txs[a].call)) && Overlap(s.txs[a].call, s.txs[b].call)
    {
      assert t.txs[a].call == s.txs[a].call && t.txs[b].call == s.txs[b].call;
    }
  }

  lemma StepKeepsAnswered(s: State, l: Label, key: string)
    requires UniqueIndex(s) && WholeCalls(s) && Enabled(s, l) && key != ""
    requires WellUsed(Step(s, l), key) && Answered(s, key)
    ensures WellUsed(s, key) && Answered(Step(s, l), key)
  {
    var t := Step(s, l);
    WasWellUsed(s, l, key);
    if l.Commit? {
      if s.txs[l.id].call.key == key {
        CommitIsFirst(s, l.id);
      } else {
        assert ByKey(t.rows, key) == ByKey(s.rows, key);
      }
    } else if l.Insert? && s.txs[l.id].call.key == key && t.txs[l.id].phase.Conflicted? {
      ConflictHasRow(s, l.id);
    }
  }

  lemma {:induction false} RunKeepsInv(states: seq<State>, labels: seq<Label>)
    requires IsRun(states, labels) && states[0] == INIT
    ensures UniqueIndex(states[|labels|]) && WholeCalls(states[|labels|])
  {
    if labels != [] {
      var n := |labels| - 1;
      RunKeepsInv(states[..n + 1], labels[..n]);
      StepKeepsWhole(states[n], labels[n]);
      if labels[n].Insert? {
        InsertKeepsIndex(states[n], labels[n]);
      } else {
        OtherStepsKeepIndex(states[n], labels[n]);
      }
    }
  }

  lemma {:induction false} RunKeepsAnswered(states: seq<State>, labels: seq<Label>, key: string)
    requires IsRun(states, labels) && states[0] == INIT && key != "" && WellUsed(states[|labels|], key)
    ensures Answered(states[|labels|], key)
  {
    if labels != [] {
      var n := |labels| - 1;
      RunKeepsInv(states[..n + 1], labels[..n]);
      WasWellUsed(states[n], labels[n], key);
      RunKeepsAnswered(states[..n + 1], labels[..n], key);
      StepKeepsAnswered(states[n], labels[n], key);
    }
  }

  /** However calls with one key interleave, roll back or crash: those that return, return the same rows;
      exactly one of them created these, one per channel it asked for; and the table holds no others. */
  lemma FanOutOnce(states: seq<State>, labels: seq<Label>, key: string, a: nat) returns (creator: nat)
    requires IsRun(states, labels) && states[0] == INIT && key != "" && WellUsed(states[|labels|], key)
    requires var s := states[|labels|]; a in s.txs && s.txs[a].call.key == key && s.txs[a].phase.Returned?
    ensures var s := states[|labels|];
      && IsCreator(s, creator) && s.txs[creator].call.key == key
      && (forall b :: IsCreator(s, b) && s.txs[b].call.key == key ==> b == creator)
      && s.txs[a].phase.rows == ByKey(s.rows, key)
        == RowsOf(creator, s.txs[creator].call, |Wanted(s.txs[creator].call)|)
  {
    RunKeepsInv(states, labels);
    RunKeepsAnswered(states, labels, key);
    var s := states[|labels|];
    if s.txs[a].phase.replay {
      var r :| r in ByKey(s.rows, key);
      creator := r.call;
    } else {
      creator := a;
    }
    var mine := s.txs[creator].phase.rows;
    forall b | IsCreator(s, b) && s.txs[b].call.key == key ensures b == creator { OneCreator(s, key, b, creator); }
    forall r | r in ByKey(s.rows, key) ensures r in mine {
      assert s.txs[r.call].call.key == key;
    }
    assert ByKey(s.rows, key) == mine;
  }

  /** A keyed call that asks for a channel twice never creates anything: it conflicts with itself. */
  lemma CreatorsAreDistinct(states: seq<State>, labels: seq<Label>, id: nat)
    requires IsRun(states, labels) && states[0] == INIT
    requires IsCreator(states[|labels|], id) && states[|labels|].txs[id].call.key != ""
    ensures Distinct(Wanted(states[|labels|].txs[id].call))
  {
    RunKeepsInv(states, labels);
    var s := states[|labels|];
    var c := s.txs[id].call;
    forall i, j | 0 <= i < j < |Wanted(c)| ensures Wanted(c)[i] != Wanted(c)[j] {
      assert Holds(s, Row(id, i, c.key, Wanted(c)[i])) && Holds(s, Row(id, j, c.key, Wanted(c)[j]));
    }
  }

  lemma BothRead(c1: Call, c2: Call) returns (states: seq<State>, labels: seq<Label>)
    ensures IsRun(states, labels) && states[0] == INIT && |labels| == 4
    ensures states[4] == Midway(c1, 0, c2, 0)
  {
    labels := [Begin(1, c1), Begin(2, c2), Read(1), Read(2)];
    var s1 := Step(INIT, labels[0]);
    var s2 := Step(s1, labels[1]);
    var s3 := Step(s2, labels[2]);
    assert ByKey({}, c1.key) == {} && ByKey({}, c2.key) == {};
    var s4 := Step(s3, labels[3]);
    states := [INIT, s1, s2, s3, s4];
  }

  // Two calls with one key

  /** Two transactions in the middle of their inserts, nothing committed yet. */
  function Midway(c1: Call, i: nat, c2: Call, j: nat): State {
    State({}, map[1 := Tx(c1, Inserting(i)), 2 := Tx(c2, Inserting(j))])
  }

  ghost predicate Disjoint(c1: Call, c2: Call) {
    c1.key == c2.key != "" && Distinct(Wanted(c1)) && Distinct(Wanted(c2)) && !Overlap(c1, c2)
  }

  lemma MidwayStep(c1: Call, i: nat, c2: Call, j: nat, id: nat)
    requires Disjoint(c1, c2) && i <= |Wanted(c1)| && j <= |Wanted(c2)| && (id == 1 || id == 2)
    requires if id == 1 then i < |Wanted(c1)| else j < |Wanted(c2)|
    ensures Enabled(Midway(c1, i, c2, j), Insert(id))
    ensures Step(Midway(c1, i, c2, j), Insert(id))
      == if id == 1 then Midway(c1, i + 1, c2, j) else Midway(c1, i, c2, j + 1)
  {
    var s := Midway(c1, i, c2, j);
    var c, n, other := s.txs[id].call, s.txs[id].phase.next, 3 - id;
    forall r | r in Staged(s, other) ensures r.channel != Wanted(c)[n] {
      assert r.channel in Wanted(s.txs[other].call) && Wanted(c)[n] in Wanted(c);
    }
    assert !Clash(Staged(s, other), c.key, Wanted(c)[n]);
    assert !Clash(Staged(s, id), c.key, Wanted(c)[n]);
  }

  lemma {:induction false} BothInsert(c1: Call, i: nat, c2: Call, j: nat)
    returns (states: seq<State>, labels: seq<Label>)
    requires Disjoint(c1, c2) && i <= |Wanted(c1)| && j <= |Wanted(c2)|
    ensures IsRun(states, labels) && states[0] == INIT && states[|labels|] == Midway(c1, i, c2, j)
    decreases i + j
  {
    if i == 0 && j == 0 {
      states, labels := BothRead(c1, c2);
    } else {
      var id := if i > 0 then 1 else 2;
      var i', j' := if i > 0 then i - 1 else i, if i > 0 then j else j - 1;
      states, labels := BothInsert(c1, i', c2, j');
      MidwayStep(c1, i', c2, j', id);
      states, labels := states + [Midway(c1, i, c2, j)], labels + [Insert(id)];
    }
  }

  ghost predicate Created(s: State, id: nat, c: Call) {
    IsCreator(s, id) && s.txs[id].call == c
  }

  ghost predicate BothCreate(states: seq<State>, labels: seq<Label>, a: nat, c1: Call, b: nat, c2: Call) {
    && IsRun(states, labels) && states[0] == INIT && a != b
    && Created(states[|labels|], a, c1) && Created(states[|labels|], b, c2)
  }

  /** Without a shared channel two concurrent calls with one key both create rows. */
  lemma DisjointCallsBothCreate(c1: Call, c2: Call) returns (states: seq<State>, labels: seq<Label>)
    requires Disjoint(c1, c2)
    ensures BothCreate(states, labels, 1, c1, 2, c2)
  {
    states, labels := BothInsert(c1, |Wanted(c1)|, c2, |Wanted(c2)|);
    var s1 := Step(states[|labels|], Commit(1));
    var s2 := Step(s1, Commit(2));
    states, labels := states + [s1, s2], labels + [Commit(1), Commit(2)];
  }

  lemma CreatorsShareNothing(states: seq<State>, labels: seq<Label>, a: nat, c1: Call, b: nat, c2: Call)
    requires BothCreate(states, labels, a, c1, b, c2) && c1.key == c2.key != ""
    ensures !Overlap(c1, c2)
  {
    RunKeepsInv(states, labels);
    var s := states[|labels|];
    if Overlap(c1, c2) {
      var i, j := SharedChannel(c1, c2);
      CreatorHolds(s, a, i);
      CreatorHolds(s, b, j);
    }
  }

  /** The exact condition: in some run two calls with one key both create, if and only if neither repeats a channel and
      they have none in common. */
  lemma BothCreateIff(c1: Call, c2: Call)
    requires c1.key == c2.key != ""
    ensures (exists states, labels, a, b :: BothCreate(states, labels, a, c1, b, c2)) <==> Disjoint(c1, c2)
  {
    if states, labels, a, b :| BothCreate(states, labels, a, c1, b, c2) {
      CreatorsAreDistinct(states, labels, a);
      CreatorsAreDistinct(states, labels, b);
      CreatorsShareNothing(states, labels, a, c1, b, c2);
    }
    if Disjoint(c1, c2) {
      var states, labels := DisjointCallsBothCreate(c1, c2);
    }
  }

  // A call that meets no other one

  /** What `Table.Enqueue` leaves and answers. */
  ghost predicate AnsweredAlone(before: set<Row>, id: nat, c: Call, after: set<Row>, result: set<Row>, replay: bool) {
    if c.key != "" && ByKey(before, c.key) != {} then
      result == ByKey(before, c.key) && replay && after == before
    else if c.key == "" || Distinct(Wanted(c)) then
      result == RowsOf(id, c, |Wanted(c)|) && !replay && after == before + result
    else result == {} && replay && after == before
  }

  ghost predicate NobodyInserts(s: State, id: nat) {
    forall other :: other in s.txs && other != id ==> Staged(s, other) == {}
  }

  lemma OneInsert(s: State, id: nat, c: Call, n: nat)
    requires id in s.txs && s.txs[id] == Tx(c, Inserting(n)) && n < |Wanted(c)| && NobodyInserts(s, id)
    requires c.key == "" || ByKey(s.rows, c.key) == {}
    ensures Enabled(s, Insert(id))
    ensures var repeated := c.key != "" && Wanted(c)[n] in Wanted(c)[..n];
      Step(s, Insert(id)) == s.(txs := s.txs[id := Tx(c, if repeated then Conflicted else Inserting(n + 1))])
  {
    var channel := Wanted(c)[n];
    if c.key != "" {
      ClashIffRepeated({}, id, c, n, channel);
      assert {} + RowsOf(id, c, n) == RowsOf(id, c, n);
      assert forall r :: r in s.rows && r.key == c.key ==> r in ByKey(s.rows, c.key);
    }
  }

  lemma Prepend(s: State, l: Label, states: seq<State>, labels: seq<Label>)
    requires Enabled(s, l) && IsRun(states, labels) && states[0] == Step(s, l)
    ensures IsRun([s] + states, [l] + labels)
  {
    var all, steps := [s] + states, [l] + labels;
    forall i | 0 <= i < |steps| ensures Enabled(all[i], steps[i]) && all[i + 1] == Step(all[i], steps[i]) {
      if i > 0 { assert all[i] == states[i - 1] && steps[i] == labels[i - 1] && all[i + 1] == states[i]; }
    }
  }

  /** The run ends with this call answered. */
  ghost predicate Answers(s: State, id: nat, c: Call, states: seq<State>, labels: seq<Label>) {
    && IsRun(states, labels)
    && var t := states[|labels|];
       && id in t.txs && t.txs[id].phase.Returned?
       && AnsweredAlone(s.rows, id, c, t.rows, t.txs[id].phase.rows, t.txs[id].phase.replay)
  }

  lemma {:induction false} InsertsAreRun(s: State, id: nat, c: Call, n: nat)
    returns (states: seq<State>, labels: seq<Label>)
    requires id in s.txs && s.txs[id] == Tx(c, Inserting(n)) && n <= |Wanted(c)| && NobodyInserts(s, id)
    requires c.key == "" || (ByKey(s.rows, c.key) == {} && Distinct(Wanted(c)[..n]))
    ensures Answers(s, id, c, states, labels) && states[0] == s
    decreases |Wanted(c)| - n
  {
    if n == |Wanted(c)| {
      assert Wanted(c)[..n] == Wanted(c);
      states, labels := [s, Step(s, Commit(id))], [Commit(id)];
    } else {
      OneInsert(s, id, c, n);
      var t := Step(s, Insert(id));
      if t.txs[id].phase.Conflicted? {
        assert !Distinct(Wanted(c)) by {
          var i :| 0 <= i < n && Wanted(c)[i] == Wanted(c)[n];
        }
        states, labels := [t, Step(t, Reload(id))], [Reload(id)];
      } else {
        assert NobodyInserts(t, id);
        states, labels := InsertsAreRun(t, id, c, n + 1);
      }
      Prepend(s, Insert(id), states, labels);
      states, labels := [s] + states, [Insert(id)] + labels;
    }
  }

  /** A call that meets no other one in the middle of its inserts is a run of the concurrent system with the rows and
      the answer of `Table.Enqueue`. */
  lemma CallIsRun(s: State, id: nat, c: Call) returns (states: seq<State>, labels: seq<Label>)
    requires id !in s.txs && NobodyInserts(s, id)
    ensures Answers(s, id, c, states, labels) && states[0] == s
  {
    var s1 := Step(s, Begin(id, c));
    var s2 := Step(s1, Read(id));
    if s2.txs[id].phase.Returned? {
      states, labels := [s2], [];
    } else {
      assert Wanted(c)[..0] == [];
      states, labels := InsertsAreRun(s2, id, c, 0);
    }
    Prepend(s1, Read(id), states, labels);
    states, labels := [s1] + states, [Read(id)] + labels;
    Prepend(s, Begin(id, c), states, labels);
    states, labels := [s] + states, [Begin(id, c)] + labels;
  }
}
