/** Consumer-side dedupe and version watermark: one transaction per event. */
module Inbox {
  import opened Events

  /** A committed transaction: this consumer handled this event. */
  datatype Effect = Effect(consumer: string, event: Event)

  /** `event_inbox`, `event_inbox_watermarks`, and the history of committed transactions. */
  datatype State = State(
    processed: set<(string, nat)>,
    watermarks: map<(string, string), int>,
    effects: seq<Effect>
  )

  const EMPTY := State({}, map[], [])

  datatype Verdict = Succeeds | Fails(kind: FailureClass)

  datatype Result = Applied | Duplicate | Stale | Failed(kind: FailureClass)

  predicate Rejected(st: State, consumer: string, e: Event) {
    (consumer, e.subject) in st.watermarks && IsStale(e.version, st.watermarks[(consumer, e.subject)])
  }

  function Advance(marks: map<(string, string), int>, consumer: string, e: Event): map<(string, string), int> {
    var k := (consumer, e.subject);
    if k !in marks || marks[k] < e.version then marks[k := e.version] else marks
  }

  function Commit(st: State, consumer: string, e: Event): State {
    State(st.processed + {(consumer, e.id)}, Advance(st.watermarks, consumer, e), st.effects + [Effect(consumer, e)])
  }

  /** Stale first, then duplicate, then the handler; anything but success leaves the tables alone. */
  function Transact(st: State, consumer: string, e: Event, verdict: Verdict): (State, Result) {
    if Rejected(st, consumer, e) then (st, Stale)
    else if (consumer, e.id) in st.processed then (st, Duplicate)
    else if verdict.Fails? then (st, Failed(verdict.kind))
    else (Commit(st, consumer, e), Applied)
  }

  // What the tables mean

  ghost predicate Handled(st: State, consumer: string, e: Event) {
    exists i :: 0 <= i < |st.effects| && st.effects[i] == Effect(consumer, e)
  }

  /** Some newer event of the same subject was handled. */
  ghost predicate Superseded(st: State, consumer: string, e: Event) {
    exists i :: 0 <= i < |st.effects| && IsNewer(st.effects[i], consumer, e)
  }

  ghost predicate IsNewer(f: Effect, consumer: string, e: Event) {
    f.consumer == consumer && f.event.subject == e.subject && f.event.version > e.version
  }

  /** Highest version this consumer committed for the subject, 0 when none. */
  function MaxVersion(effects: seq<Effect>, consumer: string, subject: string): int {
    if effects == [] then 0
    else
      var rest := MaxVersion(effects[..|effects| - 1], consumer, subject);
      var last := effects[|effects| - 1];
      if last.consumer == consumer && last.event.subject == subject && last.event.version > rest
      then last.event.version else rest
  }

  function Watermark(st: State, consumer: string, subject: string): int {
    if (consumer, subject) in st.watermarks then st.watermarks[(consumer, subject)] else 0
  }

  ghost predicate AtMostOnce(effects: seq<Effect>) {
    forall i, j :: 0 <= i < j < |effects| ==>
      effects[i].consumer != effects[j].consumer || effects[i].event.id != effects[j].event.id
  }

  ghost predicate VersionsInOrder(effects: seq<Effect>) {
    forall i, j :: 0 <= i < j < |effects| && effects[i].consumer == effects[j].consumer
      && effects[i].event.subject == effects[j].event.subject
      ==> effects[i].event.version <= effects[j].event.version
  }

  ghost predicate HasEffect(effects: seq<Effect>, consumer: string, id: nat) {
    exists i :: 0 <= i < |effects| && effects[i].consumer == consumer && effects[i].event.id == id
  }

  ghost predicate ProcessedMatches(st: State) {
    forall c: string, id: nat :: (c, id) in st.processed <==> HasEffect(st.effects, c, id)
  }

  ghost predicate WatermarksMatch(st: State) {
    && (forall c, s :: Watermark(st, c, s) == MaxVersion(st.effects, c, s))
    && (forall k :: k in st.watermarks ==> st.watermarks[k] >= 1)
  }

  /** What every run keeps: one effect per event, versions in order, and tables that mirror the effects. */
  ghost predicate Inv(st: State) {
    && AtMostOnce(st.effects)
    && VersionsInOrder(st.effects)
    && ProcessedMatches(st)
    && WatermarksMatch(st)
  }

  lemma {:induction false} MaxVersionBounds(effects: seq<Effect>, c: string, s: string, i: nat)
    requires i < |effects| && effects[i].consumer == c && effects[i].event.subject == s
    ensures effects[i].event.version <= MaxVersion(effects, c, s)
  {
    if i < |effects| - 1 {
      MaxVersionBounds(effects[..|effects| - 1], c, s, i);
    }
  }

  lemma {:induction false} MaxVersionReached(effects: seq<Effect>, c: string, s: string) returns (i: nat)
    requires MaxVersion(effects, c, s) > 0
    ensures i < |effects| && effects[i].consumer == c && effects[i].event.subject == s
    ensures effects[i].event.version == MaxVersion(effects, c, s)
  {
    var n := |effects| - 1;
    if MaxVersion(effects[..n], c, s) == MaxVersion(effects, c, s) {
      i := MaxVersionReached(effects[..n], c, s);
    } else {
      i := n;
    }
  }

  lemma CommitKeepsEffects(st: State, consumer: string, e: Event)
    requires Inv(st) && e.version >= 1
    requires !Rejected(st, consumer, e) && (consumer, e.id) !in st.processed
    ensures AtMostOnce(Commit(st, consumer, e).effects) && VersionsInOrder(Commit(st, consumer, e).effects)
  {
    var n := |st.effects|;
    forall i | 0 <= i < n && st.effects[i].consumer == consumer && st.effects[i].event.subject == e.subject
      ensures st.effects[i].event.version <= e.version
    {
      MaxVersionBounds(st.effects, consumer, e.subject, i);
      assert Watermark(st, consumer, e.subject) == MaxVersion(st.effects, consumer, e.subject);
    }
    assert !HasEffect(st.effects, consumer, e.id);
  }

  lemma CommitKeepsProcessed(st: State, consumer: string, e: Event)
    requires ProcessedMatches(st)
    ensures ProcessedMatches(Commit(st, consumer, e))
  {
    var after := Commit(st, consumer, e);
    forall c: string, id: nat ensures (c, id) in after.processed <==> HasEffect(after.effects, c, id) {
      assert (c, id) in st.processed <==> HasEffect(st.effects, c, id);
      if HasEffect(st.effects, c, id) {
        var i :| 0 <= i < |st.effects| && st.effects[i].consumer == c && st.effects[i].event.id == id;
        assert after.effects[i] == st.effects[i];
      }
      assert after.effects[|st.effects|] == Effect(consumer, e);
    }
  }

  lemma CommitKeepsInv(st: State, consumer: string, e: Event)
    requires Inv(st) && e.version >= 1
    requires !Rejected(st, consumer, e) && (consumer, e.id) !in st.processed
    ensures Inv(Commit(st, consumer, e))
    ensures Watermark(Commit(st, consumer, e), consumer, e.subject) == e.version
  {
    CommitKeepsEffects(st, consumer, e);
    CommitKeepsProcessed(st, consumer, e);
  }

  lemma ProcessKeepsInv(st: State, consumer: string, e: Event, verdict: Verdict)
    requires Inv(st) && e.version >= 1
    ensures Inv(Transact(st, consumer, e, verdict).0)
  {
    if Transact(st, consumer, e, verdict).1.Applied? { CommitKeepsInv(st, consumer, e); }
  }

  /** What each answer tells the consumer, whose offset moves past the event for the first three. */
  lemma ProcessMeaning(st: State, consumer: string, e: Event, verdict: Verdict)
    requires Inv(st) && e.version >= 1
    ensures var (after, result) := Transact(st, consumer, e, verdict);
      match result {
        case Applied => after.effects == st.effects + [Effect(consumer, e)] && Handled(after, consumer, e)
        case Duplicate => after == st && (consumer, e.id) in st.processed
        case Stale => after == st && Superseded(st, consumer, e)
        case Failed(c) => after == st && verdict == Fails(c)
      }
  {
    var (after, result) := Transact(st, consumer, e, verdict);
    match result {
      case Applied =>
        assert after.effects[|st.effects|] == Effect(consumer, e);
      case Stale =>
        assert Watermark(st, consumer, e.subject) == MaxVersion(st.effects, consumer, e.subject);
        var i := MaxVersionReached(st.effects, consumer, e.subject);
        assert IsNewer(st.effects[i], consumer, e);
      case _ =>
    }
  }

  /** A stale answer means a strictly newer event was handled, and nothing else means that. */
  lemma StaleIffSuperseded(st: State, consumer: string, e: Event, verdict: Verdict)
    requires Inv(st) && e.version >= 1
    ensures Transact(st, consumer, e, verdict).1.Stale? <==> Superseded(st, consumer, e)
  {
    if Superseded(st, consumer, e) {
      var i :| 0 <= i < |st.effects| && IsNewer(st.effects[i], consumer, e);
      MaxVersionBounds(st.effects, consumer, e.subject, i);
      assert Watermark(st, consumer, e.subject) == MaxVersion(st.effects, consumer, e.subject);
    } else {
      ProcessMeaning(st, consumer, e, verdict);
    }
  }

  /** The whole table of answers, in terms of what was handled before: a superseded event is stale, one that was handled
      is a duplicate, and otherwise the handler decides, whose failure of either kind leaves nothing behind. */
  lemma ProcessAnswers(st: State, consumer: string, e: Event, verdict: Verdict)
    requires Inv(st) && e.version >= 1
    ensures var (after, result) := Transact(st, consumer, e, verdict);
      var again := HasEffect(st.effects, consumer, e.id);
      && (result.Stale? <==> Superseded(st, consumer, e))
      && (result.Duplicate? <==> !Superseded(st, consumer, e) && again)
      && (forall k :: result == Failed(k) <==> !Superseded(st, consumer, e) && !again && verdict == Fails(k))
      && (result.Applied? <==> !Superseded(st, consumer, e) && !again && verdict == Succeeds)
      && after.effects == st.effects + (if result.Applied? then [Effect(consumer, e)] else [])
      && (!result.Applied? ==> after == st)
      && (result.Applied? ==>
           && after.processed == st.processed + {(consumer, e.id)}
           && after.watermarks == st.watermarks[(consumer, e.subject) := e.version])
  {
    StaleIffSuperseded(st, consumer, e, verdict);
    ProcessMeaning(st, consumer, e, verdict);
    assert (consumer, e.id) in st.processed <==> HasEffect(st.effects, consumer, e.id);
    assert st.effects + [] == st.effects;
  }

  /** The two tables, updated statement by statement inside a transaction. */
  class Store {
    var processed: set<(string, nat)>
    var watermarks: map<(string, string), int>
    var effects: seq<Effect>

    constructor ()
      ensures Contents() == EMPTY
    {
      processed, watermarks, effects := {}, map[], [];
    }

    ghost function Contents(): State
      reads this
    {
      State(processed, watermarks, effects)
    }

    method RejectStale(consumer: string, e: Event) returns (stale: bool)
      ensures stale == Rejected(Contents(), consumer, e)
    {
      var k := (consumer, e.subject);
      if k !in watermarks {
        return false;
      }
      var last := watermarks[k];
      stale := IsStale(e.version, last);
    }

    method AdvanceWatermark(consumer: string, e: Event)
      modifies this`watermarks
      ensures watermarks == Advance(old(watermarks), consumer, e)
    {
      var k := (consumer, e.subject);
      if k !in watermarks {
        watermarks := watermarks[k := e.version];
      } else if watermarks[k] < e.version {
        watermarks := watermarks[k := e.version];
      }
    }

    /** `verdict` is what the handler will return; on its failure the whole transaction rolls back. */
    method Process(consumer: string, e: Event, verdict: Verdict) returns (result: Result)
      modifies this
      ensures (Contents(), result) == Transact(old(Contents()), consumer, e, verdict)
    {
      var stale := RejectStale(consumer, e);
      if stale {
        return Stale;
      }
      var processedBefore, watermarksBefore := processed, watermarks;
      if (consumer, e.id) in processed {
        return Duplicate;
      }
      processed := processed + {(consumer, e.id)};
      AdvanceWatermark(consumer, e);
      match verdict {
        case Fails(kind) =>
          processed, watermarks := processedBefore, watermarksBefore;
          result := Failed(kind);
        case Succeeds =>
          effects := effects + [Effect(consumer, e)];
          result := Applied;
      }
    }
  }
}
