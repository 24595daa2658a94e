/** The event envelope, the names of its topics, and the failure classes. */
module Events {
  import opened Options

  datatype Correlation = NoCorrelation | NotUuid(text: string) | Uuid(id: nat)

  const NIL_ID := 0
  const SPEC_VERSION := "1.0"
  const JSON := "application/json"

  datatype Event = Event(
    specVersion: string,
    id: nat,                  // 0 is the nil UUID
    source: string,
    eventType: string,
    subject: string,
    time: nat,                // 0 is the zero time
    contentType: string,
    dataSchema: string,
    correlation: Correlation,
    version: int,
    dataIsJson: bool
  )

  predicate Valid(e: Event) {
    && e.specVersion == SPEC_VERSION
    && e.id != NIL_ID
    && e.source != "" && e.eventType != "" && e.subject != ""
    && e.time != 0
    && e.contentType == JSON
    && e.dataSchema != ""
    && e.correlation.Uuid?
    && e.version >= 1
    && e.dataIsJson
  }

  /** A record value: the JSON text of an event, or bytes that are not one. */
  datatype Payload = Encoded(event: Event) | Garbage(bytes: string)

  function Decode(value: Payload): Option<Event> {
    if value.Encoded? && Valid(value.event) then Some(value.event) else None
  }

  predicate IsStale(incoming: int, lastSeen: int) {
    lastSeen > 0 && incoming < lastSeen
  }

  datatype FailureClass = Transient | Permanent

  function ClassName(c: FailureClass): string {
    if c.Permanent? then "permanent" else "transient"
  }

  // Topic names

  const RETRY_SUFFIX := ".retry.v1"
  const DLQ_SUFFIX := ".dlq.v1"
  const SOURCE_SUFFIX := ".events.v1"

  function RetryTopic(source: string, consumer: string): string {
    source + "." + consumer + RETRY_SUFFIX
  }

  function DLQTopic(source: string, consumer: string): string {
    source + "." + consumer + DLQ_SUFFIX
  }

  /** What `event.Topic` builds always ends in `.events.v1`. */
  predicate IsSourceTopic(topic: string) {
    |topic| > |SOURCE_SUFFIX| && topic[|topic| - |SOURCE_SUFFIX|..] == SOURCE_SUFFIX
  }

  /** Consumer names are single segments of a topic name. */
  predicate IsSegment(name: string) {
    name != "" && '.' !in name
  }

  lemma KindByLetter(source: string, consumer: string, topic: string)
    ensures RetryTopic(source, consumer)[|RetryTopic(source, consumer)| - 4] == 'y'
    ensures DLQTopic(source, consumer)[|DLQTopic(source, consumer)| - 4] == 'q'
    ensures IsSourceTopic(topic) ==> topic[|topic| - 4] == 's'
  {
    if IsSourceTopic(topic) {
      assert topic[|topic| - 4] == topic[|topic| - |SOURCE_SUFFIX|..][|SOURCE_SUFFIX| - 4];
    }
  }

  /** The three kinds of topic never share a name. */
  lemma TopicKindsDisjoint(s1: string, c1: string, s2: string, c2: string)
    ensures RetryTopic(s1, c1) != DLQTopic(s2, c2)
    ensures IsSourceTopic(s2) ==> s2 != RetryTopic(s1, c1) && s2 != DLQTopic(s1, c1)
  {
    KindByLetter(s1, c1, s2);
    KindByLetter(s2, c2, s2);
  }

  lemma DotInside(a1: string, b1: string, a2: string, b2: string)
    requires a1 + "." + b1 == a2 + "." + b2 && |a1| < |a2|
    ensures '.' in b1
  {
    assert (a1 + "." + b1)[|a2|] == (a2 + "." + b2)[|a2|] == '.';
    assert b1[|a2| - |a1| - 1] == '.';
  }

  /** The last dot splits a name in one way only. */
  lemma LastDot(a1: string, b1: string, a2: string, b2: string)
    requires a1 + "." + b1 == a2 + "." + b2
    requires '.' !in b1 && '.' !in b2
    ensures a1 == a2 && b1 == b2
  {
    if |a1| < |a2| { DotInside(a1, b1, a2, b2); }
    if |a2| < |a1| { DotInside(a2, b2, a1, b1); }
    var s := a1 + "." + b1;
    var t := a2 + "." + b2;
    assert a1 == s[..|a1|] == t[..|a2|] == a2;
    assert b1 == s[|a1| + 1..] == t[|a2| + 1..] == b2;
  }

  /** A retry or dead-letter topic names one source and one consumer, if consumer names hold no dot. */
  lemma FailureTopicsInjective(s1: string, c1: string, s2: string, c2: string)
    requires IsSegment(c1) && IsSegment(c2)
    ensures RetryTopic(s1, c1) == RetryTopic(s2, c2) ==> s1 == s2 && c1 == c2
    ensures DLQTopic(s1, c1) == DLQTopic(s2, c2) ==> s1 == s2 && c1 == c2
  {
    var a := s1 + "." + c1;
    var b := s2 + "." + c2;
    if RetryTopic(s1, c1) == RetryTopic(s2, c2) {
      assert RetryTopic(s1, c1)[..|a|] == a && RetryTopic(s2, c2)[..|b|] == b;
      LastDot(s1, c1, s2, c2);
    }
    if DLQTopic(s1, c1) == DLQTopic(s2, c2) {
      assert DLQTopic(s1, c1)[..|a|] == a && DLQTopic(s2, c2)[..|b|] == b;
      LastDot(s1, c1, s2, c2);
    }
  }

  /** One consumer name is the other one behind the tail of a source topic. */
  ghost predicate Extends(longer: string, shorter: string) {
    exists tail :: IsTail(longer, tail, shorter)
  }

  ghost predicate IsTail(longer: string, tail: string, shorter: string) {
    longer == tail + "." + shorter && EndsSource("." + tail)
  }

  predicate EndsSource(s: string) {
    |s| >= |SOURCE_SUFFIX| && s[|s| - |SOURCE_SUFFIX|..] == SOURCE_SUFFIX
  }

  ghost predicate Collide(s1: string, c1: string, s2: string, c2: string) {
    && IsSourceTopic(s1) && IsSourceTopic(s2) && !(s1 == s2 && c1 == c2)
    && RetryTopic(s1, c1) == RetryTopic(s2, c2)
  }

  /** A source topic ends in no dot within its last ten letters that has a `1` before it. */
  lemma NoShortTail(s2: string, n: nat)
    requires IsSourceTopic(s2) && 1 <= n < |SOURCE_SUFFIX| && s2[|s2| - n] == '.'
    ensures s2[|s2| - n - 1] != '1'
  {
  }

  lemma TailOfSource(s1: string, tail: string)
    requires IsSourceTopic(s1) && IsSourceTopic(s1 + ("." + tail))
    ensures EndsSource("." + tail)
  {
    var s2, n := s1 + ("." + tail), |tail| + 1;
    assert s2[|s2| - n] == '.' && s2[|s2| - n - 1] == '1';
    if n < |SOURCE_SUFFIX| { NoShortTail(s2, n); }
  }

  lemma CollisionExtends(s1: string, c1: string, s2: string, c2: string)
    requires Collide(s1, c1, s2, c2) && |s1| < |s2|
    ensures Extends(c1, c2)
  {
    var a, b := s1 + "." + c1, s2 + "." + c2;
    assert RetryTopic(s1, c1)[..|a|] == a && RetryTopic(s2, c2)[..|b|] == b;
    var tail := s2[|s1| + 1..];
    assert a[|s1|] == b[|s1|] == '.';
    assert s2 == s1 + ("." + tail) by { assert s2[..|s1|] == b[..|s1|] == a[..|s1|] == s1; }
    assert c1 == a[|s1| + 1..] == b[|s1| + 1..] == tail + "." + c2;
    TailOfSource(s1, tail);
    assert IsTail(c1, tail, c2);
  }

  lemma LongerSource(s1: string, tail: string)
    requires EndsSource("." + tail) && s1 != ""
    ensures IsSourceTopic(s1 + ("." + tail))
  {
  }

  lemma ExtensionCollides(s1: string, c1: string, tail: string, c2: string)
    requires IsTail(c1, tail, c2) && IsSourceTopic(s1)
    ensures Collide(s1, c1, s1 + ("." + tail), c2)
  {
    LongerSource(s1, tail);
    SameJoin(s1, ".", tail, ".", c2);
    var s2 := s1 + ("." + tail);
    assert |s2| > |s1|;
    assert RetryTopic(s1, c1) == (s1 + "." + c1) + RETRY_SUFFIX && RetryTopic(s2, c2) == (s2 + "." + c2) + RETRY_SUFFIX;
  }

  lemma SameJoin(a: string, b: string, c: string, d: string, e: string)
    ensures a + b + (c + d + e) == a + (b + c) + d + e
  {
  }

  /** The exact condition on two consumer names: some source topics give them one retry topic, if and only if one name
      is the other one behind the tail of a source topic, which takes dots in it. */
  lemma FailureTopicsCollideIff(c1: string, c2: string)
    ensures (exists s1, s2 :: Collide(s1, c1, s2, c2)) <==> Extends(c1, c2) || Extends(c2, c1)
  {
    if s1, s2 :| Collide(s1, c1, s2, c2) {
      if |s1| < |s2| {
        CollisionExtends(s1, c1, s2, c2);
      } else if |s2| < |s1| {
        assert Collide(s2, c2, s1, c1);
        CollisionExtends(s2, c2, s1, c1);
      } else {
        SameLength(s1, c1, s2, c2);
      }
    }
    var s := "a.events.v1";
    if tail :| IsTail(c1, tail, c2) { ExtensionCollides(s, c1, tail, c2); }
    if tail :| IsTail(c2, tail, c1) {
      ExtensionCollides(s, c2, tail, c1);
      assert Collide(s + ("." + tail), c1, s, c2);
    }
  }

  lemma SameLength(s1: string, c1: string, s2: string, c2: string)
    requires |s1| == |s2| && RetryTopic(s1, c1) == RetryTopic(s2, c2)
    ensures s1 == s2 && c1 == c2
  {
    var a, b := s1 + "." + c1, s2 + "." + c2;
    assert |RetryTopic(s1, c1)| == |a| + |RETRY_SUFFIX| && |RetryTopic(s2, c2)| == |b| + |RETRY_SUFFIX|;
    assert RetryTopic(s1, c1)[..|a|] == a && RetryTopic(s2, c2)[..|b|] == b;
    assert s1 == a[..|s1|] && s2 == b[..|s2|] && c1 == a[|s1| + 1..] && c2 == b[|s2| + 1..];
  }
}
