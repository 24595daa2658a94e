/** Kafka record headers, as the consumer reads and writes them. */
module Headers {
  /** One constructor per header name the code knows; names are compared for equality only. */
  datatype Key =
    | RetryAttempt    // x-retry-attempt
    | SourceTopic     // x-source-topic
    | NotBefore       // x-not-before
    | FailedConsumer  // x-failed-consumer
    | ErrorClass      // x-error-class
    | FirstFailedAt   // x-first-failed-at
    | LastFailedAt    // x-last-failed-at
    | Other(name: string)

  function KeyOf(name: string): Key {
    if name == "x-retry-attempt" then RetryAttempt
    else if name == "x-source-topic" then SourceTopic
    else if name == "x-not-before" then NotBefore
    else if name == "x-failed-consumer" then FailedConsumer
    else if name == "x-error-class" then ErrorClass
    else if name == "x-first-failed-at" then FirstFailedAt
    else if name == "x-last-failed-at" then LastFailedAt
    else Other(name)
  }

  /** None of the names is one the failure headers use. */
  ghost predicate Untracked(names: set<string>) {
    forall name :: name in names ==> KeyOf(name).Other?
  }

  /** The name of a header. */
  function NameOf(key: Key): string {
    match key
    case RetryAttempt => "x-retry-attempt"
    case SourceTopic => "x-source-topic"
    case NotBefore => "x-not-before"
    case FailedConsumer => "x-failed-consumer"
    case ErrorClass => "x-error-class"
    case FirstFailedAt => "x-first-failed-at"
    case LastFailedAt => "x-last-failed-at"
    case Other(name) => name
  }

  /** Every name has its own key, and the names the code knows have the keys that stand for them. */
  lemma NamesAndKeys(name: string, key: Key)
    ensures NameOf(KeyOf(name)) == name
    ensures !key.Other? ==> KeyOf(NameOf(key)) == key
  {
  }

  datatype Header = Header(key: Key, value: string)

  function Count(hs: seq<Header>, key: Key): nat {
    if hs == [] then 0 else (if hs[0].key == key then 1 else 0) + Count(hs[1..], key)
  }

  /** Value of the last header with this key, "" when there is none. */
  function HeaderValue(hs: seq<Header>, key: Key): string {
    if hs == [] then ""
    else if Count(hs[1..], key) > 0 then HeaderValue(hs[1..], key)
    else if hs[0].key == key then hs[0].value
    else ""
  }

  /** Overwrites the first header with this key, or appends one. */
  function SetHeader(hs: seq<Header>, key: Key, value: string): seq<Header> {
    if hs == [] then [Header(key, value)]
    else if hs[0].key == key then [Header(key, value)] + hs[1..]
    else [hs[0]] + SetHeader(hs[1..], key, value)
  }

  /** No failure-tracking key occurs twice: what makes reading after writing work. */
  ghost predicate UniqueKeys(hs: seq<Header>) {
    forall k: Key :: !k.Other? ==> Count(hs, k) <= 1
  }

  function Dropped(key: Key): bool {
    key.RetryAttempt? || key.NotBefore? || key.ErrorClass? || key.LastFailedAt?
  }

  function ReplayHeaders(hs: seq<Header>): seq<Header> {
    if hs == [] then []
    else if Dropped(hs[0].key) then ReplayHeaders(hs[1..])
    else [hs[0]] + ReplayHeaders(hs[1..])
  }

  lemma {:induction false} NoMatchNoValue(hs: seq<Header>, key: Key)
    requires Count(hs, key) == 0
    ensures HeaderValue(hs, key) == ""
    ensures forall i :: 0 <= i < |hs| ==> hs[i].key != key
  {
    if hs != [] {
      NoMatchNoValue(hs[1..], key);
      forall i | 0 <= i < |hs| ensures hs[i].key != key {
        if i > 0 { assert hs[i] == hs[1..][i - 1]; }
      }
    }
  }

  lemma {:induction false} ValueAtLastMatch(hs: seq<Header>, key: Key, i: nat)
    requires i < |hs| && hs[i].key == key
    requires forall j :: i < j < |hs| ==> hs[j].key != key
    ensures HeaderValue(hs, key) == hs[i].value && Count(hs, key) > 0
  {
    if i == 0 {
      NoMatchCount(hs[1..], key);
    } else {
      ValueAtLastMatch(hs[1..], key, i - 1);
    }
  }

  lemma {:induction false} NoMatchCount(hs: seq<Header>, key: Key)
    requires forall i :: 0 <= i < |hs| ==> hs[i].key != key
    ensures Count(hs, key) == 0 && HeaderValue(hs, key) == ""
  {
    if hs != [] { NoMatchCount(hs[1..], key); }
  }

  /** A write leaves a key it does not find once, and every other count as it was. */
  lemma {:induction false} SetCount(hs: seq<Header>, key: Key, value: string, other: Key)
    ensures Count(SetHeader(hs, key, value), other)
      == if other == key && Count(hs, key) == 0 then 1 else Count(hs, other)
  {
    if hs != [] {
      if hs[0].key != key { SetCount(hs[1..], key, value, other); }
      assert SetHeader(hs, key, value)[1..] == if hs[0].key == key then hs[1..] else SetHeader(hs[1..], key, value);
    }
  }

  /** Writing never duplicates a key and never touches another one. */
  lemma {:induction false} SetCounts(hs: seq<Header>, key: Key, value: string, other: Key)
    ensures var set' := SetHeader(hs, key, value);
      && Count(set', other) == (if other == key && Count(hs, key) == 0 then 1 else Count(hs, other))
      && (other != key ==> HeaderValue(set', other) == HeaderValue(hs, other))
  {
    SetCount(hs, key, value, other);
    if hs != [] && other != key {
      if hs[0].key != key {
        SetCounts(hs[1..], key, value, other);
        SetCount(hs[1..], key, value, other);
      }
      assert SetHeader(hs, key, value)[1..] == if hs[0].key == key then hs[1..] else SetHeader(hs[1..], key, value);
    }
  }

  /** The write goes to the first match and the read comes from the last one, so a read returns the
      value just written exactly when the key was not duplicated (or already read as that value). */
  lemma {:induction false} GetAfterSetIff(hs: seq<Header>, key: Key, value: string)
    ensures HeaderValue(SetHeader(hs, key, value), key) == value
       <==> Count(hs, key) <= 1 || HeaderValue(hs, key) == value
  {
    if hs == [] {
    } else if hs[0].key == key {
      assert SetHeader(hs, key, value)[1..] == hs[1..];
      if Count(hs[1..], key) == 0 { NoMatchNoValue(hs[1..], key); }
    } else {
      GetAfterSetIff(hs[1..], key, value);
      SetCounts(hs[1..], key, value, key);
      assert SetHeader(hs, key, value)[1..] == SetHeader(hs[1..], key, value);
      if Count(hs[1..], key) == 0 { NoMatchNoValue(hs[1..], key); }
    }
  }

  lemma GetAfterSetFailsOnDuplicates()
    ensures var hs := [Header(RetryAttempt, "1"), Header(RetryAttempt, "2")];
      HeaderValue(SetHeader(hs, RetryAttempt, "3"), RetryAttempt) == "2"
  {
    var hs := [Header(RetryAttempt, "1"), Header(RetryAttempt, "2")];
    var written := SetHeader(hs, RetryAttempt, "3");
    assert written[1].value == "2";
    ValueAtLastMatch(written, RetryAttempt, 1);
  }

  /** One write as readers see it. */
  ghost predicate Wrote(before: seq<Header>, after: seq<Header>, key: Key, value: string) {
    && UniqueKeys(after)
    && HeaderValue(after, key) == value
    && forall k: Key :: k != key ==> HeaderValue(after, k) == HeaderValue(before, k)
  }

  lemma SetThenGet(hs: seq<Header>, key: Key, value: string)
    requires UniqueKeys(hs) && !key.Other?
    ensures Wrote(hs, SetHeader(hs, key, value), key, value)
  {
    GetAfterSetIff(hs, key, value);
    forall k: Key
      ensures k != key ==> HeaderValue(SetHeader(hs, key, value), k) == HeaderValue(hs, k)
      ensures !k.Other? ==> Count(SetHeader(hs, key, value), k) <= 1
    {
      SetCounts(hs, key, value, k);
    }
  }

  lemma Prepended(h: Header, tail: seq<Header>, key: Key)
    ensures Count([h] + tail, key) == (if h.key == key then 1 else 0) + Count(tail, key)
    ensures HeaderValue([h] + tail, key)
      == if Count(tail, key) > 0 then HeaderValue(tail, key) else if h.key == key then h.value else ""
  {
    assert ([h] + tail)[1..] == tail;
  }

  lemma NoValue(hs: seq<Header>, key: Key)
    requires Count(hs, key) == 0
    ensures HeaderValue(hs, key) == ""
  {
    NoMatchNoValue(hs, key);
  }

  /** A replay forgets the four per-attempt keys and keeps every other one as it was. */
  lemma {:induction false} ReplayKeeps(hs: seq<Header>, key: Key)
    ensures var out := ReplayHeaders(hs);
      if key == RetryAttempt || key == NotBefore || key == Key.ErrorClass || key == LastFailedAt then
        Count(out, key) == 0 && HeaderValue(out, key) == ""
      else Count(out, key) == Count(hs, key) && HeaderValue(out, key) == HeaderValue(hs, key)
  {
    if hs != [] {
      var tail := hs[1..];
      ReplayKeeps(tail, key);
      if !Dropped(hs[0].key) {
        Prepended(hs[0], ReplayHeaders(tail), key);
      } else if hs[0].key != key && Count(tail, key) == 0 {
        NoValue(tail, key);
      }
    }
  }

  lemma {:induction false} SetAtFirstMatch(hs: seq<Header>, key: Key, value: string, i: nat)
    requires i <= |hs| && forall j :: 0 <= j < i ==> hs[j].key != key
    requires i < |hs| ==> hs[i].key == key
    ensures SetHeader(hs, key, value) == if i < |hs| then hs[i := Header(key, value)] else hs + [Header(key, value)]
  {
    if i > 0 {
      SetAtFirstMatch(hs[1..], key, value, i - 1);
    }
  }

  /** A record's header slice. */
  class HeaderList {
    var items: seq<Header>

    constructor (items: seq<Header>)
      ensures this.items == items
    {
      this.items := items;
    }

    /** Same content in a slice of its own: later writes to the clone leave the record alone. */
    method Clone() returns (copy: HeaderList)
      ensures fresh(copy) && copy.items == items
    {
      copy := new HeaderList(items);
    }

    method Set(key: Key, value: string)
      modifies this
      ensures items == SetHeader(old(items), key, value)
    {
      for i := 0 to |items|
        invariant items == old(items)
        invariant forall j :: 0 <= j < i ==> items[j].key != key
      {
        if items[i].key == key {
          SetAtFirstMatch(items, key, value, i);
          items := items[i := Header(key, value)];
          return;
        }
      }
      SetAtFirstMatch(items, key, value, |items|);
      items := items + [Header(key, value)];
    }

    method Get(key: Key) returns (value: string)
      ensures value == HeaderValue(items, key)
    {
      var i := |items| - 1;
      while i >= 0
        invariant -1 <= i < |items|
        invariant forall j :: i < j < |items| ==> items[j].key != key
      {
        if items[i].key == key {
          ValueAtLastMatch(items, key, i);
          return items[i].value;
        }
        i := i - 1;
      }
      NoMatchCount(items, key);
      value := "";
    }
  }

  lemma {:induction false} ReplayAppend(hs: seq<Header>, h: Header)
    ensures ReplayHeaders(hs + [h]) == ReplayHeaders(hs) + (if Dropped(h.key) then [] else [h])
  {
    if hs == [] {
    } else {
      assert (hs + [h])[1..] == hs[1..] + [h];
      ReplayAppend(hs[1..], h);
    }
  }

  /** The loop of the replay tool's header filter. */
  method FilterForReplay(hs: seq<Header>) returns (out: seq<Header>)
    ensures out == ReplayHeaders(hs)
  {
    out := [];
    for i := 0 to |hs|
      invariant out == ReplayHeaders(hs[..i])
    {
      ReplayAppend(hs[..i], hs[i]);
      assert hs[..i] + [hs[i]] == hs[..i + 1];
      match hs[i].key {
        case RetryAttempt | NotBefore | ErrorClass | LastFailedAt =>
        case _ => out := out + [hs[i]];
      }
    }
    assert hs[..|hs|] == hs;
  }
}
