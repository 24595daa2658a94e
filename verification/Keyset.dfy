/** Keyset pages over a list ordered by (created_at, id), and walks that follow their cursors. */
module Keyset {
  import opened Options
  import opened Collections

  /** Creation time and id: neither ever changes, so a row is named by the pair. */
  datatype Key = Key(at: int, id: nat)

  type Table<B> = map<Key, B>

  datatype Row<B> = Row(key: Key, body: B)

  // Cursors. The base64 JSON text is taken as a value; 0 stands for the nil UUID and the zero time.

  datatype CursorText = NoCursor | Garbled | Json(at: int, id: nat)

  function EncodeCursor(k: Key): CursorText {
    Json(k.at, k.id)
  }

  function DecodeCursor(c: CursorText): Option<Key> {
    if c.Json? && c.id != 0 && c.at != 0 then Some(Key(c.at, c.id)) else None
  }

  datatype Listing<B> = Listing(items: seq<Row<B>>, total: nat, nextCursor: CursorText)

  // The order

  predicate Precedes(a: Key, b: Key, asc: bool) {
    if asc then a.at < b.at || (a.at == b.at && a.id < b.id)
    else b.at < a.at || (a.at == b.at && b.id < a.id)
  }

  /** By creation time, then by id, up or down: of two rows exactly one comes first. */
  lemma KeyOrder(a: Key, b: Key, asc: bool)
    ensures Precedes(a, b, asc) <==> var (first, second) := if asc then (a, b) else (b, a);
      first.at < second.at || (first.at == second.at && first.id < second.id)
    ensures a != b ==> (Precedes(a, b, asc) <==> !Precedes(b, a, asc))
    ensures !Precedes(a, a, asc)
  {
  }

  ghost predicate Ordered(s: seq<Key>, asc: bool) {
    forall i, j :: 0 <= i < j < |s| ==> Precedes(s[i], s[j], asc)
  }

  ghost function Elements(s: seq<Key>): set<Key> {
    set k | k in s
  }

  lemma Concatenation(a: seq<Key>, b: seq<Key>, asc: bool)
    requires Ordered(a, asc) && Ordered(b, asc)
    requires forall x, y :: x in a && y in b ==> Precedes(x, y, asc)
    ensures Ordered(a + b, asc) && Elements(a + b) == Elements(a) + Elements(b)
  {
  }

  lemma TailElements(s: seq<Key>, asc: bool)
    requires Ordered(s, asc) && s != []
    ensures Elements(s[1..]) == Elements(s) - {s[0]} && Ordered(s[1..], asc)
  {
    assert s == [s[0]] + s[1..];
  }

  lemma SomeElement(s: seq<Key>)
    ensures s == [] <==> Elements(s) == {}
  {
    if s != [] { assert s[0] in Elements(s); }
  }

  /** An ordered list is determined by its elements. */
  lemma {:induction false} OrderedUnique(a: seq<Key>, b: seq<Key>, asc: bool)
    requires Ordered(a, asc) && Ordered(b, asc) && Elements(a) == Elements(b)
    ensures a == b
  {
    SomeElement(a);
    SomeElement(b);
    if a != [] {
      assert a[0] in Elements(b) && b[0] in Elements(a);
      TailElements(a, asc);
      TailElements(b, asc);
      OrderedUnique(a[1..], b[1..], asc);
    }
  }

  ghost predicate IsFirst(first: Key, s: set<Key>, asc: bool) {
    first in s && forall k :: k in s && k != first ==> Precedes(first, k, asc)
  }

  lemma {:induction false} HasFirst(s: set<Key>, asc: bool) returns (first: Key)
    requires s != {}
    ensures IsFirst(first, s, asc)
  {
    var some :| some in s;
    first := some;
    if s != {some} {
      var other := HasFirst(s - {some}, asc);
      if Precedes(other, some, asc) { first := other; }
      forall k | k in s && k != first ensures Precedes(first, k, asc) {
        assert k == some || k in s - {some};
      }
    }
  }

  /** The rows of a set as one ordered list. */
  ghost function Sorted(s: set<Key>, asc: bool): (r: seq<Key>)
    ensures Ordered(r, asc) && Elements(r) == s
    decreases |s|
  {
    if s == {} then [] else
      var first := FirstOf(s, asc);
      var rest := Sorted(s - {first}, asc);
      Members(rest);
      Concatenation([first], rest, asc);
      assert Elements([first]) == {first};
      [first] + rest
  }

  ghost function FirstOf(s: set<Key>, asc: bool): (first: Key)
    requires s != {}
    ensures IsFirst(first, s, asc)
  {
    assert exists f :: IsFirst(f, s, asc) by { var f := HasFirst(s, asc); }
    var first :| IsFirst(first, s, asc);
    first
  }

  lemma Members(s: seq<Key>)
    ensures forall k :: k in s <==> k in Elements(s)
  {
  }

  /** Beyond the cursor. */
  ghost function Beyond(s: set<Key>, start: Key, asc: bool): set<Key> {
    set k | k in s && Precedes(start, k, asc)
  }

  /** A start point, whether or not it is a row, cuts the sorted list in two. */
  lemma SortedSplits(s: set<Key>, start: Key, asc: bool)
    ensures Sorted(s, asc) == Sorted(s - Beyond(s, start, asc), asc) + Sorted(Beyond(s, start, asc), asc)
  {
    var a, b := Sorted(s - Beyond(s, start, asc), asc), Sorted(Beyond(s, start, asc), asc);
    Members(a);
    Members(b);
    Concatenation(a, b, asc);
    assert Elements(a + b) == s;
    OrderedUnique(Sorted(s, asc), a + b, asc);
  }

  // Pages

  /** What one keyset query returns: the first `limit` matching rows beyond the cursor, in order. */
  ghost predicate IsPage(matching: set<Key>, start: Key, asc: bool, limit: nat, page: seq<Key>) {
    && Ordered(page, asc)
    && |page| <= limit
    && (forall k :: k in page ==> k in Beyond(matching, start, asc))
    && (forall k :: k in Beyond(matching, start, asc) && k !in page ==>
         |page| == limit && forall p :: p in page ==> Precedes(p, k, asc))
  }

  function KeysOf<B>(items: seq<Row<B>>): (keys: seq<Key>)
    ensures |keys| == |items| && forall i :: 0 <= i < |items| ==> keys[i] == items[i].key
  {
    seq(|items|, i requires 0 <= i < |items| => items[i].key)
  }

  /** A keyset answer: a page, with a cursor to its last row exactly when the page is full. */
  ghost predicate IsAnswer<B>(matching: set<Key>, start: Key, asc: bool, limit: nat, answer: Listing<B>) {
    && IsPage(matching, start, asc, limit, KeysOf(answer.items))
    && (|answer.items| < limit ==> answer.nextCursor == NoCursor)
    && (0 < |answer.items| == limit ==> answer.nextCursor == EncodeCursor(answer.items[limit - 1].key))
  }

  lemma PrefixIsPage(matching: set<Key>, start: Key, asc: bool, limit: nat)
    ensures var all := Sorted(Beyond(matching, start, asc), asc);
      IsPage(matching, start, asc, limit, Slice(all, limit, 0))
  {
    var all := Sorted(Beyond(matching, start, asc), asc);
    assert forall k :: k in all <==> k in Elements(all);
    if |all| > limit {
      assert forall k :: k in all && k !in all[..limit] ==> k in all[limit..];
    }
  }

  // Running a query

  method First(keys: set<Key>, asc: bool) returns (first: Key)
    requires keys != {}
    ensures IsFirst(first, keys, asc)
  {
    first :| first in keys;
    var rest := keys - {first};
    while rest != {}
      invariant first in keys && rest <= keys - {first}
      invariant forall k :: k in keys && k !in rest && k != first ==> Precedes(first, k, asc)
      decreases rest
    {
      var k :| k in rest;
      if Precedes(k, first, asc) {
        first := k;
      }
      rest := rest - {k};
    }
  }

  method Sort(keys: set<Key>, asc: bool) returns (sorted: seq<Key>)
    ensures sorted == Sorted(keys, asc)
  {
    sorted := [];
    var rest := keys;
    while rest != {}
      invariant rest <= keys && Elements(sorted) == keys - rest && Ordered(sorted, asc)
      invariant forall k, other :: k in sorted && other in rest ==> Precedes(k, other, asc)
      decreases rest
    {
      var k := First(rest, asc);
      ghost var before := sorted;
      sorted, rest := sorted + [k], rest - {k};
      assert Elements(sorted) == Elements(before) + {k};
    }
    OrderedUnique(sorted, Sorted(keys, asc), asc);
  }

  /** The conditions of a WHERE clause, joined by AND. */
  predicate Holds<B>(where: seq<(Key, B) -> bool>, k: Key, b: B) {
    forall i :: 0 <= i < |where| ==> where[i](k, b)
  }

  function Selected<B>(t: Table<B>, where: seq<(Key, B) -> bool>): set<Key> {
    set k | k in t && Holds(where, k, t[k])
  }

  lemma HoldsAppend<B>(where: seq<(Key, B) -> bool>, more: (Key, B) -> bool)
    ensures forall k, b :: Holds(where + [more], k, b) <==> Holds(where, k, b) && more(k, b)
  {
    var all := where + [more];
    forall k, b ensures Holds(all, k, b) <==> Holds(where, k, b) && more(k, b) {
      if Holds(all, k, b) {
        assert all[|where|](k, b);
        forall i | 0 <= i < |where| ensures where[i](k, b) { assert all[i](k, b); }
      }
    }
  }

  /** The part of a sorted list that LIMIT and OFFSET keep. */
  function Slice(all: seq<Key>, limit: nat, offset: nat): seq<Key> {
    var rest := if offset <= |all| then all[offset..] else [];
    if |rest| <= limit then rest else rest[..limit]
  }

  /** How many of `total` rows an offset page holds. */
  function PageSize(total: nat, limit: nat, offset: nat): nat {
    if total <= offset then 0 else if total - offset <= limit then total - offset else limit
  }

  method Fetch<B>(t: Table<B>, keys: seq<Key>) returns (items: seq<Row<B>>)
    requires forall i :: 0 <= i < |keys| ==> keys[i] in t
    ensures KeysOf(items) == keys
    ensures forall i :: 0 <= i < |items| ==> items[i].body == t[keys[i]]
  {
    items := [];
    var n := 0;
    while n < |keys|
      invariant |items| == n <= |keys|
      invariant forall i :: 0 <= i < n ==> items[i] == Row(keys[i], t[keys[i]])
    {
      items := items + [Row(keys[n], t[keys[n]])];
      n := n + 1;
    }
  }

  /** A keyset query: `ORDER BY created_at, id LIMIT …`. */
  method Query<B>(t: Table<B>, where: seq<(Key, B) -> bool>, asc: bool, limit: nat) returns (items: seq<Row<B>>)
    ensures KeysOf(items) == Slice(Sorted(Selected(t, where), asc), limit, 0)
    ensures forall row :: row in items ==> row.key in t && row.body == t[row.key]
  {
    var all := Sort(Selected(t, where), asc);
    Members(all);
    var keys := Slice(all, limit, 0);
    forall i | 0 <= i < |keys| ensures keys[i] in t {
      assert keys[i] == all[i] && all[i] in all;
    }
    items := Fetch(t, keys);
  }

  // Offset queries: any column, ties in no particular order

  function RankAt<B>(t: Table<B>, rank: (Key, B) -> int, k: Key): int {
    if k in t then rank(k, t[k]) else 0
  }

  predicate Outranks<B>(t: Table<B>, rank: (Key, B) -> int, asc: bool, a: Key, b: Key) {
    if asc then RankAt(t, rank, a) < RankAt(t, rank, b) else RankAt(t, rank, b) < RankAt(t, rank, a)
  }

  /** One of the orders the sort column allows. */
  ghost predicate IsRanking<B>(t: Table<B>, matching: set<Key>, rank: (Key, B) -> int, asc: bool, all: seq<Key>) {
    && |all| == |matching| && Elements(all) == matching
    && forall i, j :: 0 <= i < j < |all| ==> !Outranks(t, rank, asc, all[j], all[i])
  }

  /** A slice of some order the sort column allows. */
  ghost predicate IsOffsetPage<B>(t: Table<B>, matching: set<Key>, rank: (Key, B) -> int, asc: bool,
                                  limit: nat, offset: nat, page: seq<Key>)
  {
    exists all :: IsRanking(t, matching, rank, asc, all) && page == Slice(all, limit, offset)
  }

  /** On an offset page the sort column never runs backwards. */
  lemma OffsetPageInOrder<B>(t: Table<B>, matching: set<Key>, rank: (Key, B) -> int, asc: bool, limit: nat, offset: nat,
                             items: seq<Row<B>>, i: nat, j: nat)
    requires IsOffsetPage(t, matching, rank, asc, limit, offset, KeysOf(items)) && i < j < |items|
    requires forall row :: row in items ==> row.key in t && row.body == t[row.key]
    ensures var a, b := rank(items[i].key, items[i].body), rank(items[j].key, items[j].body);
      if asc then a <= b else b <= a
  {
    var all :| IsRanking(t, matching, rank, asc, all) && KeysOf(items) == Slice(all, limit, offset);
    assert KeysOf(items)[i] == all[offset + i] && KeysOf(items)[j] == all[offset + j];
    assert items[i] in items && items[j] in items;
  }

  method Top<B>(t: Table<B>, keys: set<Key>, rank: (Key, B) -> int, asc: bool) returns (top: Key)
    requires keys != {}
    ensures top in keys && forall k :: k in keys ==> !Outranks(t, rank, asc, k, top)
  {
    top :| top in keys;
    var rest := keys - {top};
    while rest != {}
      invariant top in keys && rest <= keys
      invariant forall k :: k in keys && k !in rest ==> !Outranks(t, rank, asc, k, top)
      decreases rest
    {
      var k :| k in rest;
      if Outranks(t, rank, asc, k, top) {
        top := k;
      }
      rest := rest - {k};
    }
  }

  method Rank<B>(t: Table<B>, keys: set<Key>, rank: (Key, B) -> int, asc: bool) returns (all: seq<Key>)
    ensures IsRanking(t, keys, rank, asc, all)
  {
    all := [];
    var rest := keys;
    while rest != {}
      invariant rest <= keys && Elements(all) == keys - rest && |all| + |rest| == |keys|
      invariant forall k, other :: k in all && other in rest ==> !Outranks(t, rank, asc, other, k)
      invariant forall i, j :: 0 <= i < j < |all| ==> !Outranks(t, rank, asc, all[j], all[i])
      decreases rest
    {
      var k := Top(t, rest, rank, asc);
      ghost var before := all;
      all, rest := all + [k], rest - {k};
      assert Elements(all) == Elements(before) + {k};
    }
  }

  method OffsetQuery<B>(t: Table<B>, where: seq<(Key, B) -> bool>, rank: (Key, B) -> int, asc: bool,
                        limit: nat, offset: nat)
    returns (items: seq<Row<B>>)
    ensures IsOffsetPage(t, Selected(t, where), rank, asc, limit, offset, KeysOf(items))
    ensures |items| == PageSize(|Selected(t, where)|, limit, offset)
    ensures forall row :: row in items ==> row.key in t && row.body == t[row.key]
  {
    var all := Rank(t, Selected(t, where), rank, asc);
    Members(all);
    var keys := Slice(all, limit, offset);
    forall i | 0 <= i < |keys| ensures keys[i] in t {
      assert keys[i] == all[offset + i] && all[offset + i] in all;
    }
    items := Fetch(t, keys);
  }

  lemma SelectedBeyond<B>(t: Table<B>, where: seq<(Key, B) -> bool>, start: Key, asc: bool)
    ensures Selected(t, where + [(k, b) => Precedes(start, k, asc)]) == Beyond(Selected(t, where), start, asc)
  {
    HoldsAppend(where, (k: Key, b: B) => Precedes(start, k, asc));
  }

  /** The end of both `List` functions: a cursor adds a condition and drops the count; `None` is a cursor that
      does not decode. */
  method Page<B>(t: Table<B>, filters: seq<(Key, B) -> bool>, cursor: CursorText, rank: (Key, B) -> int, asc: bool,
                 limit: nat, offset: nat)
    returns (r: Option<Listing<B>>)
    requires limit >= 1
    ensures r.None? <==> cursor != NoCursor && DecodeCursor(cursor).None?
    ensures cursor != NoCursor && r.Some? ==>
      IsAnswer(Selected(t, filters), DecodeCursor(cursor).value, asc, limit, r.value) && r.value.total == 0
    ensures cursor == NoCursor ==>
      && IsOffsetPage(t, Selected(t, filters), rank, asc, limit, offset, KeysOf(r.value.items))
      && r.value.total == |Selected(t, filters)| && r.value.nextCursor == NoCursor
      && |r.value.items| == PageSize(r.value.total, limit, offset)
    ensures r.Some? ==> forall row :: row in r.value.items ==> row.key in t && row.body == t[row.key]
  {
    var where := filters;
    if cursor != NoCursor {
      var start := DecodeCursor(cursor);
      if start.None? {
        return None;
      }
      where := where + [(k, b) => Precedes(start.value, k, asc)];
      SelectedBeyond(t, filters, start.value, asc);
      var items := Query(t, where, asc, limit);
      PrefixIsPage(Selected(t, filters), start.value, asc, limit);
      var next := if |items| == limit then EncodeCursor(items[|items| - 1].key) else NoCursor;
      r := Some(Listing(items, 0, next));
    } else {
      var total := |Selected(t, where)|;
      var items := OffsetQuery(t, where, rank, asc, limit, offset);
      r := Some(Listing(items, total, NoCursor));
    }
  }

  // Walks

  /** A client that follows next_cursor. `found` are the matching rows at the time of each request:
      between two requests anything may have been inserted, hidden, changed or deleted. */
  ghost predicate IsWalk<B>(found: seq<set<Key>>, start: Key, asc: bool, limit: nat, answers: seq<Listing<B>>) {
    && |found| == |answers| > 0
    && IsAnswer(found[0], start, asc, limit, answers[0])
    && (|answers| > 1 ==>
         && DecodeCursor(answers[0].nextCursor).Some?
         && IsWalk(found[1..], DecodeCursor(answers[0].nextCursor).value, asc, limit, answers[1..]))
  }

  ghost predicate Ended<B>(answers: seq<Listing<B>>)
    requires answers != []
  {
    answers[|answers| - 1].nextCursor == NoCursor
  }

  ghost function Returned<B>(answers: seq<Listing<B>>): seq<Key> {
    if answers == [] then [] else KeysOf(answers[0].items) + Returned(answers[1..])
  }

  /** The first page of a walk that goes on is full, and the walk goes on from its last row. */
  lemma FirstPage<B>(found: seq<set<Key>>, start: Key, asc: bool, limit: nat, answers: seq<Listing<B>>)
    requires limit >= 1 && IsWalk(found, start, asc, limit, answers) && |answers| > 1
    ensures |answers[0].items| == limit
    ensures DecodeCursor(answers[0].nextCursor) == Some(answers[0].items[limit - 1].key)
    ensures var last := answers[0].items[limit - 1].key;
      && Precedes(start, last, asc)
      && forall k :: k in KeysOf(answers[0].items) && k != last ==> Precedes(k, last, asc)
  {
    var page := KeysOf(answers[0].items);
    assert page[limit - 1] in page;
  }

  /** No row is returned twice, and rows come in order, whatever happens between requests. */
  lemma {:induction false} WalkNeverRepeats<B>(
    found: seq<set<Key>>, start: Key, asc: bool, limit: nat, answers: seq<Listing<B>>)
    requires limit >= 1 && IsWalk(found, start, asc, limit, answers)
    ensures Ordered(Returned(answers), asc)
    ensures forall k :: k in Returned(answers) ==> Precedes(start, k, asc)
  {
    if |answers| > 1 {
      FirstPage(found, start, asc, limit, answers);
      WalkNeverRepeats(found[1..], answers[0].items[limit - 1].key, asc, limit, answers[1..]);
      Concatenation(KeysOf(answers[0].items), Returned(answers[1..]), asc);
    } else {
      assert Returned(answers[1..]) == [];
    }
  }

  /** Every returned row matched when its page was read. */
  lemma {:induction false} WalkReturnsMatches<B>(
    found: seq<set<Key>>, start: Key, asc: bool, limit: nat, answers: seq<Listing<B>>, k: Key)
    requires IsWalk(found, start, asc, limit, answers) && k in Returned(answers)
    ensures exists i :: 0 <= i < |found| && k in found[i]
  {
    if k in KeysOf(answers[0].items) {
      assert k in found[0];
    } else {
      WalkReturnsMatches(found[1..], DecodeCursor(answers[0].nextCursor).value, asc, limit, answers[1..], k);
      var i :| 0 <= i < |found[1..]| && k in found[1..][i];
      assert k in found[i + 1];
    }
  }

  /** A row that matched throughout is returned by every walk that ends. */
  lemma {:induction false} WalkMissesNothing<B>(
    found: seq<set<Key>>, start: Key, asc: bool, limit: nat, answers: seq<Listing<B>>, k: Key)
    requires limit >= 1 && IsWalk(found, start, asc, limit, answers) && Ended(answers)
    requires Precedes(start, k, asc) && forall i :: 0 <= i < |found| ==> k in found[i]
    ensures k in Returned(answers)
  {
    assert k in found[0];
    if k !in KeysOf(answers[0].items) {
      assert |answers[0].items| == limit;
      assert |answers| > 1;
      FirstPage(found, start, asc, limit, answers);
      assert answers[0].items[limit - 1].key == KeysOf(answers[0].items)[limit - 1];
      forall i | 0 <= i < |found[1..]| ensures k in found[1..][i] {
        assert k in found[i + 1];
      }
      WalkMissesNothing(found[1..], answers[0].items[limit - 1].key, asc, limit, answers[1..], k);
    }
  }

  lemma {:induction false} ReturnedLength<B>(
    found: seq<set<Key>>, start: Key, asc: bool, limit: nat, answers: seq<Listing<B>>)
    requires limit >= 1 && IsWalk(found, start, asc, limit, answers)
    ensures (|answers| - 1) * limit <= |Returned(answers)|
    ensures !Ended(answers) ==> |answers| * limit <= |Returned(answers)|
  {
    if |answers| > 1 {
      FirstPage(found, start, asc, limit, answers);
      ReturnedLength(found[1..], answers[0].items[limit - 1].key, asc, limit, answers[1..]);
      assert (|answers| - 1) * limit == (|answers| - 2) * limit + limit;
      assert |answers| * limit == (|answers| - 1) * limit + limit;
    }
  }

  lemma {:induction false} OrderedLength(s: seq<Key>, asc: bool)
    requires Ordered(s, asc)
    ensures |s| == |Elements(s)|
  {
    if s != [] {
      TailElements(s, asc);
      OrderedLength(s[1..], asc);
    }
  }

  /** A walk ends: it has no more full pages than the rows it could ever meet can fill. */
  lemma WalkEnds<B>(
    found: seq<set<Key>>, start: Key, asc: bool, limit: nat, answers: seq<Listing<B>>, ever: set<Key>)
    requires limit >= 1 && IsWalk(found, start, asc, limit, answers)
    requires forall i :: 0 <= i < |found| ==> Beyond(found[i], start, asc) <= ever
    ensures (|answers| - 1) * limit <= |ever|
    ensures !Ended(answers) ==> |answers| * limit <= |ever|
  {
    ReturnedLength(found, start, asc, limit, answers);
    WalkNeverRepeats(found, start, asc, limit, answers);
    OrderedLength(Returned(answers), asc);
    forall k | k in Elements(Returned(answers)) ensures k in ever {
      WalkReturnsMatches(found, start, asc, limit, answers, k);
      var i :| 0 <= i < |found| && k in found[i];
      assert k in Beyond(found[i], start, asc);
    }
    SubsetSize(Elements(Returned(answers)), ever);
  }

  /** Rows created after the walk began cannot lengthen a newest-first walk. */
  lemma NewestFirstWalkEnds<B>(found: seq<set<Key>>, start: Key, limit: nat, answers: seq<Listing<B>>)
    requires limit >= 1 && IsWalk(found, start, false, limit, answers)
    requires forall i, k :: 0 <= i < |found| && k in found[i] ==> k in found[0] || k.at > start.at
    ensures (|answers| - 1) * limit <= |found[0]|
    ensures !Ended(answers) ==> |answers| * limit <= |found[0]|
  {
    WalkEnds(found, start, false, limit, answers, found[0]);
  }

  /** Over a list nobody changes, a walk returns exactly the rest of the sorted list. */
  lemma QuietWalk<B>(found: seq<set<Key>>, start: Key, asc: bool, limit: nat, answers: seq<Listing<B>>, s: set<Key>)
    requires limit >= 1 && IsWalk(found, start, asc, limit, answers) && Ended(answers)
    requires forall i :: 0 <= i < |found| ==> found[i] == s
    ensures Returned(answers) == Sorted(Beyond(s, start, asc), asc)
    ensures Sorted(s, asc) == Sorted(s - Beyond(s, start, asc), asc) + Returned(answers)
  {
    var all := Returned(answers);
    WalkNeverRepeats(found, start, asc, limit, answers);
    forall k ensures k in all <==> k in Beyond(s, start, asc) {
      if k in all { WalkReturnsMatches(found, start, asc, limit, answers, k); }
      if k in Beyond(s, start, asc) { WalkMissesNothing(found, start, asc, limit, answers, k); }
    }
    assert Elements(all) == Beyond(s, start, asc);
    OrderedUnique(all, Sorted(Beyond(s, start, asc), asc), asc);
    SortedSplits(s, start, asc);
  }

  /** Decoding a cursor gives back the row it names, unless that row's id or time is the zero value. */
  lemma CursorRoundTrip(k: Key)
    ensures DecodeCursor(EncodeCursor(k)) == Some(k) <==> k.at != 0 && k.id != 0
    ensures DecodeCursor(EncodeCursor(k)).None? <==> k.at == 0 || k.id == 0
  {
  }
}
