/** Concurrent post requests: each reads a row, and may write much later. */
module PostRuns {
  import opened Options
  import opened PostLog
  import Events
  import Inbox

  datatype State = State(db: Db, requests: map<nat, Snapshot>)

  const INIT := State(Db(map[], []), map[])

  datatype Label =
    | Create(post: nat, fields: Fields, visible: bool)
    | Read(rid: nat, post: nat)
    | Update(rid: nat, patch: Patch)
    | Delete(rid: nat)
    | Drop(rid: nat)

  predicate Enabled(s: State, l: Label) {
    match l
    case Create(post, _, _) => post !in s.db.posts
    case Read(rid, post) => rid !in s.requests && post in s.db.posts && !s.db.posts[post].deleted
    case Update(rid, _) => rid in s.requests
    case Delete(rid) => rid in s.requests
    case Drop(rid) => rid in s.requests
  }

  function NextDb(s: State, l: Label): Db
    requires Enabled(s, l)
  {
    match l
    case Create(post, fields, visible) => CreateTx(s.db, post, fields, visible)
    case Update(rid, patch) => UpdateTx(s.db, s.requests[rid], patch).0
    case Delete(rid) => DeleteTx(s.db, s.requests[rid]).0
    case _ => s.db
  }

  function NextRequests(s: State, l: Label): map<nat, Snapshot>
    requires Enabled(s, l)
  {
    match l
    case Create(_, _, _) => s.requests
    case Read(rid, post) => s.requests[rid := Snapshot(post, s.db.posts[post])]
    case _ => s.requests - {l.rid}
  }

  function Step(s: State, l: Label): State
    requires Enabled(s, l)
  {
    State(NextDb(s, l), NextRequests(s, l))
  }

  ghost predicate IsRun(states: seq<State>, labels: seq<Label>) {
    && |states| == |labels| + 1
    && forall i :: 0 <= i < |labels| ==> Enabled(states[i], labels[i]) && states[i + 1] == Step(states[i], labels[i])
  }

  // The invariant

  /** The version stamps the row: a request that holds the current version holds the current columns. */
  ghost predicate SnapshotOk(db: Db, snap: Snapshot) {
    && snap.post in db.posts
    && !snap.row.deleted
    && 1 <= snap.row.version <= db.posts[snap.post].version
    && (snap.row.version == db.posts[snap.post].version ==>
         snap.row.fields == db.posts[snap.post].fields && snap.row.visible == db.posts[snap.post].visible)
  }

  ghost predicate PostOk(db: Db, post: nat) {
    var h := OfPost(db.log, post);
    && GoodHistory(h)
    && (h == [] <==> post !in db.posts)
    && (post in db.posts ==>
         && Fold(h) == Some(Projection(db.posts[post].visible, db.posts[post].deleted))
         && 1 <= LastVersion(h) <= db.posts[post].version)
  }

  ghost predicate Inv(s: State) {
    && (forall post: nat :: PostOk(s.db, post))
    && (forall rid :: rid in s.requests ==> SnapshotOk(s.db, s.requests[rid]))
  }

  /** An event of one post leaves the others' histories alone. */
  lemma OtherPosts(db: Db, after: Db, e: PostEvent, post: nat)
    requires PostOk(db, post) && e.post != post && after.log == db.log + [e]
    requires (post in after.posts) == (post in db.posts)
    requires post in db.posts ==> after.posts[post] == db.posts[post]
    ensures PostOk(after, post)
  {
    OfPostAppended(db.log, e, post);
    assert OfPost(db.log, post) + [] == OfPost(db.log, post);
  }

  lemma CreateKeepsPost(db: Db, id: nat, fields: Fields, visible: bool, post: nat)
    requires PostOk(db, post) && PostOk(db, id) && id !in db.posts
    ensures PostOk(CreateTx(db, id, fields, visible), post)
  {
    var e := Created(id, visible, 1);
    if post == id {
      OfPostAppended(db.log, e, post);
      Appended(OfPost(db.log, post), e);
    } else {
      OtherPosts(db, CreateTx(db, id, fields, visible), e, post);
    }
  }

  lemma UpdateKeepsHistory(db: Db, snap: Snapshot, patch: Patch, e: PostEvent)
    requires PostOk(db, snap.post) && SnapshotOk(db, snap) && UpdateTx(db, snap, patch).1.Done?
    requires UpdateTx(db, snap, patch).0.log == db.log + [e]
    ensures PostOk(UpdateTx(db, snap, patch).0, snap.post)
  {
    OfPostAppended(db.log, e, snap.post);
    Appended(OfPost(db.log, snap.post), e);
  }

  lemma UpdateKeepsPost(db: Db, snap: Snapshot, patch: Patch, post: nat)
    requires PostOk(db, post) && PostOk(db, snap.post) && SnapshotOk(db, snap)
    ensures PostOk(UpdateTx(db, snap, patch).0, post)
  {
    var (after, outcome) := UpdateTx(db, snap, patch);
    if outcome.Done? {
      var row := after.posts[snap.post];
      var events := UpdateEvents(snap.post, snap.row.visible, row.visible, ChangedFields(patch), row.version);
      if events == [] {
        assert after.log == db.log;
      } else if post != snap.post {
        assert events == [events[0]];
        OtherPosts(db, after, events[0], post);
      } else {
        UpdateKeepsHistory(db, snap, patch, events[0]);
      }
    }
  }

  lemma DeleteKeepsPost(db: Db, snap: Snapshot, post: nat)
    requires PostOk(db, post) && PostOk(db, snap.post) && SnapshotOk(db, snap)
    ensures PostOk(DeleteTx(db, snap).0, post)
  {
    var (after, outcome) := DeleteTx(db, snap);
    var e := Deleted(snap.post, snap.row.version);
    if outcome.Done? {
      if post == snap.post {
        OfPostAppended(db.log, e, post);
        Appended(OfPost(db.log, post), e);
      } else {
        OtherPosts(db, after, e, post);
      }
    }
  }

  lemma StepKeepsPosts(s: State, l: Label, post: nat)
    requires Inv(s) && Enabled(s, l)
    ensures PostOk(Step(s, l).db, post)
  {
    assert PostOk(s.db, post);
    match l
    case Create(id, fields, visible) => CreateKeepsPost(s.db, id, fields, visible, post);
    case Update(rid, patch) => UpdateKeepsPost(s.db, s.requests[rid], patch, post);
    case Delete(rid) => DeleteKeepsPost(s.db, s.requests[rid], post);
    case _ =>
  }

  lemma StepKeepsSnapshot(s: State, l: Label, snap: Snapshot)
    requires Inv(s) && Enabled(s, l) && SnapshotOk(s.db, snap)
    ensures SnapshotOk(Step(s, l).db, snap)
  {
  }

  lemma StepKeepsInv(s: State, l: Label)
    requires Inv(s) && Enabled(s, l)
    ensures Inv(Step(s, l))
  {
    forall post: nat ensures PostOk(Step(s, l).db, post) { StepKeepsPosts(s, l, post); }
    forall rid | rid in Step(s, l).requests ensures SnapshotOk(Step(s, l).db, Step(s, l).requests[rid]) {
      if l.Read? && rid == l.rid {
        assert PostOk(s.db, l.post);
      } else {
        StepKeepsSnapshot(s, l, s.requests[rid]);
      }
    }
  }

  lemma {:induction false} RunKeepsInv(states: seq<State>, labels: seq<Label>)
    requires IsRun(states, labels) && states[0] == INIT
    ensures Inv(states[|labels|])
  {
    if labels != [] {
      var n := |labels| - 1;
      RunKeepsInv(states[..n + 1], labels[..n]);
      StepKeepsInv(states[n], labels[n]);
    }
  }

  // The theorems

  /** In every state, folding a post's events in commit order gives its row's visibility and deletion. */
  lemma LogFoldsToTable(states: seq<State>, labels: seq<Label>, post: nat)
    requires IsRun(states, labels) && states[0] == INIT
    ensures var db := states[|labels|].db;
      Fold(OfPost(db.log, post)) ==
        if post in db.posts then Some(Projection(db.posts[post].visible, db.posts[post].deleted)) else None
  {
    RunKeepsInv(states, labels);
    assert PostOk(states[|labels|].db, post);
  }

  /** In every post's history: `created` comes first, `deleted` last and once, versions otherwise rise strictly, and a
      visibility change names the visibility the earlier events fold to. */
  lemma HistoriesAreOrderly(states: seq<State>, labels: seq<Label>, post: nat, i: nat, j: nat)
    requires IsRun(states, labels) && states[0] == INIT
    requires i < j < |OfPost(states[|labels|].db.log, post)|
    ensures var h := OfPost(states[|labels|].db.log, post);
      && h[0].Created? && !h[j].Created? && !h[i].Deleted?
      && (!h[j].Deleted? ==> h[i].version < h[j].version)
      && (h[j].VisibilityChanged? ==> Fold(h[..j]).Some? && h[j].previous == Fold(h[..j]).value.visible)
  {
    RunKeepsInv(states, labels);
    assert PostOk(states[|labels|].db, post);
    PrefixIsGood(OfPost(states[|labels|].db.log, post), 0);
    HistoryMeaning(OfPost(states[|labels|].db.log, post), i, j);
  }

  /** No lost update: a write that succeeds read the row it replaces, so the columns its patch leaves out keep what
      the last writer put there. */
  lemma NoLostUpdate(states: seq<State>, labels: seq<Label>, rid: nat, patch: Patch)
    requires IsRun(states, labels) && states[0] == INIT && rid in states[|labels|].requests
    ensures var s := states[|labels|];
      var snap := s.requests[rid];
      var (after, outcome) := UpdateTx(s.db, snap, patch);
      && snap.post in s.db.posts
      && (outcome.Done? ==>
           after.posts[snap.post]
             == Patched(s.db.posts[snap.post], patch).(version := s.db.posts[snap.post].version + 1))
      && (outcome.Done? <==> snap.row.version == s.db.posts[snap.post].version && !s.db.posts[snap.post].deleted)
  {
    RunKeepsInv(states, labels);
    assert SnapshotOk(states[|labels|].db, states[|labels|].requests[rid]);
  }

  // What a consumer makes of the log

  /** The envelope of the n-th event of a post; ids differ because they are freshly drawn. */
  function Envelope(subject: string, e: PostEvent, n: nat): Events.Event {
    Events.Event(Events.SPEC_VERSION, n + 1, "/services/api", "post", subject, 1, Events.JSON, "schema",
      Events.Uuid(1), e.version, true)
  }

  /** A consumer that is given a post's events one by one in commit order, its handler never failing: its tables, and
      the events it handled. */
  function Delivered(consumer: string, subject: string, h: seq<PostEvent>): (Inbox.State, seq<PostEvent>) {
    if h == [] then (Inbox.EMPTY, []) else
      var n := |h| - 1;
      var (st, handled) := Delivered(consumer, subject, h[..n]);
      var (after, result) := Inbox.Transact(st, consumer, Envelope(subject, h[n], n), Inbox.Succeeds);
      (after, if result.Applied? then handled + [h[n]] else handled)
  }

  ghost predicate InStep(st: Inbox.State, consumer: string, subject: string, h: seq<PostEvent>) {
    && Inbox.Watermark(st, consumer, subject) == LastVersion(h)
    && forall id: nat :: (consumer, id) in st.processed ==> id <= |h|
  }

  lemma {:induction false} DeliveredInStep(consumer: string, subject: string, h: seq<PostEvent>)
    requires GoodHistory(h)
    requires forall i :: 0 <= i < |h| ==> !h[i].Deleted?
    ensures InStep(Delivered(consumer, subject, h).0, consumer, subject, h)
    ensures Delivered(consumer, subject, h).1 == h
  {
    if h != [] {
      var n := |h| - 1;
      DeliveredInStep(consumer, subject, h[..n]);
      assert h == h[..n] + [h[n]];
    }
  }

  /** The consumer ends where the table is, unless the deletion carries a version older than the last event before it:
      then it is dropped as stale, and the consumer keeps a post that is gone. */
  lemma ConsumerAgreesIff(consumer: string, subject: string, h: seq<PostEvent>)
    requires GoodHistory(h) && h != []
    ensures Fold(Delivered(consumer, subject, h).1) == Fold(h) <==>
      !(h[|h| - 1].Deleted? && h[|h| - 1].version < LastVersion(h))
    ensures Fold(Delivered(consumer, subject, h).1).Some?
      && Fold(Delivered(consumer, subject, h).1).value.visible == Fold(h).value.visible
  {
    var n := |h| - 1;
    forall i | 0 <= i < n ensures !h[i].Deleted? { HistoryMeaning(h, i, n); }
    DeliveredInStep(consumer, subject, h[..n]);
    assert h == h[..n] + [h[n]];
    if !h[n].Deleted? {
      DeliveredInStep(consumer, subject, h);
    } else {
      Appended(h[..n], h[n]);
    }
  }

  /** The same over whole runs: what the consumer projects is the table's row exactly when the row is live, or was
      deleted by a request that had read a version no event has passed since. */
  lemma ProjectionAgreesIff(states: seq<State>, labels: seq<Label>, post: nat, consumer: string, subject: string)
    requires IsRun(states, labels) && states[0] == INIT && post in states[|labels|].db.posts
    ensures var row := states[|labels|].db.posts[post];
      var h := OfPost(states[|labels|].db.log, post);
      h != [] &&
      (Fold(Delivered(consumer, subject, h).1) == Some(Projection(row.visible, row.deleted)) <==>
        (!row.deleted || h[|h| - 1].version >= LastVersion(h)))
  {
    RunKeepsInv(states, labels);
    var h := OfPost(states[|labels|].db.log, post);
    assert PostOk(states[|labels|].db, post);
    ConsumerAgreesIff(consumer, subject, h);
    if !h[|h| - 1].Deleted? { LiveFold(h); } else { Appended(h[..|h| - 1], h[|h| - 1]); }
    assert h == h[..|h| - 1] + [h[|h| - 1]];
  }

  lemma LiveFold(h: seq<PostEvent>)
    requires GoodHistory(h) && h != [] && !h[|h| - 1].Deleted?
    ensures Fold(h).Some? && !Fold(h).value.deleted
  {
    var n := |h| - 1;
    if h[n].Created? { assert h[..n] == []; }
  }

  const HIDING := Patch(None, None, None, Some(false), None)

  const STALE_LOG := [Created(7, true, 1)] + [VisibilityChanged(7, true, false, 2)] + [Deleted(7, 1)]

  lemma StaleRun(fields: Fields) returns (states: seq<State>, labels: seq<Label>)
    ensures IsRun(states, labels) && states[0] == INIT
    ensures states[|labels|].db.log == STALE_LOG && 7 in states[|labels|].db.posts
  {
    labels := [Create(7, fields, true), Read(1, 7), Read(2, 7), Update(1, HIDING), Delete(2)];
    var s1 := Step(INIT, labels[0]);
    var s2 := Step(s1, labels[1]);
    var s3 := Step(s2, labels[2]);
    var s4 := Step(s3, labels[3]);
    assert s4.db.log == [Created(7, true, 1)] + [VisibilityChanged(7, true, false, 2)];
    states := [INIT, s1, s2, s3, s4, Step(s4, labels[4])];
  }

  lemma StaleHistory(consumer: string, subject: string)
    ensures OfPost(STALE_LOG, 7) == STALE_LOG && GoodHistory(STALE_LOG)
    ensures Fold(STALE_LOG) == Some(Projection(false, true))
    ensures Fold(Delivered(consumer, subject, STALE_LOG).1) == Some(Projection(false, false))
  {
    var a, b, c := Created(7, true, 1), VisibilityChanged(7, true, false, 2), Deleted(7, 1);
    assert [] + [a] == [a];
    OfPostAppended([], a, 7);
    OfPostAppended([a], b, 7);
    OfPostAppended([a] + [b], c, 7);
    Appended([], a);
    Appended([a], b);
    Appended([a] + [b], c);
    ConsumerAgreesIff(consumer, subject, STALE_LOG);
    StaleDeletionIsDropped(consumer, subject, [a] + [b], c);
  }

  /** A stale deletion leaves the consumer where the earlier events put it. */
  lemma StaleDeletionIsDropped(consumer: string, subject: string, h: seq<PostEvent>, e: PostEvent)
    requires GoodHistory(h + [e]) && e.Deleted? && e.version < LastVersion(h)
    ensures Fold(Delivered(consumer, subject, h + [e]).1) == Fold(h)
  {
    var all := h + [e];
    assert all[..|h|] == h;
    forall i | 0 <= i < |h| ensures !h[i].Deleted? {
      HistoryMeaning(all, i, |h|);
      assert all[i] == h[i];
    }
    DeliveredInStep(consumer, subject, h);
  }

  /** It does happen: two requests read a post, one hides it, then the other deletes it. */
  lemma StaleDelete(fields: Fields, consumer: string, subject: string)
    ensures exists states: seq<State>, labels: seq<Label>, post: nat ::
      && IsRun(states, labels) && states[0] == INIT && post in states[|labels|].db.posts
      && var h := OfPost(states[|labels|].db.log, post);
         Fold(h) == Some(Projection(false, true))
         && Fold(Delivered(consumer, subject, h).1) == Some(Projection(false, false))
  {
    var states, labels := StaleRun(fields);
    StaleHistory(consumer, subject);
  }
}
