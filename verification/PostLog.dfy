/** Posts: every write changes the table and the event log in one transaction. */
module PostLog {
  import opened Options

  datatype Fields = Fields(title: string, content: string, tags: seq<string>, metadata: string)

  datatype Row = Row(fields: Fields, visible: bool, version: int, deleted: bool)

  datatype PostEvent =
    | Created(post: nat, visible: bool, version: int)
    | Updated(post: nat, changed: seq<string>, version: int)
    | VisibilityChanged(post: nat, previous: bool, visible: bool, version: int)
    | Deleted(post: nat, version: int)

  /** The posts table and the outbox rows of its events, in commit order. */
  datatype Db = Db(posts: map<nat, Row>, log: seq<PostEvent>)

  /** The row a request read before it acts. */
  datatype Snapshot = Snapshot(post: nat, row: Row)

  datatype Patch = Patch(
    title: Option<string>,
    content: Option<string>,
    tags: Option<seq<string>>,
    visible: Option<bool>,
    metadata: Option<string>
  )

  datatype Outcome = Done | VersionMismatch | NotFound

  function Else<T>(o: Option<T>, t: T): T {
    if o.Some? then o.value else t
  }

  function Patched(r: Row, patch: Patch): Row {
    r.(fields := Fields(Else(patch.title, r.fields.title), Else(patch.content, r.fields.content),
         Else(patch.tags, r.fields.tags), Else(patch.metadata, r.fields.metadata)),
       visible := Else(patch.visible, r.visible))
  }

  function Named<T>(o: Option<T>, name: string): seq<string> {
    if o.Some? then [name] else []
  }

  /** Visibility is not one of the changed fields. */
  function ChangedFields(patch: Patch): seq<string> {
    Named(patch.title, "title") + Named(patch.content, "content") + Named(patch.tags, "tags")
    + Named(patch.metadata, "metadata")
  }

  /** One event at most; none when nothing but the version moved. */
  function UpdateEvents(post: nat, previous: bool, visible: bool, changed: seq<string>, version: int): seq<PostEvent> {
    if previous != visible then [VisibilityChanged(post, previous, visible, version)]
    else if changed == [] then []
    else [Updated(post, changed, version)]
  }

  function CreateTx(db: Db, post: nat, fields: Fields, visible: bool): Db {
    Db(db.posts[post := Row(fields, visible, 1, false)], db.log + [Created(post, visible, 1)])
  }

  /** Compare and set on the version that was read. */
  function UpdateTx(db: Db, snap: Snapshot, patch: Patch): (Db, Outcome) {
    var post := snap.post;
    if post in db.posts && db.posts[post].version == snap.row.version && !db.posts[post].deleted then
      var row := Patched(snap.row, patch).(version := db.posts[post].version + 1, deleted := false);
      (Db(db.posts[post := row],
          db.log + UpdateEvents(post, snap.row.visible, row.visible, ChangedFields(patch), row.version)), Done)
    else (db, VersionMismatch)
  }

  /** The version is neither compared nor moved: the event carries the one that was read. */
  function DeleteTx(db: Db, snap: Snapshot): (Db, Outcome) {
    var post := snap.post;
    if post in db.posts && !db.posts[post].deleted then
      (Db(db.posts[post := db.posts[post].(deleted := true)], db.log + [Deleted(post, snap.row.version)]), Done)
    else (db, NotFound)
  }

  class Module {
    var posts: map<nat, Row>
    var log: seq<PostEvent>

    constructor ()
      ensures Contents() == Db(map[], [])
    {
      posts, log := map[], [];
    }

    ghost function Contents(): Db
      reads this
    {
      Db(posts, log)
    }

    method Enqueue(e: PostEvent)
      modifies this`log
      ensures log == old(log) + [e]
    {
      log := log + [e];
    }

    method Create(post: nat, fields: Fields, visible: bool)
      requires post !in posts
      modifies this
      ensures Contents() == CreateTx(old(Contents()), post, fields, visible)
    {
      posts := posts[post := Row(fields, visible, 1, false)];
      Enqueue(Created(post, visible, posts[post].version));
    }

    /** The UPDATE statement: it writes every column of the request's row, and returns the new version. */
    method UpdateRow(post: nat, row: Row) returns (version: Option<int>)
      modifies this`posts
      ensures version.Some? <==>
        post in old(posts) && old(posts)[post].version == row.version && !old(posts)[post].deleted
      ensures version.None? ==> posts == old(posts)
      ensures version.Some? ==>
        && version.value == row.version + 1
        && posts == old(posts)[post := row.(version := row.version + 1, deleted := false)]
    {
      if post !in posts || posts[post].version != row.version || posts[post].deleted {
        return None;
      }
      posts := posts[post := posts[post].(fields := row.fields, visible := row.visible, version := row.version + 1)];
      version := Some(row.version + 1);
    }

    method ApplyPatch(read: Row, patch: Patch) returns (row: Row, changed: seq<string>)
      ensures row == Patched(read, patch) && changed == ChangedFields(patch)
    {
      row, changed := read, [];
      if patch.title.Some? {
        row, changed := row.(fields := row.fields.(title := patch.title.value)), changed + ["title"];
      }
      if patch.content.Some? {
        row, changed := row.(fields := row.fields.(content := patch.content.value)), changed + ["content"];
      }
      if patch.tags.Some? {
        row, changed := row.(fields := row.fields.(tags := patch.tags.value)), changed + ["tags"];
      }
      if patch.visible.Some? {
        row := row.(visible := patch.visible.value);
      }
      if patch.metadata.Some? {
        row, changed := row.(fields := row.fields.(metadata := patch.metadata.value)), changed + ["metadata"];
      }
    }

    method Update(snap: Snapshot, patch: Patch) returns (outcome: Outcome)
      modifies this
      ensures (Contents(), outcome) == UpdateTx(old(Contents()), snap, patch)
    {
      var wasVisible := snap.row.visible;
      var row, changed := ApplyPatch(snap.row, patch);
      var version := UpdateRow(snap.post, row);
      if version.None? {
        return VersionMismatch;
      }
      outcome := Done;
      if wasVisible != row.visible {
        Enqueue(VisibilityChanged(snap.post, wasVisible, row.visible, version.value));
      } else if changed != [] {
        Enqueue(Updated(snap.post, changed, version.value));
      } else {
        assert log + [] == log;
      }
    }

    method Delete(snap: Snapshot) returns (outcome: Outcome)
      modifies this
      ensures (Contents(), outcome) == DeleteTx(old(Contents()), snap)
    {
      if snap.post !in posts || posts[snap.post].deleted {
        return NotFound;
      }
      posts := posts[snap.post := posts[snap.post].(deleted := true)];
      Enqueue(Deleted(snap.post, snap.row.version));
      outcome := Done;
    }
  }

  // What each request leaves

  /** A field after an edit: the one given, or else the one that was read. */
  predicate Edited<T(==)>(given: Option<T>, read: T, now: T) {
    (given.Some? ==> now == given.value) && (given.None? ==> now == read)
  }

  function One(given: bool): nat {
    if given then 1 else 0
  }

  /** The names of the edited fields, each once. */
  ghost predicate NamesEdited(patch: Patch, changed: seq<string>) {
    && (patch.title.Some? ==> "title" in changed) && (patch.content.Some? ==> "content" in changed)
    && (patch.tags.Some? ==> "tags" in changed) && (patch.metadata.Some? ==> "metadata" in changed)
    && |changed|
         == One(patch.title.Some?) + One(patch.content.Some?) + One(patch.tags.Some?) + One(patch.metadata.Some?)
  }

  ghost predicate IsEdit(read: Row, patch: Patch, row: Row) {
    && Edited(patch.title, read.fields.title, row.fields.title)
    && Edited(patch.content, read.fields.content, row.fields.content)
    && Edited(patch.tags, read.fields.tags, row.fields.tags)
    && Edited(patch.metadata, read.fields.metadata, row.fields.metadata)
    && Edited(patch.visible, read.visible, row.visible)
    && row.version == read.version + 1 && !row.deleted
  }

  /** The one event of an edit: the new visibility if that changed, or else the fields given; none if none was. */
  ghost predicate Announces(post: nat, read: Row, patch: Patch, row: Row, events: seq<PostEvent>) {
    if row.visible != read.visible then events == [VisibilityChanged(post, read.visible, row.visible, row.version)]
    else if patch.title.None? && patch.content.None? && patch.tags.None? && patch.metadata.None? then events == []
    else
      && |events| == 1 && events[0].Updated? && events[0].post == post && events[0].version == row.version
      && NamesEdited(patch, events[0].changed)
  }

  lemma ChangedNames(patch: Patch)
    ensures NamesEdited(patch, ChangedFields(patch))
  {
    var t, c, g, m := Named(patch.title, "title"), Named(patch.content, "content"), Named(patch.tags, "tags"),
      Named(patch.metadata, "metadata");
    if patch.title.Some? { assert t[0] == "title"; }
    if patch.content.Some? { assert c[0] == "content"; }
    if patch.tags.Some? { assert g[0] == "tags"; }
    if patch.metadata.Some? { assert m[0] == "metadata"; }
    assert forall name :: name in t || name in c || name in g || name in m ==> name in t + c + g + m;
  }

  /** An edit is refused exactly when the post is gone or not of the version read. Otherwise the row is the one read
      with the given fields, one version on, and the log has the event of the edit more. */
  lemma UpdateAnswers(db: Db, snap: Snapshot, patch: Patch)
    ensures var (after, outcome) := UpdateTx(db, snap, patch);
      var live := snap.post in db.posts && !db.posts[snap.post].deleted
        && db.posts[snap.post].version == snap.row.version;
      && outcome == (if live then Done else VersionMismatch) && (!live ==> after == db)
      && (live ==>
           && snap.post in after.posts && IsEdit(snap.row, patch, after.posts[snap.post])
           && after.posts == db.posts[snap.post := after.posts[snap.post]]
           && |db.log| <= |after.log| && after.log[..|db.log|] == db.log
           && Announces(snap.post, snap.row, patch, after.posts[snap.post], after.log[|db.log|..]))
  {
    ChangedNames(patch);
    var events := UpdateEvents(snap.post, snap.row.visible, Patched(snap.row, patch).visible, ChangedFields(patch),
      snap.row.version + 1);
    assert (db.log + events)[|db.log|..] == events && (db.log + events)[..|db.log|] == db.log;
  }

  /** A new post is live, at version 1, and announced as such. */
  lemma CreateAnswers(db: Db, post: nat, fields: Fields, visible: bool)
    ensures var after := CreateTx(db, post, fields, visible);
      && after.posts == db.posts[post := Row(fields, visible, 1, false)]
      && after.log == db.log + [Created(post, visible, 1)]
  {
  }

  /** A deletion is refused exactly when the post is gone; otherwise only its mark changes, and the event carries the
      version that was read. */
  lemma DeleteAnswers(db: Db, snap: Snapshot)
    ensures var (after, outcome) := DeleteTx(db, snap);
      var live := snap.post in db.posts && !db.posts[snap.post].deleted;
      && outcome == (if live then Done else NotFound) && (!live ==> after == db)
      && (live ==>
           && after.posts == db.posts[snap.post := db.posts[snap.post].(deleted := true)]
           && after.log == db.log + [Deleted(snap.post, snap.row.version)])
  {
  }

  // Folding a post's events

  datatype Projection = Projection(visible: bool, deleted: bool)

  function Apply(p: Option<Projection>, e: PostEvent): Option<Projection> {
    match e
    case Created(_, visible, _) => Some(Projection(visible, false))
    case Updated(_, _, _) => p
    case VisibilityChanged(_, _, visible, _) => Some(Projection(visible, p.Some? && p.value.deleted))
    case Deleted(_, _) => if p.Some? then Some(p.value.(deleted := true)) else None
  }

  function Fold(h: seq<PostEvent>): Option<Projection> {
    if h == [] then None else Apply(Fold(h[..|h| - 1]), h[|h| - 1])
  }

  function OfPost(log: seq<PostEvent>, post: nat): (h: seq<PostEvent>)
    ensures forall e :: e in h ==> e.post == post
  {
    if log == [] then [] else
      var last := log[|log| - 1];
      OfPost(log[..|log| - 1], post) + if last.post == post then [last] else []
  }

  /** Version of the last event that is not a deletion, 0 when there is none. */
  function LastVersion(h: seq<PostEvent>): int {
    if h == [] then 0
    else if h[|h| - 1].Deleted? then LastVersion(h[..|h| - 1])
    else h[|h| - 1].version
  }

  /** An event that may follow a history. */
  ghost predicate MayFollow(h: seq<PostEvent>, e: PostEvent) {
    && (e.Created? <==> h == [])
    && (h != [] ==> Fold(h).Some? && !Fold(h).value.deleted)
    && (e.VisibilityChanged? && h != [] ==> e.previous == Fold(h).value.visible && e.visible != e.previous)
    && (!e.Deleted? ==> e.version > LastVersion(h))
    && e.version >= 1
  }

  ghost predicate GoodHistory(h: seq<PostEvent>) {
    h == [] || (GoodHistory(h[..|h| - 1]) && MayFollow(h[..|h| - 1], h[|h| - 1]))
  }

  lemma Appended(h: seq<PostEvent>, e: PostEvent)
    ensures Fold(h + [e]) == Apply(Fold(h), e)
    ensures LastVersion(h + [e]) == if e.Deleted? then LastVersion(h) else e.version
    ensures GoodHistory(h + [e]) <==> GoodHistory(h) && MayFollow(h, e)
  {
    assert (h + [e])[..|h|] == h;
  }

  lemma OfPostAppended(log: seq<PostEvent>, e: PostEvent, post: nat)
    ensures OfPost(log + [e], post) == OfPost(log, post) + if e.post == post then [e] else []
  {
    assert (log + [e])[..|log|] == log;
  }

  lemma {:induction false} PrefixIsGood(h: seq<PostEvent>, i: nat)
    requires GoodHistory(h) && i <= |h|
    ensures GoodHistory(h[..i]) && (i < |h| ==> MayFollow(h[..i], h[i]))
  {
    if i < |h| {
      PrefixIsGood(h[..|h| - 1], i);
      assert h[..|h| - 1][..i] == h[..i];
    } else {
      assert h[..i] == h;
    }
  }

  lemma {:induction false} VersionsGrow(h: seq<PostEvent>, i: nat)
    requires GoodHistory(h) && i < |h| && !h[i].Deleted?
    ensures h[i].version <= LastVersion(h) && (i < |h| - 1 && !h[|h| - 1].Deleted? ==> h[i].version < LastVersion(h))
  {
    if i < |h| - 1 { VersionsGrow(h[..|h| - 1], i); }
  }

  lemma {:induction false} DeletedStays(h: seq<PostEvent>, i: nat)
    requires GoodHistory(h) && i < |h| && h[i].Deleted?
    ensures Fold(h).Some? && Fold(h).value.deleted
  {
    if i < |h| - 1 { DeletedStays(h[..|h| - 1], i); }
  }

  lemma DeletedIsLast(h: seq<PostEvent>, e: PostEvent, i: nat)
    requires GoodHistory(h) && MayFollow(h, e) && i < |h|
    ensures !h[i].Deleted?
  {
    if h[i].Deleted? { DeletedStays(h, i); }
  }

  /** What a good history says, event by event. */
  lemma HistoryMeaning(h: seq<PostEvent>, i: nat, j: nat)
    requires GoodHistory(h) && i < j < |h|
    ensures !h[i].Deleted? && !h[j].Created?
    ensures !h[j].Deleted? ==> h[i].version < h[j].version
    ensures h[j].VisibilityChanged? ==> Fold(h[..j]).Some? && h[j].previous == Fold(h[..j]).value.visible
  {
    PrefixIsGood(h, j);
    DeletedIsLast(h[..j], h[j], i);
    VersionsGrow(h[..j], i);
  }

}
