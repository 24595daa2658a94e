/** The public post list: conditions gathered one by one, then a keyset page or an offset page. */
module PostList {
  import opened Options
  import opened Keyset

  datatype Post = Post(
    owner: nat, title: string, content: string, tags: set<string>, visible: bool, deleted: bool, updatedAt: int)

  datatype Column = CreatedAt | UpdatedAt | Title

  datatype PostQuery = PostQuery(
    limit: nat, offset: nat, cursor: CursorText, sortBy: Column, asc: bool,
    search: string, tags: set<string>, owner: Option<nat>)

  /** `collate` is the database's order of texts. */
  function RankOf(column: Column, collate: string -> int): (Key, Post) -> int {
    match column
    case CreatedAt => (k: Key, p: Post) => k.at
    case UpdatedAt => (k: Key, p: Post) => p.updatedAt
    case Title => (k: Key, p: Post) => collate(p.title)
  }

  /** The rows run up, or down, by the column asked for. */
  predicate ByColumn(q: PostQuery, collate: string -> int, a: Row<Post>, b: Row<Post>) {
    var (first, second) := if q.asc then (a, b) else (b, a);
    && (q.sortBy == CreatedAt ==> first.key.at <= second.key.at)
    && (q.sortBy == UpdatedAt ==> first.body.updatedAt <= second.body.updatedAt)
    && (q.sortBy == Title ==> collate(first.body.title) <= collate(second.body.title))
  }

  /** `ilike(text, word)` is PostgreSQL's case-insensitive match. */
  predicate Matches(q: PostQuery, ilike: (string, string) -> bool, p: Post) {
    && !p.deleted && p.visible
    && (q.search != "" ==> ilike(p.title, q.search) || ilike(p.content, q.search))
    && q.tags <= p.tags
    && (q.owner.Some? ==> p.owner == q.owner.value)
  }

  function Matching(t: Table<Post>, q: PostQuery, ilike: (string, string) -> bool): set<Key> {
    set k | k in t && Matches(q, ilike, t[k])
  }

  method Conditions(q: PostQuery, ilike: (string, string) -> bool) returns (where: seq<(Key, Post) -> bool>)
    ensures forall k, p :: Holds(where, k, p) <==>
      && !p.deleted && p.visible
      && (q.search == "" || ilike(p.title, q.search) || ilike(p.content, q.search))
      && (forall tag :: tag in q.tags ==> tag in p.tags)
      && (q.owner == None || q.owner == Some(p.owner))
  {
    where := [(k: Key, p: Post) => !p.deleted && p.visible];
    assert forall k, p :: Holds(where, k, p) <==> where[0](k, p);
    if q.search != "" {
      var found := (k: Key, p: Post) => ilike(p.title, q.search) || ilike(p.content, q.search);
      HoldsAppend(where, found);
      where := where + [found];
    }
    if q.tags != {} {
      var tagged := (k: Key, p: Post) => q.tags <= p.tags;
      HoldsAppend(where, tagged);
      where := where + [tagged];
    }
    if q.owner.Some? {
      var owned := (k: Key, p: Post) => p.owner == q.owner.value;
      HoldsAppend(where, owned);
      where := where + [owned];
    }
  }

  /** `None` is the error for a cursor that does not decode. */
  method List(t: Table<Post>, q: PostQuery, ilike: (string, string) -> bool, collate: string -> int)
    returns (r: Option<Listing<Post>>)
    requires q.limit >= 1
    ensures r.None? <==> q.cursor != NoCursor && DecodeCursor(q.cursor).None?
    ensures q.cursor != NoCursor && r.Some? ==>
      && IsAnswer(Matching(t, q, ilike), DecodeCursor(q.cursor).value, q.asc, q.limit, r.value)
      && r.value.total == 0
    ensures q.cursor == NoCursor ==>
      && IsOffsetPage(t, Matching(t, q, ilike), RankOf(q.sortBy, collate), q.asc, q.limit, q.offset,
          KeysOf(r.value.items))
      && r.value.total == |Matching(t, q, ilike)| && r.value.nextCursor == NoCursor
      && |r.value.items| == PageSize(r.value.total, q.limit, q.offset)
      && forall i, j :: 0 <= i < j < |r.value.items| ==> ByColumn(q, collate, r.value.items[i], r.value.items[j])
    ensures r.Some? ==> forall row :: row in r.value.items ==> row.key in t && row.body == t[row.key]
  {
    var where := Conditions(q, ilike);
    assert Selected(t, where) == Matching(t, q, ilike);
    r := Page(t, where, q.cursor, RankOf(q.sortBy, collate), q.asc, q.limit, q.offset);
    if q.cursor == NoCursor {
      forall i, j | 0 <= i < j < |r.value.items| ensures ByColumn(q, collate, r.value.items[i], r.value.items[j]) {
        OffsetPageInOrder(t, Matching(t, q, ilike), RankOf(q.sortBy, collate), q.asc, q.limit, q.offset,
          r.value.items, i, j);
      }
    }
  }

  /** A walk through the public list while posts are written, hidden, shown and deleted: a post that stayed public and
      kept matching is returned exactly once, and no post is returned twice. */
  lemma PublicWalk(tables: seq<Table<Post>>, q: PostQuery, ilike: (string, string) -> bool, start: Key,
                   answers: seq<Listing<Post>>, k: Key)
    requires q.limit >= 1 && |tables| == |answers| && answers != []
    requires IsWalk(seq(|tables|, i requires 0 <= i < |tables| => Matching(tables[i], q, ilike)),
                    start, q.asc, q.limit, answers)
    ensures Ended(answers) && Precedes(start, k, q.asc)
      && (forall i :: 0 <= i < |tables| ==> k in tables[i] && Matches(q, ilike, tables[i][k]))
      ==> exists n :: 0 <= n < |Returned(answers)| && Returned(answers)[n] == k
    ensures forall m, n :: 0 <= m < n < |Returned(answers)| ==> Returned(answers)[m] != Returned(answers)[n]
    ensures (forall i :: 0 <= i < |tables| ==> k in tables[i] ==> !Matches(q, ilike, tables[i][k])) ==>
      k !in Returned(answers)
  {
    var found := seq(|tables|, i requires 0 <= i < |tables| => Matching(tables[i], q, ilike));
    WalkNeverRepeats(found, start, q.asc, q.limit, answers);
    if Ended(answers) && Precedes(start, k, q.asc)
      && (forall i :: 0 <= i < |tables| ==> k in tables[i] && Matches(q, ilike, tables[i][k]))
    {
      WalkMissesNothing(found, start, q.asc, q.limit, answers, k);
    }
    if k in Returned(answers) {
      WalkReturnsMatches(found, start, q.asc, q.limit, answers, k);
      var i :| 0 <= i < |found| && k in found[i];
      assert k in tables[i] && Matches(q, ilike, tables[i][k]);
    }
  }
}

/** The user list of the administration pages: the same paging over other conditions. */
module UserList {
  import opened Options
  import opened Keyset

  datatype Role = Role(name: string, level: int)

  /** `active` is nullable and reads as false. */
  datatype User = User(
    email: string, username: string, reference: string, roleId: nat, active: Option<bool>, updatedAt: int)

  datatype Column = CreatedAt | UpdatedAt | Email | Username | RoleName | RoleLevel

  datatype UserQuery = UserQuery(
    limit: nat, offset: nat, cursor: CursorText, sortBy: Column, asc: bool,
    search: string, role: string, active: Option<bool>)

  type Roles = map<nat, Role>

  function RoleOf(roles: Roles, u: User): Role {
    if u.roleId in roles then roles[u.roleId] else Role("", 0)
  }

  function RankOf(roles: Roles, column: Column, collate: string -> int): (Key, User) -> int {
    match column
    case CreatedAt => (k: Key, u: User) => k.at
    case UpdatedAt => (k: Key, u: User) => u.updatedAt
    case Email => (k: Key, u: User) => collate(u.email)
    case Username => (k: Key, u: User) => collate(u.username)
    case RoleName => (k: Key, u: User) => collate(RoleOf(roles, u).name)
    case RoleLevel => (k: Key, u: User) => RoleOf(roles, u).level
  }

  /** The rows run up, or down, by the column asked for. */
  predicate ByColumn(roles: Roles, q: UserQuery, collate: string -> int, a: Row<User>, b: Row<User>) {
    var (first, second) := if q.asc then (a, b) else (b, a);
    && (q.sortBy == CreatedAt ==> first.key.at <= second.key.at)
    && (q.sortBy == UpdatedAt ==> first.body.updatedAt <= second.body.updatedAt)
    && (q.sortBy == Email ==> collate(first.body.email) <= collate(second.body.email))
    && (q.sortBy == Username ==> collate(first.body.username) <= collate(second.body.username))
    && (first.body.roleId in roles && second.body.roleId in roles ==>
         && (q.sortBy == RoleName ==>
              collate(roles[first.body.roleId].name) <= collate(roles[second.body.roleId].name))
         && (q.sortBy == RoleLevel ==> roles[first.body.roleId].level <= roles[second.body.roleId].level))
  }

  lemma RankedByColumn(roles: Roles, q: UserQuery, collate: string -> int, a: Row<User>, b: Row<User>)
    requires var rank := RankOf(roles, q.sortBy, collate);
      if q.asc then rank(a.key, a.body) <= rank(b.key, b.body) else rank(b.key, b.body) <= rank(a.key, a.body)
    ensures ByColumn(roles, q, collate, a, b)
  {
    if q.sortBy == RoleName && a.body.roleId in roles && b.body.roleId in roles {
      assert RoleOf(roles, a.body) == roles[a.body.roleId] && RoleOf(roles, b.body) == roles[b.body.roleId];
    }
  }

  /** The inner join leaves out a user whose role is gone. */
  predicate Matches(roles: Roles, q: UserQuery, ilike: (string, string) -> bool, u: User) {
    && u.roleId in roles
    && (q.search != "" ==> ilike(u.email, q.search) || ilike(u.username, q.search) || ilike(u.reference, q.search))
    && (q.role != "" ==> roles[u.roleId].name == q.role)
    && (q.active.Some? ==> (u.active == Some(true)) == q.active.value)
  }

  function Matching(t: Table<User>, roles: Roles, q: UserQuery, ilike: (string, string) -> bool): set<Key> {
    set k | k in t && Matches(roles, q, ilike, t[k])
  }

  method Conditions(roles: Roles, q: UserQuery, ilike: (string, string) -> bool)
    returns (where: seq<(Key, User) -> bool>)
    ensures forall k, u :: Holds(where, k, u) <==>
      && u.roleId in roles
      && (q.search == "" || ilike(u.email, q.search) || ilike(u.username, q.search) || ilike(u.reference, q.search))
      && (q.role == "" || roles[u.roleId].name == q.role)
      && (q.active == None || (q.active == Some(true) <==> u.active == Some(true)))
  {
    where := [(k: Key, u: User) => u.roleId in roles];
    assert forall k, u :: Holds(where, k, u) <==> where[0](k, u);
    if q.search != "" {
      var found := (k: Key, u: User) =>
        ilike(u.email, q.search) || ilike(u.username, q.search) || ilike(u.reference, q.search);
      HoldsAppend(where, found);
      where := where + [found];
    }
    if q.role != "" {
      var inRole := (k: Key, u: User) => RoleOf(roles, u).name == q.role;
      HoldsAppend(where, inRole);
      where := where + [inRole];
    }
    if q.active.Some? {
      var asAsked := (k: Key, u: User) => (if u.active.Some? then u.active.value else false) == q.active.value;
      HoldsAppend(where, asAsked);
      where := where + [asAsked];
    }
  }

  method List(t: Table<User>, roles: Roles, q: UserQuery, ilike: (string, string) -> bool, collate: string -> int)
    returns (r: Option<Listing<User>>)
    requires q.limit >= 1
    ensures r.None? <==> q.cursor != NoCursor && DecodeCursor(q.cursor).None?
    ensures q.cursor != NoCursor && r.Some? ==>
      && IsAnswer(Matching(t, roles, q, ilike), DecodeCursor(q.cursor).value, q.asc, q.limit, r.value)
      && r.value.total == 0
    ensures q.cursor == NoCursor ==>
      && IsOffsetPage(t, Matching(t, roles, q, ilike), RankOf(roles, q.sortBy, collate), q.asc, q.limit, q.offset,
           KeysOf(r.value.items))
      && r.value.total == |Matching(t, roles, q, ilike)| && r.value.nextCursor == NoCursor
      && |r.value.items| == PageSize(r.value.total, q.limit, q.offset)
      && forall i, j :: 0 <= i < j < |r.value.items| ==>
           ByColumn(roles, q, collate, r.value.items[i], r.value.items[j])
    ensures r.Some? ==> forall row :: row in r.value.items ==> row.key in t && row.body == t[row.key]
  {
    var where := Conditions(roles, q, ilike);
    assert Selected(t, where) == Matching(t, roles, q, ilike);
    r := Page(t, where, q.cursor, RankOf(roles, q.sortBy, collate), q.asc, q.limit, q.offset);
    if q.cursor == NoCursor {
      forall i, j | 0 <= i < j < |r.value.items|
        ensures ByColumn(roles, q, collate, r.value.items[i], r.value.items[j])
      {
        OffsetPageInOrder(t, Matching(t, roles, q, ilike), RankOf(roles, q.sortBy, collate), q.asc, q.limit, q.offset,
          r.value.items, i, j);
        RankedByColumn(roles, q, collate, r.value.items[i], r.value.items[j]);
      }
    }
  }
}
