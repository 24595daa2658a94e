/** Refresh sessions, token versions, and the handlers that rotate and revoke them. */
module Sessions {
  import opened Options

  /** A refresh_tokens row. `birth` is its place in creation order, `login` the place of the login it descends from. */
  datatype Session = Session(user: nat, revoked: bool, replacedBy: Option<nat>, login: nat, birth: nat)

  /** Keyed by the token's jti, which is unique. */
  type Table = map<nat, Session>

  datatype Kind = Access | Refresh
  datatype Token = Token(kind: Kind, user: nat, jti: nat, ver: int)

  function Inserted(t: Table, jti: nat, user: nat, birth: nat): Table {
    t[jti := Session(user, false, None, birth, birth)]
  }

  datatype RotateResult = Rotated | NotFound | Reuse | DatabaseError

  /** A revoked row is reuse; a live one is replaced by a new row in the same transaction. */
  function Rotation(t: Table, used: nat, fresh': nat, user: nat, birth: nat): (Table, RotateResult) {
    if used !in t then (t, NotFound)
    else if t[used].revoked then (t, Reuse)
    else
      (t[fresh' := Session(user, false, None, t[used].login, birth)]
        [used := t[used].(revoked := true, replacedBy := Some(fresh'))], Rotated)
  }

  /** How a transaction ends: normally, not at all, or committed although an error came back. */
  datatype TxFate = Confirmed | RolledBack | Unconfirmed

  function RotationTx(t: Table, used: nat, fresh': nat, user: nat, birth: nat, fate: TxFate): (Table, RotateResult) {
    var (after, result) := Rotation(t, used, fresh', user, birth);
    if fate.RolledBack? then (t, DatabaseError)
    else (after, if fate.Unconfirmed? && result.Rotated? then DatabaseError else result)
  }

  function Revoked(t: Table, jti: nat): Table {
    if jti in t then t[jti := t[jti].(revoked := true)] else t
  }

  function AllRevoked(t: Table, user: nat): Table {
    map jti | jti in t :: if t[jti].user == user then t[jti].(revoked := true) else t[jti]
  }

  // The store

  class RefreshStore {
    var rows: Table
    var births: nat

    constructor ()
      ensures rows == map[] && births == 0
    {
      rows, births := map[], 0;
    }

    method Insert(jti: nat, user: nat)
      requires jti !in rows
      modifies this
      ensures rows == Inserted(old(rows), jti, user, old(births)) && births == old(births) + 1
    {
      rows := rows[jti := Session(user, false, None, births, births)];
      births := births + 1;
    }

    method Rotate(used: nat, fresh': nat, user: nat, fate: TxFate) returns (result: RotateResult)
      requires fresh' !in rows
      modifies this
      ensures (rows, result) == RotationTx(old(rows), used, fresh', user, old(births), fate)
      ensures births == old(births) + if fresh' in rows then 1 else 0
    {
      if fate.RolledBack? {
        return DatabaseError;
      }
      if used !in rows {
        return NotFound;
      }
      if rows[used].revoked {
        return Reuse;
      }
      rows := rows[fresh' := Session(user, false, None, rows[used].login, births)];
      births := births + 1;
      rows := rows[used := rows[used].(revoked := true, replacedBy := Some(fresh'))];
      result := if fate.Unconfirmed? then DatabaseError else Rotated;
    }

    method Revoke(jti: nat)
      modifies this`rows
      ensures rows == Revoked(old(rows), jti)
    {
      if jti in rows {
        rows := rows[jti := rows[jti].(revoked := true)];
      }
    }

    method RevokeAllForUser(user: nat)
      modifies this`rows
      ensures rows == AllRevoked(old(rows), user)
    {
      rows := map jti | jti in rows :: if rows[jti].user == user then rows[jti].(revoked := true) else rows[jti];
    }
  }

  // The handlers, one at a time

  /** Everything the handlers read and write. */
  datatype Service = Service(sessions: Table, births: nat, versions: map<nat, int>, blocked: set<nat>)

  datatype Outcome =
    | Pair(access: Token, refresh: Token)
    | NotRefresh
    | Blocklisted
    | UnknownUser
    | OldVersion
    | UnknownSession
    | ReuseDetected
    | ServerError

  function Bumped(versions: map<nat, int>, user: nat): map<nat, int> {
    if user in versions then versions[user := versions[user] + 1] else versions
  }

  function Tokens(user: nat, ver: int, access: nat, refresh: nat): Outcome {
    Pair(Token(Access, user, access, ver), Token(Refresh, user, refresh, ver))
  }

  /** How the rotation ends, and which writes work whose errors the handler ignores: the ban of a spent token, and the
      two steps that follow a reuse. */
  datatype Works = Works(rotation: TxFate, ban: bool, revoke: bool, bump: bool)

  /** Blocklist, then version, then rotation: reuse is only looked for after the first two let the token pass. */
  function RefreshCall(sv: Service, token: Token, fresh': nat, access: nat, works: Works): (Service, Outcome) {
    if !token.kind.Refresh? then (sv, NotRefresh)
    else if token.jti in sv.blocked then (sv, Blocklisted)
    else if token.user !in sv.versions then (sv, UnknownUser)
    else if token.ver != sv.versions[token.user] then (sv, OldVersion)
    else
      var (rows, result) := RotationTx(sv.sessions, token.jti, fresh', token.user, sv.births, works.rotation);
      match result
      case DatabaseError =>
        (sv.(sessions := rows, births := sv.births + if works.rotation.Unconfirmed? then 1 else 0), ServerError)
      case NotFound => (sv, UnknownSession)
      case Reuse =>
        (sv.(sessions := if works.revoke then AllRevoked(sv.sessions, token.user) else sv.sessions,
             versions := if works.bump then Bumped(sv.versions, token.user) else sv.versions), ReuseDetected)
      case Rotated =>
        (Service(rows, sv.births + 1, sv.versions, sv.blocked + if works.ban then {token.jti} else {}),
         Tokens(token.user, sv.versions[token.user], access, fresh'))
  }

  function LoginCall(sv: Service, user: nat, jti: nat, access: nat): (Service, Outcome) {
    if user !in sv.versions then (sv, UnknownUser)
    else
      (sv.(sessions := Inserted(sv.sessions, jti, user, sv.births), births := sv.births + 1),
       Tokens(user, sv.versions[user], access, jti))
  }

  /** One's own refresh token is revoked, and both tokens are banned as far as the blocklist takes them. */
  function LogoutCall(sv: Service, principal: nat, accessJti: nat, token: Token, banWorks: bool, accessBanWorks: bool)
    : (Service, bool)
  {
    if !token.kind.Refresh? || token.user != principal then (sv, false)
    else
      (sv.(sessions := Revoked(sv.sessions, token.jti),
           blocked := sv.blocked + (if banWorks then {token.jti} else {})
             + (if accessBanWorks then {accessJti} else {})), true)
  }

  /** The sessions go first; a user without a row stops the rest. */
  function LogoutAllCall(sv: Service, principal: nat, accessJti: nat, banWorks: bool): (Service, bool) {
    var ok := principal in sv.versions;
    (sv.(sessions := AllRevoked(sv.sessions, principal), versions := Bumped(sv.versions, principal),
         blocked := sv.blocked + if ok && banWorks then {accessJti} else {}), ok)
  }

  /** The test of the bearer middleware. */
  predicate Accepts(versions: map<nat, int>, blocked: set<nat>, token: Token) {
    token.kind.Access? && token.jti !in blocked && token.user in versions && token.ver == versions[token.user]
  }

  class Auth {
    const refresh: RefreshStore
    var versions: map<nat, int>
    var blocked: set<nat>

    constructor (refresh: RefreshStore)
      ensures this.refresh == refresh && versions == map[] && blocked == {}
    {
      this.refresh := refresh;
      versions, blocked := map[], {};
    }

    ghost function Contents(): Service
      reads this, refresh
    {
      Service(refresh.rows, refresh.births, versions, blocked)
    }

    /** A blocklist write is best effort: `works` says whether Redis took it. */
    method Ban(jti: nat, works: bool)
      modifies this`blocked
      ensures blocked == old(blocked) + if works then {jti} else {}
    {
      if works {
        blocked := blocked + {jti};
      }
    }

    method IncrementTokenVersion(user: nat) returns (found: bool)
      modifies this`versions
      ensures found == (user in old(versions)) && versions == Bumped(old(versions), user)
    {
      found := user in versions;
      if found {
        versions := versions[user := versions[user] + 1];
      }
    }

    method HandleRefresh(token: Token, fresh': nat, access: nat, works: Works) returns (outcome: Outcome)
      requires fresh' !in refresh.rows
      modifies this, refresh
      ensures (Contents(), outcome) == RefreshCall(old(Contents()), token, fresh', access, works)
    {
      if !token.kind.Refresh? {
        return NotRefresh;
      }
      if token.jti in blocked {
        return Blocklisted;
      }
      if token.user !in versions {
        return UnknownUser;
      }
      var ver := versions[token.user];
      if token.ver != ver {
        return OldVersion;
      }
      var result := refresh.Rotate(token.jti, fresh', token.user, works.rotation);
      if result.Reuse? {
        if works.revoke {
          refresh.RevokeAllForUser(token.user);
        }
        if works.bump {
          var found := IncrementTokenVersion(token.user);
        }
        return ReuseDetected;
      }
      if result.NotFound? {
        return UnknownSession;
      }
      if result.DatabaseError? {
        return ServerError;
      }
      Ban(token.jti, works.ban);
      outcome := Tokens(token.user, ver, access, fresh');
    }

    method HandleLogin(user: nat, jti: nat, access: nat) returns (outcome: Outcome)
      requires jti !in refresh.rows
      modifies refresh
      ensures (Contents(), outcome) == LoginCall(old(Contents()), user, jti, access)
    {
      if user !in versions {
        return UnknownUser;
      }
      var ver := versions[user];
      refresh.Insert(jti, user);
      outcome := Tokens(user, ver, access, jti);
    }

    method HandleLogout(principal: nat, accessJti: nat, token: Token, banWorks: bool, accessBanWorks: bool)
      returns (ok: bool)
      modifies this`blocked, refresh`rows
      ensures (Contents(), ok) == LogoutCall(old(Contents()), principal, accessJti, token, banWorks, accessBanWorks)
    {
      if !token.kind.Refresh? || token.user != principal {
        return false;
      }
      refresh.Revoke(token.jti);
      Ban(token.jti, banWorks);
      Ban(accessJti, accessBanWorks);
      ok := true;
    }

    method HandleLogoutAll(principal: nat, accessJti: nat, banWorks: bool) returns (ok: bool)
      modifies this, refresh`rows
      ensures (Contents(), ok) == LogoutAllCall(old(Contents()), principal, accessJti, banWorks)
    {
      refresh.RevokeAllForUser(principal);
      ok := IncrementTokenVersion(principal);
      if ok {
        Ban(accessJti, banWorks);
      } else {
        assert blocked + {} == blocked;
      }
    }
  }

  // When reuse is detected

  /** A spent refresh token is found out exactly when neither earlier check stops it and the store can be asked; then
      every session of its user ends and the version rises, as far as these two writes go through. */
  lemma ReuseDetectedIff(sv: Service, token: Token, fresh': nat, access: nat, works: Works)
    requires token.kind.Refresh? && token.user in sv.versions
    requires token.jti in sv.sessions && sv.sessions[token.jti].revoked
    ensures var (after, outcome) := RefreshCall(sv, token, fresh', access, works);
      && (outcome.ReuseDetected? <==>
           token.jti !in sv.blocked && token.ver == sv.versions[token.user] && !works.rotation.RolledBack?)
      && (outcome.ReuseDetected? && works.bump ==> after.versions[token.user] == sv.versions[token.user] + 1)
      && (outcome.ReuseDetected? && works.revoke ==>
           forall jti :: jti in after.sessions && after.sessions[jti].user == token.user ==>
             after.sessions[jti].revoked)
      && (!outcome.ReuseDetected? ==> after == sv)
  {
  }

  /** Presenting a token a second time right after its rotation: the ban the first use left behind answers before reuse
      detection does, so nothing is killed unless that ban was lost. */
  lemma SecondUseOfToken(sv: Service, token: Token, f1: nat, a1: nat, f2: nat, a2: nat, w1: Works, w2: Works)
    requires RefreshCall(sv, token, f1, a1, w1).1.Pair? && f1 != token.jti
    ensures var first := RefreshCall(sv, token, f1, a1, w1).0;
      var (second, outcome) := RefreshCall(first, token, f2, a2, w2);
      && (w1.ban ==> outcome == Blocklisted && second == first)
      && (!w1.ban ==> outcome == if w2.rotation.RolledBack? then ServerError else ReuseDetected)
      && (outcome == ServerError ==> second == first)
      && (outcome == ReuseDetected && w2.bump ==> second.versions[token.user] == sv.versions[token.user] + 1)
  {
  }

  /** A client whose refresh ended in a server error asks again: if the rotation was rolled back the second call is
      answered as a first one, but if it had been committed the client itself is taken for a thief. */
  lemma RetryAfterServerError(sv: Service, token: Token, f1: nat, a1: nat, f2: nat, a2: nat, w1: Works, w2: Works)
    requires RefreshCall(sv, token, f1, a1, w1).1.ServerError? && f1 !in sv.sessions
    ensures var first := RefreshCall(sv, token, f1, a1, w1).0;
      var (second, outcome) := RefreshCall(first, token, f2, a2, w2);
      && (w1.rotation.RolledBack? ==> first == sv)
      && (w1.rotation.Unconfirmed? ==> outcome == if w2.rotation.RolledBack? then ServerError else ReuseDetected)
      && (outcome == ReuseDetected && w2.revoke ==>
           forall jti :: jti in second.sessions && second.sessions[jti].user == token.user ==>
             second.sessions[jti].revoked)
  {
  }

  // What the other handlers leave

  /** The rows of the user are revoked as they are, and no other row changes. */
  ghost predicate IsRevokedFor(before: Table, after: Table, user: nat) {
    && after.Keys == before.Keys
    && forall jti :: jti in before ==>
         after[jti] == if before[jti].user == user then before[jti].(revoked := true) else before[jti]
  }

  /** A logout from all sessions: every session of the user ends and the version rises by one, so that no token signed
      so far passes the middleware, with or without the blocklist, nor the refresh handler. */
  lemma LogoutAllAnswers(sv: Service, principal: nat, accessJti: nat, banWorks: bool)
    ensures var (after, ok) := LogoutAllCall(sv, principal, accessJti, banWorks);
      && (ok <==> principal in sv.versions)
      && IsRevokedFor(sv.sessions, after.sessions, principal) && after.births == sv.births
      && after.versions == (if ok then sv.versions[principal := sv.versions[principal] + 1] else sv.versions)
      && after.blocked == sv.blocked + (if ok && banWorks then {accessJti} else {})
  {
  }

  lemma LogoutAllKills(sv: Service, principal: nat, accessJti: nat, banWorks: bool, tk: Token, fresh': nat,
                       access: nat, works: Works)
    requires principal in sv.versions && tk.user == principal && tk.ver <= sv.versions[principal]
    ensures var after := LogoutAllCall(sv, principal, accessJti, banWorks).0;
      && !Accepts(after.versions, after.blocked, tk) && !Accepts(after.versions, {}, tk)
      && !RefreshCall(after, tk, fresh', access, works).1.Pair?
  {
    LogoutAllAnswers(sv, principal, accessJti, banWorks);
  }

  /** A logout with one's own refresh token: that session ends, each ban that works is on the blocklist, and nothing
      else changes; with any other token nothing does. */
  lemma LogoutAnswers(sv: Service, principal: nat, accessJti: nat, token: Token, banWorks: bool, accessBanWorks: bool)
    ensures var (after, ok) := LogoutCall(sv, principal, accessJti, token, banWorks, accessBanWorks);
      && (ok <==> token.kind == Refresh && token.user == principal)
      && (!ok ==> after == sv)
      && (ok ==>
           && after.sessions.Keys == sv.sessions.Keys
           && (forall jti :: jti in sv.sessions && jti != token.jti ==> after.sessions[jti] == sv.sessions[jti])
           && (token.jti in sv.sessions ==> after.sessions[token.jti] == sv.sessions[token.jti].(revoked := true))
           && (token.jti in after.blocked <==>
                token.jti in sv.blocked || banWorks || (accessBanWorks && accessJti == token.jti))
           && (accessJti in after.blocked <==>
                accessJti in sv.blocked || accessBanWorks || (banWorks && accessJti == token.jti))
           && (forall jti :: jti != token.jti && jti != accessJti ==> (jti in after.blocked <==> jti in sv.blocked))
           && after.versions == sv.versions && after.births == sv.births)
  {
  }

  /** After it neither token is good for anything, as far as the bans and the revocation went through. */
  lemma LogoutKills(sv: Service, principal: nat, accessJti: nat, token: Token, banWorks: bool, accessBanWorks: bool,
                    tk: Token, fresh': nat, access: nat, works: Works)
    requires token.kind == Refresh && token.user == principal
    ensures var after := LogoutCall(sv, principal, accessJti, token, banWorks, accessBanWorks).0;
      && (tk.jti == accessJti && accessBanWorks ==> !Accepts(after.versions, after.blocked, tk))
      && (tk.jti == token.jti && token.jti in sv.sessions ==> !RefreshCall(after, tk, fresh', access, works).1.Pair?)
  {
  }

  /** The pair opens what it says: the access token passes the middleware and the refresh token does not, and the
      refresh token is good for the next pair, of the same user and version. */
  ghost predicate PairWorks(sv: Service, user: nat, access: Token, refresh: Token) {
    && access.user == refresh.user == user && access.kind == Access && refresh.kind == Refresh
    && (access.jti !in sv.blocked ==> Accepts(sv.versions, sv.blocked, access))
    && !Accepts(sv.versions, sv.blocked, refresh)
    && refresh.jti in sv.sessions && sv.sessions[refresh.jti].user == user && !sv.sessions[refresh.jti].revoked
    && (refresh.jti !in sv.blocked ==> forall fresh', next, ban, revoke, bump ::
         RefreshCall(sv, refresh, fresh', next, Works(Confirmed, ban, revoke, bump)).1
           == Pair(Token(Access, user, next, access.ver), Token(Refresh, user, fresh', access.ver)))
  }

  /** A login of a known user opens one live session, a login of its own, and signs a pair that works. */
  lemma LoginAnswers(sv: Service, user: nat, jti: nat, access: nat)
    requires jti !in sv.sessions
    ensures var (after, outcome) := LoginCall(sv, user, jti, access);
      if user !in sv.versions then outcome == UnknownUser && after == sv
      else
        && outcome.Pair? && outcome.access.jti == access && outcome.refresh.jti == jti
        && outcome.access.ver == outcome.refresh.ver == sv.versions[user]
        && after.sessions == sv.sessions[jti := Session(user, false, None, sv.births, sv.births)]
        && after.births == sv.births + 1 && after.versions == sv.versions && after.blocked == sv.blocked
        && PairWorks(after, user, outcome.access, outcome.refresh)
  {
  }

  /** A refresh answers with a pair exactly when the token is a refresh token that is not banned, its version is the
      user's, its session is live and the store answers; then that session is over and continued by the new one, and the
      pair works. */
  lemma RefreshAnswers(sv: Service, token: Token, fresh': nat, access: nat, works: Works)
    requires fresh' !in sv.sessions
    ensures var (after, outcome) := RefreshCall(sv, token, fresh', access, works);
      && (outcome.Pair? <==>
           && token.kind == Refresh && token.jti !in sv.blocked
           && token.user in sv.versions && token.ver == sv.versions[token.user]
           && token.jti in sv.sessions && !sv.sessions[token.jti].revoked && works.rotation == Confirmed)
      && (outcome.Pair? ==>
           && outcome.access.jti == access && outcome.refresh.jti == fresh'
           && outcome.access.ver == outcome.refresh.ver == token.ver
           && after.sessions.Keys == sv.sessions.Keys + {fresh'}
           && after.sessions[token.jti] == sv.sessions[token.jti].(revoked := true, replacedBy := Some(fresh'))
           && after.sessions[fresh'] == Session(token.user, false, None, sv.sessions[token.jti].login, sv.births)
           && (forall jti :: jti in sv.sessions && jti != token.jti ==> after.sessions[jti] == sv.sessions[jti])
           && after.blocked == sv.blocked + (if works.ban then {token.jti} else {})
           && after.versions == sv.versions && after.births == sv.births + 1
           && PairWorks(after, token.user, outcome.access, outcome.refresh))
  {
  }

  /** Every other answer: the first check that fails says why; only reuse and an unconfirmed rotation leave something
      behind. */
  lemma RefreshRefusals(sv: Service, token: Token, fresh': nat, access: nat, works: Works)
    requires fresh' !in sv.sessions
    ensures var (after, outcome) := RefreshCall(sv, token, fresh', access, works);
      var known := token.kind == Refresh && token.jti !in sv.blocked && token.user in sv.versions;
      var passes := known && token.ver == sv.versions[token.user];
      var live := token.jti in sv.sessions && !sv.sessions[token.jti].revoked;
      && (outcome == NotRefresh <==> token.kind == Access)
      && (outcome == Blocklisted <==> token.kind == Refresh && token.jti in sv.blocked)
      && (outcome == UnknownUser <==>
           token.kind == Refresh && token.jti !in sv.blocked && token.user !in sv.versions)
      && (outcome == OldVersion <==> known && !passes)
      && (outcome == UnknownSession <==> passes && !works.rotation.RolledBack? && token.jti !in sv.sessions)
      && (outcome == ServerError <==> passes && (works.rotation.RolledBack? || (live && works.rotation.Unconfirmed?)))
      && (outcome == ReuseDetected <==>
           passes && !works.rotation.RolledBack? && token.jti in sv.sessions && !live)
      && (outcome == ReuseDetected ==>
           && (if works.revoke then IsRevokedFor(sv.sessions, after.sessions, token.user)
               else after.sessions == sv.sessions)
           && after.versions == (if works.bump then sv.versions[token.user := token.ver + 1] else sv.versions)
           && after.blocked == sv.blocked && after.births == sv.births)
      && (outcome == ServerError && works.rotation.Unconfirmed? ==>
           after == RefreshCall(sv, token, fresh', access, Works(Confirmed, false, false, false)).0)
      && (outcome == ServerError && works.rotation.RolledBack? ==> after == sv)
      && (!outcome.Pair? && outcome != ReuseDetected && outcome != ServerError ==> after == sv)
  {
  }
}
