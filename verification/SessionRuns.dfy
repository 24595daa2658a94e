/** Interleavings of login, refresh, logout and revocation: handlers read a user row, and may act on it late. */
module SessionRuns {
  import opened Options
  import opened Sessions

  /** A handler between its steps, with the token version it read. */
  datatype Handler =
    | ReadUser(user: nat, ver: int)                 // login, before the session row is inserted
    | Checked(token: Token, ver: int)               // refresh, before the rotation
    | HasSession(user: nat, ver: int, jti: nat)     // either, before the pair is signed

  datatype State = State(
    sessions: Table,
    births: nat,
    versions: map<nat, int>,
    blocked: set<nat>,
    tokens: set<Token>,             // every pair ever signed
    handlers: map<nat, Handler>
  )

  const INIT := State(map[], 0, map[], {}, {}, map[])

  datatype Label =
    | Register(user: nat)
    | Login(hid: nat, user: nat)
    | OpenSession(hid: nat, jti: nat)
    | Present(hid: nat, token: Token)
    | Rotate(hid: nat, jti: nat)
    | Sign(hid: nat, access: nat)
    | Drop(hid: nat)
    | Revoke(jti: nat)
    | RevokeUser(user: nat)
    | Bump(user: nat)                // logout-all, role or password change, reuse detected
    | Ban(jti: nat)
    | Expire(jti: nat)               // the blocklist entry's time to live ran out

  predicate Enabled(s: State, l: Label) {
    match l
    case Register(user) => user !in s.versions
    case Login(hid, user) => hid !in s.handlers && user in s.versions
    case OpenSession(hid, jti) => hid in s.handlers && s.handlers[hid].ReadUser? && jti !in s.sessions
    case Present(hid, token) =>
      && hid !in s.handlers && token in s.tokens && token.kind.Refresh?
      && token.jti !in s.blocked && token.user in s.versions && token.ver == s.versions[token.user]
    case Rotate(hid, jti) => hid in s.handlers && s.handlers[hid].Checked? && jti !in s.sessions
    case Sign(hid, access) => hid in s.handlers && s.handlers[hid].HasSession?
    case Drop(hid) => hid in s.handlers
    case Revoke(jti) => true
    case RevokeUser(user) => true
    case Bump(user) => user in s.versions
    case Ban(jti) => true
    case Expire(jti) => true
  }

  /** The rotation succeeds: the session is there and not revoked. */
  predicate Rotates(s: State, l: Label)
    requires Enabled(s, l) && l.Rotate?
  {
    var token := s.handlers[l.hid].token;
    Rotation(s.sessions, token.jti, l.jti, token.user, s.births).1.Rotated?
  }

  function NextSessions(s: State, l: Label): Table
    requires Enabled(s, l)
  {
    match l
    case OpenSession(hid, jti) => Inserted(s.sessions, jti, s.handlers[hid].user, s.births)
    case Rotate(hid, jti) =>
      var token := s.handlers[hid].token;
      Rotation(s.sessions, token.jti, jti, token.user, s.births).0
    case Revoke(jti) => Revoked(s.sessions, jti)
    case RevokeUser(user) => AllRevoked(s.sessions, user)
    case _ => s.sessions
  }

  function NextHandlers(s: State, l: Label): map<nat, Handler>
    requires Enabled(s, l)
  {
    match l
    case Login(hid, user) => s.handlers[hid := ReadUser(user, s.versions[user])]
    case OpenSession(hid, jti) => s.handlers[hid := HasSession(s.handlers[hid].user, s.handlers[hid].ver, jti)]
    case Present(hid, token) => s.handlers[hid := Checked(token, s.versions[token.user])]
    case Rotate(hid, jti) =>
      var h := s.handlers[hid];
      if Rotates(s, l)
      then s.handlers[hid := HasSession(h.token.user, h.ver, jti)] else s.handlers - {hid}
    case Sign(hid, access) => s.handlers - {hid}
    case Drop(hid) => s.handlers - {hid}
    case _ => s.handlers
  }

  function NextTokens(s: State, l: Label): set<Token>
    requires Enabled(s, l)
  {
    if l.Sign? then
      var h := s.handlers[l.hid];
      s.tokens + {Token(Access, h.user, l.access, h.ver), Token(Refresh, h.user, h.jti, h.ver)}
    else s.tokens
  }

  function NextVersions(s: State, l: Label): map<nat, int> {
    match l
    case Register(user) => s.versions[user := 1]
    case Bump(user) => Bumped(s.versions, user)
    case _ => s.versions
  }

  function Step(s: State, l: Label): State
    requires Enabled(s, l)
  {
    State(
      NextSessions(s, l),
      if l.OpenSession? || (l.Rotate? && Rotates(s, l)) then s.births + 1 else s.births,
      NextVersions(s, l),
      if l.Ban? then s.blocked + {l.jti} else if l.Expire? then s.blocked - {l.jti} else s.blocked,
      NextTokens(s, l),
      NextHandlers(s, l))
  }

  ghost predicate IsRun(states: seq<State>, labels: seq<Label>) {
    && |states| == |labels| + 1
    && forall i :: 0 <= i < |labels| ==> Enabled(states[i], labels[i]) && states[i + 1] == Step(states[i], labels[i])
  }

  // Chains

  /** A replaced session is revoked, and its successor is a later session of the same login and user. */
  ghost predicate LinkOk(t: Table, a: nat)
    requires a in t
  {
    t[a].replacedBy.Some? ==>
      && t[a].revoked
      && var b := t[a].replacedBy.value;
         b in t && t[a].birth < t[b].birth && t[b].login == t[a].login && t[b].user == t[a].user
  }

  ghost predicate Links(t: Table, births: nat) {
    forall a {:trigger LinkOk(t, a)} :: a in t ==> t[a].birth < births && t[a].login <= t[a].birth && LinkOk(t, a)
  }

  ghost predicate OneParent(t: Table) {
    forall a, b :: a in t && b in t && t[a].replacedBy.Some? && t[a].replacedBy == t[b].replacedBy ==> a == b
  }

  /** A login's chain has one end; every other session of the login was replaced, hence revoked. */
  ghost predicate OneEnd(t: Table) {
    forall a, b :: a in t && b in t && t[a].login == t[b].login && t[a].replacedBy.None? && t[b].replacedBy.None? ==>
      a == b
  }

  ghost predicate Chains(t: Table, births: nat) {
    Links(t, births) && OneParent(t) && OneEnd(t)
  }

  lemma InsertKeepsChains(t: Table, births: nat, jti: nat, user: nat)
    requires Chains(t, births) && jti !in t
    ensures Chains(Inserted(t, jti, user, births), births + 1)
  {
    var u := Inserted(t, jti, user, births);
    forall a | a in u ensures u[a].birth < births + 1 && u[a].login <= u[a].birth && LinkOk(u, a) {
      if a in t { assert LinkOk(t, a); }
    }
    forall a | a in t ensures t[a].login < births { assert LinkOk(t, a); }
    assert OneParent(u);
    assert OneEnd(u);
  }

  lemma RotateKeepsLinks(t: Table, births: nat, used: nat, fresh': nat, user: nat)
    requires Chains(t, births) && fresh' !in t && used in t && t[used].user == user && !t[used].revoked
    ensures Links(Rotation(t, used, fresh', user, births).0, births + 1)
  {
    var u := Rotation(t, used, fresh', user, births).0;
    assert LinkOk(t, used);
    forall a | a in u ensures u[a].birth < births + 1 && u[a].login <= u[a].birth && LinkOk(u, a) {
      if a in t { assert LinkOk(t, a); }
    }
  }

  /** The used session was its chain's end, because it was live; the new one is the end now. */
  lemma RotateKeepsEnds(t: Table, births: nat, used: nat, fresh': nat, user: nat)
    requires Chains(t, births) && fresh' !in t && used in t && !t[used].revoked
    ensures var u := Rotation(t, used, fresh', user, births).0; OneParent(u) && OneEnd(u)
  {
    var u := Rotation(t, used, fresh', user, births).0;
    assert LinkOk(t, used);
    forall a, b | a in u && b in u && u[a].replacedBy.Some? && u[a].replacedBy == u[b].replacedBy ensures a == b {
      if a != used { assert LinkOk(t, a); }
      if b != used { assert LinkOk(t, b); }
    }
  }

  lemma RevokeKeepsChains(t: Table, u: Table, births: nat)
    requires Chains(t, births) && u.Keys == t.Keys
    requires forall a :: a in t ==> u[a] == t[a] || u[a] == t[a].(revoked := true)
    ensures Chains(u, births)
  {
    forall a | a in u ensures u[a].birth < births && u[a].login <= u[a].birth && LinkOk(u, a) {
      assert LinkOk(t, a);
    }
    assert OneParent(u);
    assert OneEnd(u);
  }

  // Versions and owners

  ghost predicate VersionKnown(s: State, user: nat, ver: int) {
    user in s.versions && ver <= s.versions[user]
  }

  ghost predicate Owns(s: State, user: nat, jti: nat) {
    jti in s.sessions && s.sessions[jti].user == user
  }

  ghost predicate HandlerOk(s: State, h: Handler) {
    match h
    case ReadUser(user, ver) => VersionKnown(s, user, ver)
    case Checked(token, ver) => token in s.tokens && token.kind.Refresh? && VersionKnown(s, token.user, ver)
    case HasSession(user, ver, jti) => VersionKnown(s, user, ver) && Owns(s, user, jti)
  }

  ghost predicate Inv(s: State) {
    && Chains(s.sessions, s.births)
    && (forall tk :: tk in s.tokens ==>
         VersionKnown(s, tk.user, tk.ver) && (tk.kind.Refresh? ==> Owns(s, tk.user, tk.jti)))
    && (forall hid :: hid in s.handlers ==> HandlerOk(s, s.handlers[hid]))
  }

  lemma RotateStepKeepsChains(s: State, l: Label)
    requires Inv(s) && Enabled(s, l) && l.Rotate?
    ensures Chains(NextSessions(s, l), if Rotates(s, l) then s.births + 1 else s.births)
  {
    var token := s.handlers[l.hid].token;
    assert HandlerOk(s, s.handlers[l.hid]);
    assert Owns(s, token.user, token.jti);
    if !s.sessions[token.jti].revoked {
      RotateKeepsLinks(s.sessions, s.births, token.jti, l.jti, token.user);
      RotateKeepsEnds(s.sessions, s.births, token.jti, l.jti, token.user);
    }
  }

  lemma StepKeepsChains(s: State, l: Label)
    requires Inv(s) && Enabled(s, l)
    ensures Chains(Step(s, l).sessions, Step(s, l).births)
  {
    match l
    case OpenSession(hid, jti) => InsertKeepsChains(s.sessions, s.births, jti, s.handlers[hid].user);
    case Rotate(hid, jti) => RotateStepKeepsChains(s, l);
    case Revoke(jti) => RevokeKeepsChains(s.sessions, Revoked(s.sessions, jti), s.births);
    case RevokeUser(user) => RevokeKeepsChains(s.sessions, AllRevoked(s.sessions, user), s.births);
    case _ =>
  }

  lemma StepKeepsHandlers(s: State, l: Label)
    requires Inv(s) && Enabled(s, l)
    ensures forall hid :: hid in Step(s, l).handlers ==> HandlerOk(Step(s, l), Step(s, l).handlers[hid])
  {
    var t := Step(s, l);
    forall hid | hid in t.handlers ensures HandlerOk(t, t.handlers[hid]) {
      if hid in s.handlers {
        assert HandlerOk(s, s.handlers[hid]);
      }
    }
  }

  lemma StepKeepsInv(s: State, l: Label)
    requires Inv(s) && Enabled(s, l)
    ensures Inv(Step(s, l))
  {
    StepKeepsChains(s, l);
    StepKeepsHandlers(s, l);
  }

  lemma {:induction false} RunKeepsInv(states: seq<State>, labels: seq<Label>)
    requires IsRun(states, labels) && states[0] == INIT
    ensures Inv(states[|labels|])
  {
    if labels != [] {
      var n := |labels| - 1;
      RunKeepsInv(states[..n + 1], labels[..n]);
      StepKeepsInv(states[n], labels[n]);
    }
  }

  // The theorems

  /** Each login has at most one live session, the end of its chain; successors are unique, later, and of the same
      login and user; and whatever was replaced is revoked. */
  lemma RotationChains(states: seq<State>, labels: seq<Label>, a: nat, b: nat)
    requires IsRun(states, labels) && states[0] == INIT
    requires a in states[|labels|].sessions && b in states[|labels|].sessions
    ensures var t := states[|labels|].sessions;
      && (t[a].login == t[b].login && !t[a].revoked && !t[b].revoked ==> a == b)
      && (t[a].replacedBy.Some? ==> t[a].revoked)
      && (t[a].replacedBy.Some? && t[a].replacedBy == t[b].replacedBy ==> a == b)
      && (t[a].replacedBy == Some(b) ==> t[a].birth < t[b].birth && t[a].login == t[b].login && t[a].user == t[b].user)
  {
    RunKeepsInv(states, labels);
    assert LinkOk(states[|labels|].sessions, a) && LinkOk(states[|labels|].sessions, b);
  }

  /** Following replaced_by from a session, n times. */
  function Successor(t: Table, jti: nat, n: nat): Option<nat> {
    if n == 0 then Some(jti)
    else match Successor(t, jti, n - 1)
      case None => None
      case Some(j) => if j in t then t[j].replacedBy else None
  }

  lemma {:induction false} SuccessorIsLater(t: Table, births: nat, jti: nat, n: nat)
    requires Links(t, births) && jti in t
    ensures Successor(t, jti, n).Some? ==>
      Successor(t, jti, n).value in t && t[Successor(t, jti, n).value].birth >= t[jti].birth + n
  {
    if n > 0 {
      SuccessorIsLater(t, births, jti, n - 1);
      var before := Successor(t, jti, n - 1);
      if before.Some? { assert LinkOk(t, before.value); }
    }
  }

  /** replaced_by has no cycle: no session is its own descendant, and every chain ends. */
  lemma NoCycles(states: seq<State>, labels: seq<Label>, jti: nat, n: nat)
    requires IsRun(states, labels) && states[0] == INIT && jti in states[|labels|].sessions
    ensures n > 0 ==> Successor(states[|labels|].sessions, jti, n) != Some(jti)
    ensures n >= states[|labels|].births ==> Successor(states[|labels|].sessions, jti, n) == None
  {
    RunKeepsInv(states, labels);
    SuccessorIsLater(states[|labels|].sessions, states[|labels|].births, jti, n);
    var end := Successor(states[|labels|].sessions, jti, n);
    if end.Some? { assert LinkOk(states[|labels|].sessions, end.value); }
  }

  lemma {:induction false} VersionsRise(states: seq<State>, labels: seq<Label>, user: nat)
    requires IsRun(states, labels) && user in states[0].versions
    ensures user in states[|labels|].versions && states[0].versions[user] <= states[|labels|].versions[user]
  {
    if labels != [] {
      var n := |labels| - 1;
      VersionsRise(states[..n + 1], labels[..n], user);
    }
  }

  /** Neither the middleware nor the refresh handler takes the token; the middleware not even when it cannot reach the
      blocklist and goes on without it. */
  ghost predicate Refused(s: State, tk: Token) {
    !Accepts(s.versions, s.blocked, tk) && !Accepts(s.versions, {}, tk) && forall hid :: !Enabled(s, Present(hid, tk))
  }

  /** Version kill: after a bump, every token signed before it is refused for ever, and so is every pair a
      handler still signs from a user row it read before the bump. */
  lemma VersionKill(states: seq<State>, labels: seq<Label>, at: nat, tk: Token)
    requires IsRun(states, labels) && states[0] == INIT && at < |labels| && labels[at] == Bump(tk.user)
    requires
      || tk in states[at].tokens
      || exists hid :: hid in states[at].handlers && WouldSign(states[at].handlers[hid], tk)
    ensures Refused(states[|labels|], tk)
  {
    var s := states[at];
    RunKeepsInv(states[..at + 1], labels[..at]);
    if tk !in s.tokens {
      var hid :| hid in s.handlers && WouldSign(s.handlers[hid], tk);
      assert HandlerOk(s, s.handlers[hid]);
    }
    assert tk.ver <= s.versions[tk.user] < states[at + 1].versions[tk.user];
    VersionsRise(states[at + 1..], labels[at + 1..], tk.user);
    assert states[at + 1..][|labels| - at - 1] == states[|labels|];
  }

  /** The handler holds the version the token will carry. */
  ghost predicate WouldSign(h: Handler, tk: Token) {
    match h
    case ReadUser(user, ver) => tk.user == user && tk.ver == ver
    case Checked(token, ver) => tk.user == token.user && tk.ver == ver
    case HasSession(user, ver, jti) => tk.user == user && tk.ver == ver
  }

  /** What WouldSign means: a handler's pair carries the version it read, however many bumps happen in between. */
  lemma HandlersSignWhatTheyRead(s: State, l: Label, hid: nat, tk: Token)
    requires Enabled(s, l) && hid in s.handlers
    ensures hid in Step(s, l).handlers && WouldSign(Step(s, l).handlers[hid], tk) ==> WouldSign(s.handlers[hid], tk)
    ensures l == Sign(hid, tk.jti) && tk in Step(s, l).tokens - s.tokens ==> WouldSign(s.handlers[hid], tk)
  {
  }

  // Reuse over runs

  ghost predicate IsRevoked(s: State, jti: nat) {
    jti in s.sessions && s.sessions[jti].revoked
  }

  lemma {:induction false} RevokedStays(states: seq<State>, labels: seq<Label>, jti: nat)
    requires IsRun(states, labels) && IsRevoked(states[0], jti)
    ensures IsRevoked(states[|labels|], jti)
  {
    if labels != [] {
      var n := |labels| - 1;
      RevokedStays(states[..n + 1], labels[..n], jti);
    }
  }

  /** This step rotates the session of the token `jti`. */
  ghost predicate Spends(s: State, l: Label, jti: nat) {
    l.Rotate? && Enabled(s, l) && s.handlers[l.hid].token.jti == jti && Rotates(s, l)
  }

  /** A refresh token is good for one pair: however many handlers hold it at once, whether or not its ban took, it is
      rotated at most once in a run. */
  lemma SpentOnce(states: seq<State>, labels: seq<Label>, i: nat, j: nat, jti: nat)
    requires IsRun(states, labels) && i < j < |labels| && Spends(states[i], labels[i], jti)
    ensures !Spends(states[j], labels[j], jti)
  {
    var rest, steps := states[i + 1..], labels[i + 1..];
    assert IsRevoked(rest[0], jti);
    RevokedStays(rest[..j - i], steps[..j - i - 1], jti);
    assert rest[..j - i][j - i - 1] == states[j];
  }
}
