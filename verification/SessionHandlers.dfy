/** The handlers, called one at a time, make only steps of the interleaved system. */
module SessionHandlers {
  import opened Sessions
  import opened SessionRuns

  datatype Path = Path(states: seq<State>, labels: seq<Label>)

  ghost predicate Leads(s: State, p: Path, t: State) {
    IsRun(p.states, p.labels) && p.states[0] == s && p.states[|p.labels|] == t
  }

  lemma Stay(s: State) returns (p: Path)
    ensures Leads(s, p, s)
  {
    p := Path([s], []);
  }

  lemma Then(s: State, p: Path, t: State, l: Label) returns (r: Path)
    requires Leads(s, p, t) && Enabled(t, l)
    ensures Leads(s, r, Step(t, l))
  {
    r := Path(p.states + [Step(t, l)], p.labels + [l]);
  }

  lemma ThenIf(s: State, p: Path, t: State, l: Label, taken: bool) returns (r: Path, u: State)
    requires Leads(s, p, t) && (taken ==> Enabled(t, l))
    ensures Leads(s, r, u) && u == if taken then Step(t, l) else t
  {
    r, u := p, t;
    if taken {
      r := Then(s, p, t, l);
      u := Step(t, l);
    }
  }

  function ServiceOf(s: State): Service {
    Service(s.sessions, s.births, s.versions, s.blocked)
  }

  /** The pair a handler hands out joins the tokens that exist; nothing else does. */
  ghost predicate Answered(s: State, after: Service, outcome: Outcome, t: State) {
    && ServiceOf(t) == after && t.handlers == s.handlers
    && t.tokens == s.tokens + if outcome.Pair? then {outcome.access, outcome.refresh} else {}
  }

  lemma SignIsRun(s: State, p: Path, t: State, hid: nat, user: nat, ver: int, jti: nat, access: nat)
    returns (r: Path, u: State)
    requires Leads(s, p, t) && hid !in s.handlers && t.handlers == s.handlers[hid := HasSession(user, ver, jti)]
    ensures Leads(s, r, u) && ServiceOf(u) == ServiceOf(t) && u.handlers == s.handlers
    ensures u.tokens == t.tokens + {Token(Access, user, access, ver), Token(Refresh, user, jti, ver)}
  {
    r := Then(s, p, t, Sign(hid, access));
    u := Step(t, Sign(hid, access));
  }

  lemma LoginIsRun(s: State, hid: nat, user: nat, jti: nat, access: nat) returns (p: Path, t: State)
    requires hid !in s.handlers && jti !in s.sessions
    ensures var (after, outcome) := LoginCall(ServiceOf(s), user, jti, access);
      Leads(s, p, t) && Answered(s, after, outcome, t)
  {
    p := Stay(s);
    t := s;
    if user in s.versions {
      p := Then(s, p, s, Login(hid, user));
      var s1 := Step(s, Login(hid, user));
      p := Then(s, p, s1, OpenSession(hid, jti));
      p, t := SignIsRun(s, p, Step(s1, OpenSession(hid, jti)), hid, user, s.versions[user], jti, access);
    }
  }

  /** The token passes both checks before the rotation. */
  predicate Presentable(s: State, token: Token) {
    && token.kind.Refresh? && token.jti !in s.blocked
    && token.user in s.versions && token.ver == s.versions[token.user]
  }

  lemma CheckedIsRun(s: State, hid: nat, token: Token) returns (p: Path, t: State)
    requires hid !in s.handlers && token in s.tokens && Presentable(s, token)
    ensures Leads(s, p, t)
    ensures t == s.(handlers := s.handlers[hid := Checked(token, s.versions[token.user])])
  {
    p := Stay(s);
    p := Then(s, p, s, Present(hid, token));
    t := Step(s, Present(hid, token));
  }

  lemma RotatedIsRun(s: State, hid: nat, token: Token, fresh': nat, access: nat, works: Works)
    returns (p: Path, t: State)
    requires hid !in s.handlers && token in s.tokens && Presentable(s, token) && fresh' !in s.sessions
    requires token.jti in s.sessions && !s.sessions[token.jti].revoked && !works.rotation.RolledBack?
    ensures var (after, outcome) := RefreshCall(ServiceOf(s), token, fresh', access, works);
      Leads(s, p, t) && Answered(s, after, outcome, t)
  {
    var s1;
    p, s1 := CheckedIsRun(s, hid, token);
    var l := Rotate(hid, fresh');
    p := Then(s, p, s1, l);
    var s2 := Step(s1, l);
    assert s2.blocked + {} == s2.blocked;
    if works.rotation.Unconfirmed? {
      p := Then(s, p, s2, Drop(hid));
      t := Step(s2, Drop(hid));
    } else {
      var s3;
      p, s3 := ThenIf(s, p, s2, Ban(token.jti), works.ban);
      p, t := SignIsRun(s, p, s3, hid, token.user, s.versions[token.user], fresh', access);
    }
  }

  lemma RolledBackIsRun(s: State, hid: nat, token: Token) returns (p: Path)
    requires hid !in s.handlers && token in s.tokens && Presentable(s, token)
    ensures Leads(s, p, s)
  {
    var s1;
    p, s1 := CheckedIsRun(s, hid, token);
    p := Then(s, p, s1, Drop(hid));
    assert Step(s1, Drop(hid)) == s;
  }

  lemma NotRotatedIsRun(s: State, hid: nat, token: Token, fresh': nat, access: nat, works: Works)
    returns (p: Path, t: State)
    requires hid !in s.handlers && token in s.tokens && Presentable(s, token) && fresh' !in s.sessions
    requires (token.jti in s.sessions ==> s.sessions[token.jti].revoked) && !works.rotation.RolledBack?
    ensures var (after, outcome) := RefreshCall(ServiceOf(s), token, fresh', access, works);
      Leads(s, p, t) && Answered(s, after, outcome, t)
  {
    var s1;
    p, s1 := CheckedIsRun(s, hid, token);
    p := Then(s, p, s1, Rotate(hid, fresh'));
    var s2 := Step(s1, Rotate(hid, fresh'));
    assert s2.handlers == s.handlers;
    var reuse := token.jti in s.sessions;
    var s3;
    p, s3 := ThenIf(s, p, s2, RevokeUser(token.user), reuse && works.revoke);
    p, t := ThenIf(s, p, s3, Bump(token.user), reuse && works.bump);
  }

  /** A refresh is a run of the interleaved system, whatever its outcome, and its pair is all it signs. */
  lemma RefreshIsRun(s: State, hid: nat, token: Token, fresh': nat, access: nat, works: Works)
    returns (p: Path, t: State)
    requires hid !in s.handlers && token in s.tokens && fresh' !in s.sessions
    ensures var (after, outcome) := RefreshCall(ServiceOf(s), token, fresh', access, works);
      Leads(s, p, t) && Answered(s, after, outcome, t)
  {
    if !Presentable(s, token) {
      p := Stay(s);
      t := s;
    } else if works.rotation.RolledBack? {
      p := RolledBackIsRun(s, hid, token);
      t := s;
    } else if token.jti in s.sessions && !s.sessions[token.jti].revoked {
      p, t := RotatedIsRun(s, hid, token, fresh', access, works);
    } else {
      p, t := NotRotatedIsRun(s, hid, token, fresh', access, works);
    }
  }

  lemma LogoutIsRun(s: State, principal: nat, accessJti: nat, token: Token, banWorks: bool, accessBanWorks: bool)
    returns (p: Path, t: State)
    ensures Leads(s, p, t) && t.handlers == s.handlers && t.tokens == s.tokens
    ensures ServiceOf(t) == LogoutCall(ServiceOf(s), principal, accessJti, token, banWorks, accessBanWorks).0
  {
    var taken := token.kind.Refresh? && token.user == principal;
    p := Stay(s);
    var s1, s2;
    p, s1 := ThenIf(s, p, s, Revoke(token.jti), taken);
    p, s2 := ThenIf(s, p, s1, Ban(token.jti), taken && banWorks);
    p, t := ThenIf(s, p, s2, Ban(accessJti), taken && accessBanWorks);
  }

  lemma LogoutAllIsRun(s: State, principal: nat, accessJti: nat, banWorks: bool) returns (p: Path, t: State)
    ensures Leads(s, p, t) && t.handlers == s.handlers && t.tokens == s.tokens
    ensures ServiceOf(t) == LogoutAllCall(ServiceOf(s), principal, accessJti, banWorks).0
  {
    var known := principal in s.versions;
    p := Stay(s);
    p := Then(s, p, s, RevokeUser(principal));
    var s1 := Step(s, RevokeUser(principal));
    var s2;
    p, s2 := ThenIf(s, p, s1, Bump(principal), known);
    p, t := ThenIf(s, p, s2, Ban(accessJti), known && banWorks);
  }

  /** Reuse over runs: once a refresh token was rotated in a run, presenting it in any later state signs nothing, and it
      is found out exactly when no ban and no newer version answers first and the store can be asked. */
  lemma ReuseOverRuns(states: seq<State>, labels: seq<Label>, i: nat, tk: Token, fresh': nat, access: nat, works: Works)
    requires IsRun(states, labels) && states[0] == INIT && i < |labels| && Spends(states[i], labels[i], tk.jti)
    requires tk.kind.Refresh? && tk in states[|labels|].tokens
    ensures var s := states[|labels|];
      var outcome := RefreshCall(ServiceOf(s), tk, fresh', access, works).1;
      !outcome.Pair? && (outcome.ReuseDetected? <==> Presentable(s, tk) && !works.rotation.RolledBack?)
  {
    RevokedStays(states[i + 1..], labels[i + 1..], tk.jti);
    assert states[i + 1..][|labels| - i - 1] == states[|labels|];
  }
}
