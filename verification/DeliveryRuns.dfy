/** Runs of the delivery queue: several workers, crashes, expired leases, lost updates. */
module DeliveryRuns {
  import opened Options
  import opened DeliveryQueue

  /** A claim in a worker's hands; the row's attempt counter makes it unique. */
  datatype Token = Token(id: nat, attempt: int, until: int)

  datatype State = State(
    now: int,
    rows: map<nat, Delivery>,
    open: set<Token>,              // claims a worker may still finish
    unlogged: set<Token>,          // finished, attempt not logged yet
    log: seq<Attempt>,
    expired: map<nat, nat>,        // history: claims of the row that ran out and were taken over
    scheduled: map<nat, int>       // history: backoff scheduled for the row, in seconds
  )

  const INIT := State(0, map[], {}, {}, [], map[], map[])

  datatype Label =
    | Create(id: nat, user: nat, inApp: bool, skipped: bool, maxAttempts: int)
    | Tick(to: int)
    | Claim(ids: set<nat>)
    | Finish(token: Token, sent: SendResult, sentAt: int)   // landing now, the send having ended at `sentAt`
    | FinishLost(token: Token)                       // the update failed; the attempt is logged all the same
    | Log(token: Token, status: Status)
    | Stop(token: Token)
    | MarkRead(id: nat, user: nat)

  predicate Enabled(s: State, l: Label) {
    match l
    case Create(id, _, _, _, _) => id !in s.rows
    case Tick(to) => s.now <= to
    case Claim(ids) => ids <= s.rows.Keys && forall id :: id in ids ==> Due(s.rows[id], s.now)
    case Finish(token, sent, sentAt) => token in s.open && token.id in s.rows && sentAt <= s.now
    case FinishLost(token) => token in s.open
    case Log(token, status) => token in s.unlogged
    case Stop(token) => token in s.open || token in s.unlogged
    case MarkRead(id, user) => id in s.rows && Readable(s.rows[id], user)
  }

  function Expired(s: State, id: nat): nat {
    if id in s.expired then s.expired[id] else 0
  }

  function Scheduled(s: State, id: nat): int {
    if id in s.scheduled then s.scheduled[id] else 0
  }

  function Taken(s: State, ids: set<nat>): set<Token>
    requires ids <= s.rows.Keys
  {
    set id | id in ids :: Token(id, s.rows[id].attempts + 1, s.now + LEASE)
  }

  function VerdictOf(s: State, token: Token, sent: SendResult): (Status, int)
    requires token.id in s.rows
  {
    Verdict(token.attempt, s.rows[token.id].maxAttempts, sent)
  }

  function NextRows(s: State, l: Label): map<nat, Delivery>
    requires Enabled(s, l)
  {
    match l
    case Create(id, user, inApp, skipped, max) => s.rows[id := NewDelivery(user, inApp, skipped, max, s.now)]
    case Claim(ids) => ClaimedRows(s.rows, ids, s.now)
    case Finish(token, sent, sentAt) =>
      var (status, delay) := VerdictOf(s, token, sent);
      s.rows[token.id := Finished(s.rows[token.id], status, sentAt + delay)]
    case MarkRead(id, _) => s.rows[id := Read(s.rows[id], s.now)]
    case _ => s.rows
  }

  function NextOpen(s: State, l: Label): set<Token>
    requires Enabled(s, l)
  {
    match l
    case Claim(ids) => s.open + Taken(s, ids)
    case Finish(token, _, _) => s.open - {token}
    case FinishLost(token) => s.open - {token}
    case Stop(token) => s.open - {token}
    case _ => s.open
  }

  function NextUnlogged(s: State, l: Label): set<Token> {
    match l
    case Finish(token, _, _) => s.unlogged + {token}
    case FinishLost(token) => s.unlogged + {token}
    case Log(token, _) => s.unlogged - {token}
    case Stop(token) => s.unlogged - {token}
    case _ => s.unlogged
  }

  function NextLog(s: State, l: Label): seq<Attempt> {
    match l
    case Create(id, _, _, skipped, _) => if skipped then s.log + [Attempt(id, 0, Skipped)] else s.log
    case Log(token, status) => s.log + [Attempt(token.id, token.attempt, status)]
    case _ => s.log
  }

  function NextExpired(s: State, l: Label): map<nat, nat> {
    match l
    case Claim(ids) =>
      map id | id in s.rows :: if id in ids && s.rows[id].status.Sending? then Expired(s, id) + 1 else Expired(s, id)
    case _ => s.expired
  }

  function NextScheduled(s: State, l: Label): map<nat, int>
    requires Enabled(s, l)
  {
    if l.Finish? && VerdictOf(s, l.token, l.sent).0.Pending? then
      s.scheduled[l.token.id := Scheduled(s, l.token.id) + VerdictOf(s, l.token, l.sent).1]
    else s.scheduled
  }

  function Step(s: State, l: Label): State
    requires Enabled(s, l)
  {
    State(if l.Tick? then l.to else s.now, NextRows(s, l), NextOpen(s, l), NextUnlogged(s, l),
      NextLog(s, l), NextExpired(s, l), NextScheduled(s, l))
  }

  /** A new row, by columns: waiting and due at once unless it is skipped, which is logged, with the attempts asked for
      or else five. */
  lemma CreateAnswers(s: State, id: nat, user: nat, inApp: bool, skipped: bool, maxAttempts: int)
    requires id !in s.rows
    ensures var t := Step(s, Create(id, user, inApp, skipped, maxAttempts));
      && t.rows == s.rows[id := Delivery(user, inApp, if skipped then Skipped else Pending, 0,
           if maxAttempts < 1 then 5 else maxAttempts, s.now, None, None, 1)]
      && t.log == s.log + (if skipped then [Attempt(id, 0, Skipped)] else [])
  {
    assert s.log + [] == s.log;
  }

  /** The lease condition: a worker's update arrives before its claim runs out. */
  predicate InLease(s: State, l: Label) {
    l.Finish? ==> s.now <= l.token.until
  }

  ghost predicate IsRun(states: seq<State>, labels: seq<Label>) {
    && |states| == |labels| + 1
    && forall i :: 0 <= i < |labels| ==> Enabled(states[i], labels[i]) && states[i + 1] == Step(states[i], labels[i])
  }

  ghost predicate AllInLease(states: seq<State>, labels: seq<Label>)
    requires |states| == |labels| + 1
  {
    forall i :: 0 <= i < |labels| ==> InLease(states[i], labels[i])
  }

  // Without the lease condition: attempts are logged once

  ghost predicate TokenOk(s: State, tk: Token) {
    tk.id in s.rows && 1 <= tk.attempt <= s.rows[tk.id].attempts
  }

  ghost predicate Logged(s: State, id: nat, number: int) {
    exists i :: 0 <= i < |s.log| && s.log[i].id == id && s.log[i].number == number
  }

  ghost predicate LoggedOnce(log: seq<Attempt>) {
    forall i, j :: 0 <= i < j < |log| ==> log[i].id != log[j].id || log[i].number != log[j].number
  }

  ghost predicate LogInv(s: State) {
    && (forall tk :: tk in s.open + s.unlogged ==> TokenOk(s, tk))
    && (forall a, b ::
         a in s.open + s.unlogged && b in s.open + s.unlogged && a.id == b.id && a.attempt == b.attempt ==> a == b)
    && s.open !! s.unlogged
    && (forall tk :: tk in s.open + s.unlogged ==> !Logged(s, tk.id, tk.attempt))
    && (forall i :: 0 <= i < |s.log| ==> s.log[i].id in s.rows && s.log[i].number <= s.rows[s.log[i].id].attempts)
    && (forall id :: id in s.rows ==> 0 <= s.rows[id].attempts)
    && LoggedOnce(s.log)
  }

  lemma AppendLog(s: State, t: State, a: Attempt)
    requires t.log == s.log + [a]
    ensures forall id, n :: Logged(t, id, n) <==> Logged(s, id, n) || (a.id == id && a.number == n)
  {
    forall id, n ensures Logged(t, id, n) <==> Logged(s, id, n) || (a.id == id && a.number == n) {
      if Logged(s, id, n) {
        var i :| 0 <= i < |s.log| && s.log[i].id == id && s.log[i].number == n;
        assert t.log[i] == s.log[i];
      }
      assert t.log[|s.log|] == a;
    }
  }

  lemma LogStepKeepsInv(s: State, l: Label)
    requires LogInv(s) && Enabled(s, l) && l.Log?
    ensures LogInv(Step(s, l))
  {
    var t := Step(s, l);
    var a := Attempt(l.token.id, l.token.attempt, l.status);
    AppendLog(s, t, a);
    assert !Logged(s, a.id, a.number);
    assert TokenOk(s, l.token);
  }

  lemma CreateKeepsLogInv(s: State, l: Label)
    requires LogInv(s) && Enabled(s, l) && l.Create?
    ensures LogInv(Step(s, l))
  {
    var t := Step(s, l);
    if l.skipped { AppendLog(s, t, Attempt(l.id, 0, Skipped)); }
    assert forall tk :: tk in s.open + s.unlogged ==> TokenOk(s, tk);
  }

  lemma ClaimKeepsLogInv(s: State, l: Label)
    requires LogInv(s) && Enabled(s, l) && l.Claim?
    ensures LogInv(Step(s, l))
  {
    var t := Step(s, l);
    forall tk | tk in t.open + t.unlogged
      ensures TokenOk(t, tk) && !Logged(t, tk.id, tk.attempt)
    {
      if tk in s.open + s.unlogged { assert TokenOk(s, tk) && !Logged(s, tk.id, tk.attempt); }
    }
    forall a, b | a in t.open + t.unlogged && b in t.open + t.unlogged && a.id == b.id && a.attempt == b.attempt
      ensures a == b
    {
      if a in s.open + s.unlogged { assert TokenOk(s, a); }
      if b in s.open + s.unlogged { assert TokenOk(s, b); }
    }
    forall tk | tk in Taken(s, l.ids) ensures !TokenOk(s, tk) {
    }
  }

  lemma StepKeepsLogInv(s: State, l: Label)
    requires LogInv(s) && Enabled(s, l)
    ensures LogInv(Step(s, l))
  {
    match l
    case Create(_, _, _, _, _) => CreateKeepsLogInv(s, l);
    case Claim(_) => ClaimKeepsLogInv(s, l);
    case Log(_, _) => LogStepKeepsInv(s, l);
    case _ =>
      var t := Step(s, l);
      assert t.open + t.unlogged <= s.open + s.unlogged && t.log == s.log;
      assert forall tk :: tk in t.open + t.unlogged ==> TokenOk(s, tk);
  }

  lemma {:induction false} RunKeepsLogInv(states: seq<State>, labels: seq<Label>)
    requires IsRun(states, labels) && states[0] == INIT
    ensures LogInv(states[|labels|])
  {
    if labels != [] {
      var n := |labels| - 1;
      RunKeepsLogInv(states[..n + 1], labels[..n]);
      StepKeepsLogInv(states[n], labels[n]);
    }
  }

  /** Each attempt number of a delivery is logged at most once, even when leases are overrun. */
  lemma AttemptsLoggedOnce(states: seq<State>, labels: seq<Label>)
    requires IsRun(states, labels) && states[0] == INIT
    ensures LoggedOnce(states[|labels|].log)
  {
    RunKeepsLogInv(states, labels);
  }

  // Under the lease condition

  /** Total of the delays scheduled after attempts 1..n. */
  function SumBackoff(n: int): int {
    if n <= 0 then 0 else SumBackoff(n - 1) + Backoff(n)
  }

  function Least(a: int, b: int): int {
    if a < b then a else b
  }

  lemma {:induction false} SumBackoffMonotone(m: int, n: int)
    requires m <= n
    ensures SumBackoff(m) <= SumBackoff(n)
    decreases n - m
  {
    if m < n { SumBackoffMonotone(m, n - 1); }
  }

  ghost predicate Active(s: State, tk: Token) {
    tk in s.open && s.now <= tk.until
  }

  ghost predicate HeldBy(s: State, tk: Token) {
    && tk.id in s.rows
    && s.rows[tk.id].status.Sending?
    && s.rows[tk.id].attempts == tk.attempt
    && s.rows[tk.id].lockedUntil == Some(tk.until)
  }

  /** Bound on the backoff scheduled so far. */
  function BackoffSoFar(d: Delivery): int {
    SumBackoff(if d.status.Pending? then d.attempts
      else if d.status.Sending? then Least(d.attempts, d.maxAttempts) - 1
      else d.maxAttempts - 1)
  }

  ghost predicate RowOk(d: Delivery, expired: nat, scheduled: int) {
    && d.maxAttempts >= 1
    && (d.status.Sending? <==> d.lockedUntil.Some?)
    && (d.status.Pending? ==> d.attempts < d.maxAttempts)
    && expired + (if d.status.Sending? then 1 else 0) <= d.attempts <= d.maxAttempts + expired
    && scheduled <= BackoffSoFar(d)
  }

  ghost predicate RowInv(s: State, id: nat)
    requires id in s.rows
  {
    RowOk(s.rows[id], Expired(s, id), Scheduled(s, id))
  }

  lemma ClaimedOk(d: Delivery, expired: nat, scheduled: int, now: int)
    requires RowOk(d, expired, scheduled) && Due(d, now)
    ensures RowOk(Claimed(d, now), if d.status.Sending? then expired + 1 else expired, scheduled)
  {
    SumBackoffMonotone(if d.status.Pending? then d.attempts else Least(d.attempts, d.maxAttempts) - 1,
      Least(d.attempts + 1, d.maxAttempts) - 1);
  }

  lemma FinishedOk(d: Delivery, expired: nat, scheduled: int, sent: SendResult, sentAt: int)
    requires RowOk(d, expired, scheduled) && d.status.Sending?
    ensures var (status, delay) := Verdict(d.attempts, d.maxAttempts, sent);
      RowOk(Finished(d, status, sentAt + delay), expired, if status.Pending? then scheduled + delay else scheduled)
  {
    SumBackoffMonotone(Least(d.attempts, d.maxAttempts) - 1, d.maxAttempts - 1);
  }

  ghost predicate Inv(s: State) {
    && LogInv(s)
    && (forall tk :: Active(s, tk) ==> HeldBy(s, tk))
    && (forall id :: id in s.rows ==> RowInv(s, id))
    && (forall id :: id in s.expired || id in s.scheduled ==> id in s.rows)
  }

  lemma SameHolder(s: State, a: Token, b: Token)
    requires Inv(s) && Active(s, a) && Active(s, b) && a.id == b.id
    ensures a == b
  {
    assert HeldBy(s, a) && HeldBy(s, b);
    assert a in s.open + s.unlogged && b in s.open + s.unlogged;
  }

  lemma FinishHitsSending(s: State, l: Label)
    requires Inv(s) && Enabled(s, l) && InLease(s, l) && l.Finish?
    ensures HeldBy(s, l.token)
  {
    assert Active(s, l.token);
  }

  lemma StepKeepsHolders(s: State, l: Label)
    requires Inv(s) && Enabled(s, l) && InLease(s, l)
    ensures forall tk :: Active(Step(s, l), tk) ==> HeldBy(Step(s, l), tk)
  {
    var t := Step(s, l);
    forall tk | Active(t, tk) ensures HeldBy(t, tk) {
      if tk in s.open {
        assert Active(s, tk);
        assert HeldBy(s, tk);
        if l.Finish? && l.token.id == tk.id { SameHolder(s, tk, l.token); }
      }
    }
  }

  lemma OldRowKept(s: State, l: Label, id: nat)
    requires Inv(s) && Enabled(s, l) && InLease(s, l) && id in s.rows
    ensures RowInv(Step(s, l), id)
  {
    assert RowInv(s, id);
    if l.Claim? && id in l.ids {
      ClaimedOk(s.rows[id], Expired(s, id), Scheduled(s, id), s.now);
    } else if l.Finish? && l.token.id == id {
      FinishHitsSending(s, l);
      FinishedOk(s.rows[id], Expired(s, id), Scheduled(s, id), l.sent, l.sentAt);
    }
  }

  lemma NewRowOk(s: State, l: Label)
    requires Inv(s) && Enabled(s, l) && l.Create?
    ensures RowInv(Step(s, l), l.id)
  {
    assert l.id !in s.expired && l.id !in s.scheduled;
    SumBackoffMonotone(0, Step(s, l).rows[l.id].maxAttempts - 1);
  }

  lemma StepKeepsRows(s: State, l: Label)
    requires Inv(s) && Enabled(s, l) && InLease(s, l)
    ensures forall id :: id in Step(s, l).rows ==> RowInv(Step(s, l), id)
  {
    forall id | id in Step(s, l).rows ensures RowInv(Step(s, l), id) {
      if id in s.rows { OldRowKept(s, l, id); } else { NewRowOk(s, l); }
    }
  }

  lemma StepKeepsInv(s: State, l: Label)
    requires Inv(s) && Enabled(s, l) && InLease(s, l)
    ensures Inv(Step(s, l))
  {
    StepKeepsLogInv(s, l);
    StepKeepsHolders(s, l);
    StepKeepsRows(s, l);
  }

  lemma {:induction false} RunKeepsInv(states: seq<State>, labels: seq<Label>)
    requires IsRun(states, labels) && AllInLease(states, labels) && (states[0] == INIT || Inv(states[0]))
    ensures Inv(states[|labels|])
  {
    if labels != [] {
      var n := |labels| - 1;
      RunKeepsInv(states[..n + 1], labels[..n]);
      StepKeepsInv(states[n], labels[n]);
    }
  }

  /** At most one worker holds a row, and a waiting row always has attempts left. */
  lemma OneHolder(states: seq<State>, labels: seq<Label>, a: Token, b: Token)
    requires IsRun(states, labels) && AllInLease(states, labels) && states[0] == INIT
    ensures var s := states[|labels|];
      && (Active(s, a) && Active(s, b) && a.id == b.id ==> a == b)
      && (forall id :: id in s.rows && s.rows[id].status.Pending? ==> s.rows[id].attempts < s.rows[id].maxAttempts)
  {
    RunKeepsInv(states, labels);
    var s := states[|labels|];
    if Active(s, a) && Active(s, b) && a.id == b.id { SameHolder(s, a, b); }
    forall id | id in s.rows && s.rows[id].status.Pending? ensures s.rows[id].attempts < s.rows[id].maxAttempts {
      assert RowInv(s, id);
    }
  }

  /** sent, failed and skipped are absorbing. */
  lemma {:induction false} TerminalIsFinal(states: seq<State>, labels: seq<Label>, from: nat, id: nat)
    requires IsRun(states, labels) && AllInLease(states, labels) && states[0] == INIT && from <= |labels|
    requires id in states[from].rows && Terminal(states[from].rows[id].status)
    ensures id in states[|labels|].rows && states[|labels|].rows[id].status == states[from].rows[id].status
  {
    if from < |labels| {
      var n := |labels| - 1;
      TerminalIsFinal(states[..n + 1], labels[..n], from, id);
      RunKeepsInv(states[..n + 1], labels[..n]);
      if labels[n].Finish? { FinishHitsSending(states[n], labels[n]); }
    }
  }

  /** A row is claimed at most max_attempts times plus once per claim that ran out, and all the backoff ever
      scheduled for it stays within the sum over the attempts below the maximum. */
  lemma ClaimsAndBackoffBounded(states: seq<State>, labels: seq<Label>, id: nat)
    requires IsRun(states, labels) && AllInLease(states, labels) && states[0] == INIT
    requires id in states[|labels|].rows
    ensures var s := states[|labels|];
      && s.rows[id].attempts <= s.rows[id].maxAttempts + Expired(s, id)
      && Scheduled(s, id) <= SumBackoff(s.rows[id].maxAttempts - 1)
  {
    RunKeepsInv(states, labels);
    var s := states[|labels|];
    assert RowInv(s, id);
    var d := s.rows[id];
    SumBackoffMonotone(if d.status.Pending? then d.attempts else Least(d.attempts, d.maxAttempts) - 1,
      d.maxAttempts - 1);
  }

  // Termination

  /** Twice the attempts left to claims that do not run out, plus the claims that may still run out, plus one while a
      claim is out; nothing once the row is done. */
  function Rank(d: Delivery, expired: nat, crashes: nat): int {
    if Terminal(d.status) then 0
    else 2 * (d.maxAttempts - (d.attempts - expired)) + (crashes - expired) + (if d.status.Sending? then 1 else 0)
  }

  function RankIn(s: State, id: nat, crashes: nat): int
    requires id in s.rows
  {
    Rank(s.rows[id], Expired(s, id), crashes)
  }

  /** The rank is used up exactly when the row is done. */
  lemma RankIsZeroIff(s: State, id: nat, crashes: nat)
    requires Inv(s) && id in s.rows && Expired(s, id) <= crashes
    ensures RankIn(s, id, crashes) >= 0
    ensures RankIn(s, id, crashes) == 0 <==> Terminal(s.rows[id].status)
    ensures RankIn(s, id, crashes) <= 2 * s.rows[id].maxAttempts + crashes
  {
    assert RowInv(s, id);
  }

  predicate Works(l: Label, id: nat) {
    (l.Claim? && id in l.ids) || (l.Finish? && l.token.id == id)
  }

  lemma RankFalls(s: State, l: Label, id: nat, crashes: nat)
    requires Inv(s) && Enabled(s, l) && InLease(s, l) && id in s.rows
    requires Expired(Step(s, l), id) <= crashes
    ensures id in Step(s, l).rows && Expired(s, id) <= Expired(Step(s, l), id)
    ensures RankIn(Step(s, l), id, crashes) + (if Works(l, id) then 1 else 0) <= RankIn(s, id, crashes)
  {
    assert RowInv(s, id);
    if l.Finish? { FinishHitsSending(s, l); }
  }

  function WorkOn(labels: seq<Label>, id: nat): nat {
    if labels == [] then 0 else WorkOn(labels[..|labels| - 1], id) + (if Works(labels[|labels| - 1], id) then 1 else 0)
  }

  /** However the run goes on, the claims and updates of a row use up its rank. */
  lemma {:induction false} WorkIsBounded(states: seq<State>, labels: seq<Label>, id: nat, crashes: nat)
    requires IsRun(states, labels) && AllInLease(states, labels) && Inv(states[0]) && id in states[0].rows
    requires id in states[|labels|].rows && Expired(states[|labels|], id) <= crashes
    ensures RankIn(states[|labels|], id, crashes) + WorkOn(labels, id) <= RankIn(states[0], id, crashes)
    ensures Expired(states[0], id) <= crashes
  {
    if labels != [] {
      var n := |labels| - 1;
      FrontRun(states, labels, id);
      RankFalls(states[n], labels[n], id, crashes);
      WorkIsBounded(states[..n + 1], labels[..n], id, crashes);
    }
  }

  /** In numbers: from its creation on, or from any later point of a run, a row is claimed and updated at most twice per
      allowed attempt and once more per claim that ran out. */
  lemma WorkInNumbers(states: seq<State>, labels: seq<Label>, from: nat, id: nat, crashes: nat)
    requires IsRun(states, labels) && AllInLease(states, labels) && states[0] == INIT && from <= |labels|
    requires id in states[from].rows && id in states[|labels|].rows && Expired(states[|labels|], id) <= crashes
    ensures WorkOn(labels[from..], id) <= 2 * states[from].rows[id].maxAttempts + crashes
  {
    RunKeepsInv(states[..from + 1], labels[..from]);
    RunKeepsInv(states, labels);
    var rest, steps := states[from..], labels[from..];
    assert rest[|steps|] == states[|labels|];
    WorkIsBounded(rest, steps, id, crashes);
    RankIsZeroIff(states[from], id, crashes);
    RankIsZeroIff(states[|labels|], id, crashes);
  }

  lemma FrontRun(states: seq<State>, labels: seq<Label>, id: nat)
    requires IsRun(states, labels) && AllInLease(states, labels) && Inv(states[0])
    requires id in states[0].rows && labels != []
    ensures var n := |labels| - 1;
      && IsRun(states[..n + 1], labels[..n]) && AllInLease(states[..n + 1], labels[..n])
      && id in states[n].rows && Inv(states[n]) && InLease(states[n], labels[n])
  {
    var n := |labels| - 1;
    RowsStay(states[..n + 1], labels[..n], id);
    RunKeepsInv(states[..n + 1], labels[..n]);
  }

  lemma {:induction false} RowsStay(states: seq<State>, labels: seq<Label>, id: nat)
    requires IsRun(states, labels) && id in states[0].rows
    ensures id in states[|labels|].rows
  {
    if labels != [] {
      var n := |labels| - 1;
      RowsStay(states[..n + 1], labels[..n], id);
    }
  }

  /** A row whose rank has been worked off is at rest: sent, failed or skipped. */
  lemma WorkedOffIsTerminal(states: seq<State>, labels: seq<Label>, id: nat, crashes: nat)
    requires IsRun(states, labels) && AllInLease(states, labels) && Inv(states[0]) && id in states[0].rows
    requires id in states[|labels|].rows && Expired(states[|labels|], id) <= crashes
    requires WorkOn(labels, id) >= RankIn(states[0], id, crashes)
    ensures Terminal(states[|labels|].rows[id].status)
  {
    RunKeepsInv(states, labels);
    WorkIsBounded(states, labels, id, crashes);
    RankIsZeroIff(states[|labels|], id, crashes);
  }

  /** And a row that is not at rest can always be worked on: it is claimable at some later time. */
  lemma UnfinishedRowsComeDue(s: State, id: nat) returns (later: int)
    requires Inv(s) && id in s.rows && !Terminal(s.rows[id].status)
    ensures s.now <= later && Due(s.rows[id], later)
  {
    assert RowInv(s, id);
    var d := s.rows[id];
    var lock := if d.lockedUntil.Some? then d.lockedUntil.value + 1 else s.now;
    later := if s.now > lock then s.now else lock;
    later := if later > d.nextAttemptAt then later else d.nextAttemptAt;
  }

  // Batches that fit their lease, and batches that do not

  /** Every update lands within `batch` seconds of its claim. */
  predicate OnTime(s: State, l: Label, batch: nat) {
    l.Finish? ==> s.now <= l.token.until - LEASE + batch
  }

  ghost predicate Punctual(states: seq<State>, labels: seq<Label>, batch: nat)
    requires |states| == |labels| + 1
  {
    forall i :: 0 <= i < |labels| ==> OnTime(states[i], labels[i], batch)
  }

  lemma PunctualIsInLease(states: seq<State>, labels: seq<Label>, batch: nat)
    requires |states| == |labels| + 1 && Punctual(states, labels, batch) && batch <= LEASE
    ensures AllInLease(states, labels)
  {
    forall i | 0 <= i < |labels| ensures InLease(states[i], labels[i]) {
      assert OnTime(states[i], labels[i], batch);
    }
  }

  /** In this run a row that was sent is pending again. */
  ghost predicate Resends(states: seq<State>, labels: seq<Label>, batch: nat, from: nat, id: nat) {
    && IsRun(states, labels) && states[0] == INIT && Punctual(states, labels, batch) && from <= |labels|
    && id in states[from].rows && Terminal(states[from].rows[id].status)
    && !(id in states[|labels|].rows && states[|labels|].rows[id].status == states[from].rows[id].status)
  }

  function Claimed1(attempts: int, until: int): Delivery {
    Delivery(1, false, Sending, attempts, 5, 0, Some(until), None, 1)
  }

  lemma FirstClaim() returns (states: seq<State>, labels: seq<Label>)
    ensures IsRun(states, labels) && states[0] == INIT && |labels| == 2
    ensures forall i :: 0 <= i < |labels| ==> !labels[i].Finish?
    ensures var s := states[2];
      s.now == 0 && s.rows == map[1 := Claimed1(1, 60)] && Token(1, 1, 60) in s.open
  {
    var l1 := Create(1, 1, false, false, 5);
    var s1 := Step(INIT, l1);
    assert s1.rows == map[1 := Delivery(1, false, Pending, 0, 5, 0, None, None, 1)];
    var s2 := Step(s1, Claim({1}));
    assert Token(1, 1, 60) in Taken(s1, {1});
    states, labels := [INIT, s1, s2], [l1, Claim({1})];
  }

  lemma SecondClaim() returns (states: seq<State>, labels: seq<Label>)
    ensures IsRun(states, labels) && states[0] == INIT && |labels| == 4
    ensures forall i :: 0 <= i < |labels| ==> !labels[i].Finish?
    ensures var s := states[4];
      && s.now == 61 && s.rows == map[1 := Claimed1(2, 121)]
      && Token(1, 1, 60) in s.open && Token(1, 2, 121) in s.open
  {
    var before, steps := FirstClaim();
    var s3 := Step(before[2], Tick(61));
    var s4 := Step(s3, Claim({1}));
    assert Token(1, 2, 121) in Taken(s3, {1});
    states, labels := before + [s3, s4], steps + [Tick(61), Claim({1})];
  }

  /** An update that lands 61 seconds after its claim: the lease is over, another worker has sent the message again, and
      the late update takes the row out of `sent`. */
  lemma OverrunLeaseResends(batch: nat) returns (states: seq<State>, labels: seq<Label>)
    requires batch > LEASE
    ensures Resends(states, labels, batch, 5, 1)
  {
    var before, steps := SecondClaim();
    var s4 := before[4];
    var l5, l6 := Finish(Token(1, 2, 121), Delivered, 61), Finish(Token(1, 1, 60), Unavailable, 61);
    var s5 := Step(s4, l5);
    var s6 := Step(s5, l6);
    states, labels := before + [s5, s6], steps + [l5, l6];
    assert states[5] == s5 && states[6] == s6;
  }

  /** No run of workers this fast takes a row out of sent, failed or skipped. */
  ghost predicate Absorbing(batch: nat) {
    forall states, labels, from: nat, id: nat :: !Resends(states, labels, batch, from, id)
  }

  /** The exact condition: sent, failed and skipped are absorbing in every run whose workers need at most `batch`
      seconds from a claim to its last update, if and only if that is no longer than the lease. */
  lemma AbsorbingIff(batch: nat)
    ensures Absorbing(batch) <==> batch <= LEASE
  {
    if batch <= LEASE {
      forall states, labels, from: nat, id: nat ensures !Resends(states, labels, batch, from, id) {
        if Resends(states, labels, batch, from, id) {
          PunctualIsInLease(states, labels, batch);
          TerminalIsFinal(states, labels, from, id);
        }
      }
    } else {
      var states, labels := OverrunLeaseResends(batch);
    }
  }
}
