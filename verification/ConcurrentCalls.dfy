// The server alone with any number of refresh calls under way: what LogoutAll and a delete
// still achieve when the steps of the calls interleave with the other operations.
module ConcurrentCalls {
  import opened Common
  import opened AuthTables
  import opened AuthServer
  import T = TokenRotation

  // issuedTo lists the users tokens were issued to, in order.
  datatype System = System(server: Server, calls: map<nat, T.Call>, issuedTo: seq<UserId>)

  datatype Event =
    | Arrive(call: nat, token: Token)
    | AtLookup(call: nat, now: int, readOk: bool)
    | AtRevoke(call: nat, ok: bool)
    | AtFind(call: nat, readOk: bool)
    | AtIssue(call: nat, env: Env)
    | Operation(op: Op)

  ghost predicate Enabled(s: System, e: Event) {
    match e
    case Arrive(k, _) => k !in s.calls
    case AtLookup(k, _, _) => k in s.calls && s.calls[k].phase.Arrived?
    case AtRevoke(k, _) => k in s.calls && s.calls[k].phase.Looked?
    case AtFind(k, _) => k in s.calls && s.calls[k].phase.Revoked?
    case AtIssue(k, _) => k in s.calls && s.calls[k].phase.Found?
    case Operation(op) => Possible(s.server, op) && !op.Refresh?
  }

  // Whom an event issues a token to.
  ghost function Issues(s: System, e: Event): Option<UserId>
    requires Enabled(s, e)
  {
    match e
    case AtIssue(k, env) => if env.signOk then Some(s.calls[k].phase.user) else None
    case Operation(op) => if Exec(s.server, op).1.Issued? then Some(Exec(s.server, op).1.user) else None
    case _ => None
  }

  ghost function ServerAfter(s: System, e: Event): Server
    requires Enabled(s, e)
  {
    match e
    case AtRevoke(k, ok) => T.RevokeStep(s.server, s.calls[k], ok).0
    case AtIssue(k, env) => T.IssueStep(s.server, s.calls[k], env).0
    case Operation(op) => Exec(s.server, op).0
    case _ => s.server
  }

  ghost function CallsAfter(s: System, e: Event): map<nat, T.Call>
    requires Enabled(s, e)
  {
    match e
    case Arrive(k, t) => s.calls[k := T.Call(t, T.Arrived)]
    case AtLookup(k, now, readOk) => s.calls[k := T.LookupStep(s.server, s.calls[k], now, readOk)]
    case AtRevoke(k, ok) => s.calls[k := T.RevokeStep(s.server, s.calls[k], ok).1]
    case AtFind(k, readOk) => s.calls[k := T.FindStep(s.server, s.calls[k], readOk)]
    case AtIssue(k, env) => s.calls[k := T.IssueStep(s.server, s.calls[k], env).1]
    case Operation(_) => s.calls
  }

  ghost function Step(s: System, e: Event): System
    requires Enabled(s, e)
  {
    System(ServerAfter(s, e), CallsAfter(s, e), s.issuedTo + if Issues(s, e).Some? then [Issues(s, e).value] else [])
  }

  ghost predicate ValidRun(s: System, es: seq<Event>)
    decreases |es|
  {
    es == [] || (Enabled(s, es[0]) && ValidRun(Step(s, es[0]), es[1..]))
  }

  ghost function Run(s: System, es: seq<Event>): System
    requires ValidRun(s, es)
    decreases |es|
  {
    if es == [] then s else Run(Step(s, es[0]), es[1..])
  }

  lemma StepThenRun(s: System, e: Event, rest: seq<Event>)
    requires Enabled(s, e) && ValidRun(Step(s, e), rest)
    ensures ValidRun(s, [e] + rest) && Run(s, [e] + rest) == Run(Step(s, e), rest)
  {
    assert ([e] + rest)[1..] == rest;
  }

  const Fine := Env(0, 0, true, true, true, true, true, true)

  // ---- A call by itself ------------------------------------------------------------------------

  // The event of a call's next step.
  function NextOf(s: System, k: nat, env: Env): Event
    requires k in s.calls && !s.calls[k].phase.Replied?
  {
    match s.calls[k].phase
    case Arrived => AtLookup(k, env.now, env.tokenReadOk)
    case Looked(_) => AtRevoke(k, env.revokeOk)
    case Revoked(_) => AtFind(k, env.userReadOk)
    case Found(_) => AtIssue(k, env)
  }

  ghost function Onward(s: System, k: nat, env: Env): (s': System)
    requires k in s.calls
    ensures k in s'.calls
  {
    if s.calls[k].phase.Replied? then s else Step(s, NextOf(s, k, env))
  }

  lemma OnwardAdvances(s: System, k: nat, env: Env)
    requires k in s.calls
    ensures
      var s', (server, call) := Onward(s, k, env), T.Advance(s.server, s.calls[k], env);
      && s'.server == server && s'.calls == s.calls[k := call]
      && s'.issuedTo == s.issuedTo + if s.calls[k].phase.Found? && env.signOk then [s.calls[k].phase.user] else []
  {
  }

  // With nothing in between, a call is the service's refresh operation, whatever fails: the
  // same server, the same reply, and a token issued to the same user.
  lemma CallAloneIsRefresh(s: System, k: nat, t: Token, env: Env)
    requires k !in s.calls
    ensures
      var end := Onward(Onward(Onward(Onward(Step(s, Arrive(k, t)), k, env), k, env), k, env), k, env);
      var (server, reply) := RefreshTokens(s.server, t, env);
      && end.server == server
      && end.calls == s.calls[k := T.Call(t, T.Replied(T.ReplyTo(reply)))]
      && end.issuedTo == s.issuedTo + if reply.Issued? then [reply.user] else []
  {
    var s0 := Step(s, Arrive(k, t));
    var s1 := Onward(s0, k, env);
    var s2 := Onward(s1, k, env);
    var s3 := Onward(s2, k, env);
    OnwardAdvances(s0, k, env);
    OnwardAdvances(s1, k, env);
    OnwardAdvances(s2, k, env);
    OnwardAdvances(s3, k, env);
    T.StepsComposeToRefresh(s.server, t, env);
  }

  // ---- Issuing to a deleted user ------------------------------------------------------------

  // A call that has read the user and not yet signed.
  predicate PastRead(s: System, u: UserId) {
    exists k :: k in s.calls && s.calls[k].phase == T.Found(u)
  }

  lemma StepIssuesNone(s: System, e: Event, u: UserId)
    requires SoftDeleted(s.server, u) && !PastRead(s, u) && Enabled(s, e)
    ensures SoftDeleted(Step(s, e).server, u) && !PastRead(Step(s, e), u) && Issues(s, e) != Some(u)
  {
    if e.Operation? {
      var h := History(s.server, map[], map[], []);
      AdvanceKeepsDeleted(h, e.op, u);
    }
  }

  lemma {:induction false} RunIssuesNone(s: System, es: seq<Event>, u: UserId)
    requires SoftDeleted(s.server, u) && !PastRead(s, u) && ValidRun(s, es)
    ensures Occurrences(Run(s, es).issuedTo, u) == Occurrences(s.issuedTo, u)
    decreases |es|
  {
    if es != [] {
      StepIssuesNone(s, es[0], u);
      var more := if Issues(s, es[0]).Some? then [Issues(s, es[0]).value] else [];
      OccurrencesConcat(s.issuedTo, more, u);
      RunIssuesNone(Step(s, es[0]), es[1..], u);
    }
  }

  // With calls under way, no run issues a deleted user another token exactly when no call for
  // the user is then past its user read and not yet signed.
  lemma {:induction false} DeleteIsFinalIff(s: System, u: UserId)
    requires SoftDeleted(s.server, u)
    ensures (forall es :: ValidRun(s, es) ==> Occurrences(Run(s, es).issuedTo, u) == Occurrences(s.issuedTo, u)) <==>
            !PastRead(s, u)
  {
    if PastRead(s, u) {
      var k :| k in s.calls && s.calls[k].phase == T.Found(u);
      var e := AtIssue(k, Fine);
      assert ValidRun(Step(s, e), []);
      StepThenRun(s, e, []);
      OccurrencesConcat(s.issuedTo, [u], u);
      assert Run(s, [e] + []).issuedTo == s.issuedTo + [u];
      assert [u][1..] == [] && Occurrences([u], u) == 1;
    } else {
      forall es | ValidRun(s, es) ensures Occurrences(Run(s, es).issuedTo, u) == Occurrences(s.issuedTo, u) {
        RunIssuesNone(s, es, u);
      }
    }
  }

  // ---- Live tokens after LogoutAll ------------------------------------------------------------

  predicate HasLive(s: Server, u: UserId) {
    exists t :: t in s.db.tokens && s.db.tokens[t].user == u && !s.db.tokens[t].revoked
  }

  // The user is found by reads, or can be again after an update.
  predicate Findable(s: Server, u: UserId) {
    u in s.db.users && s.db.users[u].isActive != Some(false)
  }

  // A call past its lookup and not yet signed that can still find its user.
  predicate CanIssue(s: Server, c: T.Call, u: UserId) {
    match c.phase
    case Looked(v) => v == u && Findable(s, u)
    case Revoked(v) => v == u && Findable(s, u)
    case Found(v) => v == u
    case _ => false
  }

  predicate SomeCanIssue(s: System, u: UserId) {
    exists k :: k in s.calls && CanIssue(s.server, s.calls[k], u)
  }

  // No event of the run other than a refresh call issues the user a token.
  ghost predicate NoLogin(s: System, es: seq<Event>, u: UserId)
    requires ValidRun(s, es)
    decreases |es|
  {
    es == [] || (!(es[0].Operation? && Issues(s, es[0]) == Some(u)) && NoLogin(Step(s, es[0]), es[1..], u))
  }

  ghost predicate LoggedOut(s: System, u: UserId) {
    u in s.server.db.users && !HasLive(s.server, u) && !SomeCanIssue(s, u)
  }

  lemma OperationKeepsLoggedOut(s: Server, op: Op, u: UserId)
    requires Possible(s, op) && u in s.db.users && !HasLive(s, u)
    requires Exec(s, op).1.Issued? ==> Exec(s, op).1.user != u
    ensures u in Exec(s, op).0.db.users && !HasLive(Exec(s, op).0, u)
    ensures Findable(Exec(s, op).0, u) ==> Findable(s, u)
  {
    var mid := ExecOnTokens(s, op);
    forall t | t in mid.tokens && mid.tokens[t].user == u ensures mid.tokens[t].revoked {
      assert s.db.tokens[t].user == u;
    }
  }

  lemma CallKeepsLoggedOut(s: System, e: Event, u: UserId)
    requires LoggedOut(s, u) && Enabled(s, e) && !e.Operation?
    ensures LoggedOut(Step(s, e), u)
  {
    var s' := Step(s, e);
    forall k | k in s'.calls ensures !CanIssue(s'.server, s'.calls[k], u) {
      if k in s.calls {
        assert !CanIssue(s.server, s.calls[k], u);
      }
    }
    forall t | t in s'.server.db.tokens && s'.server.db.tokens[t].user == u ensures s'.server.db.tokens[t].revoked {
      if e.AtIssue? {
        assert !CanIssue(s.server, s.calls[e.call], u);
      }
    }
  }

  lemma StepKeepsLoggedOut(s: System, e: Event, u: UserId)
    requires LoggedOut(s, u) && Enabled(s, e) && !(e.Operation? && Issues(s, e) == Some(u))
    ensures LoggedOut(Step(s, e), u)
  {
    if e.Operation? {
      OperationKeepsLoggedOut(s.server, e.op, u);
      forall k | k in s.calls ensures !CanIssue(Step(s, e).server, s.calls[k], u) {
        assert !CanIssue(s.server, s.calls[k], u);
      }
    } else {
      CallKeepsLoggedOut(s, e, u);
    }
  }

  lemma {:induction false} RunKeepsLoggedOut(s: System, es: seq<Event>, u: UserId)
    requires LoggedOut(s, u) && ValidRun(s, es) && NoLogin(s, es, u)
    ensures LoggedOut(Run(s, es), u)
    decreases |es|
  {
    if es != [] {
      StepKeepsLoggedOut(s, es[0], u);
      RunKeepsLoggedOut(Step(s, es[0]), es[1..], u);
    }
  }

  lemma OneMoreStep(s: System, e: Event, rest: seq<Event>, u: UserId)
    requires Enabled(s, e) && ValidRun(Step(s, e), rest) && NoLogin(Step(s, e), rest, u) && HasLive(Run(Step(s, e), rest).server, u)
    requires !(e.Operation? && Issues(s, e) == Some(u))
    ensures ValidRun(s, [e] + rest) && NoLogin(s, [e] + rest, u) && HasLive(Run(s, [e] + rest).server, u)
  {
    assert ([e] + rest)[1..] == rest;
  }

  lemma FinishFound(s: System, k: nat, u: UserId) returns (es: seq<Event>)
    requires k in s.calls && s.calls[k].phase == T.Found(u)
    ensures ValidRun(s, es) && NoLogin(s, es, u) && HasLive(Run(s, es).server, u)
  {
    var e := AtIssue(k, Fine);
    var t := Minted(s.server.minted);
    assert Step(s, e).server.db.tokens[t] == TokenRow(u, 0, false);
    assert ValidRun(Step(s, e), []) && NoLogin(Step(s, e), [], u);
    OneMoreStep(s, e, [], u);
    es := [e] + [];
  }

  lemma FinishRevoked(s: System, k: nat, u: UserId) returns (es: seq<Event>)
    requires k in s.calls && s.calls[k].phase == T.Revoked(u) && Findable(s.server, u)
    ensures ValidRun(s, es) && NoLogin(s, es, u) && HasLive(Run(s, es).server, u)
  {
    var update := Operation(UpdateUser(u, s.server.db.users[u].company, Some(true), true));
    var s1 := Step(s, update);
    assert GetByID(s1.server.db, u).Some?;
    var find := AtFind(k, true);
    var rest := FinishFound(Step(s1, find), k, u);
    OneMoreStep(s1, find, rest, u);
    OneMoreStep(s, update, [find] + rest, u);
    es := [update] + ([find] + rest);
  }

  lemma FinishLooked(s: System, k: nat, u: UserId) returns (es: seq<Event>)
    requires k in s.calls && s.calls[k].phase == T.Looked(u) && Findable(s.server, u)
    ensures ValidRun(s, es) && NoLogin(s, es, u) && HasLive(Run(s, es).server, u)
  {
    var revoke := AtRevoke(k, true);
    var rest := FinishRevoked(Step(s, revoke), k, u);
    OneMoreStep(s, revoke, rest, u);
    es := [revoke] + rest;
  }

  lemma FinishAny(s: System, u: UserId) returns (es: seq<Event>)
    requires SomeCanIssue(s, u)
    ensures ValidRun(s, es) && NoLogin(s, es, u) && HasLive(Run(s, es).server, u)
  {
    var k :| k in s.calls && CanIssue(s.server, s.calls[k], u);
    match s.calls[k].phase {
      case Looked(_) => es := FinishLooked(s, k, u);
      case Revoked(_) => es := FinishRevoked(s, k, u);
      case Found(_) => es := FinishFound(s, k, u);
    }
  }

  // No run without a new login leaves the user a live token.
  ghost predicate StaysOut(s: System, u: UserId) {
    forall es :: ValidRun(s, es) && NoLogin(s, es, u) ==> !HasLive(Run(s, es).server, u)
  }

  lemma {:induction false} StaysOutIff(s: System, u: UserId)
    requires u in s.server.db.users && !HasLive(s.server, u)
    ensures StaysOut(s, u) <==> !SomeCanIssue(s, u)
  {
    if SomeCanIssue(s, u) {
      var es := FinishAny(s, u);
      assert ValidRun(s, es) && NoLogin(s, es, u);
    } else {
      forall es | ValidRun(s, es) && NoLogin(s, es, u) ensures !HasLive(Run(s, es).server, u) {
        RunKeepsLoggedOut(s, es, u);
      }
    }
  }

  // With calls under way: after a LogoutAll, no run without a new login leaves the user a live
  // token exactly when no call for the user is then past its lookup, not yet signed and still
  // able to find the user.
  lemma {:induction false} LogoutAllIsFinalIff(before: System, u: UserId)
    requires u in before.server.db.users
    ensures
      var s := Step(before, Operation(LogoutAll(u, true)));
      StaysOut(s, u) <==> !SomeCanIssue(s, u)
  {
    var s := Step(before, Operation(LogoutAll(u, true)));
    assert !HasLive(s.server, u);
    StaysOutIff(s, u);
  }
}
