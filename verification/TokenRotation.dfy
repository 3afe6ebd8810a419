// The browser and the server together.  The server handles a refresh call in four
// separate steps that interleave freely with the steps of other calls, so on its own it
// does not rotate tokens safely; the browser's single flight makes it do so.
module TokenRotation {
  import opened Common
  import opened AuthTables
  import opened AuthServer
  import C = RefreshClient

  // How far the server is with one refresh call.
  datatype Phase =
    | Arrived
    | Looked(user: UserId)
    | Revoked(user: UserId)
    | Found(user: UserId)
    | Replied(result: Result<Token>)

  datatype Call = Call(token: Token, phase: Phase)

  datatype CallId = Mine(request: C.RequestId) | Other(id: nat)

  // ---- The four server steps of a call ------------------------------------------------

  function LookupStep(s: Server, c: Call, now: int, readOk: bool): Call
    requires c.phase.Arrived?
  {
    if !readOk then c.(phase := Replied(Err(DatabaseError)))
    else
      match Lookup(s.db, c.token, now)
      case Ok(u) => c.(phase := Looked(u))
      case Err(e) => c.(phase := Replied(Err(e)))
  }

  // A failed revoke is only logged.
  function RevokeStep(s: Server, c: Call, ok: bool): (Server, Call)
    requires c.phase.Looked?
  {
    (if ok then s.(db := Revoke(s.db, c.token)) else s, c.(phase := Revoked(c.phase.user)))
  }

  function FindStep(s: Server, c: Call, readOk: bool): Call
    requires c.phase.Revoked?
  {
    if !readOk then c.(phase := Replied(Err(DatabaseError)))
    else if GetByID(s.db, c.phase.user).None? then c.(phase := Replied(Err(UserNotFound)))
    else c.(phase := Found(c.phase.user))
  }

  function IssueStep(s: Server, c: Call, env: Env): (Server, Call)
    requires c.phase.Found?
  {
    var (s', reply) := Issue(s, c.phase.user, env);
    (s', c.(phase := Replied(if reply.Issued? then Ok(reply.token) else Err(SigningFailed))))
  }

  // The next step of a call; a call that has replied makes none.
  function Advance(s: Server, c: Call, env: Env): (Server, Call) {
    match c.phase
    case Arrived => (s, LookupStep(s, c, env.now, env.tokenReadOk))
    case Looked(_) => RevokeStep(s, c, env.revokeOk)
    case Revoked(_) => (s, FindStep(s, c, env.userReadOk))
    case Found(_) => IssueStep(s, c, env)
    case Replied(_) => (s, c)
  }

  function Finish(s: Server, c: Call, env: Env): (Server, Call) {
    var (s1, c1) := Advance(s, c, env);
    var (s2, c2) := Advance(s1, c1, env);
    var (s3, c3) := Advance(s2, c2, env);
    Advance(s3, c3, env)
  }

  function ReplyTo(reply: Reply): Result<Token> {
    match reply
    case Issued(t, _) => Ok(t)
    case Refused(e) => Err(e)
    case _ => Err(DatabaseError)
  }

  // Run without interleaving, four steps are the service's refresh operation, whatever fails.
  lemma StepsComposeToRefresh(s: Server, t: Token, env: Env)
    ensures Finish(s, Call(t, Arrived), env) == (RefreshTokens(s, t, env).0, Call(t, Replied(ReplyTo(RefreshTokens(s, t, env).1))))
  {
  }

  // ---- The composed system -------------------------------------------------------------

  // One browser logged in as user, every other caller of the server, and the tokens issued to
  // the browser's login.  For the browser's latest call, spent says whether its revoke went
  // through and stored whether it stored a new token.  leftover holds the tokens the browser
  // gave up or never received that stayed live; lost says that its cookie was used up and no
  // stored token took its place.
  datatype World = World(client: C.Client, cookie: Token, server: Server, calls: map<CallId, Call>, user: UserId,
                         family: set<Token>, spent: bool, stored: bool, leftover: set<Token>, lost: bool)

  datatype Event =
    | ClientStep(step: C.Event)
    | OtherArrives(other: nat, presented: Token)
    | OtherOp(op: Op)
    | AtLookup(call: CallId, now: int, readOk: bool)
    | AtRevoke(call: CallId, ok: bool)
    | AtFind(call: CallId, readOk: bool)
    | AtIssue(call: CallId, env: Env)
    | Deliver(owner: C.RequestId, access: C.AccessToken)
    | Drop(owner: C.RequestId)                  // the reply is lost on its way

  ghost predicate Enabled(w: World, e: Event) {
    match e
    case ClientStep(step) => C.Enabled(w.client, step) && !step.RefreshSucceeded? && !step.RefreshFailed?
    case OtherArrives(k, _) => Other(k) !in w.calls
    case OtherOp(op) => Possible(w.server, op) && !op.Refresh?
    case AtLookup(c, _, _) => c in w.calls && w.calls[c].phase.Arrived?
    case AtRevoke(c, _) => c in w.calls && w.calls[c].phase.Looked?
    case AtFind(c, _) => c in w.calls && w.calls[c].phase.Revoked?
    case AtIssue(c, _) => c in w.calls && w.calls[c].phase.Found?
    case Deliver(r, _) => Mine(r) in w.calls && w.calls[Mine(r)].phase.Replied? && r in w.client.awaiting
    case Drop(r) => Mine(r) in w.calls && w.calls[Mine(r)].phase.Replied? && r in w.client.awaiting
  }

  // The browser's token is used up and its call brings it nothing, because it failed or its
  // reply is lost; or the call brings it a token that is not stored.
  ghost predicate Loses(w: World, e: Event)
    requires Enabled(w, e)
  {
    match e
    case Deliver(r, _) => if w.calls[Mine(r)].phase.result.Ok? then !w.stored else w.spent
    case Drop(_) => w.spent
    case _ => false
  }

  // A token other than the browser's stays live: the one it gives up although the revoke
  // failed, or the new one in a reply that is lost.
  ghost predicate Splits(w: World, e: Event)
    requires Enabled(w, e)
  {
    match e
    case Deliver(r, _) => w.calls[Mine(r)].phase.result.Ok? && !w.spent
    case Drop(r) => w.calls[Mine(r)].phase.result.Ok? && w.stored
    case _ => false
  }

  // A refresh call carries the cookie; its reply is applied to cookie and client at once, and
  // a lost reply is a failed refresh to the client.
  ghost function Step(w: World, e: Event): World
    requires Enabled(w, e)
  {
    match e
    case ClientStep(step) =>
      var client := C.Step(w.client, step);
      if StartsRefresh(w.client, step)
      then w.(client := client, calls := w.calls[Mine(step.request) := Call(w.cookie, Arrived)], spent := false, stored := false)
      else w.(client := client)
    case OtherArrives(k, t) => w.(calls := w.calls[Other(k) := Call(t, Arrived)])
    case OtherOp(op) => w.(server := Exec(w.server, op).0)
    case AtLookup(c, now, readOk) => w.(calls := w.calls[c := LookupStep(w.server, w.calls[c], now, readOk)])
    case AtRevoke(c, ok) =>
      var (s, call) := RevokeStep(w.server, w.calls[c], ok);
      w.(server := s, calls := w.calls[c := call], spent := if c.Mine? then ok else w.spent)
    case AtFind(c, readOk) => w.(calls := w.calls[c := FindStep(w.server, w.calls[c], readOk)])
    case AtIssue(c, env) =>
      var (s, call) := IssueStep(w.server, w.calls[c], env);
      w.(server := s, calls := w.calls[c := call],
         family := if c.Mine? && call.phase.result.Ok? then w.family + {call.phase.result.value} else w.family,
         stored := if c.Mine? then env.signOk && env.storeOk else w.stored)
    case Deliver(r, access) =>
      var rest := w.(calls := w.calls - {Mine(r)}, lost := w.lost || Loses(w, e));
      (match w.calls[Mine(r)].phase.result
       case Ok(t) =>
         rest.(cookie := t, leftover := if Splits(w, e) then w.leftover + {w.cookie} else w.leftover,
               client := C.Step(w.client, C.RefreshSucceeded(r, access)))
       case Err(_) => rest.(client := C.Step(w.client, C.RefreshFailed(r))))
    case Drop(r) =>
      w.(calls := w.calls - {Mine(r)}, lost := w.lost || Loses(w, e),
         leftover := if Splits(w, e) then w.leftover + {w.calls[Mine(r)].phase.result.value} else w.leftover,
         client := C.Step(w.client, C.RefreshFailed(r)))
  }

  // ---- A call by itself in the composed system ------------------------------------------

  // The event of a call's next step.
  function NextOf(w: World, c: CallId, env: Env): Event
    requires c in w.calls && !w.calls[c].phase.Replied?
  {
    match w.calls[c].phase
    case Arrived => AtLookup(c, env.now, env.tokenReadOk)
    case Looked(_) => AtRevoke(c, env.revokeOk)
    case Revoked(_) => AtFind(c, env.userReadOk)
    case Found(_) => AtIssue(c, env)
  }

  ghost function Onward(w: World, c: CallId, env: Env): (w': World)
    requires c in w.calls
    ensures c in w'.calls
  {
    if w.calls[c].phase.Replied? then w else Step(w, NextOf(w, c, env))
  }

  // w' is w after the call c took its next step, the browser left alone.
  ghost predicate Advanced(w: World, c: CallId, env: Env, w': World)
    requires c in w.calls
  {
    var (s, call) := Advance(w.server, w.calls[c], env);
    && w'.server == s && w'.calls == w.calls[c := call]
    && w'.client == w.client && w'.cookie == w.cookie && (c.Other? ==> w'.family == w.family)
  }

  lemma ReadsAdvance(w: World, c: CallId, env: Env)
    requires c in w.calls && (w.calls[c].phase.Arrived? || w.calls[c].phase.Revoked?)
    ensures Advanced(w, c, env, Onward(w, c, env))
  {
  }

  lemma WritesAdvance(w: World, c: CallId, env: Env)
    requires c in w.calls && (w.calls[c].phase.Looked? || w.calls[c].phase.Found?)
    ensures Advanced(w, c, env, Onward(w, c, env))
  {
  }

  lemma OnwardAdvances(w: World, c: CallId, env: Env)
    requires c in w.calls
    ensures Advanced(w, c, env, Onward(w, c, env))
  {
    match w.calls[c].phase {
      case Arrived => ReadsAdvance(w, c, env);
      case Looked(_) => WritesAdvance(w, c, env);
      case Revoked(_) => ReadsAdvance(w, c, env);
      case Found(_) => WritesAdvance(w, c, env);
      case Replied(_) => assert w.calls[c := w.calls[c]] == w.calls;
    }
  }

  ghost function OnwardToReply(w: World, c: CallId, env: Env): World
    requires c in w.calls
  {
    Onward(Onward(Onward(Onward(w, c, env), c, env), c, env), c, env)
  }

  lemma CallAloneRefreshes(w: World, c: CallId, env: Env)
    requires c in w.calls && w.calls[c].phase == Arrived
    ensures
      var end, (server, reply) := OnwardToReply(w, c, env), RefreshTokens(w.server, w.calls[c].token, env);
      && end.server == server && end.calls == w.calls[c := Call(w.calls[c].token, Replied(ReplyTo(reply)))]
      && end.client == w.client && end.cookie == w.cookie && (c.Other? ==> end.family == w.family)
  {
    var w1 := Onward(w, c, env);
    var w2 := Onward(w1, c, env);
    var w3 := Onward(w2, c, env);
    OnwardAdvances(w, c, env);
    OnwardAdvances(w1, c, env);
    OnwardAdvances(w2, c, env);
    OnwardAdvances(w3, c, env);
    StepsComposeToRefresh(w.server, w.calls[c].token, env);
  }

  // With nothing in between, another caller's refresh is the service's operation and leaves
  // the browser as it is, and so does any other operation.
  lemma OthersRunTheService(w: World, k: nat, t: Token, env: Env, op: Op)
    requires Other(k) !in w.calls && Enabled(w, OtherOp(op))
    ensures
      var end := OnwardToReply(Step(w, OtherArrives(k, t)), Other(k), env);
      && end.server == RefreshTokens(w.server, t, env).0
      && end.client == w.client && end.cookie == w.cookie && end.family == w.family
    ensures
      var end := Step(w, OtherOp(op));
      && end.server == Exec(w.server, op).0
      && end.client == w.client && end.cookie == w.cookie && end.family == w.family && end.calls == w.calls
  {
    CallAloneRefreshes(Step(w, OtherArrives(k, t)), Other(k), env);
  }

  // With nothing in between, the browser's own refresh presents the cookie, and the reply that
  // arrives puts the issued token in its place and resends what waits, or else rejects the
  // request and keeps the cookie.
  lemma BrowserRefreshes(w: World, r: C.RequestId, access: C.AccessToken, env: Env)
    requires Enabled(w, ClientStep(C.Unauthorized(r))) && StartsRefresh(w.client, C.Unauthorized(r))
    ensures
      var asked := OnwardToReply(Step(w, ClientStep(C.Unauthorized(r))), Mine(r), env);
      var (server, reply) := RefreshTokens(w.server, w.cookie, env);
      && Enabled(asked, Deliver(r, access))
      && (var end := Step(asked, Deliver(r, access));
          && end.server == server
          && end.cookie == (if reply.Issued? then reply.token else w.cookie)
          && end.client == C.Step(C.Step(w.client, C.Unauthorized(r)),
               if reply.Issued? then C.RefreshSucceeded(r, access) else C.RefreshFailed(r)))
  {
    CallAloneRefreshes(Step(w, ClientStep(C.Unauthorized(r))), Mine(r), env);
  }

  // A token some other caller can hold: not one of this login, and not one still to be minted.
  predicate Outside(w: World, t: Token) {
    t !in w.family && (t.Minted? ==> t.id < w.server.minted)
  }

  // What is assumed between login and logout: others do not hold this login's tokens, and
  // nobody logs this user out everywhere.  Any statement and any signature may fail, tokens
  // may expire and the user may be deleted.
  ghost predicate Undisturbed(w: World, e: Event)
    requires Enabled(w, e)
  {
    match e
    case OtherArrives(_, t) => Outside(w, t)
    case OtherOp(op) =>
      && (op.Logout? ==> Outside(w, op.token))
      && (op.LogoutAll? ==> op.user != w.user)
    case _ => true
  }

  ghost predicate ValidRun(w: World, es: seq<Event>)
    decreases |es|
  {
    es == [] || (Enabled(w, es[0]) && Undisturbed(w, es[0]) && ValidRun(Step(w, es[0]), es[1..]))
  }

  ghost function Run(w: World, es: seq<Event>): World
    requires ValidRun(w, es)
    decreases |es|
  {
    if es == [] then w else Run(Step(w, es[0]), es[1..])
  }

  // No token is stored that has not been minted.
  ghost predicate NoneAhead(s: Server) {
    forall t :: t in s.db.tokens && t.Minted? ==> t.id < s.minted
  }

  // Just after a login: the cookie holds the first token of the family, which is live, and
  // whatever the page has sent before, no refresh is in flight.
  ghost predicate SessionStart(w: World) {
    && C.Inv(w.client) && w.client.awaiting == {}
    && (forall r :: Mine(r) !in w.calls)
    && w.family == {w.cookie} && w.leftover == {} && !w.lost
    && w.cookie.Minted? && w.cookie.id < w.server.minted
    && Live(w.server.db, w.cookie) && w.server.db.tokens[w.cookie].user == w.user && NoneAhead(w.server)
    && (forall k :: Other(k) in w.calls ==> Outside(w, w.calls[Other(k)].token))
  }

  // ---- The invariant ------------------------------------------------------------------

  ghost predicate CallsMatch(w: World) {
    forall r :: Mine(r) in w.calls <==> r in w.client.awaiting
  }

  ghost predicate OthersOutside(w: World) {
    forall k :: Other(k) in w.calls ==> Outside(w, w.calls[Other(k)].token)
  }

  ghost predicate FamilyStored(w: World) {
    && w.leftover <= w.family && w.cookie in w.family
    && forall t :: t in w.family ==>
         t.Minted? && t.id < w.server.minted && (t in w.server.db.tokens ==> w.server.db.tokens[t].user == w.user)
  }

  // The tokens of the login that are live besides the leftover ones.
  function Current(w: World, phase: Option<Phase>): set<Token> {
    match phase
    case Some(Revoked(_)) => if w.spent then {} else {w.cookie}
    case Some(Found(_)) => if w.spent then {} else {w.cookie}
    case Some(Replied(Ok(t))) => (if w.stored then {t} else {}) + (if w.spent then {} else {w.cookie})
    case Some(Replied(Err(_))) => if w.lost || w.spent then {} else {w.cookie}
    case _ => if w.lost then {} else {w.cookie}
  }

  ghost predicate LiveExactly(w: World, live: set<Token>) {
    forall t :: t in w.family ==> (Live(w.server.db, t) <==> t in live + w.leftover)
  }

  predicate SaysUsedUp(e: AuthError) {
    e == TokenRevoked || e == TokenNotFound
  }

  ghost predicate CallOk(w: World, c: Call) {
    && c.token == w.cookie && w.cookie !in w.leftover && (w.spent ==> w.cookie in w.server.db.tokens)
    && match c.phase
       case Arrived => !w.spent
       case Looked(u) => u == w.user && !w.lost && !w.spent
       case Revoked(u) => u == w.user && !w.lost
       case Found(u) => u == w.user && !w.lost
       case Replied(Ok(t)) => !w.lost && t in w.family && t !in w.leftover && t != w.cookie
       case Replied(Err(e)) => SaysUsedUp(e) ==> w.lost
  }

  ghost predicate LiveTokens(w: World) {
    && (w.client.awaiting == {} ==> LiveExactly(w, Current(w, None)) && w.cookie !in w.leftover)
    && (forall r :: Mine(r) in w.calls ==>
          CallOk(w, w.calls[Mine(r)]) && LiveExactly(w, Current(w, Some(w.calls[Mine(r)].phase))))
  }

  ghost predicate Session(w: World) {
    C.SingleFlight(w.client) && CallsMatch(w) && OthersOutside(w) && FamilyStored(w) && LiveTokens(w) && NoneAhead(w.server)
  }

  ghost predicate Inv(w: World) {
    C.Inv(w.client) && Session(w)
  }

  lemma SessionStartSatisfiesInv(w: World)
    requires SessionStart(w)
    ensures Inv(w)
  {
  }

  // ---- Each event keeps it ---------------------------------------------------------------

  // The client alone moved and started no refresh.
  lemma ClientMoveKeepsSession(w: World, client: C.Client)
    requires Session(w) && C.SingleFlight(client) && client.awaiting == w.client.awaiting
    ensures Session(w.(client := client))
  {
    var w' := w.(client := client);
    forall live ensures LiveExactly(w, live) ==> LiveExactly(w', live) {
    }
  }

  lemma RefreshStartKeepsSession(w: World, client: C.Client, r: C.RequestId)
    requires Session(w) && w.client.awaiting == {} && client.awaiting == {r} && C.SingleFlight(client)
    ensures Session(w.(client := client, calls := w.calls[Mine(r) := Call(w.cookie, Arrived)], spent := false, stored := false))
  {
    var w' := w.(client := client, calls := w.calls[Mine(r) := Call(w.cookie, Arrived)], spent := false, stored := false);
    assert LiveExactly(w', Current(w, None));
  }

  predicate StartsRefresh(client: C.Client, step: C.Event)
    requires C.Enabled(client, step)
  {
    step.Unauthorized? && C.Step(client, step).refreshing && !client.refreshing
  }

  lemma StepAwaits(client: C.Client, step: C.Event)
    requires C.SingleFlight(client) && C.Enabled(client, step) && !step.RefreshSucceeded? && !step.RefreshFailed?
    ensures StartsRefresh(client, step) ==> client.awaiting == {} && C.Step(client, step).awaiting == {step.request}
    ensures !StartsRefresh(client, step) ==> C.Step(client, step).awaiting == client.awaiting
  {
  }

  lemma ClientStepKeepsSession(w: World, step: C.Event)
    requires Session(w) && Enabled(w, ClientStep(step)) && C.SingleFlight(C.Step(w.client, step))
    ensures Session(Step(w, ClientStep(step)))
  {
    var client := C.Step(w.client, step);
    StepAwaits(w.client, step);
    if StartsRefresh(w.client, step) {
      RefreshStartKeepsSession(w, client, step.request);
    } else {
      ClientMoveKeepsSession(w, client);
    }
  }

  lemma ClientStepKeepsInv(w: World, step: C.Event)
    requires Inv(w) && Enabled(w, ClientStep(step))
    ensures Inv(Step(w, ClientStep(step)))
  {
    C.StepKeepsInv(w.client, step);
    ClientStepKeepsSession(w, step);
  }

  // The server part of a step by another caller leaves this login's rows alone.
  ghost predicate LeavesFamily(w: World, s: Server) {
    && s.minted >= w.server.minted && NoneAhead(s)
    && forall t :: t in w.family ==>
         (t in s.db.tokens <==> t in w.server.db.tokens)
         && (t in s.db.tokens ==> s.db.tokens[t] == w.server.db.tokens[t])
  }

  lemma ForeignStepKeepsSession(w: World, s: Server, calls: map<CallId, Call>)
    requires Session(w) && LeavesFamily(w, s)
    requires forall r :: Mine(r) in calls <==> Mine(r) in w.calls
    requires forall r :: Mine(r) in calls ==> calls[Mine(r)] == w.calls[Mine(r)]
    requires forall k :: Other(k) in calls ==> Outside(w, calls[Other(k)].token)
    ensures Session(w.(server := s, calls := calls))
  {
    var w' := w.(server := s, calls := calls);
    forall live ensures LiveExactly(w, live) ==> LiveExactly(w', live) {
    }
  }

  lemma IssueLeavesFamily(w: World, s: Server, u: UserId, env: Env)
    requires FamilyStored(w) && NoneAhead(w.server)
    requires s.minted == w.server.minted && s.db.tokens == w.server.db.tokens
    ensures LeavesFamily(w, Issue(s, u, env).0)
  {
    assert Minted(s.minted) !in w.family;
  }

  lemma RevokeLeavesFamily(w: World, op: Op)
    requires FamilyStored(w) && NoneAhead(w.server) && Possible(w.server, op)
    requires (op.Logout? && Outside(w, op.token)) || (op.LogoutAll? && op.user != w.user)
    ensures LeavesFamily(w, Exec(w.server, op).0)
  {
  }

  lemma OtherOpLeavesFamily(w: World, op: Op)
    requires FamilyStored(w) && NoneAhead(w.server) && Enabled(w, OtherOp(op)) && Undisturbed(w, OtherOp(op))
    ensures LeavesFamily(w, Exec(w.server, op).0)
  {
    match op {
      case Logout(_, _) => RevokeLeavesFamily(w, op);
      case LogoutAll(_, _) => RevokeLeavesFamily(w, op);
      case Register(u, company, email, env) =>
        var created := Create(w.server.db, u, company, email, "", "");
        if created.Ok? {
          IssueLeavesFamily(w, w.server.(db := created.value), u, env);
        }
      case Login(_, row, _, env) =>
        if row.Some? {
          IssueLeavesFamily(w, w.server, row.value, env);
        }
      case OAuth(provider, sub, email, company, bySub, row, reread, u, env) =>
        forall v ensures LeavesFamily(w, Issue(w.server, v, env).0) {
          IssueLeavesFamily(w, w.server, v, env);
        }
        var created := Create(w.server.db, u, company, email, provider, sub);
        if created.Ok? {
          IssueLeavesFamily(w, w.server.(db := created.value), u, env);
        }
      case _ =>
    }
  }

  predicate IsMine(e: Event) {
    match e
    case AtLookup(c, _, _) => c.Mine?
    case AtRevoke(c, _) => c.Mine?
    case AtFind(c, _) => c.Mine?
    case AtIssue(c, _) => c.Mine?
    case Deliver(_, _) => true
    case Drop(_) => true
    case ClientStep(_) => true
    case _ => false
  }

  lemma OtherCallLeavesFamily(w: World, e: Event)
    requires FamilyStored(w) && NoneAhead(w.server) && OthersOutside(w) && Enabled(w, e) && !IsMine(e) && !e.OtherOp?
    ensures LeavesFamily(w, Step(w, e).server)
  {
    match e {
      case AtRevoke(Other(k), ok) => assert w.calls[Other(k)].token !in w.family;
      case AtIssue(Other(k), env) => IssueLeavesFamily(w, w.server, w.calls[Other(k)].phase.user, env);
      case _ =>
    }
  }

  lemma OtherStepKeepsSession(w: World, e: Event)
    requires Session(w) && Enabled(w, e) && Undisturbed(w, e) && !IsMine(e)
    ensures Session(Step(w, e)) && Step(w, e).client == w.client
  {
    var w' := Step(w, e);
    if e.OtherOp? {
      OtherOpLeavesFamily(w, e.op);
    } else {
      OtherCallLeavesFamily(w, e);
    }
    assert w' == w.(server := w'.server, calls := w'.calls);
    ForeignStepKeepsSession(w, w'.server, w'.calls);
  }

  // While this browser's call runs it is the only one of this browser.
  lemma MyCall(w: World, r: C.RequestId)
    requires Session(w) && Mine(r) in w.calls
    ensures w.client.awaiting == {r}
    ensures forall q :: Mine(q) in w.calls <==> q == r
  {
    assert r in w.client.awaiting;
  }

  lemma MyLookupKeepsSession(w: World, r: C.RequestId, now: int, readOk: bool)
    requires Session(w) && Enabled(w, AtLookup(Mine(r), now, readOk))
    ensures Session(Step(w, AtLookup(Mine(r), now, readOk)))
  {
    MyCall(w, r);
    LookupAccepts(w.server.db, w.cookie, now);
  }

  lemma MyRevokeKeepsSession(w: World, r: C.RequestId, ok: bool)
    requires Session(w) && Enabled(w, AtRevoke(Mine(r), ok))
    ensures Session(Step(w, AtRevoke(Mine(r), ok)))
  {
    MyCall(w, r);
  }

  lemma MyFindKeepsSession(w: World, r: C.RequestId, readOk: bool)
    requires Session(w) && Enabled(w, AtFind(Mine(r), readOk)) && Undisturbed(w, AtFind(Mine(r), readOk))
    ensures Session(Step(w, AtFind(Mine(r), readOk)))
  {
    MyCall(w, r);
  }

  lemma MyIssueKeepsSession(w: World, r: C.RequestId, env: Env)
    requires Session(w) && Enabled(w, AtIssue(Mine(r), env)) && Undisturbed(w, AtIssue(Mine(r), env))
    ensures Session(Step(w, AtIssue(Mine(r), env)))
  {
    MyCall(w, r);
    assert Minted(w.server.minted) !in w.family;
  }

  lemma TokenArrivesKeepsSession(w: World, r: C.RequestId, access: C.AccessToken)
    requires Session(w) && Enabled(w, Deliver(r, access)) && w.calls[Mine(r)].phase.result.Ok?
    requires C.SingleFlight(Step(w, Deliver(r, access)).client)
    ensures Session(Step(w, Deliver(r, access)))
  {
    MyCall(w, r);
    var w' := Step(w, Deliver(r, access));
    assert w'.client.awaiting == {};
    assert LiveExactly(w', Current(w', None));
  }

  lemma RefusalKeepsSession(w: World, r: C.RequestId, access: C.AccessToken)
    requires Session(w) && Enabled(w, Deliver(r, access)) && w.calls[Mine(r)].phase.result.Err?
    requires C.SingleFlight(Step(w, Deliver(r, access)).client)
    ensures Session(Step(w, Deliver(r, access)))
  {
    MyCall(w, r);
    var w' := Step(w, Deliver(r, access));
    assert w'.client.awaiting == {};
    assert LiveExactly(w', Current(w', None));
  }

  lemma DeliverKeepsInv(w: World, r: C.RequestId, access: C.AccessToken)
    requires Inv(w) && Enabled(w, Deliver(r, access))
    ensures Inv(Step(w, Deliver(r, access)))
  {
    if w.calls[Mine(r)].phase.result.Ok? {
      C.StepKeepsInv(w.client, C.RefreshSucceeded(r, access));
      TokenArrivesKeepsSession(w, r, access);
    } else {
      C.StepKeepsInv(w.client, C.RefreshFailed(r));
      RefusalKeepsSession(w, r, access);
    }
  }

  lemma DropKeepsSession(w: World, r: C.RequestId)
    requires Session(w) && Enabled(w, Drop(r)) && C.SingleFlight(Step(w, Drop(r)).client)
    ensures Session(Step(w, Drop(r)))
  {
    MyCall(w, r);
    var w' := Step(w, Drop(r));
    assert w'.client.awaiting == {};
    assert LiveExactly(w', Current(w', None));
  }

  lemma StepKeepsInv(w: World, e: Event)
    requires Inv(w) && Enabled(w, e) && Undisturbed(w, e)
    ensures Inv(Step(w, e))
  {
    match e {
      case ClientStep(step) => ClientStepKeepsInv(w, step);
      case AtLookup(Mine(r), now, readOk) => MyLookupKeepsSession(w, r, now, readOk);
      case AtRevoke(Mine(r), ok) => MyRevokeKeepsSession(w, r, ok);
      case AtFind(Mine(r), readOk) => MyFindKeepsSession(w, r, readOk);
      case AtIssue(Mine(r), env) => MyIssueKeepsSession(w, r, env);
      case Deliver(r, access) => DeliverKeepsInv(w, r, access);
      case Drop(r) =>
        C.StepKeepsInv(w.client, C.RefreshFailed(r));
        DropKeepsSession(w, r);
      case _ => OtherStepKeepsSession(w, e);
    }
  }

  lemma {:induction false} RunKeepsInv(w: World, es: seq<Event>)
    requires Inv(w) && ValidRun(w, es)
    ensures Inv(Run(w, es))
    decreases |es|
  {
    if es != [] {
      StepKeepsInv(w, es[0]);
      RunKeepsInv(Step(w, es[0]), es[1..]);
    }
  }

  // ---- Main results -----------------------------------------------------------------------

  ghost predicate NeverLoses(w: World, es: seq<Event>)
    requires ValidRun(w, es)
    decreases |es|
  {
    es == [] || (!Loses(w, es[0]) && NeverLoses(Step(w, es[0]), es[1..]))
  }

  ghost predicate NeverSplits(w: World, es: seq<Event>)
    requires ValidRun(w, es)
    decreases |es|
  {
    es == [] || (!Splits(w, es[0]) && NeverSplits(Step(w, es[0]), es[1..]))
  }

  lemma {:induction false} HistoryOfRun(w: World, es: seq<Event>)
    requires ValidRun(w, es)
    ensures Run(w, es).lost <==> w.lost || !NeverLoses(w, es)
    ensures w.leftover <= Run(w, es).leftover
    ensures w.leftover == {} ==> (Run(w, es).leftover == {} <==> NeverSplits(w, es))
    decreases |es|
  {
    if es != [] {
      HistoryOfRun(Step(w, es[0]), es[1..]);
    }
  }

  function LiveFamily(w: World): set<Token> {
    set t | t in w.family && Live(w.server.db, t)
  }

  // A reply to the browser that its token is revoked or unknown.
  ghost predicate ToldUsedUp(w: World) {
    exists r :: Mine(r) in w.calls && w.calls[Mine(r)].phase.Replied? && w.calls[Mine(r)].phase.result.Err?
      && SaysUsedUp(w.calls[Mine(r)].phase.result.error)
  }

  lemma SessionIsUsable(w: World)
    requires Session(w)
    ensures w.client.awaiting == {} ==>
      LiveFamily(w) == (if w.lost then {} else {w.cookie}) + w.leftover && w.cookie !in w.leftover
    ensures ToldUsedUp(w) ==> w.lost
  {
    if w.client.awaiting == {} {
      assert LiveExactly(w, Current(w, None));
    }
  }

  // Whenever no refresh is in flight the cookie's token is live exactly when no call of the
  // browser had its revoke go through and then failed at the user read or the signing or lost
  // its reply, and none delivered a token that was not stored; only after such a call can a
  // reply say that the token is revoked or unknown.
  lemma {:induction false} CookieLiveIff(w: World, es: seq<Event>)
    requires SessionStart(w) && ValidRun(w, es)
    ensures
      var w' := Run(w, es);
      && (w'.client.awaiting == {} ==> (Live(w'.server.db, w'.cookie) <==> NeverLoses(w, es)))
      && (ToldUsedUp(w') ==> !NeverLoses(w, es))
  {
    SessionStartSatisfiesInv(w);
    RunKeepsInv(w, es);
    SessionIsUsable(Run(w, es));
    HistoryOfRun(w, es);
    var w' := Run(w, es);
    assert w'.cookie in w'.family;
    assert Live(w'.server.db, w'.cookie) <==> w'.cookie in LiveFamily(w');
  }

  // With no refresh in flight the cookie holds the one live token of its login exactly when
  // no call lost the session so, none replaced a token whose revoke had failed, and no reply
  // with a stored token was lost.
  lemma {:induction false} OneLiveTokenIff(w: World, es: seq<Event>)
    requires SessionStart(w) && ValidRun(w, es) && Run(w, es).client.awaiting == {}
    ensures LiveFamily(Run(w, es)) == {Run(w, es).cookie} <==> NeverLoses(w, es) && NeverSplits(w, es)
  {
    SessionStartSatisfiesInv(w);
    RunKeepsInv(w, es);
    SessionIsUsable(Run(w, es));
    HistoryOfRun(w, es);
    var w' := Run(w, es);
    assert w'.cookie !in w'.leftover;
    if LiveFamily(w') == {w'.cookie} {
      assert w'.leftover <= LiveFamily(w') && w'.cookie in LiveFamily(w');
    }
  }

  // ---- A lost session -----------------------------------------------------------------------

  // The session is lost and no call of the browser got past its lookup.
  ghost predicate Stranded(w: World) {
    && w.lost
    && (forall r :: Mine(r) in w.calls ==>
          w.calls[Mine(r)].phase.Arrived? || (w.calls[Mine(r)].phase.Replied? && w.calls[Mine(r)].phase.result.Err?))
  }

  lemma LookupStaysStranded(w: World, r: C.RequestId, now: int, readOk: bool)
    requires Session(w) && Stranded(w) && Enabled(w, AtLookup(Mine(r), now, readOk))
    ensures Stranded(Step(w, AtLookup(Mine(r), now, readOk)))
  {
    assert LiveExactly(w, {}) && w.cookie in w.family;
    assert !Live(w.server.db, w.cookie);
  }

  lemma StepStaysStranded(w: World, e: Event)
    requires Session(w) && Stranded(w) && Enabled(w, e)
    ensures Stranded(Step(w, e)) && Step(w, e).cookie == w.cookie
  {
    match e {
      case AtLookup(Mine(r), now, readOk) => LookupStaysStranded(w, r, now, readOk);
      case _ =>
    }
  }

  // A dead cookie stays: in every later run the browser keeps the same token, it is never
  // live while no refresh is in flight, and no refresh of the browser succeeds.
  lemma {:induction false} DeadCookieStaysDead(w: World, es: seq<Event>)
    requires Inv(w) && w.client.awaiting == {} && !Live(w.server.db, w.cookie) && ValidRun(w, es)
    ensures
      var w' := Run(w, es);
      && w'.cookie == w.cookie
      && (w'.client.awaiting == {} ==> !Live(w'.server.db, w'.cookie))
      && forall r :: Mine(r) in w'.calls ==> !w'.calls[Mine(r)].phase.Replied? || w'.calls[Mine(r)].phase.result.Err?
  {
    assert LiveExactly(w, Current(w, None)) && w.cookie in w.family;
    StrandedForever(w, es);
    SessionIsUsable(Run(w, es));
    assert Run(w, es).cookie !in LiveFamily(Run(w, es)) || Run(w, es).client.awaiting != {};
  }

  lemma {:induction false} StrandedForever(w: World, es: seq<Event>)
    requires Inv(w) && Stranded(w) && ValidRun(w, es)
    ensures Inv(Run(w, es)) && Stranded(Run(w, es)) && Run(w, es).cookie == w.cookie
    decreases |es|
  {
    if es != [] {
      StepKeepsInv(w, es[0]);
      StepStaysStranded(w, es[0]);
      StrandedForever(Step(w, es[0]), es[1..]);
    }
  }

  // Failing at the user read after the revoke went through costs the session: the cookie is
  // dead when the reply is delivered, and the next call is told that it is revoked.
  lemma FailedReadLosesSession(w: World, r: C.RequestId, access: C.AccessToken, now: int)
    requires Session(w) && Mine(r) in w.calls && w.calls[Mine(r)].phase.Revoked? && w.spent
    ensures
      var w1 := Step(w, AtFind(Mine(r), false));
      && Enabled(w1, Deliver(r, access))
      && var w2 := Step(w1, Deliver(r, access));
         && w2.client.awaiting == {} && !Live(w2.server.db, w2.cookie)
         && LookupStep(w2.server, Call(w2.cookie, Arrived), now, true).phase == Replied(Err(TokenRevoked))
  {
    MyCall(w, r);
    assert w.cookie in w.family && LiveExactly(w, {});
  }

  // So does failing to sign then.
  lemma FailedSigningLosesSession(w: World, r: C.RequestId, env: Env, access: C.AccessToken, now: int)
    requires Session(w) && Mine(r) in w.calls && w.calls[Mine(r)].phase.Found? && w.spent
    requires !env.signOk
    ensures
      var w1 := Step(w, AtIssue(Mine(r), env));
      && Enabled(w1, Deliver(r, access))
      && var w2 := Step(w1, Deliver(r, access));
         && w2.client.awaiting == {} && !Live(w2.server.db, w2.cookie)
         && LookupStep(w2.server, Call(w2.cookie, Arrived), now, true).phase == Replied(Err(TokenRevoked))
  {
    MyCall(w, r);
    assert w.cookie in w.family && LiveExactly(w, {});
  }

  // And so does a new token that is signed but not stored, which the next call is told is
  // unknown, whether or not the old token was revoked.
  lemma UnstoredTokenLosesSession(w: World, r: C.RequestId, env: Env, access: C.AccessToken, now: int)
    requires Session(w) && Mine(r) in w.calls && w.calls[Mine(r)].phase.Found?
    requires env.signOk && !env.storeOk
    ensures
      var w1 := Step(w, AtIssue(Mine(r), env));
      && Enabled(w1, Deliver(r, access))
      && var w2 := Step(w1, Deliver(r, access));
         && w2.client.awaiting == {} && !Live(w2.server.db, w2.cookie)
         && LookupStep(w2.server, Call(w2.cookie, Arrived), now, true).phase == Replied(Err(TokenNotFound))
  {
    MyCall(w, r);
  }

  // And so does a reply lost after the revoke went through, whatever it said.
  lemma LostReplyLosesSession(w: World, r: C.RequestId, now: int)
    requires Session(w) && Enabled(w, Drop(r)) && w.spent
    ensures
      var w2 := Step(w, Drop(r));
      && w2.client.awaiting == {} && !Live(w2.server.db, w2.cookie)
      && LookupStep(w2.server, Call(w2.cookie, Arrived), now, true).phase == Replied(Err(TokenRevoked))
  {
    MyCall(w, r);
    assert w.cookie in w.family;
  }

  lemma {:induction false} RunConcat(w: World, a: seq<Event>, b: seq<Event>)
    requires ValidRun(w, a) && ValidRun(Run(w, a), b)
    ensures ValidRun(w, a + b) && Run(w, a + b) == Run(Run(w, a), b)
    decreases |a|
  {
    if a == [] {
      assert a + b == b;
    } else {
      assert (a + b)[1..] == a[1..] + b;
      RunConcat(Step(w, a[0]), a[1..], b);
    }
  }

  lemma TwoSteps(w: World, e: Event, f: Event)
    requires Enabled(w, e) && Undisturbed(w, e) && Enabled(Step(w, e), f) && Undisturbed(Step(w, e), f)
    ensures ValidRun(w, [e, f]) && Run(w, [e, f]) == Step(Step(w, e), f)
  {
    var w2 := Step(Step(w, e), f);
    assert [e, f][1..] == [f] && [f][1..] == [];
    assert ValidRun(w2, []) && Run(w2, []) == w2;
    assert Run(Step(w, e), [f]) == w2;
  }

  lemma RefreshArrives(w: World, r: C.RequestId)
    requires SessionStart(w) && r !in w.client.issued
    ensures
      var e, f := ClientStep(C.Issue(r)), ClientStep(C.Unauthorized(r));
      && Enabled(w, e) && Enabled(Step(w, e), f)
      && var w' := Step(Step(w, e), f);
         && w'.calls == w.calls[Mine(r) := Call(w.cookie, Arrived)] && w'.server == w.server && w'.cookie == w.cookie
         && w'.spent == false
  {
  }

  // A run from any login to a dead cookie: one new request, one 401, and a user read that
  // fails after the revoke.
  lemma LossIsReachable(w: World, r: C.RequestId, now: int) returns (es: seq<Event>)
    requires SessionStart(w) && r !in w.client.issued && now <= w.server.db.tokens[w.cookie].expiresAt
    ensures ValidRun(w, es) && Run(w, es).client.awaiting == {}
    ensures !Live(Run(w, es).server.db, Run(w, es).cookie)
  {
    var arrive := [ClientStep(C.Issue(r)), ClientStep(C.Unauthorized(r))];
    RefreshArrives(w, r);
    TwoSteps(w, arrive[0], arrive[1]);
    var w2 := Run(w, arrive);
    var use := [AtLookup(Mine(r), now, true), AtRevoke(Mine(r), true)];
    LookupAccepts(w2.server.db, w2.cookie, now);
    TwoSteps(w2, use[0], use[1]);
    RunConcat(w, arrive, use);
    SessionStartSatisfiesInv(w);
    RunKeepsInv(w, arrive + use);
    var w4 := Run(w, arrive + use);
    FailedReadLosesSession(w4, r, 0, now);
    var fail := [AtFind(Mine(r), false), Deliver(r, 0)];
    TwoSteps(w4, fail[0], fail[1]);
    RunConcat(w, arrive + use, fail);
    es := arrive + use + fail;
  }
}
