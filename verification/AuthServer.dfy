// The service operations run one after another, and what token rotation guarantees over
// whole runs of them.
module AuthServer {
  import opened Common
  import opened AuthTables

  // minted counts the refresh tokens made so far; the next one is Minted(minted).
  datatype Server = Server(db: Tables, minted: nat)

  // What the outside world contributes to one operation: the clock and which of the
  // calls into the database and the signer succeed.
  datatype Env = Env(now: int, expiresAt: int, tokenReadOk: bool, revokeOk: bool, userReadOk: bool, createOk: bool,
                     signOk: bool, storeOk: bool)

  datatype Op =
    | Register(newUser: UserId, company: string, email: string, env: Env)
    | Login(email: string, row: Option<UserId>, passwordOk: bool, env: Env)
    | OAuth(provider: string, sub: string, email: string, company: string, bySub: Option<UserId>,
            row: Option<UserId>, reread: Option<UserId>, newUser: UserId, env: Env)
    | Refresh(token: Token, env: Env)
    | Logout(token: Token, env: Env)
    | LogoutAll(user: UserId, ok: bool)
    | UpdateUser(user: UserId, company: string, active: Option<bool>, ok: bool)
    | DeleteUser(user: UserId, company: string, ok: bool)

  datatype Reply = Issued(token: Token, user: UserId) | Refused(error: AuthError) | Done | Crashed

  // The rows named in an operation are rows the database may return, new ids are unused.  A
  // read by OAuth that fails is treated like one that finds nothing.
  ghost predicate Possible(s: Server, op: Op) {
    match op
    case Register(u, _, _, _) => u !in s.db.users
    case Login(email, row, _, _) => RowByEmail(s.db, email, row)
    case OAuth(provider, sub, email, _, bySub, row, reread, u, _) =>
      && (bySub.Some? ==> HasSub(s.db, bySub.value, provider, sub))
      && (row.Some? ==> HasEmail(s.db, row.value, email))
      && (reread.Some? ==> HasEmail(s.db, reread.value, email)) && u !in s.db.users
    case _ => true
  }

  // Minting a pair and storing the refresh token; a failed store is only logged.
  function Issue(s: Server, u: UserId, env: Env): (Server, Reply) {
    if !env.signOk then (s, Refused(SigningFailed))
    else
      var t := Minted(s.minted);
      var db := if env.storeOk then Store(s.db, t, u, env.expiresAt) else s.db;
      (Server(db, s.minted + 1), Issued(t, u))
  }

  function RefreshTokens(s: Server, t: Token, env: Env): (Server, Reply) {
    if !env.tokenReadOk then (s, Refused(DatabaseError))
    else
      match Lookup(s.db, t, env.now)
      case Err(e) => (s, Refused(e))
      case Ok(u) =>
        var s1 := if env.revokeOk then s.(db := Revoke(s.db, t)) else s;
        if !env.userReadOk then (s1, Refused(DatabaseError))
        else if GetByID(s1.db, u).None? then (s1, Refused(UserNotFound))
        else Issue(s1, u, env)
  }

  // After a conflict the row is read again by email; finding none is a nil dereference.
  function HandleOAuth(s: Server, op: Op): (Server, Reply)
    requires op.OAuth? && op.newUser !in s.db.users
  {
    if op.bySub.Some? then Issue(s, op.bySub.value, op.env)
    else if op.row.Some? then Issue(s, op.row.value, op.env)
    else if !op.env.createOk then (s, Refused(DatabaseError))
    else
      match Create(s.db, op.newUser, op.company, op.email, op.provider, op.sub)
      case Ok(db) => Issue(s.(db := db), op.newUser, op.env)
      case Err(_) => if op.reread.Some? then Issue(s, op.reread.value, op.env) else (s, Crashed)
  }

  function Exec(s: Server, op: Op): (Server, Reply)
    requires Possible(s, op)
  {
    match op
    case Register(u, company, email, env) =>
      if !env.createOk then (s, Refused(DatabaseError))
      else
        (match Create(s.db, u, company, email, "", "")
         case Ok(db) => Issue(s.(db := db), u, env)
         case Err(_) => (s, Refused(AlreadyRegistered)))
    case Login(email, row, passwordOk, env) =>
      if !env.userReadOk then (s, Refused(DatabaseError))
      else if row.None? || !passwordOk then (s, Refused(InvalidCredentials)) else Issue(s, row.value, env)
    case OAuth(_, _, _, _, _, _, _, _, _) => HandleOAuth(s, op)
    case Refresh(t, env) => RefreshTokens(s, t, env)
    case Logout(t, env) =>
      if env.revokeOk then (s.(db := Revoke(s.db, t)), Done) else (s, Refused(DatabaseError))
    case LogoutAll(u, ok) =>
      if ok then (s.(db := RevokeAll(s.db, u)), Done) else (s, Refused(DatabaseError))
    case UpdateUser(u, company, active, ok) =>
      if ok then (s.(db := Update(s.db, u, company, active)), Done) else (s, Refused(DatabaseError))
    case DeleteUser(u, company, ok) =>
      if !ok then (s, Refused(DatabaseError))
      else
        (match Delete(s.db, u, company)
         case Ok(db) => (s.(db := db), Done)
         case Err(e) => (s, Refused(e)))
  }

  // The server accepts the token an operation presents.
  predicate Accepts(s: Server, op: Op) {
    op.Refresh? && op.env.tokenReadOk && Lookup(s.db, op.token, op.env.now).Ok?
  }

  // ---- When a token is issued ----------------------------------------------------------

  // A login issues a token exactly when the read succeeds and finds a row, the password
  // matches and the pair is signed; then to a readable user with that email, and otherwise
  // nothing changes.
  lemma LoginIssuesIff(s: Server, email: string, row: Option<UserId>, passwordOk: bool, env: Env)
    requires Possible(s, Login(email, row, passwordOk, env))
    ensures
      var (s', reply) := Exec(s, Login(email, row, passwordOk, env));
      && (reply.Issued? <==> env.userReadOk && row.Some? && passwordOk && env.signOk)
      && (reply.Issued? ==> GetByID(s.db, reply.user).Some? && s.db.users[reply.user].email == email)
      && (!reply.Issued? ==> s' == s)
      && (reply == Refused(InvalidCredentials) <==> env.userReadOk && (row.None? || !passwordOk))
  {
  }

  // A registration does exactly when the insert runs, no row of the company has the email and
  // the pair is signed; then to the new user.
  lemma RegisterIssuesIff(s: Server, u: UserId, company: string, email: string, env: Env)
    requires Possible(s, Register(u, company, email, env))
    ensures
      var (s', reply) := Exec(s, Register(u, company, email, env));
      && (reply.Issued? <==>
            (env.createOk && env.signOk
             && forall v :: v in s.db.users ==> s.db.users[v].company != company || s.db.users[v].email != email))
      && (reply.Issued? ==> reply.user == u && HasEmail(s'.db, u, email) && s'.db.users[u].company == company)
      && (reply == Refused(DatabaseError) <==> !env.createOk)
      && (reply == Refused(AlreadyRegistered) <==>
            env.createOk && exists v :: v in s.db.users && s.db.users[v].company == company && s.db.users[v].email == email)
      && (reply == Refused(AlreadyRegistered) || !env.createOk ==> s' == s)
  {
    CreatedIsFound(s.db, u, company, email, "", "", true);
  }

  // A sign-in by OAuth issues to the row found by sub, else to the one found by email, else to
  // a new user or the row that took the email meanwhile.
  lemma OAuthIssuesTo(s: Server, op: Op)
    requires op.OAuth? && Possible(s, op) && Exec(s, op).1.Issued?
    ensures op.env.signOk
    ensures
      var u := Exec(s, op).1.user;
      && (op.bySub.Some? ==> u == op.bySub.value && s.db.users[u].provider == op.provider && s.db.users[u].sub == op.sub)
      && (op.bySub.None? && op.row.Some? ==> u == op.row.value && s.db.users[u].email == op.email)
      && (op.bySub.None? && op.row.None? ==> op.env.createOk)
      && (op.bySub.None? && op.row.None? && u in s.db.users ==>
            s.db.users[u].email == op.email && EmailTaken(s.db, op.company, op.email))
      && (op.bySub.None? && op.row.None? && u !in s.db.users ==>
            u == op.newUser && HasSub(Exec(s, op).0.db, u, op.provider, op.sub))
  {
    CreatedIsFound(s.db, op.newUser, op.company, op.email, op.provider, op.sub, true);
  }

  // And the ways it fails: with nothing found the insert fails, or it meets the email and the
  // row is gone when it is read again, which crashes the call; or the pair is not signed.
  lemma OAuthFailsIff(s: Server, op: Op)
    requires op.OAuth? && Possible(s, op)
    ensures
      var (s', reply) := Exec(s, op);
      var unknown := op.bySub.None? && op.row.None?;
      && (reply == Refused(DatabaseError) <==> unknown && !op.env.createOk)
      && (reply == Crashed <==> unknown && op.env.createOk && op.reread.None? && EmailTaken(s.db, op.company, op.email))
      && (reply == Refused(SigningFailed) <==> reply != Refused(DatabaseError) && reply != Crashed && !op.env.signOk)
      && (reply.Issued? <==> reply != Refused(DatabaseError) && reply != Crashed && op.env.signOk)
      && (reply == Refused(DatabaseError) || reply == Crashed ==> s' == s)
  {
  }

  // A refresh issues a token exactly when the presented one is stored, live and not past its
  // expiry, its user is found and the reads and the signing succeed; then to that user.
  lemma RefreshIssuesIff(s: Server, t: Token, env: Env)
    ensures
      var (s', reply) := RefreshTokens(s, t, env);
      && (reply.Issued? <==>
            env.tokenReadOk && Live(s.db, t) && env.now <= s.db.tokens[t].expiresAt
            && env.userReadOk && GetByID(s.db, s.db.tokens[t].user).Some? && env.signOk)
      && (reply.Issued? ==> reply.user == s.db.tokens[t].user)
      && (reply == Refused(TokenNotFound) <==> env.tokenReadOk && t !in s.db.tokens)
      && (reply == Refused(TokenRevoked) <==> env.tokenReadOk && t in s.db.tokens && s.db.tokens[t].revoked)
      && (reply == Refused(TokenExpired) <==> env.tokenReadOk && Live(s.db, t) && s.db.tokens[t].expiresAt < env.now)
      && s'.db.users == s.db.users
  {
  }

  // A new token that is stored is accepted for its user up to the expiry it was given, and
  // one that is not stored never.
  lemma IssuedIsAcceptedUntil(s: Server, u: UserId, env: Env, now: int)
    requires Minted(s.minted) !in s.db.tokens && env.signOk
    ensures
      var (s', reply) := Issue(s, u, env);
      && reply == Issued(Minted(s.minted), u)
      && (Lookup(s'.db, reply.token, now).Ok? <==> env.storeOk && now <= env.expiresAt)
      && (Lookup(s'.db, reply.token, now).Ok? ==> Lookup(s'.db, reply.token, now).value == u)
  {
  }

  // A logout makes the presented token unacceptable exactly when its revoke runs, and touches
  // no other.
  lemma LogoutEffect(s: Server, t: Token, env: Env, other: Token)
    ensures
      var (s', reply) := Exec(s, Logout(t, env));
      && (env.revokeOk ==> reply == Done && !Live(s'.db, t))
      && (!env.revokeOk ==> s' == s && reply == Refused(DatabaseError))
      && (other != t ==> (Live(s'.db, other) <==> Live(s.db, other)))
  {
  }

  // A logout everywhere ends every token of the user and no other.
  lemma LogoutAllEffect(s: Server, u: UserId, ok: bool, t: Token)
    ensures
      var (s', reply) := Exec(s, LogoutAll(u, ok));
      && reply == (if ok then Done else Refused(DatabaseError))
      && (Live(s'.db, t) <==> Live(s.db, t) && (!ok || s.db.tokens[t].user != u))
      && s'.db.users == s.db.users
  {
  }

  // An update is done even when it reaches no row; when it does, the user is shown as told.
  lemma UpdateUserEffect(s: Server, u: UserId, company: string, active: Option<bool>, ok: bool)
    ensures
      var (s', reply) := Exec(s, UpdateUser(u, company, active, ok));
      var reaches := ok && active.Some? && u in s.db.users && s.db.users[u].company == company;
      && reply == (if ok then Done else Refused(DatabaseError))
      && (reaches ==> u in s'.db.users && ShownActive(s'.db.users[u]) == active.value)
      && (!reaches ==> s' == s)
      && s'.db.tokens == s.db.tokens
  {
    if u in s.db.users && active.Some? {
      UpdateReaches(s.db, u, active.value);
    }
  }

  // A delete is done exactly when the user is one of the company's, and ends reads of that
  // user but none of the tokens.
  lemma DeleteUserEffect(s: Server, u: UserId, company: string, ok: bool)
    ensures
      var (s', reply) := Exec(s, DeleteUser(u, company, ok));
      && (reply == Done <==> ok && u in s.db.users && s.db.users[u].company == company)
      && (reply == Refused(UserNotFound) <==> ok && !(u in s.db.users && s.db.users[u].company == company))
      && (reply == Done ==> GetByID(s'.db, u).None?)
      && (reply != Done ==> s' == s)
      && s'.db.tokens == s.db.tokens
  {
    DeletedIsGone(s.db, u, company);
  }

  // ---- Histories -------------------------------------------------------------------

  // A server with what happened to it: the login each token descends from, whom each
  // token was issued to, and the tokens accepted, in order.
  datatype History = History(server: Server, root: map<Token, Token>, owner: map<Token, UserId>, accepted: seq<Token>)

  const Empty := History(Server(Tables(map[], map[]), 0), map[], map[], [])

  function RootOf(h: History, t: Token): Token {
    if t in h.root then h.root[t] else t
  }

  function Record(h: History, op: Op, s: Server, reply: Reply): History {
    var accepted := if Accepts(h.server, op) then h.accepted + [op.token] else h.accepted;
    if reply.Issued? then
      var t := reply.token;
      History(s, h.root[t := if op.Refresh? then RootOf(h, op.token) else t], h.owner[t := reply.user], accepted)
    else
      h.(server := s, accepted := accepted)
  }

  function Advance(h: History, op: Op): History
    requires Possible(h.server, op)
  {
    var (s, reply) := Exec(h.server, op);
    Record(h, op, s, reply)
  }

  ghost predicate PossibleRun(h: History, ops: seq<Op>)
    decreases |ops|
  {
    ops == [] || (Possible(h.server, ops[0]) && PossibleRun(Advance(h, ops[0]), ops[1..]))
  }

  function After(h: History, ops: seq<Op>): History
    requires PossibleRun(h, ops)
    decreases |ops|
  {
    if ops == [] then h else After(Advance(h, ops[0]), ops[1..])
  }

  // ---- Bookkeeping every operation keeps ---------------------------------------------

  ghost predicate Recorded(h: History) {
    && (forall t :: t in h.owner ==> t.Minted? && t.id < h.server.minted)
    && h.root.Keys == h.owner.Keys
    && (forall t :: t in h.root ==> h.root[t].Minted? && h.root[t].id < h.server.minted)
    && (forall t :: t in h.server.db.tokens ==> t in h.owner && h.server.db.tokens[t].user == h.owner[t])
  }

  // The effect of one operation on the token table: either some rows become revoked, or
  // the token presented does and then at most one fresh token appears.
  ghost predicate OnlyRevokes(before: Tables, after: Tables) {
    && after.tokens.Keys == before.tokens.Keys
    && forall t :: t in before.tokens ==>
         after.tokens[t] == before.tokens[t] || after.tokens[t] == before.tokens[t].(revoked := true)
  }

  // Every operation first revokes some rows, reaching mid, and then, if it issues a token,
  // stores it unless the store fails.
  ghost predicate TokensMove(s: Server, op: Op, mid: Tables, s': Server, reply: Reply) {
    && OnlyRevokes(s.db, mid)
    && (op.Refresh? && op.env.revokeOk && Accepts(s, op) ==> op.token in mid.tokens && mid.tokens[op.token].revoked)
    && (reply.Issued? ==> reply.token == Minted(s.minted) && s'.minted == s.minted + 1)
    && (!reply.Issued? ==> s'.minted == s.minted && s'.db.tokens == mid.tokens)
    && (reply.Issued? ==>
          (s'.db.tokens == mid.tokens
           || exists e :: s'.db.tokens == mid.tokens[reply.token := TokenRow(reply.user, e, false)]))
    && (reply.Issued? && op.Refresh? ==> Accepts(s, op) && reply.user == s.db.tokens[op.token].user)
  }

  lemma ExecOnTokens(s: Server, op: Op) returns (mid: Tables)
    requires Possible(s, op)
    ensures TokensMove(s, op, mid, Exec(s, op).0, Exec(s, op).1)
  {
    mid := s.db;
    match op {
      case Refresh(t, env) =>
        if Accepts(s, op) && env.revokeOk {
          mid := Revoke(s.db, t);
        }
      case Logout(t, env) =>
        if env.revokeOk {
          mid := Revoke(s.db, t);
        }
      case LogoutAll(u, ok) =>
        if ok {
          mid := RevokeAll(s.db, u);
        }
      case _ =>
    }
  }

  lemma MoveKeepsRecorded(h: History, op: Op, mid: Tables, s': Server, reply: Reply)
    requires Recorded(h) && TokensMove(h.server, op, mid, s', reply)
    ensures Recorded(Record(h, op, s', reply))
  {
  }

  lemma AdvanceKeepsRecorded(h: History, op: Op)
    requires Recorded(h) && Possible(h.server, op)
    ensures Recorded(Advance(h, op))
  {
    var mid := ExecOnTokens(h.server, op);
    MoveKeepsRecorded(h, op, mid, Exec(h.server, op).0, Exec(h.server, op).1);
  }

  lemma {:induction false} RunKeepsRecorded(h: History, ops: seq<Op>)
    requires Recorded(h) && PossibleRun(h, ops)
    ensures Recorded(After(h, ops))
    decreases |ops|
  {
    if ops != [] {
      AdvanceKeepsRecorded(h, ops[0]);
      RunKeepsRecorded(Advance(h, ops[0]), ops[1..]);
    }
  }

  // ---- What each family descends from --------------------------------------------------

  // An operation by which somebody signs in; a login is one only with the right password.
  predicate SignsIn(op: Op) {
    op.Register? || op.OAuth? || (op.Login? && op.passwordOk)
  }

  // The tokens the sign-ins of a run issue.
  ghost function SignInTokens(h: History, ops: seq<Op>): set<Token>
    requires PossibleRun(h, ops)
    decreases |ops|
  {
    if ops == [] then {}
    else
      var reply := Exec(h.server, ops[0]).1;
      (if SignsIn(ops[0]) && reply.Issued? then {reply.token} else {}) + SignInTokens(Advance(h, ops[0]), ops[1..])
  }

  ghost predicate RootedAt(h: History, t: Token, roots: set<Token>) {
    t in h.owner && t in h.root && h.root[t] in roots && h.root[t] in h.owner && h.owner[h.root[t]] == h.owner[t]
  }

  ghost predicate Rooted(h: History, roots: set<Token>) {
    forall t :: t in h.owner ==> RootedAt(h, t, roots)
  }

  lemma OnlySignInsIssue(s: Server, op: Op)
    requires Possible(s, op) && Exec(s, op).1.Issued?
    ensures op.Refresh? || SignsIn(op)
  {
  }

  // What a record adds: a token nobody had, which starts a family or joins that of a token of
  // the same user.
  lemma RecordKeepsRooted(h: History, op: Op, s: Server, t: Token, u: UserId, roots: set<Token>, x: Token)
    requires Rooted(h, roots) && t !in h.owner && t !in h.root && (x == t || x in h.owner)
    requires op.Refresh? ==> op.token in h.owner && h.owner[op.token] == u
    ensures RootedAt(Record(h, op, s, Issued(t, u)), x, roots + if op.Refresh? then {} else {t})
  {
    if x != t {
      assert RootedAt(h, x, roots);
    } else if op.Refresh? {
      assert RootedAt(h, op.token, roots);
    }
  }

  lemma MoveKeepsRooted(h: History, op: Op, mid: Tables, s': Server, reply: Reply, roots: set<Token>)
    requires Recorded(h) && Rooted(h, roots) && TokensMove(h.server, op, mid, s', reply)
    requires reply.Issued? ==> op.Refresh? || SignsIn(op)
    ensures Rooted(Record(h, op, s', reply), roots + if SignsIn(op) && reply.Issued? then {reply.token} else {})
  {
    var h' := Record(h, op, s', reply);
    forall x | x in h'.owner
      ensures RootedAt(h', x, roots + if SignsIn(op) && reply.Issued? then {reply.token} else {})
    {
      if reply.Issued? {
        assert reply.token !in h.owner;
        RecordKeepsRooted(h, op, s', reply.token, reply.user, roots, x);
      } else {
        assert RootedAt(h, x, roots);
      }
    }
  }

  lemma AdvanceKeepsRooted(h: History, op: Op, roots: set<Token>)
    requires Recorded(h) && Rooted(h, roots) && Possible(h.server, op)
    ensures
      var reply := Exec(h.server, op).1;
      Rooted(Advance(h, op), roots + if SignsIn(op) && reply.Issued? then {reply.token} else {})
  {
    var mid := ExecOnTokens(h.server, op);
    if Exec(h.server, op).1.Issued? {
      OnlySignInsIssue(h.server, op);
    }
    MoveKeepsRooted(h, op, mid, Exec(h.server, op).0, Exec(h.server, op).1, roots);
  }

  lemma {:induction false} RootedFrom(h: History, ops: seq<Op>, roots: set<Token>)
    requires Recorded(h) && Rooted(h, roots) && PossibleRun(h, ops)
    ensures Rooted(After(h, ops), roots + SignInTokens(h, ops))
    decreases |ops|
  {
    if ops == [] {
      assert roots + {} == roots;
    } else {
      var reply := Exec(h.server, ops[0]).1;
      var more := if SignsIn(ops[0]) && reply.Issued? then {reply.token} else {};
      AdvanceKeepsRecorded(h, ops[0]);
      AdvanceKeepsRooted(h, ops[0], roots);
      RootedFrom(Advance(h, ops[0]), ops[1..], roots + more);
      assert roots + SignInTokens(h, ops) == roots + more + SignInTokens(Advance(h, ops[0]), ops[1..]);
    }
  }

  // In every run each token issued descends from a token that a sign-in issued to the same
  // user: a registration, an OAuth sign-in, or a login with the right password.
  lemma {:induction false} FamiliesStartWithSignIn(ops: seq<Op>, t: Token)
    requires PossibleRun(Empty, ops) && t in After(Empty, ops).owner
    ensures
      var h := After(Empty, ops);
      t in h.root && h.root[t] in SignInTokens(Empty, ops) && h.root[t] in h.owner && h.owner[h.root[t]] == h.owner[t]
  {
    RootedFrom(Empty, ops, {});
    assert {} + SignInTokens(Empty, ops) == SignInTokens(Empty, ops);
  }

  // ---- Rotation: one live token a family, each token accepted once -------------------

  predicate RevokesSucceed(ops: seq<Op>) {
    forall i :: 0 <= i < |ops| ==> ops[i].Refresh? ==> ops[i].env.revokeOk
  }

  ghost predicate OneLivePerFamily(h: History) {
    forall a, b :: Live(h.server.db, a) && Live(h.server.db, b) && RootOf(h, a) == RootOf(h, b) ==> a == b
  }

  ghost predicate AcceptedOnce(h: History) {
    && Distinct(h.accepted)
    && (forall t :: t in h.accepted ==> t in h.server.db.tokens && h.server.db.tokens[t].revoked)
  }

  lemma MoveKeepsOneLive(h: History, op: Op, mid: Tables, s': Server, reply: Reply)
    requires Recorded(h) && OneLivePerFamily(h) && TokensMove(h.server, op, mid, s', reply)
    requires op.Refresh? ==> op.env.revokeOk
    ensures OneLivePerFamily(Record(h, op, s', reply))
  {
    var h' := Record(h, op, s', reply);
    var next := Minted(h.server.minted);
    assert next !in h.owner;
    forall a, b | Live(s'.db, a) && Live(s'.db, b) && RootOf(h', a) == RootOf(h', b)
      ensures a == b
    {
      assert a != next ==> Live(h.server.db, a) && RootOf(h', a) == RootOf(h, a);
      assert b != next ==> Live(h.server.db, b) && RootOf(h', b) == RootOf(h, b);
      if reply.Issued? && op.Refresh? {
        assert Live(h.server.db, op.token) && RootOf(h', next) == RootOf(h, op.token);
      }
    }
  }

  lemma MoveKeepsAccepted(h: History, op: Op, mid: Tables, s': Server, reply: Reply)
    requires Recorded(h) && AcceptedOnce(h) && TokensMove(h.server, op, mid, s', reply)
    requires op.Refresh? ==> op.env.revokeOk
    ensures AcceptedOnce(Record(h, op, s', reply))
  {
    assert Minted(h.server.minted) !in h.owner;
    if Accepts(h.server, op) {
      AppendFresh(h.accepted, op.token);
    }
  }

  lemma AdvanceKeepsRotation(h: History, op: Op)
    requires Recorded(h) && OneLivePerFamily(h) && AcceptedOnce(h) && Possible(h.server, op)
    requires op.Refresh? ==> op.env.revokeOk
    ensures OneLivePerFamily(Advance(h, op)) && AcceptedOnce(Advance(h, op))
  {
    var mid := ExecOnTokens(h.server, op);
    MoveKeepsOneLive(h, op, mid, Exec(h.server, op).0, Exec(h.server, op).1);
    MoveKeepsAccepted(h, op, mid, Exec(h.server, op).0, Exec(h.server, op).1);
  }

  lemma {:induction false} RotationFrom(h: History, ops: seq<Op>)
    requires Recorded(h) && OneLivePerFamily(h) && AcceptedOnce(h)
    requires PossibleRun(h, ops) && RevokesSucceed(ops)
    ensures OneLivePerFamily(After(h, ops)) && AcceptedOnce(After(h, ops))
    decreases |ops|
  {
    if ops != [] {
      AdvanceKeepsRecorded(h, ops[0]);
      AdvanceKeepsRotation(h, ops[0]);
      RotationFrom(Advance(h, ops[0]), ops[1..]);
    }
  }

  // In every run whose revokes succeed, each login family has at most one live refresh
  // token and no token is accepted twice.
  lemma {:induction false} Rotation(ops: seq<Op>)
    requires PossibleRun(Empty, ops) && RevokesSucceed(ops)
    ensures OneLivePerFamily(After(Empty, ops))
    ensures Distinct(After(Empty, ops).accepted)
  {
    RotationFrom(Empty, ops);
  }

  // A refresh that issues a token has used up the one presented exactly when its revoke
  // reached the table.
  lemma RefreshConsumesIffRevoked(s: Server, t: Token, env: Env)
    requires t.Minted? ==> t.id < s.minted
    requires RefreshTokens(s, t, env).1.Issued?
    ensures Live(RefreshTokens(s, t, env).0.db, t) <==> !env.revokeOk
  {
  }

  // ---- Tokens that can never be accepted again ---------------------------------------

  // Already minted, and not stored as live.
  predicate Dead(s: Server, t: Token) {
    t.Minted? && t.id < s.minted && !Live(s.db, t)
  }

  lemma AdvanceKeepsDead(h: History, op: Op, t: Token)
    requires Dead(h.server, t) && Possible(h.server, op)
    ensures Dead(Advance(h, op).server, t)
    ensures op.Refresh? && op.token == t ==> !Accepts(h.server, op)
  {
    var mid := ExecOnTokens(h.server, op);
  }

  lemma {:induction false} DeadForever(h: History, ops: seq<Op>, t: Token)
    requires Dead(h.server, t) && PossibleRun(h, ops)
    ensures Dead(After(h, ops).server, t)
    ensures Occurrences(After(h, ops).accepted, t) == Occurrences(h.accepted, t)
    decreases |ops|
  {
    if ops != [] {
      AdvanceKeepsDead(h, ops[0], t);
      if Accepts(h.server, ops[0]) {
        OccurrencesConcat(h.accepted, [ops[0].token], t);
      }
      DeadForever(Advance(h, ops[0]), ops[1..], t);
    }
  }

  // Nothing issued to a user before a LogoutAll that is done is accepted after it, whatever
  // else fails.
  lemma {:induction false} LogoutAllIsFinal(before: seq<Op>, u: UserId, later: seq<Op>, t: Token)
    requires PossibleRun(Empty, before)
    requires t in After(Empty, before).owner && After(Empty, before).owner[t] == u
    requires PossibleRun(Advance(After(Empty, before), LogoutAll(u, true)), later)
    ensures
      var h := After(Empty, before);
      var h' := After(Advance(h, LogoutAll(u, true)), later);
      && Occurrences(h'.accepted, t) == Occurrences(h.accepted, t)
      && forall env :: !RefreshTokens(h'.server, t, env).1.Issued?
  {
    RunKeepsRecorded(Empty, before);
    var h := After(Empty, before);
    DeadForever(Advance(h, LogoutAll(u, true)), later, t);
  }

  // Only tokens the server issued are ever accepted, and for the user they were issued to.
  lemma AcceptedWereIssued(ops: seq<Op>, op: Op)
    requires PossibleRun(Empty, ops) && Accepts(After(Empty, ops).server, op)
    ensures
      var h := After(Empty, ops);
      && op.token in h.owner
      && Lookup(h.server.db, op.token, op.env.now) == Ok(h.owner[op.token])
  {
    RunKeepsRecorded(Empty, ops);
  }

  // ---- Soft-deleted users --------------------------------------------------------------

  predicate SoftDeleted(s: Server, u: UserId) {
    u in s.db.users && s.db.users[u].isActive == Some(false)
  }

  lemma AdvanceKeepsDeleted(h: History, op: Op, u: UserId)
    requires SoftDeleted(h.server, u) && Possible(h.server, op)
    ensures SoftDeleted(Advance(h, op).server, u)
    ensures Exec(h.server, op).1.Issued? ==> Exec(h.server, op).1.user != u
  {
  }

  function TokensOf(h: History, u: UserId): set<Token> {
    set t | t in h.owner && h.owner[t] == u
  }

  lemma NoNewTokens(h: History, op: Op, u: UserId)
    requires Recorded(h) && Possible(h.server, op)
    requires Exec(h.server, op).1.Issued? ==> Exec(h.server, op).1.user != u
    ensures TokensOf(Advance(h, op), u) == TokensOf(h, u)
  {
    var mid := ExecOnTokens(h.server, op);
    assert Minted(h.server.minted) !in h.owner;
  }

  lemma {:induction false} DeletedForever(h: History, ops: seq<Op>, u: UserId)
    requires Recorded(h) && SoftDeleted(h.server, u) && PossibleRun(h, ops)
    ensures SoftDeleted(After(h, ops).server, u)
    ensures TokensOf(After(h, ops), u) == TokensOf(h, u)
    decreases |ops|
  {
    if ops != [] {
      var h1 := Advance(h, ops[0]);
      AdvanceKeepsRecorded(h, ops[0]);
      AdvanceKeepsDeleted(h, ops[0], u);
      NoNewTokens(h, ops[0], u);
      DeletedForever(h1, ops[1..], u);
    }
  }

  // A soft-deleted user is never issued a token again, not even after an update that sets
  // active, because reads test is_active first.
  lemma {:induction false} DeletedUserGetsNoToken(before: seq<Op>, u: UserId, company: string, ok: bool, later: seq<Op>)
    requires PossibleRun(Empty, before)
    requires Exec(After(Empty, before).server, DeleteUser(u, company, ok)).1 == Done
    requires PossibleRun(Advance(After(Empty, before), DeleteUser(u, company, ok)), later)
    ensures
      var h := After(Empty, before);
      TokensOf(After(Advance(h, DeleteUser(u, company, ok)), later), u) == TokensOf(h, u)
  {
    RunKeepsRecorded(Empty, before);
    var h := After(Empty, before);
    AdvanceKeepsRecorded(h, DeleteUser(u, company, ok));
    DeletedForever(Advance(h, DeleteUser(u, company, ok)), later, u);
  }
}
