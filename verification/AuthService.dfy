// The repository and the service as objects that change the two tables.  Each method is
// proved to compute the statement or operation of AuthTables and AuthServer it stands for.
module AuthService {
  import opened Common
  import opened AuthTables
  import opened AuthServer

  class UserRepository {
    var users: map<UserId, UserRow>
    var tokens: map<Token, TokenRow>

    ghost function View(): Tables
      reads this
    {
      Tables(users, tokens)
    }

    constructor ()
      ensures View() == Tables(map[], map[])
    {
      users, tokens := map[], map[];
    }

    // ok says whether the statement runs.
    method InsertUser(u: UserId, company: string, email: string, provider: string, sub: string, ok: bool)
      returns (created: Result<()>)
      requires u !in users
      modifies this`users
      ensures created == if !ok then Err(DatabaseError) else if EmailTaken(old(View()), company, email) then Err(AlreadyExists) else Ok(())
      ensures created.Ok? ==> Create(old(View()), u, company, email, provider, sub) == Ok(View())
      ensures created.Err? ==> View() == old(View())
    {
      if !ok {
        return Err(DatabaseError);
      }
      if EmailTaken(Tables(users, tokens), company, email) {
        return Err(AlreadyExists);
      }
      users := users[u := UserRow(company, email, provider, sub, Some(true), Some(true))];
      return Ok(());
    }

    method FindByID(u: UserId) returns (row: Option<UserRow>)
      ensures row == GetByID(View(), u)
    {
      if u in users && Readable(users[u]) {
        return Some(users[u]);
      }
      return None;
    }

    // The role and name columns are not modelled; active is written only when given.
    method UpdateUser(u: UserId, company: string, active: Option<bool>, ok: bool) returns (written: bool)
      modifies this`users
      ensures written == ok
      ensures View() == if ok then Update(old(View()), u, company, active) else old(View())
    {
      if !ok {
        return false;
      }
      written := true;
      if active.Some? {
        if u in users && users[u].company == company {
          users := users[u := users[u].(active := active)];
        }
      }
    }

    method SoftDelete(u: UserId, company: string, ok: bool) returns (deleted: Result<()>)
      modifies this`users
      ensures !ok ==> deleted == Err(DatabaseError)
      ensures ok ==> (deleted.Ok? <==> Delete(old(View()), u, company).Ok?) && (deleted.Err? ==> deleted.error == UserNotFound)
      ensures View() == if deleted.Ok? then Delete(old(View()), u, company).value else old(View())
    {
      if !ok {
        return Err(DatabaseError);
      }
      if u !in users || users[u].company != company {
        return Err(UserNotFound);
      }
      users := users[u := users[u].(active := Some(false), isActive := Some(false))];
      return Ok(());
    }

    method StoreRefreshToken(t: Token, u: UserId, expiresAt: int)
      modifies this`tokens
      ensures View() == Store(old(View()), t, u, expiresAt)
    {
      tokens := tokens[t := TokenRow(u, expiresAt, false)];
    }

    method GetRefreshToken(t: Token, now: int) returns (r: Result<UserId>)
      ensures r == Lookup(View(), t, now)
    {
      if t !in tokens {
        return Err(TokenNotFound);
      }
      var row := tokens[t];
      if row.revoked {
        return Err(TokenRevoked);
      }
      if row.expiresAt < now {
        return Err(TokenExpired);
      }
      return Ok(row.user);
    }

    method RevokeRefreshToken(t: Token)
      modifies this`tokens
      ensures View() == Revoke(old(View()), t)
    {
      if t in tokens {
        tokens := tokens[t := tokens[t].(revoked := true)];
      }
    }

    method RevokeAllUserTokens(u: UserId)
      modifies this`tokens
      ensures View() == RevokeAll(old(View()), u)
    {
      tokens := map t | t in tokens :: if tokens[t].user == u then tokens[t].(revoked := true) else tokens[t];
    }
  }

  class Service {
    const repo: UserRepository
    var minted: nat

    ghost function View(): Server
      reads this, repo
    {
      Server(repo.View(), minted)
    }

    constructor (repo: UserRepository)
      ensures this.repo == repo && minted == 0
    {
      this.repo, this.minted := repo, 0;
    }

    method IssueTokens(u: UserId, env: Env) returns (reply: Reply)
      modifies this, repo
      ensures (View(), reply) == Issue(old(View()), u, env)
    {
      if !env.signOk {
        return Refused(SigningFailed);
      }
      var t := Minted(minted);
      minted := minted + 1;
      if env.storeOk {
        repo.StoreRefreshToken(t, u, env.expiresAt);
      }
      return Issued(t, u);
    }

    method Register(u: UserId, company: string, email: string, env: Env) returns (reply: Reply)
      requires u !in repo.users
      modifies this, repo
      ensures (View(), reply) == Exec(old(View()), Op.Register(u, company, email, env))
    {
      var created := repo.InsertUser(u, company, email, "", "", env.createOk);
      if created.Err? {
        return Refused(if created.error.AlreadyExists? then AlreadyRegistered else created.error);
      }
      reply := IssueTokens(u, env);
    }

    method Login(email: string, row: Option<UserId>, passwordOk: bool, env: Env) returns (reply: Reply)
      requires RowByEmail(repo.View(), email, row)
      modifies this, repo
      ensures (View(), reply) == Exec(old(View()), Op.Login(email, row, passwordOk, env))
    {
      if !env.userReadOk {
        return Refused(DatabaseError);
      }
      if row.None? {
        return Refused(InvalidCredentials);
      }
      if !passwordOk {
        return Refused(InvalidCredentials);
      }
      reply := IssueTokens(row.value, env);
    }

    method RefreshTokens(t: Token, env: Env) returns (reply: Reply)
      modifies this, repo
      ensures (View(), reply) == Exec(old(View()), Op.Refresh(t, env))
    {
      if !env.tokenReadOk {
        return Refused(DatabaseError);
      }
      var found := repo.GetRefreshToken(t, env.now);
      if found.Err? {
        return Refused(found.error);
      }
      if env.revokeOk {
        repo.RevokeRefreshToken(t);
      }
      if !env.userReadOk {
        return Refused(DatabaseError);
      }
      var user := repo.FindByID(found.value);
      if user.None? {
        return Refused(UserNotFound);
      }
      reply := IssueTokens(found.value, env);
    }

    method Logout(t: Token, env: Env) returns (reply: Reply)
      modifies repo
      ensures (View(), reply) == Exec(old(View()), Op.Logout(t, env))
    {
      if !env.revokeOk {
        return Refused(DatabaseError);
      }
      repo.RevokeRefreshToken(t);
      return Done;
    }

    method LogoutAll(u: UserId, ok: bool) returns (reply: Reply)
      modifies repo
      ensures (View(), reply) == Exec(old(View()), Op.LogoutAll(u, ok))
    {
      if !ok {
        return Refused(DatabaseError);
      }
      repo.RevokeAllUserTokens(u);
      return Done;
    }

    method HandleOAuth(op: Op) returns (reply: Reply)
      requires op.OAuth? && op.newUser !in repo.users
      modifies this, repo
      ensures (View(), reply) == AuthServer.HandleOAuth(old(View()), op)
    {
      if op.bySub.Some? {
        reply := IssueTokens(op.bySub.value, op.env);
        return;
      }
      if op.row.Some? {
        reply := IssueTokens(op.row.value, op.env);
        return;
      }
      var user := op.newUser;
      var created := repo.InsertUser(user, op.company, op.email, op.provider, op.sub, op.env.createOk);
      if created.Err? {
        if !created.error.AlreadyExists? {
          return Refused(created.error);
        }
        if op.reread.None? {
          return Crashed;
        }
        user := op.reread.value;
      }
      reply := IssueTokens(user, op.env);
    }

    method UpdateUser(u: UserId, company: string, active: Option<bool>, ok: bool) returns (reply: Reply)
      modifies repo
      ensures (View(), reply) == Exec(old(View()), Op.UpdateUser(u, company, active, ok))
    {
      var written := repo.UpdateUser(u, company, active, ok);
      return if written then Done else Refused(DatabaseError);
    }

    method DeleteUser(u: UserId, company: string, ok: bool) returns (reply: Reply)
      modifies repo
      ensures (View(), reply) == Exec(old(View()), Op.DeleteUser(u, company, ok))
    {
      var deleted := repo.SoftDelete(u, company, ok);
      return if deleted.Ok? then Done else Refused(deleted.error);
    }
  }
}
