// The users and refresh_tokens tables and the statements the repository runs on them.
// A token stands for its own hash: the digest is taken to be injective.
module AuthTables {
  import opened Common

  type UserId = nat

  // Refresh tokens are minted with a fresh identifier; any other string is Foreign.
  datatype Token = Minted(id: nat) | Foreign(text: string)

  datatype UserRow = UserRow(company: string, email: string, provider: string, sub: string,
                             active: Option<bool>, isActive: Option<bool>)

  datatype TokenRow = TokenRow(user: UserId, expiresAt: int, revoked: bool)

  datatype Tables = Tables(users: map<UserId, UserRow>, tokens: map<Token, TokenRow>)

  datatype AuthError =
    | TokenNotFound | TokenRevoked | TokenExpired | UserNotFound
    | InvalidCredentials | AlreadyRegistered | AlreadyExists | SigningFailed | DatabaseError

  datatype Result<+T> = Ok(value: T) | Err(error: AuthError)

  // COALESCE(is_active, active, true): the predicate of every user read.
  predicate Readable(u: UserRow) {
    u.isActive.GetOr(u.active.GetOr(true))
  }

  function GetByID(db: Tables, u: UserId): Option<UserRow> {
    if u in db.users && Readable(db.users[u]) then Some(db.users[u]) else None
  }

  predicate HasEmail(db: Tables, u: UserId, email: string) {
    u in db.users && db.users[u].email == email && Readable(db.users[u])
  }

  // row is a row the database may return for an email: any match, or none if none exists.
  ghost predicate RowByEmail(db: Tables, email: string, row: Option<UserId>) {
    match row
    case Some(u) => HasEmail(db, u, email)
    case None => forall u :: u in db.users ==> !HasEmail(db, u, email)
  }

  predicate HasSub(db: Tables, u: UserId, provider: string, sub: string) {
    u in db.users && db.users[u].provider == provider && db.users[u].sub == sub && Readable(db.users[u])
  }

  // The conflict target of the INSERT is (company, email), whatever the row's status.
  predicate EmailTaken(db: Tables, company: string, email: string) {
    exists u :: u in db.users && db.users[u].company == company && db.users[u].email == email
  }

  function Create(db: Tables, u: UserId, company: string, email: string, provider: string, sub: string): Result<Tables>
    requires u !in db.users
  {
    if EmailTaken(db, company, email) then Err(AlreadyExists)
    else Ok(db.(users := db.users[u := UserRow(company, email, provider, sub, Some(true), Some(true))]))
  }

  function Update(db: Tables, u: UserId, company: string, active: Option<bool>): Tables {
    if active.Some? && u in db.users && db.users[u].company == company
    then db.(users := db.users[u := db.users[u].(active := active)])
    else db
  }

  function Delete(db: Tables, u: UserId, company: string): Result<Tables> {
    if u in db.users && db.users[u].company == company
    then Ok(db.(users := db.users[u := db.users[u].(active := Some(false), isActive := Some(false))]))
    else Err(UserNotFound)
  }

  function Store(db: Tables, t: Token, u: UserId, expiresAt: int): Tables {
    db.(tokens := db.tokens[t := TokenRow(u, expiresAt, false)])
  }

  function Lookup(db: Tables, t: Token, now: int): Result<UserId> {
    if t !in db.tokens then Err(TokenNotFound)
    else if db.tokens[t].revoked then Err(TokenRevoked)
    else if db.tokens[t].expiresAt < now then Err(TokenExpired)
    else Ok(db.tokens[t].user)
  }

  function Revoke(db: Tables, t: Token): Tables {
    if t in db.tokens then db.(tokens := db.tokens[t := db.tokens[t].(revoked := true)]) else db
  }

  function RevokeAll(db: Tables, u: UserId): Tables {
    db.(tokens := map t | t in db.tokens ::
          if db.tokens[t].user == u then db.tokens[t].(revoked := true) else db.tokens[t])
  }

  predicate Live(db: Tables, t: Token) {
    t in db.tokens && !db.tokens[t].revoked
  }

  // ---- Facts about single statements -----------------------------------------------

  // A token is accepted exactly when it is stored, not revoked and not past its expiry; the
  // refusal says which of the three failed first.
  lemma LookupAccepts(db: Tables, t: Token, now: int)
    ensures Lookup(db, t, now).Ok? <==> Live(db, t) && now <= db.tokens[t].expiresAt
    ensures Lookup(db, t, now).Ok? ==> Lookup(db, t, now).value == db.tokens[t].user
    ensures Lookup(db, t, now) == Err(TokenNotFound) <==> t !in db.tokens
    ensures Lookup(db, t, now) == Err(TokenRevoked) <==> t in db.tokens && !Live(db, t)
    ensures Lookup(db, t, now) == Err(TokenExpired) <==> Live(db, t) && db.tokens[t].expiresAt < now
  {
  }

  // What a read shows as the user's status; it prefers the other column than the predicate.
  function ShownActive(u: UserRow): bool {
    u.active.GetOr(u.isActive.GetOr(true))
  }

  // Switching a user off with Update stops reads of that user exactly when is_active was
  // never set; while it holds a value, that value alone decides, and a user still read is
  // shown as switched off.
  lemma UpdateReaches(db: Tables, u: UserId, active: bool)
    requires u in db.users
    ensures
      var before, after := db.users[u], Update(db, u, db.users[u].company, Some(active)).users[u];
      && (Readable(after) <==> before.isActive.GetOr(active))
      && (before.isActive.Some? ==> Readable(after) == Readable(before))
      && ShownActive(after) == active
  {
  }

  // An update or a delete reaches only the user named, only in the company named.
  lemma ChangesOneUser(db: Tables, u: UserId, company: string, active: Option<bool>, v: UserId)
    requires v in db.users && (v != u || db.users[v].company != company)
    ensures var db' := Update(db, u, company, active); v in db'.users && db'.users[v] == db.users[v] && db'.tokens == db.tokens
    ensures Delete(db, u, company).Ok? ==>
      (var db' := Delete(db, u, company).value; v in db'.users && db'.users[v] == db.users[v] && db'.tokens == db.tokens)
  {
  }

  // A deleted user is neither read nor shown as active, and only a user of the company can be
  // deleted.
  lemma DeletedIsGone(db: Tables, u: UserId, company: string)
    ensures Delete(db, u, company).Ok? <==> u in db.users && db.users[u].company == company
    ensures Delete(db, u, company).Ok? ==>
      (var db' := Delete(db, u, company).value; GetByID(db', u).None? && !ShownActive(db'.users[u]))
  {
  }

  // A user is created exactly when no row of the company has the email; it is then found by
  // id, by email and by sub, shown as active, and stays found whatever updates follow.
  lemma CreatedIsFound(db: Tables, u: UserId, company: string, email: string, provider: string, sub: string, active: bool)
    requires u !in db.users
    ensures Create(db, u, company, email, provider, sub).Ok? <==>
            forall v :: v in db.users ==> db.users[v].company != company || db.users[v].email != email
    ensures Create(db, u, company, email, provider, sub).Ok? ==>
      (var db' := Create(db, u, company, email, provider, sub).value;
       && GetByID(db', u).Some? && HasEmail(db', u, email) && HasSub(db', u, provider, sub) && ShownActive(db'.users[u])
       && GetByID(Update(db', u, company, Some(active)), u).Some?
       && db'.users - {u} == db.users && db'.tokens == db.tokens)
  {
    if Create(db, u, company, email, provider, sub).Ok? {
      assert forall v :: v in db.users && db.users[v].company == company && db.users[v].email == email ==> EmailTaken(db, company, email);
    }
  }
}
