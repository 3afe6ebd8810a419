// Two refresh calls with one token, without the browser's single flight: which interleavings
// of their steps let both be accepted.
module OverlappingCalls {
  import opened AuthTables
  import opened AuthServer
  import T = TokenRotation

  datatype Side = First | Second

  datatype Pair = Pair(server: Server, first: T.Call, second: T.Call)

  function Turn(p: Pair, side: Side, a: Env, b: Env): Pair {
    match side
    case First => var (s, c) := T.Advance(p.server, p.first, a); Pair(s, c, p.second)
    case Second => var (s, c) := T.Advance(p.server, p.second, b); Pair(s, p.first, c)
  }

  function Play(p: Pair, schedule: seq<Side>, a: Env, b: Env): Pair
    decreases |schedule|
  {
    if schedule == [] then p else Play(Turn(p, schedule[0], a, b), schedule[1..], a, b)
  }

  function Turns(schedule: seq<Side>, side: Side): nat {
    if schedule == [] then 0 else (if schedule[0] == side then 1 else 0) + Turns(schedule[1..], side)
  }

  // How many turns the first call takes before the second takes its first, the lookup.
  function Lead(schedule: seq<Side>): nat {
    if schedule == [] || schedule[0] == Second then 0 else 1 + Lead(schedule[1..])
  }

  // Only revokes may fail.
  predicate RevokeMayFail(env: Env) {
    env.tokenReadOk && env.userReadOk && env.signOk && env.storeOk
  }

  // ---- One after the other ---------------------------------------------------------------------

  lemma OneTurn(p: Pair, side: Side, rest: seq<Side>, a: Env, b: Env)
    ensures Play(p, [side] + rest, a, b) == Play(Turn(p, side, a, b), rest, a, b)
  {
    assert ([side] + rest)[1..] == rest;
  }

  lemma FourTurns(p: Pair, side: Side, rest: seq<Side>, a: Env, b: Env)
    ensures Play(p, [side, side, side, side] + rest, a, b) ==
            Play(Turn(Turn(Turn(Turn(p, side, a, b), side, a, b), side, a, b), side, a, b), rest, a, b)
  {
    var p1 := Turn(p, side, a, b);
    var p2 := Turn(p1, side, a, b);
    var p3 := Turn(p2, side, a, b);
    assert [side, side, side, side] + rest == [side] + ([side] + ([side] + ([side] + rest)));
    OneTurn(p, side, [side] + ([side] + ([side] + rest)), a, b);
    OneTurn(p1, side, [side] + ([side] + rest), a, b);
    OneTurn(p2, side, [side] + rest, a, b);
    OneTurn(p3, side, rest, a, b);
  }

  lemma FirstFinishes(p: Pair, a: Env, b: Env)
    ensures Turn(Turn(Turn(Turn(p, First, a, b), First, a, b), First, a, b), First, a, b) ==
            Pair(T.Finish(p.server, p.first, a).0, T.Finish(p.server, p.first, a).1, p.second)
  {
  }

  lemma SecondFinishes(p: Pair, a: Env, b: Env)
    ensures Turn(Turn(Turn(Turn(p, Second, a, b), Second, a, b), Second, a, b), Second, a, b) ==
            Pair(T.Finish(p.server, p.second, b).0, p.first, T.Finish(p.server, p.second, b).1)
  {
  }

  // Without overlap two calls are two refresh operations, the second on what the first left.
  lemma WithoutOverlap(s: Server, t: Token, a: Env, b: Env)
    ensures
      var (s1, first) := RefreshTokens(s, t, a);
      var (s2, second) := RefreshTokens(s1, t, b);
      Play(Pair(s, T.Call(t, T.Arrived), T.Call(t, T.Arrived)), [First, First, First, First] + [Second, Second, Second, Second], a, b)
        == Pair(s2, T.Call(t, T.Replied(T.ReplyTo(first))), T.Call(t, T.Replied(T.ReplyTo(second))))
  {
    var p := Pair(s, T.Call(t, T.Arrived), T.Call(t, T.Arrived));
    T.StepsComposeToRefresh(s, t, a);
    T.StepsComposeToRefresh(RefreshTokens(s, t, a).0, t, b);
    FourTurns(p, First, [Second, Second, Second, Second], a, b);
    FirstFinishes(p, a, b);
    var q := Pair(T.Finish(s, p.first, a).0, T.Finish(s, p.first, a).1, p.second);
    assert [Second, Second, Second, Second] + [] == [Second, Second, Second, Second];
    FourTurns(q, Second, [], a, b);
    SecondFinishes(q, a, b);
  }

  // ---- After both lookups ----------------------------------------------------------------------

  // An accepted call under way, or its reply with a live token that is not t.
  predicate Accepted(s: Server, t: Token, u: UserId, c: T.Call) {
    && c.token == t
    && match c.phase
       case Looked(v) => v == u
       case Revoked(v) => v == u
       case Found(v) => v == u
       case Replied(Ok(n)) => n != t && Live(s.db, n) && n.Minted? && n.id < s.minted
       case _ => false
  }

  predicate Rejected(c: T.Call) {
    c.phase == T.Replied(Err(TokenRevoked))
  }

  predicate Underway(p: Pair, t: Token, u: UserId) {
    && (t.Minted? ==> t.id < p.server.minted) && GetByID(p.server.db, u).Some?
    && Accepted(p.server, t, u, p.first)
    && (Accepted(p.server, t, u, p.second) || Rejected(p.second))
    && (p.first.phase.Replied? && p.second.phase.Replied? ==> p.first.phase != p.second.phase)
  }

  function Left(c: T.Call): nat {
    match c.phase
    case Arrived => 4
    case Looked(_) => 3
    case Revoked(_) => 2
    case Found(_) => 1
    case Replied(_) => 0
  }

  lemma TurnStaysUnderway(p: Pair, side: Side, a: Env, b: Env, t: Token, u: UserId)
    requires Underway(p, t, u) && RevokeMayFail(a) && RevokeMayFail(b)
    ensures
      var q := Turn(p, side, a, b);
      && Underway(q, t, u) && (Rejected(q.second) <==> Rejected(p.second))
      && Left(q.first) == (if side.First? && Left(p.first) > 0 then Left(p.first) - 1 else Left(p.first))
      && Left(q.second) == (if side.Second? && Left(p.second) > 0 then Left(p.second) - 1 else Left(p.second))
  {
  }

  lemma {:induction false} PlayEnds(p: Pair, schedule: seq<Side>, a: Env, b: Env, t: Token, u: UserId)
    requires Underway(p, t, u) && RevokeMayFail(a) && RevokeMayFail(b)
    requires Turns(schedule, First) >= Left(p.first) && Turns(schedule, Second) >= Left(p.second)
    ensures
      var q := Play(p, schedule, a, b);
      && Underway(q, t, u) && (Rejected(q.second) <==> Rejected(p.second))
      && q.first.phase.Replied? && q.second.phase.Replied?
    decreases |schedule|
  {
    if schedule != [] {
      TurnStaysUnderway(p, schedule[0], a, b, t, u);
      PlayEnds(Turn(p, schedule[0], a, b), schedule[1..], a, b, t, u);
    }
  }

  // ---- Before the second lookup ----------------------------------------------------------------

  // The first call has taken k turns; t is still live unless its revoke was one of them and
  // went through.
  predicate Leading(p: Pair, t: Token, u: UserId, k: nat, a: Env, b: Env) {
    && (t.Minted? ==> t.id < p.server.minted) && GetByID(p.server.db, u).Some?
    && p.second == T.Call(t, T.Arrived)
    && (if k == 0 then p.first == T.Call(t, T.Arrived) else Accepted(p.server, t, u, p.first))
    && Left(p.first) == (if k <= 4 then 4 - k else 0)
    && t in p.server.db.tokens && p.server.db.tokens[t].user == u
    && a.now <= p.server.db.tokens[t].expiresAt && b.now <= p.server.db.tokens[t].expiresAt
    && (Live(p.server.db, t) <==> k < 2 || !a.revokeOk)
  }

  lemma FirstTurnKeepsLeading(p: Pair, t: Token, u: UserId, k: nat, a: Env, b: Env)
    requires Leading(p, t, u, k, a, b) && RevokeMayFail(a)
    ensures Leading(Turn(p, First, a, b), t, u, k + 1, a, b)
  {
  }

  lemma SecondLookup(p: Pair, t: Token, u: UserId, k: nat, a: Env, b: Env)
    requires Leading(p, t, u, k, a, b) && k > 0 && RevokeMayFail(b)
    ensures
      var q := Turn(p, Second, a, b);
      && Underway(q, t, u) && (Rejected(q.second) <==> k >= 2 && a.revokeOk)
      && q.first == p.first && Left(q.second) <= 3
  {
  }

  lemma {:induction false} LeadDecides(p: Pair, schedule: seq<Side>, a: Env, b: Env, t: Token, u: UserId, k: nat)
    requires Leading(p, t, u, k, a, b) && RevokeMayFail(a) && RevokeMayFail(b)
    requires k > 0 || (schedule != [] && schedule[0] == First)
    requires Turns(schedule, First) >= Left(p.first) && Turns(schedule, Second) >= 4
    ensures
      var q := Play(p, schedule, a, b);
      && Underway(q, t, u) && q.first.phase.Replied? && q.second.phase.Replied?
      && (Rejected(q.second) <==> k + Lead(schedule) >= 2 && a.revokeOk)
    decreases |schedule|
  {
    if schedule[0] == First {
      FirstTurnKeepsLeading(p, t, u, k, a, b);
      LeadDecides(Turn(p, First, a, b), schedule[1..], a, b, t, u, k + 1);
    } else {
      SecondLookup(p, t, u, k, a, b);
      PlayEnds(Turn(p, Second, a, b), schedule[1..], a, b, t, u);
    }
  }

  // Of two calls with one live token, in every interleaving of their steps, the one looked up
  // first is accepted, and the other is exactly when its lookup precedes the first one's
  // revoke or that revoke fails; then the login has two live tokens, and otherwise the second
  // is refused as revoked.
  lemma {:induction false} BothAcceptedIff(s: Server, t: Token, schedule: seq<Side>, a: Env, b: Env)
    requires Lookup(s.db, t, a.now).Ok? && Lookup(s.db, t, b.now).Ok? && GetByID(s.db, s.db.tokens[t].user).Some?
    requires (t.Minted? ==> t.id < s.minted) && RevokeMayFail(a) && RevokeMayFail(b)
    requires schedule != [] && schedule[0] == First && Turns(schedule, First) >= 4 && Turns(schedule, Second) >= 4
    ensures
      var q := Play(Pair(s, T.Call(t, T.Arrived), T.Call(t, T.Arrived)), schedule, a, b);
      && q.first.phase.Replied? && q.second.phase.Replied?
      && var x, y := q.first.phase.result, q.second.phase.result;
         && x.Ok? && Live(q.server.db, x.value)
         && (y.Ok? <==> Lead(schedule) == 1 || !a.revokeOk)
         && (if y.Ok? then Live(q.server.db, y.value) && y.value != x.value else y == Err(TokenRevoked))
  {
    LeadDecides(Pair(s, T.Call(t, T.Arrived), T.Call(t, T.Arrived)), schedule, a, b, t, s.db.tokens[t].user, 0);
  }
}
