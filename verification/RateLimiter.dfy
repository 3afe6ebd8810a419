// The sliding-window limiter: a script over one sorted set a key, which prunes old
// entries, counts the rest and inserts the new one, and gives the whole key a deadline.
module RateLimiter {
  import opened Common

  // A member is written as the call's time and a random suffix; its score is that time.
  type Member = (nat, nat)

  datatype Entry = Entry(members: set<Member>, expiresAt: Option<int>)

  type Keyspace = map<string, Entry>

  datatype Limits = Limits(window: int, maxRequests: int)

  // One run of the script: the server's clock, the caller's clock, the random suffix.
  datatype Call = Call(key: string, clock: int, now: nat, suffix: nat)

  datatype Answer = Answer(allowed: bool, remaining: int)

  // ---- The commands, at the server's clock --------------------------------------------

  predicate Expired(e: Entry, clock: int) {
    e.expiresAt.Some? && e.expiresAt.value < clock
  }

  function Purge(db: Keyspace, key: string, clock: int): Keyspace {
    if key in db && Expired(db[key], clock) then db - {key} else db
  }

  function Outside(ms: set<Member>, lo: int, hi: int): set<Member> {
    set m | m in ms && !(lo <= m.0 <= hi)
  }

  function ZRemRangeByScore(db: Keyspace, key: string, lo: int, hi: int): Keyspace {
    if key !in db then db
    else
      var rest := Outside(db[key].members, lo, hi);
      if rest == {} then db - {key} else db[key := db[key].(members := rest)]
  }

  function Members(db: Keyspace, key: string): set<Member> {
    if key in db then db[key].members else {}
  }

  function ZCard(db: Keyspace, key: string): nat {
    |Members(db, key)|
  }

  function ZAdd(db: Keyspace, key: string, m: Member): Keyspace {
    if key in db then db[key := db[key].(members := db[key].members + {m})] else db[key := Entry({m}, None)]
  }

  function PExpire(db: Keyspace, key: string, ms: int, clock: int): Keyspace {
    if key !in db then db
    else if ms <= 0 then db - {key}
    else db[key := db[key].(expiresAt := Some(clock + ms))]
  }

  // What the script sees before it counts.
  function Pruned(db: Keyspace, l: Limits, c: Call): Keyspace {
    ZRemRangeByScore(Purge(db, c.key, c.clock), c.key, 0, c.now - l.window)
  }

  function Script(db: Keyspace, l: Limits, c: Call): (Keyspace, Answer) {
    var pruned := Pruned(db, l, c);
    var count := ZCard(pruned, c.key);
    if count < l.maxRequests then
      (PExpire(ZAdd(pruned, c.key, (c.now, c.suffix)), c.key, l.window, c.clock),
       Answer(true, l.maxRequests - count - 1))
    else
      (pruned, Answer(false, 0))
  }

  // ---- Histories -----------------------------------------------------------------------

  datatype Logged = Logged(call: Call, allowed: bool)

  predicate Admits(log: seq<Logged>, key: string, i: nat)
    requires i < |log|
  {
    log[i].allowed && log[i].call.key == key
  }

  function MemberAt(log: seq<Logged>, i: nat): Member
    requires i < |log|
  {
    (log[i].call.now, log[i].call.suffix)
  }

  predicate AdmittedAt(log: seq<Logged>, key: string, i: nat, lo: int, hi: int)
    requires i < |log|
  {
    Admits(log, key, i) && lo < log[i].call.now <= hi
  }

  // The members admitted for a key with a time in (lo, hi].
  function Admitted(log: seq<Logged>, key: string, lo: int, hi: int): set<Member> {
    set i | 0 <= i < |log| && AdmittedAt(log, key, i, lo, hi) :: MemberAt(log, i)
  }

  lemma AdmittedAppend(log: seq<Logged>, x: Logged, key: string, lo: int, hi: int)
    ensures Admitted(log + [x], key, lo, hi) ==
            Admitted(log, key, lo, hi) +
            (if x.allowed && x.call.key == key && lo < x.call.now <= hi then {(x.call.now, x.call.suffix)} else {})
  {
    var all := log + [x];
    var last := if x.allowed && x.call.key == key && lo < x.call.now <= hi then {(x.call.now, x.call.suffix)} else {};
    forall m ensures m in Admitted(all, key, lo, hi) <==> m in Admitted(log, key, lo, hi) + last {
      if m in Admitted(all, key, lo, hi) {
        var i :| 0 <= i < |all| && AdmittedAt(all, key, i, lo, hi) && MemberAt(all, i) == m;
        if i < |log| {
          assert AdmittedAt(log, key, i, lo, hi) && MemberAt(log, i) == m;
        }
      }
      if m in Admitted(log, key, lo, hi) {
        var i :| 0 <= i < |log| && AdmittedAt(log, key, i, lo, hi) && MemberAt(log, i) == m;
        assert AdmittedAt(all, key, i, lo, hi) && MemberAt(all, i) == m;
      }
      if m in last {
        assert AdmittedAt(all, key, |log|, lo, hi) && MemberAt(all, |log|) == m;
      }
    }
  }

  // By call j the entry of call i has been pruned, or its key has expired or been given a
  // deadline already past.
  predicate GoneBy(log: seq<Logged>, l: Limits, i: nat, j: nat)
    requires i < |log| && j < |log|
  {
    && i <= j && log[i].call.key == log[j].call.key
    && (l.window <= 0 || log[i].call.now + l.window <= log[j].call.now || log[i].call.clock + l.window < log[j].call.clock)
  }

  ghost predicate Gone(log: seq<Logged>, l: Limits, i: nat)
    requires i < |log|
  {
    exists j :: i <= j < |log| && GoneBy(log, l, i, j)
  }

  // The entry of call i is in the sorted set, and the key lives at least a window longer.
  predicate Stored(db: Keyspace, log: seq<Logged>, l: Limits, i: nat)
    requires i < |log|
  {
    var key := log[i].call.key;
    && key in db && MemberAt(log, i) in db[key].members
    && db[key].expiresAt.Some? && log[i].call.clock + l.window <= db[key].expiresAt.value
  }

  ghost predicate FromLog(log: seq<Logged>, key: string, m: Member) {
    exists i :: 0 <= i < |log| && Admits(log, key, i) && MemberAt(log, i) == m
  }

  ghost predicate OnlyLogged(db: Keyspace, log: seq<Logged>) {
    forall key, m :: key in db && m in db[key].members ==> FromLog(log, key, m)
  }

  ghost predicate NoneLost(db: Keyspace, log: seq<Logged>, l: Limits) {
    forall i :: 0 <= i < |log| && log[i].allowed ==> Stored(db, log, l, i) || Gone(log, l, i)
  }

  ghost predicate Agrees(db: Keyspace, log: seq<Logged>, l: Limits) {
    OnlyLogged(db, log) && NoneLost(db, log, l)
  }

  // The server's clock does not run backwards.
  ghost predicate ClockReached(log: seq<Logged>, c: Call) {
    forall i :: 0 <= i < |log| ==> log[i].call.clock <= c.clock
  }

  // ---- One run of the script ----------------------------------------------------------

  lemma PrunedMembers(db: Keyspace, l: Limits, c: Call)
    ensures forall m :: m in Members(Pruned(db, l, c), c.key) <==>
              c.key in db && !Expired(db[c.key], c.clock) && m in db[c.key].members && c.now - l.window < m.0
    ensures forall key :: key != c.key ==> (key in Pruned(db, l, c) <==> key in db)
    ensures forall key :: key != c.key && key in db ==> Pruned(db, l, c)[key] == db[key]
    ensures c.key in Pruned(db, l, c) ==> c.key in db && Pruned(db, l, c)[c.key].expiresAt == db[c.key].expiresAt
  {
  }

  // A window of no whole millisecond keeps nothing: an admitted call leaves no entry, so no
  // call is ever counted against the limit.
  lemma NoWindowNoEntry(db: Keyspace, l: Limits, c: Call)
    requires l.window <= 0 && Script(db, l, c).1.allowed
    ensures c.key !in Script(db, l, c).0
  {
  }

  lemma ScriptKeepsOnlyLogged(db: Keyspace, log: seq<Logged>, l: Limits, c: Call)
    requires OnlyLogged(db, log)
    ensures OnlyLogged(Script(db, l, c).0, log + [Logged(c, Script(db, l, c).1.allowed)])
  {
    PrunedMembers(db, l, c);
    var (db', answer) := Script(db, l, c);
    var log' := log + [Logged(c, answer.allowed)];
    forall key, m | key in db' && m in db'[key].members ensures FromLog(log', key, m) {
      if m in Members(db, key) {
        assert FromLog(log, key, m);
        var i :| 0 <= i < |log| && Admits(log, key, i) && MemberAt(log, i) == m;
        assert Admits(log', key, i) && MemberAt(log', i) == m;
      } else {
        assert Admits(log', key, |log|) && MemberAt(log', |log|) == m;
      }
    }
  }

  lemma GoneStays(log: seq<Logged>, x: Logged, l: Limits, i: nat)
    requires i < |log| && Gone(log, l, i)
    ensures Gone(log + [x], l, i)
  {
    var j :| i <= j < |log| && GoneBy(log, l, i, j);
    assert GoneBy(log + [x], l, i, j);
  }

  lemma ScriptKeepsStored(db: Keyspace, log: seq<Logged>, l: Limits, c: Call, i: nat)
    requires i < |log| && ClockReached(log, c) && Stored(db, log, l, i)
    ensures
      var log' := log + [Logged(c, Script(db, l, c).1.allowed)];
      Stored(Script(db, l, c).0, log', l, i) || GoneBy(log', l, i, |log|)
  {
    PrunedMembers(db, l, c);
    var log' := log + [Logged(c, Script(db, l, c).1.allowed)];
    if log[i].call.key == c.key && !GoneBy(log', l, i, |log|) {
      assert MemberAt(log, i) in Members(Pruned(db, l, c), c.key);
    }
  }

  lemma ScriptStoresNew(db: Keyspace, log: seq<Logged>, l: Limits, c: Call)
    requires Script(db, l, c).1.allowed
    ensures
      var log' := log + [Logged(c, true)];
      Stored(Script(db, l, c).0, log', l, |log|) || GoneBy(log', l, |log|, |log|)
  {
  }

  lemma ScriptKeepsAgreement(db: Keyspace, log: seq<Logged>, l: Limits, c: Call)
    requires Agrees(db, log, l) && ClockReached(log, c)
    ensures Agrees(Script(db, l, c).0, log + [Logged(c, Script(db, l, c).1.allowed)], l)
  {
    ScriptKeepsOnlyLogged(db, log, l, c);
    var (db', answer) := Script(db, l, c);
    var log' := log + [Logged(c, answer.allowed)];
    forall i | 0 <= i < |log'| && log'[i].allowed ensures Stored(db', log', l, i) || Gone(log', l, i) {
      if i == |log| {
        ScriptStoresNew(db, log, l, c);
      } else if Gone(log, l, i) {
        GoneStays(log, Logged(c, answer.allowed), l, i);
      } else {
        ScriptKeepsStored(db, log, l, c, i);
      }
    }
  }

  // ---- Refinement of the window over the full history, one monotone clock ---------------

  // Every call so far, and this one, read the same clock, which has not run backwards.
  ghost predicate OneClock(log: seq<Logged>, c: Call) {
    && c.now == c.clock
    && forall i :: 0 <= i < |log| ==> log[i].call.now == log[i].call.clock && log[i].call.clock <= c.clock
  }

  lemma NotGone(log: seq<Logged>, l: Limits, c: Call, i: nat)
    requires i < |log| && OneClock(log, c) && c.now - l.window < log[i].call.now
    ensures !Gone(log, l, i)
  {
  }

  // What the script counts is what the history says was admitted in the window.
  lemma CountIsWindow(db: Keyspace, log: seq<Logged>, l: Limits, c: Call)
    requires Agrees(db, log, l) && OneClock(log, c)
    ensures Members(Pruned(db, l, c), c.key) == Admitted(log, c.key, c.now - l.window, c.now)
  {
    PrunedMembers(db, l, c);
    var kept, window := Members(Pruned(db, l, c), c.key), Admitted(log, c.key, c.now - l.window, c.now);
    forall m | m in kept ensures m in window {
      assert FromLog(log, c.key, m);
      var i :| 0 <= i < |log| && Admits(log, c.key, i) && MemberAt(log, i) == m;
      assert AdmittedAt(log, c.key, i, c.now - l.window, c.now);
    }
    forall m | m in window ensures m in kept {
      var i :| 0 <= i < |log| && AdmittedAt(log, c.key, i, c.now - l.window, c.now) && MemberAt(log, i) == m;
      NotGone(log, l, c, i);
      assert Stored(db, log, l, i);
    }
  }

  // The specification: allow exactly when fewer than maxRequests members were admitted
  // in (now - window, now].
  function SpecAnswer(log: seq<Logged>, l: Limits, c: Call): Answer {
    var count := |Admitted(log, c.key, c.now - l.window, c.now)|;
    if count < l.maxRequests then Answer(true, l.maxRequests - count - 1) else Answer(false, 0)
  }

  lemma ScriptMeetsSpec(db: Keyspace, log: seq<Logged>, l: Limits, c: Call)
    requires Agrees(db, log, l) && OneClock(log, c)
    ensures Script(db, l, c).1 == SpecAnswer(log, l, c)
  {
    CountIsWindow(db, log, l, c);
  }

  function ScriptRun(db: Keyspace, l: Limits, calls: seq<Call>): seq<Answer>
    decreases |calls|
  {
    if calls == [] then []
    else [Script(db, l, calls[0]).1] + ScriptRun(Script(db, l, calls[0]).0, l, calls[1..])
  }

  function SpecRun(log: seq<Logged>, l: Limits, calls: seq<Call>): seq<Answer>
    decreases |calls|
  {
    if calls == [] then []
    else
      var answer := SpecAnswer(log, l, calls[0]);
      [answer] + SpecRun(log + [Logged(calls[0], answer.allowed)], l, calls[1..])
  }

  // The calls read one clock, which does not run backwards.
  ghost predicate SingleClock(calls: seq<Call>) {
    && (forall i :: 0 <= i < |calls| ==> calls[i].now == calls[i].clock)
    && (forall i, j :: 0 <= i < j < |calls| ==> calls[i].clock <= calls[j].clock)
  }

  lemma {:induction false} RunRefinesFrom(db: Keyspace, log: seq<Logged>, l: Limits, calls: seq<Call>)
    requires Agrees(db, log, l) && SingleClock(calls)
    requires forall i :: 0 <= i < |calls| ==> OneClock(log, calls[i])
    ensures ScriptRun(db, l, calls) == SpecRun(log, l, calls)
    decreases |calls|
  {
    if calls != [] {
      var c := calls[0];
      ScriptMeetsSpec(db, log, l, c);
      ScriptKeepsAgreement(db, log, l, c);
      RunRefinesFrom(Script(db, l, c).0, log + [Logged(c, Script(db, l, c).1.allowed)], l, calls[1..]);
    }
  }

  // With one monotone clock the script answers every call of every run, over any keys, as
  // the specification over the full history does: pruning and expiry lose no counted entry.
  lemma LimiterRefinesHistory(l: Limits, calls: seq<Call>)
    requires SingleClock(calls)
    ensures ScriptRun(map[], l, calls) == SpecRun([], l, calls)
  {
    RunRefinesFrom(map[], [], l, calls);
  }

  // ---- Requests and members ----------------------------------------------------------------

  // How many requests were admitted for a key with a time in (lo, hi].
  function AdmittedRequests(log: seq<Logged>, key: string, lo: int, hi: int): nat {
    if log == [] then 0
    else
      var x := log[|log| - 1];
      AdmittedRequests(log[..|log| - 1], key, lo, hi) +
      (if x.allowed && x.call.key == key && lo < x.call.now <= hi then 1 else 0)
  }

  // No two requests admitted in the interval wrote the same member.
  ghost predicate MembersDiffer(log: seq<Logged>, key: string, lo: int, hi: int) {
    forall i, j | 0 <= i < j < |log| ::
      AdmittedAt(log, key, i, lo, hi) && AdmittedAt(log, key, j, lo, hi) ==> MemberAt(log, i) != MemberAt(log, j)
  }

  lemma MembersDifferAppend(log: seq<Logged>, x: Logged, key: string, lo: int, hi: int)
    ensures MembersDiffer(log + [x], key, lo, hi) <==>
      && MembersDiffer(log, key, lo, hi)
      && (x.allowed && x.call.key == key && lo < x.call.now <= hi ==>
            (x.call.now, x.call.suffix) !in Admitted(log, key, lo, hi))
  {
    var all := log + [x];
    var n := |log|;
    var m := (x.call.now, x.call.suffix);
    assert forall i | 0 <= i < n ::
      MemberAt(all, i) == MemberAt(log, i) && AdmittedAt(all, key, i, lo, hi) == AdmittedAt(log, key, i, lo, hi);
    assert MemberAt(all, n) == m;
    if AdmittedAt(all, key, n, lo, hi) && m in Admitted(log, key, lo, hi) {
      var i :| 0 <= i < n && AdmittedAt(log, key, i, lo, hi) && MemberAt(log, i) == m;
      assert !MembersDiffer(all, key, lo, hi);
    }
  }

  // The set counts the requests of an interval exactly when their members differ; it never
  // counts more.
  lemma {:induction false} SetCountsRequests(log: seq<Logged>, key: string, lo: int, hi: int)
    ensures |Admitted(log, key, lo, hi)| <= AdmittedRequests(log, key, lo, hi)
    ensures |Admitted(log, key, lo, hi)| == AdmittedRequests(log, key, lo, hi) <==> MembersDiffer(log, key, lo, hi)
    decreases |log|
  {
    if log == [] {
      assert Admitted(log, key, lo, hi) == {};
    } else {
      var rest, x := log[..|log| - 1], log[|log| - 1];
      assert log == rest + [x];
      SetCountsRequests(rest, key, lo, hi);
      AdmittedAppend(rest, x, key, lo, hi);
      MembersDifferAppend(rest, x, key, lo, hi);
    }
  }

  // The script's count is the number of requests admitted in the window exactly when no two
  // of them wrote the same member.
  lemma CountsRequestsIffMembersDiffer(db: Keyspace, log: seq<Logged>, l: Limits, c: Call)
    requires Agrees(db, log, l) && OneClock(log, c)
    ensures ZCard(Pruned(db, l, c), c.key) == AdmittedRequests(log, c.key, c.now - l.window, c.now)
            <==> MembersDiffer(log, c.key, c.now - l.window, c.now)
  {
    CountIsWindow(db, log, l, c);
    SetCountsRequests(log, c.key, c.now - l.window, c.now);
  }

  // The limit as documented, counting requests rather than members.
  function CountAnswer(log: seq<Logged>, l: Limits, c: Call): Answer {
    var count := AdmittedRequests(log, c.key, c.now - l.window, c.now);
    if count < l.maxRequests then Answer(true, l.maxRequests - count - 1) else Answer(false, 0)
  }

  function CountRun(log: seq<Logged>, l: Limits, calls: seq<Call>): seq<Answer>
    decreases |calls|
  {
    if calls == [] then []
    else
      var answer := CountAnswer(log, l, calls[0]);
      [answer] + CountRun(log + [Logged(calls[0], answer.allowed)], l, calls[1..])
  }

  predicate SameMember(a: Call, b: Call) {
    a.key == b.key && a.now == b.now && a.suffix == b.suffix
  }

  ghost predicate Unique(calls: seq<Call>) {
    forall i, j :: 0 <= i < j < |calls| ==> !SameMember(calls[i], calls[j])
  }

  ghost predicate UniqueAfter(log: seq<Logged>, calls: seq<Call>) {
    && Unique(calls)
    && (forall i, j :: 0 <= i < j < |log| ==> !SameMember(log[i].call, log[j].call))
    && (forall i, j :: 0 <= i < |log| && 0 <= j < |calls| ==> !SameMember(log[i].call, calls[j]))
  }

  lemma UniqueAdvances(log: seq<Logged>, calls: seq<Call>, allowed: bool)
    requires calls != [] && UniqueAfter(log, calls)
    ensures UniqueAfter(log + [Logged(calls[0], allowed)], calls[1..])
  {
  }

  lemma UniqueMembersDiffer(log: seq<Logged>, calls: seq<Call>, key: string, lo: int, hi: int)
    requires UniqueAfter(log, calls)
    ensures MembersDiffer(log, key, lo, hi)
  {
    forall i, j | 0 <= i < j < |log| && AdmittedAt(log, key, i, lo, hi) && AdmittedAt(log, key, j, lo, hi)
      ensures MemberAt(log, i) != MemberAt(log, j)
    {
      assert !SameMember(log[i].call, log[j].call);
    }
  }

  // The two ways of counting answer alike: the members in the window differ, or they alone
  // reach the limit.
  ghost predicate CountsAlike(log: seq<Logged>, l: Limits, c: Call) {
    MembersDiffer(log, c.key, c.now - l.window, c.now) || |Admitted(log, c.key, c.now - l.window, c.now)| >= l.maxRequests
  }

  lemma AnswersAgreeIff(log: seq<Logged>, l: Limits, c: Call)
    ensures SpecAnswer(log, l, c) == CountAnswer(log, l, c) <==> CountsAlike(log, l, c)
  {
    SetCountsRequests(log, c.key, c.now - l.window, c.now);
  }

  // So at every call of a run, in the history the run has then.
  ghost predicate AlwaysCountsAlike(log: seq<Logged>, l: Limits, calls: seq<Call>)
    decreases |calls|
  {
    calls == [] ||
    (CountsAlike(log, l, calls[0])
     && AlwaysCountsAlike(log + [Logged(calls[0], SpecAnswer(log, l, calls[0]).allowed)], l, calls[1..]))
  }

  lemma ClockAdvances(log: seq<Logged>, calls: seq<Call>, allowed: bool)
    requires calls != [] && SingleClock(calls)
    requires forall i :: 0 <= i < |calls| ==> OneClock(log, calls[i])
    ensures SingleClock(calls[1..])
    ensures forall i :: 0 <= i < |calls[1..]| ==> OneClock(log + [Logged(calls[0], allowed)], calls[1..][i])
  {
  }

  lemma {:induction false} SpecCountsFrom(log: seq<Logged>, l: Limits, calls: seq<Call>)
    ensures SpecRun(log, l, calls) == CountRun(log, l, calls) <==> AlwaysCountsAlike(log, l, calls)
    decreases |calls|
  {
    if calls != [] {
      var spec, count := SpecAnswer(log, l, calls[0]), CountAnswer(log, l, calls[0]);
      AnswersAgreeIff(log, l, calls[0]);
      assert SpecRun(log, l, calls)[0] == spec && CountRun(log, l, calls)[0] == count;
      if spec == count {
        var log' := log + [Logged(calls[0], spec.allowed)];
        SpecCountsFrom(log', l, calls[1..]);
        assert SpecRun(log, l, calls)[1..] == SpecRun(log', l, calls[1..]);
        assert CountRun(log, l, calls)[1..] == CountRun(log', l, calls[1..]);
      }
    }
  }

  lemma {:induction false} UniqueCountsAlike(log: seq<Logged>, l: Limits, calls: seq<Call>)
    requires UniqueAfter(log, calls)
    ensures AlwaysCountsAlike(log, l, calls)
    decreases |calls|
  {
    if calls != [] {
      var c, allowed := calls[0], SpecAnswer(log, l, calls[0]).allowed;
      UniqueMembersDiffer(log, calls, c.key, c.now - l.window, c.now);
      UniqueAdvances(log, calls, allowed);
      UniqueCountsAlike(log + [Logged(c, allowed)], l, calls[1..]);
    }
  }

  // With one monotone clock, in every run: the script answers as a count of the requests
  // admitted in (now - window, now] would exactly when at every call the members in the window
  // differ or reach the limit by themselves; so it does when no two calls write one member.
  lemma {:induction false} LimiterCountsRequests(l: Limits, calls: seq<Call>)
    requires SingleClock(calls)
    ensures ScriptRun(map[], l, calls) == CountRun([], l, calls) <==> AlwaysCountsAlike([], l, calls)
    ensures Unique(calls) ==> ScriptRun(map[], l, calls) == CountRun([], l, calls)
  {
    LimiterRefinesHistory(l, calls);
    SpecCountsFrom([], l, calls);
    if Unique(calls) {
      UniqueCountsAlike([], l, calls);
    }
  }

  // n calls that all write one member.
  function Repeated(c: Call, n: nat): seq<Call> {
    seq(n, i => c)
  }

  // The key holds at most the one member, and has not expired.
  ghost predicate HoldsOnly(db: Keyspace, c: Call) {
    Members(db, c.key) <= {(c.now, c.suffix)} && (c.key in db ==> !Expired(db[c.key], c.clock))
  }

  lemma RepeatPasses(db: Keyspace, l: Limits, c: Call) returns (db': Keyspace)
    requires 2 <= l.maxRequests && 0 < l.window && HoldsOnly(db, c)
    ensures db' == Script(db, l, c).0 && Script(db, l, c).1.allowed && HoldsOnly(db', c)
  {
    db' := Script(db, l, c).0;
    PrunedMembers(db, l, c);
    SubsetCardinality(Members(Pruned(db, l, c), c.key), {(c.now, c.suffix)});
  }

  predicate AllAllowed(answers: seq<Answer>) {
    forall i :: 0 <= i < |answers| ==> answers[i].allowed
  }

  lemma RepeatedRun(db: Keyspace, l: Limits, c: Call, n: nat)
    ensures ScriptRun(db, l, Repeated(c, 0)) == []
    ensures n > 0 ==> ScriptRun(db, l, Repeated(c, n)) == [Script(db, l, c).1] + ScriptRun(Script(db, l, c).0, l, Repeated(c, n - 1))
  {
    if n > 0 {
      assert Repeated(c, n)[1..] == Repeated(c, n - 1);
    }
  }

  lemma OneMoreAllowed(answer: Answer, rest: seq<Answer>)
    requires answer.allowed && AllAllowed(rest)
    ensures AllAllowed([answer] + rest)
  {
  }

  lemma {:induction false} RepeatsFrom(db: Keyspace, l: Limits, c: Call, n: nat)
    requires 2 <= l.maxRequests && 0 < l.window && HoldsOnly(db, c)
    ensures |ScriptRun(db, l, Repeated(c, n))| == n && AllAllowed(ScriptRun(db, l, Repeated(c, n)))
    decreases n
  {
    RepeatedRun(db, l, c, n);
    if n > 0 {
      var db' := RepeatPasses(db, l, c);
      RepeatsFrom(db', l, c, n - 1);
      OneMoreAllowed(Script(db, l, c).1, ScriptRun(db', l, Repeated(c, n - 1)));
    }
  }

  // Distinct members are needed: calls that share time and suffix are all allowed, however
  // many there are, as soon as the limit is at least two.
  lemma RepeatedMembersAllPass(l: Limits, c: Call, n: nat)
    requires 2 <= l.maxRequests && 0 < l.window
    ensures |ScriptRun(map[], l, Repeated(c, n))| == n && AllAllowed(ScriptRun(map[], l, Repeated(c, n)))
  {
    RepeatsFrom(map[], l, c, n);
  }

  // ---- Clocks that disagree -----------------------------------------------------------------

  // No caller's clock lags an earlier caller's of the same key by more than d, and a key that
  // has expired by the server's clock was last written at least window - d ago by the callers'
  // clocks.
  predicate SkewedPair(l: Limits, d: nat, a: Call, b: Call) {
    && a.clock <= b.clock
    && (a.key == b.key ==> a.now - d <= b.now && (a.clock + l.window < b.clock ==> a.now + l.window - d <= b.now))
  }

  ghost predicate Skewed(l: Limits, d: nat, calls: seq<Call>) {
    forall i, j :: 0 <= i < j < |calls| ==> SkewedPair(l, d, calls[i], calls[j])
  }

  ghost predicate SkewedLog(l: Limits, d: nat, log: seq<Logged>, c: Call) {
    && (forall i :: 0 <= i < |log| ==> SkewedPair(l, d, log[i].call, c))
    && (forall i, j :: 0 <= i < j < |log| ==> SkewedPair(l, d, log[i].call, log[j].call))
  }

  // Callers whose clocks stay within d of one another, each ahead of the server's clock by at
  // least a and at most a + d, satisfy the condition.
  lemma BoundedOffsetsAreSkewed(l: Limits, d: nat, a: int, calls: seq<Call>)
    requires forall i, j :: 0 <= i < j < |calls| ==> calls[i].clock <= calls[j].clock
    requires forall i :: 0 <= i < |calls| ==> calls[i].clock + a <= calls[i].now <= calls[i].clock + a + d
    ensures Skewed(l, d, calls)
  {
  }

  // A request admitted no more than window - d before this one's time is still counted.
  lemma RecentStillCounted(db: Keyspace, log: seq<Logged>, l: Limits, d: nat, c: Call, lo: int, i: nat)
    requires Agrees(db, log, l) && SkewedLog(l, d, log, c)
    requires i < |log| && AdmittedAt(log, c.key, i, lo, lo + l.window - d) && lo < c.now <= lo + l.window - d
    ensures MemberAt(log, i) in Members(Pruned(db, l, c), c.key)
  {
    PrunedMembers(db, l, c);
    assert SkewedPair(l, d, log[i].call, c);
    assert Stored(db, log, l, i);
  }

  function Cap(l: Limits): nat {
    if l.maxRequests < 0 then 0 else l.maxRequests
  }

  lemma CallKeepsCap(db: Keyspace, log: seq<Logged>, l: Limits, d: nat, c: Call, key: string, lo: int)
    requires Agrees(db, log, l) && SkewedLog(l, d, log, c)
    requires |Admitted(log, key, lo, lo + l.window - d)| <= Cap(l)
    ensures |Admitted(log + [Logged(c, Script(db, l, c).1.allowed)], key, lo, lo + l.window - d)| <= Cap(l)
  {
    var hi := lo + l.window - d;
    var answer := Script(db, l, c).1;
    AdmittedAppend(log, Logged(c, answer.allowed), key, lo, hi);
    if answer.allowed && c.key == key && lo < c.now <= hi {
      var kept := Members(Pruned(db, l, c), c.key);
      forall m | m in Admitted(log, key, lo, hi) ensures m in kept {
        var i :| 0 <= i < |log| && AdmittedAt(log, key, i, lo, hi) && MemberAt(log, i) == m;
        RecentStillCounted(db, log, l, d, c, lo, i);
      }
      SubsetCardinality(Admitted(log, key, lo, hi), kept);
    }
  }

  function LogRun(db: Keyspace, log: seq<Logged>, l: Limits, calls: seq<Call>): seq<Logged>
    decreases |calls|
  {
    if calls == [] then log
    else
      var (db', answer) := Script(db, l, calls[0]);
      LogRun(db', log + [Logged(calls[0], answer.allowed)], l, calls[1..])
  }

  lemma {:induction false} CapFrom(db: Keyspace, log: seq<Logged>, l: Limits, d: nat, calls: seq<Call>, key: string, lo: int)
    requires Agrees(db, log, l) && Skewed(l, d, calls)
    requires |Admitted(log, key, lo, lo + l.window - d)| <= Cap(l)
    requires forall i :: 0 <= i < |calls| ==> SkewedLog(l, d, log, calls[i])
    ensures |Admitted(LogRun(db, log, l, calls), key, lo, lo + l.window - d)| <= Cap(l)
    decreases |calls|
  {
    if calls != [] {
      var c := calls[0];
      var (db', answer) := Script(db, l, c);
      var log' := log + [Logged(c, answer.allowed)];
      ScriptKeepsAgreement(db, log, l, c);
      CallKeepsCap(db, log, l, d, c, key, lo);
      forall i | 0 <= i < |calls[1..]| ensures SkewedLog(l, d, log', calls[1..][i]) {
        assert SkewedPair(l, d, calls[0], calls[i + 1]);
        assert SkewedLog(l, d, log, calls[i + 1]);
      }
      CapFrom(db', log', l, d, calls[1..], key, lo);
    }
  }

  // The limit under clock skew: every half-open interval of window - d time units holds at
  // most maxRequests admitted members of a key, in every run.
  lemma {:induction false} SkewTolerantLimit(l: Limits, d: nat, calls: seq<Call>, key: string, lo: int)
    requires Skewed(l, d, calls)
    ensures |Admitted(LogRun(map[], [], l, calls), key, lo, lo + l.window - d)| <= Cap(l)
  {
    assert Admitted([], key, lo, lo + l.window - d) == {};
    CapFrom(map[], [], l, d, calls, key, lo);
  }

  lemma {:induction false} LoggedMembersDiffer(db: Keyspace, log: seq<Logged>, l: Limits, calls: seq<Call>, key: string, lo: int, hi: int)
    requires UniqueAfter(log, calls)
    ensures MembersDiffer(LogRun(db, log, l, calls), key, lo, hi)
    decreases |calls|
  {
    if calls == [] {
      UniqueMembersDiffer(log, calls, key, lo, hi);
    } else {
      var (db', answer) := Script(db, l, calls[0]);
      UniqueAdvances(log, calls, answer.allowed);
      LoggedMembersDiffer(db', log + [Logged(calls[0], answer.allowed)], l, calls[1..], key, lo, hi);
    }
  }

  // ---- Exactly when the limit is exceeded ----------------------------------------------------

  // The members of the interval that the script no longer counts, and the ones it counts
  // besides them.
  function Forgotten(db: Keyspace, log: seq<Logged>, l: Limits, c: Call, lo: int, hi: int): set<Member> {
    Admitted(log, c.key, lo, hi) - Members(Pruned(db, l, c), c.key)
  }

  function Others(db: Keyspace, log: seq<Logged>, l: Limits, c: Call, lo: int, hi: int): set<Member> {
    Members(Pruned(db, l, c), c.key) - Admitted(log, c.key, lo, hi)
  }

  // A full interval, a new member in it, and more members of it forgotten than others counted.
  predicate Overruns(db: Keyspace, log: seq<Logged>, l: Limits, c: Call, key: string, lo: int, hi: int) {
    && c.key == key && lo < c.now <= hi
    && (c.now, c.suffix) !in Admitted(log, key, lo, hi) && |Admitted(log, key, lo, hi)| == Cap(l)
    && |Forgotten(db, log, l, c, lo, hi)| > |Others(db, log, l, c, lo, hi)|
  }

  lemma SplitCardinality(a: set<Member>, b: set<Member>)
    ensures |a| - |a - b| == |b| - |b - a|
  {
    assert a == (a - b) + (a * b) && b == (b - a) + (a * b);
    assert |a| == |a - b| + |a * b| && |b| == |b - a| + |a * b|;
  }

  // One call pushes an interval over the limit exactly when it overruns, from any state.
  lemma OverrunIff(db: Keyspace, log: seq<Logged>, l: Limits, c: Call, key: string, lo: int, hi: int)
    requires |Admitted(log, key, lo, hi)| <= Cap(l)
    ensures |Admitted(log + [Logged(c, Script(db, l, c).1.allowed)], key, lo, hi)| > Cap(l) <==>
            Overruns(db, log, l, c, key, lo, hi)
  {
    var allowed := Script(db, l, c).1.allowed;
    AdmittedAppend(log, Logged(c, allowed), key, lo, hi);
    SplitCardinality(Admitted(log, c.key, lo, hi), Members(Pruned(db, l, c), c.key));
  }

  function DbRun(db: Keyspace, l: Limits, calls: seq<Call>): Keyspace
    decreases |calls|
  {
    if calls == [] then db else DbRun(Script(db, l, calls[0]).0, l, calls[1..])
  }

  // Some call of the run overruns the interval in the state it meets.
  predicate SomeOverrun(db: Keyspace, log: seq<Logged>, l: Limits, calls: seq<Call>, key: string, lo: int, hi: int)
    decreases |calls|
  {
    calls != [] &&
    (Overruns(db, log, l, calls[0], key, lo, hi)
     || SomeOverrun(Script(db, l, calls[0]).0, log + [Logged(calls[0], Script(db, l, calls[0]).1.allowed)], l, calls[1..], key, lo, hi))
  }

  lemma {:induction false} AdmittedGrows(db: Keyspace, log: seq<Logged>, l: Limits, calls: seq<Call>, key: string, lo: int, hi: int)
    ensures |Admitted(log, key, lo, hi)| <= |Admitted(LogRun(db, log, l, calls), key, lo, hi)|
    decreases |calls|
  {
    if calls != [] {
      var x := Logged(calls[0], Script(db, l, calls[0]).1.allowed);
      AdmittedAppend(log, x, key, lo, hi);
      SubsetCardinality(Admitted(log, key, lo, hi), Admitted(log + [x], key, lo, hi));
      AdmittedGrows(Script(db, l, calls[0]).0, log + [x], l, calls[1..], key, lo, hi);
    }
  }

  lemma {:induction false} ExceededFrom(db: Keyspace, log: seq<Logged>, l: Limits, calls: seq<Call>, key: string, lo: int, hi: int)
    requires |Admitted(log, key, lo, hi)| <= Cap(l)
    ensures |Admitted(LogRun(db, log, l, calls), key, lo, hi)| > Cap(l) <==> SomeOverrun(db, log, l, calls, key, lo, hi)
    decreases |calls|
  {
    if calls != [] {
      var x := Logged(calls[0], Script(db, l, calls[0]).1.allowed);
      OverrunIff(db, log, l, calls[0], key, lo, hi);
      if Overruns(db, log, l, calls[0], key, lo, hi) {
        AdmittedGrows(Script(db, l, calls[0]).0, log + [x], l, calls[1..], key, lo, hi);
      } else {
        ExceededFrom(Script(db, l, calls[0]).0, log + [x], l, calls[1..], key, lo, hi);
      }
    }
  }

  // In every run, for any clocks, limit and interval: more than maxRequests members are
  // admitted exactly when some call overruns.
  lemma {:induction false} LimitExceededIff(l: Limits, calls: seq<Call>, key: string, lo: int, hi: int)
    ensures |Admitted(LogRun(map[], [], l, calls), key, lo, hi)| > Cap(l) <==> SomeOverrun(map[], [], l, calls, key, lo, hi)
  {
    assert Admitted([], key, lo, hi) == {};
    ExceededFrom(map[], [], l, calls, key, lo, hi);
  }

  // ---- Forgetting is the work of the server's clock -----------------------------------------------

  // Callers of one key lag one another by at most d, and the server's clock does not run
  // backwards.
  ghost predicate LagAtMost(d: nat, calls: seq<Call>) {
    forall i, j :: 0 <= i < j < |calls| ==>
      calls[i].clock <= calls[j].clock && (calls[i].key == calls[j].key ==> calls[i].now - d <= calls[j].now)
  }

  ghost predicate LagLog(d: nat, log: seq<Logged>, c: Call) {
    && (forall i :: 0 <= i < |log| ==> log[i].call.clock <= c.clock && (log[i].call.key == c.key ==> log[i].call.now - d <= c.now))
    && (forall i, j :: 0 <= i < j < |log| ==> log[i].call.key == log[j].call.key ==> log[i].call.now - d <= log[j].call.now)
  }

  // A call that finds its key expired while members of the interval are in it.
  predicate Forgets(db: Keyspace, log: seq<Logged>, c: Call, key: string, lo: int, hi: int) {
    c.key == key && key in db && Expired(db[key], c.clock) && Admitted(log, key, lo, hi) != {}
  }

  // The members of the interval are all in the set, or no later call can fall into it.
  ghost predicate Intact(db: Keyspace, log: seq<Logged>, d: nat, key: string, lo: int, hi: int) {
    Admitted(log, key, lo, hi) <= Members(db, key) || Past(log, d, key, hi)
  }

  predicate Past(log: seq<Logged>, d: nat, key: string, hi: int) {
    exists i :: 0 <= i < |log| && log[i].call.key == key && hi < log[i].call.now - d
  }

  // While the interval's members are all in the set, a call pushes it over the limit exactly
  // when the key has expired, the interval is full and the call brings a new member to it.
  lemma OverrunIffHeld(db: Keyspace, log: seq<Logged>, l: Limits, d: nat, c: Call, key: string, lo: int)
    requires Admitted(log, key, lo, lo + l.window - d) <= Members(db, key)
    requires |Admitted(log, key, lo, lo + l.window - d)| <= Cap(l)
    ensures
      var hi := lo + l.window - d;
      |Admitted(log + [Logged(c, Script(db, l, c).1.allowed)], key, lo, hi)| > Cap(l) <==>
      && Forgets(db, log, c, key, lo, hi) && lo < c.now <= hi
      && |Admitted(log, key, lo, hi)| == Cap(l) && (c.now, c.suffix) !in Admitted(log, key, lo, hi)
  {
    var hi := lo + l.window - d;
    var inside, kept := Admitted(log, key, lo, hi), Members(Pruned(db, l, c), c.key);
    OverrunIff(db, log, l, c, key, lo, hi);
    PrunedMembers(db, l, c);
    if c.key == key && lo < c.now <= hi {
      if key in db && !Expired(db[key], c.clock) {
        forall m | m in inside ensures m in kept {
          assert lo < m.0;
        }
        assert Forgotten(db, log, l, c, lo, hi) == {};
      } else {
        assert kept == {};
        assert Others(db, log, l, c, lo, hi) == {} && Forgotten(db, log, l, c, lo, hi) == inside;
      }
    }
  }

  // Once callers are past the interval, none of them can fall into it.
  lemma OverrunIffExpired(db: Keyspace, log: seq<Logged>, l: Limits, d: nat, c: Call, key: string, lo: int)
    requires Intact(db, log, d, key, lo, lo + l.window - d) && LagLog(d, log, c)
    requires |Admitted(log, key, lo, lo + l.window - d)| <= Cap(l)
    ensures
      var hi := lo + l.window - d;
      |Admitted(log + [Logged(c, Script(db, l, c).1.allowed)], key, lo, hi)| > Cap(l) <==>
      && Forgets(db, log, c, key, lo, hi) && lo < c.now <= hi
      && |Admitted(log, key, lo, hi)| == Cap(l) && (c.now, c.suffix) !in Admitted(log, key, lo, hi)
  {
    if Past(log, d, key, lo + l.window - d) {
      OverrunIff(db, log, l, c, key, lo, lo + l.window - d);
    } else {
      OverrunIffHeld(db, log, l, d, c, key, lo);
    }
  }

  lemma ScriptMembers(db: Keyspace, l: Limits, c: Call)
    requires 0 < l.window
    ensures Members(Script(db, l, c).0, c.key) ==
            Members(Pruned(db, l, c), c.key) + (if Script(db, l, c).1.allowed then {(c.now, c.suffix)} else {})
    ensures forall key :: key != c.key ==> Members(Script(db, l, c).0, key) == Members(db, key)
  {
    PrunedMembers(db, l, c);
  }

  lemma NothingPruned(db: Keyspace, log: seq<Logged>, l: Limits, c: Call, lo: int, hi: int)
    requires Admitted(log, c.key, lo, hi) <= Members(db, c.key) && c.now <= lo + l.window
    requires !Forgets(db, log, c, c.key, lo, hi)
    ensures Admitted(log, c.key, lo, hi) <= Members(Pruned(db, l, c), c.key)
  {
    PrunedMembers(db, l, c);
    forall m | m in Admitted(log, c.key, lo, hi) ensures m in Members(Pruned(db, l, c), c.key) {
      assert lo < m.0;
    }
  }

  lemma PastStays(log: seq<Logged>, x: Logged, d: nat, key: string, hi: int)
    ensures Past(log, d, key, hi) || (x.call.key == key && hi < x.call.now - d) ==> Past(log + [x], d, key, hi)
  {
    if i :| 0 <= i < |log| && log[i].call.key == key && hi < log[i].call.now - d {
      assert (log + [x])[i] == log[i];
    } else {
      assert (log + [x])[|log|] == x;
    }
  }

  lemma AddedToBoth(inside: set<Member>, kept: set<Member>, added: set<Member>, stored: set<Member>)
    requires inside <= kept && added <= stored
    ensures inside + added <= kept + stored
  {
  }

  lemma OwnCallStaysInside(db: Keyspace, log: seq<Logged>, l: Limits, d: nat, c: Call, lo: int)
    requires Admitted(log, c.key, lo, lo + l.window - d) <= Members(db, c.key) && 0 < l.window
    requires !Forgets(db, log, c, c.key, lo, lo + l.window - d) && c.now <= lo + l.window
    ensures Admitted(log + [Logged(c, Script(db, l, c).1.allowed)], c.key, lo, lo + l.window - d) <= Members(Script(db, l, c).0, c.key)
  {
    var hi, allowed := lo + l.window - d, Script(db, l, c).1.allowed;
    AdmittedAppend(log, Logged(c, allowed), c.key, lo, hi);
    ScriptMembers(db, l, c);
    NothingPruned(db, log, l, c, lo, hi);
    AddedToBoth(Admitted(log, c.key, lo, hi), Members(Pruned(db, l, c), c.key),
                if allowed && lo < c.now <= hi then {(c.now, c.suffix)} else {}, if allowed then {(c.now, c.suffix)} else {});
  }

  lemma EmptyInterval(log: seq<Logged>, key: string, lo: int, hi: int)
    requires hi <= lo
    ensures Admitted(log, key, lo, hi) == {}
  {
  }

  lemma OtherCallStaysInside(db: Keyspace, log: seq<Logged>, l: Limits, c: Call, key: string, lo: int, hi: int)
    requires c.key != key && 0 < l.window
    ensures Admitted(log + [Logged(c, Script(db, l, c).1.allowed)], key, lo, hi) == Admitted(log, key, lo, hi)
    ensures Members(Script(db, l, c).0, key) == Members(db, key)
  {
    var x := Logged(c, Script(db, l, c).1.allowed);
    AdmittedAppend(log, x, key, lo, hi);
    assert Admitted(log, key, lo, hi) + {} == Admitted(log, key, lo, hi);
    ScriptMembers(db, l, c);
  }

  lemma InsideStays(db: Keyspace, log: seq<Logged>, l: Limits, d: nat, c: Call, key: string, lo: int)
    requires Admitted(log, key, lo, lo + l.window - d) <= Members(db, key)
    requires !Forgets(db, log, c, key, lo, lo + l.window - d) && (c.key == key ==> c.now <= lo + l.window)
    ensures Admitted(log + [Logged(c, Script(db, l, c).1.allowed)], key, lo, lo + l.window - d) <= Members(Script(db, l, c).0, key)
  {
    if l.window <= 0 {
      EmptyInterval(log + [Logged(c, Script(db, l, c).1.allowed)], key, lo, lo + l.window - d);
    } else if c.key == key {
      OwnCallStaysInside(db, log, l, d, c, lo);
    } else {
      OtherCallStaysInside(db, log, l, c, key, lo, lo + l.window - d);
    }
  }

  lemma StepKeepsIntact(db: Keyspace, log: seq<Logged>, l: Limits, d: nat, c: Call, key: string, lo: int)
    requires Intact(db, log, d, key, lo, lo + l.window - d) && !Forgets(db, log, c, key, lo, lo + l.window - d)
    ensures Intact(Script(db, l, c).0, log + [Logged(c, Script(db, l, c).1.allowed)], d, key, lo, lo + l.window - d)
  {
    var hi := lo + l.window - d;
    PastStays(log, Logged(c, Script(db, l, c).1.allowed), d, key, hi);
    if !Past(log, d, key, hi) && (c.key == key ==> c.now <= lo + l.window) {
      InsideStays(db, log, l, d, c, key, lo);
    }
  }

  // No call of the run forgets members of the interval.
  predicate NeverForgets(db: Keyspace, log: seq<Logged>, l: Limits, calls: seq<Call>, key: string, lo: int, hi: int)
    decreases |calls|
  {
    calls == [] ||
    (!Forgets(db, log, calls[0], key, lo, hi)
     && NeverForgets(Script(db, l, calls[0]).0, log + [Logged(calls[0], Script(db, l, calls[0]).1.allowed)], l, calls[1..], key, lo, hi))
  }

  lemma LagAdvances(d: nat, log: seq<Logged>, calls: seq<Call>, allowed: bool)
    requires calls != [] && LagAtMost(d, calls) && forall i :: 0 <= i < |calls| ==> LagLog(d, log, calls[i])
    ensures LagAtMost(d, calls[1..])
    ensures forall i :: 0 <= i < |calls[1..]| ==> LagLog(d, log + [Logged(calls[0], allowed)], calls[1..][i])
  {
    forall i | 0 <= i < |calls[1..]| ensures LagLog(d, log + [Logged(calls[0], allowed)], calls[1..][i]) {
      assert LagLog(d, log, calls[i + 1]) && LagLog(d, log, calls[0]);
    }
  }

  lemma {:induction false} IntactFrom(db: Keyspace, log: seq<Logged>, l: Limits, d: nat, calls: seq<Call>, key: string, lo: int)
    requires LagAtMost(d, calls) && forall i :: 0 <= i < |calls| ==> LagLog(d, log, calls[i])
    requires Intact(db, log, d, key, lo, lo + l.window - d) && |Admitted(log, key, lo, lo + l.window - d)| <= Cap(l)
    requires NeverForgets(db, log, l, calls, key, lo, lo + l.window - d)
    ensures Intact(DbRun(db, l, calls), LogRun(db, log, l, calls), d, key, lo, lo + l.window - d)
    ensures |Admitted(LogRun(db, log, l, calls), key, lo, lo + l.window - d)| <= Cap(l)
    decreases |calls|
  {
    if calls != [] {
      var c, allowed := calls[0], Script(db, l, calls[0]).1.allowed;
      OverrunIffExpired(db, log, l, d, c, key, lo);
      StepKeepsIntact(db, log, l, d, c, key, lo);
      LagAdvances(d, log, calls, allowed);
      IntactFrom(Script(db, l, c).0, log + [Logged(c, allowed)], l, d, calls[1..], key, lo);
    }
  }

  function Before(calls: seq<Call>, n: nat): seq<Call>
    requires n <= |calls|
  {
    calls[..n]
  }

  lemma {:induction false} LogOfRun(db: Keyspace, log: seq<Logged>, l: Limits, calls: seq<Call>)
    ensures |LogRun(db, log, l, calls)| == |log| + |calls|
    ensures forall i :: 0 <= i < |log| ==> LogRun(db, log, l, calls)[i] == log[i]
    ensures forall i :: 0 <= i < |calls| ==> LogRun(db, log, l, calls)[|log| + i].call == calls[i]
    decreases |calls|
  {
    if calls != [] {
      var x := Logged(calls[0], Script(db, l, calls[0]).1.allowed);
      LogOfRun(Script(db, l, calls[0]).0, log + [x], l, calls[1..]);
      forall i | 0 <= i < |calls| ensures LogRun(db, log, l, calls)[|log| + i].call == calls[i] {
        if i > 0 {
          assert calls[1..][i - 1] == calls[i];
        }
      }
    }
  }

  lemma {:induction false} LagOfRun(l: Limits, d: nat, calls: seq<Call>, n: nat)
    requires LagAtMost(d, calls) && n < |calls|
    ensures LagLog(d, LogRun(map[], [], l, Before(calls, n)), calls[n])
  {
    var log := LogRun(map[], [], l, Before(calls, n));
    LogOfRun(map[], [], l, Before(calls, n));
    assert forall i :: 0 <= i < n ==> log[0 + i].call == Before(calls, n)[i];
    assert forall i :: 0 <= i < n ==> log[i].call == calls[i];
  }

  // In every run whose callers of one key lag by at most d: up to the first call that forgets
  // members of an interval of window - d the limit holds in it, and that call exceeds it
  // exactly when the key has expired, the interval is full and its member is new to it.
  lemma {:induction false} FirstOverrunIff(l: Limits, d: nat, calls: seq<Call>, n: nat, key: string, lo: int)
    requires LagAtMost(d, calls) && n < |calls|
    requires NeverForgets(map[], [], l, Before(calls, n), key, lo, lo + l.window - d)
    ensures
      var hi := lo + l.window - d;
      var db, log, c := DbRun(map[], l, Before(calls, n)), LogRun(map[], [], l, Before(calls, n)), calls[n];
      && |Admitted(log, key, lo, hi)| <= Cap(l)
      && (|Admitted(log + [Logged(c, Script(db, l, c).1.allowed)], key, lo, hi)| > Cap(l) <==>
          && Forgets(db, log, c, key, lo, hi) && lo < c.now <= hi
          && |Admitted(log, key, lo, hi)| == Cap(l) && (c.now, c.suffix) !in Admitted(log, key, lo, hi))
  {
    var hi := lo + l.window - d;
    var before := Before(calls, n);
    assert forall i :: 0 <= i < n ==> before[i] == calls[i];
    assert Admitted([], key, lo, hi) == {};
    IntactFrom(map[], [], l, d, before, key, lo);
    LagOfRun(l, d, calls, n);
    OverrunIffExpired(DbRun(map[], l, before), LogRun(map[], [], l, before), l, d, calls[n], key, lo);
  }

  // Callers who lag by at most d exceed the limit in an interval of window - d only if the key
  // expired, by the server's clock, while members of the interval were in it.
  lemma {:induction false} LimitHoldsUnlessForgotten(l: Limits, d: nat, calls: seq<Call>, key: string, lo: int)
    requires LagAtMost(d, calls) && NeverForgets(map[], [], l, calls, key, lo, lo + l.window - d)
    ensures |Admitted(LogRun(map[], [], l, calls), key, lo, lo + l.window - d)| <= Cap(l)
  {
    assert Admitted([], key, lo, lo + l.window - d) == {};
    IntactFrom(map[], [], l, d, calls, key, lo);
  }

  // More than one member admitted with a time in (lo, lo + window - d].
  predicate Exceeds(l: Limits, d: nat, log: seq<Logged>, key: string, lo: int) {
    |Admitted(log, key, lo, lo + l.window - d)| > 1
  }

  function FirstEntry(l: Limits, a: Call): Keyspace {
    map[a.key := Entry({(a.now, a.suffix)}, Some(a.clock + l.window))]
  }

  lemma FirstAdmitted(l: Limits, a: Call)
    requires 0 < l.maxRequests && 0 < l.window
    ensures Script(map[], l, a).0 == FirstEntry(l, a) && Script(map[], l, a).1.allowed
  {
    assert Pruned(map[], l, a) == map[];
  }

  lemma PairLog(l: Limits, a: Call, b: Call)
    requires 0 < l.maxRequests && 0 < l.window
    ensures LogRun(map[], [], l, [a, b]) == [Logged(a, true)] + [Logged(b, Script(FirstEntry(l, a), l, b).1.allowed)]
  {
    FirstAdmitted(l, a);
    var db, log1 := FirstEntry(l, a), [Logged(a, true)];
    assert [a, b][1..] == [b] && [b][1..] == [] && [] + log1 == log1;
    assert LogRun(db, log1, l, [b]) == LogRun(Script(db, l, b).0, log1 + [Logged(b, Script(db, l, b).1.allowed)], l, []);
  }

  lemma PairExceeds(l: Limits, d: nat, a: Call, b: Call, lo: int)
    requires l.maxRequests == 1 && d < l.window && a.key == b.key
    ensures Exceeds(l, d, [Logged(a, true)] + [Logged(b, Script(FirstEntry(l, a), l, b).1.allowed)], a.key, lo) <==>
            && a.clock + l.window < b.clock && (a.now, a.suffix) != (b.now, b.suffix)
            && lo < a.now <= lo + l.window - d && lo < b.now <= lo + l.window - d
  {
    var hi, log1 := lo + l.window - d, [Logged(a, true)];
    AdmittedAppend([], Logged(a, true), a.key, lo, hi);
    assert Admitted([], a.key, lo, hi) == {} && [] + log1 == log1;
    assert Admitted(log1, a.key, lo, hi) == if lo < a.now <= hi then {(a.now, a.suffix)} else {};
    OverrunIffHeld(FirstEntry(l, a), log1, l, d, b, a.key, lo);
  }

  // The smallest case: two calls to a limit of one get two members admitted within window - d
  // exactly when the key expires by the server's clock in between and their members differ.
  lemma PairLimitIff(l: Limits, d: nat, a: Call, b: Call)
    requires l.maxRequests == 1 && d < l.window && a.key == b.key
    ensures (exists lo :: Exceeds(l, d, LogRun(map[], [], l, [a, b]), a.key, lo)) <==>
            && a.clock + l.window < b.clock && (a.now, a.suffix) != (b.now, b.suffix)
            && d - l.window < b.now - a.now < l.window - d
  {
    PairLog(l, a, b);
    var log := LogRun(map[], [], l, [a, b]);
    forall lo ensures Exceeds(l, d, log, a.key, lo) <==>
        && a.clock + l.window < b.clock && (a.now, a.suffix) != (b.now, b.suffix)
        && lo < a.now <= lo + l.window - d && lo < b.now <= lo + l.window - d
    {
      PairExceeds(l, d, a, b, lo);
    }
    if a.clock + l.window < b.clock && (a.now, a.suffix) != (b.now, b.suffix) && d - l.window < b.now - a.now < l.window - d {
      assert Exceeds(l, d, log, a.key, (if a.now < b.now then a.now else b.now) - 1);
    }
  }

  // With distinct members the bound is on admitted requests.
  lemma {:induction false} SkewTolerantRequestLimit(l: Limits, d: nat, calls: seq<Call>, key: string, lo: int)
    requires Skewed(l, d, calls) && Unique(calls)
    ensures AdmittedRequests(LogRun(map[], [], l, calls), key, lo, lo + l.window - d) <= Cap(l)
  {
    SkewTolerantLimit(l, d, calls, key, lo);
    LoggedMembersDiffer(map[], [], l, calls, key, lo, lo + l.window - d);
    SetCountsRequests(LogRun(map[], [], l, calls), key, lo, lo + l.window - d);
  }

  lemma RequestsAppend(log: seq<Logged>, x: Logged, key: string, lo: int, hi: int)
    ensures AdmittedRequests(log + [x], key, lo, hi) ==
            AdmittedRequests(log, key, lo, hi) + if x.allowed && x.call.key == key && lo < x.call.now <= hi then 1 else 0
  {
    assert (log + [x])[..|log|] == log;
  }

  lemma {:induction false} RequestsGrow(db: Keyspace, log: seq<Logged>, l: Limits, calls: seq<Call>, key: string, lo: int, hi: int)
    ensures AdmittedRequests(log, key, lo, hi) <= AdmittedRequests(LogRun(db, log, l, calls), key, lo, hi)
    decreases |calls|
  {
    if calls != [] {
      var x := Logged(calls[0], Script(db, l, calls[0]).1.allowed);
      RequestsAppend(log, x, key, lo, hi);
      RequestsGrow(Script(db, l, calls[0]).0, log + [x], l, calls[1..], key, lo, hi);
    }
  }

  // A call that falls into the interval when as many requests as the limit were admitted in
  // it, while the set counts fewer.
  predicate Undercounts(db: Keyspace, log: seq<Logged>, l: Limits, c: Call, key: string, lo: int, hi: int) {
    && c.key == key && lo < c.now <= hi
    && AdmittedRequests(log, key, lo, hi) == Cap(l) && ZCard(Pruned(db, l, c), key) < l.maxRequests
  }

  predicate SomeUndercount(db: Keyspace, log: seq<Logged>, l: Limits, calls: seq<Call>, key: string, lo: int, hi: int)
    decreases |calls|
  {
    calls != [] &&
    (Undercounts(db, log, l, calls[0], key, lo, hi)
     || SomeUndercount(Script(db, l, calls[0]).0, log + [Logged(calls[0], Script(db, l, calls[0]).1.allowed)], l, calls[1..], key, lo, hi))
  }

  lemma {:induction false} RequestsExceededFrom(db: Keyspace, log: seq<Logged>, l: Limits, calls: seq<Call>, key: string, lo: int, hi: int)
    requires AdmittedRequests(log, key, lo, hi) <= Cap(l)
    ensures AdmittedRequests(LogRun(db, log, l, calls), key, lo, hi) > Cap(l) <==> SomeUndercount(db, log, l, calls, key, lo, hi)
    decreases |calls|
  {
    if calls != [] {
      var x := Logged(calls[0], Script(db, l, calls[0]).1.allowed);
      RequestsAppend(log, x, key, lo, hi);
      if Undercounts(db, log, l, calls[0], key, lo, hi) {
        RequestsGrow(Script(db, l, calls[0]).0, log + [x], l, calls[1..], key, lo, hi);
      } else {
        RequestsExceededFrom(Script(db, l, calls[0]).0, log + [x], l, calls[1..], key, lo, hi);
      }
    }
  }

  // In every run, for any clocks, members, limit and interval: more than maxRequests requests
  // are admitted exactly when some call meets a full interval that the set undercounts; when
  // no two calls write one member, exactly when some call overruns.
  lemma {:induction false} RequestLimitExceededIff(l: Limits, calls: seq<Call>, key: string, lo: int, hi: int)
    ensures AdmittedRequests(LogRun(map[], [], l, calls), key, lo, hi) > Cap(l) <==> SomeUndercount(map[], [], l, calls, key, lo, hi)
    ensures Unique(calls) ==>
      (AdmittedRequests(LogRun(map[], [], l, calls), key, lo, hi) > Cap(l) <==> SomeOverrun(map[], [], l, calls, key, lo, hi))
  {
    RequestsExceededFrom(map[], [], l, calls, key, lo, hi);
    if Unique(calls) {
      LimitExceededIff(l, calls, key, lo, hi);
      LoggedMembersDiffer(map[], [], l, calls, key, lo, hi);
      SetCountsRequests(LogRun(map[], [], l, calls), key, lo, hi);
    }
  }

  // The same said of the history alone: as many requests as the limit in the interval, but
  // fewer different members in the window that ends now.
  predicate HistoryUndercounts(log: seq<Logged>, l: Limits, c: Call, key: string, lo: int, hi: int) {
    && c.key == key && lo < c.now <= hi
    && AdmittedRequests(log, key, lo, hi) == Cap(l) && |Admitted(log, key, c.now - l.window, c.now)| < l.maxRequests
  }

  predicate SomeHistoryUndercount(log: seq<Logged>, l: Limits, calls: seq<Call>, key: string, lo: int, hi: int)
    decreases |calls|
  {
    calls != [] &&
    (HistoryUndercounts(log, l, calls[0], key, lo, hi)
     || SomeHistoryUndercount(log + [Logged(calls[0], SpecAnswer(log, l, calls[0]).allowed)], l, calls[1..], key, lo, hi))
  }

  lemma {:induction false} UndercountsInHistory(db: Keyspace, log: seq<Logged>, l: Limits, calls: seq<Call>, key: string, lo: int, hi: int)
    requires Agrees(db, log, l) && SingleClock(calls)
    requires forall i :: 0 <= i < |calls| ==> OneClock(log, calls[i])
    ensures SomeUndercount(db, log, l, calls, key, lo, hi) <==> SomeHistoryUndercount(log, l, calls, key, lo, hi)
    decreases |calls|
  {
    if calls != [] {
      var c := calls[0];
      assert OneClock(log, c);
      var allowed := Script(db, l, c).1.allowed;
      CountIsWindow(db, log, l, c);
      ScriptMeetsSpec(db, log, l, c);
      ScriptKeepsAgreement(db, log, l, c);
      ClockAdvances(log, calls, allowed);
      UndercountsInHistory(Script(db, l, c).0, log + [Logged(c, allowed)], l, calls[1..], key, lo, hi);
    }
  }

  // With one monotone clock, in every run: a window (lo, lo + window] holds more than
  // maxRequests admitted requests exactly when some call falls into it after maxRequests of
  // them, with fewer different members in the window that ends at the call; never when no two
  // calls write one member.
  lemma {:induction false} SlidingWindowLimit(l: Limits, calls: seq<Call>, key: string, lo: int)
    requires SingleClock(calls)
    ensures AdmittedRequests(LogRun(map[], [], l, calls), key, lo, lo + l.window) > Cap(l) <==>
            SomeHistoryUndercount([], l, calls, key, lo, lo + l.window)
    ensures Unique(calls) ==> AdmittedRequests(LogRun(map[], [], l, calls), key, lo, lo + l.window) <= Cap(l)
  {
    RequestLimitExceededIff(l, calls, key, lo, lo + l.window);
    UndercountsInHistory(map[], [], l, calls, key, lo, lo + l.window);
    if Unique(calls) {
      BoundedOffsetsAreSkewed(l, 0, 0, calls);
      SkewTolerantRequestLimit(l, 0, calls, key, lo);
    }
  }
}
