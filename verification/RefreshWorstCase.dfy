// The bound on refresh traffic is exact: for every n there is a run with n requests that
// makes n refresh calls and n + (1 + ... + n) sends.
module RefreshWorstCase {
  import opened Common
  import opened RefreshClient

  function Range(a: nat, b: nat): (r: set<nat>)
    ensures forall x :: x in r <==> a <= x < b
    decreases b - a
  {
    if a >= b then {} else {a} + Range(a + 1, b)
  }

  function Numbers(a: nat, b: nat): (s: seq<nat>)
    ensures |s| == if a < b then b - a else 0
    decreases b - a
  {
    if a >= b then [] else [a] + Numbers(a + 1, b)
  }

  lemma {:induction false} NumbersAreRange(a: nat, b: nat)
    ensures Elements(Numbers(a, b)) == Range(a, b)
    decreases b - a
  {
    if a < b {
      NumbersAreRange(a + 1, b);
      assert Elements(Numbers(a, b)) == {a} + Elements(Numbers(a + 1, b));
      assert Range(a, b) == {a} + Range(a + 1, b);
    } else {
      assert Range(a, b) == {};
    }
  }

  function Issues(k: nat, n: nat): seq<Event>
    decreases n - k
  {
    if k >= n then [] else [Issue(k)] + Issues(k + 1, n)
  }

  function Refusals(k: nat, n: nat): seq<Event>
    decreases n - k
  {
    if k >= n then [] else [Unauthorized(k)] + Refusals(k + 1, n)
  }

  // Round j: request j is refused and starts a refresh, every later request is refused
  // while it runs, the refresh succeeds and request j is answered.
  function Round(j: nat, n: nat): seq<Event> {
    [Unauthorized(j)] + (Refusals(j + 1, n) + [RefreshSucceeded(j, 0), Answered(j)])
  }

  function Rounds(j: nat, n: nat): seq<Event>
    decreases n - j
  {
    if j >= n then [] else Round(j, n) + Rounds(j + 1, n)
  }

  ghost predicate RoundStart(s: Client, j: nat, n: nat) {
    && s.issued == Range(0, n) && s.inFlight == Range(j, n) && s.retried == Range(0, j)
    && s.queue == [] && s.awaiting == {} && !s.refreshing
  }

  lemma {:induction false} AllIssued(s: Client, k: nat, n: nat)
    requires k <= n && RoundStart(s.(issued := Range(0, n), inFlight := Range(0, n)), 0, n)
    requires s.issued == Range(0, k) && s.inFlight == Range(0, k)
    ensures ValidRun(s, Issues(k, n))
    ensures var s' := Run(s, Issues(k, n));
      RoundStart(s', 0, n) && |s'.sends| == |s.sends| + (n - k) && s'.refreshCalls == s.refreshCalls
    decreases n - k
  {
    if k < n {
      var s1 := Step(s, Issue(k));
      assert Range(0, k + 1) == Range(0, k) + {k};
      AllIssued(s1, k + 1, n);
      assert Issues(k, n)[1..] == Issues(k + 1, n);
    }
  }

  lemma QueueOne(s: Client, k: nat, n: nat)
    requires k < n && s.refreshing && s.inFlight == Range(k, n) && s.retried !! Range(k, n)
    ensures Enabled(s, Unauthorized(k))
    ensures Step(s, Unauthorized(k)) == s.(inFlight := Range(k + 1, n), queue := s.queue + [k])
    ensures s.retried !! Range(k + 1, n)
  {
    assert k in Range(k, n);
    assert Range(k, n) - {k} == Range(k + 1, n);
  }

  lemma {:induction false} AllQueued(s: Client, k: nat, n: nat)
    requires s.refreshing && s.inFlight == Range(k, n) && s.retried !! Range(k, n)
    ensures ValidRun(s, Refusals(k, n))
    ensures Run(s, Refusals(k, n)) == s.(inFlight := {}, queue := s.queue + Numbers(k, n))
    decreases n - k
  {
    if k < n {
      var s1 := Step(s, Unauthorized(k));
      QueueOne(s, k, n);
      AllQueued(s1, k + 1, n);
      assert Refusals(k, n)[1..] == Refusals(k + 1, n);
      assert s1.queue + Numbers(k + 1, n) == s.queue + Numbers(k, n);
    } else {
      assert s.inFlight == {};
      assert s.queue + Numbers(k, n) == s.queue;
    }
  }

  lemma FinishRound(s: Client, j: nat, n: nat)
    requires j < n && s.issued == Range(0, n) && s.inFlight == {} && s.awaiting == {j}
    requires s.retried == Range(0, j + 1) && s.queue == Numbers(j + 1, n)
    ensures var es := [RefreshSucceeded(j, 0), Answered(j)];
      && ValidRun(s, es)
      && RoundStart(Run(s, es), j + 1, n)
      && |Run(s, es).sends| == |s.sends| + (n - j)
      && Run(s, es).refreshCalls == s.refreshCalls
  {
    NumbersAreRange(j + 1, n);
    var s1 := Step(s, RefreshSucceeded(j, 0));
    var s2 := Step(s1, Answered(j));
    assert s2.inFlight == Range(j + 1, n);
    var es := [RefreshSucceeded(j, 0), Answered(j)];
    assert es[1..] == [Answered(j)];
    assert ValidRun(s1, [Answered(j)]) && Run(s1, [Answered(j)]) == s2;
  }

  lemma WorstRound(s: Client, j: nat, n: nat)
    requires RoundStart(s, j, n) && j < n
    ensures ValidRun(s, Round(j, n))
    ensures var s' := Run(s, Round(j, n));
      && RoundStart(s', j + 1, n)
      && |s'.sends| == |s.sends| + (n - j)
      && s'.refreshCalls == s.refreshCalls + 1
  {
    assert j in Range(j, n) && j !in Range(0, j);
    var s1 := Step(s, Unauthorized(j));
    assert Range(j, n) - {j} == Range(j + 1, n);
    assert Range(0, j) + {j} == Range(0, j + 1);
    AllQueued(s1, j + 1, n);
    var s2 := Run(s1, Refusals(j + 1, n));
    assert s2.queue == Numbers(j + 1, n);
    FinishRound(s2, j, n);
    RunConcat(s1, Refusals(j + 1, n), [RefreshSucceeded(j, 0), Answered(j)]);
    assert Round(j, n)[1..] == Refusals(j + 1, n) + [RefreshSucceeded(j, 0), Answered(j)];
  }

  lemma {:induction false} WorstRounds(s: Client, j: nat, n: nat)
    requires RoundStart(s, j, n) && j <= n
    ensures ValidRun(s, Rounds(j, n))
    ensures |Run(s, Rounds(j, n)).sends| == |s.sends| + Triangle(n - j)
    ensures Run(s, Rounds(j, n)).refreshCalls == s.refreshCalls + (n - j)
    ensures Run(s, Rounds(j, n)).issued == Range(0, n)
    decreases n - j
  {
    if j < n {
      WorstRound(s, j, n);
      var s1 := Run(s, Round(j, n));
      WorstRounds(s1, j + 1, n);
      RunConcat(s, Round(j, n), Rounds(j + 1, n));
    }
  }

  lemma {:induction false} RangeCardinality(n: nat)
    ensures |Range(0, n)| == n
  {
    if n == 0 {
      assert Range(0, 0) == {};
    } else {
      RangeCardinality(n - 1);
      assert Range(0, n) == Range(0, n - 1) + {n - 1};
    }
  }

  // The bound of BoundedTraffic is attained for every number of requests.
  lemma TrafficBoundIsTight(n: nat)
    ensures
      var es := Issues(0, n) + Rounds(0, n);
      && ValidRun(Start, es)
      && |Run(Start, es).issued| == n
      && Run(Start, es).refreshCalls == n
      && |Run(Start, es).sends| == n + Triangle(n)
  {
    assert Range(0, 0) == {};
    AllIssued(Start, 0, n);
    WorstRounds(Run(Start, Issues(0, n)), 0, n);
    RunConcat(Start, Issues(0, n), Rounds(0, n));
    RangeCardinality(n);
  }
}
