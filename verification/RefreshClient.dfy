// The browser's silent token refresh: one flag, one queue of waiting requests and one
// retry mark per request.  A response arriving, a refresh call succeeding and a refresh
// call failing are each one atomic step, because the handlers run without yielding
// between the points where they await the network.
module RefreshClient {
  import opened Common

  type RequestId = nat
  type AccessToken = nat

  // One request put on the wire, with the bearer token it carried.
  datatype Send = Send(request: RequestId, bearer: Option<AccessToken>)

  datatype Client = Client(
    refreshing: bool,                 // the module flag
    queue: seq<RequestId>,            // requests whose callbacks wait for a token
    token: Option<AccessToken>,       // the in-memory access token
    retried: set<RequestId>,          // request configurations marked _retry
    issued: set<RequestId>,           // requests the application has made
    inFlight: set<RequestId>,         // sent, no response handled yet
    awaiting: set<RequestId>,         // handlers suspended on a refresh call of their own
    settled: set<RequestId>,          // promise resolved or rejected
    sends: seq<Send>,                 // everything put on the wire so far
    refreshCalls: nat)                // refresh calls started so far

  const Start := Client(false, [], None, {}, {}, {}, {}, {}, [], 0)

  datatype Event =
    | Issue(request: RequestId)
    | StoreToken(stored: Option<AccessToken>)   // login and logout write the token directly
    | Answered(request: RequestId)              // any response or error other than 401
    | Unauthorized(request: RequestId)          // a 401
    | RefreshSucceeded(owner: RequestId, minted: AccessToken)
    | RefreshFailed(owner: RequestId)

  predicate Enabled(s: Client, e: Event) {
    match e
    case Issue(r) => r !in s.issued
    case StoreToken(_) => true
    case Answered(r) => r in s.inFlight
    case Unauthorized(r) => r in s.inFlight
    case RefreshSucceeded(o, _) => o in s.awaiting
    case RefreshFailed(o) => o in s.awaiting
  }

  // Resending the queue in order, each request with the new token.
  function Resends(queue: seq<RequestId>, t: AccessToken): (sends: seq<Send>)
    ensures |sends| == |queue|
    ensures forall i :: 0 <= i < |queue| ==> sends[i] == Send(queue[i], Some(t))
  {
    seq(|queue|, i requires 0 <= i < |queue| => Send(queue[i], Some(t)))
  }

  function Step(s: Client, e: Event): Client
    requires Enabled(s, e)
  {
    match e
    case Issue(r) =>
      s.(issued := s.issued + {r}, inFlight := s.inFlight + {r}, sends := s.sends + [Send(r, s.token)])
    case StoreToken(t) =>
      s.(token := t)
    case Answered(r) =>
      s.(inFlight := s.inFlight - {r}, settled := s.settled + {r})
    case Unauthorized(r) =>
      if r in s.retried then
        s.(inFlight := s.inFlight - {r}, settled := s.settled + {r})
      else if s.refreshing then
        s.(inFlight := s.inFlight - {r}, queue := s.queue + [r])
      else
        s.(inFlight := s.inFlight - {r}, retried := s.retried + {r}, refreshing := true,
           awaiting := s.awaiting + {r}, refreshCalls := s.refreshCalls + 1)
    case RefreshSucceeded(o, t) =>
      s.(token := Some(t), sends := s.sends + Resends(s.queue, t) + [Send(o, Some(t))],
         inFlight := s.inFlight + Elements(s.queue) + {o}, queue := [],
         refreshing := false, awaiting := s.awaiting - {o})
    case RefreshFailed(o) =>
      s.(token := None, refreshing := false, awaiting := s.awaiting - {o}, settled := s.settled + {o})
  }

  predicate ValidRun(s: Client, es: seq<Event>)
    decreases |es|
  {
    es == [] || (Enabled(s, es[0]) && ValidRun(Step(s, es[0]), es[1..]))
  }

  function Run(s: Client, es: seq<Event>): Client
    requires ValidRun(s, es)
    decreases |es|
  {
    if es == [] then s else Run(Step(s, es[0]), es[1..])
  }

  lemma {:induction false} RunConcat(s: Client, a: seq<Event>, b: seq<Event>)
    requires ValidRun(s, a) && ValidRun(Run(s, a), b)
    ensures ValidRun(s, a + b) && Run(s, a + b) == Run(Run(s, a), b)
    decreases |a|
  {
    if a == [] {
      assert a + b == b;
    } else {
      assert (a + b)[1..] == a[1..] + b;
      RunConcat(Step(s, a[0]), a[1..], b);
    }
  }

  // ---- What every step keeps -------------------------------------------------------

  // Resends over k completed refreshes when n requests exist: the j-th refresh can
  // resend its owner and the n - j requests that have not owned one yet.
  function ResendBudget(n: nat, k: nat): nat
    requires k <= n
  {
    if k == 0 then 0 else ResendBudget(n, k - 1) + (n - k + 1)
  }

  ghost predicate SingleFlight(s: Client) {
    && (s.refreshing <==> s.awaiting != {})
    && (forall a, b :: a in s.awaiting && b in s.awaiting ==> a == b)
  }

  // Four sets that have nothing in common and together make up all.
  ghost predicate Apart(a: set<RequestId>, b: set<RequestId>, c: set<RequestId>, d: set<RequestId>, all: set<RequestId>) {
    a !! b && a !! c && a !! d && b !! c && b !! d && c !! d && all == a + b + c + d
  }

  ghost predicate Partitioned(s: Client) {
    Distinct(s.queue) && Apart(s.inFlight, Elements(s.queue), s.awaiting, s.settled, s.issued)
  }

  ghost predicate RetryMarks(s: Client) {
    && s.retried <= s.issued
    && s.awaiting <= s.retried
    && Elements(s.queue) !! s.retried
    && s.refreshCalls == |s.retried|
  }

  ghost predicate WithinBudget(s: Client)
    requires s.retried <= s.issued
  {
    SubsetCardinality(s.retried, s.issued);
    var n, k := |s.issued|, |s.retried|;
    |s.sends| <= n + (if s.refreshing && k > 0 then ResendBudget(n, k - 1) else ResendBudget(n, k))
  }

  ghost predicate Inv(s: Client) {
    SingleFlight(s) && Partitioned(s) && RetryMarks(s) && WithinBudget(s)
  }

  lemma {:induction false} BudgetMonotone(n: nat, k: nat)
    requires k <= n
    ensures ResendBudget(n, k) <= ResendBudget(n + 1, k)
  {
    if k > 0 {
      BudgetMonotone(n, k - 1);
    }
  }

  // 1 + 2 + ... + n.
  function Triangle(n: nat): nat {
    if n == 0 then 0 else n + Triangle(n - 1)
  }

  lemma {:induction false} TriangleClosedForm(n: nat)
    ensures 2 * Triangle(n) == n * (n + 1)
  {
    if n > 0 {
      TriangleClosedForm(n - 1);
    }
  }

  lemma {:induction false} BudgetTriangle(n: nat, k: nat)
    requires k <= n
    ensures ResendBudget(n, k) + Triangle(n - k) == Triangle(n)
  {
    if k > 0 {
      BudgetTriangle(n, k - 1);
    }
  }

  lemma {:induction false} BudgetGrows(n: nat, j: nat, k: nat)
    requires j <= k <= n
    ensures ResendBudget(n, j) <= ResendBudget(n, k)
  {
    if j < k {
      BudgetGrows(n, j, k - 1);
    }
  }

  // The requests a successful refresh resends fit into the budget of that refresh.
  lemma QueueFitsBudget(s: Client)
    requires SingleFlight(s) && Partitioned(s) && RetryMarks(s) && s.refreshing
    ensures 0 < |s.retried| <= |s.issued|
    ensures |s.queue| <= |s.issued| - |s.retried|
  {
    SubsetCardinality(s.retried, s.issued);
    assert s.awaiting <= s.retried;
    DistinctCardinality(s.queue);
    SubsetCardinality(Elements(s.queue), s.issued - s.retried);
    assert |s.issued - s.retried| == |s.issued| - |s.retried|;
  }

  lemma OneMoves(a: set<RequestId>, b: set<RequestId>, c: set<RequestId>, d: set<RequestId>, all: set<RequestId>, x: RequestId)
    requires Apart(a, b, c, d, all)
    ensures x in a ==> Apart(a - {x}, b + {x}, c, d, all) && Apart(a - {x}, b, c + {x}, d, all) && Apart(a - {x}, b, c, d + {x}, all)
    ensures x in c ==> Apart(a, b, c - {x}, d + {x}, all) && Apart(a + b + {x}, {}, c - {x}, d, all)
    ensures x !in all ==> Apart(a + {x}, b, c, d, all + {x})
  {
  }

  lemma RetriedRejectionKeepsPartition(s: Client, r: RequestId)
    requires SingleFlight(s) && Partitioned(s) && RetryMarks(s) && r in s.inFlight && r in s.retried
    ensures var s' := Step(s, Unauthorized(r)); SingleFlight(s') && Partitioned(s') && RetryMarks(s')
  {
    OneMoves(s.inFlight, Elements(s.queue), s.awaiting, s.settled, s.issued, r);
  }

  lemma QueueingKeepsPartition(s: Client, r: RequestId)
    requires SingleFlight(s) && Partitioned(s) && RetryMarks(s)
    requires r in s.inFlight && r !in s.retried && s.refreshing
    ensures var s' := Step(s, Unauthorized(r)); SingleFlight(s') && Partitioned(s') && RetryMarks(s')
  {
    OneMoves(s.inFlight, Elements(s.queue), s.awaiting, s.settled, s.issued, r);
    assert r !in Elements(s.queue);
    AppendFresh(s.queue, r);
  }

  lemma RefreshStartKeepsPartition(s: Client, r: RequestId)
    requires SingleFlight(s) && Partitioned(s) && RetryMarks(s)
    requires r in s.inFlight && r !in s.retried && !s.refreshing
    ensures var s' := Step(s, Unauthorized(r)); SingleFlight(s') && Partitioned(s') && RetryMarks(s')
  {
    OneMoves(s.inFlight, Elements(s.queue), s.awaiting, s.settled, s.issued, r);
    assert s.awaiting == {};
    assert r !in Elements(s.queue);
  }

  lemma UnauthorizedKeepsPartition(s: Client, r: RequestId)
    requires SingleFlight(s) && Partitioned(s) && RetryMarks(s) && r in s.inFlight
    ensures var s' := Step(s, Unauthorized(r)); SingleFlight(s') && Partitioned(s') && RetryMarks(s')
  {
    if r in s.retried {
      RetriedRejectionKeepsPartition(s, r);
    } else if s.refreshing {
      QueueingKeepsPartition(s, r);
    } else {
      RefreshStartKeepsPartition(s, r);
    }
  }

  lemma RefreshSucceededKeepsPartition(s: Client, o: RequestId, t: AccessToken)
    requires SingleFlight(s) && Partitioned(s) && RetryMarks(s) && o in s.awaiting
    ensures var s' := Step(s, RefreshSucceeded(o, t)); SingleFlight(s') && Partitioned(s') && RetryMarks(s')
  {
    OneMoves(s.inFlight, Elements(s.queue), s.awaiting, s.settled, s.issued, o);
    var s' := Step(s, RefreshSucceeded(o, t));
    assert Elements(s'.queue) == {};
    assert s'.awaiting == {};
  }

  lemma IssueKeepsPartition(s: Client, r: RequestId)
    requires SingleFlight(s) && Partitioned(s) && RetryMarks(s) && r !in s.issued
    ensures var s' := Step(s, Issue(r)); SingleFlight(s') && Partitioned(s') && RetryMarks(s')
  {
    OneMoves(s.inFlight, Elements(s.queue), s.awaiting, s.settled, s.issued, r);
  }

  lemma AnsweredKeepsPartition(s: Client, r: RequestId)
    requires SingleFlight(s) && Partitioned(s) && RetryMarks(s) && r in s.inFlight
    ensures var s' := Step(s, Answered(r)); SingleFlight(s') && Partitioned(s') && RetryMarks(s')
  {
    OneMoves(s.inFlight, Elements(s.queue), s.awaiting, s.settled, s.issued, r);
  }

  lemma RefreshFailedKeepsPartition(s: Client, o: RequestId)
    requires SingleFlight(s) && Partitioned(s) && RetryMarks(s) && o in s.awaiting
    ensures var s' := Step(s, RefreshFailed(o)); SingleFlight(s') && Partitioned(s') && RetryMarks(s')
  {
    OneMoves(s.inFlight, Elements(s.queue), s.awaiting, s.settled, s.issued, o);
    assert Step(s, RefreshFailed(o)).awaiting == {};
  }

  lemma StepKeepsPartition(s: Client, e: Event)
    requires SingleFlight(s) && Partitioned(s) && RetryMarks(s) && Enabled(s, e)
    ensures var s' := Step(s, e); SingleFlight(s') && Partitioned(s') && RetryMarks(s')
  {
    match e {
      case Issue(r) => IssueKeepsPartition(s, r);
      case StoreToken(_) =>
      case Answered(r) => AnsweredKeepsPartition(s, r);
      case Unauthorized(r) => UnauthorizedKeepsPartition(s, r);
      case RefreshSucceeded(o, t) => RefreshSucceededKeepsPartition(s, o, t);
      case RefreshFailed(o) => RefreshFailedKeepsPartition(s, o);
    }
  }

  lemma IssueKeepsBudget(s: Client, r: RequestId)
    requires RetryMarks(s) && WithinBudget(s) && r !in s.issued
    ensures WithinBudget(Step(s, Issue(r)))
  {
    SubsetCardinality(s.retried, s.issued);
    var n, k := |s.issued|, |s.retried|;
    BudgetMonotone(n, k);
    if k > 0 {
      BudgetMonotone(n, k - 1);
    }
  }

  lemma UnauthorizedKeepsBudget(s: Client, r: RequestId)
    requires RetryMarks(s) && WithinBudget(s) && r in s.inFlight && r in s.issued
    ensures WithinBudget(Step(s, Unauthorized(r)))
  {
    SubsetCardinality(s.retried, s.issued);
    SubsetCardinality(s.retried + {r}, s.issued);
  }

  lemma RefreshSucceededKeepsBudget(s: Client, o: RequestId, t: AccessToken)
    requires SingleFlight(s) && Partitioned(s) && RetryMarks(s) && WithinBudget(s) && o in s.awaiting
    ensures WithinBudget(Step(s, RefreshSucceeded(o, t)))
  {
    QueueFitsBudget(s);
    assert |Resends(s.queue, t)| == |s.queue|;
  }

  lemma RefreshFailedKeepsBudget(s: Client, o: RequestId)
    requires RetryMarks(s) && WithinBudget(s) && o in s.awaiting
    ensures WithinBudget(Step(s, RefreshFailed(o)))
  {
    SubsetCardinality(s.retried, s.issued);
    if |s.retried| > 0 {
      BudgetGrows(|s.issued|, |s.retried| - 1, |s.retried|);
    }
  }

  lemma StepKeepsBudget(s: Client, e: Event)
    requires SingleFlight(s) && Partitioned(s) && RetryMarks(s) && WithinBudget(s) && Enabled(s, e)
    ensures RetryMarks(Step(s, e)) && WithinBudget(Step(s, e))
  {
    assert RetryMarks(Step(s, e)) by {
      StepKeepsPartition(s, e);
    }
    match e {
      case Issue(r) => IssueKeepsBudget(s, r);
      case Unauthorized(r) => UnauthorizedKeepsBudget(s, r);
      case RefreshSucceeded(o, t) => RefreshSucceededKeepsBudget(s, o, t);
      case RefreshFailed(o) => RefreshFailedKeepsBudget(s, o);
      case _ =>
    }
  }

  lemma StepKeepsInv(s: Client, e: Event)
    requires Inv(s) && Enabled(s, e)
    ensures Inv(Step(s, e))
  {
    StepKeepsPartition(s, e);
    StepKeepsBudget(s, e);
  }

  lemma StartSatisfiesInv()
    ensures Inv(Start)
  {
    assert Elements(Start.queue) == {};
  }

  lemma {:induction false} RunKeepsInv(s: Client, es: seq<Event>)
    requires Inv(s) && ValidRun(s, es)
    ensures Inv(Run(s, es))
    decreases |es|
  {
    if es != [] {
      StepKeepsInv(s, es[0]);
      RunKeepsInv(Step(s, es[0]), es[1..]);
    }
  }

  // ---- Main results ----------------------------------------------------------------

  // At most one refresh call is outstanding in any reachable state, the flag says
  // whether there is one, and no waiting request has used its retry.
  lemma AtMostOneRefresh(es: seq<Event>)
    requires ValidRun(Start, es)
    ensures var s := Run(Start, es);
      && |s.awaiting| == (if s.refreshing then 1 else 0)
      && (forall r :: r in s.queue ==> r !in s.retried)
  {
    StartSatisfiesInv();
    RunKeepsInv(Start, es);
    var s := Run(Start, es);
    if s.awaiting != {} {
      var a :| a in s.awaiting;
      assert s.awaiting == {a};
    }
  }

  function SendsOf(sends: seq<Send>, r: RequestId): nat {
    if sends == [] then 0 else (if sends[0].request == r then 1 else 0) + SendsOf(sends[1..], r)
  }

  lemma {:induction false} SendsOfConcat(a: seq<Send>, b: seq<Send>, r: RequestId)
    ensures SendsOf(a + b, r) == SendsOf(a, r) + SendsOf(b, r)
  {
    if a == [] {
      assert a + b == b;
    } else {
      assert (a + b)[1..] == a[1..] + b;
      SendsOfConcat(a[1..], b, r);
    }
  }

  lemma {:induction false} SendsOfResends(queue: seq<RequestId>, t: AccessToken, r: RequestId)
    ensures SendsOf(Resends(queue, t), r) == Occurrences(queue, r)
  {
    if queue != [] {
      assert Resends(queue, t)[1..] == Resends(queue[1..], t);
      SendsOfResends(queue[1..], t, r);
    }
  }

  lemma StepKeepsQueued(s: Client, e: Event, r: RequestId)
    requires Partitioned(s) && Enabled(s, e) && r in s.queue && !e.RefreshSucceeded?
    ensures r in Step(s, e).queue
    ensures SendsOf(Step(s, e).sends, r) == SendsOf(s.sends, r)
  {
    if e.Issue? {
      assert r in Elements(s.queue);
      SendsOfConcat(s.sends, [Send(e.request, s.token)], r);
    }
  }

  // While no refresh succeeds a queued request stays queued and is not sent, however
  // many refreshes fail in the meantime.
  lemma {:induction false} QueuedWaits(s: Client, es: seq<Event>, r: RequestId)
    requires Inv(s) && ValidRun(s, es)
    requires r in s.queue
    requires forall i :: 0 <= i < |es| ==> !es[i].RefreshSucceeded?
    ensures r in Run(s, es).queue
    ensures SendsOf(Run(s, es).sends, r) == SendsOf(s.sends, r)
    decreases |es|
  {
    if es != [] {
      StepKeepsInv(s, es[0]);
      StepKeepsQueued(s, es[0], r);
      QueuedWaits(Step(s, es[0]), es[1..], r);
    }
  }

  lemma SuccessResendsQueued(s: Client, r: RequestId, o: RequestId, t: AccessToken)
    requires SingleFlight(s) && Partitioned(s) && r in s.queue && o in s.awaiting
    ensures
      var s' := Step(s, RefreshSucceeded(o, t));
      && SendsOf(s'.sends, r) == SendsOf(s.sends, r) + 1
      && s'.sends == s.sends + Resends(s.queue, t) + [Send(o, Some(t))]
      && Send(r, Some(t)) in Resends(s.queue, t)
      && r in s'.inFlight
  {
    assert r in Elements(s.queue);
    SendsOfConcat(s.sends + Resends(s.queue, t), [Send(o, Some(t))], r);
    SendsOfConcat(s.sends, Resends(s.queue, t), r);
    SendsOfResends(s.queue, t, r);
    DistinctOccurrences(s.queue, r);
    var i :| 0 <= i < |s.queue| && s.queue[i] == r;
    assert Resends(s.queue, t)[i] == Send(r, Some(t));
  }

  // Every queued request is resent exactly once, with the new token, by the first
  // successful refresh after it was queued, even when failed refreshes come between.
  lemma {:induction false} QueuedResentExactlyOnce(before: seq<Event>, wait: seq<Event>, r: RequestId, o: RequestId, t: AccessToken)
    requires ValidRun(Start, before) && r in Run(Start, before).queue
    requires ValidRun(Run(Start, before), wait)
    requires forall i :: 0 <= i < |wait| ==> !wait[i].RefreshSucceeded?
    requires o in Run(Run(Start, before), wait).awaiting
    ensures
      var queued := Run(Start, before);
      var waited := Run(queued, wait);
      var resent := Step(waited, RefreshSucceeded(o, t));
      && SendsOf(waited.sends, r) == SendsOf(queued.sends, r)
      && SendsOf(resent.sends, r) == SendsOf(queued.sends, r) + 1
      && resent.sends == waited.sends + Resends(waited.queue, t) + [Send(o, Some(t))]
      && Send(r, Some(t)) in Resends(waited.queue, t)
      && r in resent.inFlight && resent.queue == []
  {
    StartSatisfiesInv();
    RunKeepsInv(Start, before);
    RunKeepsInv(Run(Start, before), wait);
    QueuedWaits(Run(Start, before), wait, r);
    SuccessResendsQueued(Run(Run(Start, before), wait), r, o, t);
  }

  // ---- Which token a request carries -------------------------------------------------

  // The last token written by the events after one that was written before them, read off the
  // list of events: login and logout write what they are given, a success what was minted,
  // and a failure nothing.
  function LastWritten(before: Option<AccessToken>, es: seq<Event>): Option<AccessToken> {
    if es == [] then before
    else
      match es[|es| - 1]
      case StoreToken(t) => t
      case RefreshSucceeded(_, t) => Some(t)
      case RefreshFailed(_) => None
      case _ => LastWritten(before, es[..|es| - 1])
  }

  lemma {:induction false} LastWrittenSplits(before: Option<AccessToken>, e: Event, rest: seq<Event>)
    ensures LastWritten(before, [e] + rest) == LastWritten(LastWritten(before, [e]), rest)
    decreases |rest|
  {
    if rest == [] {
      assert [e] + rest == [e];
    } else {
      assert ([e] + rest)[..|rest|] == [e] + rest[..|rest| - 1];
      LastWrittenSplits(before, e, rest[..|rest| - 1]);
    }
  }

  lemma {:induction false} TokenIsLastWritten(s: Client, es: seq<Event>)
    requires ValidRun(s, es)
    ensures Run(s, es).token == LastWritten(s.token, es)
    decreases |es|
  {
    if es != [] {
      assert [es[0]] + es[1..] == es && [es[0]][..0] == [];
      LastWrittenSplits(s.token, es[0], es[1..]);
      TokenIsLastWritten(Step(s, es[0]), es[1..]);
    }
  }

  // In every run a new request is sent once, with the token last written before it.
  lemma {:induction false} RequestCarriesLastToken(es: seq<Event>, r: RequestId)
    requires ValidRun(Start, es) && Enabled(Run(Start, es), Issue(r))
    ensures ValidRun(Start, es + [Issue(r)])
    ensures Run(Start, es + [Issue(r)]).sends == Run(Start, es).sends + [Send(r, LastWritten(None, es))]
  {
    TokenIsLastWritten(Start, es);
    RunConcat(Start, es, [Issue(r)]);
  }

  lemma InvBoundsTraffic(s: Client)
    requires Inv(s)
    ensures s.refreshCalls <= |s.issued|
    ensures |s.sends| <= |s.issued| + Triangle(|s.issued|)
  {
    SubsetCardinality(s.retried, s.issued);
    var n, k := |s.issued|, |s.retried|;
    BudgetTriangle(n, k);
    if k > 0 {
      BudgetTriangle(n, k - 1);
    }
  }

  // With n requests there are at most n refresh calls and n + (1 + ... + n) sends, under
  // any pattern of 401s.
  lemma BoundedTraffic(es: seq<Event>)
    requires ValidRun(Start, es)
    ensures Run(Start, es).refreshCalls <= |Run(Start, es).issued|
    ensures |Run(Start, es).sends| <= |Run(Start, es).issued| + Triangle(|Run(Start, es).issued|)
    ensures 2 * Triangle(|Run(Start, es).issued|) == |Run(Start, es).issued| * (|Run(Start, es).issued| + 1)
  {
    StartSatisfiesInv();
    RunKeepsInv(Start, es);
    InvBoundsTraffic(Run(Start, es));
    TriangleClosedForm(|Run(Start, es).issued|);
  }

  predicate External(e: Event) {
    e.Issue? || e.StoreToken?
  }

  // Work left before the client falls silent: every refresh still possible can put every
  // request back on the wire once.
  function Rank(s: Client): nat
    requires s.retried <= s.issued
  {
    Times(2 * |s.issued - s.retried| + (if s.refreshing then 1 else 0), |s.issued| + 1) + |s.inFlight|
  }

  // Requests that may still start a refresh.
  function Unretried(s: Client): nat {
    |s.issued - s.retried|
  }

  lemma RefreshStartLowersRank(s: Client, s': Client, r: RequestId)
    requires s.retried <= s.issued && r in s.inFlight && r in s.issued && r !in s.retried && !s.refreshing
    requires s'.issued == s.issued && s'.retried == s.retried + {r} && s'.refreshing && s'.inFlight == s.inFlight - {r}
    ensures Rank(s') < Rank(s)
  {
    assert s'.issued - s'.retried == (s.issued - s.retried) - {r};
    assert r in s.issued - s.retried;
    assert 2 * Unretried(s) == 2 * Unretried(s') + 1 + 1;
    assert |s'.inFlight| == |s.inFlight| - 1;
  }

  lemma RefreshEndLowersRank(s: Client, s': Client)
    requires s.retried <= s.issued && s.refreshing && !s'.refreshing
    requires s'.issued == s.issued && s'.retried == s.retried && s'.inFlight <= s'.issued
    ensures Rank(s') < Rank(s)
  {
    SubsetCardinality(s'.inFlight, s'.issued);
  }

  lemma SettlingLowersRank(s: Client, s': Client, r: RequestId)
    requires s.retried <= s.issued && r in s.inFlight && s'.inFlight == s.inFlight - {r}
    requires s'.issued == s.issued && s'.retried == s.retried && s'.refreshing == s.refreshing
    ensures Rank(s') < Rank(s)
  {
    assert |s'.inFlight| == |s.inFlight| - 1;
  }

  lemma RankDecreases(s: Client, e: Event)
    requires Inv(s) && Enabled(s, e) && !External(e) && Inv(Step(s, e))
    ensures Rank(Step(s, e)) < Rank(s)
  {
    var s' := Step(s, e);
    match e {
      case Answered(r) => SettlingLowersRank(s, s', r);
      case Unauthorized(r) =>
        if r !in s.retried && !s.refreshing {
          RefreshStartLowersRank(s, s', r);
        } else {
          SettlingLowersRank(s, s', r);
        }
      case RefreshSucceeded(_, _) => RefreshEndLowersRank(s, s');
      case RefreshFailed(_) => RefreshEndLowersRank(s, s');
    }
  }

  lemma InternalStep(s: Client, e: Event)
    requires Inv(s) && Enabled(s, e) && !External(e)
    ensures Inv(Step(s, e)) && Rank(Step(s, e)) < Rank(s)
  {
    StepKeepsInv(s, e);
    RankDecreases(s, e);
  }

  lemma {:induction false} TerminatesFrom(s: Client, es: seq<Event>)
    requires Inv(s) && ValidRun(s, es)
    requires forall i :: 0 <= i < |es| ==> !External(es[i])
    ensures Inv(Run(s, es))
    ensures |es| + Rank(Run(s, es)) <= Rank(s)
    decreases |es|
  {
    if es != [] {
      InternalStep(s, es[0]);
      TerminatesFrom(Step(s, es[0]), es[1..]);
    }
  }

  // Once the application stops issuing requests the protocol stops, within Rank steps.
  lemma {:induction false} ProtocolTerminates(before: seq<Event>, es: seq<Event>)
    requires ValidRun(Start, before) && ValidRun(Run(Start, before), es)
    requires forall i :: 0 <= i < |es| ==> !External(es[i])
    ensures
      var s := Run(Start, before);
      var s' := Run(s, es);
      s.retried <= s.issued && s'.retried <= s'.issued && |es| + Rank(s') <= Rank(s)
  {
    StartSatisfiesInv();
    RunKeepsInv(Start, before);
    TerminatesFrom(Run(Start, before), es);
  }

  // Nothing is left to happen: no response and no refresh call is outstanding.
  predicate Quiet(s: Client) {
    s.inFlight == {} && s.awaiting == {}
  }

  predicate NoSuccess(es: seq<Event>) {
    forall i :: 0 <= i < |es| ==> !es[i].RefreshSucceeded?
  }

  // A refresh failed with requests waiting, and none succeeded after it.
  predicate Strands(s: Client, es: seq<Event>)
    requires ValidRun(s, es)
    decreases |es|
  {
    es != [] && ((es[0].RefreshFailed? && s.queue != [] && NoSuccess(es[1..])) || Strands(Step(s, es[0]), es[1..]))
  }

  predicate Waiting(s: Client) {
    s.queue != [] && !s.refreshing
  }

  lemma WaitingStarts(s: Client, e: Event)
    requires SingleFlight(s) && Enabled(s, e) && (e.RefreshFailed? ==> s.queue == [])
    ensures Waiting(Step(s, e)) ==> Waiting(s) && !e.RefreshSucceeded?
    ensures s.queue != [] && !e.RefreshSucceeded? ==> Step(s, e).queue != []
  {
  }

  lemma {:induction false} StaysQueued(s: Client, es: seq<Event>)
    requires Inv(s) && ValidRun(s, es) && s.queue != [] && NoSuccess(es)
    ensures Run(s, es).queue != []
  {
    QueuedWaits(s, es, s.queue[0]);
  }

  lemma {:induction false} WaitingIffStranded(s: Client, es: seq<Event>)
    requires Inv(s) && ValidRun(s, es) && !Run(s, es).refreshing
    ensures Run(s, es).queue != [] <==> (Waiting(s) && NoSuccess(es)) || Strands(s, es)
    decreases |es|
  {
    if es != [] {
      var s1, rest := Step(s, es[0]), es[1..];
      assert NoSuccess(es) <==> !es[0].RefreshSucceeded? && NoSuccess(rest);
      StepKeepsInv(s, es[0]);
      WaitingIffStranded(s1, rest);
      if es[0].RefreshFailed? && s.queue != [] {
        assert Waiting(s1);
      } else {
        WaitingStarts(s, es[0]);
        if Waiting(s) && NoSuccess(es) {
          StaysQueued(s1, rest);
        }
      }
    }
  }

  // Exactly when every request settles: in a silent client all are settled unless a refresh
  // failed with requests waiting and none succeeded after it.
  lemma {:induction false} AllSettledIff(es: seq<Event>)
    requires ValidRun(Start, es) && Quiet(Run(Start, es))
    ensures Run(Start, es).settled == Run(Start, es).issued <==> !Strands(Start, es)
  {
    StartSatisfiesInv();
    RunKeepsInv(Start, es);
    WaitingIffStranded(Start, es);
    UnsettledAreQueued(es);
    var s := Run(Start, es);
    if s.queue != [] {
      assert s.queue[0] in Elements(s.queue);
    }
  }

  // In a silent client the requests not settled are exactly the ones still queued.
  lemma UnsettledAreQueued(es: seq<Event>)
    requires ValidRun(Start, es) && Quiet(Run(Start, es))
    ensures var s := Run(Start, es); s.issued - s.settled == Elements(s.queue)
  {
    StartSatisfiesInv();
    RunKeepsInv(Start, es);
  }

  // One failed refresh is enough to leave a request waiting: the queue is not emptied.
  lemma FailedRefreshLeavesQueue()
    ensures
      var es := [Issue(0), Issue(1), Unauthorized(0), Unauthorized(1), RefreshFailed(0)];
      && ValidRun(Start, es)
      && Quiet(Run(Start, es))
      && Run(Start, es).queue == [1] && 1 !in Run(Start, es).settled
  {
  }
}
