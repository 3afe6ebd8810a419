// The claim pipeline: a log per topic, two consumers that make up to three attempts at a
// message and then move on, handlers that publish to other topics, and crashes after which
// a consumer starts again at its last committed offset.
module EventPipeline {
  import opened Common

  datatype Kind = ClaimCreated | ClaimAnalyzed | ClaimFlagged | ClaimApproved | ClaimRejected | ClaimFailed | OtherKind

  datatype Payload = Undecodable | Claim(claimId: string, company: string, score: real)

  datatype Event = Event(kind: Kind, payload: Payload)

  // A log entry whose envelope cannot be decoded is Garbled.
  datatype Message = Garbled | Envelope(event: Event)

  datatype Topic = New | Analyzed | Flagged | Failed

  datatype Topics = Topics(created: seq<Message>, analyzed: seq<Message>, flagged: seq<Message>, failed: seq<Message>)

  // What a handler does to the outside: a publish, which may fail, or the update of a claim
  // record, which may fail.
  datatype Effect = Publish(topic: Topic, event: Event, ok: bool) | UpdateAnalysis(claimId: string, ok: bool)

  datatype Inference = Inference(claimId: string, score: real)

  // What one attempt meets: the inference result if there is one, and which calls succeed.
  datatype Env = Env(inference: Option<Inference>, analyzedOk: bool, flaggedOk: bool, failedOk: bool, updateOk: bool)

  datatype Service = AiService | ClaimService(threshold: real)

  const FLAG_SCORE: real := 0.80
  const MAX_RETRIES: nat := 3

  // ---- The handlers -------------------------------------------------------------------

  // claim.created with a usable payload.
  predicate WellFormed(e: Event, kind: Kind) {
    e.kind == kind && e.payload.Claim? && e.payload.claimId != ""
  }

  function FlaggedEvent(claimId: string, company: string, score: real): Event {
    Event(ClaimFlagged, Claim(claimId, company, score))
  }

  function AiHandle(e: Event, env: Env): (seq<Effect>, bool) {
    if e.kind != ClaimCreated then ([], true)
    else if e.payload.Undecodable? then ([], false)
    else if e.payload.claimId == "" then ([], false)
    else
      var p := e.payload;
      match env.inference
      case None => ([Publish(Failed, Event(ClaimFailed, Claim(p.claimId, p.company, 0.0)), env.failedOk)], false)
      case Some(r) =>
        ([Publish(Analyzed, Event(ClaimAnalyzed, Claim(r.claimId, p.company, r.score)), env.analyzedOk)] +
         (if r.score >= FLAG_SCORE
          then [Publish(Flagged, FlaggedEvent(r.claimId, p.company, r.score), env.flaggedOk)] else []),
         true)
  }

  function ClaimHandle(e: Event, env: Env, threshold: real): (seq<Effect>, bool) {
    if e.kind != ClaimAnalyzed then ([], true)
    else if e.payload.Undecodable? then ([], false)
    else if e.payload.claimId == "" then ([], false)
    else
      var p := e.payload;
      if !env.updateOk then ([UpdateAnalysis(p.claimId, false)], false)
      else
        ([UpdateAnalysis(p.claimId, true)] +
         (if p.score >= threshold
          then [Publish(Flagged, FlaggedEvent(p.claimId, p.company, p.score), env.flaggedOk)] else []),
         true)
  }

  function Handle(svc: Service, e: Event, env: Env): (seq<Effect>, bool) {
    match svc
    case AiService => AiHandle(e, env)
    case ClaimService(threshold) => ClaimHandle(e, env, threshold)
  }

  // ---- One consumer --------------------------------------------------------------------

  datatype Record = Record(offset: nat, effect: Effect)

  // The next offset, the failed attempts at the current message if one is being handled, the
  // committed offset, everything done so far, and how often this consumer crashed.
  datatype Node = Node(pos: nat, failures: Option<nat>, committed: nat, trace: seq<Record>, crashes: nat)

  const Fresh := Node(0, None, 0, [], 0)

  datatype NodeStep =
    | Fetch
    | Attempt(env: Env)
    | Flush(upto: nat)
    | Crash(during: Env, completed: nat)

  predicate NodeEnabled(log: seq<Message>, n: Node, step: NodeStep) {
    match step
    case Fetch => n.failures.None? && n.pos < |log|
    case Attempt(_) => n.failures.Some? && n.pos < |log| && log[n.pos].Envelope?
    case Flush(upto) => n.committed < upto <= n.pos
    case Crash(_, _) => n.failures.Some? ==> n.pos < |log| && log[n.pos].Envelope?
  }

  function Stamp(o: nat, effects: seq<Effect>): (records: seq<Record>)
    ensures |records| == |effects|
  {
    if effects == [] then [] else [Record(o, effects[0])] + Stamp(o, effects[1..])
  }

  function Prefix(effects: seq<Effect>, k: nat): seq<Effect> {
    if k <= |effects| then effects[..k] else effects
  }

  // The effects of a step.  A crash can strike in the middle of an attempt.
  function StepEffects(svc: Service, log: seq<Message>, n: Node, step: NodeStep): seq<Effect>
    requires NodeEnabled(log, n, step)
  {
    match step
    case Attempt(env) => Handle(svc, log[n.pos].event, env).0
    case Crash(env, k) => if n.failures.Some? then Prefix(Handle(svc, log[n.pos].event, env).0, k) else []
    case _ => []
  }

  // The attempt at the current message that ends its delivery: it succeeds or is the last.
  predicate Ends(svc: Service, log: seq<Message>, n: Node, env: Env)
    requires NodeEnabled(log, n, Attempt(env))
  {
    Handle(svc, log[n.pos].event, env).1 || n.failures.value + 1 >= MAX_RETRIES
  }

  function NodeAfter(svc: Service, log: seq<Message>, n: Node, step: NodeStep): Node
    requires NodeEnabled(log, n, step)
  {
    var trace := n.trace + Stamp(n.pos, StepEffects(svc, log, n, step));
    match step
    case Fetch => if log[n.pos].Garbled? then n.(pos := n.pos + 1) else n.(failures := Some(0))
    case Attempt(env) =>
      if Ends(svc, log, n, env) then n.(pos := n.pos + 1, failures := None, trace := trace)
      else n.(failures := Some(n.failures.value + 1), trace := trace)
    case Flush(upto) => n.(committed := upto)
    case Crash(_, _) => Node(n.committed, None, n.committed, trace, n.crashes + 1)
  }

  // ---- Counting what was done for an offset ------------------------------------------------

  datatype Mark = AnalyzedPublish | FailedPublish | FlaggedPublish | UpdateDone | UpdateFailed | OtherMark

  function MarkOf(e: Effect): Mark {
    match e
    case Publish(Analyzed, _, _) => AnalyzedPublish
    case Publish(Failed, _, _) => FailedPublish
    case Publish(Flagged, _, _) => FlaggedPublish
    case Publish(New, _, _) => OtherMark
    case UpdateAnalysis(_, ok) => if ok then UpdateDone else UpdateFailed
  }

  function Count(effects: seq<Effect>, m: Mark): nat {
    if effects == [] then 0 else (if MarkOf(effects[0]) == m then 1 else 0) + Count(effects[1..], m)
  }

  function CountAt(trace: seq<Record>, o: nat, m: Mark): nat {
    if trace == [] then 0
    else (if trace[0].offset == o && MarkOf(trace[0].effect) == m then 1 else 0) + CountAt(trace[1..], o, m)
  }

  lemma {:induction false} CountAtConcat(a: seq<Record>, b: seq<Record>, o: nat, m: Mark)
    ensures CountAt(a + b, o, m) == CountAt(a, o, m) + CountAt(b, o, m)
  {
    if a == [] {
      assert a + b == b;
    } else {
      assert (a + b)[1..] == a[1..] + b;
      CountAtConcat(a[1..], b, o, m);
    }
  }

  lemma {:induction false} CountAtStamp(effects: seq<Effect>, p: nat, o: nat, m: Mark)
    ensures CountAt(Stamp(p, effects), o, m) == if p == o then Count(effects, m) else 0
  {
    if effects != [] {
      assert Stamp(p, effects)[1..] == Stamp(p, effects[1..]);
      CountAtStamp(effects[1..], p, o, m);
    }
  }

  lemma StepCounts(svc: Service, log: seq<Message>, n: Node, step: NodeStep, o: nat, m: Mark)
    requires NodeEnabled(log, n, step)
    ensures CountAt(NodeAfter(svc, log, n, step).trace, o, m) ==
            CountAt(n.trace, o, m) + if n.pos == o then Count(StepEffects(svc, log, n, step), m) else 0
  {
    var effects := StepEffects(svc, log, n, step);
    CountAtConcat(n.trace, Stamp(n.pos, effects), o, m);
    CountAtStamp(effects, n.pos, o, m);
    assert Count([], m) == 0;
  }

  lemma {:induction false} PrefixCounts(effects: seq<Effect>, k: nat, m: Mark)
    ensures Count(Prefix(effects, k), m) <= Count(effects, m)
  {
    if k <= |effects| && k > 0 {
      assert effects[..k][1..] == effects[1..][..k - 1];
      PrefixCounts(effects[1..], k - 1, m);
    }
  }

  lemma CountCons(e: Effect, rest: seq<Effect>, m: Mark)
    ensures Count([e] + rest, m) == (if MarkOf(e) == m then 1 else 0) + Count(rest, m)
  {
    assert ([e] + rest)[1..] == rest;
  }

  // What one attempt can do: the two services use up different marks, and neither publishes
  // to claims.new.
  lemma AttemptCounts(svc: Service, e: Event, env: Env)
    ensures var (effects, ok) := Handle(svc, e, env);
      && Count(effects, AnalyzedPublish) == (if svc.AiService? && WellFormed(e, ClaimCreated) && ok then 1 else 0)
      && Count(effects, FailedPublish) == (if svc.AiService? && WellFormed(e, ClaimCreated) && !ok then 1 else 0)
      && Count(effects, UpdateDone) == (if svc.ClaimService? && WellFormed(e, ClaimAnalyzed) && ok then 1 else 0)
      && Count(effects, UpdateFailed) == (if svc.ClaimService? && WellFormed(e, ClaimAnalyzed) && !ok then 1 else 0)
      && Count(effects, OtherMark) == 0
  {
    var (effects, ok) := Handle(svc, e, env);
    if effects != [] {
      var rest := effects[1..];
      assert effects == [effects[0]] + rest;
      assert rest == [] || (|rest| == 1 && MarkOf(rest[0]) == FlaggedPublish);
      forall m ensures Count(effects, m) ==
          (if MarkOf(effects[0]) == m then 1 else 0) + (if rest != [] && m == FlaggedPublish then 1 else 0) {
        CountCons(effects[0], rest, m);
      }
    }
  }

  // What one attempt at a well-formed claim publishes: without an inference the failure of
  // that claim; with one, first a result with the inference's own claim id and score, for the
  // claim's company, and then, exactly when the score is at least 0.80, a flag saying the same.
  lemma AiAttemptPublishes(e: Event, env: Env)
    requires WellFormed(e, ClaimCreated)
    ensures AiHandle(e, env).1 <==> env.inference.Some?
    ensures env.inference.None? ==>
      AiHandle(e, env).0 == [Publish(Failed, Event(ClaimFailed, Claim(e.payload.claimId, e.payload.company, 0.0)), env.failedOk)]
    ensures env.inference.Some? ==>
      (var effects := AiHandle(e, env).0;
       var claim := Claim(env.inference.value.claimId, e.payload.company, env.inference.value.score);
       && |effects| == (if env.inference.value.score >= 0.80 then 2 else 1)
       && effects[0] == Publish(Analyzed, Event(ClaimAnalyzed, claim), env.analyzedOk)
       && (|effects| == 2 ==> effects[1] == Publish(Flagged, Event(ClaimFlagged, claim), env.flaggedOk)))
  {
  }

  // What one attempt at a well-formed result does: the update of that claim, and when it went
  // through, exactly when the score reaches the threshold, a flag repeating the result.
  lemma ClaimAttemptDoes(e: Event, env: Env, threshold: real)
    requires WellFormed(e, ClaimAnalyzed)
    ensures
      var (effects, ok) := ClaimHandle(e, env, threshold);
      && (ok <==> env.updateOk)
      && |effects| == (if env.updateOk && e.payload.score >= threshold then 2 else 1)
      && effects[0] == UpdateAnalysis(e.payload.claimId, env.updateOk)
      && (|effects| == 2 ==> effects[1] == Publish(Flagged, Event(ClaimFlagged, e.payload), env.flaggedOk))
  {
  }

  // Any other event on the topic is passed by, and a malformed one of the kind handled fails
  // without an effect.
  lemma OthersPassBy(svc: Service, e: Event, env: Env)
    requires !WellFormed(e, InputKind(svc))
    ensures Handle(svc, e, env) == ([], e.kind != InputKind(svc))
  {
  }

  // A crash sends the consumer back to its committed offset, with the attempts at the message
  // there still to be made and what was done so far kept; a message that is passed is not
  // fetched again otherwise, and three failed attempts pass one.
  lemma CrashRedelivers(svc: Service, log: seq<Message>, n: Node, env: Env, k: nat)
    requires NodeEnabled(log, n, Crash(env, k))
    ensures var n' := NodeAfter(svc, log, n, Crash(env, k));
      n'.pos == n'.committed == n.committed && n'.failures == None && n'.crashes == n.crashes + 1 && n.trace <= n'.trace
  {
  }

  lemma AttemptPasses(svc: Service, log: seq<Message>, n: Node, env: Env)
    requires NodeEnabled(log, n, Attempt(env)) && n.failures.value < 3
    ensures var n' := NodeAfter(svc, log, n, Attempt(env));
      && n'.committed == n.committed && n'.crashes == n.crashes
      && (if Handle(svc, log[n.pos].event, env).1 || n.failures.value == 2
          then n'.pos == n.pos + 1 && n'.failures == None
          else n'.pos == n.pos && n'.failures == Some(n.failures.value + 1))
  {
  }

  // A fetch starts the attempts at an envelope and skips what cannot be decoded; a commit moves
  // only the committed offset.
  lemma FetchAndFlush(svc: Service, log: seq<Message>, n: Node, upto: nat)
    ensures NodeEnabled(log, n, Fetch) ==>
      NodeAfter(svc, log, n, Fetch) ==
        if log[n.pos] == Garbled then Node(n.pos + 1, None, n.committed, n.trace, n.crashes)
        else Node(n.pos, Some(0), n.committed, n.trace, n.crashes)
    ensures NodeEnabled(log, n, Flush(upto)) ==>
      NodeAfter(svc, log, n, Flush(upto)) == Node(n.pos, n.failures, upto, n.trace, n.crashes)
  {
  }

  // ---- No claim is silently lost -------------------------------------------------------------

  function InputKind(svc: Service): Kind {
    if svc.AiService? then ClaimCreated else ClaimAnalyzed
  }

  function DoneMark(svc: Service): Mark {
    if svc.AiService? then AnalyzedPublish else UpdateDone
  }

  function FailMark(svc: Service): Mark {
    if svc.AiService? then FailedPublish else UpdateFailed
  }

  predicate NeedsHandling(svc: Service, m: Message) {
    m.Envelope? && WellFormed(m.event, InputKind(svc))
  }

  // The outcome of a message was reported: its result once, or its failure three times.
  predicate Accounted(svc: Service, trace: seq<Record>, o: nat) {
    CountAt(trace, o, DoneMark(svc)) >= 1 || CountAt(trace, o, FailMark(svc)) >= MAX_RETRIES
  }

  ghost predicate NodeShape(log: seq<Message>, n: Node) {
    && n.committed <= n.pos <= |log|
    && (n.failures.Some? ==> n.pos < |log| && log[n.pos].Envelope? && n.failures.value < MAX_RETRIES)
  }

  ghost predicate NothingLost(svc: Service, log: seq<Message>, n: Node)
    requires NodeShape(log, n)
  {
    && (forall o :: 0 <= o < n.pos && NeedsHandling(svc, log[o]) ==> Accounted(svc, n.trace, o))
    && (n.failures.Some? && NeedsHandling(svc, log[n.pos]) ==>
          CountAt(n.trace, n.pos, FailMark(svc)) >= n.failures.value)
  }

  // Redeliveries are bounded by crashes.
  ghost predicate RedeliveryBound(svc: Service, n: Node) {
    forall o: nat ::
      && CountAt(n.trace, o, DoneMark(svc)) <= n.crashes + (if o < n.pos then 1 else 0)
      && CountAt(n.trace, o, FailMark(svc)) <=
           MAX_RETRIES * n.crashes + (if o < n.pos then MAX_RETRIES else if o == n.pos && n.failures.Some? then n.failures.value else 0)
  }

  lemma StepKeepsShape(svc: Service, log: seq<Message>, n: Node, step: NodeStep)
    requires NodeShape(log, n) && NodeEnabled(log, n, step)
    ensures NodeShape(log, NodeAfter(svc, log, n, step))
  {
  }

  lemma StepAccounts(svc: Service, log: seq<Message>, n: Node, step: NodeStep, o: nat)
    requires NodeShape(log, n) && NothingLost(svc, log, n) && NodeEnabled(log, n, step)
    requires o < NodeAfter(svc, log, n, step).pos && NeedsHandling(svc, log[o])
    ensures Accounted(svc, NodeAfter(svc, log, n, step).trace, o)
  {
    StepCounts(svc, log, n, step, o, DoneMark(svc));
    StepCounts(svc, log, n, step, o, FailMark(svc));
    if step.Attempt? && o == n.pos {
      AttemptCounts(svc, log[o].event, step.env);
    }
  }

  lemma StepKeepsNothingLost(svc: Service, log: seq<Message>, n: Node, step: NodeStep)
    requires NodeShape(log, n) && NothingLost(svc, log, n) && NodeEnabled(log, n, step)
    requires NodeShape(log, NodeAfter(svc, log, n, step))
    ensures NothingLost(svc, log, NodeAfter(svc, log, n, step))
  {
    var n' := NodeAfter(svc, log, n, step);
    forall o | 0 <= o < n'.pos && NeedsHandling(svc, log[o]) ensures Accounted(svc, n'.trace, o) {
      StepAccounts(svc, log, n, step, o);
    }
    if n'.failures.Some? && NeedsHandling(svc, log[n'.pos]) {
      StepCounts(svc, log, n, step, n'.pos, FailMark(svc));
      if step.Attempt? {
        AttemptCounts(svc, log[n.pos].event, step.env);
      }
    }
  }

  lemma StepKeepsBoundAt(svc: Service, log: seq<Message>, n: Node, step: NodeStep, o: nat)
    requires NodeShape(log, n) && RedeliveryBound(svc, n) && NodeEnabled(log, n, step)
    ensures var n' := NodeAfter(svc, log, n, step);
      && CountAt(n'.trace, o, DoneMark(svc)) <= n'.crashes + (if o < n'.pos then 1 else 0)
      && CountAt(n'.trace, o, FailMark(svc)) <=
           MAX_RETRIES * n'.crashes + (if o < n'.pos then MAX_RETRIES else if o == n'.pos && n'.failures.Some? then n'.failures.value else 0)
  {
    StepCounts(svc, log, n, step, o, DoneMark(svc));
    StepCounts(svc, log, n, step, o, FailMark(svc));
    match step {
      case Attempt(env) => AttemptCounts(svc, log[n.pos].event, env);
      case Crash(env, k) =>
        if n.failures.Some? {
          AttemptCounts(svc, log[n.pos].event, env);
          PrefixCounts(Handle(svc, log[n.pos].event, env).0, k, DoneMark(svc));
          PrefixCounts(Handle(svc, log[n.pos].event, env).0, k, FailMark(svc));
        }
      case _ =>
    }
  }

  ghost predicate NodeInv(svc: Service, log: seq<Message>, n: Node) {
    NodeShape(log, n) && NothingLost(svc, log, n) && RedeliveryBound(svc, n)
  }

  lemma NodeStepKeepsInv(svc: Service, log: seq<Message>, n: Node, step: NodeStep)
    requires NodeInv(svc, log, n) && NodeEnabled(log, n, step)
    ensures NodeInv(svc, log, NodeAfter(svc, log, n, step))
  {
    StepKeepsShape(svc, log, n, step);
    StepKeepsNothingLost(svc, log, n, step);
    forall o: nat {
      StepKeepsBoundAt(svc, log, n, step, o);
    }
  }

  lemma LogGrowthKeepsInv(svc: Service, log: seq<Message>, n: Node, more: seq<Message>)
    requires NodeInv(svc, log, n)
    ensures NodeInv(svc, log + more, n)
  {
    assert forall o :: 0 <= o < |log| ==> (log + more)[o] == log[o];
  }

  // ---- The whole pipeline --------------------------------------------------------------------

  datatype World = World(topics: Topics, ai: Node, claims: Node)

  const Empty := World(Topics([], [], [], []), Fresh, Fresh)

  // A review decision is published as claim.approved or claim.rejected.
  predicate IsReview(m: Message) {
    m.Envelope? && (m.event.kind == ClaimApproved || m.event.kind == ClaimRejected)
  }

  // Producers outside the two consumers append to the two input topics: new claims and
  // uploads to New, review decisions to Analyzed.
  datatype Step =
    | AiStep(step: NodeStep)
    | ClaimStep(step: NodeStep)
    | Produce(topic: Topic, message: Message)

  predicate Enabled(w: World, s: Step) {
    match s
    case AiStep(step) => NodeEnabled(w.topics.created, w.ai, step)
    case ClaimStep(step) => NodeEnabled(w.topics.analyzed, w.claims, step)
    case Produce(topic, m) => topic == New || (topic == Analyzed && IsReview(m))
  }

  function Append(t: Topics, topic: Topic, m: Message): Topics {
    match topic
    case New => t.(created := t.created + [m])
    case Analyzed => t.(analyzed := t.analyzed + [m])
    case Flagged => t.(flagged := t.flagged + [m])
    case Failed => t.(failed := t.failed + [m])
  }

  // Only a publish that succeeds reaches its log.
  function Apply(t: Topics, effects: seq<Effect>): Topics
    decreases |effects|
  {
    if effects == [] then t
    else
      var e := effects[0];
      Apply(if e.Publish? && e.ok then Append(t, e.topic, Envelope(e.event)) else t, effects[1..])
  }

  function After(w: World, s: Step, threshold: real): World
    requires Enabled(w, s)
  {
    match s
    case AiStep(step) =>
      World(Apply(w.topics, StepEffects(AiService, w.topics.created, w.ai, step)),
            NodeAfter(AiService, w.topics.created, w.ai, step), w.claims)
    case ClaimStep(step) =>
      var svc := ClaimService(threshold);
      World(Apply(w.topics, StepEffects(svc, w.topics.analyzed, w.claims, step)),
            w.ai, NodeAfter(svc, w.topics.analyzed, w.claims, step))
    case Produce(topic, m) => w.(topics := Append(w.topics, topic, m))
  }

  predicate ValidRun(w: World, steps: seq<Step>, threshold: real)
    decreases |steps|
  {
    steps == [] || (Enabled(w, steps[0]) && ValidRun(After(w, steps[0], threshold), steps[1..], threshold))
  }

  function Run(w: World, steps: seq<Step>, threshold: real): World
    requires ValidRun(w, steps, threshold)
    decreases |steps|
  {
    if steps == [] then w else Run(After(w, steps[0], threshold), steps[1..], threshold)
  }

  ghost predicate Inv(w: World, threshold: real) {
    NodeInv(AiService, w.topics.created, w.ai) && NodeInv(ClaimService(threshold), w.topics.analyzed, w.claims)
  }

  lemma {:induction false} ApplyOnlyAppends(t: Topics, effects: seq<Effect>)
    ensures t.created <= Apply(t, effects).created && t.analyzed <= Apply(t, effects).analyzed
    ensures |Apply(t, effects).analyzed| <= |t.analyzed| + Count(effects, AnalyzedPublish)
    ensures Count(effects, OtherMark) == 0 ==> Apply(t, effects).created == t.created
    decreases |effects|
  {
    if effects != [] {
      var e := effects[0];
      var t1 := if e.Publish? && e.ok then Append(t, e.topic, Envelope(e.event)) else t;
      ApplyOnlyAppends(t1, effects[1..]);
    }
  }

  lemma PrefixGrowthKeepsInv(svc: Service, log: seq<Message>, n: Node, grown: seq<Message>)
    requires NodeInv(svc, log, n) && log <= grown
    ensures NodeInv(svc, grown, n)
  {
    assert grown == log + grown[|log|..];
    LogGrowthKeepsInv(svc, log, n, grown[|log|..]);
  }

  lemma StepKeepsInv(w: World, s: Step, threshold: real)
    requires Inv(w, threshold) && Enabled(w, s)
    ensures Inv(After(w, s, threshold), threshold)
  {
    var w' := After(w, s, threshold);
    var ai, claims := w.ai, w.claims;
    match s {
      case AiStep(step) =>
        NodeStepKeepsInv(AiService, w.topics.created, w.ai, step);
        ApplyOnlyAppends(w.topics, StepEffects(AiService, w.topics.created, w.ai, step));
      case ClaimStep(step) =>
        NodeStepKeepsInv(ClaimService(threshold), w.topics.analyzed, w.claims, step);
        ApplyOnlyAppends(w.topics, StepEffects(ClaimService(threshold), w.topics.analyzed, w.claims, step));
      case Produce(_, _) =>
    }
    PrefixGrowthKeepsInv(AiService, w.topics.created, w'.ai, w'.topics.created);
    PrefixGrowthKeepsInv(ClaimService(threshold), w.topics.analyzed, w'.claims, w'.topics.analyzed);
  }

  lemma {:induction false} RunKeepsInv(w: World, steps: seq<Step>, threshold: real)
    requires Inv(w, threshold) && ValidRun(w, steps, threshold)
    ensures Inv(Run(w, steps, threshold), threshold)
    decreases |steps|
  {
    if steps != [] {
      StepKeepsInv(w, steps[0], threshold);
      RunKeepsInv(After(w, steps[0], threshold), steps[1..], threshold);
    }
  }

  lemma FreshNode(svc: Service)
    ensures NodeInv(svc, [], Fresh)
  {
  }

  // Main result: with any crashes and redeliveries, every well-formed claim.created below
  // the committed offset had a claim.analyzed publish attempted or at least three
  // claim.failed publishes, and every claim.analyzed below it was applied or tried three
  // times.  No offset is reported more often than its deliveries allow.
  lemma NoClaimSilentlyLost(steps: seq<Step>, threshold: real, o: nat)
    requires ValidRun(Empty, steps, threshold)
    ensures
      var w := Run(Empty, steps, threshold);
      && w.ai.committed <= |w.topics.created| && w.claims.committed <= |w.topics.analyzed|
      && (o < w.ai.committed && NeedsHandling(AiService, w.topics.created[o]) ==> Accounted(AiService, w.ai.trace, o))
      && (o < w.claims.committed && NeedsHandling(ClaimService(threshold), w.topics.analyzed[o]) ==>
            Accounted(ClaimService(threshold), w.claims.trace, o))
      && CountAt(w.ai.trace, o, AnalyzedPublish) <= w.ai.crashes + 1
      && CountAt(w.ai.trace, o, FailedPublish) <= 3 * (w.ai.crashes + 1)
      && CountAt(w.claims.trace, o, UpdateDone) <= w.claims.crashes + 1
      && CountAt(w.claims.trace, o, UpdateFailed) <= 3 * (w.claims.crashes + 1)
  {
    FreshNode(AiService);
    FreshNode(ClaimService(threshold));
    RunKeepsInv(Empty, steps, threshold);
    var w := Run(Empty, steps, threshold);
    assert CountAt(w.ai.trace, o, DoneMark(AiService)) <= w.ai.crashes + 1;
    assert CountAt(w.ai.trace, o, FailMark(AiService)) <= MAX_RETRIES * (w.ai.crashes + 1);
    assert CountAt(w.claims.trace, o, DoneMark(ClaimService(threshold))) <= w.claims.crashes + 1;
    assert CountAt(w.claims.trace, o, FailMark(ClaimService(threshold))) <= MAX_RETRIES * (w.claims.crashes + 1);
  }

  // ---- Quiescence -------------------------------------------------------------------------

  predicate NodeInternal(step: NodeStep) {
    !step.Crash?
  }

  // Neither a crash nor a message from outside.
  predicate Internal(s: Step) {
    match s
    case AiStep(step) => NodeInternal(step)
    case ClaimStep(step) => NodeInternal(step)
    case Produce(_, _) => false
  }

  function NodeRank(log: seq<Message>, n: Node, weight: nat): int {
    weight * (|log| - n.pos) - (if n.failures.Some? then 1 + n.failures.value else 0) + (n.pos - n.committed)
  }

  // A message on claims.new costs five steps and can put one message on claims.analyzed,
  // which costs five more.
  function Rank(w: World): int {
    NodeRank(w.topics.created, w.ai, 10) + NodeRank(w.topics.analyzed, w.claims, 5)
  }

  ghost predicate Shaped(w: World) {
    NodeShape(w.topics.created, w.ai) && NodeShape(w.topics.analyzed, w.claims)
  }

  lemma RankNonNegative(w: World)
    requires Shaped(w)
    ensures 0 <= Rank(w)
  {
  }

  lemma NodeRankDecreases(svc: Service, log: seq<Message>, n: Node, step: NodeStep, weight: nat)
    requires NodeShape(log, n) && NodeEnabled(log, n, step) && NodeInternal(step) && 5 <= weight
    ensures
      var n' := NodeAfter(svc, log, n, step);
      var published := Count(StepEffects(svc, log, n, step), AnalyzedPublish);
      && (svc.AiService? && weight == 10 ==> NodeRank(log, n', weight) + 5 * published < NodeRank(log, n, weight))
      && (svc.ClaimService? ==> published == 0 && NodeRank(log, n', weight) < NodeRank(log, n, weight))
  {
    var n' := NodeAfter(svc, log, n, step);
    assert n'.pos == n.pos + 1 ==> weight * (|log| - n'.pos) == weight * (|log| - n.pos) - weight;
    match step {
      case Attempt(env) => AttemptCounts(svc, log[n.pos].event, env);
      case _ =>
    }
  }

  lemma AiStepLowersRank(w: World, step: NodeStep, threshold: real)
    requires Shaped(w) && Enabled(w, AiStep(step)) && NodeInternal(step)
    ensures Shaped(After(w, AiStep(step), threshold))
    ensures Rank(After(w, AiStep(step), threshold)) < Rank(w)
  {
    var effects := StepEffects(AiService, w.topics.created, w.ai, step);
    StepKeepsShape(AiService, w.topics.created, w.ai, step);
    NodeRankDecreases(AiService, w.topics.created, w.ai, step, 10);
    ApplyOnlyAppends(w.topics, effects);
    NoPublishToNew(AiService, w.topics.created, w.ai, step);
  }

  lemma NoPublishToNew(svc: Service, log: seq<Message>, n: Node, step: NodeStep)
    requires NodeEnabled(log, n, step)
    ensures Count(StepEffects(svc, log, n, step), OtherMark) == 0
  {
    match step {
      case Attempt(env) => AttemptCounts(svc, log[n.pos].event, env);
      case Crash(env, k) =>
        if n.failures.Some? {
          AttemptCounts(svc, log[n.pos].event, env);
          PrefixCounts(Handle(svc, log[n.pos].event, env).0, k, OtherMark);
        }
      case _ =>
    }
  }

  lemma ClaimStepLowersRank(w: World, step: NodeStep, threshold: real)
    requires Shaped(w) && Enabled(w, ClaimStep(step)) && NodeInternal(step)
    ensures Shaped(After(w, ClaimStep(step), threshold))
    ensures Rank(After(w, ClaimStep(step), threshold)) < Rank(w)
  {
    var svc := ClaimService(threshold);
    var effects := StepEffects(svc, w.topics.analyzed, w.claims, step);
    StepKeepsShape(svc, w.topics.analyzed, w.claims, step);
    NodeRankDecreases(svc, w.topics.analyzed, w.claims, step, 5);
    ApplyOnlyAppends(w.topics, effects);
    NoPublishToNew(svc, w.topics.analyzed, w.claims, step);
  }

  // Between crashes and new messages the pipeline makes at most Rank steps.
  lemma {:induction false} PipelineDrains(w: World, steps: seq<Step>, threshold: real)
    requires Shaped(w) && ValidRun(w, steps, threshold)
    requires forall i :: 0 <= i < |steps| ==> Internal(steps[i])
    ensures Shaped(Run(w, steps, threshold))
    ensures |steps| <= |steps| + Rank(Run(w, steps, threshold)) <= Rank(w)
    decreases |steps|
  {
    if steps == [] {
      RankNonNegative(w);
    } else {
      match steps[0] {
        case AiStep(step) => AiStepLowersRank(w, step, threshold);
        case ClaimStep(step) => ClaimStepLowersRank(w, step, threshold);
      }
      PipelineDrains(After(w, steps[0], threshold), steps[1..], threshold);
    }
  }

  predicate CaughtUp(log: seq<Message>, n: Node) {
    n.failures.None? && n.committed == n.pos == |log|
  }

  // It stops exactly when both consumers have handled and committed everything.
  lemma StuckIffDrained(w: World)
    requires Shaped(w)
    ensures (forall s :: Internal(s) ==> !Enabled(w, s)) <==>
            CaughtUp(w.topics.created, w.ai) && CaughtUp(w.topics.analyzed, w.claims)
  {
    if !CaughtUp(w.topics.created, w.ai) {
      var step := if w.ai.failures.Some? then Attempt(Env(None, true, true, true, true))
                  else if w.ai.pos < |w.topics.created| then Fetch else Flush(w.ai.pos);
      assert Enabled(w, AiStep(step)) && Internal(AiStep(step));
    }
    if !CaughtUp(w.topics.analyzed, w.claims) {
      var step := if w.claims.failures.Some? then Attempt(Env(None, true, true, true, true))
                  else if w.claims.pos < |w.topics.analyzed| then Fetch else Flush(w.claims.pos);
      assert Enabled(w, ClaimStep(step)) && Internal(ClaimStep(step));
    }
  }

  // ---- One uninterrupted delivery ---------------------------------------------------------

  // The attempt loop of one delivery, met by the environments envs in turn.
  function Deliver(svc: Service, e: Event, envs: seq<Env>, failures: nat): (seq<Effect>, bool)
    requires failures < MAX_RETRIES && |envs| >= MAX_RETRIES - failures
    decreases MAX_RETRIES - failures
  {
    var (effects, ok) := Handle(svc, e, envs[0]);
    if ok || failures + 1 == MAX_RETRIES then (effects, ok)
    else
      var (rest, done) := Deliver(svc, e, envs[1..], failures + 1);
      (effects + rest, done)
  }

  lemma {:induction false} CountConcat(a: seq<Effect>, b: seq<Effect>, m: Mark)
    ensures Count(a + b, m) == Count(a, m) + Count(b, m)
  {
    if a == [] {
      assert a + b == b;
    } else {
      assert (a + b)[1..] == a[1..] + b;
      CountConcat(a[1..], b, m);
    }
  }

  // A delivery of a well-formed claim publishes claim.analyzed once and claim.failed fewer
  // than three times if it succeeds, and otherwise only claim.failed, three times.
  lemma {:induction false} DeliveryOutcome(e: Event, envs: seq<Env>, failures: nat)
    requires failures < MAX_RETRIES && |envs| >= MAX_RETRIES - failures && WellFormed(e, ClaimCreated)
    ensures var (effects, ok) := Deliver(AiService, e, envs, failures);
      && Count(effects, AnalyzedPublish) == (if ok then 1 else 0)
      && (ok ==> Count(effects, FailedPublish) + failures < 3)
      && (!ok ==> Count(effects, FailedPublish) + failures == 3)
    decreases MAX_RETRIES - failures
  {
    AttemptCounts(AiService, e, envs[0]);
    var (effects, ok) := Handle(AiService, e, envs[0]);
    if !ok && failures + 1 < MAX_RETRIES {
      DeliveryOutcome(e, envs[1..], failures + 1);
      var rest := Deliver(AiService, e, envs[1..], failures + 1).0;
      CountConcat(effects, rest, AnalyzedPublish);
      CountConcat(effects, rest, FailedPublish);
    }
  }

  // ---- Where the messages come from ---------------------------------------------------------

  predicate ClaimOf(m: Message, company: string) {
    m.Envelope? && WellFormed(m.event, ClaimCreated) && m.event.payload.company == company
  }

  predicate FailureOf(m: Message, e: Event) {
    && m.Envelope? && WellFormed(m.event, ClaimCreated)
    && e == Event(ClaimFailed, Claim(m.event.payload.claimId, m.event.payload.company, 0.0))
  }

  predicate ResultOf(m: Message, e: Event) {
    m.Envelope? && WellFormed(m.event, ClaimAnalyzed) && e == m.event.(kind := ClaimFlagged)
  }

  // What a published event must stem from: a failure repeats the id and company of a claim
  // on claims.new; a result carries the company of one; a flag has a score at or above the
  // threshold of the service that raised it, and stems from a claim or repeats a result.
  ghost predicate Justified(t: Topics, threshold: real, topic: Topic, e: Event) {
    match topic
    case New => false
    case Failed => exists o :: 0 <= o < |t.created| && FailureOf(t.created[o], e)
    case Analyzed =>
      && e.kind == ClaimAnalyzed && e.payload.Claim?
      && exists o :: 0 <= o < |t.created| && ClaimOf(t.created[o], e.payload.company)
    case Flagged =>
      && e.kind == ClaimFlagged && e.payload.Claim?
      && ((e.payload.score >= 0.80 && exists o :: 0 <= o < |t.created| && ClaimOf(t.created[o], e.payload.company))
          || (e.payload.score >= threshold && exists o :: 0 <= o < |t.analyzed| && ResultOf(t.analyzed[o], e)))
  }

  ghost predicate AllJustified(t: Topics, threshold: real, topic: Topic, log: seq<Message>) {
    forall i :: 0 <= i < |log| ==> log[i].Envelope? && Justified(t, threshold, topic, log[i].event)
  }

  ghost predicate Traceable(t: Topics, threshold: real) {
    && AllJustified(t, threshold, Failed, t.failed)
    && AllJustified(t, threshold, Flagged, t.flagged)
    && (forall i :: 0 <= i < |t.analyzed| ==>
          IsReview(t.analyzed[i])
          || (t.analyzed[i].Envelope? && Justified(t, threshold, Analyzed, t.analyzed[i].event)))
  }

  lemma JustifiedGrows(t: Topics, t': Topics, threshold: real, topic: Topic, e: Event)
    requires Justified(t, threshold, topic, e) && t.created <= t'.created && t.analyzed <= t'.analyzed
    ensures Justified(t', threshold, topic, e)
  {
    assert forall o :: 0 <= o < |t.created| ==> t'.created[o] == t.created[o];
    assert forall o :: 0 <= o < |t.analyzed| ==> t'.analyzed[o] == t.analyzed[o];
  }

  ghost predicate EffectsJustified(t: Topics, threshold: real, effects: seq<Effect>) {
    forall i :: 0 <= i < |effects| && effects[i].Publish? ==> Justified(t, threshold, effects[i].topic, effects[i].event)
  }

  lemma AttemptJustified(t: Topics, threshold: real, svc: Service, o: nat, env: Env)
    requires svc == AiService || svc == ClaimService(threshold)
    requires var log := if svc.AiService? then t.created else t.analyzed; o < |log| && log[o].Envelope?
    ensures var log := if svc.AiService? then t.created else t.analyzed;
      EffectsJustified(t, threshold, Handle(svc, log[o].event, env).0)
  {
    var log := if svc.AiService? then t.created else t.analyzed;
    var e := log[o].event;
    if svc.AiService? && WellFormed(e, ClaimCreated) {
      assert ClaimOf(t.created[o], e.payload.company);
      assert FailureOf(t.created[o], Event(ClaimFailed, Claim(e.payload.claimId, e.payload.company, 0.0)));
    }
    if svc.ClaimService? && WellFormed(e, ClaimAnalyzed) {
      assert ResultOf(t.analyzed[o], e.(kind := ClaimFlagged));
    }
  }

  lemma TraceableAppend(t: Topics, threshold: real, topic: Topic, m: Message)
    requires Traceable(t, threshold)
    requires topic == New || (topic == Analyzed && IsReview(m)) || (m.Envelope? && Justified(t, threshold, topic, m.event))
    ensures Traceable(Append(t, topic, m), threshold)
  {
    var t' := Append(t, topic, m);
    forall k, e | Justified(t, threshold, k, e) ensures Justified(t', threshold, k, e) {
      JustifiedGrows(t, t', threshold, k, e);
    }
  }

  lemma {:induction false} TraceableApply(t: Topics, threshold: real, effects: seq<Effect>)
    requires Traceable(t, threshold) && EffectsJustified(t, threshold, effects)
    ensures Traceable(Apply(t, effects), threshold)
    decreases |effects|
  {
    if effects != [] {
      var e := effects[0];
      var t1 := if e.Publish? && e.ok then Append(t, e.topic, Envelope(e.event)) else t;
      if e.Publish? && e.ok {
        TraceableAppend(t, threshold, e.topic, Envelope(e.event));
      }
      forall i | 0 <= i < |effects[1..]| && effects[1..][i].Publish?
        ensures Justified(t1, threshold, effects[1..][i].topic, effects[1..][i].event)
      {
        JustifiedGrows(t, t1, threshold, effects[i + 1].topic, effects[i + 1].event);
      }
      TraceableApply(t1, threshold, effects[1..]);
    }
  }

  lemma StepKeepsTraceable(w: World, s: Step, threshold: real)
    requires Traceable(w.topics, threshold) && Enabled(w, s)
    ensures Traceable(After(w, s, threshold).topics, threshold)
  {
    match s {
      case Produce(topic, m) => TraceableAppend(w.topics, threshold, topic, m);
      case AiStep(step) =>
        if (step.Attempt? || step.Crash?) && w.ai.failures.Some? {
          AttemptJustified(w.topics, threshold, AiService, w.ai.pos, if step.Attempt? then step.env else step.during);
        }
        TraceableApply(w.topics, threshold, StepEffects(AiService, w.topics.created, w.ai, step));
      case ClaimStep(step) =>
        var svc := ClaimService(threshold);
        if (step.Attempt? || step.Crash?) && w.claims.failures.Some? {
          AttemptJustified(w.topics, threshold, svc, w.claims.pos, if step.Attempt? then step.env else step.during);
        }
        TraceableApply(w.topics, threshold, StepEffects(svc, w.topics.analyzed, w.claims, step));
    }
  }

  lemma {:induction false} TraceableFrom(w: World, steps: seq<Step>, threshold: real)
    requires Traceable(w.topics, threshold) && ValidRun(w, steps, threshold)
    ensures Traceable(Run(w, steps, threshold).topics, threshold)
    decreases |steps|
  {
    if steps != [] {
      StepKeepsTraceable(w, steps[0], threshold);
      TraceableFrom(After(w, steps[0], threshold), steps[1..], threshold);
    }
  }

  // In every run each message on a topic stems from a claim: nothing is invented, also not
  // by redelivery.
  lemma EveryMessageHasAnOrigin(steps: seq<Step>, threshold: real)
    requires ValidRun(Empty, steps, threshold)
    ensures Traceable(Run(Empty, steps, threshold).topics, threshold)
  {
    TraceableFrom(Empty, steps, threshold);
  }
}
