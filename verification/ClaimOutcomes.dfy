// What became of each claim, over whole runs of the pipeline: where the messages on
// claims.analyzed come from, and which claims reached the claim service.
module ClaimOutcomes {
  import opened Common
  import opened EventPipeline

  // ---- Recorded publishes and the topics ------------------------------------------------------

  function LogOf(t: Topics, topic: Topic): seq<Message> {
    match topic
    case New => t.created
    case Analyzed => t.analyzed
    case Flagged => t.flagged
    case Failed => t.failed
  }

  predicate Logged(t: Topics, e: Effect) {
    e.Publish? && e.ok ==> Envelope(e.event) in LogOf(t, e.topic)
  }

  predicate AllLogged(t: Topics, trace: seq<Record>) {
    forall i :: 0 <= i < |trace| ==> Logged(t, trace[i].effect)
  }

  predicate OnlyGrew(t: Topics, t': Topics) {
    t.created <= t'.created && t.analyzed <= t'.analyzed && t.flagged <= t'.flagged && t.failed <= t'.failed
  }

  lemma {:induction false} ApplyLogs(t: Topics, effects: seq<Effect>)
    ensures OnlyGrew(t, Apply(t, effects))
    ensures forall i :: 0 <= i < |effects| ==> Logged(Apply(t, effects), effects[i])
    decreases |effects|
  {
    if effects != [] {
      var e := effects[0];
      var t1 := if e.Publish? && e.ok then Append(t, e.topic, Envelope(e.event)) else t;
      ApplyLogs(t1, effects[1..]);
      assert Logged(t1, e);
      assert forall i :: 0 < i < |effects| ==> effects[i] == effects[1..][i - 1];
    }
  }

  lemma {:induction false} StampKeeps(o: nat, effects: seq<Effect>)
    ensures forall i :: 0 <= i < |effects| ==> Stamp(o, effects)[i] == Record(o, effects[i])
  {
    if effects != [] {
      StampKeeps(o, effects[1..]);
    }
  }

  lemma GrowthKeepsLogged(t: Topics, t': Topics, trace: seq<Record>)
    requires OnlyGrew(t, t') && AllLogged(t, trace)
    ensures AllLogged(t', trace)
  {
    forall i | 0 <= i < |trace| ensures Logged(t', trace[i].effect) {
      assert Logged(t, trace[i].effect);
    }
  }

  lemma EffectsAreLogged(t: Topics, trace: seq<Record>, o: nat, effects: seq<Effect>)
    requires AllLogged(t, trace)
    ensures OnlyGrew(t, Apply(t, effects)) && AllLogged(Apply(t, effects), trace + Stamp(o, effects))
  {
    ApplyLogs(t, effects);
    StampKeeps(o, effects);
    GrowthKeepsLogged(t, Apply(t, effects), trace);
  }

  lemma StepLogs(w: World, s: Step, threshold: real)
    requires Enabled(w, s) && AllLogged(w.topics, w.ai.trace) && AllLogged(w.topics, w.claims.trace)
    ensures
      var w' := After(w, s, threshold);
      OnlyGrew(w.topics, w'.topics) && AllLogged(w'.topics, w'.ai.trace) && AllLogged(w'.topics, w'.claims.trace)
  {
    match s
    case AiStep(step) =>
      var effects := StepEffects(AiService, w.topics.created, w.ai, step);
      EffectsAreLogged(w.topics, w.ai.trace, w.ai.pos, effects);
      GrowthKeepsLogged(w.topics, Apply(w.topics, effects), w.claims.trace);
    case ClaimStep(step) =>
      var effects := StepEffects(ClaimService(threshold), w.topics.analyzed, w.claims, step);
      EffectsAreLogged(w.topics, w.claims.trace, w.claims.pos, effects);
      GrowthKeepsLogged(w.topics, Apply(w.topics, effects), w.ai.trace);
    case Produce(topic, m) =>
      GrowthKeepsLogged(w.topics, Append(w.topics, topic, m), w.ai.trace);
      GrowthKeepsLogged(w.topics, Append(w.topics, topic, m), w.claims.trace);
  }

  // In every run, whatever crashed, each publish recorded as successful is in its topic's log.
  lemma {:induction false} SuccessfulPublishesAreLogged(w: World, steps: seq<Step>, threshold: real)
    requires ValidRun(w, steps, threshold) && AllLogged(w.topics, w.ai.trace) && AllLogged(w.topics, w.claims.trace)
    ensures
      var w' := Run(w, steps, threshold);
      OnlyGrew(w.topics, w'.topics) && AllLogged(w'.topics, w'.ai.trace) && AllLogged(w'.topics, w'.claims.trace)
    decreases |steps|
  {
    if steps != [] {
      StepLogs(w, steps[0], threshold);
      SuccessfulPublishesAreLogged(After(w, steps[0], threshold), steps[1..], threshold);
    }
  }

  // ---- Where the messages on claims.analyzed come from ------------------------------------------

  // How many messages a step adds to claims.analyzed.
  function Added(w: World, s: Step, threshold: real): nat
    requires Enabled(w, s)
  {
    var n, m := |w.topics.analyzed|, |After(w, s, threshold).topics.analyzed|;
    if n <= m then m - n else 0
  }

  // The offset on claims.new of the claim being handled; a review has none.
  function Source(w: World, s: Step): Option<nat> {
    if s.AiStep? then Some(w.ai.pos) else None
  }

  // The source of each message a run adds to claims.analyzed, in order.
  function Origins(w: World, steps: seq<Step>, threshold: real): seq<Option<nat>>
    requires ValidRun(w, steps, threshold)
    decreases |steps|
  {
    if steps == [] then []
    else seq(Added(w, steps[0], threshold), i => Source(w, steps[0])) + Origins(After(w, steps[0], threshold), steps[1..], threshold)
  }

  predicate SentResult(e: Effect) {
    e.Publish? && e.topic.Analyzed? && e.ok
  }

  function CountSent(effects: seq<Effect>): nat {
    if effects == [] then 0 else (if SentResult(effects[0]) then 1 else 0) + CountSent(effects[1..])
  }

  // The successful publishes of a result recorded for an offset.
  function SentAt(trace: seq<Record>, o: nat): nat {
    if trace == [] then 0
    else (if trace[0].offset == o && SentResult(trace[0].effect) then 1 else 0) + SentAt(trace[1..], o)
  }

  lemma {:induction false} SentAtConcat(a: seq<Record>, b: seq<Record>, o: nat)
    ensures SentAt(a + b, o) == SentAt(a, o) + SentAt(b, o)
  {
    if a == [] {
      assert a + b == b;
    } else {
      assert (a + b)[1..] == a[1..] + b;
      SentAtConcat(a[1..], b, o);
    }
  }

  lemma {:induction false} SentAtStamp(effects: seq<Effect>, p: nat, o: nat)
    ensures SentAt(Stamp(p, effects), o) == if p == o then CountSent(effects) else 0
  {
    if effects != [] {
      assert Stamp(p, effects)[1..] == Stamp(p, effects[1..]);
      SentAtStamp(effects[1..], p, o);
    }
  }

  lemma {:induction false} ApplyAdds(t: Topics, effects: seq<Effect>)
    ensures |Apply(t, effects).analyzed| == |t.analyzed| + CountSent(effects)
    decreases |effects|
  {
    if effects != [] {
      var e := effects[0];
      ApplyAdds(if e.Publish? && e.ok then Append(t, e.topic, Envelope(e.event)) else t, effects[1..]);
    }
  }

  lemma {:induction false} RepeatedOccurrences(x: Option<nat>, n: nat, y: Option<nat>)
    ensures Occurrences(seq(n, i => x), y) == if x == y then n else 0
  {
    if n > 0 {
      assert seq(n, i => x)[1..] == seq(n - 1, i => x);
      RepeatedOccurrences(x, n - 1, y);
    }
  }

  lemma StepSends(w: World, s: Step, threshold: real, o: nat)
    requires Enabled(w, s)
    ensures SentAt(After(w, s, threshold).ai.trace, o) ==
            SentAt(w.ai.trace, o) + if Source(w, s) == Some(o) then Added(w, s, threshold) else 0
  {
    if s.AiStep? {
      var effects := StepEffects(AiService, w.topics.created, w.ai, s.step);
      ApplyAdds(w.topics, effects);
      SentAtConcat(w.ai.trace, Stamp(w.ai.pos, effects), o);
      SentAtStamp(effects, w.ai.pos, o);
    }
  }

  // The messages on claims.analyzed that stem from an offset are as many as the successful
  // publishes recorded for it.
  lemma {:induction false} CopiesAreSends(w: World, steps: seq<Step>, threshold: real, o: nat)
    requires ValidRun(w, steps, threshold)
    ensures SentAt(w.ai.trace, o) + Occurrences(Origins(w, steps, threshold), Some(o)) ==
            SentAt(Run(w, steps, threshold).ai.trace, o)
    decreases |steps|
  {
    if steps != [] {
      var w1, n := After(w, steps[0], threshold), Added(w, steps[0], threshold);
      StepSends(w, steps[0], threshold, o);
      RepeatedOccurrences(Source(w, steps[0]), n, Some(o));
      OccurrencesConcat(seq(n, i => Source(w, steps[0])), Origins(w1, steps[1..], threshold), Some(o));
      CopiesAreSends(w1, steps[1..], threshold, o);
    }
  }

  // A result of a claim: its kind, and the company of the claim.
  predicate IsResult(claim: Message, m: Message) {
    && NeedsHandling(AiService, claim) && m.Envelope? && m.event.kind == ClaimAnalyzed && m.event.payload.Claim?
    && m.event.payload.company == claim.event.payload.company
  }

  predicate AllResults(claim: Message, ms: seq<Message>) {
    forall i :: 0 <= i < |ms| ==> IsResult(claim, ms[i])
  }

  lemma {:induction false} ApplyAddsResults(t: Topics, effects: seq<Effect>, claim: Message)
    requires forall i :: 0 <= i < |effects| && SentResult(effects[i]) ==> IsResult(claim, Envelope(effects[i].event))
    ensures t.analyzed <= Apply(t, effects).analyzed
    ensures AllResults(claim, Apply(t, effects).analyzed[|t.analyzed|..])
    decreases |effects|
  {
    if effects != [] {
      var e := effects[0];
      var t1 := if e.Publish? && e.ok then Append(t, e.topic, Envelope(e.event)) else t;
      ApplyAddsResults(t1, effects[1..], claim);
      var t2 := Apply(t1, effects[1..]);
      if SentResult(e) {
        assert t2.analyzed[|t.analyzed|..] == [t1.analyzed[|t.analyzed|]] + t2.analyzed[|t1.analyzed|..];
      }
    }
  }

  lemma StepAddsResults(w: World, step: NodeStep, threshold: real)
    requires Enabled(w, AiStep(step))
    ensures
      var w' := After(w, AiStep(step), threshold);
      && w.topics.analyzed <= w'.topics.analyzed
      && (|w'.topics.analyzed| > |w.topics.analyzed| ==>
          (w.ai.pos < |w.topics.created|
           && AllResults(w.topics.created[w.ai.pos], w'.topics.analyzed[|w.topics.analyzed|..])))
  {
    var effects := StepEffects(AiService, w.topics.created, w.ai, step);
    if effects == [] {
    } else {
      ApplyAddsResults(w.topics, effects, w.topics.created[w.ai.pos]);
    }
  }

  predicate OriginRight(t: Topics, q: nat, o: nat) {
    q < |t.analyzed| && o < |t.created| && IsResult(t.created[o], t.analyzed[q])
  }

  // Each message is a result of the claim it stems from.
  lemma {:induction false} OriginsAreRight(w: World, steps: seq<Step>, threshold: real, i: nat, o: nat)
    requires ValidRun(w, steps, threshold) && i < |Origins(w, steps, threshold)| && Origins(w, steps, threshold)[i] == Some(o)
    ensures OnlyGrew(w.topics, Run(w, steps, threshold).topics)
    ensures OriginRight(Run(w, steps, threshold).topics, |w.topics.analyzed| + i, o)
    decreases |steps|
  {
    var w1, n := After(w, steps[0], threshold), Added(w, steps[0], threshold);
    StepGrows(w, steps[0], threshold);
    RunGrows(w1, steps[1..], threshold);
    if i < n {
      StepAddsResults(w, steps[0].step, threshold);
      assert w1.topics.analyzed[|w.topics.analyzed|..][i] == w1.topics.analyzed[|w.topics.analyzed| + i];
      assert OriginRight(w1.topics, |w.topics.analyzed| + i, o);
    } else {
      OriginsAreRight(w1, steps[1..], threshold, i - n, o);
    }
  }

  lemma StepGrows(w: World, s: Step, threshold: real)
    requires Enabled(w, s)
    ensures OnlyGrew(w.topics, After(w, s, threshold).topics)
  {
    match s
    case AiStep(step) => ApplyLogs(w.topics, StepEffects(AiService, w.topics.created, w.ai, step));
    case ClaimStep(step) => ApplyLogs(w.topics, StepEffects(ClaimService(threshold), w.topics.analyzed, w.claims, step));
    case Produce(topic, m) =>
  }

  lemma {:induction false} RunGrows(w: World, steps: seq<Step>, threshold: real)
    requires ValidRun(w, steps, threshold)
    ensures OnlyGrew(w.topics, Run(w, steps, threshold).topics)
    ensures |Origins(w, steps, threshold)| == |Run(w, steps, threshold).topics.analyzed| - |w.topics.analyzed|
    decreases |steps|
  {
    if steps != [] {
      StepGrows(w, steps[0], threshold);
      RunGrows(After(w, steps[0], threshold), steps[1..], threshold);
    }
  }

  // ---- Main results -------------------------------------------------------------------------------

  // Some publish of a result recorded for the offset succeeded.
  predicate SomeSent(trace: seq<Record>, o: nat) {
    exists i :: 0 <= i < |trace| && trace[i].offset == o && SentResult(trace[i].effect)
  }

  lemma {:induction false} SomeSentIff(trace: seq<Record>, o: nat)
    ensures SentAt(trace, o) > 0 <==> SomeSent(trace, o)
  {
    if trace != [] {
      SomeSentIff(trace[1..], o);
      if trace[0].offset == o && SentResult(trace[0].effect) {
        assert SomeSent(trace, o);
      } else if SomeSent(trace, o) {
        var i :| 0 <= i < |trace| && trace[i].offset == o && SentResult(trace[i].effect);
        assert trace[1..][i - 1] == trace[i];
      }
    }
  }

  lemma {:induction false} InOccurrences<T>(s: seq<T>, x: T)
    ensures Occurrences(s, x) > 0 <==> x in s
  {
    if s != [] {
      InOccurrences(s[1..], x);
    }
  }

  // In every run with any crashes: a result of a claim is on claims.analyzed exactly when one
  // of the publishes recorded for it succeeded, once for each that did; and a well-formed claim
  // below the committed offset that was not reported as failed three times had such a publish
  // tried, so it is lost to the claim service exactly when all its publishes failed.
  lemma {:induction false} ResultReachesTopicIff(steps: seq<Step>, threshold: real, o: nat)
    requires ValidRun(Empty, steps, threshold)
    ensures
      var w, origins := Run(Empty, steps, threshold), Origins(Empty, steps, threshold);
      && |origins| == |w.topics.analyzed| && w.ai.committed <= |w.topics.created|
      && (o < w.ai.committed && NeedsHandling(AiService, w.topics.created[o]) && CountAt(w.ai.trace, o, FailedPublish) < 3 ==>
            CountAt(w.ai.trace, o, AnalyzedPublish) >= 1)
      && (Some(o) in origins <==> SomeSent(w.ai.trace, o))
      && Occurrences(origins, Some(o)) == SentAt(w.ai.trace, o)
  {
    NoClaimSilentlyLost(steps, threshold, o);
    RunGrows(Empty, steps, threshold);
    CopiesAreSends(Empty, steps, threshold, o);
    SomeSentIff(Run(Empty, steps, threshold).ai.trace, o);
    InOccurrences(Origins(Empty, steps, threshold), Some(o));
  }

  // What became of a claim: three failures reported; or a result computed and none of its
  // publishes succeeded; or a result on claims.analyzed at q, which the claim service applied
  // or tried three times unless the result names no claim.
  predicate Failed3(w: World, o: nat) {
    CountAt(w.ai.trace, o, FailedPublish) >= 3
  }

  predicate Unsent(w: World, o: nat) {
    CountAt(w.ai.trace, o, AnalyzedPublish) >= 1 && !SomeSent(w.ai.trace, o)
  }

  predicate Delivered(w: World, threshold: real, o: nat, q: nat) {
    && OriginRight(w.topics, q, o)
    && (w.topics.analyzed[q].event.payload.claimId != "" ==> Accounted(ClaimService(threshold), w.claims.trace, q))
  }

  lemma {:induction false} SentIsDelivered(steps: seq<Step>, threshold: real, o: nat, q: nat)
    requires ValidRun(Empty, steps, threshold)
    requires CaughtUp(Run(Empty, steps, threshold).topics.analyzed, Run(Empty, steps, threshold).claims)
    requires q < |Origins(Empty, steps, threshold)| && Origins(Empty, steps, threshold)[q] == Some(o)
    ensures Delivered(Run(Empty, steps, threshold), threshold, o, q)
  {
    OriginsAreRight(Empty, steps, threshold, q, o);
    NoClaimSilentlyLost(steps, threshold, q);
  }

  // End to end: once both consumers have caught up, in every run with any crashes, each
  // well-formed claim came to one of these ends, and to the third if a result of it was sent.
  lemma {:induction false} EveryClaimHasAnOutcome(steps: seq<Step>, threshold: real, o: nat)
    requires ValidRun(Empty, steps, threshold)
    requires CaughtUp(Run(Empty, steps, threshold).topics.created, Run(Empty, steps, threshold).ai)
    requires CaughtUp(Run(Empty, steps, threshold).topics.analyzed, Run(Empty, steps, threshold).claims)
    requires o < |Run(Empty, steps, threshold).topics.created|
    requires NeedsHandling(AiService, Run(Empty, steps, threshold).topics.created[o])
    ensures
      var w := Run(Empty, steps, threshold);
      && (Failed3(w, o) || Unsent(w, o) || SomeSent(w.ai.trace, o))
      && (SomeSent(w.ai.trace, o) ==> exists q :: Delivered(w, threshold, o, q))
  {
    var w, origins := Run(Empty, steps, threshold), Origins(Empty, steps, threshold);
    NoClaimSilentlyLost(steps, threshold, o);
    if SomeSent(w.ai.trace, o) {
      CopiesAreSends(Empty, steps, threshold, o);
      SomeSentIff(w.ai.trace, o);
      InOccurrences(origins, Some(o));
      var q :| 0 <= q < |origins| && origins[q] == Some(o);
      SentIsDelivered(steps, threshold, o, q);
    }
  }
}
