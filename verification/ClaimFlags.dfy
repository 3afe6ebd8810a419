// Over whole runs of the pipeline: flags are published for high scores, and for nothing else.
module ClaimFlags {
  import opened Common
  import opened EventPipeline

  // The flag that should follow a recorded effect at once: after a result of at least 0.80, or
  // after the update for a result that reaches the claim service's threshold, a flag that
  // repeats claim id, company and score.
  function FlagDue(svc: Service, log: seq<Message>, r: Record): Option<Event> {
    match svc
    case AiService =>
      if r.effect.Publish? && r.effect.topic.Analyzed? && r.effect.event.payload.Claim? && r.effect.event.payload.score >= 0.80
      then Some(Event(ClaimFlagged, r.effect.event.payload)) else None
    case ClaimService(threshold) =>
      if r.effect.UpdateAnalysis? && r.effect.ok && r.offset < |log| && log[r.offset].Envelope?
         && log[r.offset].event.payload.Claim? && log[r.offset].event.payload.score >= threshold
      then Some(Event(ClaimFlagged, log[r.offset].event.payload)) else None
  }

  predicate IsFlag(r: Record) {
    r.effect.Publish? && r.effect.topic.Flagged?
  }

  predicate Follows(trace: seq<Record>, i: nat, flag: Event)
    requires i < |trace|
  {
    i + 1 < |trace| && IsFlag(trace[i + 1]) && trace[i + 1].effect.event == flag && trace[i + 1].offset == trace[i].offset
  }

  // The effects whose flag does not follow.
  function Unflagged(svc: Service, log: seq<Message>, trace: seq<Record>): nat {
    if trace == [] then 0
    else
      var due := FlagDue(svc, log, trace[0]);
      (if due.Some? && !Follows(trace, 0, due.value) then 1 else 0) + Unflagged(svc, log, trace[1..])
  }

  predicate Due(svc: Service, log: seq<Message>, trace: seq<Record>, i: nat)
    requires i < |trace|
  {
    IsFlag(trace[i]) ==>
      i > 0 && trace[i - 1].offset == trace[i].offset && FlagDue(svc, log, trace[i - 1]) == Some(trace[i].effect.event)
  }

  predicate FlagsAreDue(svc: Service, log: seq<Message>, trace: seq<Record>) {
    forall i :: 0 <= i < |trace| ==> Due(svc, log, trace, i)
  }

  lemma {:induction false} UnflaggedConcat(svc: Service, log: seq<Message>, a: seq<Record>, b: seq<Record>)
    requires b == [] || !IsFlag(b[0])
    ensures Unflagged(svc, log, a + b) == Unflagged(svc, log, a) + Unflagged(svc, log, b)
    decreases |a|
  {
    if a == [] {
      assert a + b == b;
    } else {
      assert (a + b)[1..] == a[1..] + b;
      UnflaggedConcat(svc, log, a[1..], b);
      assert |a| > 1 ==> (a + b)[1] == a[1];
      assert |a| == 1 && b != [] ==> (a + b)[1] == b[0];
    }
  }

  lemma DueConcat(svc: Service, log: seq<Message>, a: seq<Record>, b: seq<Record>)
    requires FlagsAreDue(svc, log, a) && FlagsAreDue(svc, log, b)
    ensures FlagsAreDue(svc, log, a + b)
  {
    forall i | 0 <= i < |a + b| ensures Due(svc, log, a + b, i) {
      if i < |a| {
        assert Due(svc, log, a, i);
      } else {
        assert Due(svc, log, b, i - |a|);
      }
    }
  }

  // ---- One attempt, whole or cut short ----------------------------------------------------------

  lemma TwoRecords(svc: Service, log: seq<Message>, r: Record, flag: Record)
    ensures Unflagged(svc, log, [r]) == if FlagDue(svc, log, r).Some? then 1 else 0
    ensures IsFlag(flag) && flag.offset == r.offset && FlagDue(svc, log, r) == Some(flag.effect.event) ==>
            Unflagged(svc, log, [r, flag]) == 0
    ensures Unflagged(svc, log, []) == 0
  {
    assert [r][1..] == [] && [r, flag][1..] == [flag] && [flag][1..] == [];
    assert FlagDue(svc, log, flag).None? || !IsFlag(flag);
  }

  lemma StampOne(o: nat, e: Effect)
    ensures Stamp(o, [e]) == [Record(o, e)]
  {
    assert [e][1..] == [];
  }

  lemma StampTwo(o: nat, e: Effect, f: Effect)
    ensures Stamp(o, [e, f]) == [Record(o, e), Record(o, f)]
  {
    assert [e, f][1..] == [f];
    StampOne(o, f);
  }

  // The first effect of an attempt is no flag; a second one is the flag due to the first, and
  // it is there whenever one is due.
  lemma AttemptShape(svc: Service, log: seq<Message>, o: nat, env: Env)
    requires o < |log| && log[o].Envelope?
    ensures
      var effects := Handle(svc, log[o].event, env).0;
      && |effects| <= 2
      && (effects != [] ==> !IsFlag(Record(o, effects[0])))
      && (|effects| == 2 ==> IsFlag(Record(o, effects[1])) && FlagDue(svc, log, Record(o, effects[0])) == Some(effects[1].event))
      && (|effects| == 1 ==> FlagDue(svc, log, Record(o, effects[0])).None?)
  {
    var e := log[o].event;
    if WellFormed(e, InputKind(svc)) {
      match svc
      case AiService => AiAttemptPublishes(e, env);
      case ClaimService(threshold) => ClaimAttemptDoes(e, env, threshold);
    } else {
      OthersPassBy(svc, e, env);
    }
  }

  lemma BlockFlags(svc: Service, log: seq<Message>, o: nat, env: Env, k: nat)
    requires o < |log| && log[o].Envelope?
    ensures
      var effects := Handle(svc, log[o].event, env).0;
      var block := Stamp(o, Prefix(effects, k));
      && (block == [] || !IsFlag(block[0]))
      && FlagsAreDue(svc, log, block)
      && Unflagged(svc, log, block) <= (if k < |effects| then 1 else 0)
  {
    var effects := Handle(svc, log[o].event, env).0;
    var cut := Prefix(effects, k);
    AttemptShape(svc, log, o, env);
    if cut == [] {
    } else if |cut| == 1 {
      assert cut == [effects[0]];
      StampOne(o, effects[0]);
      TwoRecords(svc, log, Record(o, effects[0]), Record(o, effects[0]));
    } else {
      assert cut == [effects[0], effects[1]];
      StampTwo(o, effects[0], effects[1]);
      TwoRecords(svc, log, Record(o, effects[0]), Record(o, effects[1]));
    }
  }

  // ---- Runs ------------------------------------------------------------------------------------------

  // Flags only where one is due, and no more of them missing than crashes.
  ghost predicate FlagsMatch(svc: Service, log: seq<Message>, n: Node) {
    && NodeShape(log, n)
    && (forall i :: 0 <= i < |n.trace| ==> n.trace[i].offset < |log|)
    && FlagsAreDue(svc, log, n.trace)
    && Unflagged(svc, log, n.trace) <= n.crashes
  }

  lemma {:induction false} StampOffsets(o: nat, effects: seq<Effect>)
    ensures forall i :: 0 <= i < |effects| ==> Stamp(o, effects)[i].offset == o
  {
    if effects != [] {
      StampOffsets(o, effects[1..]);
    }
  }

  lemma WholePrefix(effects: seq<Effect>)
    ensures Prefix(effects, |effects|) == effects
  {
  }

  lemma NodeStepKeepsFlags(svc: Service, log: seq<Message>, n: Node, step: NodeStep)
    requires FlagsMatch(svc, log, n) && NodeEnabled(log, n, step)
    ensures FlagsMatch(svc, log, NodeAfter(svc, log, n, step))
  {
    StepKeepsShape(svc, log, n, step);
    var effects := StepEffects(svc, log, n, step);
    StampOffsets(n.pos, effects);
    if effects == [] {
      assert n.trace + Stamp(n.pos, effects) == n.trace;
    } else {
      var env := if step.Attempt? then step.env else step.during;
      var whole := Handle(svc, log[n.pos].event, env).0;
      var k := if step.Attempt? then |whole| else step.completed;
      WholePrefix(whole);
      BlockFlags(svc, log, n.pos, env, k);
      UnflaggedConcat(svc, log, n.trace, Stamp(n.pos, effects));
      DueConcat(svc, log, n.trace, Stamp(n.pos, effects));
    }
  }

  lemma {:induction false} UnflaggedGrows(svc: Service, log: seq<Message>, more: seq<Message>, trace: seq<Record>)
    requires forall i :: 0 <= i < |trace| ==> trace[i].offset < |log|
    ensures Unflagged(svc, log + more, trace) == Unflagged(svc, log, trace)
    ensures forall i :: 0 <= i < |trace| ==> FlagDue(svc, log + more, trace[i]) == FlagDue(svc, log, trace[i])
  {
    if trace != [] {
      UnflaggedGrows(svc, log, more, trace[1..]);
      assert forall i :: 0 < i < |trace| ==> trace[1..][i - 1] == trace[i];
    }
  }

  lemma GrowthKeepsFlags(svc: Service, log: seq<Message>, n: Node, grown: seq<Message>)
    requires FlagsMatch(svc, log, n) && log <= grown
    ensures FlagsMatch(svc, grown, n)
  {
    assert grown == log + grown[|log|..];
    UnflaggedGrows(svc, log, grown[|log|..], n.trace);
    forall i | 0 <= i < |n.trace| ensures Due(svc, grown, n.trace, i) {
      assert Due(svc, log, n.trace, i);
    }
  }

  ghost predicate BothMatch(w: World, threshold: real) {
    FlagsMatch(AiService, w.topics.created, w.ai) && FlagsMatch(ClaimService(threshold), w.topics.analyzed, w.claims)
  }

  lemma StepKeepsFlags(w: World, s: Step, threshold: real)
    requires BothMatch(w, threshold) && Enabled(w, s)
    ensures BothMatch(After(w, s, threshold), threshold)
  {
    var w' := After(w, s, threshold);
    match s {
      case AiStep(step) =>
        NodeStepKeepsFlags(AiService, w.topics.created, w.ai, step);
        ApplyOnlyAppends(w.topics, StepEffects(AiService, w.topics.created, w.ai, step));
      case ClaimStep(step) =>
        NodeStepKeepsFlags(ClaimService(threshold), w.topics.analyzed, w.claims, step);
        ApplyOnlyAppends(w.topics, StepEffects(ClaimService(threshold), w.topics.analyzed, w.claims, step));
      case Produce(_, _) =>
    }
    GrowthKeepsFlags(AiService, w.topics.created, w'.ai, w'.topics.created);
    GrowthKeepsFlags(ClaimService(threshold), w.topics.analyzed, w'.claims, w'.topics.analyzed);
  }

  lemma {:induction false} FlagsFrom(w: World, steps: seq<Step>, threshold: real)
    requires BothMatch(w, threshold) && ValidRun(w, steps, threshold)
    ensures BothMatch(Run(w, steps, threshold), threshold)
    decreases |steps|
  {
    if steps != [] {
      StepKeepsFlags(w, steps[0], threshold);
      FlagsFrom(After(w, steps[0], threshold), steps[1..], threshold);
    }
  }

  // In every run, for both services: each flag recorded directly follows the effect it is due
  // to and repeats its claim, company and score; and each effect that is due a flag is directly
  // followed by it, but for one at most for each crash, which can strike between the two.
  lemma {:induction false} FlagsMatchScores(steps: seq<Step>, threshold: real)
    requires ValidRun(Empty, steps, threshold)
    ensures
      var w := Run(Empty, steps, threshold);
      && FlagsAreDue(AiService, w.topics.created, w.ai.trace)
      && Unflagged(AiService, w.topics.created, w.ai.trace) <= w.ai.crashes
      && FlagsAreDue(ClaimService(threshold), w.topics.analyzed, w.claims.trace)
      && Unflagged(ClaimService(threshold), w.topics.analyzed, w.claims.trace) <= w.claims.crashes
  {
    FlagsFrom(Empty, steps, threshold);
  }
}
