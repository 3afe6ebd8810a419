// The consumers as objects: topic logs that publishes append to, a handler object for each
// service, and the loop that retries one message and then asks for a commit.
module KafkaConsumer {
  import opened Common
  import opened EventPipeline

  class Broker {
    var created: seq<Message>
    var analyzed: seq<Message>
    var flagged: seq<Message>
    var failed: seq<Message>

    ghost function View(): Topics
      reads this
    {
      Topics(created, analyzed, flagged, failed)
    }

    constructor ()
      ensures View() == Topics([], [], [], [])
    {
      created, analyzed, flagged, failed := [], [], [], [];
    }

    method PublishEvent(topic: Topic, e: Event, ok: bool) returns (effect: Effect)
      modifies this
      ensures effect == Publish(topic, e, ok)
      ensures View() == if ok then Append(old(View()), topic, Envelope(e)) else old(View())
      ensures created == old(created) + if ok && topic == New then [Envelope(e)] else []
      ensures analyzed == old(analyzed) + if ok && topic == Analyzed then [Envelope(e)] else []
      ensures flagged == old(flagged) + if ok && topic == Flagged then [Envelope(e)] else []
      ensures failed == old(failed) + if ok && topic == Failed then [Envelope(e)] else []
    {
      if ok {
        match topic
        case New => created := created + [Envelope(e)];
        case Analyzed => analyzed := analyzed + [Envelope(e)];
        case Flagged => flagged := flagged + [Envelope(e)];
        case Failed => failed := failed + [Envelope(e)];
      }
      effect := Publish(topic, e, ok);
    }
  }

  predicate ProducesIn(w: World, topic: Topic, m: Message, after: Topics, threshold: real) {
    Enabled(w, Produce(topic, m)) && After(w, Produce(topic, m), threshold) == w.(topics := after)
  }

  // What the step system lets a producer do: append m to an input topic, whatever the
  // consumers are at.
  ghost predicate Produces(before: Topics, topic: Topic, m: Message, after: Topics) {
    forall ai, claims, threshold :: ProducesIn(World(before, ai, claims), topic, m, after, threshold)
  }

  function NewClaim(claimId: string, company: string): Message {
    Envelope(Event(ClaimCreated, Claim(claimId, company, 0.0)))
  }

  function Review(rejected: bool, claimId: string): Message {
    Envelope(Event(if rejected then ClaimRejected else ClaimApproved, Claim(claimId, "", 0.0)))
  }

  lemma AppendIsProduced(t: Topics, topic: Topic, m: Message)
    requires topic == New || (topic == Analyzed && IsReview(m))
    ensures Produces(t, topic, m, Append(t, topic, m))
  {
  }

  // A review on claims.analyzed is passed by in every environment: no effect, and no retry.
  lemma ReviewsPassBy(m: Message, env: Env, threshold: real)
    requires IsReview(m)
    ensures ClaimHandle(m.event, env, threshold) == ([], true)
    ensures !NeedsHandling(ClaimService(threshold), m)
  {
  }

  // The claim service's producing operations: each leaves the topics alone or makes one step
  // of an outside producer.  A failed publish is logged only.
  class ClaimProducer {
    const broker: Broker

    constructor (broker: Broker)
      ensures this.broker == broker
    {
      this.broker := broker;
    }

    // A claim with an id is one the inference consumer must account for.
    method CreateClaim(claimId: string, company: string, recordOk: bool, publishOk: bool) returns (accepted: bool)
      modifies broker
      ensures broker.View() == old(broker.View()) || Produces(old(broker.View()), New, NewClaim(claimId, company), broker.View())
      ensures broker.View() != old(broker.View()) <==> accepted && publishOk
      ensures accepted && publishOk ==>
        broker.created == old(broker.created) + [Envelope(Event(ClaimCreated, Claim(claimId, company, 0.0)))]
      ensures claimId != "" ==> NeedsHandling(AiService, NewClaim(claimId, company))
      ensures accepted == recordOk
    {
      if !recordOk {
        return false;
      }
      var effect := broker.PublishEvent(New, Event(ClaimCreated, Claim(claimId, company, 0.0)), publishOk);
      AppendIsProduced(old(broker.View()), New, NewClaim(claimId, company));
      assert publishOk ==> |broker.created| == |old(broker.created)| + 1;
      return true;
    }

    // Storing a document announces the claim again, if it can be read back, and the inference
    // consumer must account for the second message as for the first; ext is the file's
    // extension in lower case.
    method UploadDocument(claimId: string, company: string, hasStorage: bool, ext: string, uploadOk: bool, updateOk: bool,
                          readOk: bool, publishOk: bool)
      returns (accepted: bool)
      modifies broker
      ensures broker.View() == old(broker.View()) || Produces(old(broker.View()), New, NewClaim(claimId, company), broker.View())
      ensures broker.View() != old(broker.View()) <==> accepted && readOk && publishOk
      ensures accepted && readOk && publishOk ==>
        broker.created == old(broker.created) + [Envelope(Event(ClaimCreated, Claim(claimId, company, 0.0)))]
      ensures claimId != "" ==> NeedsHandling(AiService, NewClaim(claimId, company))
      ensures accepted <==> hasStorage && ext in [".pdf", ".jpg", ".jpeg", ".png"] && uploadOk && updateOk
    {
      if !hasStorage {
        return false;
      }
      if ext !in [".pdf", ".jpg", ".jpeg", ".png"] {
        return false;
      }
      if !uploadOk || !updateOk {
        return false;
      }
      if readOk {
        var effect := broker.PublishEvent(New, Event(ClaimCreated, Claim(claimId, company, 0.0)), publishOk);
        AppendIsProduced(old(broker.View()), New, NewClaim(claimId, company));
        assert publishOk ==> |broker.created| == |old(broker.created)| + 1;
      }
      return true;
    }

    // An approval and a request for more information are both published as claim.approved;
    // either way the claim service passes its own message by.
    method ReviewClaim(claimId: string, approved: bool, rejected: bool, moreInfo: bool, recordOk: bool, publishOk: bool)
      returns (accepted: bool)
      modifies broker
      ensures broker.View() == old(broker.View()) || Produces(old(broker.View()), Analyzed, Review(rejected, claimId), broker.View())
      ensures broker.View() != old(broker.View()) <==> accepted && publishOk
      ensures accepted && publishOk ==>
        broker.analyzed == old(broker.analyzed) +
          [Envelope(Event(if rejected then ClaimRejected else ClaimApproved, Claim(claimId, "", 0.0)))]
      ensures IsReview(Review(rejected, claimId))
      ensures forall env, threshold :: ClaimHandle(Review(rejected, claimId).event, env, threshold) == ([], true)
      ensures accepted <==> (approved || rejected || moreInfo) && recordOk
    {
      if !(approved || rejected || moreInfo) {
        return false;
      }
      if !recordOk {
        return false;
      }
      var kind := ClaimApproved;
      if rejected {
        kind := ClaimRejected;
      }
      var effect := broker.PublishEvent(Analyzed, Event(kind, Claim(claimId, "", 0.0)), publishOk);
      AppendIsProduced(old(broker.View()), Analyzed, Review(rejected, claimId));
      forall env, threshold ensures ClaimHandle(Review(rejected, claimId).event, env, threshold) == ([], true) {
        ReviewsPassBy(Review(rejected, claimId), env, threshold);
      }
      assert publishOk ==> |broker.analyzed| == |old(broker.analyzed)| + 1;
      return true;
    }
  }

  class Handler {
    const broker: Broker
    const service: Service
    var done: seq<Effect>

    constructor (broker: Broker, service: Service)
      ensures this.broker == broker && this.service == service && done == []
    {
      this.broker, this.service, this.done := broker, service, [];
    }

    method Send(topic: Topic, e: Event, ok: bool)
      modifies broker, this`done
      ensures done == old(done) + [Publish(topic, e, ok)]
      ensures broker.View() == Apply(old(broker.View()), [Publish(topic, e, ok)])
    {
      var effect := broker.PublishEvent(topic, e, ok);
      done := done + [effect];
      assert [effect][1..] == [];
    }

    // The inference consumer's handler.
    method HandleCreated(e: Event, env: Env) returns (ok: bool)
      modifies broker, this`done
      ensures ok == AiHandle(e, env).1
      ensures done == old(done) + AiHandle(e, env).0
      ensures broker.View() == Apply(old(broker.View()), AiHandle(e, env).0)
      ensures WellFormed(e, ClaimCreated) && env.inference.Some? ==>
        var claim := Claim(env.inference.value.claimId, e.payload.company, env.inference.value.score);
        && ok && |done| == |old(done)| + (if claim.score >= 0.80 then 2 else 1)
        && done[|old(done)|] == Publish(Analyzed, Event(ClaimAnalyzed, claim), env.analyzedOk)
        && (claim.score >= 0.80 ==> done[|old(done)| + 1] == Publish(Flagged, Event(ClaimFlagged, claim), env.flaggedOk))
    {
      if e.kind != ClaimCreated {
        return true;
      }
      if e.payload.Undecodable? {
        return false;
      }
      if e.payload.claimId == "" {
        return false;
      }
      var p := e.payload;
      if env.inference.None? {
        Send(Failed, Event(ClaimFailed, Claim(p.claimId, p.company, 0.0)), env.failedOk);
        return false;
      }
      var r := env.inference.value;
      var result := Event(ClaimAnalyzed, Claim(r.claimId, p.company, r.score));
      Send(Analyzed, result, env.analyzedOk);
      if r.score >= FLAG_SCORE {
        ApplyConcat(old(broker.View()), [Publish(Analyzed, result, env.analyzedOk)],
                    [Publish(Flagged, FlaggedEvent(r.claimId, p.company, r.score), env.flaggedOk)]);
        Send(Flagged, FlaggedEvent(r.claimId, p.company, r.score), env.flaggedOk);
      } else {
        assert AiHandle(e, env).0 == [Publish(Analyzed, result, env.analyzedOk)];
      }
      return true;
    }

    // The claim service's handler.
    method HandleAnalyzed(e: Event, env: Env, threshold: real) returns (ok: bool)
      modifies broker, this`done
      ensures ok == ClaimHandle(e, env, threshold).1
      ensures done == old(done) + ClaimHandle(e, env, threshold).0
      ensures broker.View() == Apply(old(broker.View()), ClaimHandle(e, env, threshold).0)
      ensures WellFormed(e, ClaimAnalyzed) ==>
        && ok == env.updateOk
        && |done| == |old(done)| + (if env.updateOk && e.payload.score >= threshold then 2 else 1)
        && done[|old(done)|] == UpdateAnalysis(e.payload.claimId, env.updateOk)
        && (env.updateOk && e.payload.score >= threshold ==>
              done[|old(done)| + 1] == Publish(Flagged, Event(ClaimFlagged, e.payload), env.flaggedOk))
    {
      if e.kind != ClaimAnalyzed {
        return true;
      }
      if e.payload.Undecodable? {
        return false;
      }
      if e.payload.claimId == "" {
        return false;
      }
      var p := e.payload;
      var update := UpdateAnalysis(p.claimId, env.updateOk);
      done := done + [update];
      assert [update][1..] == [] && Apply(old(broker.View()), [update]) == old(broker.View());
      if !env.updateOk {
        return false;
      }
      if p.score >= threshold {
        ApplyConcat(old(broker.View()), [update],
                    [Publish(Flagged, FlaggedEvent(p.claimId, p.company, p.score), env.flaggedOk)]);
        Send(Flagged, FlaggedEvent(p.claimId, p.company, p.score), env.flaggedOk);
      } else {
        assert ClaimHandle(e, env, threshold).0 == [update];
      }
      return true;
    }

    method HandleEvent(e: Event, env: Env) returns (ok: bool)
      modifies broker, this`done
      ensures ok == Handle(service, e, env).1
      ensures done == old(done) + Handle(service, e, env).0
      ensures broker.View() == Apply(old(broker.View()), Handle(service, e, env).0)
    {
      match service
      case AiService => ok := HandleCreated(e, env);
      case ClaimService(threshold) => ok := HandleAnalyzed(e, env, threshold);
    }
  }

  lemma {:induction false} ApplyConcat(t: Topics, a: seq<Effect>, b: seq<Effect>)
    ensures Apply(t, a + b) == Apply(Apply(t, a), b)
    decreases |a|
  {
    if a == [] {
      assert a + b == b;
    } else {
      assert (a + b)[1..] == a[1..] + b;
      var e := a[0];
      ApplyConcat(if e.Publish? && e.ok then Append(t, e.topic, Envelope(e.event)) else t, a[1..], b);
    }
  }

  // The attempts a delivery uses up.
  function AttemptsUsed(svc: Service, e: Event, envs: seq<Env>, failures: nat): (k: nat)
    requires failures < MAX_RETRIES && |envs| >= MAX_RETRIES - failures
    ensures failures < k <= 3
    decreases MAX_RETRIES - failures
  {
    if Handle(svc, e, envs[0]).1 || failures + 1 == MAX_RETRIES then failures + 1
    else AttemptsUsed(svc, e, envs[1..], failures + 1)
  }

  // What is still to come of a delivery after some attempts: effects, outcome, attempts used.
  function Rest(svc: Service, e: Event, envs: seq<Env>, attempts: nat, ok: bool): (seq<Effect>, bool, nat)
    requires attempts <= MAX_RETRIES <= |envs|
  {
    if ok || attempts == MAX_RETRIES then ([], ok, attempts)
    else
      var (effects, success) := Deliver(svc, e, envs[attempts..], attempts);
      (effects, success, AttemptsUsed(svc, e, envs[attempts..], attempts))
  }

  lemma RestStep(svc: Service, e: Event, envs: seq<Env>, attempts: nat)
    requires attempts < MAX_RETRIES <= |envs|
    ensures var (effects, ok) := Handle(svc, e, envs[attempts]);
      var next := Rest(svc, e, envs, attempts + 1, ok);
      && Rest(svc, e, envs, attempts, false).0 == effects + next.0
      && Rest(svc, e, envs, attempts, false).1 == next.1
      && Rest(svc, e, envs, attempts, false).2 == next.2
  {
    assert envs[attempts..][0] == envs[attempts] && envs[attempts..][1..] == envs[attempts + 1..];
    var (effects, ok) := Handle(svc, e, envs[attempts]);
    assert effects + [] == effects;
  }

  class Consumer {
    const handler: Handler
    var offset: nat
    var requested: nat          // commit asked for everything below

    constructor (handler: Handler, start: nat)
      ensures this.handler == handler && offset == requested == start
    {
      this.handler, this.offset, this.requested := handler, start, start;
    }

    // One attempt, seen from a delivery whose effects so far are sofar.
    method RunHandler(e: Event, env: Env, ghost before: seq<Effect>, ghost start: Topics, ghost sofar: seq<Effect>)
      returns (ok: bool)
      requires handler.done == before + sofar && handler.broker.View() == Apply(start, sofar)
      modifies handler`done, handler.broker
      ensures ok == Handle(handler.service, e, env).1
      ensures handler.done == before + (sofar + Handle(handler.service, e, env).0)
      ensures handler.broker.View() == Apply(start, sofar + Handle(handler.service, e, env).0)
    {
      ApplyConcat(start, sofar, Handle(handler.service, e, env).0);
      ok := handler.HandleEvent(e, env);
    }

    // One turn of the loop: what is to come before it is what it did and what is to come after.
    method TryOnce(e: Event, envs: seq<Env>, attempts: nat, ghost before: seq<Effect>, ghost start: Topics,
                   ghost sofar: seq<Effect>)
      returns (ok: bool, ghost after: seq<Effect>)
      requires attempts < MAX_RETRIES <= |envs|
      requires handler.done == before + sofar && handler.broker.View() == Apply(start, sofar)
      modifies handler`done, handler.broker
      ensures handler.done == before + after && handler.broker.View() == Apply(start, after)
      ensures sofar + Rest(handler.service, e, envs, attempts, false).0 == after + Rest(handler.service, e, envs, attempts + 1, ok).0
      ensures Rest(handler.service, e, envs, attempts, false).1 == Rest(handler.service, e, envs, attempts + 1, ok).1
      ensures Rest(handler.service, e, envs, attempts, false).2 == Rest(handler.service, e, envs, attempts + 1, ok).2
    {
      after := sofar + Handle(handler.service, e, envs[attempts]).0;
      ok := RunHandler(e, envs[attempts], before, start, sofar);
      RestStep(handler.service, e, envs, attempts);
    }

    // The attempt loop: until the handler succeeds or MAX_RETRIES attempts have failed.
    method HandleWithRetries(e: Event, envs: seq<Env>) returns (attempts: nat, ok: bool)
      requires |envs| >= MAX_RETRIES
      modifies handler`done, handler.broker
      ensures ok == Deliver(handler.service, e, envs, 0).1
      ensures attempts == AttemptsUsed(handler.service, e, envs, 0)
      ensures handler.done == old(handler.done) + Deliver(handler.service, e, envs, 0).0
      ensures handler.broker.View() == Apply(old(handler.broker.View()), Deliver(handler.service, e, envs, 0).0)
    {
      attempts, ok := 0, false;
      ghost var all := Rest(handler.service, e, envs, 0, false);
      ghost var sofar: seq<Effect> := [];
      assert envs[0..] == envs;
      while !ok && attempts < MAX_RETRIES
        invariant attempts <= MAX_RETRIES
        invariant handler.done == old(handler.done) + sofar
        invariant handler.broker.View() == Apply(old(handler.broker.View()), sofar)
        invariant all.0 == sofar + Rest(handler.service, e, envs, attempts, ok).0
        invariant all.1 == Rest(handler.service, e, envs, attempts, ok).1
        invariant all.2 == Rest(handler.service, e, envs, attempts, ok).2
      {
        ok, sofar := TryOnce(e, envs, attempts, old(handler.done), old(handler.broker.View()), sofar);
        attempts := attempts + 1;
      }
      assert sofar + [] == sofar;
    }

    // One turn of the consuming loop: an undecodable message is committed at once; any other
    // is handled with retries and then committed, whatever came of it.  A commit that fails is
    // logged only; the next one covers the message.
    method ConsumeOne(m: Message, envs: seq<Env>, commitOk: bool) returns (attempts: nat, ok: bool)
      requires |envs| >= MAX_RETRIES
      modifies this, handler`done, handler.broker
      ensures offset == old(offset) + 1 && requested == if commitOk then offset else old(requested)
      ensures m.Garbled? ==> handler.done == old(handler.done) && handler.broker.View() == old(handler.broker.View())
      ensures m.Envelope? ==> ok == Deliver(handler.service, m.event, envs, 0).1
      ensures m.Envelope? ==> attempts == AttemptsUsed(handler.service, m.event, envs, 0)
      ensures m.Envelope? ==> handler.done == old(handler.done) + Deliver(handler.service, m.event, envs, 0).0
      ensures m.Envelope? ==>
        handler.broker.View() == Apply(old(handler.broker.View()), Deliver(handler.service, m.event, envs, 0).0)
    {
      attempts, ok := 0, false;
      if m.Envelope? {
        attempts, ok := HandleWithRetries(m.event, envs);
      }
      offset := offset + 1;
      if commitOk {
        requested := offset;
      }
    }
  }

  function NodeOf(w: World, svc: Service): Node {
    if svc.AiService? then w.ai else w.claims
  }

  function LogOf(w: World, svc: Service): seq<Message> {
    if svc.AiService? then w.topics.created else w.topics.analyzed
  }

  function StepOf(svc: Service, step: NodeStep): Step {
    if svc.AiService? then AiStep(step) else ClaimStep(step)
  }

  // The attempts that the first k environments meet, as steps of the service's consumer.
  function Attempts(svc: Service, envs: seq<Env>, k: nat): (steps: seq<Step>)
    requires k <= |envs|
    ensures |steps| == k
  {
    seq(k, i requires 0 <= i < k => StepOf(svc, Attempt(envs[i])))
  }

  // A consumer is in the middle of a delivery after some failed attempts.
  predicate Delivering(w: World, svc: Service, failures: nat) {
    var n, log := NodeOf(w, svc), LogOf(w, svc);
    n.pos < |log| && log[n.pos].Envelope? && n.failures == Some(failures)
  }

  lemma AttemptMoves(w: World, svc: Service, env: Env, failures: nat, threshold: real)
    requires svc == AiService || svc == ClaimService(threshold)
    requires failures < MAX_RETRIES && Delivering(w, svc, failures)
    ensures
      var e := LogOf(w, svc)[NodeOf(w, svc).pos].event;
      var w1 := After(w, StepOf(svc, Attempt(env)), threshold);
      && w1.topics == Apply(w.topics, Handle(svc, e, env).0)
      && LogOf(w, svc) <= LogOf(w1, svc)
      && if Handle(svc, e, env).1 || failures + 1 == MAX_RETRIES
         then NodeOf(w1, svc).pos == NodeOf(w, svc).pos + 1 && NodeOf(w1, svc).failures == None
         else NodeOf(w1, svc).pos == NodeOf(w, svc).pos && Delivering(w1, svc, failures + 1)
  {
    ApplyOnlyAppends(w.topics, Handle(svc, LogOf(w, svc)[NodeOf(w, svc).pos].event, env).0);
  }

  lemma StepThenRun(w: World, steps: seq<Step>, threshold: real)
    requires steps != [] && Enabled(w, steps[0]) && ValidRun(After(w, steps[0], threshold), steps[1..], threshold)
    ensures ValidRun(w, steps, threshold)
    ensures Run(w, steps, threshold) == Run(After(w, steps[0], threshold), steps[1..], threshold)
  {
  }

  lemma DeliverEffects(svc: Service, e: Event, envs: seq<Env>, failures: nat, t: Topics)
    requires failures + 1 < MAX_RETRIES && |envs| >= MAX_RETRIES - failures && !Handle(svc, e, envs[0]).1
    ensures Apply(t, Deliver(svc, e, envs, failures).0) ==
            Apply(Apply(t, Handle(svc, e, envs[0]).0), Deliver(svc, e, envs[1..], failures + 1).0)
  {
    ApplyConcat(t, Handle(svc, e, envs[0]).0, Deliver(svc, e, envs[1..], failures + 1).0);
  }

  // The loop is the step system's way through one message: making the attempts in turn leads
  // to the same topics and to the next offset, for either consumer.
  lemma {:induction false} DeliveryIsAttempts(w: World, svc: Service, envs: seq<Env>, failures: nat, threshold: real)
      returns (w': World)
    requires svc == AiService || svc == ClaimService(threshold)
    requires failures < MAX_RETRIES && |envs| >= MAX_RETRIES - failures && Delivering(w, svc, failures)
    ensures
      var e := LogOf(w, svc)[NodeOf(w, svc).pos].event;
      var steps := Attempts(svc, envs, AttemptsUsed(svc, e, envs, failures) - failures);
      && ValidRun(w, steps, threshold) && w' == Run(w, steps, threshold)
      && NodeOf(w', svc).pos == NodeOf(w, svc).pos + 1 && NodeOf(w', svc).failures == None
      && w'.topics == Apply(w.topics, Deliver(svc, e, envs, failures).0)
    decreases MAX_RETRIES - failures
  {
    var e := LogOf(w, svc)[NodeOf(w, svc).pos].event;
    var w1 := After(w, StepOf(svc, Attempt(envs[0])), threshold);
    var steps := Attempts(svc, envs, AttemptsUsed(svc, e, envs, failures) - failures);
    AttemptMoves(w, svc, envs[0], failures, threshold);
    if Handle(svc, e, envs[0]).1 || failures + 1 == MAX_RETRIES {
      w' := w1;
      assert steps[1..] == [];
    } else {
      w' := DeliveryIsAttempts(w1, svc, envs[1..], failures + 1, threshold);
      assert steps[1..] == Attempts(svc, envs[1..], AttemptsUsed(svc, e, envs[1..], failures + 1) - (failures + 1));
      DeliverEffects(svc, e, envs, failures, w.topics);
    }
    StepThenRun(w, steps, threshold);
  }
}
