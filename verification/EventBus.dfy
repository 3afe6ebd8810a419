// The in-process event bus over values: subscriptions, the snapshot each publish takes, and the
// handlers it starts one by one while other calls go on.
module EventBus {
  import opened Common

  datatype Handler = Handler(id: nat)

  datatype Event = Event(name: string, payload: int)

  // A publish under way: its snapshot of the handlers and how many of them it has started.
  datatype Publication = Publication(event: Event, snapshot: seq<Handler>, next: nat)

  // A handler started on an event, by which publish.
  datatype Start = Start(publication: nat, handler: Handler, event: Event)

  datatype State = State(handlers: map<string, seq<Handler>>, publications: seq<Publication>, started: seq<Start>)

  datatype Action =
    | Subscribe(name: string, handler: Handler)
    | Snapshot(event: Event)
    | Dispatch(publication: nat)

  const Initial := State(map[], [], [])

  function Registered(s: State, name: string): seq<Handler> {
    if name in s.handlers then s.handlers[name] else []
  }

  predicate Enabled(s: State, a: Action) {
    a.Dispatch? ==>
      a.publication < |s.publications| && s.publications[a.publication].next < |s.publications[a.publication].snapshot|
  }

  function Step(s: State, a: Action): State
    requires Enabled(s, a)
  {
    match a
    case Subscribe(name, handler) => s.(handlers := s.handlers[name := Registered(s, name) + [handler]])
    case Snapshot(event) => s.(publications := s.publications + [Publication(event, Registered(s, event.name), 0)])
    case Dispatch(k) =>
      var p := s.publications[k];
      s.(publications := s.publications[k := p.(next := p.next + 1)],
         started := s.started + [Start(k, p.snapshot[p.next], p.event)])
  }

  // A run from a new bus; None when an action is taken that is not enabled.
  function Run(actions: seq<Action>): Option<State> {
    if actions == [] then Some(Initial)
    else
      match Run(actions[..|actions| - 1])
      case None => None
      case Some(s) =>
        if Enabled(s, actions[|actions| - 1]) then Some(Step(s, actions[|actions| - 1])) else None
  }

  // ---- What the calls alone say -----------------------------------------------------------------

  // The handlers subscribed to a name, in the order of the calls.
  function Subscribed(actions: seq<Action>, name: string): seq<Handler> {
    if actions == [] then []
    else
      var a := actions[|actions| - 1];
      Subscribed(actions[..|actions| - 1], name) + if a.Subscribe? && a.name == name then [a.handler] else []
  }

  // The publish calls, in order, each with the handlers subscribed to its name before it.
  datatype Call = Call(event: Event, handlers: seq<Handler>)

  function Calls(actions: seq<Action>): seq<Call> {
    if actions == [] then []
    else
      var before, a := actions[..|actions| - 1], actions[|actions| - 1];
      Calls(before) + if a.Snapshot? then [Call(a.event, Subscribed(before, a.event.name))] else []
  }

  // The handlers a publish started, in order.
  function StartedBy(started: seq<Start>, k: nat): seq<Handler> {
    if started == [] then []
    else
      var last := started[|started| - 1];
      StartedBy(started[..|started| - 1], k) + if last.publication == k then [last.handler] else []
  }

  lemma StartedByAppend(started: seq<Start>, s: Start, k: nat)
    ensures StartedBy(started + [s], k) == StartedBy(started, k) + if s.publication == k then [s.handler] else []
  {
    assert (started + [s])[..|started|] == started;
  }

  // ---- The snapshot law ----------------------------------------------------------------------------

  predicate Faithful(p: Publication, call: Call) {
    p.event == call.event && p.snapshot == call.handlers && p.next <= |p.snapshot|
  }

  predicate StartedAsFar(p: Publication, handlers: seq<Handler>) {
    p.next <= |p.snapshot| && handlers == p.snapshot[..p.next]
  }

  ghost predicate StartsFollow(s: State) {
    && (forall k | 0 <= k < |s.publications| :: StartedAsFar(s.publications[k], StartedBy(s.started, k)))
    && (forall i | 0 <= i < |s.started| ::
          s.started[i].publication < |s.publications|
          && s.started[i].event == s.publications[s.started[i].publication].event)
  }

  lemma {:induction false} RegisteredIsSubscribed(actions: seq<Action>, name: string)
    requires Run(actions).Some?
    ensures Registered(Run(actions).value, name) == Subscribed(actions, name)
    decreases |actions|
  {
    if actions != [] {
      RegisteredIsSubscribed(actions[..|actions| - 1], name);
    }
  }

  lemma {:induction false} PublicationsAreCalls(actions: seq<Action>)
    requires Run(actions).Some?
    ensures |Run(actions).value.publications| == |Calls(actions)|
    ensures forall k :: 0 <= k < |Calls(actions)| ==> Faithful(Run(actions).value.publications[k], Calls(actions)[k])
    decreases |actions|
  {
    if actions != [] {
      var before, a := actions[..|actions| - 1], actions[|actions| - 1];
      PublicationsAreCalls(before);
      if a.Snapshot? {
        RegisteredIsSubscribed(before, a.event.name);
      }
    }
  }

  lemma {:induction false} NothingStarted(started: seq<Start>, k: nat)
    requires forall i :: 0 <= i < |started| ==> started[i].publication < k
    ensures StartedBy(started, k) == []
    decreases |started|
  {
    if started != [] {
      NothingStarted(started[..|started| - 1], k);
    }
  }

  lemma StepKeepsStarts(s: State, a: Action)
    requires StartsFollow(s) && Enabled(s, a)
    ensures StartsFollow(Step(s, a))
  {
    var t := Step(s, a);
    if a.Snapshot? {
      NothingStarted(s.started, |s.publications|);
    } else if a.Dispatch? {
      var start := t.started[|s.started|];
      assert t.started == s.started + [start];
      forall k | 0 <= k < |t.publications|
        ensures StartedAsFar(t.publications[k], StartedBy(t.started, k))
      {
        StartedByAppend(s.started, start, k);
      }
    }
  }

  lemma {:induction false} RunKeepsStarts(actions: seq<Action>)
    requires Run(actions).Some?
    ensures StartsFollow(Run(actions).value)
    decreases |actions|
  {
    if actions != [] {
      var before := actions[..|actions| - 1];
      RunKeepsStarts(before);
      StepKeepsStarts(Run(before).value, actions[|actions| - 1]);
    }
  }

  // Under any interleaving, a publish has started the first of the handlers subscribed before
  // it, each once, in order and on its own event; once it is through, exactly those.
  lemma SnapshotLaw(actions: seq<Action>, k: nat)
    requires Run(actions).Some? && k < |Calls(actions)|
    ensures
      var s := Run(actions).value;
      && |s.publications| == |Calls(actions)|
      && StartedBy(s.started, k) <= Calls(actions)[k].handlers
      && (s.publications[k].next == |s.publications[k].snapshot| <==> StartedBy(s.started, k) == Calls(actions)[k].handlers)
      && (forall i :: 0 <= i < |s.started| && s.started[i].publication == k ==> s.started[i].event == Calls(actions)[k].event)
  {
    PublicationsAreCalls(actions);
    RunKeepsStarts(actions);
    var p := Run(actions).value.publications[k];
    assert Faithful(p, Calls(actions)[k]);
  }

  // No start belongs to anything but a publish that was called.
  lemma EveryStartHasACall(actions: seq<Action>, i: nat)
    requires Run(actions).Some? && i < |Run(actions).value.started|
    ensures
      var start := Run(actions).value.started[i];
      start.publication < |Calls(actions)| && start.event == Calls(actions)[start.publication].event
  {
    PublicationsAreCalls(actions);
    RunKeepsStarts(actions);
    var s := Run(actions).value;
    assert Faithful(s.publications[s.started[i].publication], Calls(actions)[s.started[i].publication]);
  }

  // ---- Draining ------------------------------------------------------------------------------------

  function Waiting(ps: seq<Publication>): nat {
    if ps == [] then 0
    else
      var p := ps[|ps| - 1];
      Waiting(ps[..|ps| - 1]) + if p.next < |p.snapshot| then |p.snapshot| - p.next else 0
  }

  lemma {:induction false} DispatchLowersWaiting(ps: seq<Publication>, k: nat)
    requires k < |ps| && ps[k].next < |ps[k].snapshot|
    ensures Waiting(ps[k := ps[k].(next := ps[k].next + 1)]) == Waiting(ps) - 1
    decreases |ps|
  {
    var moved := ps[k := ps[k].(next := ps[k].next + 1)];
    if k == |ps| - 1 {
      assert moved[..|ps| - 1] == ps[..|ps| - 1];
    } else {
      var rest := ps[..|ps| - 1];
      assert moved[..|ps| - 1] == rest[k := rest[k].(next := rest[k].next + 1)];
      DispatchLowersWaiting(rest, k);
    }
  }

  // Subscribing adds no work, a publish as much as there are handlers, and a dispatch takes
  // one away: the starts still to come are always finitely many.
  lemma WorkAccount(s: State, a: Action)
    requires Enabled(s, a)
    ensures Waiting(Step(s, a).publications) ==
            match a
            case Subscribe(_, _) => Waiting(s.publications)
            case Snapshot(event) => Waiting(s.publications) + |Registered(s, event.name)|
            case Dispatch(_) => Waiting(s.publications) - 1
  {
    match a
    case Subscribe(_, _) =>
    case Snapshot(event) =>
      var ps := Step(s, a).publications;
      assert ps[..|ps| - 1] == s.publications;
    case Dispatch(k) => DispatchLowersWaiting(s.publications, k);
  }
}
