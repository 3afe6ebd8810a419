// The notification store: a newest-first list cut to a cap, and a counter of unread items kept
// beside it.
module Notifications {

  const MAX_ITEMS: nat := 50
  const MAX_STORED: nat := 20

  // An id is made of the clock and a counter that starts over when the page is loaded.
  datatype Id = Id(now: int, seqNo: nat)

  datatype Severity = Info | Warning | Failure | Success

  datatype Notification = Notification(id: Id, severity: Severity, claim: string, read: bool)

  datatype State = State(items: seq<Notification>, unread: int, seqNo: nat)

  datatype Event =
    | Add(severity: Severity, claim: string, now: int)
    | MarkRead(id: Id)
    | MarkAllRead
    | Dismiss(id: Id)
    | ClearAll
    | Reload

  const Empty := State([], 0, 0)

  function CountUnread(items: seq<Notification>): nat {
    if items == [] then 0 else (if items[0].read then 0 else 1) + CountUnread(items[1..])
  }

  function Cut(items: seq<Notification>, cap: nat): seq<Notification> {
    if |items| <= cap then items else items[..cap]
  }

  // What a cut drops.
  function Dropped(items: seq<Notification>, cap: nat): seq<Notification> {
    if |items| <= cap then [] else items[cap..]
  }

  function Added(s: State, severity: Severity, claim: string, now: int): seq<Notification> {
    [Notification(Id(now, s.seqNo + 1), severity, claim, false)] + s.items
  }

  function WithRead(items: seq<Notification>, id: Id): (r: seq<Notification>)
    ensures |r| == |items|
  {
    seq(|items|, i requires 0 <= i < |items| =>
      if items[i].id == id && !items[i].read then items[i].(read := true) else items[i])
  }

  function AllRead(items: seq<Notification>): (r: seq<Notification>)
    ensures |r| == |items|
  {
    seq(|items|, i requires 0 <= i < |items| => items[i].(read := true))
  }

  function Without(items: seq<Notification>, id: Id): (r: seq<Notification>)
    ensures |r| <= |items|
  {
    if items == [] then []
    else (if items[0].id == id then [] else [items[0]]) + Without(items[1..], id)
  }

  function Step(s: State, e: Event): State {
    match e
    case Add(severity, claim, now) =>
      State(Cut(Added(s, severity, claim, now), MAX_ITEMS), s.unread + 1, s.seqNo + 1)
    case MarkRead(id) =>
      var items := WithRead(s.items, id);
      State(items, CountUnread(items), s.seqNo)
    case MarkAllRead => State(AllRead(s.items), 0, s.seqNo)
    case Dismiss(id) =>
      var items := Without(s.items, id);
      State(items, CountUnread(items), s.seqNo)
    case ClearAll => State([], 0, s.seqNo)
    // What was stored comes back: the counter whole, the list cut.
    case Reload => State(Cut(s.items, MAX_STORED), s.unread, 0)
  }

  function Run(s: State, es: seq<Event>): State
    decreases |es|
  {
    if es == [] then s else Run(Step(s, es[0]), es[1..])
  }

  // ---- The drift law --------------------------------------------------------------------------

  predicate Recounts(e: Event) {
    e.MarkRead? || e.MarkAllRead? || e.Dismiss? || e.ClearAll?
  }

  // The items a step loses without the user asking for it.
  function Lost(s: State, e: Event): seq<Notification> {
    match e
    case Add(severity, claim, now) => Dropped(Added(s, severity, claim, now), MAX_ITEMS)
    case Reload => Dropped(s.items, MAX_STORED)
    case _ => []
  }

  // The items lost since the last recount of a run, after those already lost before it.
  function LostSinceRecount(s: State, es: seq<Event>, before: seq<Notification>): seq<Notification>
    decreases |es|
  {
    if es == [] then before
    else LostSinceRecount(Step(s, es[0]), es[1..], if Recounts(es[0]) then [] else before + Lost(s, es[0]))
  }

  lemma {:induction false} CountUnreadConcat(a: seq<Notification>, b: seq<Notification>)
    ensures CountUnread(a + b) == CountUnread(a) + CountUnread(b)
  {
    if a == [] {
      assert a + b == b;
    } else {
      assert (a + b)[1..] == a[1..] + b;
      CountUnreadConcat(a[1..], b);
    }
  }

  lemma CutCounts(items: seq<Notification>, cap: nat)
    ensures CountUnread(Cut(items, cap)) + CountUnread(Dropped(items, cap)) == CountUnread(items)
    ensures |Cut(items, cap)| <= cap
  {
    if |items| > cap {
      assert items == items[..cap] + items[cap..];
      CountUnreadConcat(items[..cap], items[cap..]);
    }
  }

  lemma {:induction false} NoneUnread(items: seq<Notification>)
    requires forall i :: 0 <= i < |items| ==> items[i].read
    ensures CountUnread(items) == 0
  {
    if items != [] {
      NoneUnread(items[1..]);
    }
  }

  function Drift(s: State): int {
    s.unread - CountUnread(s.items)
  }

  lemma StepDrift(s: State, e: Event)
    ensures Drift(Step(s, e)) == if Recounts(e) then 0 else Drift(s) + CountUnread(Lost(s, e))
    ensures |s.items| <= MAX_ITEMS ==> |Step(s, e).items| <= MAX_ITEMS
  {
    match e
    case Add(severity, claim, now) =>
      var added := Added(s, severity, claim, now);
      CutCounts(added, MAX_ITEMS);
      assert added[1..] == s.items;
    case Reload => CutCounts(s.items, MAX_STORED);
    case MarkAllRead => NoneUnread(AllRead(s.items));
    case _ =>
  }

  lemma {:induction false} RunDrift(s: State, es: seq<Event>, before: seq<Notification>)
    requires Drift(s) == CountUnread(before) && |s.items| <= MAX_ITEMS
    ensures Drift(Run(s, es)) == CountUnread(LostSinceRecount(s, es, before))
    ensures |Run(s, es).items| <= MAX_ITEMS
    decreases |es|
  {
    if es != [] {
      StepDrift(s, es[0]);
      CountUnreadConcat(before, Lost(s, es[0]));
      RunDrift(Step(s, es[0]), es[1..], if Recounts(es[0]) then [] else before + Lost(s, es[0]));
    }
  }

  // A store nothing has been put into.
  predicate Unused(s: State) {
    s.items == [] && s.unread == 0
  }

  // In every reachable state the list keeps its cap and the counter exceeds the unread items
  // listed by exactly the unread items lost to the two cuts since the last recount.
  lemma {:induction false} DriftLaw(start: State, es: seq<Event>)
    requires Unused(start)
    ensures |Run(start, es).items| <= 50
    ensures Run(start, es).unread == CountUnread(Run(start, es).items) + CountUnread(LostSinceRecount(start, es, []))
  {
    RunDrift(start, es, []);
  }

  lemma {:induction false} RunConcat(s: State, a: seq<Event>, b: seq<Event>)
    ensures Run(s, a + b) == Run(Run(s, a), b)
    decreases |a|
  {
    if a == [] {
      assert a + b == b;
    } else {
      assert (a + b)[1..] == a[1..] + b;
      RunConcat(Step(s, a[0]), a[1..], b);
    }
  }

  // The user's own operations set the counter right, whatever was lost before.
  lemma {:induction false} RecountResets(start: State, es: seq<Event>, e: Event)
    requires Recounts(e)
    ensures var s := Run(start, es + [e]); s.unread == CountUnread(s.items)
  {
    RunConcat(start, es, [e]);
    assert Run(Run(start, es), [e]) == Step(Run(start, es), e);
    StepDrift(Run(start, es), e);
  }

  predicate Fits(s: State, e: Event) {
    (e.Add? ==> |s.items| < MAX_ITEMS) && (e.Reload? ==> |s.items| <= MAX_STORED)
  }

  predicate AllFit(s: State, es: seq<Event>)
    decreases |es|
  {
    es == [] || (Fits(s, es[0]) && AllFit(Step(s, es[0]), es[1..]))
  }

  // While no cut bites, the counter is the number of unread items listed.
  lemma {:induction false} ExactWhileFitting(s: State, es: seq<Event>)
    requires Drift(s) == 0 && AllFit(s, es)
    ensures Drift(Run(s, es)) == 0
    decreases |es|
  {
    if es != [] {
      StepDrift(s, es[0]);
      ExactWhileFitting(Step(s, es[0]), es[1..]);
    }
  }

  lemma {:induction false} WithReadCounts(items: seq<Notification>, id: Id, k: nat)
    requires k < |items| && items[k].id == id && !items[k].read
    requires forall i :: 0 <= i < |items| && i != k ==> items[i].id != id
    ensures CountUnread(WithRead(items, id)) == CountUnread(items) - 1
  {
    assert WithRead(items, id)[1..] == WithRead(items[1..], id);
    if k == 0 {
      assert WithRead(items[1..], id) == items[1..];
    } else {
      WithReadCounts(items[1..], id, k - 1);
    }
  }

  // Reading one listed item lowers the counter by one and by everything lost since the last
  // recount: the counter can fall by more than the one item the user read.
  lemma {:induction false} ReadDropsDrift(start: State, es: seq<Event>, k: nat)
    requires Unused(start)
    requires var s := Run(start, es);
      && k < |s.items| && !s.items[k].read
      && forall i :: 0 <= i < |s.items| && i != k ==> s.items[i].id != s.items[k].id
    ensures var s := Run(start, es);
      s.unread - Step(s, MarkRead(s.items[k].id)).unread == 1 + CountUnread(LostSinceRecount(start, es, []))
  {
    var s := Run(start, es);
    WithReadCounts(s.items, s.items[k].id, k);
    DriftLaw(start, es);
  }

  // ---- What is listed -----------------------------------------------------------------------------

  // From the n-th event on the user reads the items with this id.
  predicate ReadFrom(es: seq<Event>, n: nat, id: Id) {
    exists i :: n <= i < |es| && (es[i] == MarkRead(id) || es[i] == MarkAllRead)
  }

  predicate WasListed(before: seq<Notification>, es: seq<Event>, x: Notification) {
    exists y :: y in before && x == y.(read := y.read || ReadFrom(es, 0, x.id))
  }

  predicate WasAdded(es: seq<Event>, x: Notification) {
    exists i :: 0 <= i < |es| && es[i] == Add(x.severity, x.claim, x.id.now) && (x.read <==> ReadFrom(es, i + 1, x.id))
  }

  lemma ReadLater(es: seq<Event>, n: nat, id: Id)
    requires es != []
    ensures ReadFrom(es, n + 1, id) <==> ReadFrom(es[1..], n, id)
    ensures ReadFrom(es, 0, id) <==> ReadFrom(es[1..], 0, id) || es[0] == MarkRead(id) || es[0] == MarkAllRead
  {
    forall i | 0 <= i < |es[1..]| ensures es[1..][i] == es[i + 1] {
    }
    if i :| 0 < i < |es| && (es[i] == MarkRead(id) || es[i] == MarkAllRead) {
      assert es[1..][i - 1] == es[i];
    }
    if i :| n + 1 <= i < |es| && (es[i] == MarkRead(id) || es[i] == MarkAllRead) {
      assert es[1..][i - 1] == es[i];
    }
  }

  lemma {:induction false} WithoutKeepsRest(items: seq<Notification>, id: Id, x: Notification)
    ensures x in Without(items, id) <==> x in items && x.id != id
  {
    if items != [] {
      WithoutKeepsRest(items[1..], id, x);
    }
  }

  // Where an item listed after one event was before it.
  lemma StepOrigin(s: State, e: Event, x: Notification)
    requires x in Step(s, e).items
    ensures (exists y :: y in s.items && x == y.(read := y.read || e == MarkRead(x.id) || e == MarkAllRead)) ||
            (e == Add(x.severity, x.claim, x.id.now) && !x.read)
  {
    if e.Dismiss? {
      WithoutKeepsRest(s.items, e.id, x);
    }
    if x in s.items && !e.MarkRead? && !e.MarkAllRead? {
      assert x == x.(read := x.read || e == MarkRead(x.id) || e == MarkAllRead);
    } else if e.MarkRead? || e.MarkAllRead? {
      var i :| 0 <= i < |s.items| && Step(s, e).items[i] == x;
      var y := s.items[i];
      assert x == y.(read := y.read || e == MarkRead(x.id) || e == MarkAllRead);
    }
  }

  // In every run an item listed at the end was listed before or added on the way, with the
  // severity and claim it still has, and is read exactly when it was, or when the user has
  // since read that id or everything.
  lemma {:induction false} ListedItemsHaveOrigin(s: State, es: seq<Event>, x: Notification)
    requires x in Run(s, es).items
    ensures WasListed(s.items, es, x) || WasAdded(es, x)
    decreases |es|
  {
    if es == [] {
      assert x == x.(read := x.read || ReadFrom(es, 0, x.id));
    } else {
      var s1 := Step(s, es[0]);
      ListedItemsHaveOrigin(s1, es[1..], x);
      ReadLater(es, 0, x.id);
      if WasListed(s1.items, es[1..], x) {
        var y :| y in s1.items && x == y.(read := y.read || ReadFrom(es[1..], 0, x.id));
        StepOrigin(s, es[0], y);
      } else {
        var i :| 0 <= i < |es[1..]| && es[1..][i] == Add(x.severity, x.claim, x.id.now) && (x.read <==> ReadFrom(es[1..], i + 1, x.id));
        ReadLater(es, i + 1, x.id);
        assert es[i + 1] == es[1..][i];
      }
    }
  }

  // ---- Order and ids ----------------------------------------------------------------------------

  predicate NewestFirst(items: seq<Notification>, seqNo: nat) {
    && (forall i :: 0 <= i < |items| ==> items[i].id.seqNo <= seqNo)
    && (forall i, j :: 0 <= i < j < |items| ==> items[i].id.seqNo > items[j].id.seqNo)
  }

  lemma {:induction false} WithoutKeepsOrder(items: seq<Notification>, id: Id, seqNo: nat)
    requires NewestFirst(items, seqNo)
    ensures NewestFirst(Without(items, id), seqNo)
    ensures forall x :: x in Without(items, id) ==> x in items
  {
    if items != [] {
      WithoutKeepsOrder(items[1..], id, seqNo);
      assert forall x :: x in items[1..] ==> x.id.seqNo < items[0].id.seqNo;
    }
  }

  // While the page stays loaded the list is newest first, so no two items share an id.
  lemma {:induction false} OrderedWhileLoaded(s: State, es: seq<Event>)
    requires NewestFirst(s.items, s.seqNo) && forall i :: 0 <= i < |es| ==> !es[i].Reload?
    ensures NewestFirst(Run(s, es).items, Run(s, es).seqNo)
    decreases |es|
  {
    if es != [] {
      if es[0].Dismiss? {
        WithoutKeepsOrder(s.items, es[0].id, s.seqNo);
      }
      OrderedWhileLoaded(Step(s, es[0]), es[1..]);
    }
  }

  lemma {:induction false} WithoutAbsent(items: seq<Notification>, id: Id)
    requires forall i :: 0 <= i < |items| ==> items[i].id != id
    ensures Without(items, id) == items
  {
    if items != [] {
      WithoutAbsent(items[1..], id);
    }
  }

  // Dismissing an item then takes that one out and keeps the others in place.
  lemma {:induction false} DismissTakesOne(items: seq<Notification>, seqNo: nat, k: nat)
    requires NewestFirst(items, seqNo) && k < |items|
    ensures Without(items, items[k].id) == items[..k] + items[k + 1..]
  {
    if k == 0 {
      WithoutAbsent(items[1..], items[0].id);
    } else {
      DismissTakesOne(items[1..], seqNo, k - 1);
      assert items[1..][k - 1] == items[k] && items[1..][..k - 1] == items[1..k] && items[1..][k..] == items[k + 1..];
      assert items[..k] == [items[0]] + items[1..k];
    }
  }

  predicate IdsDiffer(items: seq<Notification>) {
    forall i, j :: 0 <= i < j < |items| ==> items[i].id != items[j].id
  }

  // The id made for a new item is that of an item still listed, other than one the cut drops.
  predicate Collides(s: State, e: Event) {
    e.Add? && exists i :: 0 <= i < |s.items| && i < MAX_ITEMS - 1 && s.items[i].id == Id(e.now, s.seqNo + 1)
  }

  lemma {:induction false} WithoutKeepsIds(items: seq<Notification>, id: Id)
    requires IdsDiffer(items)
    ensures IdsDiffer(Without(items, id))
    ensures forall x :: x in Without(items, id) ==> x in items
  {
    if items != [] {
      WithoutKeepsIds(items[1..], id);
      assert forall x :: x in items[1..] ==> x.id != items[0].id;
      assert forall i :: 0 <= i < |Without(items[1..], id)| ==> Without(items[1..], id)[i] in items[1..];
    }
  }

  lemma StepKeepsIdsIff(s: State, e: Event)
    requires IdsDiffer(s.items)
    ensures IdsDiffer(Step(s, e).items) <==> !Collides(s, e)
  {
    match e
    case Add(severity, claim, now) =>
      var items := Step(s, e).items;
      assert items[0].id == Id(now, s.seqNo + 1);
      assert forall i :: 0 < i < |items| ==> items[i] == s.items[i - 1];
      if Collides(s, e) {
        var i :| 0 <= i < |s.items| && i < MAX_ITEMS - 1 && s.items[i].id == Id(now, s.seqNo + 1);
        assert items[i + 1] == s.items[i];
      }
    case Dismiss(id) => WithoutKeepsIds(s.items, id);
    case _ =>
  }

  predicate NeverCollides(s: State, es: seq<Event>)
    decreases |es|
  {
    es == [] || (!Collides(s, es[0]) && NeverCollides(Step(s, es[0]), es[1..]))
  }

  predicate IdsAlwaysDiffer(s: State, es: seq<Event>)
    decreases |es|
  {
    IdsDiffer(s.items) && (es == [] || IdsAlwaysDiffer(Step(s, es[0]), es[1..]))
  }

  // In every run no two listed items ever share an id exactly when no addition makes an id
  // that is still listed.
  lemma {:induction false} IdsDifferIff(s: State, es: seq<Event>)
    requires IdsDiffer(s.items)
    ensures IdsAlwaysDiffer(s, es) <==> NeverCollides(s, es)
    decreases |es|
  {
    if es != [] {
      StepKeepsIdsIff(s, es[0]);
      if IdsDiffer(Step(s, es[0]).items) {
        IdsDifferIff(Step(s, es[0]), es[1..]);
      }
    }
  }

  // And that takes a page load in between.
  lemma {:induction false} CollisionNeedsReload(s: State, es: seq<Event>)
    requires NewestFirst(s.items, s.seqNo) && !NeverCollides(s, es)
    ensures exists i :: 0 <= i < |es| && es[i].Reload?
    decreases |es|
  {
    if !es[0].Reload? {
      OrderedWhileLoaded(s, [es[0]]);
      assert Run(s, [es[0]]) == Step(s, es[0]);
      CollisionNeedsReload(Step(s, es[0]), es[1..]);
      var i :| 0 <= i < |es[1..]| && es[1..][i].Reload?;
      assert es[i + 1].Reload?;
    }
  }

  // It does happen: a page load, and an addition within the same tick of the clock; a
  // dismissal then takes out both items.
  lemma ReloadRepeatsIds()
    ensures
      var es := [Add(Info, "", 0), Reload, Add(Info, "", 0)];
      var items := Run(Empty, es).items;
      |items| == 2 && items[0].id == items[1].id && Without(items, items[0].id) == []
  {
    var first := Notification(Id(0, 1), Info, "", false);
    var s1 := Step(Empty, Add(Info, "", 0));
    assert s1 == State([first], 1, 1);
    var s2 := Step(s1, Reload);
    var s3 := Step(s2, Add(Info, "", 0));
    assert s3.items == [first, first];
    var es := [Add(Info, "", 0), Reload, Add(Info, "", 0)];
    assert es[1..] == [Reload, Add(Info, "", 0)] && es[1..][1..] == [Add(Info, "", 0)] && es[1..][1..][1..] == [];
    assert Run(s2, es[1..][1..]) == s3;
    assert Run(s1, es[1..]) == s3;
    assert [first, first][1..] == [first] && [first][1..] == [];
  }

  // ---- The store -------------------------------------------------------------------------------

  datatype Message = Analyzed(claim: string) | Flagged(claim: string) | Approved(claim: string) | Rejected(claim: string) | Other

  class Store {
    var items: seq<Notification>
    var unread: int
    var seqNo: nat

    ghost function View(): State
      reads this
    {
      State(items, unread, seqNo)
    }

    constructor ()
      ensures View() == Empty
    {
      items, unread, seqNo := [], 0, 0;
    }

    method AddItem(severity: Severity, claim: string, now: int)
      modifies this
      ensures View() == Step(old(View()), Add(severity, claim, now))
      ensures items == ([Notification(Id(now, old(seqNo) + 1), severity, claim, false)] + old(items))[..|items|]
      ensures |items| == (if |old(items)| < 50 then |old(items)| + 1 else 50)
      ensures unread == old(unread) + 1 && seqNo == old(seqNo) + 1
    {
      seqNo := seqNo + 1;
      var n := Notification(Id(now, seqNo), severity, claim, false);
      items, unread := Cut([n] + items, MAX_ITEMS), unread + 1;
    }

    method MarkItemRead(id: Id)
      modifies this
      ensures View() == Step(old(View()), MarkRead(id))
      ensures |items| == |old(items)| && seqNo == old(seqNo) && unread == CountUnread(items)
      ensures forall i :: 0 <= i < |items| ==>
        items[i] == if old(items)[i].id == id then old(items)[i].(read := true) else old(items)[i]
    {
      items := WithRead(items, id);
      unread := CountUnread(items);
    }

    method MarkAll()
      modifies this
      ensures View() == Step(old(View()), MarkAllRead)
      ensures |items| == |old(items)| && seqNo == old(seqNo) && unread == 0
      ensures forall i :: 0 <= i < |items| ==> items[i] == old(items)[i].(read := true)
    {
      items, unread := AllRead(items), 0;
    }

    method DismissItem(id: Id)
      modifies this
      ensures View() == Step(old(View()), Dismiss(id))
      ensures seqNo == old(seqNo) && unread == CountUnread(items)
      ensures forall x :: x in items <==> x in old(items) && x.id != id
    {
      forall x ensures x in Without(items, id) <==> x in items && x.id != id {
        WithoutKeepsRest(items, id, x);
      }
      items := Without(items, id);
      unread := CountUnread(items);
    }

    method Clear()
      modifies this
      ensures View() == Step(old(View()), ClearAll)
      ensures items == [] && unread == 0 && seqNo == old(seqNo)
    {
      items, unread := [], 0;
    }

    // Four kinds of message become notifications; the others change nothing.
    method FromWSMessage(msg: Message, now: int)
      modifies this
      ensures View() ==
              match msg
              case Analyzed(claim) => Step(old(View()), Add(Info, claim, now))
              case Flagged(claim) => Step(old(View()), Add(Warning, claim, now))
              case Approved(claim) => Step(old(View()), Add(Success, claim, now))
              case Rejected(claim) => Step(old(View()), Add(Failure, claim, now))
              case Other => old(View())
    {
      match msg
      case Analyzed(claim) => AddItem(Info, claim, now);
      case Flagged(claim) => AddItem(Warning, claim, now);
      case Approved(claim) => AddItem(Success, claim, now);
      case Rejected(claim) => AddItem(Failure, claim, now);
      case Other =>
    }

    // A page load: the list and counter come from what was stored at the last change.
    method LoadPage()
      modifies this
      ensures View() == Step(old(View()), Reload)
      ensures items == old(items)[..if |old(items)| < 20 then |old(items)| else 20]
      ensures unread == old(unread) && seqNo == 0
    {
      items, seqNo := Cut(items, MAX_STORED), 0;
    }
  }
}
