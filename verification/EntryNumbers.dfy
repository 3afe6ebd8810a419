// A journal entry's number is counted and its row inserted by two statements outside any
// transaction, so creations interleave: which interleavings number a tenant's entries apart.
module EntryNumbers {
  import opened Common
  import J = Journal

  // The number of an entry, as its row has it.
  datatype Ticket = Ticket(tenant: string, number: nat)

  // open holds the creations that have counted and not yet inserted.
  datatype State = State(entries: seq<Ticket>, open: map<nat, Ticket>)

  // ok says whether the count query answers; a failure leaves zero.
  datatype Event = Count(creation: nat, tenant: string, ok: bool) | Insert(creation: nat)

  const Empty := State([], map[])

  function NumbersOf(entries: seq<Ticket>, tenant: string): seq<nat> {
    if entries == [] then []
    else
      var x := entries[|entries| - 1];
      NumbersOf(entries[..|entries| - 1], tenant) + if x.tenant == tenant then [x.number] else []
  }

  function CountOf(entries: seq<Ticket>, tenant: string): nat {
    |NumbersOf(entries, tenant)|
  }

  predicate Enabled(s: State, e: Event) {
    match e
    case Count(c, _, _) => c !in s.open
    case Insert(c) => c in s.open
  }

  function Step(s: State, e: Event): State
    requires Enabled(s, e)
  {
    match e
    case Count(c, tenant, ok) =>
      s.(open := s.open[c := Ticket(tenant, (if ok then CountOf(s.entries, tenant) else 0) + 1)])
    case Insert(c) => State(s.entries + [s.open[c]], s.open - {c})
  }

  predicate ValidRun(s: State, es: seq<Event>)
    decreases |es|
  {
    es == [] || (Enabled(s, es[0]) && ValidRun(Step(s, es[0]), es[1..]))
  }

  function Run(s: State, es: seq<Event>): State
    requires ValidRun(s, es)
    decreases |es|
  {
    if es == [] then s else Run(Step(s, es[0]), es[1..])
  }

  // ---- A creation by itself ------------------------------------------------------------------

  function Tickets(journal: seq<J.Entry>): (r: seq<Ticket>)
    ensures |r| == |journal|
  {
    seq(|journal|, i requires 0 <= i < |journal| => Ticket(journal[i].tenant, journal[i].number))
  }

  lemma {:induction false} CountsAgree(journal: seq<J.Entry>, tenant: string)
    ensures CountOf(Tickets(journal), tenant) == J.EntriesOf(journal, tenant)
    decreases |journal|
  {
    if journal != [] {
      var n := |journal| - 1;
      CountsAgree(journal[..n], tenant);
      assert Tickets(journal)[..n] == Tickets(journal[..n]);
    }
  }

  // Back to back, count and insert number the entry as the accepted creation does.
  lemma CreationIsExec(journal: seq<J.Entry>, op: J.Op, c: nat)
    requires op.CreateEntry? && J.Possible(op) && J.Exec(journal, op) != journal
    ensures
      var s := Step(State(Tickets(journal), map[]), Count(c, op.tenant, op.countOk));
      Step(s, Insert(c)) == State(Tickets(J.Exec(journal, op)), map[])
  {
    CountsAgree(journal, op.tenant);
    var after := J.Exec(journal, op);
    assert Tickets(after) == Tickets(journal) + [Ticket(op.tenant, after[|journal|].number)];
  }

  // ---- Numbers in sequence ---------------------------------------------------------------------

  // Every tenant's entries are numbered 1, 2, 3 and so on.
  ghost predicate InSequence(entries: seq<Ticket>) {
    forall tenant, i :: 0 <= i < |NumbersOf(entries, tenant)| ==> NumbersOf(entries, tenant)[i] == i + 1
  }

  predicate AllDiffer(entries: seq<Ticket>) {
    forall i, j :: 0 <= i < j < |entries| ==> entries[i] != entries[j]
  }

  lemma NumbersAppend(entries: seq<Ticket>, x: Ticket, tenant: string)
    ensures NumbersOf(entries + [x], tenant) == NumbersOf(entries, tenant) + if x.tenant == tenant then [x.number] else []
  {
    assert (entries + [x])[..|entries|] == entries;
  }

  lemma {:induction false} HasNumber(entries: seq<Ticket>, x: Ticket)
    ensures x in entries <==> x.number in NumbersOf(entries, x.tenant)
    decreases |entries|
  {
    if entries != [] {
      var rest, last := entries[..|entries| - 1], entries[|entries| - 1];
      HasNumber(rest, x);
      assert x in entries <==> x in rest || x == last;
    }
  }

  // In a sequence, an added number is the next or one that is there already.
  lemma AppendDiffersIff(entries: seq<Ticket>, x: Ticket)
    requires InSequence(entries) && AllDiffer(entries) && 1 <= x.number <= CountOf(entries, x.tenant) + 1
    ensures AllDiffer(entries + [x]) <==> x.number == CountOf(entries, x.tenant) + 1
    ensures x.number == CountOf(entries, x.tenant) + 1 ==> InSequence(entries + [x])
  {
    var numbers := NumbersOf(entries, x.tenant);
    HasNumber(entries, x);
    if x.number <= |numbers| {
      assert numbers[x.number - 1] == x.number;
      var i :| 0 <= i < |entries| && entries[i] == x;
      assert (entries + [x])[i] == (entries + [x])[|entries|];
    } else {
      assert x !in entries;
      forall tenant, i | 0 <= i < |NumbersOf(entries + [x], tenant)|
        ensures NumbersOf(entries + [x], tenant)[i] == i + 1
      {
        NumbersAppend(entries, x, tenant);
      }
    }
  }

  // ---- What the events alone say ------------------------------------------------------------------

  // open says whose creations have counted; a creation is late when another of its tenant has
  // inserted since it counted, or when its count failed although the tenant had entries.
  datatype Watch = Watch(open: map<nat, string>, late: set<nat>, served: set<string>)

  function Watched(w: Watch, e: Event): Watch {
    match e
    case Count(c, tenant, ok) =>
      w.(open := w.open[c := tenant], late := if !ok && tenant in w.served then w.late + {c} else w.late - {c})
    case Insert(c) =>
      if c !in w.open then w
      else
        Watch(w.open - {c}, w.late + (set d | d in w.open && w.open[d] == w.open[c]), w.served + {w.open[c]})
  }

  predicate NoneLate(w: Watch, es: seq<Event>)
    decreases |es|
  {
    es == [] || ((es[0].Insert? ==> es[0].creation !in w.late) && NoneLate(Watched(w, es[0]), es[1..]))
  }

  ghost predicate Sees(w: Watch, s: State) {
    && w.open.Keys == s.open.Keys
    && (forall c :: c in s.open ==>
          && w.open[c] == s.open[c].tenant
          && 1 <= s.open[c].number <= CountOf(s.entries, s.open[c].tenant) + 1
          && (c in w.late <==> s.open[c].number <= CountOf(s.entries, s.open[c].tenant)))
    && (forall tenant :: tenant in w.served <==> CountOf(s.entries, tenant) > 0)
  }

  lemma StepSees(w: Watch, s: State, e: Event)
    requires Sees(w, s) && Enabled(s, e)
    ensures Sees(Watched(w, e), Step(s, e))
  {
    if e.Insert? {
      var x := s.open[e.creation];
      forall tenant
        ensures NumbersOf(s.entries + [x], tenant) == NumbersOf(s.entries, tenant) + if x.tenant == tenant then [x.number] else []
      {
        NumbersAppend(s.entries, x, tenant);
      }
    }
  }

  lemma {:induction false} EntriesOnlyGrow(s: State, es: seq<Event>)
    requires ValidRun(s, es)
    ensures s.entries <= Run(s, es).entries
    decreases |es|
  {
    if es != [] {
      EntriesOnlyGrow(Step(s, es[0]), es[1..]);
    }
  }

  lemma {:induction false} DifferIffNoneLateFrom(w: Watch, s: State, es: seq<Event>)
    requires ValidRun(s, es) && Sees(w, s) && InSequence(s.entries) && AllDiffer(s.entries)
    ensures AllDiffer(Run(s, es).entries) <==> NoneLate(w, es)
    ensures NoneLate(w, es) ==> InSequence(Run(s, es).entries)
    decreases |es|
  {
    if es != [] {
      var e, s1 := es[0], Step(s, es[0]);
      StepSees(w, s, e);
      if e.Insert? {
        AppendDiffersIff(s.entries, s.open[e.creation]);
      }
      if e.Insert? && e.creation in w.late {
        EntriesOnlyGrow(s1, es[1..]);
        var i, j :| 0 <= i < j < |s1.entries| && s1.entries[i] == s1.entries[j];
        assert Run(s, es).entries[i] == Run(s, es).entries[j];
      } else {
        DifferIffNoneLateFrom(Watched(w, e), s1, es[1..]);
      }
    }
  }

  // However the statements of any creations interleave, no two entries of a tenant ever get
  // the same number exactly when no creation inserts after another of its tenant has inserted
  // since it counted, or after a count that failed although there were entries; and then each
  // tenant's entries are numbered in sequence.
  lemma NumbersDifferIff(es: seq<Event>)
    requires ValidRun(Empty, es)
    ensures AllDiffer(Run(Empty, es).entries) <==> NoneLate(Watch(map[], {}, {}), es)
    ensures NoneLate(Watch(map[], {}, {}), es) ==> InSequence(Run(Empty, es).entries)
  {
    DifferIffNoneLateFrom(Watch(map[], {}, {}), Empty, es);
  }
}
