// The two statements of a contract creation are not one transaction, so creations interleave
// statement by statement: which interleavings keep one active contract an employee.
module ContractStatements {
  import opened Payroll

  datatype Owner = Owner(employee: nat, tenant: string)

  datatype Statement = DeactivateAll(of: Owner) | Insert(contract: Contract)

  function OwnerOf(c: Contract): Owner {
    Owner(c.employee, c.tenant)
  }

  function Execute(cs: seq<Contract>, s: Statement): seq<Contract> {
    match s
    case DeactivateAll(o) => Deactivate(cs, o.employee, o.tenant)
    case Insert(c) => cs + [c.(active := true)]
  }

  // The contract table after some statements, in the order they ran.
  function Table(ss: seq<Statement>): seq<Contract> {
    if ss == [] then [] else Execute(Table(ss[..|ss| - 1]), ss[|ss| - 1])
  }

  // The statements of one creation that run.
  function Creation(c: Contract, deactivateOk: bool, insertOk: bool): seq<Statement> {
    (if deactivateOk then [DeactivateAll(OwnerOf(c))] else []) + (if insertOk then [Insert(c)] else [])
  }

  lemma TableAppend(ss: seq<Statement>, s: Statement)
    ensures Table(ss + [s]) == Execute(Table(ss), s)
  {
    assert (ss + [s])[..|ss|] == ss;
  }

  // Run back to back they are the creation.
  lemma CreationIsExec(t: Tables, ss: seq<Statement>, c: Contract, deactivateOk: bool, insertOk: bool)
    requires t.contracts == Table(ss) && Accepted(t, CreateContract(c, deactivateOk, insertOk))
    ensures Exec(t, CreateContract(c, deactivateOk, insertOk)).contracts == Table(ss + Creation(c, deactivateOk, insertOk))
  {
    var first := if deactivateOk then [DeactivateAll(OwnerOf(c))] else [];
    if deactivateOk {
      TableAppend(ss, DeactivateAll(OwnerOf(c)));
    } else {
      assert ss + first == ss;
    }
    if insertOk {
      TableAppend(ss + first, Insert(c));
      assert ss + Creation(c, deactivateOk, insertOk) == ss + first + [Insert(c)];
    } else {
      assert ss + Creation(c, deactivateOk, insertOk) == ss + first;
      assert Table(ss + first) + [] == Table(ss + first);
    }
  }

  predicate HasActive(cs: seq<Contract>, o: Owner) {
    exists i :: 0 <= i < |cs| && cs[i].active && OwnerOf(cs[i]) == o
  }

  // An insert for the owner with no deactivation of the owner after it.
  predicate Standing(ss: seq<Statement>, i: nat, o: Owner)
    requires i < |ss|
  {
    ss[i].Insert? && OwnerOf(ss[i].contract) == o && NoneBetween(ss, i, |ss|, o)
  }

  predicate NoneBetween(ss: seq<Statement>, i: nat, j: nat, o: Owner)
    requires j <= |ss|
  {
    forall k :: i < k < j ==> ss[k] != DeactivateAll(o)
  }

  predicate SomeStanding(ss: seq<Statement>, o: Owner) {
    exists i: nat :: i < |ss| && Standing(ss, i, o)
  }

  lemma ActiveAfter(cs: seq<Contract>, s: Statement, o: Owner)
    ensures HasActive(Execute(cs, s), o) <==>
            (HasActive(cs, o) && s != DeactivateAll(o)) || (s.Insert? && OwnerOf(s.contract) == o)
  {
    var after := Execute(cs, s);
    forall i | 0 <= i < |cs|
      ensures OwnerOf(after[i]) == OwnerOf(cs[i])
      ensures after[i].active <==> cs[i].active && s != DeactivateAll(OwnerOf(cs[i]))
    {
    }
    if s.Insert? {
      assert after[|cs|] == s.contract.(active := true);
    }
  }

  lemma StandingAfter(ss: seq<Statement>, s: Statement, o: Owner)
    ensures SomeStanding(ss + [s], o) <==>
            (SomeStanding(ss, o) && s != DeactivateAll(o)) || (s.Insert? && OwnerOf(s.contract) == o)
  {
    var all := ss + [s];
    forall i: nat | i < |ss| ensures Standing(all, i, o) <==> Standing(ss, i, o) && s != DeactivateAll(o) {
      assert forall k :: i < k < |ss| ==> all[k] == ss[k];
      assert all[|ss|] == s;
    }
    if s.Insert? && OwnerOf(s.contract) == o {
      assert Standing(all, |ss|, o);
    }
    if SomeStanding(ss, o) && s != DeactivateAll(o) {
      var i: nat :| i < |ss| && Standing(ss, i, o);
      assert Standing(all, i, o);
    }
  }

  lemma {:induction false} ActiveIffStanding(ss: seq<Statement>, o: Owner)
    ensures HasActive(Table(ss), o) <==> SomeStanding(ss, o)
    decreases |ss|
  {
    if ss != [] {
      var rest, s := ss[..|ss| - 1], ss[|ss| - 1];
      assert ss == rest + [s];
      ActiveIffStanding(rest, o);
      ActiveAfter(Table(rest), s, o);
      StandingAfter(rest, s, o);
    }
  }

  lemma OneActiveAfter(cs: seq<Contract>, s: Statement)
    ensures OneActive(cs) && (s.Insert? ==> !HasActive(cs, OwnerOf(s.contract))) ==> OneActive(Execute(cs, s))
    ensures OneActive(Execute(cs, s)) && s.Insert? ==> !HasActive(cs, OwnerOf(s.contract))
  {
    var after := Execute(cs, s);
    if OneActive(after) && s.Insert? {
      forall i | 0 <= i < |cs| && cs[i].active ensures OwnerOf(cs[i]) != OwnerOf(s.contract) {
        assert after[i] == cs[i] && after[|cs|] == s.contract.(active := true);
      }
    }
  }

  // Two inserts for one owner with no deactivation of the owner between them.
  predicate Clash(ss: seq<Statement>, i: nat, j: nat)
    requires i < j < |ss|
  {
    && ss[i].Insert? && ss[j].Insert? && OwnerOf(ss[i].contract) == OwnerOf(ss[j].contract)
    && NoneBetween(ss, i, j, OwnerOf(ss[j].contract))
  }

  predicate NoClash(ss: seq<Statement>) {
    forall i: nat, j: nat :: i < j < |ss| ==> !Clash(ss, i, j)
  }

  predicate AlwaysOneActive(ss: seq<Statement>) {
    forall n: nat :: n <= |ss| ==> OneActive(Table(ss[..n]))
  }

  lemma ClashAfter(ss: seq<Statement>, s: Statement)
    ensures NoClash(ss + [s]) <==> NoClash(ss) && (s.Insert? ==> !SomeStanding(ss, OwnerOf(s.contract)))
  {
    var all := ss + [s];
    forall i: nat, j: nat | i < j < |ss| ensures Clash(all, i, j) <==> Clash(ss, i, j) {
      assert forall k :: i <= k <= j ==> all[k] == ss[k];
    }
    forall i: nat | i < |ss| ensures Clash(all, i, |ss|) <==> s.Insert? && Standing(ss, i, OwnerOf(s.contract)) {
      assert forall k :: i <= k < |ss| ==> all[k] == ss[k];
      assert all[|ss|] == s;
    }
    if s.Insert? && SomeStanding(ss, OwnerOf(s.contract)) {
      var i: nat :| i < |ss| && Standing(ss, i, OwnerOf(s.contract));
      assert Clash(all, i, |ss|);
    }
    if !NoClash(ss) {
      var i: nat, j: nat :| i < j < |ss| && Clash(ss, i, j);
      assert Clash(all, i, j);
    }
  }

  lemma AlwaysAfter(ss: seq<Statement>, s: Statement)
    ensures AlwaysOneActive(ss + [s]) <==> AlwaysOneActive(ss) && OneActive(Table(ss + [s]))
  {
    var all := ss + [s];
    assert forall n: nat :: n <= |ss| ==> all[..n] == ss[..n];
    assert all[..|all|] == all;
  }

  // However the statements of any creations interleave, from an empty table: there is at most
  // one active contract an owner all along exactly when no two inserts for an owner run
  // without a deactivation of the owner between them.
  lemma {:induction false} OneActiveIffNoClash(ss: seq<Statement>)
    ensures AlwaysOneActive(ss) <==> NoClash(ss)
    decreases |ss|
  {
    if ss != [] {
      var rest, s := ss[..|ss| - 1], ss[|ss| - 1];
      assert ss == rest + [s];
      OneActiveIffNoClash(rest);
      AlwaysAfter(rest, s);
      ClashAfter(rest, s);
      OneActiveAfter(Table(rest), s);
      assert rest[..|rest|] == rest;
      if s.Insert? {
        ActiveIffStanding(rest, OwnerOf(s.contract));
      }
    }
  }
}
