// Employees and contracts, and the two ways payroll totals are computed from them: a loop
// over employees and a join over contracts.  Amounts are exact.
module Payroll {
  import opened Common

  datatype Employee = Employee(id: nat, tenant: string, active: bool)

  datatype Contract = Contract(tenant: string, employee: nat, basic: real, housing: real, transport: real, other: real,
                               active: bool, createdAt: int)

  datatype Tables = Tables(employees: seq<Employee>, contracts: seq<Contract>)

  // What a payroll run stores.
  datatype PayrollRun = PayrollRun(totals: Totals, employeeCount: nat)

  // ---- Operations ---------------------------------------------------------------------------

  datatype Op =
    | Hire(tenant: string)
    | UpdateEmployee(id: nat, tenant: string, active: bool)
    | CreateContract(contract: Contract, deactivateOk: bool, insertOk: bool)

  function SetActive(es: seq<Employee>, id: nat, tenant: string, active: bool): (r: seq<Employee>)
    ensures |r| == |es|
  {
    seq(|es|, i requires 0 <= i < |es| =>
      if es[i].id == id && es[i].tenant == tenant then es[i].(active := active) else es[i])
  }

  function Deactivate(cs: seq<Contract>, employee: nat, tenant: string): (r: seq<Contract>)
    ensures |r| == |cs|
  {
    seq(|cs|, i requires 0 <= i < |cs| =>
      if cs[i].employee == employee && cs[i].tenant == tenant then cs[i].(active := false) else cs[i])
  }

  predicate Employed(t: Tables, id: nat, tenant: string) {
    exists i :: 0 <= i < |t.employees| && t.employees[i].id == id && t.employees[i].tenant == tenant
  }

  predicate Accepted(t: Tables, op: Op) {
    op.CreateContract? ==> op.contract.basic > 0.0 && Employed(t, op.contract.employee, op.contract.tenant)
  }

  // A new contract first deactivates the employee's others; a failure of that is ignored.
  function Exec(t: Tables, op: Op): Tables {
    if !Accepted(t, op) then t
    else
      match op
      case Hire(tenant) => t.(employees := t.employees + [Employee(|t.employees|, tenant, true)])
      case UpdateEmployee(id, tenant, active) => t.(employees := SetActive(t.employees, id, tenant, active))
      case CreateContract(c, deactivateOk, insertOk) =>
        var kept := if deactivateOk then Deactivate(t.contracts, c.employee, c.tenant) else t.contracts;
        t.(contracts := kept + if insertOk then [c.(active := true)] else [])
  }

  function Run(t: Tables, ops: seq<Op>): Tables
    decreases |ops|
  {
    if ops == [] then t else Run(Exec(t, ops[0]), ops[1..])
  }

  // ---- The invariant --------------------------------------------------------------------------

  predicate DistinctIds(t: Tables) {
    forall i :: 0 <= i < |t.employees| ==> t.employees[i].id == i
  }

  predicate SameTenant(t: Tables) {
    forall i :: 0 <= i < |t.contracts| ==>
      t.contracts[i].employee < |t.employees| && t.employees[t.contracts[i].employee].tenant == t.contracts[i].tenant
  }

  predicate OneActive(cs: seq<Contract>) {
    forall i, j :: 0 <= i < j < |cs| && cs[i].active && cs[j].active ==>
      cs[i].employee != cs[j].employee || cs[i].tenant != cs[j].tenant
  }

  predicate Inv(t: Tables) {
    DistinctIds(t) && SameTenant(t) && OneActive(t.contracts)
  }

  predicate DeactivationsSucceed(ops: seq<Op>) {
    forall i :: 0 <= i < |ops| ==> ops[i].CreateContract? ==> ops[i].deactivateOk
  }

  lemma ExecKeepsInv(t: Tables, op: Op)
    requires Inv(t) && (op.CreateContract? ==> op.deactivateOk)
    ensures Inv(Exec(t, op))
  {
  }

  // Every run of employee and contract operations keeps at most one active contract an
  // employee and tenant.
  lemma {:induction false} RunKeepsInv(t: Tables, ops: seq<Op>)
    requires Inv(t) && DeactivationsSucceed(ops)
    ensures Inv(Run(t, ops))
    decreases |ops|
  {
    if ops != [] {
      ExecKeepsInv(t, ops[0]);
      RunKeepsInv(Exec(t, ops[0]), ops[1..]);
    }
  }

  // An accepted contract keeps the invariant exactly when its deactivation went through or
  // there was nothing to deactivate.
  lemma ContractKeepsOneActiveIff(t: Tables, c: Contract, deactivateOk: bool)
    requires Inv(t) && Accepted(t, CreateContract(c, deactivateOk, true))
    ensures OneActive(Exec(t, CreateContract(c, deactivateOk, true)).contracts) <==>
      deactivateOk || forall i :: 0 <= i < |t.contracts| && t.contracts[i].active ==>
        t.contracts[i].employee != c.employee || t.contracts[i].tenant != c.tenant
  {
    var cs := Exec(t, CreateContract(c, deactivateOk, true)).contracts;
    if deactivateOk {
      ExecKeepsInv(t, CreateContract(c, deactivateOk, true));
    } else if OneActive(cs) {
      assert cs[|cs| - 1].active;
      forall i | 0 <= i < |t.contracts| && t.contracts[i].active
        ensures t.contracts[i].employee != c.employee || t.contracts[i].tenant != c.tenant
      {
        assert cs[i] == t.contracts[i];
      }
    }
  }

  // ---- The two computations ----------------------------------------------------------------------

  function Gross(c: Contract): real {
    c.basic + c.housing + c.transport + c.other
  }

  // 9% social security, then 15% income tax on what is left.
  function Deductions(gross: real): real {
    var ss := gross * 0.09;
    ss + (gross - ss) * 0.15
  }

  datatype Totals = Totals(gross: real, deductions: real, net: real)

  const Zero := Totals(0.0, 0.0, 0.0)

  function Plus(t: Totals, gross: real): Totals {
    Totals(t.gross + gross, t.deductions + Deductions(gross), t.net + (gross - Deductions(gross)))
  }

  // The active contract of an employee that was created last.
  predicate Matches(c: Contract, employee: nat, tenant: string) {
    c.employee == employee && c.tenant == tenant && c.active
  }

  function CurrentContract(cs: seq<Contract>, employee: nat, tenant: string): Option<Contract> {
    if cs == [] then None
    else
      var before := CurrentContract(cs[..|cs| - 1], employee, tenant);
      var c := cs[|cs| - 1];
      if !Matches(c, employee, tenant) then before
      else if before.Some? && before.value.createdAt > c.createdAt then before
      else Some(c)
  }

  function LoopTotals(cs: seq<Contract>, es: seq<Employee>, tenant: string): Totals {
    if es == [] then Zero
    else
      var before := LoopTotals(cs, es[..|es| - 1], tenant);
      match CurrentContract(cs, es[|es| - 1].id, tenant)
      case None => before
      case Some(c) => Plus(before, Gross(c))
  }

  predicate ActiveEmployee(es: seq<Employee>, id: nat) {
    exists i :: 0 <= i < |es| && es[i].id == id && es[i].active
  }

  // A row of the join: the contract and its employee are active.
  predicate Joins(t: Tables, c: Contract, tenant: string) {
    c.tenant == tenant && c.active && ActiveEmployee(t.employees, c.employee)
  }

  function JoinTotals(t: Tables, cs: seq<Contract>, tenant: string): Totals {
    if cs == [] then Zero
    else
      var before := JoinTotals(t, cs[..|cs| - 1], tenant);
      var c := cs[|cs| - 1];
      if Joins(t, c, tenant) then Plus(before, Gross(c)) else before
  }

  function JoinCount(t: Tables, cs: seq<Contract>, tenant: string): nat {
    if cs == [] then 0
    else JoinCount(t, cs[..|cs| - 1], tenant) + if Joins(t, cs[|cs| - 1], tenant) then 1 else 0
  }

  // The tenant's active employees, in table order.
  function ActiveOf(es: seq<Employee>, tenant: string): seq<Employee> {
    if es == [] then []
    else
      var e := es[|es| - 1];
      ActiveOf(es[..|es| - 1], tenant) + if e.tenant == tenant && e.active then [e] else []
  }

  // ---- Both are one linear function of a double sum ----------------------------------------------

  lemma {:induction false} LoopIsLinear(cs: seq<Contract>, es: seq<Employee>, tenant: string)
    ensures var t := LoopTotals(cs, es, tenant); t.deductions == t.gross * 0.2265 && t.net + t.deductions == t.gross
    decreases |es|
  {
    if es != [] {
      LoopIsLinear(cs, es[..|es| - 1], tenant);
    }
  }

  lemma {:induction false} JoinIsLinear(t: Tables, cs: seq<Contract>, tenant: string)
    ensures var r := JoinTotals(t, cs, tenant); r.deductions == r.gross * 0.2265 && r.net + r.deductions == r.gross
    decreases |cs|
  {
    if cs != [] {
      JoinIsLinear(t, cs[..|cs| - 1], tenant);
    }
  }

  // What a contract weighs: its gross pay, or one when contracts are counted.
  datatype Measure = Pay | One

  function Weight(m: Measure, c: Contract): real {
    if m.Pay? then Gross(c) else 1.0
  }

  function MatchSum(m: Measure, cs: seq<Contract>, id: nat, tenant: string): real {
    if cs == [] then 0.0
    else MatchSum(m, cs[..|cs| - 1], id, tenant) + if Matches(cs[|cs| - 1], id, tenant) then Weight(m, cs[|cs| - 1]) else 0.0
  }

  function PairSum(m: Measure, cs: seq<Contract>, es: seq<Employee>, tenant: string): real {
    if es == [] then 0.0 else MatchSum(m, cs, es[0].id, tenant) + PairSum(m, cs, es[1..], tenant)
  }

  function RowSum(m: Measure, c: Contract, es: seq<Employee>, tenant: string): real {
    if es == [] then 0.0
    else (if Matches(c, es[0].id, tenant) then Weight(m, c) else 0.0) + RowSum(m, c, es[1..], tenant)
  }

  // With at most one active contract, the double sum sees just the current one.
  lemma {:induction false} NoMatch(m: Measure, cs: seq<Contract>, id: nat, tenant: string)
    requires forall i :: 0 <= i < |cs| ==> !Matches(cs[i], id, tenant)
    ensures MatchSum(m, cs, id, tenant) == 0.0 && CurrentContract(cs, id, tenant).None?
    decreases |cs|
  {
    if cs != [] {
      NoMatch(m, cs[..|cs| - 1], id, tenant);
    }
  }

  lemma {:induction false} OneMatch(m: Measure, cs: seq<Contract>, id: nat, tenant: string)
    requires OneActive(cs)
    ensures MatchSum(m, cs, id, tenant) ==
            match CurrentContract(cs, id, tenant) case None => 0.0 case Some(c) => Weight(m, c)
    decreases |cs|
  {
    if cs != [] {
      var rest := cs[..|cs| - 1];
      if Matches(cs[|cs| - 1], id, tenant) {
        NoMatch(m, rest, id, tenant);
      } else {
        OneMatch(m, rest, id, tenant);
      }
    }
  }

  lemma {:induction false} NoneIff(cs: seq<Contract>, id: nat, tenant: string)
    ensures CurrentContract(cs, id, tenant).None? <==> forall i :: 0 <= i < |cs| ==> !Matches(cs[i], id, tenant)
    decreases |cs|
  {
    if cs != [] {
      NoneIff(cs[..|cs| - 1], id, tenant);
    }
  }

  // After an accepted creation the employee is without a contract exactly when the insert
  // failed and the deactivation went through or there was none before.
  lemma NoContractIff(t: Tables, c: Contract, deactivateOk: bool, insertOk: bool)
    requires Accepted(t, CreateContract(c, deactivateOk, insertOk))
    ensures CurrentContract(Exec(t, CreateContract(c, deactivateOk, insertOk)).contracts, c.employee, c.tenant).None? <==>
            !insertOk && (deactivateOk || CurrentContract(t.contracts, c.employee, c.tenant).None?)
  {
    var cs := Exec(t, CreateContract(c, deactivateOk, insertOk)).contracts;
    NoneIff(cs, c.employee, c.tenant);
    NoneIff(t.contracts, c.employee, c.tenant);
    if insertOk {
      assert Matches(cs[|cs| - 1], c.employee, c.tenant);
    } else if !deactivateOk {
      assert cs == t.contracts;
    } else {
      assert forall i :: 0 <= i < |cs| ==> !Matches(cs[i], c.employee, c.tenant);
    }
  }

  lemma {:induction false} PairSumAppendEmployee(m: Measure, cs: seq<Contract>, es: seq<Employee>, e: Employee, tenant: string)
    ensures PairSum(m, cs, es + [e], tenant) == PairSum(m, cs, es, tenant) + MatchSum(m, cs, e.id, tenant)
  {
    if es == [] {
      assert es + [e] == [e];
      assert PairSum(m, cs, [e][1..], tenant) == 0.0;
    } else {
      assert (es + [e])[1..] == es[1..] + [e];
      PairSumAppendEmployee(m, cs, es[1..], e, tenant);
    }
  }

  lemma {:induction false} LoopIsPairSum(cs: seq<Contract>, es: seq<Employee>, tenant: string)
    requires OneActive(cs)
    ensures LoopTotals(cs, es, tenant).gross == PairSum(Pay, cs, es, tenant)
    decreases |es|
  {
    if es != [] {
      var rest, e := es[..|es| - 1], es[|es| - 1];
      assert es == rest + [e];
      LoopIsPairSum(cs, rest, tenant);
      PairSumAppendEmployee(Pay, cs, rest, e, tenant);
      OneMatch(Pay, cs, e.id, tenant);
    }
  }

  lemma {:induction false} PairSumAppendContract(m: Measure, cs: seq<Contract>, c: Contract, es: seq<Employee>, tenant: string)
    ensures PairSum(m, cs + [c], es, tenant) == PairSum(m, cs, es, tenant) + RowSum(m, c, es, tenant)
  {
    if es != [] {
      PairSumAppendContract(m, cs, c, es[1..], tenant);
      assert (cs + [c])[..|cs|] == cs;
    }
  }

  lemma {:induction false} PairSumNoContracts(m: Measure, es: seq<Employee>, tenant: string)
    ensures PairSum(m, [], es, tenant) == 0.0
  {
    if es != [] {
      PairSumNoContracts(m, es[1..], tenant);
    }
  }

  predicate HasId(es: seq<Employee>, id: nat) {
    exists i :: 0 <= i < |es| && es[i].id == id
  }

  // Among employees with distinct ids a contract is seen once or not at all.
  lemma {:induction false} RowSeenOnce(m: Measure, c: Contract, es: seq<Employee>, tenant: string)
    requires forall i, j :: 0 <= i < j < |es| ==> es[i].id != es[j].id
    ensures RowSum(m, c, es, tenant) ==
            if c.tenant == tenant && c.active && HasId(es, c.employee) then Weight(m, c) else 0.0
  {
    if es != [] {
      RowSeenOnce(m, c, es[1..], tenant);
      if es[0].id == c.employee {
        assert forall i :: 0 <= i < |es[1..]| ==> es[1..][i] == es[i + 1];
      } else if i :| 0 <= i < |es| && es[i].id == c.employee {
        assert es[1..][i - 1].id == c.employee;
      }
    }
  }

  // ---- The query's order does not matter -----------------------------------------------------------

  lemma {:induction false} PairSumSplit(m: Measure, cs: seq<Contract>, a: seq<Employee>, b: seq<Employee>, tenant: string)
    ensures PairSum(m, cs, a + b, tenant) == PairSum(m, cs, a, tenant) + PairSum(m, cs, b, tenant)
  {
    if a == [] {
      assert a + b == b;
    } else {
      assert (a + b)[1..] == a[1..] + b;
      PairSumSplit(m, cs, a[1..], b, tenant);
    }
  }

  lemma {:induction false} PairSumPermutes(m: Measure, cs: seq<Contract>, a: seq<Employee>, b: seq<Employee>, tenant: string)
    requires multiset(a) == multiset(b)
    ensures PairSum(m, cs, a, tenant) == PairSum(m, cs, b, tenant)
    decreases |a|
  {
    if a == [] {
      assert |multiset(b)| == 0;
    } else {
      var e, rest := a[0], a[1..];
      assert a == [e] + rest;
      assert multiset(rest) == multiset(a) - multiset{e};
      assert e in multiset(a);
      var before, after := TakeOut(b, e);
      PairSumPermutes(m, cs, rest, before + after, tenant);
      PairSumSplit(m, cs, before, [e] + after, tenant);
      PairSumSplit(m, cs, before, after, tenant);
      assert ([e] + after)[1..] == after;
    }
  }

  // ---- The join is the double sum over the active employees ------------------------------------------

  lemma {:induction false} ActiveOfDistinct(es: seq<Employee>, tenant: string)
    requires forall i :: 0 <= i < |es| ==> es[i].id == i
    ensures forall i :: 0 <= i < |ActiveOf(es, tenant)| ==> ActiveOf(es, tenant)[i].id < |es|
    ensures forall i, j :: 0 <= i < j < |ActiveOf(es, tenant)| ==> ActiveOf(es, tenant)[i].id != ActiveOf(es, tenant)[j].id
    decreases |es|
  {
    if es != [] {
      ActiveOfDistinct(es[..|es| - 1], tenant);
    }
  }

  lemma {:induction false} ActiveOfMembers(es: seq<Employee>, tenant: string, id: nat)
    requires forall i :: 0 <= i < |es| ==> es[i].id == i
    ensures HasId(ActiveOf(es, tenant), id) <==> id < |es| && es[id].tenant == tenant && es[id].active
    decreases |es|
  {
    if es != [] {
      var rest, e := es[..|es| - 1], es[|es| - 1];
      var a, b := ActiveOf(es, tenant), ActiveOf(rest, tenant);
      ActiveOfMembers(rest, tenant, id);
      assert forall i :: 0 <= i < |b| ==> a[i] == b[i];
      assert a == b || a == b + [e];
      assert e.tenant == tenant && e.active ==> a[|b|] == e;
      assert HasId(a, id) <==> HasId(b, id) || (id == |es| - 1 && e.tenant == tenant && e.active);
      assert id < |rest| ==> rest[id] == es[id];
    }
  }

  lemma RowIsJoin(m: Measure, t: Tables, c: Contract, tenant: string)
    requires DistinctIds(t)
    requires c.employee < |t.employees| && t.employees[c.employee].tenant == c.tenant
    ensures RowSum(m, c, ActiveOf(t.employees, tenant), tenant) == if Joins(t, c, tenant) then Weight(m, c) else 0.0
  {
    ActiveOfDistinct(t.employees, tenant);
    ActiveOfMembers(t.employees, tenant, c.employee);
    RowSeenOnce(m, c, ActiveOf(t.employees, tenant), tenant);
    if c.tenant == tenant {
      assert ActiveEmployee(t.employees, c.employee) <==> t.employees[c.employee].active;
    }
  }

  lemma {:induction false} JoinIsPairSum(t: Tables, cs: seq<Contract>, tenant: string)
    requires DistinctIds(t) && SameTenant(t.(contracts := cs))
    ensures JoinTotals(t, cs, tenant).gross == PairSum(Pay, cs, ActiveOf(t.employees, tenant), tenant)
    ensures JoinCount(t, cs, tenant) as real == PairSum(One, cs, ActiveOf(t.employees, tenant), tenant)
    decreases |cs|
  {
    var es := ActiveOf(t.employees, tenant);
    if cs == [] {
      PairSumNoContracts(Pay, es, tenant);
      PairSumNoContracts(One, es, tenant);
    } else {
      var rest, c := cs[..|cs| - 1], cs[|cs| - 1];
      JoinIsPairSum(t, rest, tenant);
      assert cs == rest + [c];
      PairSumAppendContract(Pay, rest, c, es, tenant);
      PairSumAppendContract(One, rest, c, es, tenant);
      RowIsJoin(Pay, t, c, tenant);
      RowIsJoin(One, t, c, tenant);
    }
  }

  // ---- The two computations agree -------------------------------------------------------------------------

  const PageLimit: nat := 1000

  // The employees the loop visits: the query's first page.
  function FirstPage(ordered: seq<Employee>): seq<Employee> {
    if |ordered| <= PageLimit then ordered else ordered[..PageLimit]
  }

  // A query for the tenant's active employees, in whatever order.
  ghost predicate Lists(ordered: seq<Employee>, t: Tables, tenant: string) {
    multiset(ordered) == multiset(ActiveOf(t.employees, tenant))
  }

  // The join pays what the loop pays, and besides it the employees past the first page.
  lemma JoinIsLoopPlusRest(t: Tables, ordered: seq<Employee>, tenant: string)
    requires Inv(t) && Lists(ordered, t, tenant)
    ensures JoinTotals(t, t.contracts, tenant).gross ==
            LoopTotals(t.contracts, FirstPage(ordered), tenant).gross +
            LoopTotals(t.contracts, ordered[|FirstPage(ordered)|..], tenant).gross
  {
    var page, rest := FirstPage(ordered), ordered[|FirstPage(ordered)|..];
    assert ordered == page + rest;
    LoopIsPairSum(t.contracts, page, tenant);
    LoopIsPairSum(t.contracts, rest, tenant);
    PairSumSplit(Pay, t.contracts, page, rest, tenant);
    PairSumPermutes(Pay, t.contracts, ordered, ActiveOf(t.employees, tenant), tenant);
    JoinIsPairSum(t, t.contracts, tenant);
  }

  // In every state a run reaches, the loop and the join give the same gross, deductions and
  // net exactly when the employees past the first page are paid nothing between them; up to
  // 1000 active employees there are none.
  lemma {:induction false} LoopAgreesWithJoin(ops: seq<Op>, ordered: seq<Employee>, tenant: string)
    requires DeactivationsSucceed(ops) && Lists(ordered, Run(Tables([], []), ops), tenant)
    ensures
      var t := Run(Tables([], []), ops);
      var loop, join := LoopTotals(t.contracts, FirstPage(ordered), tenant), JoinTotals(t, t.contracts, tenant);
      && (loop == join <==> LoopTotals(t.contracts, ordered[|FirstPage(ordered)|..], tenant).gross == 0.0)
      && (|ordered| <= 1000 ==> loop == join)
      && loop.net + loop.deductions == loop.gross
      && join.net + join.deductions == join.gross
  {
    RunKeepsInv(Tables([], []), ops);
    var t := Run(Tables([], []), ops);
    JoinIsLoopPlusRest(t, ordered, tenant);
    LoopIsLinear(t.contracts, FirstPage(ordered), tenant);
    JoinIsLinear(t, t.contracts, tenant);
  }

  // ---- The stored payroll run ---------------------------------------------------------------------------------

  // The run is stored with the join's figures, or none if that query fails, unless the caller
  // brings a positive gross.
  function StoredRun(t: Tables, run: PayrollRun, tenant: string, joinOk: bool): PayrollRun {
    if run.totals.gross > 0.0 then run
    else if !joinOk then PayrollRun(Zero, 0)
    else PayrollRun(JoinTotals(t, t.contracts, tenant), JoinCount(t, t.contracts, tenant))
  }

  // The employees whose contract query answered, or failed; the loop skips the latter.
  function Asked(page: seq<Employee>, answered: seq<bool>, which: bool): seq<Employee>
    requires |answered| == |page|
  {
    if page == [] then []
    else
      var n := |page| - 1;
      Asked(page[..n], answered[..n], which) + if answered[n] == which then [page[n]] else []
  }

  function Generated(t: Tables, page: seq<Employee>, answered: seq<bool>, tenant: string, joinOk: bool): PayrollRun
    requires |answered| == |page|
  {
    StoredRun(t, PayrollRun(LoopTotals(t.contracts, Asked(page, answered, true), tenant), |page|), tenant, joinOk)
  }

  lemma {:induction false} AskedSplits(m: Measure, cs: seq<Contract>, page: seq<Employee>, answered: seq<bool>, tenant: string)
    requires |answered| == |page|
    ensures PairSum(m, cs, page, tenant) ==
            PairSum(m, cs, Asked(page, answered, true), tenant) + PairSum(m, cs, Asked(page, answered, false), tenant)
    decreases |page|
  {
    if page != [] {
      var n := |page| - 1;
      assert page == page[..n] + [page[n]];
      AskedSplits(m, cs, page[..n], answered[..n], tenant);
      PairSumAppendEmployee(m, cs, page[..n], page[n], tenant);
      var which := answered[n];
      PairSumAppendEmployee(m, cs, Asked(page[..n], answered[..n], which), page[n], tenant);
      assert Asked(page[..n], answered[..n], !which) + [] == Asked(page[..n], answered[..n], !which);
    }
  }

  lemma {:induction false} AllAnswered(page: seq<Employee>, answered: seq<bool>)
    requires |answered| == |page| && false !in answered
    ensures Asked(page, answered, true) == page && Asked(page, answered, false) == []
    decreases |page|
  {
    if page != [] {
      var n := |page| - 1;
      assert forall x :: x in answered[..n] ==> x in answered;
      AllAnswered(page[..n], answered[..n]);
      assert page == page[..n] + [page[n]];
    }
  }

  // What is missing from the loop's gross: the pay of the employees whose query failed and of
  // those past the first page.
  lemma JoinIsAskedPlusRest(t: Tables, ordered: seq<Employee>, answered: seq<bool>, tenant: string)
    requires Inv(t) && Lists(ordered, t, tenant) && |answered| == |FirstPage(ordered)|
    ensures JoinTotals(t, t.contracts, tenant).gross ==
            LoopTotals(t.contracts, Asked(FirstPage(ordered), answered, true), tenant).gross +
            LoopTotals(t.contracts, Asked(FirstPage(ordered), answered, false), tenant).gross +
            LoopTotals(t.contracts, ordered[|FirstPage(ordered)|..], tenant).gross
  {
    var page := FirstPage(ordered);
    JoinIsLoopPlusRest(t, ordered, tenant);
    AskedSplits(Pay, t.contracts, page, answered, tenant);
    LoopIsPairSum(t.contracts, page, tenant);
    LoopIsPairSum(t.contracts, Asked(page, answered, true), tenant);
    LoopIsPairSum(t.contracts, Asked(page, answered, false), tenant);
  }

  // The pay the stored totals miss when the loop's figures are stored.
  function Missing(t: Tables, ordered: seq<Employee>, answered: seq<bool>, tenant: string): real
    requires |answered| == |FirstPage(ordered)|
  {
    LoopTotals(t.contracts, Asked(FirstPage(ordered), answered, false), tenant).gross +
    LoopTotals(t.contracts, ordered[|FirstPage(ordered)|..], tenant).gross
  }

  // Whatever fails and however many employees there are, the stored totals are the join's
  // exactly when, with the loop's figures stored, nobody it missed is paid anything between
  // them, and otherwise when the join runs or pays nothing.
  lemma {:induction false} StoredTotals(t: Tables, ordered: seq<Employee>, answered: seq<bool>, tenant: string, joinOk: bool)
    requires Inv(t) && Lists(ordered, t, tenant) && |answered| == |FirstPage(ordered)|
    ensures Generated(t, FirstPage(ordered), answered, tenant, joinOk).totals == JoinTotals(t, t.contracts, tenant) <==>
            (if LoopTotals(t.contracts, Asked(FirstPage(ordered), answered, true), tenant).gross > 0.0
             then Missing(t, ordered, answered, tenant) == 0.0
             else joinOk || JoinTotals(t, t.contracts, tenant).gross == 0.0)
  {
    JoinIsAskedPlusRest(t, ordered, answered, tenant);
    LoopIsLinear(t.contracts, Asked(FirstPage(ordered), answered, true), tenant);
    JoinIsLinear(t, t.contracts, tenant);
  }

  // When every query answers and there are at most 1000 active employees nothing is missed,
  // and the stored totals are the join's and the loop's exactly when the join runs or the
  // gross is not negative.
  lemma {:induction false} StoredTotalsAllAnswered(t: Tables, ordered: seq<Employee>, answered: seq<bool>, tenant: string, joinOk: bool)
    requires Inv(t) && Lists(ordered, t, tenant) && |ordered| <= 1000 && |answered| == |ordered| && false !in answered
    ensures LoopTotals(t.contracts, ordered, tenant) == JoinTotals(t, t.contracts, tenant)
    ensures Generated(t, ordered, answered, tenant, joinOk).totals == JoinTotals(t, t.contracts, tenant) <==>
            joinOk || JoinTotals(t, t.contracts, tenant).gross >= 0.0
  {
    AllAnswered(ordered, answered);
    assert LoopTotals(t.contracts, [], tenant).gross == 0.0;
    StoredTotals(t, ordered, answered, tenant, joinOk);
    JoinIsAskedPlusRest(t, ordered, answered, tenant);
    LoopIsLinear(t.contracts, ordered, tenant);
    JoinIsLinear(t, t.contracts, tenant);
  }

  predicate HasContract(cs: seq<Contract>, e: Employee, tenant: string) {
    CurrentContract(cs, e.id, tenant).Some?
  }

  lemma {:induction false} ContractsCounted(cs: seq<Contract>, es: seq<Employee>, tenant: string)
    requires OneActive(cs)
    ensures PairSum(One, cs, es, tenant) <= |es| as real
    ensures PairSum(One, cs, es, tenant) == |es| as real <==>
            forall i :: 0 <= i < |es| ==> HasContract(cs, es[i], tenant)
  {
    if es != [] {
      ContractsCounted(cs, es[1..], tenant);
      OneMatch(One, cs, es[0].id, tenant);
      assert forall i :: 0 < i < |es| ==> es[i] == es[1..][i - 1];
    }
  }

  // The stored employee count is the number of contracts the join finds exactly when, with the
  // loop's figures stored, every active employee has a contract, since the loop counts the
  // employees it skips; and otherwise when the join runs or finds none.
  lemma {:induction false} CountIsContractsPaidIff(t: Tables, ordered: seq<Employee>, answered: seq<bool>, tenant: string, joinOk: bool)
    requires Inv(t) && Lists(ordered, t, tenant) && |ordered| <= 1000 && |answered| == |ordered|
    ensures
      Generated(t, ordered, answered, tenant, joinOk).employeeCount == JoinCount(t, t.contracts, tenant) <==>
      (if LoopTotals(t.contracts, Asked(ordered, answered, true), tenant).gross > 0.0
       then forall i :: 0 <= i < |ordered| ==> HasContract(t.contracts, ordered[i], tenant)
       else joinOk || JoinCount(t, t.contracts, tenant) == 0)
  {
    PairSumPermutes(One, t.contracts, ordered, ActiveOf(t.employees, tenant), tenant);
    JoinIsPairSum(t, t.contracts, tenant);
    ContractsCounted(t.contracts, ordered, tenant);
  }

  // With the loop's figures stored, their gross falls short of the join's by what is missing.
  lemma MissedPayIsUnpaid(t: Tables, ordered: seq<Employee>, answered: seq<bool>, tenant: string, joinOk: bool)
    requires Inv(t) && Lists(ordered, t, tenant) && |answered| == |FirstPage(ordered)|
    requires LoopTotals(t.contracts, Asked(FirstPage(ordered), answered, true), tenant).gross > 0.0
    ensures JoinTotals(t, t.contracts, tenant).gross - Generated(t, FirstPage(ordered), answered, tenant, joinOk).totals.gross ==
            Missing(t, ordered, answered, tenant)
  {
    JoinIsAskedPlusRest(t, ordered, answered, tenant);
  }
}
