// What payroll pays, by columns: which contracts are paid, and the four pay terms added up
// one by one over them.
module PayColumns {
  import opened Common
  import opened Payroll

  // ---- Columns ------------------------------------------------------------------------------

  function Basics(cs: seq<Contract>): real {
    if cs == [] then 0.0 else Basics(cs[..|cs| - 1]) + cs[|cs| - 1].basic
  }

  function Housings(cs: seq<Contract>): real {
    if cs == [] then 0.0 else Housings(cs[..|cs| - 1]) + cs[|cs| - 1].housing
  }

  function Transports(cs: seq<Contract>): real {
    if cs == [] then 0.0 else Transports(cs[..|cs| - 1]) + cs[|cs| - 1].transport
  }

  function Others(cs: seq<Contract>): real {
    if cs == [] then 0.0 else Others(cs[..|cs| - 1]) + cs[|cs| - 1].other
  }

  function FourColumns(cs: seq<Contract>): real {
    Basics(cs) + Housings(cs) + Transports(cs) + Others(cs)
  }

  lemma ColumnsAppend(cs: seq<Contract>, c: Contract)
    ensures FourColumns(cs + [c]) == FourColumns(cs) + (c.basic + c.housing + c.transport + c.other)
  {
    assert (cs + [c])[..|cs|] == cs;
  }

  // ---- The contracts paid -------------------------------------------------------------------

  function PaidByLoop(cs: seq<Contract>, es: seq<Employee>, tenant: string): seq<Contract> {
    if es == [] then []
    else
      var before := PaidByLoop(cs, es[..|es| - 1], tenant);
      match CurrentContract(cs, es[|es| - 1].id, tenant)
      case None => before
      case Some(c) => before + [c]
  }

  function PaidByJoin(es: seq<Employee>, cs: seq<Contract>, tenant: string): seq<Contract> {
    if cs == [] then []
    else
      var c := cs[|cs| - 1];
      PaidByJoin(es, cs[..|cs| - 1], tenant) +
        if c.tenant == tenant && c.active && exists e :: e in es && e.id == c.employee && e.active then [c] else []
  }

  // The contract the loop pays an employee is an active one of his in this tenant, and none of
  // those was created later; there is one exactly when he has any.
  lemma {:induction false} CurrentIsLatest(cs: seq<Contract>, id: nat, tenant: string)
    ensures
      var found := CurrentContract(cs, id, tenant);
      && (found.None? <==> forall c :: c in cs && c.active ==> c.employee != id || c.tenant != tenant)
      && (found.Some? ==>
            && found.value in cs && found.value.employee == id && found.value.tenant == tenant && found.value.active
            && forall c :: c in cs && c.employee == id && c.tenant == tenant && c.active ==> c.createdAt <= found.value.createdAt)
    decreases |cs|
  {
    if cs != [] {
      var rest, last := cs[..|cs| - 1], cs[|cs| - 1];
      CurrentIsLatest(rest, id, tenant);
      assert forall c :: c in cs <==> c in rest || c == last;
    }
  }

  // ---- Both computations are column sums -------------------------------------------------------

  // The loop pays the four pay terms of the contracts it finds, and takes 22.65% off.
  lemma {:induction false} LoopPaysColumns(cs: seq<Contract>, es: seq<Employee>, tenant: string)
    ensures LoopTotals(cs, es, tenant).gross == FourColumns(PaidByLoop(cs, es, tenant))
    decreases |es|
  {
    if es != [] {
      LoopPaysColumns(cs, es[..|es| - 1], tenant);
      var found := CurrentContract(cs, es[|es| - 1].id, tenant);
      if found.Some? {
        ColumnsAppend(PaidByLoop(cs, es[..|es| - 1], tenant), found.value);
      }
    }
  }

  // So does the join, which counts the contracts it finds.
  lemma {:induction false} JoinPaysColumns(t: Tables, cs: seq<Contract>, tenant: string)
    ensures JoinTotals(t, cs, tenant).gross == FourColumns(PaidByJoin(t.employees, cs, tenant))
    ensures JoinCount(t, cs, tenant) == |PaidByJoin(t.employees, cs, tenant)|
    decreases |cs|
  {
    if cs != [] {
      var rest, c := cs[..|cs| - 1], cs[|cs| - 1];
      JoinPaysColumns(t, rest, tenant);
      assert ActiveEmployee(t.employees, c.employee) <==> exists e :: e in t.employees && e.id == c.employee && e.active;
      var paid := PaidByJoin(t.employees, rest, tenant);
      ColumnsAppend(paid, c);
      assert paid + [] == paid;
    }
  }

  // Net pay is what 9% social security, and 15% tax on the rest, leave of the gross.
  lemma TotalsAreNet(t: Tables, cs: seq<Contract>, es: seq<Employee>, tenant: string)
    ensures var r := LoopTotals(cs, es, tenant); r.deductions == r.gross * 0.2265 && r.net == r.gross - r.deductions
    ensures var r := JoinTotals(t, cs, tenant); r.deductions == r.gross * 0.2265 && r.net == r.gross - r.deductions
  {
    LoopIsLinear(cs, es, tenant);
    JoinIsLinear(t, cs, tenant);
  }

  // What GeneratePayroll stores: the columns of the contracts of the employees that answered,
  // with all employees of the page counted; failing a positive gross, those of the join with
  // its contracts counted; or nothing.
  lemma GeneratedPaysColumns(t: Tables, page: seq<Employee>, answered: seq<bool>, tenant: string, joinOk: bool)
    requires |answered| == |page|
    ensures
      var run := Generated(t, page, answered, tenant, joinOk);
      var paid := PaidByLoop(t.contracts, Asked(page, answered, true), tenant);
      var joined := PaidByJoin(t.employees, t.contracts, tenant);
      && run.totals.deductions == run.totals.gross * 0.2265
      && run.totals.net == run.totals.gross - run.totals.deductions
      && (FourColumns(paid) > 0.0 ==> run.totals.gross == FourColumns(paid) && run.employeeCount == |page|)
      && (FourColumns(paid) <= 0.0 && joinOk ==> run.totals.gross == FourColumns(joined) && run.employeeCount == |joined|)
      && (FourColumns(paid) <= 0.0 && !joinOk ==> run.totals.gross == 0.0 && run.employeeCount == 0)
  {
    LoopPaysColumns(t.contracts, Asked(page, answered, true), tenant);
    JoinPaysColumns(t, t.contracts, tenant);
    TotalsAreNet(t, t.contracts, Asked(page, answered, true), tenant);
  }

  // ---- Whose contract is paid after a run --------------------------------------------------------

  // The employee's last accepted creation, read off the operations: its contract if it was
  // inserted, nothing if it was not.
  ghost function LastCreated(t: Tables, ops: seq<Op>, id: nat, tenant: string, start: Option<Contract>): Option<Contract>
    decreases |ops|
  {
    if ops == [] then start
    else
      var op := ops[0];
      var hit := op.CreateContract? && op.contract.employee == id && op.contract.tenant == tenant && op.contract.basic > 0.0 &&
                 exists e :: e in t.employees && e.id == id && e.tenant == tenant;
      var next := if !hit then start else if op.insertOk then Some(op.contract.(active := true)) else None;
      LastCreated(Exec(t, op), ops[1..], id, tenant, next)
  }

  // A creation leaves everybody else's current contract alone.
  lemma {:induction false} OthersKeepContract(cs: seq<Contract>, employee: nat, owner: string, id: nat, tenant: string)
    requires employee != id || owner != tenant
    ensures CurrentContract(Deactivate(cs, employee, owner), id, tenant) == CurrentContract(cs, id, tenant)
    decreases |cs|
  {
    if cs != [] {
      var n := |cs| - 1;
      assert Deactivate(cs, employee, owner)[..n] == Deactivate(cs[..n], employee, owner);
      OthersKeepContract(cs[..n], employee, owner, id, tenant);
    }
  }

  // One inserted row is paid unless an active one of the same employee is younger.
  lemma CurrentAppend(cs: seq<Contract>, c: Contract, id: nat, tenant: string)
    ensures CurrentContract(cs + [c], id, tenant) ==
            (var before := CurrentContract(cs, id, tenant);
             if c.employee != id || c.tenant != tenant || !c.active then before
             else if before.Some? && before.value.createdAt > c.createdAt then before
             else Some(c))
  {
    assert (cs + [c])[..|cs|] == cs;
  }

  // One operation: the employee's current contract is the one just created, or none if its
  // insert failed; every other operation keeps it.
  lemma ExecMovesCurrent(t: Tables, op: Op, id: nat, tenant: string)
    requires op.CreateContract? ==> op.deactivateOk
    ensures CurrentContract(Exec(t, op).contracts, id, tenant) ==
            LastCreated(t, [op], id, tenant, CurrentContract(t.contracts, id, tenant))
  {
    assert LastCreated(Exec(t, op), [op][1..], id, tenant, None) == None;
    assert Employed(t, id, tenant) <==> exists e :: e in t.employees && e.id == id && e.tenant == tenant;
    if op.CreateContract? && Accepted(t, op) {
      var c := op.contract;
      var kept := Deactivate(t.contracts, c.employee, c.tenant);
      CurrentAppend(kept, c.(active := true), id, tenant);
      assert kept + [] == kept;
      if c.employee == id && c.tenant == tenant {
        NoneIff(kept, id, tenant);
      } else {
        OthersKeepContract(t.contracts, c.employee, c.tenant, id, tenant);
      }
    }
  }

  // In every run whose deactivations succeed, the contract payroll pays an employee is his last
  // accepted creation: no operation for anybody else changes it.
  lemma {:induction false} PaidIsLastCreated(t: Tables, ops: seq<Op>, id: nat, tenant: string)
    requires DeactivationsSucceed(ops)
    ensures CurrentContract(Run(t, ops).contracts, id, tenant) ==
            LastCreated(t, ops, id, tenant, CurrentContract(t.contracts, id, tenant))
    decreases |ops|
  {
    if ops != [] {
      ExecMovesCurrent(t, ops[0], id, tenant);
      PaidIsLastCreated(Exec(t, ops[0]), ops[1..], id, tenant);
    }
  }

  // A failed deactivation leaves the old contract active: the new one is paid exactly when the
  // old one is not younger.
  lemma KeptContractIsPaidIff(t: Tables, c: Contract)
    requires Accepted(t, CreateContract(c, false, true)) && CurrentContract(t.contracts, c.employee, c.tenant).Some?
    requires CurrentContract(t.contracts, c.employee, c.tenant).value != c.(active := true)
    ensures CurrentContract(Exec(t, CreateContract(c, false, true)).contracts, c.employee, c.tenant) == Some(c.(active := true)) <==>
            CurrentContract(t.contracts, c.employee, c.tenant).value.createdAt <= c.createdAt
  {
    CurrentAppend(t.contracts, c.(active := true), c.employee, c.tenant);
  }

  // An update of an employee sets one flag: the row with that id and tenant.
  lemma UpdateSetsOneFlag(t: Tables, id: nat, tenant: string, active: bool, e: Employee)
    ensures
      var after := Exec(t, UpdateEmployee(id, tenant, active));
      && after.contracts == t.contracts
      && (e.id == id && e.tenant == tenant ==>
            (e in after.employees <==> e.active == active && Employed(t, id, tenant)))
      && (e.id != id || e.tenant != tenant ==> (e in after.employees <==> e in t.employees))
  {
    var after := SetActive(t.employees, id, tenant, active);
    if i :| 0 <= i < |t.employees| && t.employees[i].id == id && t.employees[i].tenant == tenant {
      assert after[i] == Employee(id, tenant, active);
    }
    if e in t.employees && (e.id != id || e.tenant != tenant) {
      var i :| 0 <= i < |t.employees| && t.employees[i] == e;
      assert after[i] == e;
    }
  }
}
