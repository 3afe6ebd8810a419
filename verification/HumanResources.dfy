// The HR repository and use case as objects over the employee, contract and payroll tables.
module HumanResources {
  import opened Common
  import opened Payroll
  import opened PayColumns

  datatype HRError =
    | EmployeeRequired | SalaryNotPositive | EmployeeNotFound | InvalidMonth | InvalidYear | ListFailed | InsertFailed

  // The pay terms of a contract request.
  datatype Terms = Terms(basic: real, housing: real, transport: real, other: real)

  predicate KeepsActive(status: string) {
    status != "inactive" && status != "terminated"
  }

  class Repository {
    var employees: seq<Employee>
    var contracts: seq<Contract>
    var runs: seq<PayrollRun>

    ghost function View(): Tables
      reads this
    {
      Tables(employees, contracts)
    }

    constructor ()
      ensures View() == Tables([], []) && runs == []
    {
      employees, contracts, runs := [], [], [];
    }

    method CreateEmployee(tenant: string) returns (id: nat)
      modifies `employees
      ensures View() == Exec(old(View()), Hire(tenant))
      ensures id == |old(employees)| && employees == old(employees) + [Employee(id, tenant, true)]
      ensures Employed(View(), id, tenant)
    {
      id := |employees|;
      employees := employees + [Employee(id, tenant, true)];
      assert employees[id].id == id;
    }

    method GetEmployee(id: nat, tenant: string) returns (found: Option<Employee>)
      ensures found.Some? <==> Employed(View(), id, tenant)
      ensures found.Some? ==> found.value in employees && found.value.id == id && found.value.tenant == tenant
    {
      for i := 0 to |employees|
        invariant forall j :: 0 <= j < i ==> employees[j].id != id || employees[j].tenant != tenant
      {
        if employees[i].id == id && employees[i].tenant == tenant {
          return Some(employees[i]);
        }
      }
      return None;
    }

    // The stored flag is off for the two statuses that mean so and on for any other.
    method UpdateEmployee(id: nat, tenant: string, status: string)
      modifies `employees
      ensures View() == Exec(old(View()), Payroll.UpdateEmployee(id, tenant, KeepsActive(status)))
      ensures |employees| == |old(employees)|
      ensures forall i :: 0 <= i < |employees| ==>
        var e := old(employees)[i];
        employees[i] ==
          if e.id == id && e.tenant == tenant then e.(active := status != "inactive" && status != "terminated") else e
    {
      var active := true;
      if status == "inactive" || status == "terminated" {
        active := false;
      }
      employees := SetActive(employees, id, tenant, active);
    }

    method GetEmployeeContract(employee: nat, tenant: string) returns (found: Option<Contract>)
      ensures found == CurrentContract(contracts, employee, tenant)
      ensures found.None? <==> forall c :: c in contracts && c.active ==> c.employee != employee || c.tenant != tenant
      ensures found.Some? ==> found.value in contracts
      ensures found.Some? ==> found.value.employee == employee && found.value.tenant == tenant && found.value.active
      ensures found.Some? ==> forall c :: c in contracts && c.employee == employee && c.tenant == tenant && c.active ==>
        c.createdAt <= found.value.createdAt
    {
      found := None;
      for i := 0 to |contracts|
        invariant found == CurrentContract(contracts[..i], employee, tenant)
      {
        var c := contracts[i];
        assert contracts[..i + 1][..i] == contracts[..i];
        if Matches(c, employee, tenant) && (found.None? || found.value.createdAt <= c.createdAt) {
          found := Some(c);
        }
      }
      assert contracts[..|contracts|] == contracts;
      CurrentIsLatest(contracts, employee, tenant);
    }

    // A failed deactivation is ignored; a failed insert is reported.
    method CreateContract(c: Contract, deactivateOk: bool, insertOk: bool) returns (ok: bool)
      requires Accepted(View(), Payroll.CreateContract(c, deactivateOk, insertOk))
      modifies `contracts
      ensures ok == insertOk
      ensures View() == Exec(old(View()), Payroll.CreateContract(c, deactivateOk, insertOk))
    {
      if deactivateOk {
        contracts := Deactivate(contracts, c.employee, c.tenant);
      }
      if insertOk {
        contracts := contracts + [c.(active := true)];
      }
      ok := insertOk;
    }

    // The totals of the join, overridden by a run that brings a positive gross.
    method CreatePayrollRun(run: PayrollRun, tenant: string, joinOk: bool, insertOk: bool) returns (stored: Option<PayrollRun>)
      modifies `runs
      ensures stored == if insertOk then Some(StoredRun(View(), run, tenant, joinOk)) else None
      ensures insertOk && run.totals.gross > 0.0 ==> stored == Some(run)
      ensures insertOk && run.totals.gross <= 0.0 && !joinOk ==> stored == Some(PayrollRun(Totals(0.0, 0.0, 0.0), 0))
      ensures insertOk && run.totals.gross <= 0.0 && joinOk ==>
        var paid := PaidByJoin(employees, contracts, tenant);
        var gross := Basics(paid) + Housings(paid) + Transports(paid) + Others(paid);
        stored == Some(PayrollRun(Totals(gross, gross * 0.2265, gross - gross * 0.2265), |paid|))
      ensures runs == if insertOk then old(runs) + [stored.value] else old(runs)
    {
      var totals, count := Zero, 0;
      if joinOk {
        for i := 0 to |contracts|
          invariant runs == old(runs)
          invariant totals == JoinTotals(View(), contracts[..i], tenant)
          invariant count == JoinCount(View(), contracts[..i], tenant)
        {
          assert contracts[..i + 1][..i] == contracts[..i];
          if contracts[i].tenant == tenant && contracts[i].active && ActiveEmployee(employees, contracts[i].employee) {
            totals := Plus(totals, Gross(contracts[i]));
            count := count + 1;
          }
        }
        assert contracts[..|contracts|] == contracts;
      }
      if run.totals.gross > 0.0 {
        totals, count := run.totals, run.employeeCount;
      }
      JoinPaysColumns(View(), contracts, tenant);
      TotalsAreNet(View(), contracts, employees, tenant);
      if !insertOk {
        return None;
      }
      runs := runs + [PayrollRun(totals, count)];
      return Some(PayrollRun(totals, count));
    }
  }

  class Usecase {
    const repo: Repository

    constructor (repo: Repository)
      ensures this.repo == repo
    {
      this.repo := repo;
    }

    // An empty status keeps the one on record.
    method UpdateEmployee(id: nat, tenant: string, status: string) returns (problem: Option<HRError>)
      modifies repo`employees
      ensures problem == if old(Employed(repo.View(), id, tenant)) then None else Some(EmployeeNotFound)
      ensures problem.Some? ==> repo.View() == old(repo.View())
      ensures problem.None? && status != "" ==>
        repo.View() == Exec(old(repo.View()), Payroll.UpdateEmployee(id, tenant, KeepsActive(status)))
      ensures problem.None? && status == "" && old(DistinctIds(repo.View())) ==> repo.View() == old(repo.View())
    {
      var found := repo.GetEmployee(id, tenant);
      if found.None? {
        return Some(EmployeeNotFound);
      }
      var kept := if found.value.active then "active" else "inactive";
      repo.UpdateEmployee(id, tenant, if status != "" then status else kept);
      assert status == "" && old(DistinctIds(repo.View())) ==> repo.employees == old(repo.employees);
      return None;
    }

    method CreateContract(employee: Option<nat>, tenant: string, terms: Terms, createdAt: int, deactivateOk: bool,
                          insertOk: bool)
      returns (problem: Option<HRError>)
      modifies repo`contracts
      ensures problem ==
              if employee.None? then Some(EmployeeRequired)
              else if terms.basic <= 0.0 then Some(SalaryNotPositive)
              else if !old(Employed(repo.View(), employee.value, tenant)) then Some(EmployeeNotFound)
              else if !insertOk then Some(InsertFailed)
              else None
      ensures employee.None? ==> repo.View() == old(repo.View())
      ensures problem.None? ==> |repo.contracts| == |old(repo.contracts)| + 1
      ensures problem.None? ==>
        var added := Contract(tenant, employee.value, terms.basic, terms.housing, terms.transport, terms.other, true, createdAt);
        repo.contracts[|old(repo.contracts)|] == added
      ensures problem.None? ==> forall i :: 0 <= i < |old(repo.contracts)| ==>
        var c := old(repo.contracts)[i];
        repo.contracts[i] == if deactivateOk && c.employee == employee.value && c.tenant == tenant then c.(active := false) else c
      ensures employee.Some? ==>
        var asked := Contract(tenant, employee.value, terms.basic, terms.housing, terms.transport, terms.other, true, createdAt);
        repo.View() == Exec(old(repo.View()), Payroll.CreateContract(asked, deactivateOk, insertOk))
    {
      if employee.None? {
        return Some(EmployeeRequired);
      }
      if terms.basic <= 0.0 {
        return Some(SalaryNotPositive);
      }
      var found := repo.GetEmployee(employee.value, tenant);
      if found.None? {
        return Some(EmployeeNotFound);
      }
      var asked := Contract(tenant, employee.value, terms.basic, terms.housing, terms.transport, terms.other, true, createdAt);
      var ok := repo.CreateContract(asked, deactivateOk, insertOk);
      return if ok then None else Some(InsertFailed);
    }

    // The loop over the employees, which skips one without a contract or an answer.
    method AddUp(emps: seq<Employee>, answered: seq<bool>, tenant: string) returns (totals: Totals)
      requires |answered| == |emps|
      ensures totals == LoopTotals(repo.contracts, Asked(emps, answered, true), tenant)
    {
      totals := Zero;
      for i := 0 to |emps|
        invariant totals == LoopTotals(repo.contracts, Asked(emps[..i], answered[..i], true), tenant)
      {
        assert emps[..i + 1][..i] == emps[..i] && answered[..i + 1][..i] == answered[..i];
        ghost var asked := Asked(emps[..i], answered[..i], true);
        assert (asked + [emps[i]])[..|asked|] == asked && asked + [] == asked;
        if answered[i] {
          var contract := repo.GetEmployeeContract(emps[i].id, tenant);
          if contract.Some? {
            totals := Plus(totals, Gross(contract.value));
          }
        }
      }
      assert emps[..|emps|] == emps && answered[..|emps|] == answered;
    }

    // rows is what the query for active employees finds, in its order, or None when it fails;
    // answered says for which of the first page the contract query answers.
    method GeneratePayroll(month: int, year: int, tenant: string, rows: Option<seq<Employee>>, answered: seq<bool>,
                           joinOk: bool, insertOk: bool)
      returns (problem: Option<HRError>, run: PayrollRun)
      requires rows.Some? ==> Lists(rows.value, repo.View(), tenant) && |answered| == |FirstPage(rows.value)|
      modifies repo`runs
      ensures problem ==
              if !(1 <= month <= 12) then Some(InvalidMonth)
              else if year < 2020 then Some(InvalidYear)
              else if rows.None? then Some(ListFailed)
              else if !insertOk then Some(InsertFailed)
              else None
      ensures problem.None? ==> run == Generated(repo.View(), FirstPage(rows.value), answered, tenant, joinOk)
      ensures problem.None? ==> run.totals.deductions == run.totals.gross * 0.2265
      ensures problem.None? ==> run.totals.net == run.totals.gross - run.totals.deductions
      ensures problem.None? ==>
        var page := if |rows.value| <= 1000 then rows.value else rows.value[..1000];
        var paid := PaidByLoop(repo.contracts, Asked(page, answered, true), tenant);
        var gross := Basics(paid) + Housings(paid) + Transports(paid) + Others(paid);
        gross > 0.0 ==> run.totals.gross == gross && run.employeeCount == |page|
      ensures problem.None? && Inv(repo.View()) && |rows.value| <= 1000 && false !in answered && joinOk ==>
        run.totals == JoinTotals(repo.View(), repo.contracts, tenant)
      ensures repo.runs == if problem.None? then old(repo.runs) + [run] else old(repo.runs)
    {
      run := PayrollRun(Zero, 0);
      if month < 1 || month > 12 {
        return Some(InvalidMonth), run;
      }
      if year < 2020 {
        return Some(InvalidYear), run;
      }
      if rows.None? {
        return Some(ListFailed), run;
      }
      var emps := FirstPage(rows.value);
      var totals := AddUp(emps, answered, tenant);
      GeneratedPaysColumns(repo.View(), emps, answered, tenant, joinOk);
      var stored := repo.CreatePayrollRun(PayrollRun(totals, |emps|), tenant, joinOk, insertOk);
      if stored.None? {
        return Some(InsertFailed), run;
      }
      if Inv(repo.View()) && |rows.value| <= PageLimit && false !in answered {
        StoredTotalsAllAnswered(repo.View(), rows.value, answered, tenant, joinOk);
      }
      return None, stored.value;
    }
  }
}
