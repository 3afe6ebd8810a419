// Reorder checks run on their own after the operation that spawned them, interleaved with
// any other operations.  They read the stock when they run, not when they were spawned.
module ReorderAlerts {
  import opened Common
  import opened StockLedger

  datatype Check = Check(product: string, tenant: string)

  datatype Alert = Alert(product: string, tenant: string, stock: int, reorderPoint: int)

  // products maps an id to its row; pending holds the spawned checks that have not run;
  // alerts are the StockLow events published so far, in order.
  datatype State = State(products: map<string, Product>, moves: seq<Move>, pending: multiset<Check>, alerts: seq<Alert>)

  datatype Step =
    | Create(request: MoveRequest)
    | AdjustBy(adjustment: Adjustment, tenant: string)
    | RunCheck(check: Check, readOk: bool)

  function FindProduct(s: State, id: string, tenant: string): Option<Product> {
    if id in s.products && s.products[id].tenant == tenant then Some(s.products[id]) else None
  }

  predicate Enabled(s: State, step: Step) {
    step.RunCheck? ==> step.check in s.pending
  }

  function AdjustProblem(s: State, a: Adjustment, tenant: string): Option<MoveError> {
    if tenant == "" then Some(TenantRequired)
    else if a.product == "" then Some(ProductRequired)
    else if a.qty == 0 then Some(QuantityZero)
    else if a.reason == "" then Some(ReasonRequired)
    else if FindProduct(s, a.product, tenant).None? then Some(ProductNotFound)
    else None
  }

  // The move a step appends, if it is accepted.
  function Appended(s: State, step: Step): Option<Move> {
    match step
    case Create(r) => if Problem(r).None? then Some(MoveOf(r)) else None
    case AdjustBy(a, tenant) => if AdjustProblem(s, a, tenant).None? then Some(AdjustmentMove(a, tenant)) else None
    case RunCheck(_, _) => None
  }

  // The check a step spawns: for out and scrap moves, and for negative adjustments.
  function Spawned(s: State, step: Step): Option<Check> {
    match step
    case Create(r) =>
      if Problem(r).None? && (r.moveType.Out? || r.moveType.Scrap?) then Some(Check(r.product, r.tenant)) else None
    case AdjustBy(a, tenant) =>
      if AdjustProblem(s, a, tenant).None? && a.qty < 0 then Some(Check(a.product, tenant)) else None
    case RunCheck(_, _) => None
  }

  // A check whose read of the product fails is over without a result.
  function CheckResult(s: State, c: Check, readOk: bool): Option<Alert> {
    match FindProduct(s, c.product, c.tenant)
    case None => None
    case Some(p) =>
      var stock := StockStateInCase(s.moves, p.id);
      if readOk && p.reorderPoint > 0 && stock <= p.reorderPoint
      then Some(Alert(c.product, c.tenant, stock, p.reorderPoint)) else None
  }

  function ToSeq<T>(x: Option<T>): seq<T> {
    if x.Some? then [x.value] else []
  }

  function Next(s: State, step: Step): State
    requires Enabled(s, step)
  {
    match step
    case RunCheck(c, readOk) => s.(pending := s.pending - multiset{c}, alerts := s.alerts + ToSeq(CheckResult(s, c, readOk)))
    case _ => s.(moves := s.moves + ToSeq(Appended(s, step)), pending := s.pending + multiset(ToSeq(Spawned(s, step))))
  }

  predicate ValidRun(s: State, steps: seq<Step>)
    decreases |steps|
  {
    steps == [] || (Enabled(s, steps[0]) && ValidRun(Next(s, steps[0]), steps[1..]))
  }

  function Run(s: State, steps: seq<Step>): State
    requires ValidRun(s, steps)
    decreases |steps|
  {
    if steps == [] then s else Run(Next(s, steps[0]), steps[1..])
  }

  predicate Decreases(s: State, step: Step, p: string) {
    Appended(s, step).Some? && Delta(Appended(s, step).value, p) < 0
  }

  predicate NoDecrease(s: State, steps: seq<Step>, p: string)
    requires ValidRun(s, steps)
    decreases |steps|
  {
    steps == [] || (!Decreases(s, steps[0], p) && NoDecrease(Next(s, steps[0]), steps[1..], p))
  }

  // A step that spawns a check for the product under the product's own tenant.
  predicate Watched(s: State, step: Step, p: Product) {
    Spawned(s, step) == Some(Check(p.id, p.tenant))
  }

  lemma StepStock(s: State, step: Step, p: string)
    requires Enabled(s, step)
    ensures Stock(Next(s, step).moves, p) ==
            Stock(s.moves, p) + (if Appended(s, step).Some? then Delta(Appended(s, step).value, p) else 0)
  {
    if Appended(s, step).Some? {
      StockAppend(s.moves, Appended(s, step).value, p);
    } else {
      assert s.moves + [] == s.moves;
    }
  }

  lemma {:induction false} StockOnlyGrows(s: State, steps: seq<Step>, p: string)
    requires ValidRun(s, steps) && NoDecrease(s, steps, p)
    ensures Stock(s.moves, p) <= Stock(Run(s, steps).moves, p)
    decreases |steps|
  {
    if steps != [] {
      StepStock(s, steps[0], p);
      StockOnlyGrows(Next(s, steps[0]), steps[1..], p);
    }
  }

  // An alert for the product, at a stock no higher than its reorder point, published after
  // the first n.
  predicate AlertedSince(s: State, n: nat, p: Product) {
    exists i :: n <= i < |s.alerts| && s.alerts[i].product == p.id && s.alerts[i].tenant == p.tenant
      && s.alerts[i].stock <= p.reorderPoint
  }

  lemma {:induction false} AlertsStay(s: State, steps: seq<Step>, n: nat, p: Product)
    requires ValidRun(s, steps) && AlertedSince(s, n, p)
    ensures AlertedSince(Run(s, steps), n, p)
    decreases |steps|
  {
    if steps != [] {
      var s1 := Next(s, steps[0]);
      var i :| n <= i < |s.alerts| && s.alerts[i].product == p.id && s.alerts[i].tenant == p.tenant
               && s.alerts[i].stock <= p.reorderPoint;
      assert s1.alerts[i] == s.alerts[i];
      AlertsStay(s1, steps[1..], n, p);
    }
  }

  // Running any of the product's checks while its stock is low publishes an alert.
  lemma LowCheckAlerts(s: State, p: Product)
    requires Check(p.id, p.tenant) in s.pending && FindProduct(s, p.id, p.tenant) == Some(p)
    requires p.reorderPoint > 0 && Stock(s.moves, p.id) <= p.reorderPoint
    ensures AlertedSince(Next(s, RunCheck(Check(p.id, p.tenant), true)), |s.alerts|, p)
  {
    StockQueriesAgree(s.moves, p.id);
    var s1 := Next(s, RunCheck(Check(p.id, p.tenant), true));
    assert s1.alerts[|s.alerts|].product == p.id;
  }

  lemma {:induction false} AlertsOnlyGrow(s: State, steps: seq<Step>)
    requires ValidRun(s, steps)
    ensures s.alerts <= Run(s, steps).alerts
    decreases |steps|
  {
    if steps != [] {
      AlertsOnlyGrow(Next(s, steps[0]), steps[1..]);
    }
  }

  // A step other than a check of the product that reads it adds no alert for the product.
  lemma OtherStepsAlertNot(s: State, step: Step, rest: seq<Step>, p: Product)
    requires Enabled(s, step) && ValidRun(Next(s, step), rest) && step != RunCheck(Check(p.id, p.tenant), true)
    ensures AlertedSince(Run(Next(s, step), rest), |s.alerts|, p) <==>
            AlertedSince(Run(Next(s, step), rest), |Next(s, step).alerts|, p)
  {
    var s1 := Next(s, step);
    AlertsOnlyGrow(s1, rest);
    var alerts := Run(s1, rest).alerts;
    forall i | |s.alerts| <= i < |s1.alerts| ensures alerts[i].product != p.id || alerts[i].tenant != p.tenant {
      assert alerts[i] == s1.alerts[i];
    }
  }

  // However the steps interleave: while a product is not decreased and ends at or below a
  // positive reorder point, StockLow is published exactly when one of its checks runs and
  // reads it.
  lemma {:induction false} AlertIffCheckReads(s: State, steps: seq<Step>, p: Product)
    requires ValidRun(s, steps) && NoDecrease(s, steps, p.id)
    requires FindProduct(s, p.id, p.tenant) == Some(p) && p.reorderPoint > 0
    requires Stock(Run(s, steps).moves, p.id) <= p.reorderPoint
    ensures AlertedSince(Run(s, steps), |s.alerts|, p) <==> RunCheck(Check(p.id, p.tenant), true) in steps
    decreases |steps|
  {
    if steps != [] {
      var s1 := Next(s, steps[0]);
      if steps[0] == RunCheck(Check(p.id, p.tenant), true) {
        StockOnlyGrows(s, steps, p.id);
        LowCheckAlerts(s, p);
        AlertsStay(s1, steps[1..], |s.alerts|, p);
      } else {
        AlertIffCheckReads(s1, steps[1..], p);
        OtherStepsAlertNot(s, steps[0], steps[1..], p);
        assert RunCheck(Check(p.id, p.tenant), true) in steps <==> RunCheck(Check(p.id, p.tenant), true) in steps[1..];
      }
    }
  }

  predicate ReadsSucceed(steps: seq<Step>, c: Check) {
    RunCheck(c, false) !in steps
  }

  lemma {:induction false} PendingChecksRun(s: State, steps: seq<Step>, c: Check)
    requires ValidRun(s, steps) && c in s.pending && c !in Run(s, steps).pending
    ensures RunCheck(c, true) in steps || RunCheck(c, false) in steps
    decreases |steps|
  {
    if steps[0] != RunCheck(c, true) && steps[0] != RunCheck(c, false) {
      PendingChecksRun(Next(s, steps[0]), steps[1..], c);
    }
  }

  // From s on the product is not decreased again, its checks have all run, and it ends at or
  // below its reorder point.
  predicate EndsLow(s: State, later: seq<Step>, p: Product) {
    && ValidRun(s, later) && NoDecrease(s, later, p.id)
    && Check(p.id, p.tenant) !in Run(s, later).pending
    && Stock(Run(s, later).moves, p.id) <= p.reorderPoint
  }

  // Main result: if the last decrease of a product spawned its check and all its checks have
  // run, and the product now sits at or below a positive reorder point, then StockLow was
  // published after that decrease, however the steps interleaved, exactly when one of the
  // checks read the product, and so if no read failed.
  lemma {:induction false} AlertAfterLastDecrease(s: State, decrease: Step, later: seq<Step>, p: Product)
    requires Enabled(s, decrease) && Decreases(s, decrease, p.id) && Watched(s, decrease, p)
    requires FindProduct(s, p.id, p.tenant) == Some(p) && p.reorderPoint > 0
    requires EndsLow(Next(s, decrease), later, p)
    ensures AlertedSince(Run(Next(s, decrease), later), |s.alerts|, p) <==> RunCheck(Check(p.id, p.tenant), true) in later
    ensures ReadsSucceed(later, Check(p.id, p.tenant)) ==> AlertedSince(Run(Next(s, decrease), later), |s.alerts|, p)
  {
    assert Check(p.id, p.tenant) in multiset(ToSeq(Spawned(s, decrease)));
    AlertIffCheckReads(Next(s, decrease), later, p);
    PendingChecksRun(Next(s, decrease), later, Check(p.id, p.tenant));
  }

  // While reads succeed, a decrease that leaves a product low is certain to be followed by an
  // alert exactly when a check of the product is then pending, which is so if the decrease
  // spawned one or an earlier one has not run: without any, no alert need ever come.
  lemma {:induction false} AlertGuaranteedIffPending(s: State, decrease: Step, p: Product)
    requires Enabled(s, decrease) && Decreases(s, decrease, p.id)
    requires FindProduct(s, p.id, p.tenant) == Some(p) && p.reorderPoint > 0
    requires Stock(Next(s, decrease).moves, p.id) <= p.reorderPoint
    ensures Check(p.id, p.tenant) in Next(s, decrease).pending <==>
      forall later :: EndsLow(Next(s, decrease), later, p) && ReadsSucceed(later, Check(p.id, p.tenant)) ==>
        AlertedSince(Run(Next(s, decrease), later), |s.alerts|, p)
    ensures Check(p.id, p.tenant) in Next(s, decrease).pending <==> Watched(s, decrease, p) || Check(p.id, p.tenant) in s.pending
  {
    var s1, c := Next(s, decrease), Check(p.id, p.tenant);
    assert s1.pending == s.pending + multiset(ToSeq(Spawned(s, decrease)));
    if c in s1.pending {
      forall later | EndsLow(s1, later, p) && ReadsSucceed(later, c) ensures AlertedSince(Run(s1, later), |s.alerts|, p) {
        AlertIffCheckReads(s1, later, p);
        PendingChecksRun(s1, later, c);
      }
    } else {
      assert EndsLow(s1, [], p) && ReadsSucceed([], c);
      assert Run(s1, []).alerts == s.alerts;
    }
  }

  // Which decreasing steps spawn the check: out and scrap moves and negative adjustments
  // made under the product's tenant do, plain adjust and return moves do not.
  lemma UnwatchedDecreases(s: State, step: Step, p: Product)
    requires Enabled(s, step) && Decreases(s, step, p.id)
    ensures step.Create? ==>
      (Watched(s, step, p) <==> (step.request.moveType.Out? || step.request.moveType.Scrap?) && step.request.tenant == p.tenant)
    ensures step.Create? ==> step.request.moveType in {Out, Scrap, Adjust, Return}
    ensures step.AdjustBy? ==> (Watched(s, step, p) <==> step.tenant == p.tenant)
  {
  }

  // ---- What the alerts say ---------------------------------------------------------------------

  // A check alerts exactly when it reads the product of its tenant at or below a positive
  // reorder point, and then tells the ledger's stock at that moment.
  lemma CheckAlertsIff(s: State, c: Check, readOk: bool)
    ensures CheckResult(s, c, readOk).Some? <==>
      readOk && c.product in s.products && s.products[c.product].tenant == c.tenant &&
      0 < s.products[c.product].reorderPoint &&
      Stock(s.moves, s.products[c.product].id) <= s.products[c.product].reorderPoint
    ensures CheckResult(s, c, readOk).Some? ==>
      var p := s.products[c.product];
      CheckResult(s, c, readOk).value == Alert(c.product, c.tenant, Stock(s.moves, p.id), p.reorderPoint)
  {
    if c.product in s.products {
      StockQueriesAgree(s.moves, s.products[c.product].id);
    }
  }

  // The summary marks a product for reordering exactly when a check of it would alert.
  lemma SummaryForeseesAlert(s: State, p: Product)
    requires p.id in s.products && s.products[p.id] == p
    ensures RowOf(s.moves, p).needsReorder <==> CheckResult(s, Check(p.id, p.tenant), true).Some?
  {
    RowReadsLedger(s.moves, p);
    CheckAlertsIff(s, Check(p.id, p.tenant), true);
  }

  // The alert was true of the ledger when it held its first n moves.
  predicate TrueAt(a: Alert, products: map<string, Product>, moves: seq<Move>, n: nat)
    requires n <= |moves|
  {
    && a.product in products && products[a.product].tenant == a.tenant
    && a.stock == Stock(moves[..n], products[a.product].id)
    && a.reorderPoint == products[a.product].reorderPoint
    && 0 < a.reorderPoint && a.stock <= a.reorderPoint
  }

  lemma {:induction false} MovesOnlyGrow(s: State, steps: seq<Step>)
    requires ValidRun(s, steps)
    ensures s.moves <= Run(s, steps).moves && Run(s, steps).products == s.products
    decreases |steps|
  {
    if steps != [] {
      MovesOnlyGrow(Next(s, steps[0]), steps[1..]);
    }
  }

  lemma CheckAlertsTruly(s: State, step: Step, later: seq<Move>)
    requires Enabled(s, step) && |Next(s, step).alerts| > |s.alerts| && s.moves <= later
    ensures |Next(s, step).alerts| == |s.alerts| + 1
    ensures TrueAt(Next(s, step).alerts[|s.alerts|], s.products, later, |s.moves|)
  {
    assert step.RunCheck?;
    CheckAlertsIff(s, step.check, step.readOk);
    assert later[..|s.moves|] == s.moves;
  }

  // Every alert a run publishes was true at some moment of the run, though the stock may have
  // changed before and since.
  lemma {:induction false} AlertsWereTrue(s: State, steps: seq<Step>, i: nat)
    requires ValidRun(s, steps) && |s.alerts| <= i < |Run(s, steps).alerts|
    ensures exists n: nat :: |s.moves| <= n <= |Run(s, steps).moves| && TrueAt(Run(s, steps).alerts[i], s.products, Run(s, steps).moves, n)
    decreases |steps|
  {
    if steps != [] {
      var s1, end := Next(s, steps[0]), Run(s, steps);
      if i < |s1.alerts| {
        AlertsOnlyGrow(s1, steps[1..]);
        MovesOnlyGrow(s, steps);
        CheckAlertsTruly(s, steps[0], end.moves);
        assert end.alerts[i] == s1.alerts[i];
      } else {
        AlertsWereTrue(s1, steps[1..], i);
      }
    }
  }

  // ---- Every spawned check runs once -------------------------------------------------------------

  function SpawnedIn(s: State, steps: seq<Step>, c: Check): nat
    requires ValidRun(s, steps)
    decreases |steps|
  {
    if steps == [] then 0
    else (if Spawned(s, steps[0]) == Some(c) then 1 else 0) + SpawnedIn(Next(s, steps[0]), steps[1..], c)
  }

  function RunsOf(steps: seq<Step>, c: Check): nat {
    if steps == [] then 0
    else (if steps[0] == RunCheck(c, true) || steps[0] == RunCheck(c, false) then 1 else 0) + RunsOf(steps[1..], c)
  }

  // However the steps interleave, a check runs as often as it was spawned, but for those still
  // pending.
  lemma {:induction false} ChecksAreConserved(s: State, steps: seq<Step>, c: Check)
    requires ValidRun(s, steps)
    ensures RunsOf(steps, c) + Run(s, steps).pending[c] == s.pending[c] + SpawnedIn(s, steps, c)
    decreases |steps|
  {
    if steps != [] {
      ChecksAreConserved(Next(s, steps[0]), steps[1..], c);
    }
  }

  // ---- Adjustments --------------------------------------------------------------------------------

  // An adjustment is accepted exactly when it names a tenant, a product of that tenant and a
  // reason, and changes something.
  lemma AdjustmentAcceptedIff(s: State, a: Adjustment, tenant: string)
    ensures AdjustProblem(s, a, tenant).None? <==>
      tenant != "" && a.product != "" && a.qty != 0 && a.reason != "" &&
      a.product in s.products && s.products[a.product].tenant == tenant
    ensures AdjustProblem(s, a, tenant) == Some(ProductNotFound) <==>
      tenant != "" && a.product != "" && a.qty != 0 && a.reason != "" &&
      !(a.product in s.products && s.products[a.product].tenant == tenant)
    ensures AdjustProblem(s, a, tenant) == Some(ReasonRequired) <==>
      tenant != "" && a.product != "" && a.qty != 0 && a.reason == ""
    ensures AdjustProblem(s, a, tenant) == Some(QuantityZero) <==> tenant != "" && a.product != "" && a.qty == 0
    ensures AdjustProblem(s, a, tenant) == Some(ProductRequired) <==> tenant != "" && a.product == ""
    ensures AdjustProblem(s, a, tenant) == Some(TenantRequired) <==> tenant == ""
  {
  }
}
