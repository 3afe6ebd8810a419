// The inventory use case as an object over its tables.
module Inventory {
  import opened Common
  import opened StockLedger
  import opened ReorderAlerts

  class Usecase {
    var products: map<string, Product>
    var moves: seq<Move>
    var pending: multiset<Check>
    var alerts: seq<Alert>

    ghost function View(): State
      reads this
    {
      State(products, moves, pending, alerts)
    }

    constructor (products: map<string, Product>)
      ensures View() == State(products, [], multiset{}, [])
    {
      this.products, moves, pending, alerts := products, [], multiset{}, [];
    }

    // The validation, in the order the checks are made.
    method Validate(r: MoveRequest) returns (problem: Option<MoveError>)
      ensures problem == Problem(r)
    {
      if r.tenant == "" {
        return Some(TenantRequired);
      }
      if r.product == "" {
        return Some(ProductRequired);
      }
      if r.qty <= 0 {
        return Some(QuantityNotPositive);
      }
      match r.moveType {
        case UnknownType => return Some(InvalidType);
        case In =>
          if r.to == "" {
            return Some(ToRequired);
          }
        case Out =>
          if r.from == "" {
            return Some(FromRequired);
          }
        case Scrap =>
          if r.from == "" {
            return Some(FromRequired);
          }
        case Transfer =>
          if r.from == "" || r.to == "" {
            return Some(LocationsRequired);
          }
          if r.from == r.to {
            return Some(SameLocation);
          }
        case Adjust =>
          if r.notes == "" {
            return Some(NotesRequired);
          }
        case Return =>
          if r.reference == "" {
            return Some(ReferenceRequired);
          }
      }
      if r.unitCost < 0 {
        return Some(NegativeCost);
      }
      return None;
    }

    // insertOk says whether the database takes the row.
    method CreateStockMove(r: MoveRequest, insertOk: bool) returns (problem: Option<MoveError>)
      modifies this
      ensures problem == (if Problem(r).Some? then Problem(r) else if insertOk then None else Some(InsertFailed))
      ensures View() == if problem.None? then Next(old(View()), Create(r)) else old(View())
      ensures problem.None? ==>
        var from, to := if r.from == "" then None else Some(r.from), if r.to == "" then None else Some(r.to);
        moves == old(moves) + [Move(r.tenant, r.product, from, to, r.qty, r.moveType, Done)]
      ensures problem.None? ==>
        var spawned := if r.moveType == Out || r.moveType == Scrap then multiset{Check(r.product, r.tenant)} else multiset{};
        pending == old(pending) + spawned && alerts == old(alerts)
    {
      problem := Validate(r);
      if problem.Some? {
        return;
      }
      if !insertOk {
        return Some(InsertFailed);
      }
      moves := moves + [MoveOf(r)];
      if r.moveType.Out? || r.moveType.Scrap? {
        pending := pending + multiset{Check(r.product, r.tenant)};
      }
    }

    method AdjustStock(a: Adjustment, tenant: string, readOk: bool, insertOk: bool) returns (problem: Option<MoveError>)
      modifies this
      ensures problem == (if AdjustProblem(old(View()), a, tenant).Some? then AdjustProblem(old(View()), a, tenant)
                          else if !readOk then Some(ProductNotFound)
                          else if insertOk then None else Some(InsertFailed))
      ensures View() == if problem.None? then Next(old(View()), AdjustBy(a, tenant)) else old(View())
      ensures problem.None? ==>
        var l := if a.location == "" then None else Some(a.location);
        moves == old(moves) +
          [if a.qty > 0 then Move(tenant, a.product, None, l, a.qty, Adjust, Done)
           else Move(tenant, a.product, l, None, -a.qty, Adjust, Done)]
      ensures problem.None? ==>
        var spawned := if a.qty < 0 then multiset{Check(a.product, tenant)} else multiset{};
        pending == old(pending) + spawned && alerts == old(alerts)
    {
      if tenant == "" {
        return Some(TenantRequired);
      }
      if a.product == "" {
        return Some(ProductRequired);
      }
      if a.qty == 0 {
        return Some(QuantityZero);
      }
      if a.reason == "" {
        return Some(ReasonRequired);
      }
      if !readOk || !(a.product in products && products[a.product].tenant == tenant) {
        return Some(ProductNotFound);
      }
      if !insertOk {
        return Some(InsertFailed);
      }
      var from, to := None, None;
      if a.qty > 0 {
        to := NullIfEmpty(a.location);
      } else {
        from := NullIfEmpty(a.location);
      }
      moves := moves + [Move(tenant, a.product, from, to, Abs(a.qty), Adjust, Done)];
      if a.qty < 0 {
        pending := pending + multiset{Check(a.product, tenant)};
      }
      return None;
    }

    method CheckReorderAlert(c: Check, readOk: bool)
      requires c in pending
      modifies this`pending, this`alerts
      ensures View() == Next(old(View()), RunCheck(c, readOk)) && pending == old(pending) - multiset{c}
      ensures
        var low := readOk && c.product in products && products[c.product].tenant == c.tenant &&
                   0 < products[c.product].reorderPoint &&
                   Stock(moves, products[c.product].id) <= products[c.product].reorderPoint;
        if low then alerts == old(alerts) +
          [Alert(c.product, c.tenant, Stock(moves, products[c.product].id), products[c.product].reorderPoint)]
        else alerts == old(alerts)
    {
      CheckAlertsIff(View(), c, readOk);
      pending := pending - multiset{c};
      if readOk && c.product in products && products[c.product].tenant == c.tenant {
        var p := products[c.product];
        var stock := StockStateInCase(moves, p.id);
        if p.reorderPoint > 0 && stock <= p.reorderPoint {
          alerts := alerts + [Alert(c.product, c.tenant, stock, p.reorderPoint)];
        }
      }
    }

    // Scanning the grouped rows of the summary query.
    method ScanRows(ordered: seq<Product>) returns (rows: seq<SummaryRow>)
      ensures rows == RowsOf(moves, ordered)
    {
      rows := [];
      var i := 0;
      while i < |ordered|
        invariant 0 <= i <= |ordered|
        invariant rows == RowsOf(moves, ordered[..i])
      {
        var p := ordered[i];
        var total := StockStateInCase(moves, p.id);
        var isLow := p.minLevel > 0 && total <= p.minLevel;
        var needsReorder := p.reorderPoint > 0 && total <= p.reorderPoint;
        rows := rows + [SummaryRow(p.id, total, total * p.costPrice, isLow, needsReorder)];
        i := i + 1;
      }
      assert ordered[..i] == ordered;
    }

    // The summary comes lowest stock first; ordered are the products its rows are about.
    method GetStockSummary(table: seq<Product>, tenant: string, ordered: seq<Product>) returns (rows: seq<SummaryRow>)
      requires multiset(ordered) == multiset(Reported(table, tenant))
      requires forall i, j :: 0 <= i < j < |ordered| ==> StockStateInCase(moves, ordered[i].id) <= StockStateInCase(moves, ordered[j].id)
      ensures |rows| == |ordered|
      ensures forall p :: p in ordered <==> p in table && p.tenant == tenant && p.active && p.tracked
      ensures forall i :: 0 <= i < |ordered| ==>
        var row, p, stock := rows[i], ordered[i], Stock(moves, ordered[i].id);
        && row.product == p.id && row.totalStock == stock && row.stockValue == stock * p.costPrice
        && (row.isLow <==> 0 < p.minLevel && stock <= p.minLevel)
        && (row.needsReorder <==> 0 < p.reorderPoint && stock <= p.reorderPoint)
      ensures forall i, j :: 0 <= i < j < |rows| ==> rows[i].totalStock <= rows[j].totalStock
      ensures LowStockCount(moves, table, tenant) == LowRows(rows)
      ensures OutOfStockCount(moves, table, tenant) == EmptyRows(rows)
    {
      rows := ScanRows(ordered);
      RowsReadLedger(moves, ordered);
      ListsReported(ordered, table, tenant);
      ReportsAgree(moves, table, tenant);
      SummaryIsRows(moves, table, tenant);
      RowCountsPermute(moves, ordered, Reported(table, tenant));
    }
  }
}
