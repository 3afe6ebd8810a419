// The append-only list of stock moves, the queries that compute current stock from it, and
// the operations that append to it.  Quantities are exact, in their smallest unit.
module StockLedger {
  import opened Common

  type Location = string

  datatype MoveType = In | Out | Transfer | Adjust | Return | Scrap | UnknownType

  datatype MoveState = Done | NotDone

  // A row of stock_moves; an absent location is NULL.
  datatype Move = Move(tenant: string, product: string, from: Option<Location>, to: Option<Location>, qty: int,
                       moveType: MoveType, state: MoveState)

  datatype Product = Product(id: string, tenant: string, active: bool, tracked: bool, minLevel: int,
                             reorderPoint: int, costPrice: int)

  // ---- Stock as a sum over the ledger ---------------------------------------------------

  // What one move adds to the stock of a product.
  function Delta(m: Move, p: string): int {
    if m.product == p && m.state.Done?
    then (if m.to.Some? then m.qty else 0) - (if m.from.Some? then m.qty else 0)
    else 0
  }

  function Stock(moves: seq<Move>, p: string): int {
    if moves == [] then 0 else Stock(moves[..|moves| - 1], p) + Delta(moves[|moves| - 1], p)
  }

  lemma StockAppend(moves: seq<Move>, m: Move, p: string)
    ensures Stock(moves + [m], p) == Stock(moves, p) + Delta(m, p)
  {
    assert (moves + [m])[..|moves|] == moves;
  }

  // ---- The two renderings in SQL -----------------------------------------------------------

  // LEFT JOIN stock_moves ON the product, and the state too if onDone: the matching moves
  // with a null row in place of an empty match.
  function Matches(moves: seq<Move>, p: string, onDone: bool): seq<Move> {
    if moves == [] then []
    else
      var m := moves[|moves| - 1];
      Matches(moves[..|moves| - 1], p, onDone) +
      (if m.product == p && (onDone ==> m.state.Done?) then [m] else [])
  }

  function LeftJoin(moves: seq<Move>, p: string, onDone: bool): (rows: seq<Option<Move>>)
    ensures rows != []
  {
    var matched := Matches(moves, p, onDone);
    if matched == [] then [None] else seq(|matched|, i requires 0 <= i < |matched| => Some(matched[i]))
  }

  // SUM(CASE WHEN to (or from) IS NOT NULL [AND state = 'done'] THEN quantity ELSE 0 END);
  // on a null row every comparison is false.
  function CaseSum(rows: seq<Option<Move>>, incoming: bool, testState: bool): int {
    if rows == [] then 0
    else
      var row := rows[|rows| - 1];
      CaseSum(rows[..|rows| - 1], incoming, testState) +
      (if row.Some? && (if incoming then row.value.to else row.value.from).Some?
          && (testState ==> row.value.state.Done?)
       then row.value.qty else 0)
  }

  // The product list, the single product and the stock summary test the state in CASE.
  function StockStateInCase(moves: seq<Move>, p: string): int {
    var rows := LeftJoin(moves, p, false);
    CaseSum(rows, true, true) - CaseSum(rows, false, true)
  }

  // The inventory statistics test the state in the join condition.
  function StockStateInJoin(moves: seq<Move>, p: string): int {
    var rows := LeftJoin(moves, p, true);
    CaseSum(rows, true, false) - CaseSum(rows, false, false)
  }

  function Wrapped(matched: seq<Move>): (rows: seq<Option<Move>>)
    ensures |rows| == |matched|
  {
    seq(|matched|, i requires 0 <= i < |matched| => Some(matched[i]))
  }

  lemma WrappedAppend(matched: seq<Move>, m: Move, incoming: bool, testState: bool)
    ensures CaseSum(Wrapped(matched + [m]), incoming, testState) ==
            CaseSum(Wrapped(matched), incoming, testState) +
            (if (if incoming then m.to else m.from).Some? && (testState ==> m.state.Done?) then m.qty else 0)
  {
    var rows := Wrapped(matched + [m]);
    assert rows[..|rows| - 1] == Wrapped(matched);
  }

  // A null row adds nothing, so it does not matter whether the join produced one.
  lemma JoinSum(moves: seq<Move>, p: string, onDone: bool, incoming: bool, testState: bool)
    ensures CaseSum(LeftJoin(moves, p, onDone), incoming, testState) ==
            CaseSum(Wrapped(Matches(moves, p, onDone)), incoming, testState)
  {
    if Matches(moves, p, onDone) == [] {
      var none: seq<Option<Move>> := [];
      assert LeftJoin(moves, p, onDone)[..0] == none && CaseSum(none, incoming, testState) == 0;
    } else {
      assert LeftJoin(moves, p, onDone) == Wrapped(Matches(moves, p, onDone));
    }
  }

  lemma {:induction false} MatchSums(moves: seq<Move>, p: string)
    ensures CaseSum(Wrapped(Matches(moves, p, false)), true, true) - CaseSum(Wrapped(Matches(moves, p, false)), false, true)
            == Stock(moves, p)
    ensures CaseSum(Wrapped(Matches(moves, p, true)), true, false) - CaseSum(Wrapped(Matches(moves, p, true)), false, false)
            == Stock(moves, p)
    decreases |moves|
  {
    if moves != [] {
      var rest, m := moves[..|moves| - 1], moves[|moves| - 1];
      MatchSums(rest, p);
      forall onDone, incoming, testState | m.product == p && (onDone ==> m.state.Done?)
        ensures CaseSum(Wrapped(Matches(rest, p, onDone) + [m]), incoming, testState) ==
                CaseSum(Wrapped(Matches(rest, p, onDone)), incoming, testState) +
                (if (if incoming then m.to else m.from).Some? && (testState ==> m.state.Done?) then m.qty else 0)
      {
        WrappedAppend(Matches(rest, p, onDone), m, incoming, testState);
      }
      assert forall onDone :: Matches(rest, p, onDone) + [] == Matches(rest, p, onDone);
    }
  }

  // Both renderings compute the sum over the ledger, for every ledger and product, also one
  // without any done move.
  lemma StockQueriesAgree(moves: seq<Move>, p: string)
    ensures StockStateInCase(moves, p) == Stock(moves, p)
    ensures StockStateInJoin(moves, p) == Stock(moves, p)
  {
    MatchSums(moves, p);
    JoinSum(moves, p, false, true, true);
    JoinSum(moves, p, false, false, true);
    JoinSum(moves, p, true, true, false);
    JoinSum(moves, p, true, false, false);
  }

  // ---- Reports over all products ---------------------------------------------------------------

  datatype SummaryRow = SummaryRow(product: string, totalStock: int, stockValue: int, isLow: bool, needsReorder: bool)

  predicate InReport(p: Product, tenant: string) {
    p.tenant == tenant && p.active && p.tracked
  }

  function RowOf(moves: seq<Move>, p: Product): SummaryRow {
    var total := StockStateInCase(moves, p.id);
    SummaryRow(p.id, total, total * p.costPrice, p.minLevel > 0 && total <= p.minLevel,
               p.reorderPoint > 0 && total <= p.reorderPoint)
  }

  // The stock summary of a tenant, in table order.
  function Summary(moves: seq<Move>, products: seq<Product>, tenant: string): seq<SummaryRow> {
    if products == [] then []
    else
      var p := products[|products| - 1];
      Summary(moves, products[..|products| - 1], tenant) + (if InReport(p, tenant) then [RowOf(moves, p)] else [])
  }

  function LowRows(rows: seq<SummaryRow>): nat {
    if rows == [] then 0 else LowRows(rows[..|rows| - 1]) + if rows[|rows| - 1].isLow then 1 else 0
  }

  function EmptyRows(rows: seq<SummaryRow>): nat {
    if rows == [] then 0 else EmptyRows(rows[..|rows| - 1]) + if rows[|rows| - 1].totalStock <= 0 then 1 else 0
  }

  // The two counts of the inventory statistics: grouped products whose HAVING clause holds.
  predicate CountsAsLow(moves: seq<Move>, p: Product, tenant: string) {
    InReport(p, tenant) && p.minLevel > 0 && StockStateInJoin(moves, p.id) <= p.minLevel
  }

  predicate CountsAsOut(moves: seq<Move>, p: Product, tenant: string) {
    InReport(p, tenant) && StockStateInJoin(moves, p.id) <= 0
  }

  function LowStockCount(moves: seq<Move>, products: seq<Product>, tenant: string): nat {
    if products == [] then 0
    else LowStockCount(moves, products[..|products| - 1], tenant) +
         if CountsAsLow(moves, products[|products| - 1], tenant) then 1 else 0
  }

  function OutOfStockCount(moves: seq<Move>, products: seq<Product>, tenant: string): nat {
    if products == [] then 0
    else OutOfStockCount(moves, products[..|products| - 1], tenant) +
         if CountsAsOut(moves, products[|products| - 1], tenant) then 1 else 0
  }

  // The low-stock product list before paging: active products that pass its HAVING clause.
  predicate ListedAsLow(moves: seq<Move>, p: Product, tenant: string) {
    && p.tenant == tenant && p.active
    && StockStateInCase(moves, p.id) <= p.minLevel && p.minLevel > 0 && p.tracked
  }

  // A row tells the ledger's stock, what it is worth at cost, and where it stands against the
  // product's two levels.
  lemma RowReadsLedger(moves: seq<Move>, p: Product)
    ensures
      var row, stock := RowOf(moves, p), Stock(moves, p.id);
      && row.product == p.id && row.totalStock == stock && row.stockValue == stock * p.costPrice
      && (row.isLow <==> 0 < p.minLevel && stock <= p.minLevel)
      && (row.needsReorder <==> 0 < p.reorderPoint && stock <= p.reorderPoint)
  {
    StockQueriesAgree(moves, p.id);
  }

  lemma RowAgrees(moves: seq<Move>, p: Product, tenant: string)
    ensures CountsAsLow(moves, p, tenant) <==> InReport(p, tenant) && RowOf(moves, p).isLow
    ensures CountsAsOut(moves, p, tenant) <==> InReport(p, tenant) && RowOf(moves, p).totalStock <= 0
    ensures ListedAsLow(moves, p, tenant) <==> InReport(p, tenant) && RowOf(moves, p).isLow
  {
    StockQueriesAgree(moves, p.id);
  }

  lemma RowsAppend(rows: seq<SummaryRow>, row: SummaryRow)
    ensures LowRows(rows + [row]) == LowRows(rows) + if row.isLow then 1 else 0
    ensures EmptyRows(rows + [row]) == EmptyRows(rows) + if row.totalStock <= 0 then 1 else 0
  {
    assert (rows + [row])[..|rows|] == rows;
  }

  // The statistics agree with the summary on every ledger: LowStockCount is the number of
  // rows marked low and OutOfStock the number with no stock.
  lemma {:induction false} ReportsAgree(moves: seq<Move>, products: seq<Product>, tenant: string)
    ensures LowStockCount(moves, products, tenant) == LowRows(Summary(moves, products, tenant))
    ensures OutOfStockCount(moves, products, tenant) == EmptyRows(Summary(moves, products, tenant))
    decreases |products|
  {
    if products != [] {
      var rest, p := products[..|products| - 1], products[|products| - 1];
      ReportsAgree(moves, rest, tenant);
      RowAgrees(moves, p, tenant);
      var rows := Summary(moves, rest, tenant);
      RowsAppend(rows, RowOf(moves, p));
      if !InReport(p, tenant) {
        assert rows + [] == rows;
      }
    }
  }

  // The products a report is about, in table order.
  function Reported(products: seq<Product>, tenant: string): seq<Product> {
    if products == [] then []
    else
      var p := products[|products| - 1];
      Reported(products[..|products| - 1], tenant) + (if InReport(p, tenant) then [p] else [])
  }

  lemma {:induction false} ReportedIff(products: seq<Product>, tenant: string, p: Product)
    ensures p in Reported(products, tenant) <==> p in products && p.tenant == tenant && p.active && p.tracked
    decreases |products|
  {
    if products != [] {
      ReportedIff(products[..|products| - 1], tenant, p);
    }
  }

  function RowsOf(moves: seq<Move>, ps: seq<Product>): (rows: seq<SummaryRow>)
    ensures |rows| == |ps|
  {
    seq(|ps|, i requires 0 <= i < |ps| => RowOf(moves, ps[i]))
  }

  lemma RowsReadLedger(moves: seq<Move>, ps: seq<Product>)
    ensures forall i :: 0 <= i < |ps| ==>
      var row, p, stock := RowsOf(moves, ps)[i], ps[i], Stock(moves, ps[i].id);
      && row.product == p.id && row.totalStock == stock && row.stockValue == stock * p.costPrice
      && (row.isLow <==> 0 < p.minLevel && stock <= p.minLevel)
      && (row.needsReorder <==> 0 < p.reorderPoint && stock <= p.reorderPoint)
  {
    forall i | 0 <= i < |ps|
      ensures
        var row, p, stock := RowsOf(moves, ps)[i], ps[i], Stock(moves, ps[i].id);
        && row.product == p.id && row.totalStock == stock && row.stockValue == stock * p.costPrice
        && (row.isLow <==> 0 < p.minLevel && stock <= p.minLevel)
        && (row.needsReorder <==> 0 < p.reorderPoint && stock <= p.reorderPoint)
    {
      RowReadsLedger(moves, ps[i]);
    }
  }

  // A query for a tenant's reported products, in whatever order, finds just those.
  lemma ListsReported(ordered: seq<Product>, products: seq<Product>, tenant: string)
    requires multiset(ordered) == multiset(Reported(products, tenant))
    ensures forall p :: p in ordered <==> p in products && p.tenant == tenant && p.active && p.tracked
  {
    forall p ensures p in ordered <==> p in products && p.tenant == tenant && p.active && p.tracked {
      assert p in ordered <==> p in multiset(ordered);
      assert p in Reported(products, tenant) <==> p in multiset(Reported(products, tenant));
      ReportedIff(products, tenant, p);
    }
  }

  lemma {:induction false} SummaryIsRows(moves: seq<Move>, products: seq<Product>, tenant: string)
    ensures Summary(moves, products, tenant) == RowsOf(moves, Reported(products, tenant))
    decreases |products|
  {
    if products != [] {
      SummaryIsRows(moves, products[..|products| - 1], tenant);
    }
  }

  lemma {:induction false} RowCountsConcat(a: seq<SummaryRow>, b: seq<SummaryRow>)
    ensures LowRows(a + b) == LowRows(a) + LowRows(b) && EmptyRows(a + b) == EmptyRows(a) + EmptyRows(b)
    decreases |b|
  {
    if b == [] {
      assert a + b == a;
    } else {
      assert (a + b)[..|a + b| - 1] == a + b[..|b| - 1];
      RowCountsConcat(a, b[..|b| - 1]);
    }
  }

  lemma CountsSplit(moves: seq<Move>, a: seq<Product>, b: seq<Product>)
    ensures LowRows(RowsOf(moves, a + b)) == LowRows(RowsOf(moves, a)) + LowRows(RowsOf(moves, b))
    ensures EmptyRows(RowsOf(moves, a + b)) == EmptyRows(RowsOf(moves, a)) + EmptyRows(RowsOf(moves, b))
  {
    assert RowsOf(moves, a + b) == RowsOf(moves, a) + RowsOf(moves, b);
    RowCountsConcat(RowsOf(moves, a), RowsOf(moves, b));
  }

  // The counts do not depend on the order of the rows.
  lemma {:induction false} RowCountsPermute(moves: seq<Move>, a: seq<Product>, b: seq<Product>)
    requires multiset(a) == multiset(b)
    ensures LowRows(RowsOf(moves, a)) == LowRows(RowsOf(moves, b))
    ensures EmptyRows(RowsOf(moves, a)) == EmptyRows(RowsOf(moves, b))
    decreases |a|
  {
    if a == [] {
      assert |multiset(b)| == 0;
    } else {
      var p, rest := a[0], a[1..];
      assert a == [p] + rest;
      assert multiset(rest) == multiset(a) - multiset{p};
      assert p in multiset(a);
      var before, after := TakeOut(b, p);
      RowCountsPermute(moves, rest, before + after);
      CountsSplit(moves, [p], rest);
      CountsSplit(moves, before, [p] + after);
      CountsSplit(moves, [p], after);
      CountsSplit(moves, before, after);
    }
  }

  lemma {:induction false} ReportedRow(moves: seq<Move>, products: seq<Product>, tenant: string, p: Product)
    requires p in products && InReport(p, tenant)
    ensures RowOf(moves, p) in Summary(moves, products, tenant)
    decreases |products|
  {
    var rest, last := products[..|products| - 1], products[|products| - 1];
    if p != last {
      ReportedRow(moves, rest, tenant, p);
    }
  }

  lemma {:induction false} RowHasProduct(moves: seq<Move>, products: seq<Product>, tenant: string, row: SummaryRow)
      returns (p: Product)
    requires row in Summary(moves, products, tenant)
    ensures p in products && InReport(p, tenant) && row == RowOf(moves, p)
    decreases |products|
  {
    var rest, last := products[..|products| - 1], products[|products| - 1];
    if row in Summary(moves, rest, tenant) {
      p := RowHasProduct(moves, rest, tenant, row);
    } else {
      p := last;
    }
  }

  // The low-stock product list, before paging, holds exactly the products of the low rows.
  lemma LowListMatchesSummary(moves: seq<Move>, products: seq<Product>, tenant: string, p: Product)
    requires p in products
    requires forall q :: q in products && q.id == p.id ==> q == p
    ensures ListedAsLow(moves, p, tenant) <==>
            exists row :: row in Summary(moves, products, tenant) && row.product == p.id && row.isLow
  {
    RowAgrees(moves, p, tenant);
    if ListedAsLow(moves, p, tenant) {
      ReportedRow(moves, products, tenant, p);
    }
    forall row | row in Summary(moves, products, tenant) && row.product == p.id && row.isLow
      ensures ListedAsLow(moves, p, tenant)
    {
      var q := RowHasProduct(moves, products, tenant, row);
    }
  }

  // ---- Stock by location ------------------------------------------------------------------------

  function DeltaAt(m: Move, p: string, l: Location): int {
    if m.product == p && m.state.Done?
    then (if m.to == Some(l) then m.qty else 0) - (if m.from == Some(l) then m.qty else 0)
    else 0
  }

  function StockAt(moves: seq<Move>, p: string, l: Location): int {
    if moves == [] then 0 else StockAt(moves[..|moves| - 1], p, l) + DeltaAt(moves[|moves| - 1], p, l)
  }

  function TotalOver(moves: seq<Move>, p: string, ls: seq<Location>): int {
    if ls == [] then 0 else StockAt(moves, p, ls[0]) + TotalOver(moves, p, ls[1..])
  }

  function DeltaOver(m: Move, p: string, ls: seq<Location>): int {
    if ls == [] then 0 else DeltaAt(m, p, ls[0]) + DeltaOver(m, p, ls[1..])
  }

  lemma {:induction false} DeltaOverAll(m: Move, p: string, ls: seq<Location>)
    requires Distinct(ls)
    ensures DeltaOver(m, p, ls) ==
            if m.product == p && m.state.Done?
            then (if m.to.Some? && m.to.value in ls then m.qty else 0) - (if m.from.Some? && m.from.value in ls then m.qty else 0)
            else 0
  {
    if ls != [] {
      DeltaOverAll(m, p, ls[1..]);
      assert forall l :: l in ls <==> l == ls[0] || l in ls[1..];
      assert ls[0] !in ls[1..];
    }
  }

  lemma {:induction false} TotalOverAppend(moves: seq<Move>, m: Move, p: string, ls: seq<Location>)
    ensures TotalOver(moves + [m], p, ls) == TotalOver(moves, p, ls) + DeltaOver(m, p, ls)
  {
    if ls != [] {
      TotalOverAppend(moves, m, p, ls[1..]);
      assert (moves + [m])[..|moves|] == moves;
    }
  }

  lemma {:induction false} TotalOverNothing(p: string, ls: seq<Location>)
    ensures TotalOver([], p, ls) == 0
  {
    if ls != [] {
      TotalOverNothing(p, ls[1..]);
    }
  }

  // ls names every location a done move of the product mentions.
  predicate Covers(ls: seq<Location>, moves: seq<Move>, p: string) {
    forall i :: 0 <= i < |moves| && moves[i].product == p ==>
      (moves[i].to.Some? ==> moves[i].to.value in ls) && (moves[i].from.Some? ==> moves[i].from.value in ls)
  }

  // Conservation: the stock of a product is the sum of its stock at its locations.
  lemma {:induction false} StockIsConserved(moves: seq<Move>, p: string, ls: seq<Location>)
    requires Distinct(ls) && Covers(ls, moves, p)
    ensures Stock(moves, p) == TotalOver(moves, p, ls)
    decreases |moves|
  {
    if moves == [] {
      TotalOverNothing(p, ls);
    } else {
      var rest, m := moves[..|moves| - 1], moves[|moves| - 1];
      assert moves == rest + [m];
      StockIsConserved(rest, p, ls);
      TotalOverAppend(rest, m, p, ls);
      DeltaOverAll(m, p, ls);
    }
  }

  // ---- The operations -----------------------------------------------------------------------------

  datatype MoveError =
    | TenantRequired | ProductRequired | QuantityNotPositive | InvalidType | ToRequired | FromRequired
    | LocationsRequired | SameLocation | NotesRequired | ReferenceRequired | NegativeCost
    | QuantityZero | ReasonRequired | ProductNotFound | InsertFailed

  // A request to create a move; empty strings stand for missing fields.
  datatype MoveRequest = MoveRequest(tenant: string, product: string, qty: int, moveType: MoveType, from: string,
                                     to: string, notes: string, reference: string, unitCost: int)

  function Locations(r: MoveRequest): Option<MoveError> {
    match r.moveType
    case In => if r.to == "" then Some(ToRequired) else None
    case Out => if r.from == "" then Some(FromRequired) else None
    case Scrap => if r.from == "" then Some(FromRequired) else None
    case Transfer =>
      if r.from == "" || r.to == "" then Some(LocationsRequired)
      else if r.from == r.to then Some(SameLocation) else None
    case Adjust => if r.notes == "" then Some(NotesRequired) else None
    case Return => if r.reference == "" then Some(ReferenceRequired) else None
    case UnknownType => Some(InvalidType)
  }

  function Problem(r: MoveRequest): Option<MoveError> {
    if r.tenant == "" then Some(TenantRequired)
    else if r.product == "" then Some(ProductRequired)
    else if r.qty <= 0 then Some(QuantityNotPositive)
    else if r.moveType.UnknownType? then Some(InvalidType)
    else if Locations(r).Some? then Locations(r)
    else if r.unitCost < 0 then Some(NegativeCost)
    else None
  }

  // Each fault by itself, whatever else is wrong with the request.
  predicate Faulty(r: MoveRequest, e: MoveError) {
    match e
    case TenantRequired => r.tenant == ""
    case ProductRequired => r.product == ""
    case QuantityNotPositive => r.qty <= 0
    case InvalidType => r.moveType == UnknownType
    case ToRequired => r.moveType == In && r.to == ""
    case FromRequired => (r.moveType == Out || r.moveType == Scrap) && r.from == ""
    case LocationsRequired => r.moveType == Transfer && (r.from == "" || r.to == "")
    case SameLocation => r.moveType == Transfer && r.from == r.to
    case NotesRequired => r.moveType == Adjust && r.notes == ""
    case ReferenceRequired => r.moveType == Return && r.reference == ""
    case NegativeCost => r.unitCost < 0
    case _ => false
  }

  // The order the checks are made in.
  function Rank(e: MoveError): nat {
    match e
    case TenantRequired => 0
    case ProductRequired => 1
    case QuantityNotPositive => 2
    case NegativeCost => 4
    case _ => 3
  }

  // A request is refused for a fault it has, and has none that is looked for earlier; it is
  // accepted exactly when it has none at all.
  lemma ProblemIsFirstFault(r: MoveRequest)
    ensures Problem(r).None? <==> forall e :: !Faulty(r, e)
    ensures Problem(r).Some? ==> Faulty(r, Problem(r).value)
    ensures Problem(r).Some? ==> forall e :: Faulty(r, e) ==> Rank(Problem(r).value) <= Rank(e)
    ensures Problem(r) == Some(SameLocation) ==> r.from != ""
  {
    if Problem(r).Some? {
      assert Faulty(r, Problem(r).value);
    }
  }

  function NullIfEmpty(s: string): Option<Location> {
    if s == "" then None else Some(s)
  }

  function MoveOf(r: MoveRequest): Move {
    Move(r.tenant, r.product, NullIfEmpty(r.from), NullIfEmpty(r.to), r.qty, r.moveType, Done)
  }

  datatype Adjustment = Adjustment(product: string, location: string, qty: int, reason: string)

  function Abs(x: int): nat {
    if x < 0 then -x else x
  }

  // A positive adjustment comes in at the location, a negative one goes out from it.
  function AdjustmentMove(a: Adjustment, tenant: string): Move {
    var l := NullIfEmpty(a.location);
    Move(tenant, a.product, if a.qty > 0 then None else l, if a.qty > 0 then l else None, Abs(a.qty), Adjust, Done)
  }

  // What an accepted request does to the stock of its product: only a request with exactly
  // one location changes it, so a transfer never does, and an in or out move always does
  // unless it names both locations.
  lemma AcceptedMoveEffect(r: MoveRequest)
    requires Problem(r).None?
    ensures Delta(MoveOf(r), r.product) ==
            (if r.to != "" && r.from == "" then r.qty else if r.from != "" && r.to == "" then -r.qty else 0)
    ensures r.moveType.Transfer? ==> Delta(MoveOf(r), r.product) == 0
    ensures r.moveType.In? ==> Delta(MoveOf(r), r.product) == (if r.from == "" then r.qty else 0)
    ensures r.moveType.Out? || r.moveType.Scrap? ==> Delta(MoveOf(r), r.product) == (if r.to == "" then -r.qty else 0)
  {
  }

  // An accepted transfer moves its quantity from one location to another and leaves every
  // other location, and the product total, as they were.
  lemma TransferMovesStock(moves: seq<Move>, r: MoveRequest, l: Location)
    requires Problem(r).None? && r.moveType.Transfer?
    ensures Stock(moves + [MoveOf(r)], r.product) == Stock(moves, r.product)
    ensures StockAt(moves + [MoveOf(r)], r.product, l) == StockAt(moves, r.product, l) +
            (if l == r.to then r.qty else if l == r.from then -r.qty else 0)
  {
    StockAppend(moves, MoveOf(r), r.product);
    assert (moves + [MoveOf(r)])[..|moves|] == moves;
  }

  // An adjustment changes the product's stock by its signed quantity exactly when it names a
  // location; without one it is recorded but counts nowhere.
  lemma AdjustmentEffect(moves: seq<Move>, a: Adjustment, tenant: string, l: Location)
    requires a.qty != 0
    ensures
      var after := moves + [AdjustmentMove(a, tenant)];
      && (Stock(after, a.product) == Stock(moves, a.product) + a.qty <==> a.location != "")
      && (a.location == "" ==> Stock(after, a.product) == Stock(moves, a.product))
      && StockAt(after, a.product, l) == StockAt(moves, a.product, l) +
           (if a.location != "" && l == a.location then a.qty else 0)
  {
    StockAppend(moves, AdjustmentMove(a, tenant), a.product);
    assert (moves + [AdjustmentMove(a, tenant)])[..|moves|] == moves;
  }

  // Adjusting by a quantity and then by its negation restores every location and the total.
  lemma AdjustmentUndone(moves: seq<Move>, a: Adjustment, tenant: string, p: string, l: Location)
    requires a.qty != 0
    ensures
      var after := moves + [AdjustmentMove(a, tenant)] + [AdjustmentMove(a.(qty := -a.qty), tenant)];
      Stock(after, p) == Stock(moves, p) && StockAt(after, p, l) == StockAt(moves, p, l)
  {
    var once := moves + [AdjustmentMove(a, tenant)];
    var back := AdjustmentMove(a.(qty := -a.qty), tenant);
    StockAppend(moves, AdjustmentMove(a, tenant), p);
    StockAppend(once, back, p);
    assert once[..|moves|] == moves && (once + [back])[..|once|] == once;
  }
}
