// The figures of the profit and loss report, read directly off the accounts, the tenants and
// the dates, and what a single entry does to them.
module ReportFigures {
  import opened Journal

  // The lines of a tenant's entries dated within a period, both ends included.
  function PeriodLines(journal: seq<Entry>, tenant: string, from: int, to: int): seq<Line> {
    if journal == [] then []
    else
      var e := journal[|journal| - 1];
      PeriodLines(journal[..|journal| - 1], tenant, from, to) + if e.tenant == tenant && from <= e.date <= to then e.lines else []
  }

  // ---- Direct sums of debits less credits -----------------------------------------------------

  function OfType(chart: Chart, t: AccountType, lines: seq<Line>): int {
    if lines == [] then 0
    else
      var l := lines[|lines| - 1];
      OfType(chart, t, lines[..|lines| - 1]) +
        if l.account in chart && chart[l.account].accountType == t then l.debit - l.credit else 0
  }

  function OfCode(chart: Chart, code: string, lines: seq<Line>): int {
    if lines == [] then 0
    else
      var l := lines[|lines| - 1];
      OfCode(chart, code, lines[..|lines| - 1]) +
        if l.account in chart && chart[l.account].code == code then l.debit - l.credit else 0
  }

  // Lines on accounts with both the type and the code.
  function OfBoth(chart: Chart, t: AccountType, code: string, lines: seq<Line>): int {
    if lines == [] then 0
    else
      var l := lines[|lines| - 1];
      OfBoth(chart, t, code, lines[..|lines| - 1]) +
        if l.account in chart && chart[l.account].accountType == t && chart[l.account].code == code
        then l.debit - l.credit else 0
  }

  // Lines on expense accounts of one name and code.
  function OfGroup(chart: Chart, name: string, code: string, lines: seq<Line>): int {
    if lines == [] then 0
    else
      var l := lines[|lines| - 1];
      OfGroup(chart, name, code, lines[..|lines| - 1]) +
        if l.account in chart && chart[l.account].accountType == Expense && chart[l.account].name == name && chart[l.account].code == code
        then l.debit - l.credit else 0
  }

  function OfNoAccount(chart: Chart, lines: seq<Line>): int {
    if lines == [] then 0
    else
      var l := lines[|lines| - 1];
      OfNoAccount(chart, lines[..|lines| - 1]) + if l.account !in chart then l.debit - l.credit else 0
  }

  // ---- Every query is such a sum ------------------------------------------------------------------

  lemma {:induction false} QueriesOfLines(chart: Chart, lines: seq<Line>)
    ensures LinesSum(RevenueLines, chart, lines) == OfType(chart, Revenue, lines)
    ensures LinesSum(ExpenseLines, chart, lines) == OfType(chart, Expense, lines)
    ensures LinesSum(NeitherLines, chart, lines) == OfType(chart, OtherType, lines)
    ensures LinesSum(CogsLines, chart, lines) == OfCode(chart, "5000", lines)
    ensures LinesSum(OtherExpenseLines, chart, lines) == OfType(chart, Expense, lines) - OfBoth(chart, Expense, "5000", lines)
    ensures LinesSum(CogsNotExpense, chart, lines) == OfCode(chart, "5000", lines) - OfBoth(chart, Expense, "5000", lines)
    ensures LinesSum(Unjoined, chart, lines) == OfNoAccount(chart, lines)
    decreases |lines|
  {
    if lines != [] {
      QueriesOfLines(chart, lines[..|lines| - 1]);
    }
  }

  lemma {:induction false} GroupOfLines(chart: Chart, name: string, code: string, lines: seq<Line>)
    ensures LinesSum(Category(name, code), chart, lines) == OfGroup(chart, name, code, lines)
    decreases |lines|
  {
    if lines != [] {
      GroupOfLines(chart, name, code, lines[..|lines| - 1]);
    }
  }

  lemma {:induction false} LinesSumSplits(q: Query, chart: Chart, a: seq<Line>, b: seq<Line>)
    ensures LinesSum(q, chart, a + b) == LinesSum(q, chart, a) + LinesSum(q, chart, b)
    decreases |b|
  {
    if b == [] {
      assert a + b == a;
    } else {
      var n := |b| - 1;
      assert (a + b)[..|a + b| - 1] == a + b[..n];
      LinesSumSplits(q, chart, a, b[..n]);
    }
  }

  // Only the tenant's entries within the period are read.
  lemma {:induction false} SumIsOverPeriod(q: Query, chart: Chart, journal: seq<Entry>, f: Filter)
    ensures Sum(q, chart, journal, f) == LinesSum(q, chart, PeriodLines(journal, f.tenant, f.from, f.to))
    decreases |journal|
  {
    if journal != [] {
      var rest, e := journal[..|journal| - 1], journal[|journal| - 1];
      var before := PeriodLines(rest, f.tenant, f.from, f.to);
      SumIsOverPeriod(q, chart, rest, f);
      LinesSumSplits(q, chart, before, e.lines);
      assert before + [] == before;
    }
  }

  // The sums behind the report and its laws, each over the accounts it names.
  lemma QueriesReadAccounts(chart: Chart, journal: seq<Entry>, f: Filter)
    ensures
      var lines := PeriodLines(journal, f.tenant, f.from, f.to);
      && Sum(RevenueLines, chart, journal, f) == OfType(chart, Revenue, lines)
      && Sum(ExpenseLines, chart, journal, f) == OfType(chart, Expense, lines)
      && Sum(NeitherLines, chart, journal, f) == OfType(chart, OtherType, lines)
      && Sum(CogsLines, chart, journal, f) == OfCode(chart, "5000", lines)
      && Sum(OtherExpenseLines, chart, journal, f) == OfType(chart, Expense, lines) - OfBoth(chart, Expense, "5000", lines)
      && Sum(CogsNotExpense, chart, journal, f) == OfCode(chart, "5000", lines) - OfBoth(chart, Expense, "5000", lines)
      && Sum(Unjoined, chart, journal, f) == OfNoAccount(chart, lines)
  {
    QueriesOfLines(chart, PeriodLines(journal, f.tenant, f.from, f.to));
    forall q ensures Sum(q, chart, journal, f) == LinesSum(q, chart, PeriodLines(journal, f.tenant, f.from, f.to)) {
      SumIsOverPeriod(q, chart, journal, f);
    }
  }

  lemma GroupReadsAccounts(chart: Chart, journal: seq<Entry>, f: Filter, name: string, code: string)
    ensures Sum(Category(name, code), chart, journal, f) ==
            OfGroup(chart, name, code, PeriodLines(journal, f.tenant, f.from, f.to))
  {
    SumIsOverPeriod(Category(name, code), chart, journal, f);
    GroupOfLines(chart, name, code, PeriodLines(journal, f.tenant, f.from, f.to));
  }

  // The report: revenue is what the lines on revenue accounts come to, without its sign; cogs
  // the lines on code 5000; expenses the lines on expense accounts but those.
  lemma ReportReadsAccounts(chart: Chart, journal: seq<Entry>, f: Filter)
    ensures
      var report := ProfitLossReport(chart, journal, f);
      var lines := PeriodLines(journal, f.tenant, f.from, f.to);
      var sales := OfType(chart, Revenue, lines);
      && report.revenue == (if sales < 0 then -sales else sales)
      && report.cogs == OfCode(chart, "5000", lines)
      && report.grossProfit == report.revenue - report.cogs
      && report.expenses == OfType(chart, Expense, lines) - OfBoth(chart, Expense, "5000", lines)
      && report.netProfit == report.revenue - report.cogs - report.expenses
  {
    QueriesReadAccounts(chart, journal, f);
  }

  // ---- What one entry does ---------------------------------------------------------------------------

  // The entry's lines that a report of the filter reads.
  function Read(e: Entry, f: Filter): seq<Line> {
    if e.tenant == f.tenant && f.from <= e.date <= f.to then e.lines else []
  }

  lemma SumAppend(q: Query, chart: Chart, journal: seq<Entry>, e: Entry, f: Filter)
    ensures Sum(q, chart, journal + [e], f) == Sum(q, chart, journal, f) + LinesSum(q, chart, Read(e, f))
  {
    assert (journal + [e])[..|journal|] == journal;
  }

  lemma {:induction false} EntryAddsItsLines(q: Query, chart: Chart, a: seq<Entry>, e: Entry, b: seq<Entry>, f: Filter)
    ensures Sum(q, chart, a + [e] + b, f) == Sum(q, chart, a + b, f) + LinesSum(q, chart, Read(e, f))
    decreases |b|
  {
    if b == [] {
      assert a + [e] + b == a + [e] && a + b == a;
      SumAppend(q, chart, a, e, f);
    } else {
      var rest, last := b[..|b| - 1], b[|b| - 1];
      assert a + [e] + b == a + [e] + rest + [last] && a + b == a + rest + [last];
      EntryAddsItsLines(q, chart, a, e, rest, f);
      SumAppend(q, chart, a + [e] + rest, last, f);
      SumAppend(q, chart, a + rest, last, f);
    }
  }

  lemma {:induction false} BalanceSheetLines(chart: Chart, lines: seq<Line>)
    requires forall l :: l in lines && l.account in chart ==>
      chart[l.account].accountType == OtherType && chart[l.account].code != "5000"
    ensures OfType(chart, Revenue, lines) == 0 && OfType(chart, Expense, lines) == 0 && OfCode(chart, "5000", lines) == 0
    ensures OfBoth(chart, Expense, "5000", lines) == 0
    decreases |lines|
  {
    if lines != [] {
      assert forall l :: l in lines[..|lines| - 1] ==> l in lines;
      BalanceSheetLines(chart, lines[..|lines| - 1]);
    }
  }

  // Wherever it stands in the journal, an entry of another tenant or of another time, or one
  // that touches only accounts that are neither revenue, expense nor code 5000, changes no
  // report.
  lemma UnrelatedEntryChangesNothing(chart: Chart, a: seq<Entry>, e: Entry, b: seq<Entry>, f: Filter)
    requires e.tenant != f.tenant || e.date < f.from || f.to < e.date ||
      forall l :: l in e.lines && l.account in chart ==>
        chart[l.account].accountType == OtherType && chart[l.account].code != "5000"
    ensures ProfitLossReport(chart, a + [e] + b, f) == ProfitLossReport(chart, a + b, f)
  {
    EntryAddsItsLines(RevenueLines, chart, a, e, b, f);
    EntryAddsItsLines(CogsLines, chart, a, e, b, f);
    EntryAddsItsLines(OtherExpenseLines, chart, a, e, b, f);
    BalanceSheetLines(chart, Read(e, f));
    QueriesOfLines(chart, Read(e, f));
  }

  // A two-line entry that moves an amount between two accounts.
  predicate Moves(e: Entry, debited: string, credited: string, amount: int) {
    e.lines == [Line(debited, amount, 0), Line(credited, 0, amount)]
  }

  lemma TwoLines(q: Query, chart: Chart, x: Line, y: Line)
    ensures LinesSum(q, chart, [x, y]) == LineAmount(q, chart, x) + LineAmount(q, chart, y)
  {
    assert [x, y][..1] == [x];
    assert LinesSum(q, chart, [x]) == LinesSum(q, chart, [x][..0]) + LineAmount(q, chart, x);
  }

  // A sale, debiting an account of neither type and crediting a revenue account, leaves cogs and
  // expenses, and raises revenue by its amount exactly when revenue was not net debit before.
  lemma SaleRaisesRevenueIff(chart: Chart, a: seq<Entry>, e: Entry, b: seq<Entry>, f: Filter, cash: string, sales: string, amount: nat)
    requires e.tenant == f.tenant && f.from <= e.date <= f.to && Moves(e, cash, sales, amount)
    requires cash in chart && chart[cash].accountType == OtherType && chart[cash].code != "5000"
    requires sales in chart && chart[sales].accountType == Revenue && chart[sales].code != "5000"
    ensures
      var before, after := ProfitLossReport(chart, a + b, f), ProfitLossReport(chart, a + [e] + b, f);
      && (after.revenue == before.revenue + amount <==>
            amount == 0 || OfType(chart, Revenue, PeriodLines(a + b, f.tenant, f.from, f.to)) <= 0)
      && after.cogs == before.cogs && after.expenses == before.expenses
      && after.grossProfit - before.grossProfit == after.revenue - before.revenue
      && after.netProfit - before.netProfit == after.revenue - before.revenue
  {
    ReportReadsAccounts(chart, a + b, f);
    QueriesReadAccounts(chart, a + b, f);
    forall q ensures Sum(q, chart, a + [e] + b, f) ==
                     Sum(q, chart, a + b, f) + LineAmount(q, chart, e.lines[0]) + LineAmount(q, chart, e.lines[1])
    {
      EntryAddsItsLines(q, chart, a, e, b, f);
      TwoLines(q, chart, e.lines[0], e.lines[1]);
    }
  }

  // An expense, debiting an expense account and crediting one of neither type, lowers net
  // profit by its amount: through cogs on code 5000, and through expenses on any other.
  lemma ExpenseLowersProfit(chart: Chart, a: seq<Entry>, e: Entry, b: seq<Entry>, f: Filter, spent: string, cash: string, amount: nat)
    requires e.tenant == f.tenant && f.from <= e.date <= f.to && Moves(e, spent, cash, amount)
    requires cash in chart && chart[cash].accountType == OtherType && chart[cash].code != "5000"
    requires spent in chart && chart[spent].accountType == Expense
    ensures
      var before, after := ProfitLossReport(chart, a + b, f), ProfitLossReport(chart, a + [e] + b, f);
      var cogs := if chart[spent].code == "5000" then amount else 0;
      after == ProfitLoss(before.revenue, before.cogs + cogs, before.grossProfit - cogs, before.expenses + amount - cogs,
                          before.netProfit - amount)
  {
    forall q ensures Sum(q, chart, a + [e] + b, f) ==
                     Sum(q, chart, a + b, f) + LineAmount(q, chart, e.lines[0]) + LineAmount(q, chart, e.lines[1])
    {
      EntryAddsItsLines(q, chart, a, e, b, f);
      TwoLines(q, chart, e.lines[0], e.lines[1]);
    }
  }
}
