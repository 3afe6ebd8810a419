// The accounting repository and the profit and loss handler over their tables.
module AccountingRepository {
  import opened Journal
  import opened ReportFigures

  class Repository {
    var chart: Chart
    var journal: seq<Entry>

    constructor (chart: Chart)
      ensures this.chart == chart && journal == []
    {
      this.chart, journal := chart, [];
    }

    static method AddUp(lines: seq<Line>) returns (totalD: int, totalC: int)
      ensures totalD == Debits(lines) && totalC == Credits(lines)
    {
      totalD, totalC := 0, 0;
      var i := 0;
      while i < |lines|
        invariant 0 <= i <= |lines|
        invariant totalD == Debits(lines[..i]) && totalC == Credits(lines[..i])
      {
        assert lines[..i + 1][..i] == lines[..i];
        totalD := totalD + lines[i].debit;
        totalC := totalC + lines[i].credit;
        i := i + 1;
      }
      assert lines[..i] == lines;
    }

    // A line whose insert fails is skipped without a word.
    static method InsertLines(lines: seq<Line>, stored: seq<bool>) returns (kept: seq<Line>)
      requires |stored| == |lines|
      ensures kept == Stored(lines, stored)
      ensures false !in stored ==> kept == lines
    {
      kept := [];
      var i := 0;
      while i < |lines|
        invariant 0 <= i <= |lines|
        invariant kept == Stored(lines[..i], stored[..i])
      {
        assert lines[..i + 1][..i] == lines[..i] && stored[..i + 1][..i] == stored[..i];
        if stored[i] {
          kept := kept + [lines[i]];
        }
        i := i + 1;
      }
      assert lines[..i] == lines && stored[..i] == stored;
      if false !in stored {
        AllStoredKept(lines, stored);
      }
    }

    // Both sides are added up; the entry is refused unless they are equal.
    method CreateJournalEntry(tenant: string, state: string, today: int, lines: seq<Line>, countOk: bool, headOk: bool,
                              stored: seq<bool>)
      returns (accepted: bool)
      requires |stored| == |lines|
      modifies this`journal
      ensures accepted <==> Net(lines) == 0 && headOk
      ensures journal == Exec(old(journal), CreateEntry(tenant, state, today, lines, countOk, headOk, stored))
      ensures !accepted ==> journal == old(journal)
      ensures accepted ==> |journal| == |old(journal)| + 1 && journal[..|old(journal)|] == old(journal)
      ensures accepted ==>
        var e := journal[|old(journal)|];
        && e.tenant == tenant && e.date == today && e.state == (if state == "" then "draft" else state)
        && e.totalDebit == e.totalCredit == Debits(lines) == Credits(lines)
        && (false !in stored ==> e.lines == lines)
    {
      var count := 0;
      if countOk {
        count := EntriesOf(journal, tenant);
      }
      var number := count + 1;
      var totalD, totalC := AddUp(lines);
      if totalD != totalC {
        return false;
      }
      if !headOk {
        return false;
      }
      var kept := InsertLines(lines, stored);
      var first := if state == "" then "draft" else state;
      journal := journal + [Entry(|journal|, tenant, number, today, first, totalD, totalC, kept)];
      return true;
    }

    method PostJournalEntry(id: nat, tenant: string)
      modifies this`journal
      ensures journal == Exec(old(journal), PostEntry(id, tenant))
      ensures |journal| == |old(journal)|
      ensures forall i :: 0 <= i < |journal| ==>
        var e := old(journal)[i];
        journal[i] == if e.id == id && e.tenant == tenant && e.state == "draft" then e.(state := "posted") else e
      ensures forall f :: ProfitLossReport(chart, journal, f) == ProfitLossReport(chart, old(journal), f)
    {
      forall f ensures ProfitLossReport(chart, Post(journal, id, tenant), f) == ProfitLossReport(chart, journal, f) {
        PostingKeepsReports(chart, journal, f, id, tenant);
      }
      journal := Post(journal, id, tenant);
    }

    static method Margin(revenue: int, grossProfit: int) returns (margin: real)
      ensures revenue > 0 ==> margin * revenue as real == grossProfit as real * 100.0
      ensures revenue <= 0 ==> margin == 0.0
    {
      margin := 0.0;
      if revenue > 0 {
        margin := (grossProfit as real / revenue as real) * 100.0;
      }
    }

    // Three separate sums are combined; one whose query fails stays zero.
    method AddUpReport(f: Filter, revenueOk: bool, cogsOk: bool, expensesOk: bool) returns (report: ProfitLoss)
      ensures revenueOk && cogsOk && expensesOk ==> report == ProfitLossReport(chart, journal, f)
      ensures
        var lines := PeriodLines(journal, f.tenant, f.from, f.to);
        var sales := if revenueOk then OfType(chart, Revenue, lines) else 0;
        && report.revenue == (if sales < 0 then -sales else sales)
        && report.cogs == (if cogsOk then OfCode(chart, "5000", lines) else 0)
        && report.expenses == (if expensesOk then OfType(chart, Expense, lines) - OfBoth(chart, Expense, "5000", lines) else 0)
        && report.grossProfit == report.revenue - report.cogs
        && report.netProfit == report.revenue - report.cogs - report.expenses
    {
      var revenue, cogs, expenses := 0, 0, 0;
      if revenueOk {
        revenue := Sum(RevenueLines, chart, journal, f);
      }
      if cogsOk {
        cogs := Sum(CogsLines, chart, journal, f);
      }
      if expensesOk {
        expenses := Sum(OtherExpenseLines, chart, journal, f);
      }
      if revenue < 0 {
        revenue := -revenue;
      }
      var grossProfit := revenue - cogs;
      var netProfit := grossProfit - expenses;
      report := ProfitLoss(revenue, cogs, grossProfit, expenses, netProfit);
      QueriesReadAccounts(chart, journal, f);
    }

    method ProfitLossHandler(f: Filter, revenueOk: bool, cogsOk: bool, expensesOk: bool)
      returns (report: ProfitLoss, grossMargin: real)
      ensures revenueOk && cogsOk && expensesOk ==> report == ProfitLossReport(chart, journal, f)
      ensures
        var lines := PeriodLines(journal, f.tenant, f.from, f.to);
        var sales := if revenueOk then OfType(chart, Revenue, lines) else 0;
        && report.revenue == (if sales < 0 then -sales else sales)
        && report.cogs == (if cogsOk then OfCode(chart, "5000", lines) else 0)
        && report.expenses == (if expensesOk then OfType(chart, Expense, lines) - OfBoth(chart, Expense, "5000", lines) else 0)
        && report.grossProfit == report.revenue - report.cogs
        && report.netProfit == report.revenue - report.cogs - report.expenses
      ensures report.revenue > 0 ==> grossMargin * report.revenue as real == report.grossProfit as real * 100.0
      ensures report.revenue <= 0 ==> grossMargin == 0.0
    {
      report := AddUpReport(f, revenueOk, cogsOk, expensesOk);
      grossMargin := Margin(report.revenue, report.grossProfit);
    }

    // Scanning the groups of the category query, largest first, into a list.
    method ExpenseByCategory(keys: seq<Key>, f: Filter) returns (amounts: seq<(Key, int)>)
      requires GroupsOf(keys, chart, journal, f)
      requires forall i, j :: 0 <= i < j < |keys| ==> Sum(KeyQuery(keys[i]), chart, journal, f) >= Sum(KeyQuery(keys[j]), chart, journal, f)
      ensures forall i, j :: 0 <= i < j < |amounts| ==> amounts[i].1 >= amounts[j].1
      ensures |amounts| == |keys|
      ensures forall i :: 0 <= i < |keys| ==> amounts[i] == (keys[i], Sum(KeyQuery(keys[i]), chart, journal, f))
      ensures forall i :: 0 <= i < |keys| ==>
        amounts[i].1 == OfGroup(chart, keys[i].name, keys[i].code, PeriodLines(journal, f.tenant, f.from, f.to))
      ensures CategoryTotal(keys, chart, journal, f) == OfType(chart, Expense, PeriodLines(journal, f.tenant, f.from, f.to))
    {
      amounts := [];
      var i := 0;
      while i < |keys|
        invariant 0 <= i <= |keys| && |amounts| == i
        invariant forall j :: 0 <= j < i ==> amounts[j] == (keys[j], Sum(KeyQuery(keys[j]), chart, journal, f))
      {
        amounts := amounts + [(keys[i], Sum(KeyQuery(keys[i]), chart, journal, f))];
        i := i + 1;
      }
      CategoriesSumToExpenses(keys, chart, journal, f);
      QueriesReadAccounts(chart, journal, f);
      forall i | 0 <= i < |keys|
        ensures amounts[i].1 == OfGroup(chart, keys[i].name, keys[i].code, PeriodLines(journal, f.tenant, f.from, f.to))
      {
        GroupReadsAccounts(chart, journal, f, keys[i].name, keys[i].code);
      }
    }
  }
}
