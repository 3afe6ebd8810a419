// Journal entries, which are balanced when they are created, and the reports that read
// their lines.  Amounts are exact, in cents.
module Journal {
  import opened Common

  datatype AccountType = Revenue | Expense | OtherType

  datatype Account = Account(tenant: string, code: string, name: string, accountType: AccountType)

  // chart_of_accounts by primary key.
  type Chart = map<string, Account>

  datatype Line = Line(account: string, debit: int, credit: int)

  // A journal entry with the lines stored for it.
  datatype Entry = Entry(id: nat, tenant: string, number: nat, date: int, state: string, totalDebit: int,
                         totalCredit: int, lines: seq<Line>)

  function Debits(lines: seq<Line>): int {
    if lines == [] then 0 else Debits(lines[..|lines| - 1]) + lines[|lines| - 1].debit
  }

  function Credits(lines: seq<Line>): int {
    if lines == [] then 0 else Credits(lines[..|lines| - 1]) + lines[|lines| - 1].credit
  }

  function Net(lines: seq<Line>): int {
    Debits(lines) - Credits(lines)
  }

  // ---- Operations --------------------------------------------------------------------------

  datatype Op =
    | CreateEntry(tenant: string, state: string, date: int, lines: seq<Line>, countOk: bool, headOk: bool, stored: seq<bool>)
    | PostEntry(id: nat, tenant: string)

  // The lines whose insert succeeded; a failed insert is ignored by the code.
  function Stored(lines: seq<Line>, stored: seq<bool>): seq<Line>
    requires |stored| == |lines|
  {
    if lines == [] then []
    else
      var n := |lines| - 1;
      Stored(lines[..n], stored[..n]) + (if stored[n] then [lines[n]] else [])
  }

  function EntriesOf(journal: seq<Entry>, tenant: string): nat {
    if journal == [] then 0
    else EntriesOf(journal[..|journal| - 1], tenant) + if journal[|journal| - 1].tenant == tenant then 1 else 0
  }

  function Post(journal: seq<Entry>, id: nat, tenant: string): (posted: seq<Entry>)
    ensures |posted| == |journal|
  {
    seq(|journal|, i requires 0 <= i < |journal| =>
      if journal[i].id == id && journal[i].tenant == tenant && journal[i].state == "draft"
      then journal[i].(state := "posted") else journal[i])
  }

  predicate Possible(op: Op) {
    op.CreateEntry? ==> |op.stored| == |op.lines|
  }

  // An unbalanced entry, or one whose head is not inserted, is refused; ids are fresh.  A count
  // that fails goes unnoticed and leaves zero.
  function Exec(journal: seq<Entry>, op: Op): seq<Entry>
    requires Possible(op)
  {
    match op
    case CreateEntry(tenant, state, date, lines, countOk, headOk, stored) =>
      if Debits(lines) != Credits(lines) || !headOk then journal
      else
        var number := (if countOk then EntriesOf(journal, tenant) else 0) + 1;
        journal + [Entry(|journal|, tenant, number, date, if state == "" then "draft" else state,
                         Debits(lines), Credits(lines), Stored(lines, stored))]
    case PostEntry(id, tenant) => Post(journal, id, tenant)
  }

  function Run(journal: seq<Entry>, ops: seq<Op>): seq<Entry>
    requires forall i :: 0 <= i < |ops| ==> Possible(ops[i])
    decreases |ops|
  {
    if ops == [] then journal else Run(Exec(journal, ops[0]), ops[1..])
  }

  predicate AllStored(op: Op) {
    op.CreateEntry? ==> forall i :: 0 <= i < |op.stored| ==> op.stored[i]
  }

  predicate Balanced(journal: seq<Entry>) {
    forall i :: 0 <= i < |journal| ==> Net(journal[i].lines) == 0
  }

  function Dropped(lines: seq<Line>, stored: seq<bool>): seq<Line>
    requires |stored| == |lines|
  {
    if lines == [] then []
    else
      var n := |lines| - 1;
      Dropped(lines[..n], stored[..n]) + (if stored[n] then [] else [lines[n]])
  }

  lemma NetAppend(lines: seq<Line>, l: Line)
    ensures Net(lines + [l]) == Net(lines) + l.debit - l.credit
  {
    assert (lines + [l])[..|lines|] == lines;
  }

  lemma {:induction false} StoredAndDropped(lines: seq<Line>, stored: seq<bool>)
    requires |stored| == |lines|
    ensures Net(Stored(lines, stored)) + Net(Dropped(lines, stored)) == Net(lines)
    decreases |lines|
  {
    if lines != [] {
      var n := |lines| - 1;
      StoredAndDropped(lines[..n], stored[..n]);
      var kept, lost := Stored(lines[..n], stored[..n]), Dropped(lines[..n], stored[..n]);
      if stored[n] {
        NetAppend(kept, lines[n]);
        assert lost + [] == lost;
      } else {
        NetAppend(lost, lines[n]);
        assert kept + [] == kept;
      }
    }
  }

  lemma {:induction false} AllStoredKept(lines: seq<Line>, stored: seq<bool>)
    requires |stored| == |lines| && forall i :: 0 <= i < |stored| ==> stored[i]
    ensures Stored(lines, stored) == lines
    decreases |lines|
  {
    if lines != [] {
      var n := |lines| - 1;
      AllStoredKept(lines[..n], stored[..n]);
      assert lines[..n] + [lines[n]] == lines;
    }
  }

  // The lines stored for an accepted entry balance exactly when the lines lost to failed
  // inserts do.
  lemma StoredBalanceIffDroppedDo(journal: seq<Entry>, op: Op)
    requires op.CreateEntry? && Possible(op) && Debits(op.lines) == Credits(op.lines) && op.headOk
    ensures
      var e := Exec(journal, op)[|journal|];
      Net(e.lines) == 0 <==> Net(Dropped(op.lines, op.stored)) == 0
  {
    StoredAndDropped(op.lines, op.stored);
  }

  lemma {:induction false} RunKeepsBalance(journal: seq<Entry>, ops: seq<Op>)
    requires Balanced(journal)
    requires forall i :: 0 <= i < |ops| ==> Possible(ops[i]) && AllStored(ops[i])
    ensures Balanced(Run(journal, ops))
    decreases |ops|
  {
    if ops != [] {
      if ops[0].CreateEntry? {
        AllStoredKept(ops[0].lines, ops[0].stored);
      }
      RunKeepsBalance(Exec(journal, ops[0]), ops[1..]);
    }
  }

  // ---- Entry numbers -------------------------------------------------------------------------

  function Before(journal: seq<Entry>, n: nat, tenant: string): set<nat>
    requires n <= |journal|
  {
    set j: nat | j < n && journal[j].tenant == tenant
  }

  lemma {:induction false} EntriesCounted(journal: seq<Entry>, n: nat, tenant: string)
    requires n <= |journal|
    ensures EntriesOf(journal[..n], tenant) == |Before(journal, n, tenant)|
  {
    if n > 0 {
      EntriesCounted(journal, n - 1, tenant);
      assert journal[..n][..n - 1] == journal[..n - 1];
      var fewer := Before(journal, n - 1, tenant);
      assert Before(journal, n, tenant) == if journal[n - 1].tenant == tenant then fewer + {n - 1} else fewer;
    }
  }

  // Each entry's id is its place, and its number counts its tenant's entries up to it.
  predicate Numbered(journal: seq<Entry>) {
    forall i: nat :: i < |journal| ==> journal[i].id == i && journal[i].number == |Before(journal, i, journal[i].tenant)| + 1
  }

  lemma AppendNumberedIff(journal: seq<Entry>, e: Entry)
    requires Numbered(journal)
    ensures Numbered(journal + [e]) <==> e.id == |journal| && e.number == EntriesOf(journal, e.tenant) + 1
  {
    var n, after := |journal|, journal + [e];
    EntriesCounted(journal, n, e.tenant);
    assert journal[..n] == journal;
    forall i: nat | i <= n ensures Before(after, i, after[i].tenant) == Before(journal, i, after[i].tenant) {
    }
    assert after[n] == e;
  }

  lemma {:induction false} NoEntriesIff(journal: seq<Entry>, tenant: string)
    ensures EntriesOf(journal, tenant) == 0 <==> forall e :: e in journal ==> e.tenant != tenant
    decreases |journal|
  {
    if journal != [] {
      var rest, last := journal[..|journal| - 1], journal[|journal| - 1];
      NoEntriesIff(rest, tenant);
      assert forall e :: e in journal <==> e in rest || e == last;
    }
  }

  // One creation keeps the numbering exactly when it is refused, its count of the tenant's
  // entries went through, or there were none.
  lemma CreationKeepsNumbersIff(journal: seq<Entry>, op: Op)
    requires op.CreateEntry? && Possible(op) && Numbered(journal)
    ensures Numbered(Exec(journal, op)) <==>
            Exec(journal, op) == journal || op.countOk || forall e :: e in journal ==> e.tenant != op.tenant
  {
    var after := Exec(journal, op);
    if after != journal {
      AppendNumberedIff(journal, after[|journal|]);
      NoEntriesIff(journal, op.tenant);
    }
  }

  lemma PostingKeepsNumbers(journal: seq<Entry>, id: nat, tenant: string)
    requires Numbered(journal)
    ensures Numbered(Post(journal, id, tenant))
  {
    var after := Post(journal, id, tenant);
    forall i: nat | i < |after|
      ensures after[i].id == i && after[i].number == |Before(after, i, after[i].tenant)| + 1
    {
      assert Before(after, i, after[i].tenant) == Before(journal, i, after[i].tenant);
    }
  }

  predicate CountsSucceed(ops: seq<Op>) {
    forall i :: 0 <= i < |ops| && ops[i].CreateEntry? ==> ops[i].countOk
  }

  // In every run whose counts succeed the entries of a tenant are numbered 1, 2, 3 and so on
  // in the order of their creation, whatever is refused, posted or created by others.
  lemma {:induction false} RunNumbersEntries(journal: seq<Entry>, ops: seq<Op>)
    requires Numbered(journal) && CountsSucceed(ops) && forall i :: 0 <= i < |ops| ==> Possible(ops[i])
    ensures Numbered(Run(journal, ops))
    decreases |ops|
  {
    if ops != [] {
      match ops[0] {
        case CreateEntry(_, _, _, _, _, _, _) => CreationKeepsNumbersIff(journal, ops[0]);
        case PostEntry(id, tenant) => PostingKeepsNumbers(journal, id, tenant);
      }
      RunNumbersEntries(Exec(journal, ops[0]), ops[1..]);
    }
  }

  // ---- Report queries ------------------------------------------------------------------------

  datatype Filter = Filter(tenant: string, from: int, to: int)

  predicate Selected(e: Entry, f: Filter) {
    e.tenant == f.tenant && f.from <= e.date <= f.to
  }

  const COGS_CODE := "5000"

  // The account conditions of the sums; the last three classify what those sums leave out.
  datatype Query =
    | RevenueLines            // account_type = 'revenue'
    | CogsLines               // code = '5000'
    | OtherExpenseLines       // account_type = 'expense' and code != '5000'
    | ExpenseLines            // account_type = 'expense'
    | Category(name: string, code: string)   // one group of the expense categories
    | NeitherLines            // neither revenue nor expense
    | CogsNotExpense          // code = '5000' on an account that is not an expense
    | Unjoined                // the account does not exist

  predicate Picks(q: Query, chart: Chart, l: Line) {
    if l.account !in chart then q.Unjoined?
    else
      var a := chart[l.account];
      match q
      case RevenueLines => a.accountType.Revenue?
      case CogsLines => a.code == COGS_CODE
      case OtherExpenseLines => a.accountType.Expense? && a.code != COGS_CODE
      case ExpenseLines => a.accountType.Expense?
      case Category(name, code) => a.accountType.Expense? && a.name == name && a.code == code
      case NeitherLines => a.accountType.OtherType?
      case CogsNotExpense => a.code == COGS_CODE && !a.accountType.Expense?
      case Unjoined => false
  }

  function LineAmount(q: Query, chart: Chart, l: Line): int {
    if Picks(q, chart, l) then l.debit - l.credit else 0
  }

  function LinesSum(q: Query, chart: Chart, lines: seq<Line>): int {
    if lines == [] then 0
    else LinesSum(q, chart, lines[..|lines| - 1]) + LineAmount(q, chart, lines[|lines| - 1])
  }

  // COALESCE(SUM(debit - credit), 0) over the joined lines of the selected entries.
  function Sum(q: Query, chart: Chart, journal: seq<Entry>, f: Filter): int {
    if journal == [] then 0
    else
      var e := journal[|journal| - 1];
      Sum(q, chart, journal[..|journal| - 1], f) + if Selected(e, f) then LinesSum(q, chart, e.lines) else 0
  }

  datatype ProfitLoss = ProfitLoss(revenue: int, cogs: int, grossProfit: int, expenses: int, netProfit: int)

  // Revenue is turned positive if its sum is negative.
  function ProfitLossReport(chart: Chart, journal: seq<Entry>, f: Filter): ProfitLoss {
    var sum := Sum(RevenueLines, chart, journal, f);
    var revenue := if sum < 0 then -sum else sum;
    var cogs := Sum(CogsLines, chart, journal, f);
    var expenses := Sum(OtherExpenseLines, chart, journal, f);
    ProfitLoss(revenue, cogs, revenue - cogs, expenses, revenue - cogs - expenses)
  }

  // ---- The profit identity -------------------------------------------------------------------

  lemma {:induction false} LinesPartition(chart: Chart, lines: seq<Line>)
    ensures Net(lines) == LinesSum(RevenueLines, chart, lines) + LinesSum(ExpenseLines, chart, lines) +
                          LinesSum(NeitherLines, chart, lines) + LinesSum(Unjoined, chart, lines)
    ensures LinesSum(CogsLines, chart, lines) + LinesSum(OtherExpenseLines, chart, lines) ==
            LinesSum(ExpenseLines, chart, lines) + LinesSum(CogsNotExpense, chart, lines)
    decreases |lines|
  {
    if lines != [] {
      LinesPartition(chart, lines[..|lines| - 1]);
    }
  }

  lemma {:induction false} SumPartition(chart: Chart, journal: seq<Entry>, f: Filter)
    requires Balanced(journal)
    ensures Sum(RevenueLines, chart, journal, f) + Sum(ExpenseLines, chart, journal, f) +
            Sum(NeitherLines, chart, journal, f) + Sum(Unjoined, chart, journal, f) == 0
    ensures Sum(CogsLines, chart, journal, f) + Sum(OtherExpenseLines, chart, journal, f) ==
            Sum(ExpenseLines, chart, journal, f) + Sum(CogsNotExpense, chart, journal, f)
    decreases |journal|
  {
    if journal != [] {
      SumPartition(chart, journal[..|journal| - 1], f);
      LinesPartition(chart, journal[|journal| - 1].lines);
    }
  }

  // For every reachable journal and period: how far net profit is from the net change of the
  // accounts that are neither revenue nor expense.
  lemma {:induction false} NetProfitGap(chart: Chart, ops: seq<Op>, f: Filter)
    requires forall i :: 0 <= i < |ops| ==> Possible(ops[i]) && AllStored(ops[i])
    ensures
      var journal := Run([], ops);
      var revenue := Sum(RevenueLines, chart, journal, f);
      ProfitLossReport(chart, journal, f).netProfit - Sum(NeitherLines, chart, journal, f) ==
        (if revenue > 0 then 2 * revenue else 0) + Sum(Unjoined, chart, journal, f) - Sum(CogsNotExpense, chart, journal, f)
  {
    RunKeepsBalance([], ops);
    SumPartition(chart, Run([], ops), f);
  }

  // Every line's account exists, and account 5000 is an expense.
  predicate Classified(chart: Chart, journal: seq<Entry>) {
    && (forall i, j :: 0 <= i < |journal| && 0 <= j < |journal[i].lines| ==> journal[i].lines[j].account in chart)
    && (forall id :: id in chart && chart[id].code == COGS_CODE ==> chart[id].accountType.Expense?)
  }

  lemma {:induction false} ClassifiedLines(chart: Chart, lines: seq<Line>)
    requires forall j :: 0 <= j < |lines| ==> lines[j].account in chart
    requires forall id :: id in chart && chart[id].code == COGS_CODE ==> chart[id].accountType.Expense?
    ensures LinesSum(Unjoined, chart, lines) == 0 && LinesSum(CogsNotExpense, chart, lines) == 0
    decreases |lines|
  {
    if lines != [] {
      ClassifiedLines(chart, lines[..|lines| - 1]);
    }
  }

  lemma {:induction false} ClassifiedSums(chart: Chart, journal: seq<Entry>, f: Filter)
    requires Classified(chart, journal)
    ensures Sum(Unjoined, chart, journal, f) == 0 && Sum(CogsNotExpense, chart, journal, f) == 0
    decreases |journal|
  {
    if journal != [] {
      ClassifiedSums(chart, journal[..|journal| - 1], f);
      ClassifiedLines(chart, journal[|journal| - 1].lines);
    }
  }

  // With a classified chart net profit is the net change of the other accounts exactly when
  // revenue is not net debit, and the expense categories make up cogs and expenses.
  lemma {:induction false} ProfitIdentity(chart: Chart, ops: seq<Op>, f: Filter)
    requires forall i :: 0 <= i < |ops| ==> Possible(ops[i]) && AllStored(ops[i])
    requires Classified(chart, Run([], ops))
    ensures
      var journal := Run([], ops);
      var report := ProfitLossReport(chart, journal, f);
      && (report.netProfit == Sum(NeitherLines, chart, journal, f) <==> Sum(RevenueLines, chart, journal, f) <= 0)
      && report.cogs + report.expenses == Sum(ExpenseLines, chart, journal, f)
  {
    NetProfitGap(chart, ops, f);
    ClassifiedSums(chart, Run([], ops), f);
    RunKeepsBalance([], ops);
    SumPartition(chart, Run([], ops), f);
  }

  // ---- Expense categories ----------------------------------------------------------------------

  datatype Key = Key(name: string, code: string)

  function KeyQuery(k: Key): Query {
    Category(k.name, k.code)
  }

  function CategoryTotal(keys: seq<Key>, chart: Chart, journal: seq<Entry>, f: Filter): int {
    if keys == [] then 0 else Sum(KeyQuery(keys[0]), chart, journal, f) + CategoryTotal(keys[1..], chart, journal, f)
  }

  function CategoryLines(keys: seq<Key>, chart: Chart, lines: seq<Line>): int {
    if keys == [] then 0 else LinesSum(KeyQuery(keys[0]), chart, lines) + CategoryLines(keys[1..], chart, lines)
  }

  function CategoryLine(keys: seq<Key>, chart: Chart, l: Line): int {
    if keys == [] then 0 else LineAmount(KeyQuery(keys[0]), chart, l) + CategoryLine(keys[1..], chart, l)
  }

  // The group of an expense line is among keys.
  predicate Grouped(keys: seq<Key>, chart: Chart, l: Line) {
    Picks(ExpenseLines, chart, l) ==> Key(chart[l.account].name, chart[l.account].code) in keys
  }

  lemma {:induction false} CategoryLineOnce(keys: seq<Key>, chart: Chart, l: Line)
    requires Distinct(keys)
    ensures CategoryLine(keys, chart, l) ==
            if Picks(ExpenseLines, chart, l) && Key(chart[l.account].name, chart[l.account].code) in keys
            then l.debit - l.credit else 0
  {
    if keys != [] {
      CategoryLineOnce(keys[1..], chart, l);
      assert forall k :: k in keys <==> k == keys[0] || k in keys[1..];
      assert keys[0] !in keys[1..];
    }
  }

  lemma {:induction false} CategoryLinesAppend(keys: seq<Key>, chart: Chart, lines: seq<Line>, l: Line)
    ensures CategoryLines(keys, chart, lines + [l]) == CategoryLines(keys, chart, lines) + CategoryLine(keys, chart, l)
  {
    if keys != [] {
      CategoryLinesAppend(keys[1..], chart, lines, l);
      assert (lines + [l])[..|lines|] == lines;
    }
  }

  lemma {:induction false} CategoryLinesEmpty(keys: seq<Key>, chart: Chart)
    ensures CategoryLines(keys, chart, []) == 0
  {
    if keys != [] {
      CategoryLinesEmpty(keys[1..], chart);
    }
  }

  lemma {:induction false} GroupedLines(keys: seq<Key>, chart: Chart, lines: seq<Line>)
    requires Distinct(keys) && forall j :: 0 <= j < |lines| ==> Grouped(keys, chart, lines[j])
    ensures CategoryLines(keys, chart, lines) == LinesSum(ExpenseLines, chart, lines)
    decreases |lines|
  {
    if lines == [] {
      CategoryLinesEmpty(keys, chart);
    } else {
      var rest, l := lines[..|lines| - 1], lines[|lines| - 1];
      assert lines == rest + [l];
      GroupedLines(keys, chart, rest);
      CategoryLinesAppend(keys, chart, rest, l);
      CategoryLineOnce(keys, chart, l);
    }
  }

  lemma {:induction false} CategoryTotalAppend(keys: seq<Key>, chart: Chart, journal: seq<Entry>, e: Entry, f: Filter)
    ensures CategoryTotal(keys, chart, journal + [e], f) ==
            CategoryTotal(keys, chart, journal, f) + if Selected(e, f) then CategoryLines(keys, chart, e.lines) else 0
  {
    if keys != [] {
      CategoryTotalAppend(keys[1..], chart, journal, e, f);
      assert (journal + [e])[..|journal|] == journal;
    }
  }

  lemma {:induction false} CategoryTotalEmpty(keys: seq<Key>, chart: Chart, f: Filter)
    ensures CategoryTotal(keys, chart, [], f) == 0
  {
    if keys != [] {
      CategoryTotalEmpty(keys[1..], chart, f);
    }
  }

  // keys are groups of the expense query: distinct, and every selected expense line is in one.
  ghost predicate GroupsOf(keys: seq<Key>, chart: Chart, journal: seq<Entry>, f: Filter) {
    && Distinct(keys)
    && forall i, j :: 0 <= i < |journal| && Selected(journal[i], f) && 0 <= j < |journal[i].lines| ==>
         Grouped(keys, chart, journal[i].lines[j])
  }

  // Grouping loses and duplicates nothing: the categories add up to the expense lines.
  lemma {:induction false} CategoriesSumToExpenses(keys: seq<Key>, chart: Chart, journal: seq<Entry>, f: Filter)
    requires GroupsOf(keys, chart, journal, f)
    ensures CategoryTotal(keys, chart, journal, f) == Sum(ExpenseLines, chart, journal, f)
    decreases |journal|
  {
    if journal == [] {
      CategoryTotalEmpty(keys, chart, f);
    } else {
      var rest, e := journal[..|journal| - 1], journal[|journal| - 1];
      assert journal == rest + [e];
      assert forall i :: 0 <= i < |rest| ==> rest[i] == journal[i];
      CategoriesSumToExpenses(keys, chart, rest, f);
      CategoryTotalAppend(keys, chart, rest, e, f);
      if Selected(e, f) {
        GroupedLines(keys, chart, e.lines);
      }
    }
  }

  // The expense categories add up to the cogs and expenses of the profit and loss report
  // exactly when the lines on code 5000 outside the expense accounts cancel out.
  lemma {:induction false} CategoriesMatchReport(keys: seq<Key>, chart: Chart, ops: seq<Op>, f: Filter)
    requires forall i :: 0 <= i < |ops| ==> Possible(ops[i]) && AllStored(ops[i])
    requires GroupsOf(keys, chart, Run([], ops), f)
    ensures
      var journal := Run([], ops);
      var report := ProfitLossReport(chart, journal, f);
      CategoryTotal(keys, chart, journal, f) == report.cogs + report.expenses <==> Sum(CogsNotExpense, chart, journal, f) == 0
  {
    RunKeepsBalance([], ops);
    SumPartition(chart, Run([], ops), f);
    CategoriesSumToExpenses(keys, chart, Run([], ops), f);
  }

  // ---- Posting ---------------------------------------------------------------------------------

  lemma {:induction false} PostingKeepsSum(q: Query, chart: Chart, journal: seq<Entry>, f: Filter, id: nat, tenant: string)
    ensures Sum(q, chart, Post(journal, id, tenant), f) == Sum(q, chart, journal, f)
    decreases |journal|
  {
    if journal != [] {
      var n := |journal| - 1;
      assert Post(journal, id, tenant)[..n] == Post(journal[..n], id, tenant);
      PostingKeepsSum(q, chart, journal[..n], f, id, tenant);
    }
  }

  // Drafts and posted entries count alike: posting changes no report.
  lemma PostingKeepsReports(chart: Chart, journal: seq<Entry>, f: Filter, id: nat, tenant: string)
    ensures ProfitLossReport(chart, Post(journal, id, tenant), f) == ProfitLossReport(chart, journal, f)
  {
    PostingKeepsSum(RevenueLines, chart, journal, f, id, tenant);
    PostingKeepsSum(CogsLines, chart, journal, f, id, tenant);
    PostingKeepsSum(OtherExpenseLines, chart, journal, f, id, tenant);
  }
}
