/** The finance page's `fetchData`: from the transaction rows of the selected period it
    computes total income, total expenses, the balance, the expense sum of each
    category and an income/expense pair per transaction date. Amounts are integer
    cents and dates are day numbers. */
module Finances {
  import opened Common
  import opened Grouping
  import Auth

  /** The `finance_type` enumeration: "income" | "expense". */
  datatype FinanceType = Income | Expense

  /** A row of the `finances` table, with the columns the page uses. */
  datatype Row = Row(userId: string, amount: int, kind: FinanceType, category: string, date: int)

  /** One slice of the category chart. */
  datatype CategoryEntry = CategoryEntry(name: string, value: int)

  /** One point of the daily flow chart. */
  datatype DailyEntry = DailyEntry(date: int, income: int, expense: int)

  /** The value kept per date in `dailyMap`. */
  datatype DayTotals = DayTotals(income: int, expense: int)

  /** The page's `data` state. */
  datatype FinanceData = FinanceData(balance: int, totalIncome: int, totalExpenses: int,
                                     categoryData: seq<CategoryEntry>, dailyData: seq<DailyEntry>)

  /** The state before the first fetch completes. */
  const NoFinanceData := FinanceData(0, 0, 0, [], [])

  // ---------------------------------------------------------------------------
  // Row projections, used as the keys and values of the reductions

  function AmountOf(r: Row): int { r.amount }
  function CategoryOf(r: Row): string { r.category }
  function DateOf(r: Row): int { r.date }
  predicate IsIncome(r: Row) { r.kind == Income }
  predicate IsExpense(r: Row) { r.kind == Expense }
  /** What a row adds to its day's income: the `if (f.type === "income")` branch. */
  function IncomePart(r: Row): int { if IsIncome(r) then r.amount else 0 }
  /** What a row adds to its day's expense: the `else` branch, taken by every row that
      is not income. */
  function ExpensePart(r: Row): int { if IsIncome(r) then 0 else r.amount }
  function ValueOf(e: CategoryEntry): int { e.value }
  function IncomeOf(e: DailyEntry): int { e.income }
  function ExpenseOf(e: DailyEntry): int { e.expense }

  // ---------------------------------------------------------------------------
  // Specification

  /** `finances.filter(f => f.type === "income").reduce(..., 0)`. */
  function TotalIncome(rows: seq<Row>): int {
    Total(Filter(rows, IsIncome), AmountOf)
  }

  /** `finances.filter(f => f.type === "expense").reduce(..., 0)`. */
  function TotalExpenses(rows: seq<Row>): int {
    Total(Filter(rows, IsExpense), AmountOf)
  }

  /** One entry per name of `names`, carrying its sum over `expenses`. */
  function CategoryTable(names: seq<string>, expenses: seq<Row>): (t: seq<CategoryEntry>)
    ensures |t| == |names|
    ensures forall i :: 0 <= i < |t| ==>
              t[i].name == names[i] && t[i].value == SumWhere(expenses, CategoryOf, AmountOf, names[i])
    decreases |names|
  {
    if names == [] then []
    else
      var n := names[|names| - 1];
      CategoryTable(names[..|names| - 1], expenses) + [CategoryEntry(n, SumWhere(expenses, CategoryOf, AmountOf, n))]
  }

  /** `categoryData`: the expense categories in first-occurrence order, each with its sum. */
  function CategoryData(rows: seq<Row>): seq<CategoryEntry> {
    var expenses := Filter(rows, IsExpense);
    CategoryTable(KeyOrder(expenses, CategoryOf), expenses)
  }

  /** One entry per date of `dates`, carrying its income and expense sums over `rows`. */
  function DailyTable(dates: seq<int>, rows: seq<Row>): (t: seq<DailyEntry>)
    ensures |t| == |dates|
    ensures forall i :: 0 <= i < |t| ==>
              && t[i].date == dates[i]
              && t[i].income == SumWhere(rows, DateOf, IncomePart, dates[i])
              && t[i].expense == SumWhere(rows, DateOf, ExpensePart, dates[i])
    decreases |dates|
  {
    if dates == [] then []
    else
      var d := dates[|dates| - 1];
      DailyTable(dates[..|dates| - 1], rows)
        + [DailyEntry(d, SumWhere(rows, DateOf, IncomePart, d), SumWhere(rows, DateOf, ExpensePart, d))]
  }

  /** `dailyData`: the transaction dates in first-occurrence order, each with its sums. */
  function DailyData(rows: seq<Row>): seq<DailyEntry> {
    DailyTable(KeyOrder(rows, DateOf), rows)
  }

  /** What `setData` receives for a non-null reply. */
  function Summary(rows: seq<Row>): FinanceData {
    FinanceData(TotalIncome(rows) - TotalExpenses(rows), TotalIncome(rows), TotalExpenses(rows),
                CategoryData(rows), DailyData(rows))
  }

  /** The balance card's variant. */
  datatype Variant = Health | Default

  function BalanceVariant(balance: int): (v: Variant)
    ensures v == Health <==> balance >= 0
  {
    if balance >= 0 then Health else Default
  }

  // ---------------------------------------------------------------------------
  // Properties

  /** Summing a filtered list equals summing every row's share, the share being the
      amount of the rows that pass and nothing for the others. */
  lemma {:induction false} FilteredTotal(rows: seq<Row>, p: Row -> bool, part: Row -> int)
    requires forall r :: part(r) == if p(r) then r.amount else 0
    ensures Total(Filter(rows, p), AmountOf) == Total(rows, part)
    decreases |rows|
  {
    if rows != [] {
      var init := rows[..|rows| - 1];
      var last := rows[|rows| - 1];
      FilteredTotal(init, p, part);
      assert rows == init + [last];
      TotalSnoc(init, last, part);
      var f := Filter(init, p);
      if p(last) {
        assert Filter(rows, p) == f + [last];
        TotalSnoc(f, last, AmountOf);
      } else {
        assert Filter(rows, p) == f;
      }
    }
  }

  /** `balance = totalIncome - totalExpenses`, where each total is the sum of the
      amounts of the rows of its type. */
  lemma SummaryTotals(rows: seq<Row>)
    ensures Summary(rows).totalIncome == Total(rows, IncomePart)
    ensures Summary(rows).totalExpenses == Total(rows, ExpensePart)
    ensures Summary(rows).balance == Summary(rows).totalIncome - Summary(rows).totalExpenses
  {
    FilteredTotal(rows, IsIncome, IncomePart);
    FilteredTotal(rows, IsExpense, ExpensePart);
  }

  /** The names of the category chart, in order. */
  function Names(c: seq<CategoryEntry>): (ns: seq<string>)
    ensures |ns| == |c| && forall i :: 0 <= i < |c| ==> ns[i] == c[i].name
  {
    seq(|c|, i requires 0 <= i < |c| => c[i].name)
  }

  /** The dates of the daily chart, in order. */
  function Dates(d: seq<DailyEntry>): (ds: seq<int>)
    ensures |ds| == |d| && forall i :: 0 <= i < |d| ==> ds[i] == d[i].date
  {
    seq(|d|, i requires 0 <= i < |d| => d[i].date)
  }

  /** The category names are the key order of the expense rows by category. */
  lemma CategoryNames(rows: seq<Row>)
    ensures Names(CategoryData(rows)) == KeyOrder(Filter(rows, IsExpense), CategoryOf)
  {
  }

  /** No category appears twice in `categoryData`. */
  lemma CategoryNamesDistinct(rows: seq<Row>)
    ensures forall i, j :: 0 <= i < j < |CategoryData(rows)| ==> CategoryData(rows)[i].name != CategoryData(rows)[j].name
  {
    CategoryNames(rows);
    KeyOrderDistinct(Filter(rows, IsExpense), CategoryOf);
  }

  /** Each value of `categoryData` is the sum of the amounts of the expense rows of that
      category. */
  lemma CategoryValues(rows: seq<Row>)
    ensures forall i :: 0 <= i < |CategoryData(rows)| ==>
              CategoryData(rows)[i].value == SumWhere(Filter(rows, IsExpense), CategoryOf, AmountOf, CategoryData(rows)[i].name)
  {
  }

  /** Only expense rows contribute: every name is the category of an expense row. */
  lemma CategoryNamesFromExpenses(rows: seq<Row>)
    ensures forall i :: 0 <= i < |CategoryData(rows)| ==>
              exists k :: 0 <= k < |rows| && rows[k].kind == Expense && rows[k].category == CategoryData(rows)[i].name
  {
    var expenses := Filter(rows, IsExpense);
    var c := CategoryData(rows);
    CategoryNames(rows);
    forall i | 0 <= i < |c|
      ensures exists k :: 0 <= k < |rows| && rows[k].kind == Expense && rows[k].category == c[i].name
    {
      var names := KeyOrder(expenses, CategoryOf);
      assert Names(c)[i] == c[i].name;
      assert names[i] in names;
      KeyOrderMembers(expenses, CategoryOf, c[i].name);
      var e :| 0 <= e < |expenses| && CategoryOf(expenses[e]) == c[i].name;
      var x := expenses[e];
      assert x in rows && IsExpense(x);
      var k :| 0 <= k < |rows| && rows[k] == x;
    }
  }

  /** Every expense row's category has an entry. */
  lemma CategoryNamesCoverExpenses(rows: seq<Row>)
    ensures forall k :: 0 <= k < |rows| && rows[k].kind == Expense ==>
              exists i :: 0 <= i < |CategoryData(rows)| && CategoryData(rows)[i].name == rows[k].category
  {
    var expenses := Filter(rows, IsExpense);
    var c := CategoryData(rows);
    CategoryNames(rows);
    forall k | 0 <= k < |rows| && rows[k].kind == Expense
      ensures exists i :: 0 <= i < |c| && c[i].name == rows[k].category
    {
      var names := KeyOrder(expenses, CategoryOf);
      assert IsExpense(rows[k]);
      assert rows[k] in expenses;
      var e :| 0 <= e < |expenses| && expenses[e] == rows[k];
      assert CategoryOf(expenses[e]) == rows[k].category;
      KeyOrderMembers(expenses, CategoryOf, rows[k].category);
      var i :| 0 <= i < |names| && names[i] == rows[k].category;
      assert Names(c)[i] == c[i].name;
    }
  }

  /** First-occurrence order: the categories met in any prefix of the rows come first,
      in the same order. */
  lemma CategoryOrder(rows: seq<Row>, m: nat)
    requires m <= |rows|
    ensures Names(CategoryData(rows[..m])) <= Names(CategoryData(rows))
  {
    var head := Filter(rows[..m], IsExpense);
    var all := Filter(rows, IsExpense);
    assert rows == rows[..m] + rows[m..];
    FilterConcat(rows[..m], rows[m..], IsExpense);
    assert all[..|head|] == head;
    KeyOrderPrefix(all, CategoryOf, |head|);
    CategoryNames(rows[..m]);
    CategoryNames(rows);
  }

  /** Conservation: the category values add up to `totalExpenses`. */
  lemma CategoryConservation(rows: seq<Row>)
    ensures Total(CategoryData(rows), ValueOf) == TotalExpenses(rows)
  {
    var expenses := Filter(rows, IsExpense);
    TotalOfTable(CategoryData(rows), ValueOf, KeyOrder(expenses, CategoryOf), expenses, CategoryOf, AmountOf);
    GroupsConserve(expenses, CategoryOf, AmountOf);
  }

  /** An income row leaves `categoryData` as it was. */
  lemma IncomeRowsIgnored(rows: seq<Row>, r: Row)
    requires r.kind == Income
    ensures CategoryData(rows + [r]) == CategoryData(rows)
  {
    assert (rows + [r])[..|rows|] == rows;
    assert Filter(rows + [r], IsExpense) == Filter(rows, IsExpense);
  }

  /** The dates of `dailyData` are the key order of the rows by date. */
  lemma DailyDates(rows: seq<Row>)
    ensures Dates(DailyData(rows)) == KeyOrder(rows, DateOf)
  {
  }

  /** No date appears twice in `dailyData`. */
  lemma DailyDatesDistinct(rows: seq<Row>)
    ensures forall i, j :: 0 <= i < j < |DailyData(rows)| ==> DailyData(rows)[i].date != DailyData(rows)[j].date
  {
    DailyDates(rows);
    KeyOrderDistinct(rows, DateOf);
  }

  /** Every date of `dailyData` is some row's date. */
  lemma DailyDatesFromRows(rows: seq<Row>)
    ensures forall i :: 0 <= i < |DailyData(rows)| ==> exists k :: 0 <= k < |rows| && rows[k].date == DailyData(rows)[i].date
  {
    var dates := KeyOrder(rows, DateOf);
    var d := DailyData(rows);
    DailyDates(rows);
    forall i | 0 <= i < |d|
      ensures exists k :: 0 <= k < |rows| && rows[k].date == d[i].date
    {
      assert Dates(d)[i] == d[i].date;
      assert dates[i] in dates;
      KeyOrderMembers(rows, DateOf, d[i].date);
      var k :| 0 <= k < |rows| && DateOf(rows[k]) == d[i].date;
    }
  }

  /** Every row's date has an entry in `dailyData`. */
  lemma DailyDatesCoverRows(rows: seq<Row>)
    ensures forall k :: 0 <= k < |rows| ==> exists i :: 0 <= i < |DailyData(rows)| && DailyData(rows)[i].date == rows[k].date
  {
    var dates := KeyOrder(rows, DateOf);
    var d := DailyData(rows);
    DailyDates(rows);
    forall k | 0 <= k < |rows|
      ensures exists i :: 0 <= i < |d| && d[i].date == rows[k].date
    {
      KeyOrderMembers(rows, DateOf, rows[k].date);
      assert DateOf(rows[k]) == rows[k].date;
      var i :| 0 <= i < |dates| && dates[i] == rows[k].date;
      assert Dates(d)[i] == d[i].date;
    }
  }

  /** First-occurrence order of the dates. */
  lemma DailyOrder(rows: seq<Row>, m: nat)
    requires m <= |rows|
    ensures Dates(DailyData(rows[..m])) <= Dates(DailyData(rows))
  {
    KeyOrderPrefix(rows, DateOf, m);
    DailyDates(rows[..m]);
    DailyDates(rows);
  }

  /** Conservation: across all days the income entries add up to `totalIncome`, and the
      expense entries to the sum over the non-income rows, which is `totalExpenses`. */
  lemma DailyConservation(rows: seq<Row>)
    ensures Total(DailyData(rows), IncomeOf) == TotalIncome(rows)
    ensures Total(DailyData(rows), ExpenseOf) == Total(rows, ExpensePart) == TotalExpenses(rows)
  {
    var dates := KeyOrder(rows, DateOf);
    TotalOfTable(DailyData(rows), IncomeOf, dates, rows, DateOf, IncomePart);
    TotalOfTable(DailyData(rows), ExpenseOf, dates, rows, DateOf, ExpensePart);
    GroupsConserve(rows, DateOf, IncomePart);
    GroupsConserve(rows, DateOf, ExpensePart);
    SummaryTotals(rows);
  }

  // ---------------------------------------------------------------------------
  // The query

  /** The filters of the `finances` query: the user's rows whose `transaction_date`
      lies in the selected period, both ends included. */
  predicate Requested(r: Row, userId: string, from: int, to: int) {
    r.userId == userId && from <= r.date <= to
  }

  /** The rows the page asks for, from a table already in ascending date order (the
      query's `order("transaction_date", { ascending: true })`). */
  function Query(table: seq<Row>, userId: string, from: int, to: int): seq<Row> {
    Filter(table, RequestedBy(userId, from, to))
  }

  function RequestedBy(userId: string, from: int, to: int): Row -> bool {
    r => Requested(r, userId, from, to)
  }

  /** Rows in ascending date order give strictly ascending chart days. */
  lemma DailyAscending(rows: seq<Row>)
    requires forall i, j :: 0 <= i < j < |rows| ==> rows[i].date <= rows[j].date
    ensures forall i, j :: 0 <= i < j < |DailyData(rows)| ==> DailyData(rows)[i].date < DailyData(rows)[j].date
  {
    assert forall i, j :: 0 <= i < j < |rows| ==> DateOf(rows[i]) <= DateOf(rows[j]);
    KeyOrderAscending(rows, DateOf);
    DailyDates(rows);
  }

  /** Chart days are dates of rows, so bounds on the rows' dates bound them too. */
  lemma DailyWithin(rows: seq<Row>, from: int, to: int)
    requires forall k :: 0 <= k < |rows| ==> from <= rows[k].date <= to
    ensures forall i :: 0 <= i < |DailyData(rows)| ==> from <= DailyData(rows)[i].date <= to
  {
    DailyDatesFromRows(rows);
  }

  /** Every row of the reply lies in the period, and so does every chart day. */
  lemma QueriedDaysInPeriod(table: seq<Row>, userId: string, from: int, to: int)
    ensures forall k :: 0 <= k < |Query(table, userId, from, to)| ==>
              Requested(Query(table, userId, from, to)[k], userId, from, to)
    ensures forall i :: 0 <= i < |DailyData(Query(table, userId, from, to))| ==>
              from <= DailyData(Query(table, userId, from, to))[i].date <= to
  {
    var rows := Query(table, userId, from, to);
    assert forall k :: 0 <= k < |rows| ==> RequestedBy(userId, from, to)(rows[k]);
    DailyWithin(rows, from, to);
  }

  /** For the reply to that query, the chart's days are strictly ascending. */
  lemma QueriedDaysAscending(table: seq<Row>, userId: string, from: int, to: int)
    requires forall i, j :: 0 <= i < j < |table| ==> table[i].date <= table[j].date
    ensures var d := DailyData(Query(table, userId, from, to));
            forall i, j :: 0 <= i < j < |d| ==> d[i].date < d[j].date
  {
    assert forall i, j :: 0 <= i < j < |table| ==> DateOf(table[i]) <= DateOf(table[j]);
    FilterKeepsSorted(table, RequestedBy(userId, from, to), DateOf);
    var rows := Query(table, userId, from, to);
    assert forall i, j :: 0 <= i < j < |rows| ==> DateOf(rows[i]) <= DateOf(rows[j]);
    DailyAscending(rows);
  }

  // ---------------------------------------------------------------------------
  // The imperative reductions

  /** `categoryMap` after the expense rows `seen`, with `order` its key order. */
  ghost predicate CategoryMapAfter(seen: seq<Row>, order: seq<string>, categoryMap: map<string, int>) {
    && order == KeyOrder(seen, CategoryOf)
    && (forall k :: k in categoryMap <==> k in order)
    && (forall j :: 0 <= j < |order| ==> order[j] in categoryMap)
    && (forall k :: k in categoryMap ==> categoryMap[k] == SumWhere(seen, CategoryOf, AmountOf, k))
  }

  /** One `forEach` step: `categoryMap.set(f.category, (get(f.category) || 0) + f.amount)`. */
  lemma CategoryMapStep(seen: seq<Row>, order: seq<string>, categoryMap: map<string, int>, f: Row,
                        order': seq<string>, categoryMap': map<string, int>)
    requires CategoryMapAfter(seen, order, categoryMap)
    requires order' == if f.category in categoryMap then order else order + [f.category]
    requires categoryMap' == categoryMap[f.category := (if f.category in categoryMap then categoryMap[f.category] else 0) + f.amount]
    ensures CategoryMapAfter(seen + [f], order', categoryMap')
  {
    KeyOrderSnoc(seen, f, CategoryOf);
    if f.category !in categoryMap {
      SumWhereAbsent(seen, CategoryOf, AmountOf, f.category);
    }
    forall k | k in categoryMap'
      ensures categoryMap'[k] == SumWhere(seen + [f], CategoryOf, AmountOf, k)
    {
      SumWhereSnoc(seen, f, CategoryOf, AmountOf, k);
    }
    forall j | 0 <= j < |order'|
      ensures order'[j] in categoryMap'
    {
      if j < |order| {
        assert order'[j] == order[j];
      }
    }
  }

  /** The finished `categoryMap` has an entry for each key, holding its sum. */
  lemma CategoryMapListed(seen: seq<Row>, order: seq<string>, categoryMap: map<string, int>)
    requires CategoryMapAfter(seen, order, categoryMap)
    ensures forall j :: 0 <= j < |order| ==> order[j] in categoryMap
    ensures forall j :: 0 <= j < |order| ==> categoryMap[order[j]] == SumWhere(seen, CategoryOf, AmountOf, order[j])
  {
  }

  /** Builds `categoryMap` with `forEach`/`Map.set` over the expense rows and lists its
      entries (`Array.from(categoryMap.entries())`). `order` is the map's key order. */
  method CategoryBreakdown(rows: seq<Row>) returns (entries: seq<CategoryEntry>)
    ensures entries == CategoryData(rows)
  {
    var expenses := Filter(rows, IsExpense);
    var order: seq<string> := [];
    var categoryMap: map<string, int> := map[];
    for i := 0 to |expenses|
      invariant CategoryMapAfter(expenses[..i], order, categoryMap)
    {
      var f := expenses[i];
      assert expenses[..i + 1] == expenses[..i] + [f];
      ghost var order0, map0 := order, categoryMap;
      var current := if f.category in categoryMap then categoryMap[f.category] else 0;
      if f.category !in categoryMap {
        order := order + [f.category];
      }
      categoryMap := categoryMap[f.category := current + f.amount];
      CategoryMapStep(expenses[..i], order0, map0, f, order, categoryMap);
    }
    assert expenses[..|expenses|] == expenses;
    CategoryMapListed(expenses, order, categoryMap);
    entries := CategoryEntries(order, categoryMap, expenses);
  }

  /** `Array.from(categoryMap.entries()).map(([name, value]) => ({ name, value }))`. */
  method CategoryEntries(order: seq<string>, categoryMap: map<string, int>, expenses: seq<Row>)
    returns (entries: seq<CategoryEntry>)
    requires forall j :: 0 <= j < |order| ==> order[j] in categoryMap
    requires forall j :: 0 <= j < |order| ==> categoryMap[order[j]] == SumWhere(expenses, CategoryOf, AmountOf, order[j])
    ensures entries == CategoryTable(order, expenses)
  {
    entries := [];
    for j := 0 to |order|
      invariant entries == CategoryTable(order[..j], expenses)
    {
      assert order[..j + 1][..j] == order[..j];
      entries := entries + [CategoryEntry(order[j], categoryMap[order[j]])];
    }
    assert order[..|order|] == order;
  }

  /** `dailyMap` after the rows `seen`, with `order` its key order. */
  ghost predicate DailyMapAfter(seen: seq<Row>, order: seq<int>, dailyMap: map<int, DayTotals>) {
    && order == KeyOrder(seen, DateOf)
    && (forall k :: k in dailyMap <==> k in order)
    && (forall j :: 0 <= j < |order| ==> order[j] in dailyMap)
    && (forall k :: k in dailyMap ==>
          && dailyMap[k].income == SumWhere(seen, DateOf, IncomePart, k)
          && dailyMap[k].expense == SumWhere(seen, DateOf, ExpensePart, k))
  }

  /** What one `forEach` step stores for the row's date. */
  function DayAfter(current: DayTotals, f: Row): DayTotals {
    if f.kind == Income then current.(income := current.income + f.amount)
    else current.(expense := current.expense + f.amount)
  }

  /** One `forEach` step: add the row to its date's totals and `set` them. */
  lemma DailyMapStep(seen: seq<Row>, order: seq<int>, dailyMap: map<int, DayTotals>, f: Row,
                     order': seq<int>, dailyMap': map<int, DayTotals>)
    requires DailyMapAfter(seen, order, dailyMap)
    requires order' == if f.date in dailyMap then order else order + [f.date]
    requires dailyMap' == dailyMap[f.date := DayAfter(if f.date in dailyMap then dailyMap[f.date] else DayTotals(0, 0), f)]
    ensures DailyMapAfter(seen + [f], order', dailyMap')
  {
    KeyOrderSnoc(seen, f, DateOf);
    if f.date !in dailyMap {
      SumWhereAbsent(seen, DateOf, IncomePart, f.date);
      SumWhereAbsent(seen, DateOf, ExpensePart, f.date);
    }
    forall k | k in dailyMap'
      ensures && dailyMap'[k].income == SumWhere(seen + [f], DateOf, IncomePart, k)
              && dailyMap'[k].expense == SumWhere(seen + [f], DateOf, ExpensePart, k)
    {
      SumWhereSnoc(seen, f, DateOf, IncomePart, k);
      SumWhereSnoc(seen, f, DateOf, ExpensePart, k);
    }
    forall j | 0 <= j < |order'|
      ensures order'[j] in dailyMap'
    {
      if j < |order| {
        assert order'[j] == order[j];
      }
    }
  }

  /** The finished `dailyMap` has an entry for each key, holding its sums. */
  lemma DailyMapListed(seen: seq<Row>, order: seq<int>, dailyMap: map<int, DayTotals>)
    requires DailyMapAfter(seen, order, dailyMap)
    ensures forall j :: 0 <= j < |order| ==> order[j] in dailyMap
    ensures forall j :: 0 <= j < |order| ==>
              && dailyMap[order[j]].income == SumWhere(seen, DateOf, IncomePart, order[j])
              && dailyMap[order[j]].expense == SumWhere(seen, DateOf, ExpensePart, order[j])
  {
    forall j | 0 <= j < |order|
      ensures && dailyMap[order[j]].income == SumWhere(seen, DateOf, IncomePart, order[j])
              && dailyMap[order[j]].expense == SumWhere(seen, DateOf, ExpensePart, order[j])
    {
      var k := order[j];
      assert k in dailyMap;
    }
  }

  /** Builds `dailyMap` with `forEach` over all rows, adding each amount to its date's
      income when the row is income and to its expense otherwise, and lists its entries. */
  method DailyBreakdown(rows: seq<Row>) returns (entries: seq<DailyEntry>)
    ensures entries == DailyData(rows)
  {
    var order: seq<int> := [];
    var dailyMap: map<int, DayTotals> := map[];
    for i := 0 to |rows|
      invariant DailyMapAfter(rows[..i], order, dailyMap)
    {
      var f := rows[i];
      assert rows[..i + 1] == rows[..i] + [f];
      ghost var order0, map0 := order, dailyMap;
      var current := if f.date in dailyMap then dailyMap[f.date] else DayTotals(0, 0);
      if f.date !in dailyMap {
        order := order + [f.date];
      }
      if f.kind == Income {
        current := current.(income := current.income + f.amount);
      } else {
        current := current.(expense := current.expense + f.amount);
      }
      dailyMap := dailyMap[f.date := current];
      DailyMapStep(rows[..i], order0, map0, f, order, dailyMap);
    }
    assert rows[..|rows|] == rows;
    DailyMapListed(rows, order, dailyMap);
    entries := DailyEntries(order, dailyMap, rows);
  }

  /** `Array.from(dailyMap.entries()).map(([date, values]) => ({ date, ... }))`. */
  method DailyEntries(order: seq<int>, dailyMap: map<int, DayTotals>, rows: seq<Row>)
    returns (entries: seq<DailyEntry>)
    requires forall j :: 0 <= j < |order| ==> order[j] in dailyMap
    requires forall j :: 0 <= j < |order| ==>
               && dailyMap[order[j]].income == SumWhere(rows, DateOf, IncomePart, order[j])
               && dailyMap[order[j]].expense == SumWhere(rows, DateOf, ExpensePart, order[j])
    ensures entries == DailyTable(order, rows)
  {
    entries := [];
    for j := 0 to |order|
      invariant entries == DailyTable(order[..j], rows)
    {
      assert order[..j + 1][..j] == order[..j];
      var values := dailyMap[order[j]];
      entries := entries + [DailyEntry(order[j], values.income, values.expense)];
    }
    assert order[..|order|] == order;
  }

  /** The body of the `try` after a non-null reply: totals, balance and both charts. */
  method Summarize(rows: seq<Row>) returns (d: FinanceData)
    ensures d == Summary(rows)
  {
    var totalIncome := TotalIncome(rows);
    var totalExpenses := TotalExpenses(rows);
    var balance := totalIncome - totalExpenses;
    var categoryData := CategoryBreakdown(rows);
    var dailyData := DailyBreakdown(rows);
    d := FinanceData(balance, totalIncome, totalExpenses, categoryData, dailyData);
  }

  // ---------------------------------------------------------------------------
  // The page state

  class FinancesPage {
    var data: FinanceData
    var loading: bool

    constructor ()
      ensures data == NoFinanceData && loading
    {
      data := NoFinanceData;
      loading := true;
    }

    /** `fetchData` with the store's reply: without a user it returns before the `try`
        and touches nothing (so `loading` stays as it was); otherwise `loading` ends
        false, and `data` is replaced only for a non-null reply. */
    method FetchData(user: Option<Auth.User>, reply: Fetched<Row>)
      modifies this
      ensures user.None? ==> data == old(data) && loading == old(loading)
      ensures user.Some? ==> !loading
      ensures user.Some? ==> data == if reply.Rows? then Summary(reply.rows) else old(data)
    {
      if user.None? {
        return;
      }
      if reply.Rows? {
        data := Summarize(reply.rows);
      }
      loading := false;
    }
  }
}
