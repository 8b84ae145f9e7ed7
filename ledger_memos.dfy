/** The derived figures of the expense ledger page (app/app/page.tsx): the
    monthly totals and their six-month window, the category breakdown of the
    active month and of each month of the window, the previous month's total
    and the percentage change, the five most recent expenses, the recurring
    total and the end-of-month prediction. Records filled in `forEach` loops
    are held as Dafny maps with their key order beside them. */
module LedgerMemos {

  import opened Common
  import opened Text
  import opened Sorting
  import opened Types
  import opened JsDate
  import Format
  import ExpenseUtils

  /** The fallback of `getCategory` for an id no category has. */
  const OtherCategory := Category("other", "Other", "#6b7280", None)

  /** `getCategory`: the first category with that id, or "Other". */
  function CategoryOf(categories: seq<Category>, id: string): (r: Category)
    ensures (exists c :: c in categories && c.id == id) ==> r in categories && r.id == id
    ensures (forall c :: c in categories ==> c.id != id) ==> r == OtherCategory
  {
    match ExpenseUtils.FindCategory(categories, id)
    case Some(c) => c
    case None => OtherCategory
  }

  function ExpenseMonth(e: Expense): string {
    Format.MonthKey(e.date)
  }

  function ExpenseCategory(e: Expense): string {
    e.category
  }

  function ExpenseDate(e: Expense): string {
    e.date
  }

  function ExpenseAmount(e: Expense): int {
    e.amount
  }

  /** `activeMonthExpenses`: the expenses whose month key is the active month. */
  function ActiveMonthExpenses(expenses: seq<Expense>, activeMonth: string): seq<Expense> {
    KeyFilter(expenses, ExpenseMonth, activeMonth)
  }

  /** `activeMonthTotal`. */
  function MonthTotalOf(expenses: seq<Expense>, month: string): int {
    SumOf(ActiveMonthExpenses(expenses, month), ExpenseAmount)
  }

  // ---------------------------------------------------------------------------
  // monthlyData

  datatype MonthTotal = MonthTotal(month: string, total: int)

  /** `Object.entries(data)` for keys `ks` of the record `sums`. */
  function MonthRows(ks: seq<string>, sums: map<string, int>): (r: seq<MonthTotal>)
    ensures |r| == |ks|
  {
    seq(|ks|, i requires 0 <= i < |ks| => MonthTotal(ks[i], Get(sums, ks[i])))
  }

  /** `([a], [b]) => a.localeCompare(b)`, read as "a may come first". */
  predicate MonthFirst(a: MonthTotal, b: MonthTotal) {
    LexLe(a.month, b.month)
  }

  lemma MonthFirstOrder()
    ensures TotalPreorder(MonthFirst)
  {
    forall a, b ensures MonthFirst(a, b) || MonthFirst(b, a) {
      LexLeTotal(a.month, b.month);
    }
    forall a, b, c | MonthFirst(a, b) && MonthFirst(b, c) ensures MonthFirst(a, c) {
      LexLeTransitive(a.month, b.month, c.month);
    }
  }

  /** `.slice(-n)`: the last `n` elements, or all of them when there are fewer. */
  function LastN<T>(s: seq<T>, n: nat): (r: seq<T>)
    ensures |r| == if |s| < n then |s| else n
    ensures r == s[|s| - |r|..]
  {
    if |s| <= n then s else s[|s| - n..]
  }

  /** The month totals sorted by month key, before the window is taken. */
  function SortedMonths(expenses: seq<Expense>): seq<MonthTotal> {
    SortBy(MonthRows(KeyOrder(expenses, ExpenseMonth), Totals(expenses, ExpenseMonth, ExpenseAmount)), MonthFirst)
  }

  /** `monthlyData`: the total of each month key, ascending, the last six. */
  function MonthlyDataOf(expenses: seq<Expense>): seq<MonthTotal> {
    LastN(SortedMonths(expenses), 6)
  }

  /** The memo's loop, the entries, the sort and the window. */
  method MonthlyData(expenses: seq<Expense>) returns (r: seq<MonthTotal>)
    ensures r == MonthlyDataOf(expenses)
  {
    var order, data := OrderedSums(expenses, ExpenseMonth, ExpenseAmount);
    var entries := MonthRows(order, data);
    var sorted := SortBy(entries, MonthFirst);
    r := if |sorted| <= 6 then sorted else sorted[|sorted| - 6..];
  }

  lemma SortedMonthsSorted(expenses: seq<Expense>)
    ensures SortedBy(SortedMonths(expenses), MonthFirst)
  {
    MonthFirstOrder();
  }

  /** Every month row holds its key's total. */
  ghost predicate TotalsOfMonths(expenses: seq<Expense>, s: seq<MonthTotal>) {
    forall x :: x in s ==>
      x.month in KeysOf(expenses, ExpenseMonth) && x.total == SumOf(ActiveMonthExpenses(expenses, x.month), ExpenseAmount)
  }

  lemma SortedMonthsTotals(expenses: seq<Expense>)
    ensures TotalsOfMonths(expenses, SortedMonths(expenses))
  {
    var ks := KeyOrder(expenses, ExpenseMonth);
    var rows := MonthRows(ks, Totals(expenses, ExpenseMonth, ExpenseAmount));
    forall x | x in SortedMonths(expenses)
      ensures x.month in KeysOf(expenses, ExpenseMonth)
      ensures x.total == SumOf(ActiveMonthExpenses(expenses, x.month), ExpenseAmount)
    {
      assert x in multiset(rows);
      var j :| 0 <= j < |rows| && rows[j] == x;
      assert ks[j] in ks;
      GetTotals(expenses, ExpenseMonth, ExpenseAmount, ks[j]);
      KeyFilterSum(expenses, ExpenseMonth, ExpenseAmount, ks[j]);
    }
  }

  /** No month key occurs twice among the sorted month totals. */
  lemma SortedMonthsDistinct(expenses: seq<Expense>)
    ensures var s := SortedMonths(expenses);
      forall i, j :: 0 <= i < j < |s| ==> s[i].month != s[j].month
  {
    var ks := KeyOrder(expenses, ExpenseMonth);
    var rows := MonthRows(ks, Totals(expenses, ExpenseMonth, ExpenseAmount));
    var s := SortedMonths(expenses);
    assert forall i, j :: 0 <= i < j < |rows| ==> rows[i] != rows[j] by {
      forall i, j | 0 <= i < j < |rows| ensures rows[i] != rows[j] {
        assert rows[i].month == ks[i] && rows[j].month == ks[j];
      }
    }
    DistinctByCount(rows);
    DistinctByCount(s);
    SortedMonthsTotals(expenses);
    forall i, j | 0 <= i < j < |s| ensures s[i].month != s[j].month {
      assert s[i] in s && s[j] in s;
      assert s[i].total == SumOf(ActiveMonthExpenses(expenses, s[i].month), ExpenseAmount);
      assert s[j].total == SumOf(ActiveMonthExpenses(expenses, s[j].month), ExpenseAmount);
    }
  }

  /** The window holds the total of each of its month keys, in strictly
      ascending key order. */
  lemma MonthlyDataAscending(expenses: seq<Expense>)
    ensures var r := MonthlyDataOf(expenses);
      && TotalsOfMonths(expenses, r)
      && forall i, j :: 0 <= i < j < |r| ==> LexLe(r[i].month, r[j].month) && r[i].month != r[j].month
  {
    var s := SortedMonths(expenses);
    var r := MonthlyDataOf(expenses);
    var d := |s| - |r|;
    SortedMonthsTotals(expenses);
    forall x | x in r ensures x in s {
      var j :| 0 <= j < |r| && r[j] == x;
      assert s[d + j] == x;
    }
    MonthlyDataOrdered(expenses);
  }

  lemma MonthlyDataOrdered(expenses: seq<Expense>)
    ensures var r := MonthlyDataOf(expenses);
      forall i, j :: 0 <= i < j < |r| ==> LexLe(r[i].month, r[j].month) && r[i].month != r[j].month
  {
    var s := SortedMonths(expenses);
    var r := MonthlyDataOf(expenses);
    var d := |s| - |r|;
    SortedMonthsAscending(expenses);
    assert forall i :: 0 <= i < |r| ==> r[i] == s[d + i];
  }

  /** The sorted month totals are in strictly ascending key order. */
  lemma SortedMonthsAscending(expenses: seq<Expense>)
    ensures var s := SortedMonths(expenses);
      forall i, j :: 0 <= i < j < |s| ==> LexLe(s[i].month, s[j].month) && s[i].month != s[j].month
  {
    var s := SortedMonths(expenses);
    SortedMonthsSorted(expenses);
    SortedMonthsDistinct(expenses);
    forall i, j | 0 <= i < j < |s| ensures LexLe(s[i].month, s[j].month) {
      assert MonthFirst(s[i], s[j]);
    }
  }

  /** Every month key has a row among the sorted month totals. */
  lemma SortedMonthsHasKey(expenses: seq<Expense>, k: string) returns (q: int)
    requires k in KeysOf(expenses, ExpenseMonth)
    ensures 0 <= q < |SortedMonths(expenses)| && SortedMonths(expenses)[q].month == k
  {
    var ks := KeyOrder(expenses, ExpenseMonth);
    var rows := MonthRows(ks, Totals(expenses, ExpenseMonth, ExpenseAmount));
    var s := SortedMonths(expenses);
    var p :| 0 <= p < |ks| && ks[p] == k;
    assert rows[p] in multiset(s);
    q :| 0 <= q < |s| && s[q] == rows[p];
  }

  /** Every month left out of the window comes before every month kept. */
  lemma MonthlyDataLatest(expenses: seq<Expense>, k: string, i: int)
    requires k in KeysOf(expenses, ExpenseMonth)
    requires 0 <= i < |MonthlyDataOf(expenses)|
    ensures var r := MonthlyDataOf(expenses);
      (exists j :: 0 <= j < |r| && r[j].month == k) || LexLe(k, r[i].month)
  {
    var s := SortedMonths(expenses);
    var r := MonthlyDataOf(expenses);
    var d := |s| - |r|;
    SortedMonthsSorted(expenses);
    var q := SortedMonthsHasKey(expenses, k);
    if q >= d {
      assert r[q - d] == s[q];
    } else {
      assert r[i] == s[d + i];
      assert MonthFirst(s[q], s[d + i]);
    }
  }

  /** `monthlyData` holds the total of each of its month keys, in strictly
      ascending key order; it has six rows or, with fewer months, one per
      month; and every month left out comes before every month kept. */
  lemma MonthlyDataWindow(expenses: seq<Expense>)
    ensures var r := MonthlyDataOf(expenses);
      var n := |KeyOrder(expenses, ExpenseMonth)|;
      && TotalsOfMonths(expenses, r)
      && |r| == (if n < 6 then n else 6)
      && (forall i, j :: 0 <= i < j < |r| ==> LexLe(r[i].month, r[j].month) && r[i].month != r[j].month)
      && (forall k, i :: k in KeysOf(expenses, ExpenseMonth) && 0 <= i < |r| ==>
            (exists j :: 0 <= j < |r| && r[j].month == k) || LexLe(k, r[i].month))
  {
    MonthlyDataAscending(expenses);
    forall k, i | k in KeysOf(expenses, ExpenseMonth) && 0 <= i < |MonthlyDataOf(expenses)|
      ensures var r := MonthlyDataOf(expenses);
        (exists j :: 0 <= j < |r| && r[j].month == k) || LexLe(k, r[i].month)
    {
      MonthlyDataLatest(expenses, k, i);
    }
  }

  // ---------------------------------------------------------------------------
  // categoryBreakdown and monthlyDataByCategory

  datatype CategoryAmount = CategoryAmount(category: Category, amount: int)

  function CategoryAmountOf(x: CategoryAmount): int {
    x.amount
  }

  /** `Object.entries(data).map(([id, amount]) => ({ category: getCategory(id), amount }))`. */
  function CategoryRows(ks: seq<string>, sums: map<string, int>, categories: seq<Category>): (r: seq<CategoryAmount>)
    ensures |r| == |ks|
  {
    seq(|ks|, i requires 0 <= i < |ks| => CategoryAmount(CategoryOf(categories, ks[i]), Get(sums, ks[i])))
  }

  /** `(a, b) => b.amount - a.amount`, read as "a may come first". */
  predicate LargerFirst(a: CategoryAmount, b: CategoryAmount) {
    b.amount - a.amount <= 0
  }

  lemma LargerFirstOrder()
    ensures TotalPreorder(LargerFirst)
  {
  }

  /** The amounts of `es` by category, the categories resolved, largest first. */
  function Breakdown(es: seq<Expense>, categories: seq<Category>): seq<CategoryAmount> {
    SortBy(CategoryRows(KeyOrder(es, ExpenseCategory), Totals(es, ExpenseCategory, ExpenseAmount), categories), LargerFirst)
  }

  /** `categoryBreakdown` of the active month. */
  function CategoryBreakdownOf(expenses: seq<Expense>, activeMonth: string, categories: seq<Category>): seq<CategoryAmount> {
    Breakdown(ActiveMonthExpenses(expenses, activeMonth), categories)
  }

  /** The memo's loop over `es`, the entries and the sort. */
  method CategoryBreakdown(es: seq<Expense>, categories: seq<Category>) returns (r: seq<CategoryAmount>)
    ensures r == Breakdown(es, categories)
  {
    var order, data := OrderedSums(es, ExpenseCategory, ExpenseAmount);
    var entries := CategoryRows(order, data, categories);
    r := SortBy(entries, LargerFirst);
  }

  /** The breakdown adds up to the total of its expenses, is ordered by
      amount, largest first, and holds one row per category id used, each
      with that id's category and total. */
  lemma BreakdownMeaning(es: seq<Expense>, categories: seq<Category>)
    ensures var r := Breakdown(es, categories);
      && SumOf(r, CategoryAmountOf) == SumOf(es, ExpenseAmount)
      && (forall i, j :: 0 <= i < j < |r| ==> r[i].amount >= r[j].amount)
      && |r| == |KeyOrder(es, ExpenseCategory)|
  {
    var ks := KeyOrder(es, ExpenseCategory);
    var rows := CategoryRows(ks, Totals(es, ExpenseCategory, ExpenseAmount), categories);
    var totals := k => KeyTotal(es, ExpenseCategory, ExpenseAmount, k);
    LargerFirstOrder();
    SortBySum(rows, LargerFirst, CategoryAmountOf);
    forall i | 0 <= i < |ks| ensures CategoryAmountOf(rows[i]) == totals(ks[i]) {
      GetTotals(es, ExpenseCategory, ExpenseAmount, ks[i]);
    }
    SumOfMapped(ks, totals, rows, CategoryAmountOf);
    SumOfKeyTotals(es, ExpenseCategory, ExpenseAmount, totals);
    var r := Breakdown(es, categories);
    forall i, j | 0 <= i < j < |r| ensures r[i].amount >= r[j].amount {
      assert LargerFirst(r[i], r[j]);
    }
  }

  /** A row of the breakdown is a category id's category and total, and every
      category id used has its row. */
  lemma BreakdownRows(es: seq<Expense>, categories: seq<Category>, id: string)
    ensures var row := CategoryAmount(CategoryOf(categories, id), KeyTotal(es, ExpenseCategory, ExpenseAmount, id));
      id in KeysOf(es, ExpenseCategory) ==> row in Breakdown(es, categories)
    ensures forall x :: x in Breakdown(es, categories) ==>
      exists k :: k in KeysOf(es, ExpenseCategory) && x == CategoryAmount(CategoryOf(categories, k), KeyTotal(es, ExpenseCategory, ExpenseAmount, k))
  {
    var ks := KeyOrder(es, ExpenseCategory);
    var rows := CategoryRows(ks, Totals(es, ExpenseCategory, ExpenseAmount), categories);
    var r := Breakdown(es, categories);
    if id in KeysOf(es, ExpenseCategory) {
      var p :| 0 <= p < |ks| && ks[p] == id;
      GetTotals(es, ExpenseCategory, ExpenseAmount, id);
      assert rows[p] in multiset(r);
    }
    forall x | x in r
      ensures exists k :: k in KeysOf(es, ExpenseCategory) && x == CategoryAmount(CategoryOf(categories, k), KeyTotal(es, ExpenseCategory, ExpenseAmount, k))
    {
      assert x in multiset(rows);
      var p :| 0 <= p < |rows| && rows[p] == x;
      assert ks[p] in ks;
      GetTotals(es, ExpenseCategory, ExpenseAmount, ks[p]);
    }
  }

  /** The category breakdown of the active month adds up to `activeMonthTotal`,
      which is the total of the active month's key. */
  lemma CategoryBreakdownTotal(expenses: seq<Expense>, activeMonth: string, categories: seq<Category>)
    ensures SumOf(CategoryBreakdownOf(expenses, activeMonth, categories), CategoryAmountOf) == MonthTotalOf(expenses, activeMonth)
    ensures MonthTotalOf(expenses, activeMonth) == KeyTotal(expenses, ExpenseMonth, ExpenseAmount, activeMonth)
  {
    BreakdownMeaning(ActiveMonthExpenses(expenses, activeMonth), categories);
    KeyFilterSum(expenses, ExpenseMonth, ExpenseAmount, activeMonth);
  }

  /** A bar of the monthly chart: a month's total and its category segments. */
  datatype MonthBar = MonthBar(month: string, total: int, segments: seq<CategoryAmount>)

  /** `monthlyDataByCategory` for the months of `monthly`. */
  function MonthBarsOf(monthly: seq<MonthTotal>, expenses: seq<Expense>, categories: seq<Category>): (r: seq<MonthBar>)
    ensures |r| == |monthly|
  {
    seq(|monthly|, i requires 0 <= i < |monthly| =>
      MonthBar(monthly[i].month, monthly[i].total, Breakdown(ActiveMonthExpenses(expenses, monthly[i].month), categories)))
  }

  /** A JS object filled by `obj[k] = (obj[k] || 0) + amount`: its entries and
      the order in which its keys were first set. */
  datatype Tally = Tally(sums: map<string, int>, order: seq<string>)
  {
    /** One more `obj[k] = (obj[k] || 0) + amount`. */
    function Add(k: string, amount: int): Tally {
      Tally(sums[k := Get(sums, k) + amount], order + if k in sums then [] else [k])
    }
  }

  const EmptyTally := Tally(map[], [])

  /** The tally of the amounts of `es` by category. */
  function TallyOf(es: seq<Expense>): Tally {
    Tally(Totals(es, ExpenseCategory, ExpenseAmount), KeyOrder(es, ExpenseCategory))
  }

  /** Tallying one more expense adds its amount under its category. */
  lemma TallySnoc(es: seq<Expense>, e: Expense)
    ensures TallyOf(es + [e]) == TallyOf(es).Add(e.category, e.amount)
  {
    var t := es + [e];
    var m := Totals(es, ExpenseCategory, ExpenseAmount);
    assert t[..|t| - 1] == es && t[|t| - 1] == e;
    assert Totals(t, ExpenseCategory, ExpenseAmount) == m[e.category := Get(m, e.category) + e.amount];
    assert KeyOrder(t, ExpenseCategory) == KeyOrder(es, ExpenseCategory) + if e.category in m then [] else [e.category] by {
      TotalsKeys(es, ExpenseCategory, ExpenseAmount);
    }
  }

  /** The record `byMonth` after the loop over `done`: an empty tally per
      month of `months`, and each expense of one of those months added to its
      month's tally. */
  function ByMonth(months: set<string>, done: seq<Expense>): map<string, Tally> {
    if done == [] then map m | m in months :: EmptyTally
    else
      var b := ByMonth(months, done[..|done| - 1]);
      var e := done[|done| - 1];
      var key := ExpenseMonth(e);
      if key in b then b[key := b[key].Add(e.category, e.amount)] else b
  }

  /** `byMonth` has a tally for exactly the months of `months`, and each is the
      tally by category of that month's expenses. */
  lemma {:induction false} ByMonthMeaning(months: set<string>, done: seq<Expense>, m: string)
    ensures m in ByMonth(months, done) <==> m in months
    ensures m in months ==> ByMonth(months, done)[m] == TallyOf(ActiveMonthExpenses(done, m))
  {
    if done == [] {
      assert TallyOf([]) == EmptyTally;
    } else {
      var init := done[..|done| - 1];
      var e := done[|done| - 1];
      ByMonthMeaning(months, init, m);
      ByMonthMeaning(months, init, ExpenseMonth(e));
      var f := ActiveMonthExpenses(init, m);
      if ExpenseMonth(e) == m {
        assert ActiveMonthExpenses(done, m) == f + [e];
        TallySnoc(f, e);
      } else {
        assert ActiveMonthExpenses(done, m) == f + [];
        assert f + [] == f;
      }
    }
  }

  /** `monthlyData.forEach(([month]) => { byMonth[month] = {} })`. */
  method EmptyRecords(monthly: seq<MonthTotal>) returns (byMonth: map<string, Tally>)
    ensures byMonth == ByMonth(MonthsOf(monthly), [])
  {
    byMonth := map[];
    for i := 0 to |monthly|
      invariant byMonth == map m | m in MonthsOf(monthly[..i]) :: EmptyTally
    {
      assert MonthsOf(monthly[..i + 1]) == MonthsOf(monthly[..i]) + {monthly[i].month} by {
        assert monthly[..i + 1] == monthly[..i] + [monthly[i]];
      }
      byMonth := byMonth[monthly[i].month := EmptyTally];
    }
    assert monthly[..|monthly|] == monthly;
  }

  /** The months of the window. */
  function MonthsOf(monthly: seq<MonthTotal>): set<string> {
    set j | 0 <= j < |monthly| :: monthly[j].month
  }

  /** `expenses.forEach(...)`: each expense of a month of the window is added
      to that month's tally, the others are skipped. */
  method AccumulateByMonth(byMonth0: map<string, Tally>, months: set<string>, expenses: seq<Expense>)
    returns (byMonth: map<string, Tally>)
    requires byMonth0 == ByMonth(months, [])
    ensures byMonth == ByMonth(months, expenses)
  {
    byMonth := byMonth0;
    assert expenses[..0] == [];
    for i := 0 to |expenses|
      invariant byMonth == ByMonth(months, expenses[..i])
    {
      var e := expenses[i];
      var key := ExpenseMonth(e);
      assert expenses[..i + 1][..i] == expenses[..i];
      if key in byMonth {
        byMonth := byMonth[key := byMonth[key].Add(e.category, e.amount)];
      }
    }
    assert expenses[..|expenses|] == expenses;
  }

  /** The memo: an empty tally per month of the window, the loop over the
      expenses, then one bar per month with its segments sorted. */
  method MonthlyDataByCategory(monthly: seq<MonthTotal>, expenses: seq<Expense>, categories: seq<Category>)
    returns (bars: seq<MonthBar>)
    ensures bars == MonthBarsOf(monthly, expenses, categories)
  {
    var byMonth := TallyByMonth(monthly, expenses);
    bars := BarsOfRecords(byMonth, monthly, categories);
    BarsOfByMonth(monthly, expenses, categories);
  }

  /** The record `byMonth`: an empty tally per month of the window, then the
      loop over the expenses. */
  method TallyByMonth(monthly: seq<MonthTotal>, expenses: seq<Expense>) returns (byMonth: map<string, Tally>)
    ensures byMonth == ByMonth(MonthsOf(monthly), expenses)
  {
    byMonth := EmptyRecords(monthly);
    byMonth := AccumulateByMonth(byMonth, MonthsOf(monthly), expenses);
  }

  /** The entries of a tally, labelled, largest first. */
  function SegmentsOf(t: Tally, categories: seq<Category>): seq<CategoryAmount> {
    SortBy(CategoryRows(t.order, t.sums, categories), LargerFirst)
  }

  /** `monthlyData.map(...)`: one bar per month from the record `byMonth`,
      an empty tally standing in for `byMonth[month] || {}`. */
  function BarsOfRecords(byMonth: map<string, Tally>, monthly: seq<MonthTotal>, categories: seq<Category>): (r: seq<MonthBar>)
    ensures |r| == |monthly|
  {
    seq(|monthly|, i requires 0 <= i < |monthly| =>
      var m := monthly[i].month;
      MonthBar(m, monthly[i].total, SegmentsOf(if m in byMonth then byMonth[m] else EmptyTally, categories)))
  }

  /** Read from the record the loop fills, each bar holds its month's breakdown. */
  lemma BarsOfByMonth(monthly: seq<MonthTotal>, expenses: seq<Expense>, categories: seq<Category>)
    ensures BarsOfRecords(ByMonth(MonthsOf(monthly), expenses), monthly, categories) == MonthBarsOf(monthly, expenses, categories)
  {
    var months := MonthsOf(monthly);
    var r := BarsOfRecords(ByMonth(months, expenses), monthly, categories);
    var t := MonthBarsOf(monthly, expenses, categories);
    forall i | 0 <= i < |monthly| ensures r[i] == t[i] {
      var m := monthly[i].month;
      assert m in months;
      ByMonthMeaning(months, expenses, m);
    }
  }

  /** For the window of `monthlyData`, each bar's segments add up to the bar's
      total and are ordered largest first. */
  lemma MonthBarsAddUp(expenses: seq<Expense>, categories: seq<Category>)
    ensures var bars := MonthBarsOf(MonthlyDataOf(expenses), expenses, categories);
      forall i :: 0 <= i < |bars| ==>
        && SumOf(bars[i].segments, CategoryAmountOf) == bars[i].total
        && forall p, q :: 0 <= p < q < |bars[i].segments| ==> bars[i].segments[p].amount >= bars[i].segments[q].amount
  {
    var monthly := MonthlyDataOf(expenses);
    MonthlyDataWindow(expenses);
    forall i | 0 <= i < |monthly|
      ensures var seg := Breakdown(ActiveMonthExpenses(expenses, monthly[i].month), categories);
        && SumOf(seg, CategoryAmountOf) == monthly[i].total
        && forall p, q :: 0 <= p < q < |seg| ==> seg[p].amount >= seg[q].amount
    {
      assert monthly[i] in monthly;
      BreakdownMeaning(ActiveMonthExpenses(expenses, monthly[i].month), categories);
    }
  }

  // ---------------------------------------------------------------------------
  // lastMonthTotal, percentChange, recentExpenses, monthlyRecurringTotal

  /** `lastMonthTotal`: the total of the month before the active one. */
  function LastMonthTotal(expenses: seq<Expense>, activeMonth: string): int {
    MonthTotalOf(expenses, LastMonthKey(activeMonth))
  }

  /** `percentChange`: the change over last month's total in percent, as
      `toFixed(0)` prints it, or "0" when last month's total is not positive. */
  function PercentChange(activeTotal: int, lastTotal: int): string {
    if lastTotal > 0 then ToFixed0((activeTotal - lastTotal) as real / lastTotal as real * 100.0) else "0"
  }

  /** The text is "0" without a positive previous total or without change, and
      otherwise starts with a minus sign exactly when spending fell. */
  lemma PercentChangeSign(activeTotal: int, lastTotal: int)
    ensures lastTotal <= 0 || activeTotal == lastTotal ==> PercentChange(activeTotal, lastTotal) == "0"
    ensures lastTotal > 0 ==> (PercentChange(activeTotal, lastTotal)[0] == '-' <==> activeTotal < lastTotal)
  {
    if lastTotal > 0 {
      var q := (activeTotal - lastTotal) as real / lastTotal as real;
      assert q * lastTotal as real == (activeTotal - lastTotal) as real;
      if activeTotal < lastTotal {
        assert q < 0.0;
      } else {
        assert q >= 0.0;
      }
      if activeTotal == lastTotal {
        assert q * 100.0 == 0.0;
        assert Round(0.0) == 0;
        assert NatToString(0) == "0";
      }
    }
  }

  /** `(a, b) => b.date.localeCompare(a.date)`, read as "a may come first". */
  predicate NewerFirst(a: Expense, b: Expense) {
    LexLe(b.date, a.date)
  }

  lemma NewerFirstOrder()
    ensures TotalPreorder(NewerFirst)
  {
    forall a, b ensures NewerFirst(a, b) || NewerFirst(b, a) {
      LexLeTotal(a.date, b.date);
    }
    forall a, b, c | NewerFirst(a, b) && NewerFirst(b, c) ensures NewerFirst(a, c) {
      LexLeTransitive(c.date, b.date, a.date);
    }
  }

  /** `.slice(0, n)`. */
  function Take<T>(s: seq<T>, n: nat): (r: seq<T>)
    ensures |r| == if |s| < n then |s| else n
    ensures r == s[..|r|]
  {
    if |s| <= n then s else s[..n]
  }

  /** `recentExpenses`: a sorted copy, newest date first, the first five. */
  function RecentExpenses(expenses: seq<Expense>): seq<Expense> {
    Take(SortBy(expenses, NewerFirst), 5)
  }

  /** The recent list holds five expenses (all of them when there are fewer),
      newest first, each taken from the list, and no expense left out is
      newer than one shown. */
  lemma RecentExpensesNewest(expenses: seq<Expense>)
    ensures var r := RecentExpenses(expenses);
      && |r| == (if |expenses| < 5 then |expenses| else 5)
      && multiset(r) <= multiset(expenses)
      && (forall i, j :: 0 <= i < j < |r| ==> LexLe(r[j].date, r[i].date))
      && (forall x, i :: multiset(r)[x] < multiset(expenses)[x] && 0 <= i < |r| ==> LexLe(x.date, r[i].date))
  {
    var s := SortBy(expenses, NewerFirst);
    var r := RecentExpenses(expenses);
    NewerFirstOrder();
    RecentSplit(expenses);
    forall i, j | 0 <= i < j < |r| ensures LexLe(r[j].date, r[i].date) {
      assert NewerFirst(s[i], s[j]);
    }
    forall x, i | multiset(r)[x] < multiset(expenses)[x] && 0 <= i < |r| ensures LexLe(x.date, r[i].date) {
      RecentLeftOutOlder(expenses, x, i);
    }
  }

  /** The sorted list is the recent list followed by the rest. */
  lemma RecentSplit(expenses: seq<Expense>)
    ensures var s := SortBy(expenses, NewerFirst);
      var r := RecentExpenses(expenses);
      && s == r + s[|r|..]
      && multiset(expenses) == multiset(r) + multiset(s[|r|..])
  {
    var s := SortBy(expenses, NewerFirst);
    var r := RecentExpenses(expenses);
    assert s == r + s[|r|..];
  }

  /** An expense left out of the recent list is not newer than one shown. */
  lemma RecentLeftOutOlder(expenses: seq<Expense>, x: Expense, i: int)
    requires multiset(RecentExpenses(expenses))[x] < multiset(expenses)[x]
    requires 0 <= i < |RecentExpenses(expenses)|
    ensures LexLe(x.date, RecentExpenses(expenses)[i].date)
  {
    var s := SortBy(expenses, NewerFirst);
    var r := RecentExpenses(expenses);
    var rest := s[|r|..];
    NewerFirstOrder();
    RecentSplit(expenses);
    assert x in multiset(rest);
    var q :| 0 <= q < |rest| && rest[q] == x;
    assert r[i] == s[i] && x == s[|r| + q];
    assert NewerFirst(s[i], s[|r| + q]);
  }

  function IsActive(r: RecurringExpense): bool {
    r.isActive
  }

  function RecurringAmount(r: RecurringExpense): int {
    r.amount
  }

  /** `monthlyRecurringTotal`: the amounts of the active recurring expenses. */
  function MonthlyRecurringTotal(rs: seq<RecurringExpense>): int {
    SumOf(Filter(rs, IsActive), RecurringAmount)
  }

  // ---------------------------------------------------------------------------
  // filteredExpenses

  /** The active month's expenses, only those of the category filter when it
      is set (a truthy string). */
  function Unsorted(expenses: seq<Expense>, activeMonth: string, categoryFilter: Option<string>): seq<Expense> {
    var active := ActiveMonthExpenses(expenses, activeMonth);
    if Truthy(categoryFilter) then KeyFilter(active, ExpenseCategory, categoryFilter.value) else active
  }

  /** `filteredExpenses`: the active month's expenses (of the filtered
      category) sorted newest first, as a stable sort. */
  function FilteredExpenses(expenses: seq<Expense>, activeMonth: string, categoryFilter: Option<string>): (r: seq<Expense>)
    ensures multiset(r) == multiset(Unsorted(expenses, activeMonth, categoryFilter))
    ensures SortedBy(r, NewerFirst)
  {
    NewerFirstOrder();
    SortBy(Unsorted(expenses, activeMonth, categoryFilter), NewerFirst)
  }

  lemma {:induction false} KeyFilterMembers<T>(s: seq<T>, key: T -> string, k: string, x: T)
    ensures x in KeyFilter(s, key, k) <==> x in s && key(x) == k
  {
    if s != [] {
      var n := |s| - 1;
      KeyFilterMembers(s[..n], key, k, x);
      assert s == s[..n] + [s[n]];
    }
  }

  /** An expense is listed exactly when it is of the active month and, when
      the category filter is set, of that category; the list is newest first. */
  lemma FilteredExpensesMembers(expenses: seq<Expense>, activeMonth: string, categoryFilter: Option<string>, e: Expense)
    ensures var r := FilteredExpenses(expenses, activeMonth, categoryFilter);
      && (e in r <==> e in expenses && MonthKeyOf(e) == activeMonth
                      && (Truthy(categoryFilter) ==> e.category == categoryFilter.value))
      && forall i, j :: 0 <= i < j < |r| ==> LexLe(r[j].date, r[i].date)
  {
    var r := FilteredExpenses(expenses, activeMonth, categoryFilter);
    var active := ActiveMonthExpenses(expenses, activeMonth);
    KeyFilterMembers(expenses, ExpenseMonth, activeMonth, e);
    if Truthy(categoryFilter) {
      KeyFilterMembers(active, ExpenseCategory, categoryFilter.value, e);
    }
    assert e in r <==> e in multiset(r);
    forall i, j | 0 <= i < j < |r| ensures LexLe(r[j].date, r[i].date) {
      assert NewerFirst(r[i], r[j]);
    }
  }

  function MonthKeyOf(e: Expense): string {
    ExpenseMonth(e)
  }

  // ---------------------------------------------------------------------------
  // predictionMetrics

  /** The clock: today's calendar date. */
  datatype Today = Today(year: int, month: int, day: int)

  predicate ValidToday(now: Today) {
    now.year >= 100 && 1 <= now.month <= 12 && now.day >= 1
  }

  /** `currentMonth`: "YYYY-MM" of today. */
  function CurrentMonth(now: Today): string
    requires ValidToday(now)
  {
    YearMonthKey(now.year, now.month - 1)
  }

  /** The current month's key reads back as today's year and month. */
  lemma CurrentMonthParts(now: Today)
    requires ValidToday(now)
    ensures SplitYearMonth(CurrentMonth(now)) == (Some(now.year), Some(now.month))
  {
    SplitYearMonthOfKey(now.year, now.month - 1);
  }

  /** `activeMonth`: the month filter when set, else the current month. */
  function ActiveMonth(monthFilter: Option<string>, now: Today): string
    requires ValidToday(now)
  {
    OrElse(monthFilter, CurrentMonth(now))
  }

  datatype DayTotal = DayTotal(date: string, amount: int)

  /** `Object.entries(byDay)`. */
  function DayRows(ks: seq<string>, sums: map<string, int>): (r: seq<DayTotal>)
    ensures |r| == |ks|
  {
    seq(|ks|, i requires 0 <= i < |ks| => DayTotal(ks[i], Get(sums, ks[i])))
  }

  /** `([, a], [, b]) => b - a`, read as "a may come first". */
  predicate DayFirst(a: DayTotal, b: DayTotal) {
    b.amount - a.amount <= 0
  }

  /** The first entry of the days sorted by total, largest first. */
  function HighestDay(active: seq<Expense>): Option<DayTotal> {
    var s := SortBy(DayRows(KeyOrder(active, ExpenseDate), Totals(active, ExpenseDate, ExpenseAmount)), DayFirst);
    if s == [] then None else Some(s[0])
  }

  /** Sorting the days by `DayFirst` puts them in descending order of total. */
  lemma SortedDays(rows: seq<DayTotal>)
    ensures SortedBy(SortBy(rows, DayFirst), DayFirst)
  {
    assert TotalPreorder(DayFirst);
  }

  /** The highest day exists exactly when there are expenses; it is a date of
      one of them with that date's total, and no date has a larger total. */
  lemma HighestDayIsMax(active: seq<Expense>)
    ensures HighestDay(active).None? <==> active == []
    ensures HighestDay(active).Some? ==>
      var h := HighestDay(active).value;
      && h.date in KeysOf(active, ExpenseDate)
      && h.amount == KeyTotal(active, ExpenseDate, ExpenseAmount, h.date)
      && forall k :: k in KeysOf(active, ExpenseDate) ==> KeyTotal(active, ExpenseDate, ExpenseAmount, k) <= h.amount
  {
    var ks := KeyOrder(active, ExpenseDate);
    var rows := DayRows(ks, Totals(active, ExpenseDate, ExpenseAmount));
    var s := SortBy(rows, DayFirst);
    if active != [] {
      assert ExpenseDate(active[0]) in KeysOf(active, ExpenseDate);
    }
    if s != [] {
      var h := s[0];
      assert h in multiset(rows);
      var p :| 0 <= p < |rows| && rows[p] == h;
      assert ks[p] in ks;
      GetTotals(active, ExpenseDate, ExpenseAmount, ks[p]);
      forall k | k in KeysOf(active, ExpenseDate) ensures KeyTotal(active, ExpenseDate, ExpenseAmount, k) <= h.amount {
        DayTotalAtMost(active, k);
      }
    }
  }

  /** The total of any date is at most that of the first sorted day. */
  lemma DayTotalAtMost(active: seq<Expense>, k: string)
    requires k in KeysOf(active, ExpenseDate)
    ensures var s := SortBy(DayRows(KeyOrder(active, ExpenseDate), Totals(active, ExpenseDate, ExpenseAmount)), DayFirst);
      s != [] && KeyTotal(active, ExpenseDate, ExpenseAmount, k) <= s[0].amount
  {
    var ks := KeyOrder(active, ExpenseDate);
    var rows := DayRows(ks, Totals(active, ExpenseDate, ExpenseAmount));
    var s := SortBy(rows, DayFirst);
    SortedDays(rows);
    var q :| 0 <= q < |ks| && ks[q] == k;
    GetTotals(active, ExpenseDate, ExpenseAmount, k);
    assert rows[q] in multiset(s);
    var t :| 0 <= t < |s| && s[t] == rows[q];
    if t > 0 {
      assert DayFirst(s[0], s[t]);
    }
  }

  datatype Prediction = Prediction(
    predictedEndOfMonth: real,
    dailyAvg: real,
    weeklyAvg: real,
    highestDay: Option<DayTotal>,
    daysRemaining: int)

  /** An expense that no recurring expense created (`!e.recurringId`). */
  function IsOneOff(e: Expense): bool {
    !Truthy(e.recurringId)
  }

  /** `predictionMetrics` for the stored expenses and recurring expenses.
      Two clock readings enter: `mounted`, read once when the page mounted
      (`currentMonth`), and `now`, read each time the memo recomputes, of
      which only the day of the month is used. The expenses are
      `activeMonthExpenses` as `filteredExpenses`, declared before this memo,
      leaves them: with no category filter it sorts that very array newest
      first in place. */
  function PredictionOf(monthFilter: Option<string>, categoryFilter: Option<string>, mounted: Today, now: Today,
                        expenses: seq<Expense>, recurring: seq<RecurringExpense>): Option<Prediction>
    requires ValidToday(mounted) && ValidToday(now)
  {
    var currentMonth := CurrentMonth(mounted);
    var activeMonth := ActiveMonth(monthFilter, mounted);
    if Truthy(monthFilter) || Truthy(categoryFilter) || activeMonth != currentMonth then None
    else Some(Forecast(CurrentMonthDays(mounted), now.day, FilteredExpenses(expenses, activeMonth, None), MonthlyRecurringTotal(recurring)))
  }

  /** `new Date(year, month, 0).getDate()` for the parts of the current
      month's key: the length of today's calendar month. */
  function CurrentMonthDays(now: Today): (r: int)
    requires ValidToday(now)
    ensures r == DaysInMonth(now.year, now.month)
  {
    CurrentMonthParts(now);
    var parts := SplitYearMonth(CurrentMonth(now));
    LastDayOfMonth(parts.0.value, parts.1.value)
  }

  /** The figures of the prediction for a month of `daysInMonth` days on day
      `today`. */
  function Forecast(daysInMonth: int, today: int, active: seq<Expense>, recurringTotal: int): Prediction {
    Figures(daysInMonth, today, SumOf(Filter(active, IsOneOff), ExpenseAmount), recurringTotal, HighestDay(active))
  }

  /** The figures from the one-off total and the recurring total. */
  function Figures(daysInMonth: int, today: int, oneOffTotal: int, recurringTotal: int, highestDay: Option<DayTotal>): Prediction {
    var daysElapsed := if today < daysInMonth then today else daysInMonth;
    var daysRemaining := if daysInMonth - daysElapsed > 0 then daysInMonth - daysElapsed else 0;
    var oneOffDailyAvg := DailyAverage(oneOffTotal, daysElapsed);
    var predictedOneOff := oneOffTotal as real + oneOffDailyAvg * daysRemaining as real;
    Prediction(recurringTotal as real + predictedOneOff, oneOffDailyAvg, oneOffDailyAvg * 7.0, highestDay, daysRemaining)
  }

  /** `daysElapsed > 0 ? total / daysElapsed : 0`. */
  function DailyAverage(total: int, days: int): (r: real)
    ensures days > 0 ==> r * days as real == total as real
    ensures days <= 0 ==> r == 0.0
  {
    if days > 0 then total as real / days as real else 0.0
  }

  /** The memo: the gate, the length of the current month, then the figures. */
  method PredictionMetrics(monthFilter: Option<string>, categoryFilter: Option<string>, mounted: Today, now: Today,
                           expenses: seq<Expense>, recurring: seq<RecurringExpense>) returns (r: Option<Prediction>)
    requires ValidToday(mounted) && ValidToday(now)
    ensures r == PredictionOf(monthFilter, categoryFilter, mounted, now, expenses, recurring)
  {
    var currentMonth := CurrentMonth(mounted);
    var activeMonth := ActiveMonth(monthFilter, mounted);
    if Truthy(monthFilter) || Truthy(categoryFilter) || activeMonth != currentMonth {
      return None;
    }
    var daysInMonth := CurrentMonthDays(mounted);
    var active := FilteredExpenses(expenses, activeMonth, None);
    var p := ForecastMetrics(daysInMonth, now.day, active, MonthlyRecurringTotal(recurring));
    r := Some(p);
  }

  /** The figures of the memo, with the `byDay` loop. */
  method ForecastMetrics(daysInMonth: int, today: int, active: seq<Expense>, recurringTotal: int) returns (p: Prediction)
    ensures p == Forecast(daysInMonth, today, active, recurringTotal)
  {
    var oneOffTotal := SumOf(Filter(active, IsOneOff), ExpenseAmount);
    var highestDay := HighestDayMetric(active);
    p := FigureMetrics(daysInMonth, today, oneOffTotal, recurringTotal, highestDay);
  }

  /** `byDay` summed by date in a loop, its entries sorted by amount, largest
      first, and the first one taken. */
  method HighestDayMetric(active: seq<Expense>) returns (highestDay: Option<DayTotal>)
    ensures highestDay == HighestDay(active)
  {
    var order, byDay := OrderedSums(active, ExpenseDate, ExpenseAmount);
    var days := SortBy(DayRows(order, byDay), DayFirst);
    highestDay := if days == [] then None else Some(days[0]);
  }

  /** The arithmetic of the memo. */
  method FigureMetrics(daysInMonth: int, today: int, oneOffTotal: int, recurringTotal: int, highestDay: Option<DayTotal>)
    returns (p: Prediction)
    ensures p == Figures(daysInMonth, today, oneOffTotal, recurringTotal, highestDay)
  {
    var daysElapsed := if today < daysInMonth then today else daysInMonth;
    var daysRemaining := if daysInMonth - daysElapsed > 0 then daysInMonth - daysElapsed else 0;
    var oneOffDailyAvg := if daysElapsed > 0 then oneOffTotal as real / daysElapsed as real else 0.0;
    var predictedOneOff := oneOffTotal as real + oneOffDailyAvg * daysRemaining as real;
    var predictedEndOfMonth := recurringTotal as real + predictedOneOff;
    p := Prediction(predictedEndOfMonth, oneOffDailyAvg, oneOffDailyAvg * 7.0, highestDay, daysRemaining);
  }

  /** There is a prediction exactly when neither filter is set. */
  lemma PredictionGate(monthFilter: Option<string>, categoryFilter: Option<string>, mounted: Today, now: Today,
                       expenses: seq<Expense>, recurring: seq<RecurringExpense>)
    requires ValidToday(mounted) && ValidToday(now)
    ensures PredictionOf(monthFilter, categoryFilter, mounted, now, expenses, recurring).Some? <==>
      !Truthy(monthFilter) && !Truthy(categoryFilter)
  {
  }

  /** When there is a prediction, it is the forecast for the calendar month
      the page was mounted in, with that month's length, on the day of the
      month of the later reading, over that month's expenses newest first. */
  lemma PredictionOfToday(monthFilter: Option<string>, categoryFilter: Option<string>, mounted: Today, now: Today,
                          expenses: seq<Expense>, recurring: seq<RecurringExpense>)
    requires ValidToday(mounted) && ValidToday(now)
    requires PredictionOf(monthFilter, categoryFilter, mounted, now, expenses, recurring).Some?
    ensures PredictionOf(monthFilter, categoryFilter, mounted, now, expenses, recurring).value ==
      Forecast(DaysInMonth(mounted.year, mounted.month), now.day, FilteredExpenses(expenses, CurrentMonth(mounted), None),
               MonthlyRecurringTotal(recurring))
  {
  }

  /** A page mounted on 31 October 2025 and recomputed on 1 November still
      forecasts October, with 30 of its 31 days left. */
  lemma PredictionOnStaleTab(expenses: seq<Expense>, recurring: seq<RecurringExpense>)
    ensures var p := PredictionOf(None, None, Today(2025, 10, 31), Today(2025, 11, 1), expenses, recurring);
      p.Some? && p.value.daysRemaining == 30
  {
    PredictionOfToday(None, None, Today(2025, 10, 31), Today(2025, 11, 1), expenses, recurring);
  }

  /** The order of the expenses moves only the choice among days that tie for
      the highest total: the other figures are those of the month's expenses
      in list order. */
  lemma ForecastIgnoresOrder(daysInMonth: int, today: int, expenses: seq<Expense>, month: string, recurringTotal: int)
    ensures var sorted := Forecast(daysInMonth, today, FilteredExpenses(expenses, month, None), recurringTotal);
      var listed := Forecast(daysInMonth, today, ActiveMonthExpenses(expenses, month), recurringTotal);
      && sorted.predictedEndOfMonth == listed.predictedEndOfMonth
      && sorted.dailyAvg == listed.dailyAvg
      && sorted.weeklyAvg == listed.weeklyAvg
      && sorted.daysRemaining == listed.daysRemaining
  {
    var oneOff := SumOf(Filter(ActiveMonthExpenses(expenses, month), IsOneOff), ExpenseAmount);
    OneOffSumIgnoresOrder(expenses, month);
    var sorted := Forecast(daysInMonth, today, FilteredExpenses(expenses, month, None), recurringTotal);
    assert sorted == Figures(daysInMonth, today, oneOff, recurringTotal, sorted.highestDay);
  }

  /** Sorting the month's expenses leaves their one-off total as it is. */
  lemma OneOffSumIgnoresOrder(expenses: seq<Expense>, month: string)
    ensures SumOf(Filter(FilteredExpenses(expenses, month, None), IsOneOff), ExpenseAmount)
         == SumOf(Filter(ActiveMonthExpenses(expenses, month), IsOneOff), ExpenseAmount)
  {
    var active := ActiveMonthExpenses(expenses, month);
    var sorted := FilteredExpenses(expenses, month, None);
    assert sorted == SortBy(active, NewerFirst);
    SumOfFilter(sorted, IsOneOff, ExpenseAmount);
    SumOfFilter(active, IsOneOff, ExpenseAmount);
    SumWhereIsSumOf(sorted, IsOneOff, ExpenseAmount, OneOffAmount);
    SumWhereIsSumOf(active, IsOneOff, ExpenseAmount, OneOffAmount);
    SortBySum(active, NewerFirst, OneOffAmount);
  }

  function OneOffAmount(e: Expense): int {
    if IsOneOff(e) then e.amount else 0
  }

  lemma {:induction false} SumWhereIsSumOf<T>(s: seq<T>, keep: T -> bool, f: T -> int, g: T -> int)
    requires forall x :: g(x) == if keep(x) then f(x) else 0
    ensures SumWhere(s, keep, f) == SumOf(s, g)
  {
    if s != [] {
      SumWhereIsSumOf(s[..|s| - 1], keep, f, g);
    }
  }

  /** The forecast counts the days left after today, adds the full recurring
      total to the one-off spending so far, and extends the one-off spending
      at its daily average over the remaining days. */
  lemma ForecastFigures(daysInMonth: int, today: int, oneOff: int, recurringTotal: int, highestDay: Option<DayTotal>)
    requires today >= 1 && daysInMonth >= 1
    ensures var p := Figures(daysInMonth, today, oneOff, recurringTotal, highestDay);
      && p.daysRemaining == (if today < daysInMonth then daysInMonth - today else 0)
      && p.dailyAvg * (if today < daysInMonth then today else daysInMonth) as real == oneOff as real
      && p.predictedEndOfMonth == recurringTotal as real + oneOff as real + p.dailyAvg * p.daysRemaining as real
      && p.weeklyAvg == 7.0 * p.dailyAvg
  {
  }

  /** The one-off total is the total of the active month less the expenses
      that a recurring expense created. */
  lemma OneOffTotal(active: seq<Expense>)
    ensures SumOf(Filter(active, IsOneOff), ExpenseAmount)
      == SumOf(active, ExpenseAmount) - SumWhere(active, (e: Expense) => Truthy(e.recurringId), ExpenseAmount)
  {
    SumOfFilter(active, IsOneOff, ExpenseAmount);
    OneOffSplit(active);
  }

  lemma {:induction false} OneOffSplit(active: seq<Expense>)
    ensures SumWhere(active, IsOneOff, ExpenseAmount)
      == SumOf(active, ExpenseAmount) - SumWhere(active, (e: Expense) => Truthy(e.recurringId), ExpenseAmount)
  {
    if active != [] {
      OneOffSplit(active[..|active| - 1]);
    }
  }
}
