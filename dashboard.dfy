/** The wealth dashboard as `loadDashboardData` assembles it from the fetched
    rows: the trend series of the shown snapshots, the comparison of implied
    spending with tracked expenses, the allocation of the last shown
    snapshot, and the month-over-month net-worth change shown in the header. */
module Dashboard {

  import opened Common
  import opened Text
  import opened WealthRows
  import opened DashboardSeries
  import opened Allocation
  import JsDate

  /** `const [y, m] = date.split('-'); key = `${y}-${m}``: the first two
      dash-separated fields; `m` prints as "undefined" when there is no dash. */
  function TrackedKey(date: string): string {
    var y := BeforeFirst(date, '-');
    var rest := AfterFirst(date, '-');
    var m := if rest.Some? then BeforeFirst(rest.value, '-') else "undefined";
    y + "-" + m
  }

  /** An expense dated "YYYY-MM-<day>" is counted in the month whose chart
      label is "YYYY-MM". */
  lemma TrackedKeyOfDate(year: nat, month: int, day: string)
    requires 1 <= month <= 12
    ensures TrackedKey(MonthLabel(year, month) + "-" + day) == MonthLabel(year, month)
  {
    var ys := IntToString(year);
    var ms := PadStart2(IntToString(month));
    JsDate.DigitsValueOfPadStart2(month);
    JsDate.DigitsHaveNoDash(ys);
    JsDate.DigitsHaveNoDash(ms);
    var date := MonthLabel(year, month) + "-" + day;
    assert date == ys + ['-'] + (ms + "-" + day);
    BeforeFirstOfJoin(ys, '-', ms + "-" + day);
    JsDate.AfterFirstOfJoin(ys, '-', ms + "-" + day);
    assert ms + "-" + day == ms + ['-'] + day;
    BeforeFirstOfJoin(ms, '-', day);
  }

  /** A date without a dash is counted under "<date>-undefined". */
  lemma TrackedKeyWithoutDash(date: string)
    requires '-' !in date
    ensures TrackedKey(date) == date + "-undefined"
  {
    assert BeforeFirst(date, '-') == date;
  }

  function ExpenseKey(e: ExpenseRow): string {
    TrackedKey(e.date)
  }

  function ExpenseAmount(e: ExpenseRow): int {
    e.amount
  }

  /** `trackedByMonth`: the expense amounts summed by month key. */
  function TrackedByMonth(expenses: seq<ExpenseRow>): map<string, int> {
    Totals(expenses, ExpenseKey, ExpenseAmount)
  }

  datatype ComparisonPoint = ComparisonPoint(month: YearMonth, implied: int, tracked: int)

  /** `expensePts.map(wp => ({ month, implied: wp.value, tracked: trackedByMonth.get(wp.month) || 0 }))`. */
  function Comparison(expense: seq<Point>, tracked: map<string, int>): (r: seq<ComparisonPoint>)
    ensures |r| == |expense|
  {
    seq(|expense|, k requires 0 <= k < |expense| =>
      ComparisonPoint(expense[k].month, expense[k].value, Get(tracked, expense[k].month.Text())))
  }

  /** Each comparison point keeps the month and implied spending of its
      expense point and adds the sum of the expenses whose date falls under
      its label (0 when there are none). */
  lemma ComparisonPoints(expense: seq<Point>, expenses: seq<ExpenseRow>)
    ensures var r := Comparison(expense, TrackedByMonth(expenses));
      forall k :: 0 <= k < |r| ==>
        && r[k].month == expense[k].month
        && r[k].implied == expense[k].value
        && r[k].tracked == SumOf(KeyFilter(expenses, ExpenseKey, expense[k].month.Text()), ExpenseAmount)
  {
    var r := Comparison(expense, TrackedByMonth(expenses));
    forall k | 0 <= k < |r|
      ensures r[k].tracked == SumOf(KeyFilter(expenses, ExpenseKey, expense[k].month.Text()), ExpenseAmount)
    {
      var monthText := expense[k].month.Text();
      GetTotals(expenses, ExpenseKey, ExpenseAmount, monthText);
      KeyFilterSum(expenses, ExpenseKey, ExpenseAmount, monthText);
    }
  }

  /** Everything the dashboard shows after loading. */
  datatype DashboardView = DashboardView(
    series: Series,
    comparison: seq<ComparisonPoint>,
    allocation: seq<AllocationGroup>,
    allocationMonth: string)

  const EmptyView := DashboardView(NoSeries, [], [], "")

  /** The asset details of snapshot `id` (`assetsDetailBySnap.get(id) || []`). */
  function DetailsOfSnapshot(input: DashboardInput, id: string): seq<AssetDetail> {
    GetList(DetailsBySnapshot(input.assets), id)
  }

  /** What `loadDashboardData` shows for `input`. */
  function ViewOf(input: DashboardInput): DashboardView {
    var kept := Kept(input);
    if input.snapshots == [] || kept == [] then EmptyView
    else ShownView(input, AmountsOf(input), kept)
  }

  /** The view when the shown snapshots `kept` are not empty. */
  function ShownView(input: DashboardInput, a: Amounts, kept: seq<SnapshotRef>): DashboardView
    requires kept != []
  {
    var series := SeriesOf(a, kept);
    var last := kept[|kept| - 1];
    DashboardView(
      series,
      Comparison(series.expense, TrackedByMonth(input.expenses)),
      AllocationOf(a.cash(last.id), DetailsOfSnapshot(input, last.id)),
      AllocationMonth(a.cash(last.id), DetailsOfSnapshot(input, last.id), last))
  }

  /** `fmtMonth` of the allocated snapshot, or "" when there is no allocation. */
  function AllocationMonth(cash: int, details: seq<AssetDetail>, snap: SnapshotRef): string {
    if AllocationTotal(cash, details) > 0 then KeyOf(snap).Text() else ""
  }

  /** The loading procedure: the lookup maps, the filter, the series, the
      tracked expenses by month and the allocation of the last shown snapshot. */
  method LoadDashboard(input: DashboardInput) returns (view: DashboardView)
    ensures view == ViewOf(input)
  {
    if |input.snapshots| == 0 {
      return EmptyView;
    }
    var cashBySnap := SumByKey(input.cash, SnapshotOf, AmountOf);
    var assetsBySnap, assetsDetailBySnap := AssetsBySnapshot(input.assets);
    var debtsBySnap := SumByKey(input.debts, SnapshotOf, AmountOf);
    var earningsBySnap := SumByKey(input.earnings, SnapshotOf, AmountOf);
    var investmentsBySnap := SumByKey(input.investments, SnapshotOf, AmountOf);
    var a := AmountsFrom(cashBySnap, assetsBySnap, debtsBySnap, earningsBySnap, investmentsBySnap);
    assert a == AmountsOf(input);
    var populated := Populated(input.snapshots, a, input.curYear, input.curMonth);
    assert populated == Kept(input);
    if |populated| == 0 {
      return EmptyView;
    }
    view := LoadShown(input, a, cashBySnap, assetsDetailBySnap, populated);
  }

  /** The part of the loading procedure after the filter, for a non-empty
      list of shown snapshots. */
  method LoadShown(input: DashboardInput, a: Amounts, cashBySnap: map<string, int>,
                   assetsDetailBySnap: map<string, seq<AssetDetail>>, populated: seq<SnapshotRef>)
    returns (view: DashboardView)
    requires populated != []
    requires forall id :: a.cash(id) == Get(cashBySnap, id)
    requires assetsDetailBySnap == DetailsBySnapshot(input.assets)
    ensures view == ShownView(input, a, populated)
  {
    var series := BuildSeries(a, populated);
    var trackedByMonth := SumByKey(input.expenses, ExpenseKey, ExpenseAmount);
    var comparison := Comparison(series.expense, trackedByMonth);
    var lastSnap := populated[|populated| - 1];
    var alloCash := Get(cashBySnap, lastSnap.id);
    var alloAssets := GetList(assetsDetailBySnap, lastSnap.id);
    var alloTotal := alloCash + SumOf(alloAssets, DetailAmount);
    var allocation: seq<AllocationGroup> := [];
    var allocationMonth := "";
    if alloTotal > 0 {
      allocationMonth := MonthLabel(lastSnap.year, lastSnap.month);
      allocation := Allocate(alloCash, alloAssets);
    } else {
      AllocationEmpty(alloCash, alloAssets);
    }
    view := DashboardView(series, comparison, allocation, allocationMonth);
  }

  /** Nothing is shown exactly when no fetched snapshot is shown; otherwise
      there is one net-worth point per shown snapshot. */
  lemma ViewEmpty(input: DashboardInput)
    ensures ViewOf(input) == EmptyView <==> Kept(input) == []
    ensures |ViewOf(input).series.netWorth| == |Kept(input)|
  {
    var kept := Kept(input);
    if kept != [] {
      assert kept[0] in kept;
      NetWorthSeriesPointwise(AmountsOf(input), kept);
    }
  }

  /** The allocation month is set exactly when the allocation has rows, and
      then names the last shown snapshot. */
  lemma AllocationMonthSet(input: DashboardInput, a: Amounts, kept: seq<SnapshotRef>)
    requires kept != []
    ensures var v := ShownView(input, a, kept);
      && (v.allocationMonth != "" <==> v.allocation != [])
      && (v.allocation != [] ==> v.allocationMonth == KeyOf(kept[|kept| - 1]).Text())
  {
    var last := kept[|kept| - 1];
    var cash := a.cash(last.id);
    var details := DetailsOfSnapshot(input, last.id);
    AllocationEmpty(cash, details);
    assert |MonthLabel(last.year, last.month)| >= 1;
  }

  /** The header's change: the last net-worth point minus the one before. */
  function NwChange(netWorth: seq<Point>): (r: Option<int>)
    ensures r.Some? <==> |netWorth| >= 2
  {
    if |netWorth| >= 2 then Some(netWorth[|netWorth| - 1].value - netWorth[|netWorth| - 2].value)
    else None
  }

  function Abs(x: int): int {
    if x < 0 then -x else x
  }

  /** The change as a percentage of the previous net worth taken in absolute
      value; absent when there is no change or the previous net worth is 0. */
  function NwChangePct(netWorth: seq<Point>): (r: Option<real>)
    ensures r.Some? <==> NwChange(netWorth).Some? && netWorth[|netWorth| - 2].value != 0
  {
    var change := NwChange(netWorth);
    if change.Some? && netWorth[|netWorth| - 2].value != 0 then
      Some(change.value as real / Abs(netWorth[|netWorth| - 2].value) as real * 100.0)
    else None
  }

  /** The percentage has the sign of the change even when the previous net
      worth is negative, and is the relative change scaled to 100. */
  lemma NwChangePctSign(netWorth: seq<Point>)
    requires NwChangePct(netWorth).Some?
    ensures var pct := NwChangePct(netWorth).value;
      var change := NwChange(netWorth).value;
      && (pct > 0.0 <==> change > 0)
      && (pct < 0.0 <==> change < 0)
      && pct * Abs(netWorth[|netWorth| - 2].value) as real == change as real * 100.0
  {
    var change := NwChange(netWorth).value as real;
    var d := Abs(netWorth[|netWorth| - 2].value) as real;
    var q := change / d;
    assert q * d == change;
    assert d > 0.0;
    if change > 0.0 {
      assert q > 0.0;
    } else if change < 0.0 {
      assert q < 0.0;
    } else {
      assert q == 0.0;
    }
  }

  /** On the dashboard, the change compares the net worth of the last two
      shown snapshots. */
  lemma NwChangeOfSeries(a: Amounts, kept: seq<SnapshotRef>)
    ensures NwChange(SeriesOf(a, kept).netWorth) ==
      if |kept| >= 2 then Some(NetWorth(a, kept[|kept| - 1].id) - NetWorth(a, kept[|kept| - 2].id)) else None
  {
    NetWorthSeriesPointwise(a, kept);
  }
}
