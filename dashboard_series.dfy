/** The trend series of the wealth dashboard: which snapshots are shown, the
    month labels, and the net-worth, income, implied-spending, savings-rate
    and cash/assets series built by one pass over the shown snapshots, each
    snapshot compared with the one shown before it. */
module DashboardSeries {

  import opened Common
  import opened Text
  import opened WealthRows
  import JsDate

  /** What the dashboard fetches, and "now" as (curYear, curMonth 1..12). */
  datatype DashboardInput = DashboardInput(
    snapshots: seq<SnapshotRef>,
    cash: seq<WealthRow>,
    assets: seq<WealthRow>,
    debts: seq<WealthRow>,
    earnings: seq<WealthRow>,
    investments: seq<WealthRow>,
    expenses: seq<ExpenseRow>,
    curYear: int,
    curMonth: int)

  /** Per-snapshot totals of each kind of row, looked up by snapshot id. */
  datatype Amounts = Amounts(
    cash: string -> int,
    assets: string -> int,
    debts: string -> int,
    earnings: string -> int,
    investments: string -> int)

  /** Totals looked up in maps of sums by snapshot id, `bySnap.get(id) || 0`. */
  function AmountsFrom(cashBySnap: map<string, int>, assetsBySnap: map<string, int>,
                       debtsBySnap: map<string, int>, earningsBySnap: map<string, int>,
                       investmentsBySnap: map<string, int>): Amounts {
    Amounts(
      id => Get(cashBySnap, id),
      id => Get(assetsBySnap, id),
      id => Get(debtsBySnap, id),
      id => Get(earningsBySnap, id),
      id => Get(investmentsBySnap, id))
  }

  /** The totals of the fetched rows, snapshot by snapshot. */
  function AmountsOf(input: DashboardInput): (a: Amounts)
    ensures forall id :: a.cash(id) == Total(input.cash, id)
    ensures forall id :: a.assets(id) == Total(input.assets, id)
    ensures forall id :: a.debts(id) == Total(input.debts, id)
    ensures forall id :: a.earnings(id) == Total(input.earnings, id)
    ensures forall id :: a.investments(id) == Total(input.investments, id)
  {
    forall id
      ensures Get(BySnapshot(input.cash), id) == Total(input.cash, id)
      ensures Get(BySnapshot(input.assets), id) == Total(input.assets, id)
      ensures Get(BySnapshot(input.debts), id) == Total(input.debts, id)
      ensures Get(BySnapshot(input.earnings), id) == Total(input.earnings, id)
      ensures Get(BySnapshot(input.investments), id) == Total(input.investments, id)
    {
      BySnapshotLookup(input.cash, id);
      BySnapshotLookup(input.assets, id);
      BySnapshotLookup(input.debts, id);
      BySnapshotLookup(input.earnings, id);
      BySnapshotLookup(input.investments, id);
    }
    AmountsFrom(BySnapshot(input.cash), BySnapshot(input.assets), BySnapshot(input.debts),
      BySnapshot(input.earnings), BySnapshot(input.investments))
  }

  /** Month 0 ("Start") is always complete; any other month once it is over. */
  predicate IsCompleted(year: int, month: int, curYear: int, curMonth: int) {
    if month == 0 then true
    else if year < curYear then true
    else year == curYear && month < curMonth
  }

  /** The dashboard's "populated": cash + assets + debts is positive (debts are
      added here, not subtracted). */
  predicate HasData(a: Amounts, id: string) {
    a.cash(id) + a.assets(id) + a.debts(id) > 0
  }

  /** Completed with respect to "now" and populated. */
  predicate Shown(a: Amounts, curYear: int, curMonth: int, s: SnapshotRef) {
    IsCompleted(s.year, s.month, curYear, curMonth) && HasData(a, s.id)
  }

  /** `snapshots.filter(s => isCompleted(s.year, s.month) && hasData(s.id))`:
      the shown snapshots, in fetched order. */
  function Populated(snapshots: seq<SnapshotRef>, a: Amounts, curYear: int, curMonth: int): (r: seq<SnapshotRef>)
    ensures forall s :: s in r <==> s in snapshots && Shown(a, curYear, curMonth, s)
  {
    Filter(snapshots, (s: SnapshotRef) => Shown(a, curYear, curMonth, s))
  }

  /** The snapshots the dashboard shows for `input`: those fetched that are
      month 0 or a month that is over, and whose cash + assets + debts is
      positive. */
  function Kept(input: DashboardInput): (r: seq<SnapshotRef>)
    ensures forall s :: s in r <==>
      && s in input.snapshots
      && (s.month == 0 || s.year < input.curYear || (s.year == input.curYear && s.month < input.curMonth))
      && Total(input.cash, s.id) + Total(input.assets, s.id) + Total(input.debts, s.id) > 0
  {
    Populated(input.snapshots, AmountsOf(input), input.curYear, input.curMonth)
  }

  /** `fmtMonth`: month 0 of year y is December of y - 1; other months are
      "y-MM". */
  function MonthLabel(year: int, month: int): string {
    if month == 0 then IntToString(year - 1) + "-12"
    else IntToString(year) + "-" + PadStart2(IntToString(month))
  }

  /** The "Start" of a year carries the label of December of the year before,
      and a calendar month gets the same "YYYY-MM" key the expense pages use. */
  lemma MonthLabelOfStart(year: int)
    ensures MonthLabel(year, 0) == MonthLabel(year - 1, 12)
  {
    var twelve := NatToString(12);
    assert twelve == NatToString(1) + [DigitChar(2)];
    assert NatToString(1) == [DigitChar(1)];
    assert DigitChar(1) == '1' && DigitChar(2) == '2';
    assert IntToString(12) == "12";
    assert PadStart2("12") == "12";
    assert "-" + "12" == "-12";
  }

  lemma MonthLabelOfMonth(year: int, month: int)
    requires 1 <= month <= 12
    ensures MonthLabel(year, month) == JsDate.YearMonthKey(year, month - 1)
  {
    assert IntToString(month) == NatToString(month);
  }

  function NetWorth(a: Amounts, id: string): int {
    a.cash(id) + a.assets(id) - a.debts(id)
  }

  /** Implied spending of `snap` against the previously shown snapshot `prev`:
      earnings - change in net worth + (change in assets - investments). */
  function Implied(a: Amounts, snap: SnapshotRef, prev: SnapshotRef): int {
    var deltaNw := NetWorth(a, snap.id) - NetWorth(a, prev.id);
    var appreciation := (a.assets(snap.id) - a.assets(prev.id)) - a.investments(snap.id);
    a.earnings(snap.id) - deltaNw + appreciation
  }

  /** The asset terms cancel: implied spending is earnings minus the change in
      cash plus the change in debts minus investments. */
  lemma ImpliedCancelsAssets(a: Amounts, snap: SnapshotRef, prev: SnapshotRef)
    ensures Implied(a, snap, prev) ==
      a.earnings(snap.id) - (a.cash(snap.id) - a.cash(prev.id))
      + (a.debts(snap.id) - a.debts(prev.id)) - a.investments(snap.id)
  {
  }

  /** `Math.round((earnings - implied) / earnings * 100)`. */
  function SavingsRate(earnings: int, implied: int): int
    requires earnings > 0
  {
    SavedPercent(earnings - implied, earnings)
  }

  /** `Math.round((saved / earnings) * 100)`. */
  function SavedPercent(saved: int, earnings: int): int
    requires earnings > 0
  {
    Round((saved as real / earnings as real) * 100.0)
  }

  /** The rate is the saved share of earnings in percent, to the nearest
      integer, and it is 0 when implied spending equals earnings. */
  lemma SavingsRateRounding(earnings: int, implied: int)
    requires earnings > 0
    ensures var exact := (earnings - implied) as real / earnings as real * 100.0;
      exact - 0.5 < SavingsRate(earnings, implied) as real <= exact + 0.5
    ensures implied == earnings ==> SavingsRate(earnings, implied) == 0
    ensures implied <= earnings ==> SavingsRate(earnings, implied) >= 0
  {
  }

  /** The rate is not clamped: spending above earnings gives a negative rate,
      negative spending a rate above 100. */
  lemma SavingsRateUnclamped()
    ensures SavingsRate(100, 150) == -50
    ensures SavingsRate(100, -20) == 120
  {
    assert (100 - 150) as real / 100 as real * 100.0 == -50.0;
    assert (100 - (-20)) as real / 100 as real * 100.0 == 120.0;
  }

  /** The month a chart point stands for; the chart shows it as
      `Text(m) == MonthLabel(m.year, m.month)`. */
  datatype YearMonth = YearMonth(year: int, month: int) {
    function Text(): string {
      MonthLabel(year, month)
    }
  }

  datatype Point = Point(month: YearMonth, value: int)
  datatype BreakdownPoint = BreakdownPoint(month: YearMonth, cash: int, assets: int)
  datatype SavingsPoint = SavingsPoint(month: YearMonth, rate: int)

  datatype Series = Series(
    netWorth: seq<Point>,
    income: seq<Point>,
    expense: seq<Point>,
    breakdown: seq<BreakdownPoint>,
    savings: seq<SavingsPoint>)

  const NoSeries := Series([], [], [], [], [])

  function KeyOf(snap: SnapshotRef): YearMonth {
    YearMonth(snap.year, snap.month)
  }

  /** A snapshot past month 0 with a predecessor among the shown ones. */
  predicate HasPrevious(kept: seq<SnapshotRef>) {
    |kept| >= 2 && kept[|kept| - 1].month >= 1
  }

  /** The snapshot shown just before the last one of `kept`, if any. */
  function PrevOf(kept: seq<SnapshotRef>): (r: Option<SnapshotRef>)
    requires kept != []
    ensures r.Some? <==> |kept| >= 2
    ensures r.Some? ==> r.value == kept[|kept| - 2]
  {
    if |kept| >= 2 then Some(kept[|kept| - 2]) else None
  }

  /** The points one shown snapshot adds to the series, given the snapshot
      shown before it (`prev`): always a net-worth and a cash/assets point;
      when there is a previous snapshot and the month is past 0, an income and
      an implied-spending point, and with them a savings point when earnings
      are positive. */
  function Extend(s: Series, a: Amounts, snap: SnapshotRef, prev: Option<SnapshotRef>): Series {
    var k := KeyOf(snap);
    var grown := s.(netWorth := s.netWorth + [Point(k, NetWorth(a, snap.id))],
                    breakdown := s.breakdown + [BreakdownPoint(k, a.cash(snap.id), a.assets(snap.id))]);
    if prev.Some? && snap.month >= 1 then
      var earnings := a.earnings(snap.id);
      var implied := Implied(a, snap, prev.value);
      grown.(income := s.income + [Point(k, earnings)],
             expense := s.expense + [Point(k, implied)],
             savings := s.savings + if earnings > 0 then [SavingsPoint(k, SavingsRate(earnings, implied))] else [])
    else
      grown
  }

  /** The series after the shown snapshots `kept`, in order. */
  function SeriesOf(a: Amounts, kept: seq<SnapshotRef>): Series {
    if kept == [] then NoSeries
    else Extend(SeriesOf(a, kept[..|kept| - 1]), a, kept[|kept| - 1], PrevOf(kept))
  }

  /** The indices j of `kept` that have a predecessor and a month past 0:
      the snapshots that produce an income and an implied-spending point. */
  function Paired(kept: seq<SnapshotRef>): (r: seq<int>)
    ensures forall k :: 0 <= k < |r| ==> 1 <= r[k] < |kept| && kept[r[k]].month >= 1
  {
    if |kept| <= 1 then []
    else Paired(kept[..|kept| - 1]) + if HasPrevious(kept) then [|kept| - 1] else []
  }

  /** The paired indices whose snapshot has positive earnings: the ones that
      produce a savings point. */
  function Earning(a: Amounts, kept: seq<SnapshotRef>): (r: seq<int>)
    ensures forall k :: 0 <= k < |r| ==>
      1 <= r[k] < |kept| && kept[r[k]].month >= 1 && a.earnings(kept[r[k]].id) > 0
  {
    if |kept| <= 1 then []
    else
      var j := |kept| - 1;
      Earning(a, kept[..j]) + if HasPrevious(kept) && a.earnings(kept[j].id) > 0 then [j] else []
  }

  /** One net-worth and one cash/assets point per shown snapshot, in order,
      the net worth being cash + assets - debts. */
  lemma {:induction false} NetWorthSeriesPointwise(a: Amounts, kept: seq<SnapshotRef>)
    ensures |SeriesOf(a, kept).netWorth| == |kept| && |SeriesOf(a, kept).breakdown| == |kept|
    ensures forall i :: 0 <= i < |kept| ==>
      && SeriesOf(a, kept).netWorth[i] == Point(KeyOf(kept[i]), NetWorth(a, kept[i].id))
      && SeriesOf(a, kept).breakdown[i] == BreakdownPoint(KeyOf(kept[i]), a.cash(kept[i].id), a.assets(kept[i].id))
  {
    if kept != [] {
      var init := kept[..|kept| - 1];
      NetWorthSeriesPointwise(a, init);
      forall i | 0 <= i < |init| ensures kept[i] == init[i] {
      }
    }
  }

  /** Income and implied-spending points exist exactly for the paired
      snapshots, share their labels, and the implied value compares each with
      the snapshot shown just before it. */
  lemma {:induction false} IncomeSeriesPointwise(a: Amounts, kept: seq<SnapshotRef>)
    ensures IncomeAt(a, kept, Paired(kept), SeriesOf(a, kept))
  {
    if |kept| >= 2 {
      var init := kept[..|kept| - 1];
      IncomeSeriesPointwise(a, init);
      IncomeAtPrefix(a, kept, Paired(init), SeriesOf(a, init));
      if HasPrevious(kept) {
        IncomeAtSnoc(a, kept, Paired(init), SeriesOf(a, init));
      }
    } else if |kept| == 1 {
      assert kept[..0] == [];
    }
  }

  /** The series `s` holds an income and an implied-spending point for each
      index of `p`, labelled with that snapshot's month. */
  ghost predicate IncomeAt(a: Amounts, kept: seq<SnapshotRef>, p: seq<int>, s: Series) {
    && |s.income| == |p| && |s.expense| == |p|
    && forall k :: 0 <= k < |p| ==>
         && 1 <= p[k] < |kept|
         && s.income[k] == Point(KeyOf(kept[p[k]]), a.earnings(kept[p[k]].id))
         && s.expense[k] == Point(KeyOf(kept[p[k]]), Implied(a, kept[p[k]], kept[p[k] - 1]))
  }

  /** Points of earlier snapshots are unchanged by showing one more. */
  lemma IncomeAtPrefix(a: Amounts, kept: seq<SnapshotRef>, p: seq<int>, s: Series)
    requires |kept| >= 1 && IncomeAt(a, kept[..|kept| - 1], p, s)
    ensures IncomeAt(a, kept, p, s)
  {
    var init := kept[..|kept| - 1];
    forall k | 0 <= k < |p| ensures kept[p[k]] == init[p[k]] && kept[p[k] - 1] == init[p[k] - 1] {
    }
  }

  /** A last snapshot with a predecessor and a month past 0 adds its points. */
  lemma IncomeAtSnoc(a: Amounts, kept: seq<SnapshotRef>, p: seq<int>, s: Series)
    requires HasPrevious(kept) && IncomeAt(a, kept, p, s)
    ensures IncomeAt(a, kept, p + [|kept| - 1], Extend(s, a, kept[|kept| - 1], PrevOf(kept)))
  {
    var j := |kept| - 1;
    var p' := p + [j];
    var s' := Extend(s, a, kept[j], PrevOf(kept));
    forall k | 0 <= k < |p'|
      ensures && 1 <= p'[k] < |kept|
              && s'.income[k] == Point(KeyOf(kept[p'[k]]), a.earnings(kept[p'[k]].id))
              && s'.expense[k] == Point(KeyOf(kept[p'[k]]), Implied(a, kept[p'[k]], kept[p'[k] - 1]))
    {
      if k < |p| {
        assert p'[k] == p[k] && s'.income[k] == s.income[k] && s'.expense[k] == s.expense[k];
      }
    }
  }

  /** Savings points exist exactly for the paired snapshots with positive
      earnings, at the rounded rate. */
  lemma {:induction false} SavingsSeriesPointwise(a: Amounts, kept: seq<SnapshotRef>)
    ensures SavingsAt(a, kept, Earning(a, kept), SeriesOf(a, kept).savings)
  {
    if |kept| >= 2 {
      var init := kept[..|kept| - 1];
      var j := |kept| - 1;
      SavingsSeriesPointwise(a, init);
      var e0 := Earning(a, init);
      var r0 := SeriesOf(a, init).savings;
      SavingsAtPrefix(a, kept, e0, r0);
      SavingsStep(a, kept);
      if HasPrevious(kept) && a.earnings(kept[j].id) > 0 {
        SavingsAtSnoc(a, kept, e0, r0);
      }
    } else if |kept| == 1 {
      assert kept[..0] == [];
    }
  }

  /** The savings point of the snapshot at index `j`, compared with the one before it. */
  function SavingsPointAt(a: Amounts, kept: seq<SnapshotRef>, j: int): SavingsPoint
    requires 1 <= j < |kept| && a.earnings(kept[j].id) > 0
  {
    SavingsPoint(KeyOf(kept[j]), SavingsRate(a.earnings(kept[j].id), Implied(a, kept[j], kept[j - 1])))
  }

  /** `r` holds the savings points of the indices `e` of `kept`. */
  ghost predicate SavingsAt(a: Amounts, kept: seq<SnapshotRef>, e: seq<int>, r: seq<SavingsPoint>) {
    && |r| == |e|
    && forall k :: 0 <= k < |e| ==>
         1 <= e[k] < |kept| && a.earnings(kept[e[k]].id) > 0 && r[k] == SavingsPointAt(a, kept, e[k])
  }

  /** Points of earlier snapshots are unchanged by showing one more. */
  lemma SavingsAtPrefix(a: Amounts, kept: seq<SnapshotRef>, e: seq<int>, r: seq<SavingsPoint>)
    requires |kept| >= 1 && SavingsAt(a, kept[..|kept| - 1], e, r)
    ensures SavingsAt(a, kept, e, r)
  {
    var init := kept[..|kept| - 1];
    forall k | 0 <= k < |e| ensures r[k] == SavingsPointAt(a, kept, e[k]) {
      assert kept[e[k]] == init[e[k]] && kept[e[k] - 1] == init[e[k] - 1];
    }
  }

  lemma SavingsAtSnoc(a: Amounts, kept: seq<SnapshotRef>, e: seq<int>, r: seq<SavingsPoint>)
    requires |kept| >= 2 && a.earnings(kept[|kept| - 1].id) > 0 && SavingsAt(a, kept, e, r)
    ensures SavingsAt(a, kept, e + [|kept| - 1], r + [SavingsPointAt(a, kept, |kept| - 1)])
  {
    var e' := e + [|kept| - 1];
    var r' := r + [SavingsPointAt(a, kept, |kept| - 1)];
    forall k | 0 <= k < |e'|
      ensures 1 <= e'[k] < |kept| && a.earnings(kept[e'[k]].id) > 0 && r'[k] == SavingsPointAt(a, kept, e'[k])
    {
      if k < |e| {
        assert e'[k] == e[k] && r'[k] == r[k];
      }
    }
  }

  /** How the last shown snapshot extends the savings series and its index list. */
  lemma SavingsStep(a: Amounts, kept: seq<SnapshotRef>)
    requires |kept| >= 2
    ensures var init := kept[..|kept| - 1];
      var j := |kept| - 1;
      if HasPrevious(kept) && a.earnings(kept[j].id) > 0 then
        && Earning(a, kept) == Earning(a, init) + [j]
        && SeriesOf(a, kept).savings == SeriesOf(a, init).savings
             + [SavingsPoint(KeyOf(kept[j]), SavingsRate(a.earnings(kept[j].id), Implied(a, kept[j], kept[j - 1])))]
      else
        && Earning(a, kept) == Earning(a, init)
        && SeriesOf(a, kept).savings == SeriesOf(a, init).savings
  {
  }

  /** A "Start" snapshot (month 0) never gives an income, implied-spending or
      savings point, and neither does the first shown snapshot. */
  lemma PairedExcludes(a: Amounts, kept: seq<SnapshotRef>)
    ensures forall k :: 0 <= k < |Paired(kept)| ==> Paired(kept)[k] != 0 && kept[Paired(kept)[k]].month != 0
    ensures |Earning(a, kept)| <= |Paired(kept)|
  {
    EarningWithinPaired(a, kept);
  }

  lemma {:induction false} EarningWithinPaired(a: Amounts, kept: seq<SnapshotRef>)
    ensures |Earning(a, kept)| <= |Paired(kept)|
  {
    if |kept| > 1 {
      EarningWithinPaired(a, kept[..|kept| - 1]);
    }
  }

  /** The worked example: "Start" with cash 1000, then month 1 with cash 800,
      assets 300, earnings 2000 and investments 300 gives net worth 1100,
      implied spending 1900 and a savings rate of 5. */
  lemma WorkedExample()
    ensures var a := Amounts(
        id => if id == "s0" then 1000 else 800,
        id => if id == "s0" then 0 else 300,
        id => 0,
        id => if id == "s0" then 0 else 2000,
        id => if id == "s0" then 0 else 300);
      var s0 := SnapshotRef("s0", 2024, 0);
      var s1 := SnapshotRef("s1", 2024, 1);
      && NetWorth(a, "s1") == 1100
      && Implied(a, s1, s0) == 1900
      && SavingsRate(2000, 1900) == 5
  {
    assert (2000 - 1900) as real / 2000 as real * 100.0 == 5.0;
  }

  /** One turn of the dashboard's loop: the points of `snap`, computed in the
      order the source computes them, with `prev` the snapshot shown before. */
  method AppendSnapshot(a: Amounts, snap: SnapshotRef, prev: Option<SnapshotRef>, s: Series) returns (s': Series)
    ensures s' == Extend(s, a, snap, prev)
  {
    var netWorthPts, incomePts, expensePts, nwBkPts, savPts := s.netWorth, s.income, s.expense, s.breakdown, s.savings;
    var cash := a.cash(snap.id);
    var assets := a.assets(snap.id);
    var debts := a.debts(snap.id);
    var earnings := a.earnings(snap.id);
    var nw := cash + assets - debts;
    var monthKey := YearMonth(snap.year, snap.month);
    netWorthPts := netWorthPts + [Point(monthKey, nw)];
    nwBkPts := nwBkPts + [BreakdownPoint(monthKey, cash, assets)];
    if snap.month >= 1 && prev.Some? {
      incomePts := incomePts + [Point(monthKey, earnings)];
      var p := prev.value;
      var pCash := a.cash(p.id);
      var pAssets := a.assets(p.id);
      var pDebts := a.debts(p.id);
      var pNw := pCash + pAssets - pDebts;
      var deltaNw := nw - pNw;
      var deltaA := assets - pAssets;
      var inv := a.investments(snap.id);
      var appreciation := deltaA - inv;
      var implied := earnings - deltaNw + appreciation;
      expensePts := expensePts + [Point(monthKey, implied)];
      if earnings > 0 {
        var saved := earnings - implied;
        savPts := savPts + [SavingsPoint(monthKey, SavedPercent(saved, earnings))];
      }
    }
    s' := Series(netWorthPts, incomePts, expensePts, nwBkPts, savPts);
  }

  /** The loop over the shown snapshots carrying the previous one; `a` holds
      the lookups `bySnap.get(id) || 0` of each kind. */
  method BuildSeries(a: Amounts, kept: seq<SnapshotRef>) returns (s: Series)
    ensures s == SeriesOf(a, kept)
  {
    s := NoSeries;
    var prev: Option<SnapshotRef> := None;
    for i := 0 to |kept|
      invariant prev == if i == 0 then None else Some(kept[i - 1])
      invariant s == SeriesOf(a, kept[..i])
    {
      assert kept[..i + 1][..i] == kept[..i];
      s := AppendSnapshot(a, kept[i], prev, s);
      prev := Some(kept[i]);
    }
    assert kept[..|kept|] == kept;
  }
}
