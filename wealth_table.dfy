/** The per-year wealth table: one optional snapshot per month 0..12 (0 being
    the "Start" balance), each holding named items of five kinds, and the
    figures the table derives from it. */
module WealthTable {

  import opened Common

  datatype Kind = Cash | Asset | Debt | Earning | Investment

  /** A table row; only assets may carry a class. */
  datatype WealthItem = WealthItem(id: string, name: string, amount: int, assetClass: Option<string>)

  datatype Snapshot = Snapshot(
    id: string,
    year: int,
    month: int,
    cashAccounts: seq<WealthItem>,
    assets: seq<WealthItem>,
    debts: seq<WealthItem>,
    earnings: seq<WealthItem>,
    investments: seq<WealthItem>)
  {
    /** The item list of a kind (`typeToKey`). */
    function Items(kind: Kind): seq<WealthItem> {
      match kind
      case Cash => cashAccounts
      case Asset => assets
      case Debt => debts
      case Earning => earnings
      case Investment => investments
    }

    /** `{ ...snapshot, [key]: items }`. */
    function WithItems(kind: Kind, items: seq<WealthItem>): (r: Snapshot)
      ensures r.Items(kind) == items
      ensures forall k :: k != kind ==> r.Items(k) == Items(k)
      ensures r.id == id && r.year == year && r.month == month
    {
      match kind
      case Cash => this.(cashAccounts := items)
      case Asset => this.(assets := items)
      case Debt => this.(debts := items)
      case Earning => this.(earnings := items)
      case Investment => this.(investments := items)
    }
  }

  /** A snapshot with no items, as `ensureSnapshot` creates it. */
  function EmptySnapshot(id: string, year: int, month: int): Snapshot {
    Snapshot(id, year, month, [], [], [], [], [])
  }

  /** The table of one year: the sorted name lists (the rows of the table),
      the recorded class of each asset name, and the snapshots by month. */
  datatype YearData = YearData(
    year: int,
    cashAccountNames: seq<string>,
    assetNames: seq<string>,
    assetClasses: map<string, string>,
    debtNames: seq<string>,
    earningNames: seq<string>,
    snapshots: map<int, Snapshot>)
  {
    /** The name list of a kind; investments are listed under the asset names. */
    function Names(kind: Kind): seq<string> {
      match kind
      case Cash => cashAccountNames
      case Asset => assetNames
      case Debt => debtNames
      case Earning => earningNames
      case Investment => assetNames
    }

    function WithNames(kind: Kind, names: seq<string>): (r: YearData)
      ensures r.Names(kind) == names
      ensures kind != Asset && kind != Investment ==> r.assetNames == assetNames
      ensures r.assetClasses == assetClasses && r.snapshots == snapshots && r.year == year
    {
      match kind
      case Cash => this.(cashAccountNames := names)
      case Asset => this.(assetNames := names)
      case Debt => this.(debtNames := names)
      case Earning => this.(earningNames := names)
      case Investment => this.(assetNames := names)
    }
  }

  /** The state before anything is loaded. */
  function EmptyYear(year: int): YearData {
    YearData(year, [], [], map[], [], [], map[])
  }

  function ItemAmount(i: WealthItem): int {
    i.amount
  }

  /** `items.findIndex(i => i.name === name)`: the first index holding `name`,
      or -1. */
  function FindIndex(items: seq<WealthItem>, name: string): (r: int)
    ensures -1 <= r < |items|
    ensures r >= 0 ==> items[r].name == name
    ensures forall j :: 0 <= j < |items| && (r < 0 || j < r) ==> items[j].name != name
  {
    if items == [] then -1
    else if items[0].name == name then 0
    else
      var r := FindIndex(items[1..], name);
      assert forall j :: 1 <= j < |items| ==> items[j] == items[1..][j - 1];
      if r < 0 then -1 else r + 1
  }

  /** The first index holding `name` is determined by its defining property. */
  lemma FindIndexIs(items: seq<WealthItem>, name: string, r: int)
    requires -1 <= r < |items|
    requires r >= 0 ==> items[r].name == name
    requires forall j :: 0 <= j < |items| && (r < 0 || j < r) ==> items[j].name != name
    ensures FindIndex(items, name) == r
  {
    var f := FindIndex(items, name);
    if f >= 0 && r >= 0 {
      assert !(f < r) && !(r < f);
    }
  }

  /** `items.find(i => i.name === name)?.amount ?? 0`. */
  function ValueOf(items: seq<WealthItem>, name: string): int {
    var idx := FindIndex(items, name);
    if idx >= 0 then items[idx].amount else 0
  }

  /** `getCellValue`: the amount of the first item named `name` of that kind
      in that month, 0 when there is none or the month has no snapshot. */
  function CellValue(yd: YearData, kind: Kind, name: string, month: int): int {
    if month in yd.snapshots then ValueOf(yd.snapshots[month].Items(kind), name) else 0
  }

  /** `getTotal`: the sum of the amounts of a kind in a month, 0 without a snapshot. */
  function Total(yd: YearData, kind: Kind, month: int): int {
    if month in yd.snapshots then SumOf(yd.snapshots[month].Items(kind), ItemAmount) else 0
  }

  /** `getNetWorth`. */
  function NetWorth(yd: YearData, month: int): int {
    Total(yd, Cash, month) + Total(yd, Asset, month) - Total(yd, Debt, month)
  }

  /** Some cash, asset or debt item of the snapshot has a nonzero amount. */
  predicate HasNonzeroBalance(s: Snapshot) {
    exists kind, i :: (kind == Cash || kind == Asset || kind == Debt) && 0 <= i < |s.Items(kind)| && s.Items(kind)[i].amount != 0
  }

  /** `isMonthPopulated`: the snapshot exists and some cash, asset or debt item
      is nonzero. */
  predicate IsMonthPopulated(yd: YearData, month: int) {
    month in yd.snapshots && HasNonzeroBalance(yd.snapshots[month])
  }

  /** `[...cashAccounts, ...assets, ...debts].some(i => i.amount !== 0)` is the
      same test. */
  lemma IsMonthPopulatedBySome(yd: YearData, month: int)
    requires month in yd.snapshots
    ensures var s := yd.snapshots[month];
      var all := s.cashAccounts + s.assets + s.debts;
      IsMonthPopulated(yd, month) <==> exists i :: 0 <= i < |all| && all[i].amount != 0
  {
    var s := yd.snapshots[month];
    var all := s.cashAccounts + s.assets + s.debts;
    if IsMonthPopulated(yd, month) {
      var kind, i :| (kind == Cash || kind == Asset || kind == Debt) && 0 <= i < |s.Items(kind)| && s.Items(kind)[i].amount != 0;
      var j := if kind == Cash then i else if kind == Asset then |s.cashAccounts| + i else |s.cashAccounts| + |s.assets| + i;
      assert all[j] == s.Items(kind)[i];
    }
    if exists i :: 0 <= i < |all| && all[i].amount != 0 {
      var i :| 0 <= i < |all| && all[i].amount != 0;
      if i < |s.cashAccounts| {
        assert s.Items(Cash)[i] == all[i];
      } else if i < |s.cashAccounts| + |s.assets| {
        assert s.Items(Asset)[i - |s.cashAccounts|] == all[i];
      } else {
        assert s.Items(Debt)[i - |s.cashAccounts| - |s.assets|] == all[i];
      }
    }
  }

  lemma {:induction false} SumOfZeros(items: seq<WealthItem>)
    requires forall i :: 0 <= i < |items| ==> items[i].amount == 0
    ensures SumOf(items, ItemAmount) == 0
  {
    if items != [] {
      SumOfZeros(items[..|items| - 1]);
    }
  }

  /** A month that is not populated has zero cash, assets, debts and net worth. */
  lemma UnpopulatedIsZero(yd: YearData, month: int)
    requires !IsMonthPopulated(yd, month)
    ensures Total(yd, Cash, month) == 0 && Total(yd, Asset, month) == 0 && Total(yd, Debt, month) == 0
    ensures NetWorth(yd, month) == 0
  {
    if month in yd.snapshots {
      var s := yd.snapshots[month];
      forall kind | kind == Cash || kind == Asset || kind == Debt
        ensures SumOf(s.Items(kind), ItemAmount) == 0
      {
        SumOfZeros(s.Items(kind));
      }
    }
  }

  /** Both this month and the one before are populated (and this is not month 0). */
  predicate HasPair(yd: YearData, month: int) {
    month != 0 && IsMonthPopulated(yd, month) && IsMonthPopulated(yd, month - 1)
  }

  /** `getAssetPerformance`: the change in assets less the money invested. */
  function AssetPerformance(yd: YearData, month: int): (r: Option<int>)
    ensures r.Some? <==> HasPair(yd, month)
  {
    if month == 0 then None
    else if !IsMonthPopulated(yd, month) || !IsMonthPopulated(yd, month - 1) then None
    else Some(Total(yd, Asset, month) - Total(yd, Asset, month - 1) - Total(yd, Investment, month))
  }

  /** `getImpliedSpending`: income less the change in net worth plus the asset
      performance. */
  function ImpliedSpending(yd: YearData, month: int): (r: Option<int>)
    ensures r.Some? <==> HasPair(yd, month)
  {
    if month == 0 then None
    else if !IsMonthPopulated(yd, month) || !IsMonthPopulated(yd, month - 1) then None
    else
      var income := Total(yd, Earning, month);
      var deltaNetWorth := NetWorth(yd, month) - NetWorth(yd, month - 1);
      var appreciation := OrZero(AssetPerformance(yd, month));
      Some(income - deltaNetWorth + appreciation)
  }

  function OrZero(o: Option<int>): int {
    if o.Some? then o.value else 0
  }

  /** The asset terms cancel: implied spending is earnings less the change in
      cash, plus the change in debts, less the money invested. */
  lemma ImpliedSpendingCancels(yd: YearData, month: int)
    requires HasPair(yd, month)
    ensures ImpliedSpending(yd, month) == Some(
      Total(yd, Earning, month)
      - (Total(yd, Cash, month) - Total(yd, Cash, month - 1))
      + (Total(yd, Debt, month) - Total(yd, Debt, month - 1))
      - Total(yd, Investment, month))
  {
    assert AssetPerformance(yd, month).Some?;
  }

  /** `getAssetPerformanceFor`: the change of one asset less what was invested
      in it; only this month needs to be populated, and an asset that is 0 in
      both months has none. */
  function AssetPerformanceFor(yd: YearData, name: string, month: int): (r: Option<int>)
    ensures r.Some? <==> month != 0 && IsMonthPopulated(yd, month)
                         && (CellValue(yd, Asset, name, month - 1) != 0 || CellValue(yd, Asset, name, month) != 0)
    ensures r.Some? ==> r.value + CellValue(yd, Investment, name, month)
                        == CellValue(yd, Asset, name, month) - CellValue(yd, Asset, name, month - 1)
  {
    if month == 0 then None
    else if !IsMonthPopulated(yd, month) then None
    else
      var prevVal := CellValue(yd, Asset, name, month - 1);
      var currVal := CellValue(yd, Asset, name, month);
      var inv := CellValue(yd, Investment, name, month);
      if prevVal == 0 && currVal == 0 then None
      else Some(currVal - prevVal - inv)
  }

  /** `latestPopulatedMonth`: the countdown from 12 to 0. */
  method LatestPopulatedMonth(yd: YearData) returns (m: int)
    ensures 0 <= m <= 12
    ensures forall k :: m < k <= 12 ==> !IsMonthPopulated(yd, k)
    ensures IsMonthPopulated(yd, m) || (m == 0 && forall k :: 0 <= k <= 12 ==> !IsMonthPopulated(yd, k))
  {
    var k := 12;
    while k >= 0
      invariant -1 <= k <= 12
      invariant forall j :: k < j <= 12 ==> !IsMonthPopulated(yd, j)
      decreases k + 1
    {
      if IsMonthPopulated(yd, k) {
        return k;
      }
      k := k - 1;
    }
    return 0;
  }
}
