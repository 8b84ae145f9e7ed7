/** `loadYearData` without the queries: the fetched snapshots of one year and
    their rows grouped into the table's snapshots by month, the sorted row
    names of each kind, and the class recorded for each asset name. */
module WealthYearLoad {

  import opened Common
  import opened Sorting
  import opened WealthRows
  import opened WealthTable

  /** A fetched row (`id, snapshot_id, name, amount, asset_class`); for an
      investment the name is its `asset_name`. */
  datatype ItemRow = ItemRow(id: string, snapshotId: string, name: string, amount: int, assetClass: Option<string>)

  datatype YearRows = YearRows(
    cash: seq<ItemRow>,
    assets: seq<ItemRow>,
    debts: seq<ItemRow>,
    earnings: seq<ItemRow>,
    investments: seq<ItemRow>)

  /** The table item of a row; only assets keep their class. */
  function ItemOf(r: ItemRow, withClass: bool): WealthItem {
    WealthItem(r.id, r.name, r.amount, if withClass then r.assetClass else None)
  }

  /** `rows.filter(r => r.snapshot_id === id).map(...)`. */
  function ItemsOf(rows: seq<ItemRow>, id: string, withClass: bool): (r: seq<WealthItem>)
    ensures forall x :: x in r <==> exists i :: 0 <= i < |rows| && rows[i].snapshotId == id && x == ItemOf(rows[i], withClass)
  {
    if rows == [] then []
    else
      var init := rows[..|rows| - 1];
      var last := rows[|rows| - 1];
      var r := ItemsOf(init, id, withClass) + if last.snapshotId == id then [ItemOf(last, withClass)] else [];
      assert forall i :: 0 <= i < |init| ==> init[i] == rows[i];
      r
  }

  /** The snapshot the table holds for a fetched snapshot. */
  function SnapshotFrom(ref: SnapshotRef, rows: YearRows): Snapshot {
    Snapshot(ref.id, ref.year, ref.month,
      ItemsOf(rows.cash, ref.id, false),
      ItemsOf(rows.assets, ref.id, true),
      ItemsOf(rows.debts, ref.id, false),
      ItemsOf(rows.earnings, ref.id, false),
      ItemsOf(rows.investments, ref.id, false))
  }

  /** `snapshotMap[snap.month] = ...` for each fetched snapshot in turn. */
  function SnapshotMapOf(refs: seq<SnapshotRef>, rows: YearRows): map<int, Snapshot> {
    if refs == [] then map[]
    else
      var last := refs[|refs| - 1];
      SnapshotMapOf(refs[..|refs| - 1], rows)[last.month := SnapshotFrom(last, rows)]
  }

  /** A month has a snapshot exactly when some fetched snapshot is of that month. */
  lemma {:induction false} SnapshotMapMonths(refs: seq<SnapshotRef>, rows: YearRows)
    ensures forall m :: m in SnapshotMapOf(refs, rows) <==> exists i :: 0 <= i < |refs| && refs[i].month == m
  {
    if refs != [] {
      var init := refs[..|refs| - 1];
      SnapshotMapMonths(init, rows);
      forall m ensures m in SnapshotMapOf(refs, rows) <==> exists i :: 0 <= i < |refs| && refs[i].month == m {
        if exists i :: 0 <= i < |refs| && refs[i].month == m {
          var i :| 0 <= i < |refs| && refs[i].month == m;
          if i < |init| {
            assert init[i] == refs[i];
          }
        }
        if m in SnapshotMapOf(init, rows) {
          var i :| 0 <= i < |init| && init[i].month == m;
          assert refs[i] == init[i];
        }
      }
    }
  }

  /** The snapshot of a month is the last fetched snapshot of that month,
      with its rows. */
  lemma {:induction false} SnapshotMapLast(refs: seq<SnapshotRef>, rows: YearRows, i: int)
    requires 0 <= i < |refs|
    requires forall j :: i < j < |refs| ==> refs[j].month != refs[i].month
    ensures refs[i].month in SnapshotMapOf(refs, rows)
    ensures SnapshotMapOf(refs, rows)[refs[i].month] == SnapshotFrom(refs[i], rows)
  {
    var init := refs[..|refs| - 1];
    if i < |refs| - 1 {
      assert init[i] == refs[i];
      forall j | i < j < |init| ensures init[j].month != init[i].month {
        assert init[j] == refs[j];
      }
      SnapshotMapLast(init, rows, i);
    }
  }

  /** `items.forEach(i => set.add(i.name))` on a set kept in insertion order. */
  function AddNames(names: seq<string>, items: seq<WealthItem>): (r: seq<string>)
    ensures (forall i, j :: 0 <= i < j < |names| ==> names[i] != names[j]) ==>
              forall i, j :: 0 <= i < j < |r| ==> r[i] != r[j]
    ensures forall n :: n in r <==> n in names || exists i :: 0 <= i < |items| && items[i].name == n
  {
    if items == [] then names
    else
      var init := items[..|items| - 1];
      var last := items[|items| - 1];
      var before := AddNames(names, init);
      assert forall i :: 0 <= i < |init| ==> init[i] == items[i];
      if last.name in before then before else before + [last.name]
  }

  /** The names of a kind over the fetched snapshots, in order of first appearance. */
  function NamesOf(refs: seq<SnapshotRef>, rows: seq<ItemRow>, withClass: bool): (r: seq<string>)
    ensures forall i, j :: 0 <= i < j < |r| ==> r[i] != r[j]
    ensures forall n :: n in r <==> exists k, i :: 0 <= k < |refs| && 0 <= i < |rows| && rows[i].snapshotId == refs[k].id && rows[i].name == n
  {
    if refs == [] then []
    else
      var init := refs[..|refs| - 1];
      var last := refs[|refs| - 1];
      var before := NamesOf(init, rows, withClass);
      var items := ItemsOf(rows, last.id, withClass);
      assert forall k :: 0 <= k < |init| ==> init[k] == refs[k];
      forall n | n in AddNames(before, items)
        ensures exists k, i :: 0 <= k < |refs| && 0 <= i < |rows| && rows[i].snapshotId == refs[k].id && rows[i].name == n
      {
        if n !in before {
          var j :| 0 <= j < |items| && items[j].name == n;
          assert items[j] in items;
        }
      }
      forall n | exists k, i :: 0 <= k < |refs| && 0 <= i < |rows| && rows[i].snapshotId == refs[k].id && rows[i].name == n
        ensures n in AddNames(before, items)
      {
        var k, i :| 0 <= k < |refs| && 0 <= i < |rows| && rows[i].snapshotId == refs[k].id && rows[i].name == n;
        if k == |refs| - 1 {
          var x := ItemOf(rows[i], withClass);
          assert x in items;
          var j :| 0 <= j < |items| && items[j] == x;
        }
      }
      AddNames(before, items)
  }

  /** Sorting a list of distinct names keeps them distinct and keeps the same names. */
  lemma SortedDistinct(names: seq<string>, r: seq<string>)
    requires forall i, j :: 0 <= i < j < |names| ==> names[i] != names[j]
    requires r == SortBy(names, LexLe)
    ensures forall i, j :: 0 <= i < j < |r| ==> r[i] != r[j]
    ensures forall n :: n in r <==> n in names
  {
    DistinctByCount(names);
    DistinctByCount(r);
    forall n ensures n in r <==> n in names {
      assert n in r <==> n in multiset(r);
      assert n in names <==> n in multiset(names);
    }
  }

  /** `Array.from(names).sort()`: the names sorted, each once. */
  function SortedNames(refs: seq<SnapshotRef>, rows: seq<ItemRow>, withClass: bool): (r: seq<string>)
    ensures SortedBy(r, LexLe)
    ensures forall i, j :: 0 <= i < j < |r| ==> r[i] != r[j]
    ensures forall n :: n in r <==> exists k, i :: 0 <= k < |refs| && 0 <= i < |rows| && rows[i].snapshotId == refs[k].id && rows[i].name == n
  {
    LexLeIsTotalPreorder();
    var names := NamesOf(refs, rows, withClass);
    var r := SortBy(names, LexLe);
    SortedDistinct(names, r);
    r
  }

  /** The class of a row when it is set and not empty (`ac &&`). */
  function TruthyClass(r: WealthItem): Option<string> {
    if r.assetClass.Some? && r.assetClass.value != "" then r.assetClass else None
  }

  /** `if (ac && !assetClassesMap[a.name]) assetClassesMap[a.name] = ac` for one asset. */
  function RecordClass(m: map<string, string>, a: WealthItem): (r: map<string, string>)
    ensures forall n :: n in m && m[n] != "" ==> n in r && r[n] == m[n]
    ensures forall n :: n in r ==> n in m || (a.name == n && TruthyClass(a) == Some(r[n]))
    ensures TruthyClass(a).Some? ==> a.name in r && r[a.name] != ""
  {
    var ac := TruthyClass(a);
    if ac.Some? && (a.name !in m || m[a.name] == "") then m[a.name := ac.value] else m
  }

  /** The same over the assets of one snapshot. */
  function RecordClasses(m: map<string, string>, items: seq<WealthItem>): (r: map<string, string>)
    ensures forall n :: n in m && m[n] != "" ==> n in r && r[n] == m[n]
    ensures forall n :: n in r ==> n in m || exists i :: 0 <= i < |items| && items[i].name == n && TruthyClass(items[i]) == Some(r[n])
    ensures forall i :: 0 <= i < |items| && TruthyClass(items[i]).Some? ==> items[i].name in r && r[items[i].name] != ""
  {
    if items == [] then m
    else
      var init := items[..|items| - 1];
      var before := RecordClasses(m, init);
      assert forall i :: 0 <= i < |init| ==> init[i] == items[i];
      RecordClass(before, items[|items| - 1])
  }

  /** `assetClassesMap` after the loop over the fetched snapshots. */
  function ClassesOf(refs: seq<SnapshotRef>, assets: seq<ItemRow>): map<string, string> {
    if refs == [] then map[]
    else RecordClasses(ClassesOf(refs[..|refs| - 1], assets), ItemsOf(assets, refs[|refs| - 1].id, true))
  }

  /** A recorded class is not empty and is the class of an asset row of that
      name in a fetched snapshot. */
  lemma {:induction false} ClassRecorded(refs: seq<SnapshotRef>, assets: seq<ItemRow>, n: string)
    requires n in ClassesOf(refs, assets)
    ensures ClassesOf(refs, assets)[n] != ""
    ensures exists k, i :: 0 <= k < |refs| && 0 <= i < |assets| && assets[i].snapshotId == refs[k].id
                           && assets[i].name == n && assets[i].assetClass == Some(ClassesOf(refs, assets)[n])
  {
    var init := refs[..|refs| - 1];
    var last := refs[|refs| - 1];
    var before := ClassesOf(init, assets);
    var items := ItemsOf(assets, last.id, true);
    var m := RecordClasses(before, items);
    if n in before {
      ClassRecorded(init, assets, n);
      var k, i :| 0 <= k < |init| && 0 <= i < |assets| && assets[i].snapshotId == init[k].id
                  && assets[i].name == n && assets[i].assetClass == Some(before[n]);
      assert refs[k] == init[k];
    } else {
      var j :| 0 <= j < |items| && items[j].name == n && TruthyClass(items[j]) == Some(m[n]);
      assert items[j] in items;
      var i :| 0 <= i < |assets| && assets[i].snapshotId == last.id && items[j] == ItemOf(assets[i], true);
    }
  }

  /** Every asset row with a class in a fetched snapshot has its name recorded. */
  lemma {:induction false} RowClassRecorded(refs: seq<SnapshotRef>, assets: seq<ItemRow>, k: int, i: int)
    requires 0 <= k < |refs| && 0 <= i < |assets| && assets[i].snapshotId == refs[k].id
    requires assets[i].assetClass.Some? && assets[i].assetClass.value != ""
    ensures assets[i].name in ClassesOf(refs, assets)
  {
    var init := refs[..|refs| - 1];
    var last := refs[|refs| - 1];
    var items := ItemsOf(assets, last.id, true);
    if k == |refs| - 1 {
      var x := ItemOf(assets[i], true);
      assert x in items;
      var j :| 0 <= j < |items| && items[j] == x;
    } else {
      assert init[k] == refs[k];
      RowClassRecorded(init, assets, k, i);
      ClassRecorded(init, assets, assets[i].name);
    }
  }

  /** The table `loadYearData` sets for `year`. */
  function YearDataOf(year: int, refs: seq<SnapshotRef>, rows: YearRows): YearData {
    YearData(year,
      SortedNames(refs, rows.cash, false),
      SortedNames(refs, rows.assets, true),
      ClassesOf(refs, rows.assets),
      SortedNames(refs, rows.debts, false),
      SortedNames(refs, rows.earnings, false),
      SnapshotMapOf(refs, rows))
  }

  /** The `forEach(add)` loop over one snapshot's items. */
  method AddAll(names: seq<string>, items: seq<WealthItem>) returns (r: seq<string>)
    ensures r == AddNames(names, items)
  {
    r := names;
    for i := 0 to |items|
      invariant r == AddNames(names, items[..i])
    {
      assert items[..i + 1][..i] == items[..i];
      if items[i].name !in r {
        r := r + [items[i].name];
      }
    }
    assert items[..|items|] == items;
  }

  /** The asset `.map` callback's class bookkeeping over one snapshot's assets. */
  method Record(m: map<string, string>, items: seq<WealthItem>) returns (r: map<string, string>)
    ensures r == RecordClasses(m, items)
  {
    r := m;
    for i := 0 to |items|
      invariant r == RecordClasses(m, items[..i])
    {
      assert items[..i + 1][..i] == items[..i];
      var a := items[i];
      var ac := a.assetClass;
      if ac.Some? && ac.value != "" && (a.name !in r || r[a.name] == "") {
        r := r[a.name := ac.value];
      }
      assert r == RecordClass(RecordClasses(m, items[..i]), a);
    }
    assert items[..|items|] == items;
  }

  /** The loop over the fetched snapshots, then the sorted name lists. */
  method LoadYearData(year: int, refs: seq<SnapshotRef>, rows: YearRows) returns (yd: YearData)
    ensures yd == YearDataOf(year, refs, rows)
  {
    var snapshotMap: map<int, Snapshot> := map[];
    var allCashNames: seq<string> := [];
    var allAssetNames: seq<string> := [];
    var allDebtNames: seq<string> := [];
    var allEarningNames: seq<string> := [];
    var assetClassesMap: map<string, string> := map[];
    for k := 0 to |refs|
      invariant snapshotMap == SnapshotMapOf(refs[..k], rows)
      invariant allCashNames == NamesOf(refs[..k], rows.cash, false)
      invariant allAssetNames == NamesOf(refs[..k], rows.assets, true)
      invariant allDebtNames == NamesOf(refs[..k], rows.debts, false)
      invariant allEarningNames == NamesOf(refs[..k], rows.earnings, false)
      invariant assetClassesMap == ClassesOf(refs[..k], rows.assets)
    {
      var snap := refs[k];
      assert refs[..k + 1][..k] == refs[..k];
      var snapshot := SnapshotFrom(snap, rows);
      assetClassesMap := Record(assetClassesMap, snapshot.assets);
      allCashNames := AddAll(allCashNames, snapshot.cashAccounts);
      allAssetNames := AddAll(allAssetNames, snapshot.assets);
      allDebtNames := AddAll(allDebtNames, snapshot.debts);
      allEarningNames := AddAll(allEarningNames, snapshot.earnings);
      snapshotMap := snapshotMap[snap.month := snapshot];
    }
    assert refs[..|refs|] == refs;
    LexLeIsTotalPreorder();
    yd := YearData(year,
      SortBy(allCashNames, LexLe),
      SortBy(allAssetNames, LexLe),
      assetClassesMap,
      SortBy(allDebtNames, LexLe),
      SortBy(allEarningNames, LexLe),
      snapshotMap);
  }
}
