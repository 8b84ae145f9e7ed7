/** The in-memory edits of the wealth table: the optimistic update of a cell,
    deleting a row from every month, and adding a row name. Each edit replaces
    the table's `yearData` state. */
module WealthEditor {

  import opened Common
  import opened Sorting
  import opened WealthTable

  /** The class a new asset item carries: the recorded class of its name,
      when there is one and it is not empty (`...(assetClass ? { assetClass } : {})`). */
  function NewItemClass(yd: YearData, kind: Kind, name: string): Option<string> {
    if kind == Asset && name in yd.assetClasses && yd.assetClasses[name] != "" then Some(yd.assetClasses[name])
    else None
  }

  /** The snapshot the update applies to: the existing one, or the one just
      created with id `created`; none when creating it failed. */
  function TargetSnapshot(yd: YearData, month: int, created: Option<string>): Option<Snapshot> {
    if month in yd.snapshots then Some(yd.snapshots[month])
    else if created.Some? then Some(EmptySnapshot(created.value, yd.year, month))
    else None
  }

  /** `items[idx] = { ...items[idx], amount }` for the first item named
      `name`, or `items.push(newItem)` when there is none. */
  function SetAmount(items: seq<WealthItem>, name: string, amount: int, newItem: WealthItem): seq<WealthItem> {
    var idx := FindIndex(items, name);
    if idx >= 0 then items[idx := items[idx].(amount := amount)] else items + [newItem]
  }

  /** The table after `updateCell(kind, name, month, value)`: `created` is the
      id `ensureSnapshot` returned for a month that had no snapshot (None when
      it failed), `tempId` the temporary id of a new item. */
  function CellUpdated(yd: YearData, kind: Kind, name: string, month: int, value: int,
                       created: Option<string>, tempId: string): YearData {
    var target := TargetSnapshot(yd, month, created);
    if target.None? then yd
    else
      var s := target.value;
      var newItem := WealthItem(tempId, name, value, NewItemClass(yd, kind, name));
      yd.(snapshots := yd.snapshots[month := s.WithItems(kind, SetAmount(s.Items(kind), name, value, newItem))])
  }

  /** After the update the cell shows the new value; a name that already had
      an item keeps the same number of items (it is overwritten, not
      duplicated), and a new name adds one item, which for an asset carries
      the recorded class. */
  lemma UpdateCellSetsValue(yd: YearData, kind: Kind, name: string, month: int, value: int,
                            created: Option<string>, tempId: string)
    requires month in yd.snapshots || created.Some?
    ensures var after := CellUpdated(yd, kind, name, month, value, created, tempId);
      var before := TargetSnapshot(yd, month, created).value.Items(kind);
      var items := after.snapshots[month].Items(kind);
      && CellValue(after, kind, name, month) == value
      && (FindIndex(before, name) >= 0 ==> |items| == |before|)
      && (FindIndex(before, name) < 0 ==> |items| == |before| + 1 && items[|before|].assetClass == NewItemClass(yd, kind, name))
  {
    var before := TargetSnapshot(yd, month, created).value.Items(kind);
    var newItem := WealthItem(tempId, name, value, NewItemClass(yd, kind, name));
    var items := SetAmount(before, name, value, newItem);
    var idx := FindIndex(before, name);
    if idx >= 0 {
      FindIndexIs(items, name, idx);
    } else {
      FindIndexIs(items, name, |before|);
    }
  }

  /** Changing the first item named `name` or appending one leaves the value
      of every other name as it was. */
  lemma SetAmountKeepsOthers(items: seq<WealthItem>, name: string, amount: int, newItem: WealthItem, other: string)
    requires newItem.name == name && other != name
    ensures ValueOf(SetAmount(items, name, amount, newItem), other) == ValueOf(items, other)
  {
    var r := SetAmount(items, name, amount, newItem);
    var idx := FindIndex(items, name);
    var j := FindIndex(items, other);
    forall k | 0 <= k < |items| ensures r[k].name == items[k].name && (k != idx ==> r[k] == items[k]) {
    }
    if j >= 0 {
      FindIndexIs(r, other, j);
    } else {
      FindIndexIs(r, other, -1);
    }
  }

  /** Nothing else changes: other months, other kinds, other names, the name
      lists and the recorded classes. */
  lemma UpdateCellKeepsRest(yd: YearData, kind: Kind, name: string, month: int, value: int,
                            created: Option<string>, tempId: string)
    ensures var after := CellUpdated(yd, kind, name, month, value, created, tempId);
      && (forall m :: m != month ==> (m in after.snapshots <==> m in yd.snapshots))
      && (forall m :: m != month && m in yd.snapshots ==> after.snapshots[m] == yd.snapshots[m])
      && (forall k :: k != kind && month in yd.snapshots ==> after.snapshots[month].Items(k) == yd.snapshots[month].Items(k))
      && (forall k, n, m :: n != name ==> CellValue(after, k, n, m) == CellValue(yd, k, n, m))
      && after.cashAccountNames == yd.cashAccountNames && after.assetNames == yd.assetNames
      && after.debtNames == yd.debtNames && after.earningNames == yd.earningNames
      && after.assetClasses == yd.assetClasses
  {
    var after := CellUpdated(yd, kind, name, month, value, created, tempId);
    var target := TargetSnapshot(yd, month, created);
    if target.Some? {
      var s := target.value;
      var newItem := WealthItem(tempId, name, value, NewItemClass(yd, kind, name));
      forall k, n, m | n != name ensures CellValue(after, k, n, m) == CellValue(yd, k, n, m) {
        if m == month && k == kind {
          SetAmountKeepsOthers(s.Items(kind), name, value, newItem, n);
          if month !in yd.snapshots {
            assert ValueOf(s.Items(kind), n) == 0;
          }
        } else if m == month && month !in yd.snapshots {
          assert ValueOf(s.Items(k), n) == 0;
        }
      }
    }
  }

  /** The month total moves by exactly the change of the cell. */
  lemma UpdateCellTotal(yd: YearData, kind: Kind, name: string, month: int, value: int,
                        created: Option<string>, tempId: string)
    requires month in yd.snapshots || created.Some?
    ensures Total(CellUpdated(yd, kind, name, month, value, created, tempId), kind, month)
         == Total(yd, kind, month) - CellValue(yd, kind, name, month) + value
  {
    var s := TargetSnapshot(yd, month, created).value;
    var before := s.Items(kind);
    var newItem := WealthItem(tempId, name, value, NewItemClass(yd, kind, name));
    var after := CellUpdated(yd, kind, name, month, value, created, tempId);
    assert after.snapshots[month].Items(kind) == SetAmount(before, name, value, newItem);
    SetAmountSum(before, name, value, newItem);
    assert Total(yd, kind, month) == SumOf(before, ItemAmount) by {
      if month !in yd.snapshots {
        assert before == [];
      }
    }
    assert CellValue(yd, kind, name, month) == ValueOf(before, name) by {
      if month !in yd.snapshots {
        assert before == [];
      }
    }
  }

  /** Setting the amount of a name moves the sum by the change of its value. */
  lemma SetAmountSum(items: seq<WealthItem>, name: string, amount: int, newItem: WealthItem)
    requires newItem.amount == amount
    ensures SumOf(SetAmount(items, name, amount, newItem), ItemAmount)
         == SumOf(items, ItemAmount) - ValueOf(items, name) + amount
  {
    var idx := FindIndex(items, name);
    if idx >= 0 {
      SumOfUpdate(items, idx, items[idx].(amount := amount));
    } else {
      SumOfAppend(items, [newItem], ItemAmount);
      assert [newItem][..0] == [];
    }
  }

  lemma {:induction false} SumOfUpdate(items: seq<WealthItem>, idx: int, x: WealthItem)
    requires 0 <= idx < |items|
    ensures SumOf(items[idx := x], ItemAmount) == SumOf(items, ItemAmount) - items[idx].amount + x.amount
  {
    var init := items[..|items| - 1];
    if idx < |items| - 1 {
      SumOfUpdate(init, idx, x);
      assert items[idx := x][..|items| - 1] == init[idx := x];
    } else {
      assert items[idx := x][..|items| - 1] == init;
    }
  }

  /** `items.filter(i => i.name !== name)`. */
  function Without(items: seq<WealthItem>, name: string): (r: seq<WealthItem>)
    ensures |r| <= |items|
    ensures forall i :: 0 <= i < |r| ==> r[i].name != name
  {
    if items == [] then []
    else (if items[0].name == name then [] else [items[0]]) + Without(items[1..], name)
  }

  /** Removing one name keeps the value of every other name. */
  lemma {:induction false} WithoutKeepsOthers(items: seq<WealthItem>, name: string, other: string)
    requires other != name
    ensures ValueOf(Without(items, name), other) == ValueOf(items, other)
  {
    if items != [] {
      WithoutKeepsOthers(items[1..], name, other);
      var rest := Without(items[1..], name);
      if items[0].name == name {
        assert Without(items, name) == rest;
        assert FindIndex(items, other) == if FindIndex(items[1..], other) < 0 then -1 else FindIndex(items[1..], other) + 1;
      } else if items[0].name != other {
        assert Without(items, name) == [items[0]] + rest;
        var r := FindIndex(rest, other);
        assert FindIndex([items[0]] + rest, other) == if r < 0 then -1 else r + 1 by {
          assert ([items[0]] + rest)[1..] == rest;
        }
      }
    }
  }

  /** `names.filter(n => n !== name)`. */
  function WithoutName(names: seq<string>, name: string): (r: seq<string>)
    ensures forall n :: n in r <==> n in names && n != name
  {
    if names == [] then []
    else (if names[0] == name then [] else [names[0]]) + WithoutName(names[1..], name)
  }

  /** The snapshot with `name` removed from the kind's items, and for an asset
      also from the investments. */
  function SnapshotWithout(s: Snapshot, kind: Kind, name: string): Snapshot {
    var s1 := s.WithItems(kind, Without(s.Items(kind), name));
    if kind == Asset then s1.(investments := Without(s.investments, name)) else s1
  }

  /** The table after `deleteItem(kind, name)`. */
  function ItemDeleted(yd: YearData, kind: Kind, name: string): YearData {
    var snapshots := map m | m in yd.snapshots :: SnapshotWithout(yd.snapshots[m], kind, name);
    var classes := if kind == Asset then yd.assetClasses - {name} else yd.assetClasses;
    yd.WithNames(kind, WithoutName(yd.Names(kind), name)).(assetClasses := classes, snapshots := snapshots)
  }

  lemma ValueOfWithout(items: seq<WealthItem>, name: string)
    ensures ValueOf(Without(items, name), name) == 0
  {
  }

  /** Kinds whose names are kept in different lists (investments share the
      asset names). */
  predicate ListedApart(k1: Kind, k2: Kind) {
    k1 != k2 && !((k1 == Asset || k1 == Investment) && (k2 == Asset || k2 == Investment))
  }

  /** After deleting, the name is gone from its list and reads 0 in every
      month (and so do its investments, for an asset, whose class is dropped);
      every other name keeps its values, the months stay, and kinds the
      deletion does not touch keep their name lists and items. */
  lemma DeleteItemEffect(yd: YearData, kind: Kind, name: string)
    ensures var after := ItemDeleted(yd, kind, name);
      && name !in after.Names(kind)
      && (forall m :: CellValue(after, kind, name, m) == 0)
      && (kind == Asset ==> (forall m :: CellValue(after, Investment, name, m) == 0) && name !in after.assetClasses)
      && (forall k, n, m :: n != name ==> CellValue(after, k, n, m) == CellValue(yd, k, n, m))
      && after.snapshots.Keys == yd.snapshots.Keys
      && (forall k :: ListedApart(k, kind) ==> after.Names(k) == yd.Names(k))
      && (forall k, m :: m in yd.snapshots && k != kind && !(kind == Asset && k == Investment) ==>
            after.snapshots[m].Items(k) == yd.snapshots[m].Items(k))
  {
    var after := ItemDeleted(yd, kind, name);
    forall m ensures CellValue(after, kind, name, m) == 0 {
      if m in yd.snapshots {
        ValueOfWithout(yd.snapshots[m].Items(kind), name);
      }
    }
    if kind == Asset {
      forall m ensures CellValue(after, Investment, name, m) == 0 {
        if m in yd.snapshots {
          ValueOfWithout(yd.snapshots[m].investments, name);
        }
      }
    }
    forall k, n, m | n != name ensures CellValue(after, k, n, m) == CellValue(yd, k, n, m) {
      if m in yd.snapshots {
        var s := yd.snapshots[m];
        if k == kind || (kind == Asset && k == Investment) {
          WithoutKeepsOthers(s.Items(k), name, n);
        }
      }
    }
  }

  /** `[...names, name].sort()`, or the list unchanged when it has the name. */
  function NameAdded(names: seq<string>, name: string): (r: seq<string>)
    ensures name in names ==> r == names
    ensures name !in names ==> multiset(r) == multiset(names) + multiset{name} && SortedBy(r, LexLe)
  {
    LexLeIsTotalPreorder();
    if name in names then names else SortBy(names + [name], LexLe)
  }

  /** The table after `addItem(kind, name)`. */
  function ItemAdded(yd: YearData, kind: Kind, name: string): YearData {
    if name in yd.Names(kind) then yd else yd.WithNames(kind, NameAdded(yd.Names(kind), name))
  }

  /** The table after `addAsset(name, assetClass)`: the class defaults to "Other". */
  function AssetAdded(yd: YearData, name: string, assetClass: string): YearData {
    if name in yd.assetNames then yd
    else yd.(assetNames := NameAdded(yd.assetNames, name),
             assetClasses := yd.assetClasses[name := if assetClass == "" then "Other" else assetClass])
  }

  /** Adding a name that is listed changes nothing; otherwise the list gains
      exactly that name and is sorted, and for `addAsset` the class is
      recorded, "Other" when none is given. */
  lemma AddEffect(yd: YearData, kind: Kind, name: string, assetClass: string)
    ensures name in yd.Names(kind) ==> ItemAdded(yd, kind, name) == yd
    ensures name !in yd.Names(kind) ==>
      var names := ItemAdded(yd, kind, name).Names(kind);
      multiset(names) == multiset(yd.Names(kind)) + multiset{name} && SortedBy(names, LexLe)
    ensures name in yd.assetNames ==> AssetAdded(yd, name, assetClass) == yd
    ensures name !in yd.assetNames ==>
      var after := AssetAdded(yd, name, assetClass);
      && multiset(after.assetNames) == multiset(yd.assetNames) + multiset{name}
      && SortedBy(after.assetNames, LexLe)
      && after.assetClasses[name] != ""
      && (assetClass != "" ==> after.assetClasses[name] == assetClass)
  {
  }

  /** The wealth table's editing state. */
  class Tracker {
    var yearData: YearData

    constructor(year: int)
      ensures yearData == EmptyYear(year)
    {
      yearData := EmptyYear(year);
    }

    /** The optimistic update of `updateCell`, after `ensureSnapshot`. */
    method UpdateCell(kind: Kind, name: string, month: int, newValue: int, created: Option<string>, tempId: string)
      modifies this
      ensures yearData == CellUpdated(old(yearData), kind, name, month, newValue, created, tempId)
    {
      var snapshot: Snapshot;
      if month in yearData.snapshots {
        snapshot := yearData.snapshots[month];
      } else if created.Some? {
        snapshot := EmptySnapshot(created.value, yearData.year, month);
      } else {
        return;
      }
      var items := snapshot.Items(kind);
      var idx := FindIndex(items, name);
      if idx >= 0 {
        items := items[idx := items[idx].(amount := newValue)];
      } else {
        var assetClass := NewItemClass(yearData, kind, name);
        items := items + [WealthItem(tempId, name, newValue, assetClass)];
      }
      yearData := yearData.(snapshots := yearData.snapshots[month := snapshot.WithItems(kind, items)]);
    }

    method AddItem(kind: Kind, name: string)
      modifies this
      ensures yearData == ItemAdded(old(yearData), kind, name)
    {
      var names := yearData.Names(kind);
      if name in names {
        return;
      }
      yearData := yearData.WithNames(kind, NameAdded(names, name));
    }

    method AddAsset(name: string, assetClass: string)
      modifies this
      ensures yearData == AssetAdded(old(yearData), name, assetClass)
    {
      if name in yearData.assetNames {
        return;
      }
      yearData := yearData.(assetNames := NameAdded(yearData.assetNames, name),
                            assetClasses := yearData.assetClasses[name := if assetClass == "" then "Other" else assetClass]);
    }

    method DeleteItem(kind: Kind, name: string)
      modifies this
      ensures yearData == ItemDeleted(old(yearData), kind, name)
    {
      var snapshots := map m | m in yearData.snapshots :: SnapshotWithout(yearData.snapshots[m], kind, name);
      var classes := yearData.assetClasses;
      if kind == Asset {
        classes := classes - {name};
      }
      yearData := yearData.WithNames(kind, WithoutName(yearData.Names(kind), name)).(assetClasses := classes, snapshots := snapshots);
    }
  }
}
