/** The dashboard's allocation of the last shown snapshot: a "Cash" group
    when cash is positive and one group per asset class, each with its share
    of cash + assets in percent, groups and holdings by amount descending. */
module Allocation {

  import opened Common
  import opened Text
  import opened Sorting
  import opened WealthRows

  /** `(a.assetClass || 'Other').trim() || 'Other'`: the group an asset goes to. */
  function ClassOf(assetClass: string): string {
    var t := Trim(if assetClass == "" then "Other" else assetClass);
    if t == "" then "Other" else t
  }

  /** An asset's class is its trimmed class name, or "Other" when that name
      is empty or blank; never empty. */
  lemma ClassOfSpec(assetClass: string)
    ensures ClassOf(assetClass) != ""
    ensures (forall i :: 0 <= i < |assetClass| ==> IsJsSpace(assetClass[i])) ==> ClassOf(assetClass) == "Other"
    ensures (exists i :: 0 <= i < |assetClass| && !IsJsSpace(assetClass[i])) ==> ClassOf(assetClass) == Trim(assetClass)
  {
    TrimOfOther();
  }

  lemma TrimOfOther()
    ensures Trim("Other") == "Other"
  {
    assert !IsJsSpace('O') && !IsJsSpace('r');
    assert TrimStart("Other") == "Other";
    assert TrimEnd("Other") == "Other";
  }

  datatype Item = Item(name: string, amount: int)

  /** A `byClass` entry: the class, the sum of its assets and the assets. */
  datatype ClassGroup = ClassGroup(cls: string, amount: int, items: seq<Item>)

  function ClassKey(d: AssetDetail): string {
    ClassOf(d.assetClass)
  }

  function DetailAmount(d: AssetDetail): int {
    d.amount
  }

  function ItemAmount(i: Item): int {
    i.amount
  }

  function GroupAmount(g: ClassGroup): int {
    g.amount
  }

  /** The classes of `details` in order of first appearance: the key order of
      the `byClass` Map. */
  function Classes(details: seq<AssetDetail>): seq<string> {
    KeyOrder(details, ClassKey)
  }

  /** `{ name, amount }` of each asset. */
  function Items(ds: seq<AssetDetail>): (r: seq<Item>)
    ensures |r| == |ds|
    ensures forall k :: 0 <= k < |ds| ==> r[k] == Item(ds[k].name, ds[k].amount)
  {
    seq(|ds|, k requires 0 <= k < |ds| => Item(ds[k].name, ds[k].amount))
  }

  /** The items of class `cls`, in order. */
  function ClassItems(details: seq<AssetDetail>, cls: string): seq<Item> {
    Items(KeyFilter(details, ClassKey, cls))
  }

  /** The sum of the amounts of class `cls`. */
  function ClassTotal(details: seq<AssetDetail>, cls: string): int {
    KeyTotal(details, ClassKey, DetailAmount, cls)
  }

  /** `Array.from(byClass.entries())`: one entry per class, in first-appearance order. */
  function ByClass(details: seq<AssetDetail>): (r: seq<ClassGroup>)
    ensures |r| == |Classes(details)|
  {
    var cs := Classes(details);
    seq(|cs|, k requires 0 <= k < |cs| => ClassGroup(cs[k], ClassTotal(details, cs[k]), ClassItems(details, cs[k])))
  }

  /** A group's amount is the sum of its items. */
  lemma ClassTotalOfItems(details: seq<AssetDetail>, cls: string)
    ensures SumOf(ClassItems(details, cls), ItemAmount) == ClassTotal(details, cls)
  {
    var ds := KeyFilter(details, ClassKey, cls);
    SumOfMapped(ds, DetailAmount, Items(ds), ItemAmount);
    KeyFilterSum(details, ClassKey, DetailAmount, cls);
  }

  /** Every class that occurs has at least one item. */
  lemma ClassItemsNonEmpty(details: seq<AssetDetail>, cls: string)
    requires cls in Classes(details)
    ensures ClassItems(details, cls) != []
  {
    KeyFilterEmpty(details, ClassKey, cls);
  }

  /** The `byClass` amounts sum to the sum of all assets. */
  lemma SumOfByClass(details: seq<AssetDetail>)
    ensures SumOf(ByClass(details), GroupAmount) == SumOf(details, DetailAmount)
  {
    var totals := c => ClassTotal(details, c);
    SumOfKeyTotals(details, ClassKey, DetailAmount, totals);
    SumOfMapped(Classes(details), totals, ByClass(details), GroupAmount);
  }

  /** The `byClass` loop: `g = byClass.get(cls) || { amount: 0, items: [] }`,
      add the asset to `g`, `byClass.set(cls, g)`, then `Array.from(byClass.entries())`. */
  method GroupByClass(details: seq<AssetDetail>) returns (entries: seq<ClassGroup>)
    ensures entries == ByClass(details)
  {
    var order, sums, members := GroupByKey(details, ClassKey, DetailAmount);
    ClassKeysEntered(details);
    entries := seq(|order|, k requires 0 <= k < |order| =>
      ClassGroup(order[k], sums[order[k]], Items(members[order[k]])));
    forall k | 0 <= k < |order| ensures entries[k] == ByClass(details)[k] {
      ByClassEntry(details, k);
    }
  }

  /** Every class has an entry in the Map of sums and in the Map of members. */
  lemma ClassKeysEntered(details: seq<AssetDetail>)
    ensures forall c :: c in Classes(details) ==> c in Totals(details, ClassKey, DetailAmount) && c in Members(details, ClassKey)
  {
    TotalsKeys(details, ClassKey, DetailAmount);
  }

  /** The entry of a class read from the two Maps. */
  lemma ByClassEntry(details: seq<AssetDetail>, k: int)
    requires 0 <= k < |Classes(details)|
    ensures var c := Classes(details)[k];
      && c in Totals(details, ClassKey, DetailAmount) && c in Members(details, ClassKey)
      && ByClass(details)[k] == ClassGroup(c, Totals(details, ClassKey, DetailAmount)[c], Items(Members(details, ClassKey)[c]))
  {
    var c := Classes(details)[k];
    ClassKeysEntered(details);
    GetTotals(details, ClassKey, DetailAmount, c);
  }

  /** An asset of a group with its share of the total. */
  datatype Holding = Holding(name: string, amount: int, pct: real)

  /** A row of the allocation table. */
  datatype AllocationGroup = AllocationGroup(labelText: string, amount: int, pct: real, assets: seq<Holding>)

  /** `(amount / alloTotal) * 100`. */
  function Pct(amount: int, total: int): real
    requires total != 0
  {
    amount as real / total as real * 100.0
  }

  /** The comparators `(a, b) => b.amount - a.amount`: larger amounts first. */
  predicate ClassFirst(a: ClassGroup, b: ClassGroup) {
    b.amount - a.amount <= 0
  }

  predicate ItemFirst(a: Item, b: Item) {
    b.amount - a.amount <= 0
  }

  predicate GroupFirst(a: AllocationGroup, b: AllocationGroup) {
    b.amount - a.amount <= 0
  }

  lemma AmountOrders()
    ensures TotalPreorder(ClassFirst) && TotalPreorder(ItemFirst) && TotalPreorder(GroupFirst)
  {
  }

  /** The holdings of a group: items by amount descending, with their shares. */
  function Holdings(items: seq<Item>, total: int): (r: seq<Holding>)
    requires total != 0
    ensures |r| == |items|
  {
    var sorted := SortBy(items, ItemFirst);
    seq(|sorted|, k requires 0 <= k < |sorted| => Holding(sorted[k].name, sorted[k].amount, Pct(sorted[k].amount, total)))
  }

  function GroupOf(g: ClassGroup, total: int): AllocationGroup
    requires total != 0
  {
    AllocationGroup(g.cls, g.amount, Pct(g.amount, total), Holdings(g.items, total))
  }

  function CashGroup(cash: int, total: int): AllocationGroup
    requires total != 0
  {
    AllocationGroup("Cash", cash, Pct(cash, total), [])
  }

  /** The class groups, pushed in the order of `sorted`. */
  function ClassAllocations(sorted: seq<ClassGroup>, total: int): (r: seq<AllocationGroup>)
    requires total != 0
    ensures |r| == |sorted|
  {
    seq(|sorted|, k requires 0 <= k < |sorted| => GroupOf(sorted[k], total))
  }

  /** `alloCash + alloAssets.reduce((s, a) => s + a.amount, 0)`. */
  function AllocationTotal(cash: int, details: seq<AssetDetail>): int {
    cash + SumOf(details, DetailAmount)
  }

  /** The allocation of a snapshot with cash `cash` and assets `details`:
      empty unless the total is positive; otherwise the Cash group (when cash
      is positive) and the class groups, all sorted by amount descending. */
  function AllocationOf(cash: int, details: seq<AssetDetail>): seq<AllocationGroup> {
    var total := AllocationTotal(cash, details);
    if total <= 0 then []
    else
      var sorted := SortBy(ByClass(details), ClassFirst);
      SortBy((if cash > 0 then [CashGroup(cash, total)] else []) + ClassAllocations(sorted, total), GroupFirst)
  }

  lemma ClassAllocationsSnoc(sorted: seq<ClassGroup>, i: int, total: int)
    requires 0 <= i < |sorted| && total != 0
    ensures ClassAllocations(sorted[..i + 1], total) == ClassAllocations(sorted[..i], total) + [GroupOf(sorted[i], total)]
  {
    var a := ClassAllocations(sorted[..i + 1], total);
    var b := ClassAllocations(sorted[..i], total) + [GroupOf(sorted[i], total)];
    assert |a| == |b|;
    forall k | 0 <= k < |a| ensures a[k] == b[k] {
      assert a[k] == GroupOf(sorted[..i + 1][k], total);
      assert sorted[..i + 1][k] == sorted[k];
      if k < i {
        assert b[k] == ClassAllocations(sorted[..i], total)[k] == GroupOf(sorted[..i][k], total);
        assert sorted[..i][k] == sorted[k];
      }
    }
  }

  /** The `for (const [cls, g] of entries)` loop: one group per class, in order. */
  method PushClassGroups(head: seq<AllocationGroup>, sorted: seq<ClassGroup>, total: int) returns (groups: seq<AllocationGroup>)
    requires total != 0
    ensures groups == head + ClassAllocations(sorted, total)
  {
    groups := head;
    for i := 0 to |sorted|
      invariant groups == head + ClassAllocations(sorted[..i], total)
    {
      var g := sorted[i];
      ClassAllocationsSnoc(sorted, i, total);
      groups := groups + [AllocationGroup(g.cls, g.amount, Pct(g.amount, total), Holdings(g.items, total))];
    }
    assert sorted[..|sorted|] == sorted;
  }

  /** The allocation step of the dashboard. */
  method Allocate(cash: int, details: seq<AssetDetail>) returns (groups: seq<AllocationGroup>)
    ensures groups == AllocationOf(cash, details)
  {
    var alloTotal := cash + SumOf(details, DetailAmount);
    assert alloTotal == AllocationTotal(cash, details);
    if alloTotal <= 0 {
      return [];
    }
    var head: seq<AllocationGroup> := if cash > 0 then [CashGroup(cash, alloTotal)] else [];
    var entries := GroupByClass(details);
    var sorted := SortBy(entries, ClassFirst);
    groups := PushClassGroups(head, sorted, alloTotal);
    groups := SortBy(groups, GroupFirst);
  }

  function AllocAmount(g: AllocationGroup): int {
    g.amount
  }

  function AllocPct(g: AllocationGroup): real {
    g.pct
  }

  function HoldingAmount(h: Holding): int {
    h.amount
  }

  /** Shares of one total add up. */
  lemma PctAdd(a: int, b: int, total: int)
    requires total != 0
    ensures Pct(a, total) + Pct(b, total) == Pct(a + b, total)
  {
    var t := total as real;
    assert (a + b) as real / t == a as real / t + b as real / t;
  }

  /** The whole is 100 percent, and more than the whole is more. */
  lemma PctBounds(amount: int, total: int)
    requires total > 0
    ensures amount == total ==> Pct(amount, total) == 100.0
    ensures amount > total ==> Pct(amount, total) > 100.0
  {
    var q := amount as real / total as real;
    assert q * total as real == amount as real;
    if amount > total && q <= 1.0 {
      assert q * total as real <= total as real;
    }
  }

  /** When every group's share is its amount over `total`, the shares add up
      to the share of the summed amounts. */
  lemma {:induction false} PctSum(s: seq<AllocationGroup>, total: int)
    requires total != 0
    requires forall k :: 0 <= k < |s| ==> s[k].pct == Pct(s[k].amount, total)
    ensures SumReal(s, AllocPct) == Pct(SumOf(s, AllocAmount), total)
  {
    if s == [] {
    } else {
      var init := s[..|s| - 1];
      PctSum(init, total);
      PctAdd(SumOf(init, AllocAmount), s[|s| - 1].amount, total);
    }
  }

  /** The holdings of a group list its items, largest first, and add up to them. */
  lemma HoldingsOfItems(items: seq<Item>, total: int)
    requires total != 0
    ensures var h := Holdings(items, total);
      && SumOf(h, HoldingAmount) == SumOf(items, ItemAmount)
      && (forall i, j :: 0 <= i < j < |h| ==> h[i].amount >= h[j].amount)
      && (forall k :: 0 <= k < |h| ==> h[k].pct == Pct(h[k].amount, total))
  {
    var sorted := SortBy(items, ItemFirst);
    AmountOrders();
    SumOfMapped(sorted, ItemAmount, Holdings(items, total), HoldingAmount);
    SortBySum(items, ItemFirst, ItemAmount);
    var h := Holdings(items, total);
    forall i, j | 0 <= i < j < |h| ensures h[i].amount >= h[j].amount {
      assert ItemFirst(sorted[i], sorted[j]);
    }
  }

  /** A class row of the allocation of `details`: a class that occurs, its
      total, its share, and its holdings, largest first, adding up to the total. */
  ghost predicate IsClassGroup(details: seq<AssetDetail>, total: int, g: AllocationGroup)
    requires total != 0
  {
    && g.labelText in Classes(details)
    && g.amount == ClassTotal(details, g.labelText)
    && g.pct == Pct(g.amount, total)
    && g.assets != []
    && SumOf(g.assets, HoldingAmount) == g.amount
    && (forall i, j :: 0 <= i < j < |g.assets| ==> g.assets[i].amount >= g.assets[j].amount)
  }

  /** Every `byClass` entry becomes a class row. */
  lemma GroupOfByClass(details: seq<AssetDetail>, total: int, e: ClassGroup)
    requires total != 0
    requires e in ByClass(details)
    ensures IsClassGroup(details, total, GroupOf(e, total))
  {
    var cs := Classes(details);
    var j :| 0 <= j < |ByClass(details)| && ByClass(details)[j] == e;
    assert e == ClassGroup(cs[j], ClassTotal(details, cs[j]), ClassItems(details, cs[j]));
    ClassItemsNonEmpty(details, cs[j]);
    ClassTotalOfItems(details, cs[j]);
    HoldingsOfItems(e.items, total);
  }

  /** The class rows of the allocation are exactly one per class. */
  lemma ClassRows(details: seq<AssetDetail>, total: int)
    requires total != 0
    ensures var rows := ClassAllocations(SortBy(ByClass(details), ClassFirst), total);
      && |rows| == |Classes(details)|
      && (forall k :: 0 <= k < |rows| ==> IsClassGroup(details, total, rows[k]))
      && SumOf(rows, AllocAmount) == SumOf(details, DetailAmount)
  {
    var sorted := SortBy(ByClass(details), ClassFirst);
    var rows := ClassAllocations(sorted, total);
    ClassRowsAreGroups(details, total);
    SumOfMapped(sorted, GroupAmount, rows, AllocAmount);
    SortBySum(ByClass(details), ClassFirst, GroupAmount);
    SumOfByClass(details);
  }

  lemma ClassRowsAreGroups(details: seq<AssetDetail>, total: int)
    requires total != 0
    ensures var rows := ClassAllocations(SortBy(ByClass(details), ClassFirst), total);
      && |rows| == |Classes(details)|
      && (forall k :: 0 <= k < |rows| ==> IsClassGroup(details, total, rows[k]))
  {
    var rows := ClassAllocations(SortBy(ByClass(details), ClassFirst), total);
    forall k | 0 <= k < |rows| ensures IsClassGroup(details, total, rows[k]) {
      ClassRowIsGroup(details, total, k);
    }
  }

  /** Each class row is the row of one class. */
  lemma ClassRowIsGroup(details: seq<AssetDetail>, total: int, k: int)
    requires total != 0
    requires 0 <= k < |ByClass(details)|
    ensures IsClassGroup(details, total, ClassAllocations(SortBy(ByClass(details), ClassFirst), total)[k])
  {
    var sorted := SortBy(ByClass(details), ClassFirst);
    assert sorted[k] in multiset(ByClass(details));
    GroupOfByClass(details, total, sorted[k]);
  }

  /** The rows before the final sort: the Cash row, if any, then the class rows. */
  function Unsorted(cash: int, details: seq<AssetDetail>, total: int): seq<AllocationGroup>
    requires total != 0
  {
    (if cash > 0 then [CashGroup(cash, total)] else []) + ClassAllocations(SortBy(ByClass(details), ClassFirst), total)
  }

  lemma AllocationIsSorted(cash: int, details: seq<AssetDetail>)
    requires AllocationTotal(cash, details) > 0
    ensures var total := AllocationTotal(cash, details);
      AllocationOf(cash, details) == SortBy(Unsorted(cash, details, total), GroupFirst)
  {
  }

  /** The allocation is empty exactly when cash + assets is not positive. */
  lemma AllocationEmpty(cash: int, details: seq<AssetDetail>)
    ensures AllocationOf(cash, details) == [] <==> AllocationTotal(cash, details) <= 0
  {
    var total := AllocationTotal(cash, details);
    if total > 0 {
      AllocationIsSorted(cash, details);
      if cash <= 0 {
        assert details != [];
        assert ClassKey(details[0]) in KeysOf(details, ClassKey);
        assert |Classes(details)| > 0;
      }
      assert |Unsorted(cash, details, total)| > 0;
    }
  }

  /** Rows are ordered by amount, largest first. */
  lemma AllocationDescending(cash: int, details: seq<AssetDetail>)
    ensures var r := AllocationOf(cash, details);
      forall i, j :: 0 <= i < j < |r| ==> r[i].amount >= r[j].amount
  {
    var r := AllocationOf(cash, details);
    AmountOrders();
    forall i, j | 0 <= i < j < |r| ensures r[i].amount >= r[j].amount {
      assert GroupFirst(r[i], r[j]);
    }
  }

  /** The rows before the final sort: the Cash row when cash is positive and
      a class row for each class. */
  lemma UnsortedRows(cash: int, details: seq<AssetDetail>, total: int)
    requires total != 0
    ensures var u := Unsorted(cash, details, total);
      && |u| == (if cash > 0 then 1 else 0) + |Classes(details)|
      && (forall g :: g in u ==> (cash > 0 && g == CashGroup(cash, total)) || IsClassGroup(details, total, g))
  {
    var u := Unsorted(cash, details, total);
    assert |u| == (if cash > 0 then 1 else 0) + |Classes(details)| by {
      ClassRowsAreGroups(details, total);
    }
    forall g | g in u ensures (cash > 0 && g == CashGroup(cash, total)) || IsClassGroup(details, total, g) {
      UnsortedRow(cash, details, total, g);
    }
  }

  lemma UnsortedRow(cash: int, details: seq<AssetDetail>, total: int, g: AllocationGroup)
    requires total != 0 && g in Unsorted(cash, details, total)
    ensures (cash > 0 && g == CashGroup(cash, total)) || IsClassGroup(details, total, g)
  {
    var rows := ClassAllocations(SortBy(ByClass(details), ClassFirst), total);
    var head := if cash > 0 then [CashGroup(cash, total)] else [];
    assert Unsorted(cash, details, total) == head + rows;
    if g !in head {
      ClassRowIn(details, total, g);
    }
  }

  lemma ClassRowIn(details: seq<AssetDetail>, total: int, g: AllocationGroup)
    requires total != 0 && g in ClassAllocations(SortBy(ByClass(details), ClassFirst), total)
    ensures IsClassGroup(details, total, g)
  {
    var rows := ClassAllocations(SortBy(ByClass(details), ClassFirst), total);
    var k :| 0 <= k < |rows| && rows[k] == g;
    ClassRowIsGroup(details, total, k);
  }

  /** The final sort keeps the rows. */
  lemma AllocationKeepsRows(cash: int, details: seq<AssetDetail>)
    requires AllocationTotal(cash, details) > 0
    ensures var total := AllocationTotal(cash, details);
      multiset(AllocationOf(cash, details)) == multiset(Unsorted(cash, details, total))
  {
    AllocationIsSorted(cash, details);
  }

  /** With a positive total there is one row per class plus the Cash row when
      cash is positive, and every row is the Cash row or a class row. */
  lemma AllocationRows(cash: int, details: seq<AssetDetail>)
    requires AllocationTotal(cash, details) > 0
    ensures var total := AllocationTotal(cash, details);
      var r := AllocationOf(cash, details);
      && |r| == (if cash > 0 then 1 else 0) + |Classes(details)|
      && (forall g :: g in r ==> (cash > 0 && g == CashGroup(cash, total)) || IsClassGroup(details, total, g))
  {
    var total := AllocationTotal(cash, details);
    var r := AllocationOf(cash, details);
    var u := Unsorted(cash, details, total);
    AllocationKeepsRows(cash, details);
    UnsortedRows(cash, details, total);
    assert |r| == |multiset(r)| == |multiset(u)| == |u|;
    forall g | g in r ensures (cash > 0 && g == CashGroup(cash, total)) || IsClassGroup(details, total, g) {
      assert g in multiset(u);
    }
  }

  /** The Cash row is present exactly when cash is positive. */
  lemma AllocationCash(cash: int, details: seq<AssetDetail>)
    requires AllocationTotal(cash, details) > 0
    ensures CashGroup(cash, AllocationTotal(cash, details)) in AllocationOf(cash, details) <==> cash > 0
  {
    var total := AllocationTotal(cash, details);
    var u := Unsorted(cash, details, total);
    AllocationKeepsRows(cash, details);
    if cash > 0 {
      assert CashGroup(cash, total) in multiset(u);
    } else {
      AllocationRows(cash, details);
      assert !IsClassGroup(details, total, CashGroup(cash, total));
    }
  }

  /** Every class that occurs has a row. */
  lemma AllocationCoversClasses(cash: int, details: seq<AssetDetail>, cls: string)
    requires AllocationTotal(cash, details) > 0
    requires cls in Classes(details)
    ensures exists g :: g in AllocationOf(cash, details) && g.labelText == cls && IsClassGroup(details, AllocationTotal(cash, details), g)
  {
    var total := AllocationTotal(cash, details);
    var g := ClassRowOf(details, total, cls);
    assert g in Unsorted(cash, details, total);
    AllocationKeepsRows(cash, details);
    assert g in multiset(AllocationOf(cash, details));
  }

  /** The class row of a class that occurs. */
  lemma ClassRowOf(details: seq<AssetDetail>, total: int, cls: string) returns (g: AllocationGroup)
    requires total != 0
    requires cls in Classes(details)
    ensures g in ClassAllocations(SortBy(ByClass(details), ClassFirst), total)
    ensures g.labelText == cls && IsClassGroup(details, total, g)
  {
    var cs := Classes(details);
    var j :| 0 <= j < |cs| && cs[j] == cls;
    var e := ByClass(details)[j];
    assert e.cls == cls;
    var sorted := SortBy(ByClass(details), ClassFirst);
    var k := SortedIndex(ByClass(details), ClassFirst, j);
    GroupOfByClass(details, total, e);
    InClassAllocations(sorted, total, k);
    g := GroupOf(e, total);
  }

  lemma InClassAllocations(sorted: seq<ClassGroup>, total: int, k: int)
    requires total != 0 && 0 <= k < |sorted|
    ensures GroupOf(sorted[k], total) in ClassAllocations(sorted, total)
  {
    assert ClassAllocations(sorted, total)[k] == GroupOf(sorted[k], total);
  }

  /** The rows add up to cash + assets when cash is positive and to the
      assets alone otherwise (a cash balance that is not positive has no row). */
  lemma AllocationAmounts(cash: int, details: seq<AssetDetail>)
    requires AllocationTotal(cash, details) > 0
    ensures SumOf(AllocationOf(cash, details), AllocAmount) == (if cash > 0 then cash else 0) + SumOf(details, DetailAmount)
  {
    var total := AllocationTotal(cash, details);
    var rows := ClassAllocations(SortBy(ByClass(details), ClassFirst), total);
    var head := if cash > 0 then [CashGroup(cash, total)] else [];
    AllocationIsSorted(cash, details);
    ClassRows(details, total);
    SortBySum(Unsorted(cash, details, total), GroupFirst, AllocAmount);
    SumOfAppend(head, rows, AllocAmount);
    assert head == [] || head[..0] == [];
  }

  /** "Cash + all assets = 100% (debts excluded)": the shares add up to 100
      when cash is not negative; a negative cash balance has no row but still
      lowers the total, so the shares then add up to more than 100. */
  lemma AllocationShares(cash: int, details: seq<AssetDetail>)
    requires AllocationTotal(cash, details) > 0
    ensures cash >= 0 ==> SumReal(AllocationOf(cash, details), AllocPct) == 100.0
    ensures cash < 0 ==> SumReal(AllocationOf(cash, details), AllocPct) > 100.0
  {
    var total := AllocationTotal(cash, details);
    var r := AllocationOf(cash, details);
    forall k | 0 <= k < |r| ensures r[k].pct == Pct(r[k].amount, total) {
      AllocationRows(cash, details);
      assert r[k] in r;
    }
    PctSum(r, total);
    AllocationAmounts(cash, details);
    PctBounds(SumOf(r, AllocAmount), total);
  }
}
