/** The wealth tables as the dashboard fetches them: snapshot headers and
    rows tagged with the id of the snapshot they belong to. */
module WealthRows {

  import opened Common

  /** A `wealth_snapshots` row: one per (year, month), month 0 being the
      "Start" balance at the end of the previous year. */
  datatype SnapshotRef = SnapshotRef(id: string, year: int, month: int)

  /** A row of `wealth_cash_accounts`, `wealth_assets`, `wealth_debts`,
      `wealth_earnings` or `wealth_investments`; only assets carry a class. */
  datatype WealthRow = WealthRow(snapshotId: string, name: string, amount: int, assetClass: Option<string>)

  /** The date and amount of an `expenses` row. */
  datatype ExpenseRow = ExpenseRow(date: string, amount: int)

  function SnapshotOf(r: WealthRow): string {
    r.snapshotId
  }

  function AmountOf(r: WealthRow): int {
    r.amount
  }

  /** The sum of the amounts of the rows of snapshot `id` (0 when it has none). */
  function Total(rows: seq<WealthRow>, id: string): int {
    KeyTotal(rows, SnapshotOf, AmountOf, id)
  }

  /** The map `bySnap` of sums by snapshot id. */
  function BySnapshot(rows: seq<WealthRow>): map<string, int> {
    Totals(rows, SnapshotOf, AmountOf)
  }

  /** `bySnap.get(id) || 0` is the total of the rows of `id`, and an id with
      no rows is absent from the map. */
  lemma BySnapshotLookup(rows: seq<WealthRow>, id: string)
    ensures Get(BySnapshot(rows), id) == Total(rows, id)
    ensures id in BySnapshot(rows) <==> exists i :: 0 <= i < |rows| && rows[i].snapshotId == id
  {
    GetTotals(rows, SnapshotOf, AmountOf, id);
    TotalsKeys(rows, SnapshotOf, AmountOf);
  }

  /** An asset as the allocation reads it: `asset_class || 'Other'`. */
  datatype AssetDetail = AssetDetail(name: string, amount: int, assetClass: string)

  function DetailOf(r: WealthRow): AssetDetail {
    AssetDetail(r.name, r.amount, OrElse(r.assetClass, "Other"))
  }

  /** The asset details of snapshot `id`, in row order. */
  function Details(rows: seq<WealthRow>, id: string): (r: seq<AssetDetail>)
    ensures |r| <= |rows|
  {
    if rows == [] then []
    else
      var last := rows[|rows| - 1];
      Details(rows[..|rows| - 1], id) + if last.snapshotId == id then [DetailOf(last)] else []
  }

  /** The map `assetsDetailBySnap`: the details of each snapshot that has rows. */
  function DetailsBySnapshot(rows: seq<WealthRow>): map<string, seq<AssetDetail>> {
    map id | id in KeysOf(rows, SnapshotOf) :: Details(rows, id)
  }

  function GetList(m: map<string, seq<AssetDetail>>, id: string): seq<AssetDetail> {
    if id in m then m[id] else []
  }

  /** The details of a snapshot sum to its asset total. */
  lemma {:induction false} DetailsSum(rows: seq<WealthRow>, id: string)
    ensures SumOf(Details(rows, id), (d: AssetDetail) => d.amount) == Total(rows, id)
  {
    if rows != [] {
      var init := rows[..|rows| - 1];
      var last := rows[|rows| - 1];
      DetailsSum(init, id);
      if last.snapshotId == id {
        SumOfAppend(Details(init, id), [DetailOf(last)], (d: AssetDetail) => d.amount);
        assert [DetailOf(last)][..0] == [];
      } else {
        assert Details(rows, id) == Details(init, id);
      }
    }
  }

  /** A snapshot with no rows has no details. */
  lemma {:induction false} DetailsOfAbsent(rows: seq<WealthRow>, id: string)
    requires id !in KeysOf(rows, SnapshotOf)
    ensures Details(rows, id) == []
  {
    if rows != [] {
      var init := rows[..|rows| - 1];
      assert KeysOf(init, SnapshotOf) <= KeysOf(rows, SnapshotOf) by {
        forall i | 0 <= i < |init| ensures init[i] == rows[i] {
        }
      }
      DetailsOfAbsent(init, id);
      assert SnapshotOf(rows[|rows| - 1]) in KeysOf(rows, SnapshotOf);
    }
  }

  lemma StepKeys(rows: seq<WealthRow>, i: int)
    requires 0 <= i < |rows|
    ensures rows[..i + 1][..i] == rows[..i] && rows[..i + 1][i] == rows[i]
    ensures KeysOf(rows[..i + 1], SnapshotOf) == KeysOf(rows[..i], SnapshotOf) + {rows[i].snapshotId}
  {
    var before := rows[..i];
    var after := rows[..i + 1];
    forall j | 0 <= j < i ensures after[j] == before[j] {
    }
    assert SnapshotOf(after[i]) == rows[i].snapshotId;
  }

  /** One row more appends its detail to the list of its snapshot. */
  lemma DetailsStep(rows: seq<WealthRow>, i: int)
    requires 0 <= i < |rows|
    ensures var details := DetailsBySnapshot(rows[..i]);
      details[rows[i].snapshotId := GetList(details, rows[i].snapshotId) + [DetailOf(rows[i])]]
        == DetailsBySnapshot(rows[..i + 1])
  {
    StepKeys(rows, i);
    var details := DetailsBySnapshot(rows[..i]);
    var k := rows[i].snapshotId;
    var next := details[k := GetList(details, k) + [DetailOf(rows[i])]];
    var target := DetailsBySnapshot(rows[..i + 1]);
    if k !in KeysOf(rows[..i], SnapshotOf) {
      DetailsOfAbsent(rows[..i], k);
    }
    assert next.Keys == target.Keys;
    forall id | id in next ensures next[id] == target[id] {
      DetailsSnoc(rows, i, id);
    }
  }

  lemma DetailsSnoc(rows: seq<WealthRow>, i: int, id: string)
    requires 0 <= i < |rows|
    ensures Details(rows[..i + 1], id) == Details(rows[..i], id) + if rows[i].snapshotId == id then [DetailOf(rows[i])] else []
  {
    assert rows[..i + 1][..i] == rows[..i];
  }

  /** The assets loop: sums by snapshot and the detail lists, in one pass. */
  method AssetsBySnapshot(rows: seq<WealthRow>) returns (sums: map<string, int>, details: map<string, seq<AssetDetail>>)
    ensures sums == BySnapshot(rows)
    ensures details == DetailsBySnapshot(rows)
  {
    sums := map[];
    details := map[];
    for i := 0 to |rows|
      invariant sums == BySnapshot(rows[..i])
      invariant details == DetailsBySnapshot(rows[..i])
    {
      var r := rows[i];
      var nextSums := sums[r.snapshotId := Get(sums, r.snapshotId) + r.amount];
      var list := GetList(details, r.snapshotId);
      var nextDetails := details[r.snapshotId := list + [DetailOf(r)]];
      TotalsStep(rows, i, SnapshotOf, AmountOf);
      DetailsStep(rows, i);
      sums := nextSums;
      details := nextDetails;
    }
    assert rows[..|rows|] == rows;
  }
}
