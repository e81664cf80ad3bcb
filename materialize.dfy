/** Turning the cost grid into sheet rows: gsheets.go `getSheetFromCostCells`
    (gsheets.go:270-362) and the stable row sort `sortOutput`
    (gsheets.go:369-375), which cloudability.go:344-428 repeats for the
    Cloudability-only sheet. */
module Materialize {
  import opened Wrappers
  import opened Text
  import opened Sums
  import opened Directory
  import opened Cells
  import opened CostGrid

  /** The metadata columns, in order; the categories follow them. */
  const FixedHeads: seq<string> :=
    ["Team", "Date", "Cloud Provider", "Payer ID", "Cost Center", "Account Name", "Account ID", "TOTAL"]

  const TeamCol: nat := 0
  const ProviderCol: nat := 2
  const AccountIdCol: nat := 6
  const TotalCol: nat := 7
  const Fixed: nat := 8

  /** The three sort passes, last key first: Account ID, then Cloud Provider,
      then Team. */
  const SortKeys: seq<nat> := [TeamCol, ProviderCol, AccountIdCol]

  /** Go's read of a missing `metadata` entry: the zero value. */
  function MetadataOf(metadata: map<string, ProviderMetadata>, accountId: string): ProviderMetadata {
    if accountId in metadata then metadata[accountId] else ProviderMetadata("", "", "", "", "")
  }

  /** The cell of column `key` in an account's row; TOTAL is left blank until
      after sorting, and an absent category reads as 0. */
  function CellFor(key: string, dataRow: map<string, real>, entry: AccountMetadata, meta: ProviderMetadata): Cell {
    if key == "TOTAL" then Blank
    else if key == "Team" then StringCell(entry.group)
    else if key == "Date" then StringCell(meta.date)
    else if key == "Cloud Provider" then StringCell(entry.cloudProvider)
    else if key == "Cost Center" then StringCell(meta.costCenter)
    else if key == "Payer ID" then StringCell(meta.payerAccountId)
    else if key == "Account ID" then StringCell(entry.accountId)
    else if key == "Account Name" then StringCell(meta.accountName)
    else NumberCell(Get0(dataRow, key))
  }

  function AccountRow(columns: seq<string>, dataRow: map<string, real>, entry: AccountMetadata, meta: ProviderMetadata): Row {
    seq(|columns|, j requires 0 <= j < |columns| => CellFor(columns[j], dataRow, entry, meta))
  }

  /** The unsorted data rows, one per account of `order`. */
  function AccountRows(columns: seq<string>, order: seq<string>, cells: CostCells, dir: Directory,
                       metadata: map<string, ProviderMetadata>): seq<Row>
    requires forall i :: 0 <= i < |order| ==> order[i] in cells && order[i] in dir
  {
    seq(|order|, i requires 0 <= i < |order| =>
      AccountRow(columns, cells[order[i]], dir[order[i]], MetadataOf(metadata, order[i])))
  }

  function HeaderRow(columns: seq<string>): Row {
    seq(|columns|, j requires 0 <= j < |columns| => StringCell(columns[j]))
  }

  /** An account's row under the sheet's columns: the metadata columns hold
      the directory's team, provider and YAML account ID and the billing
      source's date, payer, cost centre and name; TOTAL is blank; a category
      column holds the account's amount, or 0 when it has none. */
  lemma AccountRowCells(keys: seq<string>, dataRow: map<string, real>, entry: AccountMetadata, meta: ProviderMetadata)
    ensures var row := AccountRow(FixedHeads + keys, dataRow, entry, meta);
      && |row| == Fixed + |keys|
      && row[TeamCol] == StringCell(entry.group) && row[1] == StringCell(meta.date)
      && row[ProviderCol] == StringCell(entry.cloudProvider) && row[3] == StringCell(meta.payerAccountId)
      && row[4] == StringCell(meta.costCenter) && row[5] == StringCell(meta.accountName)
      && row[AccountIdCol] == StringCell(entry.accountId) && row[TotalCol] == Blank
      && forall j :: Fixed <= j < |row| && keys[j - Fixed] !in FixedHeads ==>
           row[j] == NumberCell(if keys[j - Fixed] in dataRow then dataRow[keys[j - Fixed]] else 0.0)
  {
    var columns := FixedHeads + keys;
    forall j | Fixed <= j < |columns| ensures columns[j] == keys[j - Fixed] { }
  }

  // ------------------------------------------------------------- sorting

  /** The string in column `c`, the sort key of `sortOutput`. */
  function Key(row: Row, c: nat): string {
    if c < |row| && row[c].str.Some? then row[c].str.value else ""
  }

  /** Inserts `x` after every row whose key is not greater than its own. */
  function Insert(rows: seq<Row>, x: Row, c: nat): seq<Row>
    decreases |rows|
  {
    if rows == [] || LessEq(Key(rows[|rows| - 1], c), Key(x, c)) then rows + [x]
    else Insert(rows[..|rows| - 1], x, c) + [rows[|rows| - 1]]
  }

  /** `sortOutput`: a stable sort of the rows on column `c`. */
  function SortOutput(rows: seq<Row>, c: nat): seq<Row>
    decreases |rows|
  {
    if rows == [] then [] else Insert(SortOutput(rows[..|rows| - 1], c), rows[|rows| - 1], c)
  }

  /** Lexicographic order of two rows on the columns `cols`, first column first. */
  predicate RowLeq(a: Row, b: Row, cols: seq<nat>)
    decreases |cols|
  {
    || cols == []
    || Less(Key(a, cols[0]), Key(b, cols[0]))
    || (Key(a, cols[0]) == Key(b, cols[0]) && RowLeq(a, b, cols[1..]))
  }

  predicate SortedBy(rows: seq<Row>, cols: seq<nat>) {
    forall i, j :: 0 <= i < j < |rows| ==> RowLeq(rows[i], rows[j], cols)
  }

  lemma RowLeqCons(a: Row, b: Row, c: nat, cols: seq<nat>)
    ensures RowLeq(a, b, [c] + cols) <==>
      Less(Key(a, c), Key(b, c)) || (Key(a, c) == Key(b, c) && RowLeq(a, b, cols))
  {
    assert ([c] + cols)[1..] == cols;
  }

  lemma InsertMultiset(rows: seq<Row>, x: Row, c: nat)
    ensures multiset(Insert(rows, x, c)) == multiset(rows) + multiset{x}
    decreases |rows|
  {
    if !(rows == [] || LessEq(Key(rows[|rows| - 1], c), Key(x, c))) {
      var front := rows[..|rows| - 1];
      InsertMultiset(front, x, c);
      assert rows == front + [rows[|rows| - 1]];
    }
  }

  /** A sorted sequence stays sorted when a row that is not below any of its
      rows is appended. */
  lemma SortedSnoc(rows: seq<Row>, y: Row, cols: seq<nat>)
    requires SortedBy(rows, cols)
    requires forall z :: z in rows ==> RowLeq(z, y, cols)
    ensures SortedBy(rows + [y], cols)
  {
    var all := rows + [y];
    forall i, j | 0 <= i < j < |all| ensures RowLeq(all[i], all[j], cols) {
      assert all[i] == rows[i];
      if j < |rows| { assert all[j] == rows[j]; }
    }
  }

  /** Inserting a row that every present row precedes on `cols` keeps the
      rows sorted on `c` then `cols`. */
  lemma {:induction false} InsertSorted(rows: seq<Row>, x: Row, c: nat, cols: seq<nat>)
    requires SortedBy(rows, [c] + cols)
    requires forall z :: z in rows ==> RowLeq(z, x, cols)
    ensures SortedBy(Insert(rows, x, c), [c] + cols)
    decreases |rows|
  {
    if rows == [] {
    } else {
      var front, last := rows[..|rows| - 1], rows[|rows| - 1];
      if LessEq(Key(last, c), Key(x, c)) {
        forall z | z in rows ensures RowLeq(z, x, [c] + cols) {
          var i :| 0 <= i < |rows| && rows[i] == z;
          if i < |rows| - 1 {
            RowLeqCons(z, last, c, cols);
            LessEqTransitive(Key(z, c), Key(last, c), Key(x, c));
          }
          RowLeqCons(z, x, c, cols);
        }
        SortedSnoc(rows, x, [c] + cols);
      } else {
        NotLessEq(Key(last, c), Key(x, c));
        assert SortedBy(front, [c] + cols);
        forall z | z in front ensures RowLeq(z, x, cols) {
          assert z in rows;
        }
        InsertSorted(front, x, c, cols);
        InsertMultiset(front, x, c);
        forall z | z in Insert(front, x, c) ensures RowLeq(z, last, [c] + cols) {
          assert z in multiset(Insert(front, x, c));
          if z == x {
            RowLeqCons(x, last, c, cols);
          } else {
            var i :| 0 <= i < |front| && front[i] == z;
            assert rows[i] == z;
          }
        }
        SortedSnoc(Insert(front, x, c), last, [c] + cols);
      }
    }
  }

  /** `sortOutput` permutes the rows. */
  lemma {:induction false} SortOutputMultiset(rows: seq<Row>, c: nat)
    ensures multiset(SortOutput(rows, c)) == multiset(rows)
    decreases |rows|
  {
    if rows != [] {
      var front := rows[..|rows| - 1];
      SortOutputMultiset(front, c);
      InsertMultiset(SortOutput(front, c), rows[|rows| - 1], c);
      assert rows == front + [rows[|rows| - 1]];
    }
  }

  /** Stability: sorting rows already ordered on `cols` by column `c` orders
      them on `c` first and then on `cols`. */
  lemma {:induction false} SortOutputSorted(rows: seq<Row>, c: nat, cols: seq<nat>)
    requires SortedBy(rows, cols)
    ensures SortedBy(SortOutput(rows, c), [c] + cols)
    decreases |rows|
  {
    if rows != [] {
      var front, last := rows[..|rows| - 1], rows[|rows| - 1];
      assert SortedBy(front, cols);
      SortOutputSorted(front, c, cols);
      SortOutputMultiset(front, c);
      forall z | z in SortOutput(front, c) ensures RowLeq(z, last, cols) {
        assert z in multiset(SortOutput(front, c));
        var i :| 0 <= i < |front| && front[i] == z;
        assert rows[i] == z;
      }
      InsertSorted(SortOutput(front, c), last, c, cols);
    }
  }

  /** The three passes of `getSheetFromCostCells` order the rows by Team,
      then Cloud Provider, then Account ID, and only permute them. */
  lemma SortCascade(rows: seq<Row>)
    ensures var sorted := SortOutput(SortOutput(SortOutput(rows, AccountIdCol), ProviderCol), TeamCol);
      SortedBy(sorted, SortKeys) && multiset(sorted) == multiset(rows)
  {
    var r1 := SortOutput(rows, AccountIdCol);
    var r2 := SortOutput(r1, ProviderCol);
    SortOutputSorted(rows, AccountIdCol, []);
    assert [AccountIdCol] + [] == [AccountIdCol];
    SortOutputSorted(r1, ProviderCol, [AccountIdCol]);
    SortOutputSorted(r2, TeamCol, [ProviderCol, AccountIdCol]);
    assert [TeamCol] + [ProviderCol, AccountIdCol] == SortKeys;
    SortOutputMultiset(rows, AccountIdCol);
    SortOutputMultiset(r1, ProviderCol);
    SortOutputMultiset(r2, TeamCol);
  }

  // ---------------------------------------------------------- the sheet

  /** The rows with their TOTAL cell cleared again. */
  function WithoutTotals(rows: seq<Row>): seq<Row>
    requires forall k :: 0 <= k < |rows| ==> TotalCol < |rows[k]|
  {
    seq(|rows|, k requires 0 <= k < |rows| => rows[k][TotalCol := Blank])
  }

  /** One account's row, built cell by cell as the source's inner loop does. */
  method BuildRow(columns: seq<string>, dataRow: map<string, real>, entry: AccountMetadata, meta: ProviderMetadata)
    returns (row: Row)
    ensures row == AccountRow(columns, dataRow, entry, meta)
  {
    var cellsOut := new Cell[|columns|](_ => Blank);
    for idx := 0 to |columns|
      invariant forall j :: 0 <= j < idx ==> cellsOut[j] == CellFor(columns[j], dataRow, entry, meta)
    {
      cellsOut[idx] := CellFor(columns[idx], dataRow, entry, meta);
    }
    row := cellsOut[..];
  }

  /** The header row, one string cell per column. */
  method BuildHeader(columns: seq<string>) returns (row: Row)
    ensures row == HeaderRow(columns)
  {
    var header := new Cell[|columns|](_ => Blank);
    for idx := 0 to |columns|
      invariant forall j :: 0 <= j < idx ==> header[j] == StringCell(columns[j])
    {
      header[idx] := StringCell(columns[idx]);
    }
    row := header[..];
  }

  /** One row per grid account, in the order the grid yields its accounts
      (returned as `order`). */
  method CollectRows(columns: seq<string>, cells: CostCells, dir: Directory, metadata: map<string, ProviderMetadata>)
    returns (rows: seq<Row>, order: seq<string>)
    requires cells.Keys <= dir.Keys
    ensures Distinct(order) && Elems(order) == cells.Keys && |order| == |cells.Keys|
    ensures rows == AccountRows(columns, order, cells, dir, metadata)
  {
    rows, order := [], [];
    var pending := cells.Keys;
    while pending != {}
      invariant pending <= cells.Keys
      invariant Distinct(order) && Elems(order) == cells.Keys - pending
      invariant |order| + |pending| == |cells.Keys|
      invariant forall i :: 0 <= i < |order| ==> order[i] in cells
      invariant rows == AccountRows(columns, order, cells, dir, metadata)
      decreases pending
    {
      var id :| id in pending;
      var row := BuildRow(columns, cells[id], dir[id], MetadataOf(metadata, id));
      ElemsAppend(order, [id]);
      assert id !in Elems(order);
      rows := rows + [row];
      order := order + [id];
      pending := pending - {id};
    }
  }

  /** Writes the TOTAL formula of each data row, relative to its own sheet
      row (the header is row 0); no other cell changes. */
  method FillTotals(rows: seq<Row>, width: nat) returns (out: seq<Row>)
    requires TotalCol < width
    requires forall k :: 0 <= k < |rows| ==> |rows[k]| == width && rows[k][TotalCol] == Blank
    ensures |out| == |rows| && forall k :: 0 <= k < |out| ==> |out[k]| == width
    ensures WithoutTotals(out) == rows
    ensures forall k :: 0 <= k < |out| ==> out[k][TotalCol] == FormulaCell(GetTotalsFormula(k + 1, Fixed, width - 1))
  {
    out := rows;
    for k := 0 to |out|
      invariant |out| == |rows|
      invariant forall j :: 0 <= j < |out| ==> |out[j]| == width && out[j][TotalCol := Blank] == rows[j]
      invariant forall j :: 0 <= j < k ==> out[j][TotalCol] == FormulaCell(GetTotalsFormula(j + 1, Fixed, width - 1))
    {
      assert out[k][TotalCol := FormulaCell(GetTotalsFormula(k + 1, Fixed, width - 1))][TotalCol := Blank] == rows[k];
      out := out[k := out[k][TotalCol := FormulaCell(GetTotalsFormula(k + 1, Fixed, width - 1))]];
    }
  }

  /** Rows as wide as the sheet, with the TOTAL cell not yet set. */
  predicate Shaped(rows: seq<Row>, width: nat) {
    TotalCol < width && forall k :: 0 <= k < |rows| ==> |rows[k]| == width && rows[k][TotalCol] == Blank
  }

  lemma AccountRowsShaped(keys: seq<string>, order: seq<string>, cells: CostCells, dir: Directory,
                          metadata: map<string, ProviderMetadata>)
    requires forall i :: 0 <= i < |order| ==> order[i] in cells && order[i] in dir
    ensures Shaped(AccountRows(FixedHeads + keys, order, cells, dir, metadata), Fixed + |keys|)
  {
    var all := AccountRows(FixedHeads + keys, order, cells, dir, metadata);
    forall i | 0 <= i < |all| ensures |all[i]| == Fixed + |keys| && all[i][TotalCol] == Blank {
      AccountRowCells(keys, cells[order[i]], dir[order[i]], MetadataOf(metadata, order[i]));
    }
  }

  lemma ShapedPermutation(rows: seq<Row>, perm: seq<Row>, width: nat)
    requires Shaped(rows, width) && multiset(perm) == multiset(rows)
    ensures Shaped(perm, width) && |perm| == |rows|
  {
    forall k | 0 <= k < |perm| ensures TotalCol < width && |perm[k]| == width && perm[k][TotalCol] == Blank {
      assert perm[k] in multiset(rows);
    }
    assert |perm| == |multiset(perm)|;
  }

  /** The three `sortOutput` passes, then the TOTAL formulas: the rows are
      permuted into Team, Cloud Provider, Account ID order, and the k-th
      (zero-based) gets the formula of sheet row k + 1. */
  method SortAndTotal(rows: seq<Row>, width: nat) returns (out: seq<Row>)
    requires Shaped(rows, width)
    ensures |out| == |rows| && forall k :: 0 <= k < |out| ==> |out[k]| == width
    ensures multiset(WithoutTotals(out)) == multiset(rows)
    ensures SortedBy(out, SortKeys)
    ensures forall k :: 0 <= k < |out| ==> out[k][TotalCol] == FormulaCell(GetTotalsFormula(k + 1, Fixed, width - 1))
  {
    var sorted := SortOutput(rows, AccountIdCol);
    sorted := SortOutput(sorted, ProviderCol);
    sorted := SortOutput(sorted, TeamCol);
    SortCascade(rows);
    ShapedPermutation(rows, sorted, width);
    out := FillTotals(sorted, width);
    forall i, j | 0 <= i < j < |out| ensures RowLeq(out[i], out[j], SortKeys) {
      KeysIgnoreTotal(out[i], sorted[i]);
      KeysIgnoreTotal(out[j], sorted[j]);
      RowLeqKeys(out[i], out[j], sorted[i], sorted[j], SortKeys);
    }
  }

  /** `getSheetFromCostCells`. The columns are the fixed ones followed by the
      sorted categories; the first row is the header; then one row per grid
      account, as wide as the header, holding exactly the account rows (in
      the order the grid yielded its accounts, returned as `order`) up to
      permutation, ordered by Team, Cloud Provider and Account ID; the TOTAL
      cell of the data row at sheet row k sums category columns I onwards of
      sheet row k. */
  method GetSheetFromCostCells(cells: CostCells, heads: set<string>, dir: Directory, metadata: map<string, ProviderMetadata>)
    returns (output: seq<Row>, columns: seq<string>, order: seq<string>)
    requires cells.Keys <= dir.Keys
    ensures |columns| == Fixed + |heads| && columns[..Fixed] == FixedHeads
    ensures StrictlySorted(columns[Fixed..]) && Elems(columns[Fixed..]) == heads
    ensures Distinct(order) && Elems(order) == cells.Keys && |order| == |cells.Keys|
    ensures |output| == |cells.Keys| + 1 && output[0] == HeaderRow(columns)
    ensures forall k :: 0 <= k < |output| ==> |output[k]| == |columns|
    ensures multiset(WithoutTotals(output[1..])) == multiset(AccountRows(columns, order, cells, dir, metadata))
    ensures SortedBy(output[1..], SortKeys)
    ensures forall k :: 1 <= k < |output| ==> output[k][TotalCol] == FormulaCell(GetTotalsFormula(k, Fixed, |columns| - 1))
  {
    var headsSet := map h | h in heads :: ();
    assert headsSet.Keys == heads;
    var keys := SortedKeys(headsSet);
    columns := FixedHeads + keys;
    assert columns[..Fixed] == FixedHeads && columns[Fixed..] == keys;

    output, order := BuildSheet(keys, cells, dir, metadata);
  }

  /** The sheet under the columns `FixedHeads + keys`: the header, then the
      account rows sorted and totalled. */
  method BuildSheet(keys: seq<string>, cells: CostCells, dir: Directory, metadata: map<string, ProviderMetadata>)
    returns (output: seq<Row>, order: seq<string>)
    requires cells.Keys <= dir.Keys
    ensures Distinct(order) && Elems(order) == cells.Keys && |order| == |cells.Keys|
    ensures |output| == |cells.Keys| + 1 && output[0] == HeaderRow(FixedHeads + keys)
    ensures forall k :: 0 <= k < |output| ==> |output[k]| == Fixed + |keys|
    ensures multiset(WithoutTotals(output[1..])) == multiset(AccountRows(FixedHeads + keys, order, cells, dir, metadata))
    ensures SortedBy(output[1..], SortKeys)
    ensures forall k :: 1 <= k < |output| ==> output[k][TotalCol] == FormulaCell(GetTotalsFormula(k, Fixed, Fixed + |keys| - 1))
  {
    var columns := FixedHeads + keys;
    var header := BuildHeader(columns);
    var rows;
    rows, order := CollectRows(columns, cells, dir, metadata);
    AccountRowsShaped(keys, order, cells, dir, metadata);
    ghost var collected := rows;
    rows := SortAndTotal(rows, |columns|);
    output := [header] + rows;
    WithHeader(header, rows, collected, |columns|);
  }

  /** Putting the header on top shifts each data row down by one sheet row,
      which is the row its TOTAL formula names. */
  lemma WithHeader(header: Row, rows: seq<Row>, collected: seq<Row>, width: nat)
    requires TotalCol < width && |header| == width
    requires forall k :: 0 <= k < |rows| ==> |rows[k]| == width
    requires multiset(WithoutTotals(rows)) == multiset(collected) && SortedBy(rows, SortKeys)
    requires forall k :: 0 <= k < |rows| ==> rows[k][TotalCol] == FormulaCell(GetTotalsFormula(k + 1, Fixed, width - 1))
    ensures var output := [header] + rows;
      && output[0] == header && |output| == |rows| + 1
      && (forall k :: 0 <= k < |output| ==> |output[k]| == width)
      && multiset(WithoutTotals(output[1..])) == multiset(collected) && SortedBy(output[1..], SortKeys)
      && forall k :: 1 <= k < |output| ==> output[k][TotalCol] == FormulaCell(GetTotalsFormula(k, Fixed, width - 1))
  {
    var output := [header] + rows;
    assert output[1..] == rows;
    forall k | 1 <= k < |output|
      ensures output[k][TotalCol] == FormulaCell(GetTotalsFormula(k, Fixed, width - 1))
    {
      var j := k - 1;
      assert output[k] == rows[j] && j + 1 == k;
    }
  }

  /** Rows that differ at most in the TOTAL cell have the same sort keys. */
  lemma KeysIgnoreTotal(a: Row, b: Row)
    requires TotalCol < |a| && a[TotalCol := Blank] == b
    ensures forall c :: c in SortKeys ==> Key(a, c) == Key(b, c)
  {
    forall c | c in SortKeys ensures Key(a, c) == Key(b, c) {
      assert b[c] == a[c];
    }
  }

  /** The order of two rows depends only on their keys. */
  lemma RowLeqKeys(a: Row, b: Row, a2: Row, b2: Row, cols: seq<nat>)
    requires forall c :: c in cols ==> Key(a, c) == Key(a2, c) && Key(b, c) == Key(b2, c)
    ensures RowLeq(a, b, cols) == RowLeq(a2, b2, cols)
    decreases |cols|
  {
    if cols != [] {
      RowLeqKeys(a, b, a2, b2, cols[1..]);
    }
  }
}
