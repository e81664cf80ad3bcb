/** Posting the materialised sheet to the spreadsheet (gsheets.go): finding
    or adding the data tab, finding the main sheet and the cell in it that
    names the data tab, and the batches of update requests that follow. The
    Sheets API itself is not modelled: its answers (the tabs, the main
    sheet's values, the id of an added tab) are parameters and the requests
    are values. */
module SheetSync {
  import opened Wrappers
  import opened Text
  import opened Cells

  /** Zero-based, start-inclusive, end-exclusive cell range of a tab. */
  datatype GridRange = GridRange(sheetId: int, startCol: nat, startRow: nat, endCol: nat, endRow: nat)

  /** The properties of a tab. */
  datatype SheetProperties = SheetProperties(sheetId: int, title: string, index: nat, columnCount: nat, rowCount: nat, hidden: bool)

  /** A value read back from a sheet; only strings matter here. */
  datatype Value = StrValue(s: string) | OtherValue

  datatype Request =
    | UpdateCells(range: GridRange, rows: seq<Row>, fields: string)
    | CopyPaste(source: GridRange, destination: GridRange, pasteType: string, orientation: string)
    | AutoResizeColumns(sheetId: int)

  // ------------------------------------------------ getDataGridRange

  /** `getDataGridRange`: the range of a whole tab. */
  function GetDataGridRange(props: SheetProperties): (r: GridRange)
    ensures r.sheetId == props.sheetId && r.startCol == 0 && r.startRow == 0
    ensures r.endCol - r.startCol == props.columnCount && r.endRow - r.startRow == props.rowCount
  {
    GridRange(props.sheetId, 0, 0, props.columnCount, props.rowCount)
  }

  // ---------------------------------------------- getSheetIdFromName

  /** The first of the tabs from `i` on whose title is `name`. */
  function FirstTitledFrom(tabs: seq<SheetProperties>, name: string, i: nat): Option<SheetProperties>
    requires i <= |tabs|
    decreases |tabs| - i
  {
    if i == |tabs| then None
    else if tabs[i].title == name then Some(tabs[i])
    else FirstTitledFrom(tabs, name, i + 1)
  }

  /** The tab a sheet name denotes. */
  function FirstTitled(tabs: seq<SheetProperties>, name: string): Option<SheetProperties> {
    FirstTitledFrom(tabs, name, 0)
  }

  lemma {:induction false} FirstTitledFromSpec(tabs: seq<SheetProperties>, name: string, i: nat)
    requires i <= |tabs|
    ensures FirstTitledFrom(tabs, name, i).None? <==> forall j :: i <= j < |tabs| ==> tabs[j].title != name
    ensures FirstTitledFrom(tabs, name, i).Some? ==>
      exists k :: i <= k < |tabs| && tabs[k] == FirstTitledFrom(tabs, name, i).value
        && tabs[k].title == name && forall j :: i <= j < k ==> tabs[j].title != name
    decreases |tabs| - i
  {
    if i < |tabs| && tabs[i].title != name {
      FirstTitledFromSpec(tabs, name, i + 1);
    }
  }

  /** The tab named `name` is the first tab with exactly that title; there
      is none exactly when no title equals it. */
  lemma FirstTitledSpec(tabs: seq<SheetProperties>, name: string)
    ensures FirstTitled(tabs, name).None? <==> forall j :: 0 <= j < |tabs| ==> tabs[j].title != name
    ensures FirstTitled(tabs, name).Some? ==>
      exists k :: 0 <= k < |tabs| && tabs[k] == FirstTitled(tabs, name).value
        && tabs[k].title == name && forall j :: 0 <= j < k ==> tabs[j].title != name
  {
    FirstTitledFromSpec(tabs, name, 0);
  }

  /** `getSheetIdFromName`: a scan of the tabs with an early return. */
  method GetSheetIdFromName(tabs: seq<SheetProperties>, sheetName: string) returns (r: Option<SheetProperties>)
    ensures r == FirstTitled(tabs, sheetName)
  {
    for i := 0 to |tabs|
      invariant FirstTitledFrom(tabs, sheetName, i) == FirstTitled(tabs, sheetName)
    {
      if tabs[i].title == sheetName {
        return Some(tabs[i]);
      }
    }
    r := None;
  }

  // ---------------------------------------------- getUpdateLocation

  /** Where the data goes: the tab to add, if any, and the range to fill. */
  datatype Location = Location(addSheet: Option<SheetProperties>, range: GridRange)

  /** `getUpdateLocation`: the existing tab of that name, or else a new
      hidden one at the end of the tab list, sized to the data; the tab id of
      an added tab is the one the service assigns, `newSheetId`. */
  function GetUpdateLocation(tabs: seq<SheetProperties>, newSheetName: string, newColumnCount: nat, newRowCount: nat,
                             newSheetId: int): Location
  {
    var existing := FirstTitled(tabs, newSheetName);
    if existing.Some? then Location(None, GetDataGridRange(existing.value))
    else
      var props := SheetProperties(newSheetId, newSheetName, |tabs|, newColumnCount, newRowCount, true);
      Location(Some(props), GetDataGridRange(props))
  }

  /** The location is a whole tab titled as asked for: the first existing tab
      of that title, overwritten, or a new hidden tab appended at index
      `len(Sheets)` with exactly the data's columns and rows. */
  lemma UpdateLocationSpec(tabs: seq<SheetProperties>, name: string, columns: nat, rows: nat, newSheetId: int)
    ensures var loc := GetUpdateLocation(tabs, name, columns, rows, newSheetId);
      && loc.range.startCol == 0 && loc.range.startRow == 0
      && (loc.addSheet.None? <==> exists k :: 0 <= k < |tabs| && tabs[k].title == name)
      && (loc.addSheet.None? ==>
            exists k :: (0 <= k < |tabs| && tabs[k].title == name && loc.range == GetDataGridRange(tabs[k])
                         && forall j :: 0 <= j < k ==> tabs[j].title != name))
      && (loc.addSheet.Some? ==>
            && loc.addSheet.value == SheetProperties(newSheetId, name, |tabs|, columns, rows, true)
            && loc.range == GridRange(newSheetId, 0, 0, columns, rows))
  {
    FirstTitledSpec(tabs, name);
  }

  // ------------------------------------------- getNewSheetReference

  /** A main-sheet cell refers to the data tab when it is a string that
      contains the tab's name. */
  predicate Refers(v: Value, name: string) {
    v.StrValue? && Contains(v.s, name)
  }

  /** The first cell of `row` from `j` on that refers to `name`. */
  function FirstCellFrom(row: seq<Value>, name: string, j: nat): Option<nat>
    requires j <= |row|
    decreases |row| - j
  {
    if j == |row| then None
    else if Refers(row[j], name) then Some(j)
    else FirstCellFrom(row, name, j + 1)
  }

  /** The first cell, in row-major order and from row `i` on, that refers to `name`. */
  function FirstRefFrom(values: seq<seq<Value>>, name: string, i: nat): Option<(nat, nat)>
    requires i <= |values|
    decreases |values| - i
  {
    if i == |values| then None
    else
      var c := FirstCellFrom(values[i], name, 0);
      if c.Some? then Some((i, c.value)) else FirstRefFrom(values, name, i + 1)
  }

  /** The range of main-sheet cells that refer to the data tab: the column of
      the first cell naming the tab, from the row below it, `rowCount` + 1 rows. */
  function NewSheetReference(values: seq<seq<Value>>, mainSheetId: int, newSheetName: string, rowCount: nat): Option<GridRange> {
    match FirstRefFrom(values, newSheetName, 0)
    case None => None
    case Some((r, c)) => Some(GridRange(mainSheetId, c, r + 1, c + 1, r + 1 + rowCount + 1))
  }

  lemma {:induction false} FirstCellFromSpec(row: seq<Value>, name: string, j: nat)
    requires j <= |row|
    ensures FirstCellFrom(row, name, j).None? <==> forall l :: j <= l < |row| ==> !Refers(row[l], name)
    ensures FirstCellFrom(row, name, j).Some? ==>
      var c := FirstCellFrom(row, name, j).value;
      j <= c < |row| && Refers(row[c], name) && forall l :: j <= l < c ==> !Refers(row[l], name)
    decreases |row| - j
  {
    if j < |row| && !Refers(row[j], name) {
      FirstCellFromSpec(row, name, j + 1);
    }
  }

  /** Cell `(k, l)` comes before cell `(i, j)` when read row by row. */
  predicate RowMajorBefore(k: nat, l: nat, i: nat, j: nat) {
    k < i || (k == i && l < j)
  }

  lemma {:induction false} FirstRefFromSpec(values: seq<seq<Value>>, name: string, i: nat)
    requires i <= |values|
    ensures FirstRefFrom(values, name, i).None? <==>
      forall k, l :: i <= k < |values| && 0 <= l < |values[k]| ==> !Refers(values[k][l], name)
    ensures FirstRefFrom(values, name, i).Some? ==>
      var (r, c) := FirstRefFrom(values, name, i).value;
      && i <= r < |values| && c < |values[r]| && Refers(values[r][c], name)
      && forall k, l :: i <= k < |values| && 0 <= l < |values[k]| && RowMajorBefore(k, l, r, c) ==> !Refers(values[k][l], name)
    decreases |values| - i
  {
    if i < |values| {
      FirstCellFromSpec(values[i], name, 0);
      if FirstCellFrom(values[i], name, 0).None? {
        FirstRefFromSpec(values, name, i + 1);
      }
    }
  }

  /** The reference is found exactly when some string cell of the main sheet
      contains the data tab's name; it is then one column wide and
      `rowCount` + 1 rows tall, starting just below the first such cell in
      row-major order. */
  lemma NewSheetReferenceSpec(values: seq<seq<Value>>, mainSheetId: int, name: string, rowCount: nat)
    ensures var ref := NewSheetReference(values, mainSheetId, name, rowCount);
      && (ref.None? <==> forall k, l :: 0 <= k < |values| && 0 <= l < |values[k]| ==> !Refers(values[k][l], name))
      && (ref.Some? ==>
            var r, c := ref.value.startRow - 1, ref.value.startCol;
            && 0 <= r < |values| && c < |values[r]| && Refers(values[r][c], name)
            && (forall k, l :: 0 <= k < |values| && 0 <= l < |values[k]| && RowMajorBefore(k, l, r, c) ==> !Refers(values[k][l], name))
            && ref.value.sheetId == mainSheetId
            && ref.value.endCol == c + 1 && ref.value.endRow - ref.value.startRow == rowCount + 1)
  {
    FirstRefFromSpec(values, name, 0);
  }

  /** `getNewSheetReference`: a row-major scan of the main sheet's values
      with an early return at the first cell naming the data tab. */
  method GetNewSheetReference(values: seq<seq<Value>>, mainSheetId: int, newSheetName: string, rowCount: nat)
    returns (r: Option<GridRange>)
    ensures r == NewSheetReference(values, mainSheetId, newSheetName, rowCount)
  {
    for i := 0 to |values|
      invariant FirstRefFrom(values, newSheetName, i) == FirstRefFrom(values, newSheetName, 0)
    {
      var row := values[i];
      for j := 0 to |row|
        invariant FirstCellFrom(row, newSheetName, j) == FirstCellFrom(row, newSheetName, 0)
      {
        var cell := row[j];
        if cell.StrValue? && Contains(cell.s, newSheetName) {
          var msColumn, msRow := j, i + 1;
          return Some(GridRange(mainSheetId, msColumn, msRow, msColumn + 1, msRow + rowCount + 1));
        }
      }
    }
    r := None;
  }

  // ---------------------------------------------------- loadNewData

  const DataFields := "userEnteredValue,userEnteredFormat"

  /** `loadNewData`: the two batches of requests, in the order they are sent. */
  function LoadNewData(sheetData: seq<Row>, newSheetRef: GridRange, mainSheetRef: GridRange): seq<seq<Request>> {
    [[UpdateCells(newSheetRef, sheetData, DataFields),
      CopyPaste(mainSheetRef, mainSheetRef, "PASTE_NORMAL", "NORMAL")],
     [AutoResizeColumns(newSheetRef.sheetId)]]
  }

  // ---------------------------------------------------- postToGSheet

  datatype PostError = MainSheetMissing(mainSheetName: string) | ReferenceMissing(newSheetName: string, mainSheetName: string)

  /** What posting sends: the tab added, if any (it is added before the
      checks that may stop the run), then the update batches or the fatal error. */
  datatype Posting = Posting(addSheet: Option<SheetProperties>, batches: Result<seq<seq<Request>>, PostError>)

  /** The request plan of `postToGSheet` for the already formatted data-tab
      name; `mainValues` are the main sheet's values as the service returns
      them. The data has at least its header row. */
  function PostToGSheet(sheetData: seq<Row>, tabs: seq<SheetProperties>, newSheetName: string, mainSheetName: string,
                        newSheetId: int, mainValues: seq<seq<Value>>): Posting
    requires |sheetData| > 0
  {
    var loc := GetUpdateLocation(tabs, newSheetName, |sheetData[0]|, |sheetData|, newSheetId);
    var main := FirstTitled(tabs, mainSheetName);
    if main.None? then Posting(loc.addSheet, Failure(MainSheetMissing(mainSheetName)))
    else
      var ref := NewSheetReference(mainValues, main.value.sheetId, newSheetName, |sheetData|);
      if ref.None? then Posting(loc.addSheet, Failure(ReferenceMissing(newSheetName, mainSheetName)))
      else Posting(loc.addSheet, Success(LoadNewData(sheetData, loc.range, ref.value)))
  }

  /** Posting stops exactly when there is no tab titled as the main sheet or
      no main-sheet cell names the data tab. Otherwise the first batch writes
      all the data into the whole data tab and re-pastes the referring range
      of the main sheet onto itself (a range covering one more row than the
      data, header included, has), and only a later batch resizes the data
      tab's columns. */
  lemma PostToGSheetSpec(sheetData: seq<Row>, tabs: seq<SheetProperties>, newSheetName: string, mainSheetName: string,
                         newSheetId: int, mainValues: seq<seq<Value>>)
    requires |sheetData| > 0
    ensures var p := PostToGSheet(sheetData, tabs, newSheetName, mainSheetName, newSheetId, mainValues);
      && (p.batches.Failure? <==>
            (forall j :: 0 <= j < |tabs| ==> tabs[j].title != mainSheetName) ||
            (FirstTitled(tabs, mainSheetName).Some? &&
             forall k, l :: 0 <= k < |mainValues| && 0 <= l < |mainValues[k]| ==> !Refers(mainValues[k][l], newSheetName)))
      && (p.batches.Success? ==>
            var b := p.batches.value;
            var loc := GetUpdateLocation(tabs, newSheetName, |sheetData[0]|, |sheetData|, newSheetId);
            && |b| == 2 && |b[0]| == 2 && |b[1]| == 1
            && b[0][0] == UpdateCells(loc.range, sheetData, DataFields)
            && loc.range.startCol == 0 && loc.range.startRow == 0
            && b[0][1].CopyPaste? && b[0][1].source == b[0][1].destination
            && b[0][1].source.endRow - b[0][1].source.startRow == |sheetData| + 1
            && b[0][1].source.sheetId == FirstTitled(tabs, mainSheetName).value.sheetId
            && b[1][0] == AutoResizeColumns(loc.range.sheetId))
  {
    FirstTitledSpec(tabs, mainSheetName);
    var main := FirstTitled(tabs, mainSheetName);
    if main.Some? {
      NewSheetReferenceSpec(mainValues, main.value.sheetId, newSheetName, |sheetData|);
    }
  }
}
