/** Sheet cells and the pieces of spreadsheet notation costpuller writes:
    A1 column letters (`colNumToRef`), the per-row TOTAL formula
    (`getTotalsFormula`) and the projection of a cell onto one CSV field
    (costpuller.go `writeCsvFromSheet`). */
module Cells {
  import opened Wrappers
  import opened Text

  /** A cell's user-entered value: any of a string, a formula and a number
      may be set. The Go helpers set exactly one. */
  datatype Cell = Cell(str: Option<string>, formula: Option<string>, number: Option<real>)

  function StringCell(s: string): Cell { Cell(Some(s), None, None) }
  function NumberCell(x: real): Cell { Cell(None, None, Some(x)) }
  function FormulaCell(f: string): Cell { Cell(None, Some(f), None) }

  /** A cell with no value, the placeholder of a TOTAL cell before it is filled. */
  const Blank := Cell(None, None, None)

  type Row = seq<Cell>

  // ------------------------------------------------------- CSV projection

  /** The text of one CSV field: the string if set, else the formula, else the
      number rendered by `formatNumber` (Go's `%f`); a cell with no value has no text. */
  function Project(c: Cell, formatNumber: real -> string): Option<string> {
    if c.str.Some? then Some(c.str.value)
    else if c.formula.Some? then Some(c.formula.value)
    else if c.number.Some? then Some(formatNumber(c.number.value))
    else None
  }

  /** One row of `writeCsvFromSheet`: one field per cell, or the first cell
      that has no value, which stops the run. */
  method CsvRow(row: Row, formatNumber: real -> string) returns (r: Result<seq<string>, Cell>)
    ensures r.Success? <==> forall i :: 0 <= i < |row| ==> Project(row[i], formatNumber).Some?
    ensures r.Success? ==> |r.value| == |row|
    ensures r.Success? ==> forall i :: 0 <= i < |row| ==> Some(r.value[i]) == Project(row[i], formatNumber)
    ensures r.Failure? ==> r.error == Blank && Blank in row
  {
    var fields: seq<string> := [];
    for i := 0 to |row|
      invariant |fields| == i
      invariant forall j :: 0 <= j < i ==> Some(fields[j]) == Project(row[j], formatNumber)
    {
      var cell := row[i];
      var field;
      if cell.str.Some? {
        field := cell.str.value;
      } else if cell.formula.Some? {
        field := cell.formula.value;
      } else if cell.number.Some? {
        field := formatNumber(cell.number.value);
      } else {
        return Failure(cell);
      }
      fields := fields + [field];
    }
    r := Success(fields);
  }

  /** The fields of every row, in order, or the first value-less cell. */
  method CsvTable(data: seq<Row>, formatNumber: real -> string) returns (r: Result<seq<seq<string>>, Cell>)
    ensures r.Success? <==> forall k, i :: 0 <= k < |data| && 0 <= i < |data[k]| ==> Project(data[k][i], formatNumber).Some?
    ensures r.Success? ==> |r.value| == |data| && forall k :: 0 <= k < |data| ==>
      |r.value[k]| == |data[k]| && forall i :: 0 <= i < |data[k]| ==> Some(r.value[k][i]) == Project(data[k][i], formatNumber)
  {
    var rows: seq<seq<string>> := [];
    for k := 0 to |data|
      invariant |rows| == k
      invariant forall l, i :: 0 <= l < k && 0 <= i < |data[l]| ==> Project(data[l][i], formatNumber).Some?
      invariant forall l :: 0 <= l < k ==>
        |rows[l]| == |data[l]| && forall i :: 0 <= i < |data[l]| ==> Some(rows[l][i]) == Project(data[l][i], formatNumber)
    {
      var fields := CsvRow(data[k], formatNumber);
      if fields.Failure? {
        return Failure(fields.error);
      }
      rows := rows + [fields.value];
    }
    r := Success(rows);
  }

  // ------------------------------------------------------ column letters

  predicate IsUpper(c: char) {
    'A' <= c <= 'Z'
  }

  predicate AllUpper(s: string) {
    forall i :: 0 <= i < |s| ==> IsUpper(s[i])
  }

  /** The letters of a zero-based column number in bijective base 26:
      0 is "A", 25 is "Z", 26 is "AA", 701 is "ZZ", 702 is "AAA". */
  function ColNumToRef(n: nat): (s: string)
    ensures |s| > 0 && AllUpper(s)
    decreases n
  {
    var d, r := n / 26, n % 26;
    (if d > 0 then ColNumToRef(d - 1) else "") + [('A' as int + r) as char]
  }

  /** The column number a letter reference denotes. */
  function RefToColNum(s: string): nat
    requires |s| > 0 && AllUpper(s)
    decreases |s|
  {
    var last := s[|s| - 1] as int - 'A' as int;
    if |s| == 1 then last else (RefToColNum(s[..|s| - 1]) + 1) * 26 + last
  }

  lemma {:induction false} ColNumToRefRoundTrip(n: nat)
    ensures RefToColNum(ColNumToRef(n)) == n
    decreases n
  {
    var s := ColNumToRef(n);
    if n / 26 > 0 {
      ColNumToRefRoundTrip(n / 26 - 1);
      assert s[..|s| - 1] == ColNumToRef(n / 26 - 1);
    }
  }

  lemma {:induction false} RefToColNumRoundTrip(s: string)
    requires |s| > 0 && AllUpper(s)
    ensures ColNumToRef(RefToColNum(s)) == s
    decreases |s|
  {
    if |s| > 1 {
      var front := s[..|s| - 1];
      RefToColNumRoundTrip(front);
      var n := RefToColNum(s);
      var last := s[|s| - 1] as int - 'A' as int;
      assert n / 26 == RefToColNum(front) + 1 && n % 26 == last;
      assert s == front + [s[|s| - 1]];
    }
  }

  /** Distinct columns have distinct letters. */
  lemma ColNumToRefInjective(m: nat, n: nat)
    requires m != n
    ensures ColNumToRef(m) != ColNumToRef(n)
  {
    ColNumToRefRoundTrip(m);
    ColNumToRefRoundTrip(n);
  }

  lemma ColNumToRefExamples()
    ensures ColNumToRef(0) == "A" && ColNumToRef(25) == "Z" && ColNumToRef(26) == "AA"
    ensures ColNumToRef(676) == "ZA" && ColNumToRef(701) == "ZZ" && ColNumToRef(702) == "AAA"
  {
  }

  // ----------------------------------------------------- totals formula

  /** The formula summing columns `startCol` to `endCol` (zero-based) of the
      zero-based sheet row `row`; A1 rows are one-based. */
  function GetTotalsFormula(row: nat, startCol: nat, endCol: nat): string {
    "=SUM(" + ColNumToRef(startCol) + NatToString(row + 1) + ":" + ColNumToRef(endCol) + NatToString(row + 1) + ")"
  }

  /** A cell range in A1 terms: zero-based columns, one-based rows. */
  datatype A1Range = A1Range(startCol: nat, startRow: nat, endCol: nat, endRow: nat)

  /** The length of the longest prefix of `s` made of upper-case letters. */
  function SpanUpper(s: string): (k: nat)
    ensures k <= |s| && AllUpper(s[..k])
    decreases |s|
  {
    if |s| > 0 && IsUpper(s[0]) then
      var k := 1 + SpanUpper(s[1..]);
      assert s[..k] == [s[0]] + s[1..][..k - 1];
      k
    else 0
  }

  /** The length of the longest prefix of `s` made of decimal digits. */
  function SpanDigits(s: string): (k: nat)
    ensures k <= |s| && AllDigits(s[..k])
    decreases |s|
  {
    if |s| > 0 && IsDigit(s[0]) then
      var k := 1 + SpanDigits(s[1..]);
      assert s[..k] == [s[0]] + s[1..][..k - 1];
      k
    else 0
  }

  datatype CellRef = CellRef(col: nat, row: nat, rest: string)

  /** Reads one A1 reference (letters, then digits) off the front of `s`. */
  function ParseRef(s: string): Option<CellRef> {
    var k := SpanUpper(s);
    if k == 0 then None
    else
      var t := s[k..];
      var m := SpanDigits(t);
      if m == 0 then None else Some(CellRef(RefToColNum(s[..k]), DigitsValue(t[..m]), t[m..]))
  }

  /** Reads a formula of the form `=SUM(<ref>:<ref>)`. */
  function ParseSumFormula(f: string): Option<A1Range> {
    if !HasPrefix(f, "=SUM(") then None
    else
      var a :- ParseRef(f[5..]);
      if |a.rest| == 0 || a.rest[0] != ':' then None
      else
        var b :- ParseRef(a.rest[1..]);
        if b.rest != ")" then None else Some(A1Range(a.col, a.row, b.col, b.row))
  }

  lemma {:induction false} SpanUpperOf(a: string, b: string)
    requires AllUpper(a) && (|b| == 0 || !IsUpper(b[0]))
    ensures SpanUpper(a + b) == |a|
    decreases |a|
  {
    if |a| > 0 {
      assert (a + b)[1..] == a[1..] + b;
      SpanUpperOf(a[1..], b);
    } else {
      assert a + b == b;
    }
  }

  lemma {:induction false} SpanDigitsOf(a: string, b: string)
    requires AllDigits(a) && (|b| == 0 || !IsDigit(b[0]))
    ensures SpanDigits(a + b) == |a|
    decreases |a|
  {
    if |a| > 0 {
      assert (a + b)[1..] == a[1..] + b;
      SpanDigitsOf(a[1..], b);
    } else {
      assert a + b == b;
    }
  }

  /** A reference written as letters then digits reads back as itself. */
  lemma ParseRefOf(col: nat, row: nat, rest: string)
    requires |rest| > 0 && !IsDigit(rest[0])
    ensures ParseRef(ColNumToRef(col) + NatToString(row) + rest) == Some(CellRef(col, row, rest))
  {
    var letters, digits := ColNumToRef(col), NatToString(row);
    var s := letters + digits + rest;
    assert s == letters + (digits + rest);
    SpanUpperOf(letters, digits + rest);
    assert s[..|letters|] == letters && s[|letters|..] == digits + rest;
    SpanDigitsOf(digits, rest);
    assert (digits + rest)[..|digits|] == digits && (digits + rest)[|digits|..] == rest;
    ColNumToRefRoundTrip(col);
    NatToStringRoundTrip(row);
  }

  /** The TOTAL formula denotes exactly columns `startCol` to `endCol` of its
      own row: both ends are on the same, one-based, sheet row. */
  lemma TotalsFormulaRange(row: nat, startCol: nat, endCol: nat)
    ensures ParseSumFormula(GetTotalsFormula(row, startCol, endCol)) == Some(A1Range(startCol, row + 1, endCol, row + 1))
  {
    var f := GetTotalsFormula(row, startCol, endCol);
    var second := ColNumToRef(endCol) + NatToString(row + 1) + ")";
    var first := ColNumToRef(startCol) + NatToString(row + 1) + (":" + second);
    assert f == "=SUM(" + first;
    assert f[5..] == first;
    ParseRefOf(startCol, row + 1, ":" + second);
    assert (":" + second)[1..] == second;
    ParseRefOf(endCol, row + 1, ")");
  }
}
