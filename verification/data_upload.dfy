/**
 * The row normalizer of the upload screen: the rows of the first sheet,
 * decoded as positional arrays, become revenue or cost records. Row 0 is the
 * header and is skipped by position. Columns 1-3 are amounts in base
 * currency units and are divided by 10000 (to "wan"); column 4 is a rate
 * passed through as is; columns 0 and 5 are the label and the department.
 * A record whose label is falsy is dropped. Labels are not trimmed.
 */
module DataUpload {
  import opened Wrappers
  import opened Types
  import Aggregate

  /** A decoded spreadsheet cell: blank (or missing), text, or a number. */
  datatype Cell = Empty | Text(text: string) | Num(number: real)

  type Row = seq<Cell>

  /**
   * The two conversions of the host language the mapping relies on:
   * `parseFloat` on a text cell (None where it yields NaN), and `String(x)`,
   * the text a numeric label cell stands for once it is used as a string.
   */
  datatype Conversions = Conversions(parseFloat: string -> Option<real>, numberText: real -> string)

  /** `String(x)` of a number is never the empty string. */
  ghost predicate ValidConversions(cv: Conversions)
  {
    forall x :: cv.numberText(x) != ""
  }

  /** Amount cells are in base units; records hold ten-thousands. */
  const WanDivisor: real := 10000.0

  /** `row[i]`: a position past the end of the row reads as a blank cell. */
  function CellAt(row: Row, i: nat): Cell
  {
    if i < |row| then row[i] else Empty
  }

  /** JavaScript truthiness of a cell value. */
  predicate Truthy(c: Cell)
  {
    match c
    case Empty => false
    case Text(s) => s != ""
    case Num(x) => x != 0.0
  }

  /**
   * `parseFloat(cell) || 0`. A number cell reads back as itself (a finite
   * number survives `String` and `parseFloat` exactly); a blank cell and a
   * text that does not parse give 0.
   */
  function NumberOf(cv: Conversions, c: Cell): real
  {
    match c
    case Empty => 0.0
    case Num(x) => x
    case Text(s) => cv.parseFloat(s).GetOr(0.0)
  }

  /** `cell || ''` for the label and department columns. */
  function LabelOf(cv: Conversions, c: Cell): string
  {
    match c
    case Empty => ""
    case Text(s) => s
    case Num(x) => if x == 0.0 then "" else cv.numberText(x)
  }

  /** The label is empty exactly when the cell is falsy. */
  lemma LabelEmptyIffFalsy(cv: Conversions, c: Cell)
    requires ValidConversions(cv)
    ensures LabelOf(cv, c) != "" <==> Truthy(c)
  {
  }

  /** The `'revenue'` branch of the row mapping. */
  function ToRevenue(cv: Conversions, row: Row): FinancialData
  {
    FinancialData(
      businessSegment := LabelOf(cv, CellAt(row, 0)),
      currentMonthRevenue := NumberOf(cv, CellAt(row, 1)) / WanDivisor,
      yearToDateRevenue := NumberOf(cv, CellAt(row, 2)) / WanDivisor,
      budgetAmount := NumberOf(cv, CellAt(row, 3)) / WanDivisor,
      completionRate := NumberOf(cv, CellAt(row, 4)),
      department := LabelOf(cv, CellAt(row, 5)))
  }

  /** The `'cost'` branch of the row mapping. */
  function ToCost(cv: Conversions, row: Row): CostData
  {
    CostData(
      costCategory := LabelOf(cv, CellAt(row, 0)),
      currentMonthCost := NumberOf(cv, CellAt(row, 1)) / WanDivisor,
      yearToDateCost := NumberOf(cv, CellAt(row, 2)) / WanDivisor,
      budgetAmount := NumberOf(cv, CellAt(row, 3)) / WanDivisor,
      costRate := NumberOf(cv, CellAt(row, 4)),
      department := LabelOf(cv, CellAt(row, 5)))
  }

  /** `rows.slice(1)`: everything after the header (nothing, for an empty sheet). */
  function DataRows(rows: seq<Row>): seq<Row>
  {
    if |rows| == 0 then [] else rows[1..]
  }

  function MapRevenue(cv: Conversions, rows: seq<Row>): seq<FinancialData>
  {
    seq(|rows|, i requires 0 <= i < |rows| => ToRevenue(cv, rows[i]))
  }

  function MapCost(cv: Conversions, rows: seq<Row>): seq<CostData>
  {
    seq(|rows|, i requires 0 <= i < |rows| => ToCost(cv, rows[i]))
  }

  /** `.filter(item => item.businessSegment || item.costCategory)` on revenue records. */
  function KeepRevenue(recs: seq<FinancialData>): seq<FinancialData>
    decreases |recs|
  {
    if |recs| == 0 then []
    else (if recs[0].businessSegment != "" then [recs[0]] else []) + KeepRevenue(recs[1..])
  }

  /** The same filter on cost records. */
  function KeepCost(recs: seq<CostData>): seq<CostData>
    decreases |recs|
  {
    if |recs| == 0 then []
    else (if recs[0].costCategory != "" then [recs[0]] else []) + KeepCost(recs[1..])
  }

  /** `parseExcelFile(file, 'revenue')` once the sheet is decoded into `rows`. */
  function NormalizeRevenue(cv: Conversions, rows: seq<Row>): seq<FinancialData>
  {
    KeepRevenue(MapRevenue(cv, DataRows(rows)))
  }

  /** `parseExcelFile(file, 'cost')` once the sheet is decoded into `rows`. */
  function NormalizeCost(cv: Conversions, rows: seq<Row>): seq<CostData>
  {
    KeepCost(MapCost(cv, DataRows(rows)))
  }

  // ---------------------------------------------------------------------------
  // Which rows survive: a reference definition by row index
  // ---------------------------------------------------------------------------

  /** Indices j >= lo of the rows whose label cell is truthy, ascending. */
  function LabelledFrom(rows: seq<Row>, lo: nat): seq<nat>
    decreases |rows| - lo
  {
    if lo >= |rows| then []
    else (if Truthy(CellAt(rows[lo], 0)) then [lo] else []) + LabelledFrom(rows, lo + 1)
  }

  /** The number of rows j >= lo whose label cell is falsy. */
  function UnlabelledFrom(rows: seq<Row>, lo: nat): nat
    decreases |rows| - lo
  {
    if lo >= |rows| then 0
    else (if Truthy(CellAt(rows[lo], 0)) then 0 else 1) + UnlabelledFrom(rows, lo + 1)
  }

  /** The data rows (index 1 onward) that become records. */
  function KeptRows(rows: seq<Row>): seq<nat>
  {
    LabelledFrom(rows, 1)
  }

  /** The data rows that are dropped. */
  function DroppedRows(rows: seq<Row>): nat
  {
    UnlabelledFrom(rows, 1)
  }

  /**
   * LabelledFrom lists, in strictly ascending order, exactly the indices from
   * `lo` on whose label cell is truthy; with the dropped ones they account
   * for every row from `lo` on.
   */
  lemma {:induction false} LabelledFromSpec(rows: seq<Row>, lo: nat)
    requires lo <= |rows|
    ensures forall k :: 0 <= k < |LabelledFrom(rows, lo)| ==>
              lo <= LabelledFrom(rows, lo)[k] < |rows| && Truthy(CellAt(rows[LabelledFrom(rows, lo)[k]], 0))
    ensures forall k, m :: 0 <= k < m < |LabelledFrom(rows, lo)| ==> LabelledFrom(rows, lo)[k] < LabelledFrom(rows, lo)[m]
    ensures forall j :: lo <= j < |rows| && Truthy(CellAt(rows[j], 0)) ==> j in LabelledFrom(rows, lo)
    ensures |LabelledFrom(rows, lo)| + UnlabelledFrom(rows, lo) == |rows| - lo
    decreases |rows| - lo
  {
    if lo < |rows| {
      LabelledFromSpec(rows, lo + 1);
    }
  }

  lemma {:induction false} KeepMapFrom(cv: Conversions, rows: seq<Row>, lo: nat)
    requires ValidConversions(cv)
    requires lo <= |rows|
    ensures |KeepRevenue(MapRevenue(cv, rows[lo..]))| == |LabelledFrom(rows, lo)|
    ensures forall k :: 0 <= k < |LabelledFrom(rows, lo)| ==>
              LabelledFrom(rows, lo)[k] < |rows| &&
              KeepRevenue(MapRevenue(cv, rows[lo..]))[k] == ToRevenue(cv, rows[LabelledFrom(rows, lo)[k]])
    decreases |rows| - lo
  {
    LabelledFromSpec(rows, lo);
    if lo < |rows| {
      KeepMapFrom(cv, rows, lo + 1);
      var x := ToRevenue(cv, rows[lo]);
      var tail := MapRevenue(cv, rows[lo + 1..]);
      assert MapRevenue(cv, rows[lo..]) == [x] + tail;
      assert ([x] + tail)[1..] == tail;
      LabelEmptyIffFalsy(cv, CellAt(rows[lo], 0));
    }
  }

  /**
   * The normalized revenue collection is, in order, the mapping of exactly
   * the rows from index 1 on whose label cell is truthy; its length is the
   * number of rows minus the header minus the dropped rows.
   */
  lemma NormalizeRevenueSelects(cv: Conversions, rows: seq<Row>)
    requires ValidConversions(cv)
    ensures |NormalizeRevenue(cv, rows)| == |KeptRows(rows)|
    ensures forall k :: 0 <= k < |KeptRows(rows)| ==>
              1 <= KeptRows(rows)[k] < |rows| &&
              NormalizeRevenue(cv, rows)[k] == ToRevenue(cv, rows[KeptRows(rows)[k]])
    ensures forall j :: 1 <= j < |rows| ==> (j in KeptRows(rows) <==> Truthy(CellAt(rows[j], 0)))
    ensures forall k, m :: 0 <= k < m < |KeptRows(rows)| ==> KeptRows(rows)[k] < KeptRows(rows)[m]
    ensures |rows| == 0 ==> NormalizeRevenue(cv, rows) == []
    ensures |rows| >= 1 ==> |NormalizeRevenue(cv, rows)| == |rows| - 1 - DroppedRows(rows)
  {
    if |rows| >= 1 {
      LabelledFromSpec(rows, 1);
      KeepMapFrom(cv, rows, 1);
    }
  }

  /** Every normalized record has a non-empty label. */
  lemma {:induction false} KeepRevenueLabelled(recs: seq<FinancialData>)
    ensures forall k :: 0 <= k < |KeepRevenue(recs)| ==> KeepRevenue(recs)[k].businessSegment != ""
    ensures |KeepRevenue(recs)| <= |recs|
    decreases |recs|
  {
    if |recs| > 0 {
      KeepRevenueLabelled(recs[1..]);
    }
  }

  // ---------------------------------------------------------------------------
  // The cost branch is the revenue branch with the fields renamed
  // ---------------------------------------------------------------------------

  /** The field-for-field renaming between the two record shapes. */
  function AsCost(r: FinancialData): CostData
  {
    CostData(r.businessSegment, r.currentMonthRevenue, r.yearToDateRevenue, r.budgetAmount,
             r.completionRate, r.department)
  }

  lemma {:induction false} KeepMapAgree(cv: Conversions, rs: seq<Row>)
    ensures KeepCost(MapCost(cv, rs)) == Aggregate.MapSeq(KeepRevenue(MapRevenue(cv, rs)), AsCost)
    decreases |rs|
  {
    if |rs| > 0 {
      var mr, mc := MapRevenue(cv, rs), MapCost(cv, rs);
      assert mr[1..] == MapRevenue(cv, rs[1..]);
      assert mc[1..] == MapCost(cv, rs[1..]);
      assert mc[0] == AsCost(mr[0]);
      KeepMapAgree(cv, rs[1..]);
      var tr := KeepRevenue(mr[1..]);
      var hr := if mr[0].businessSegment != "" then [mr[0]] else [];
      var hc := if mc[0].costCategory != "" then [mc[0]] else [];
      assert KeepRevenue(mr) == hr + tr;
      assert KeepCost(mc) == hc + Aggregate.MapSeq(tr, AsCost);
      assert hc == Aggregate.MapSeq(hr, AsCost);
      Aggregate.MapSeqAppend(hr, tr, AsCost);
    }
  }

  /**
   * Both branches map every row identically and keep the same rows: the cost
   * collection is the revenue collection with its fields renamed.
   */
  lemma NormalizeBranchesAgree(cv: Conversions, rows: seq<Row>)
    ensures forall row :: ToCost(cv, row) == AsCost(ToRevenue(cv, row))
    ensures NormalizeCost(cv, rows) == Aggregate.MapSeq(NormalizeRevenue(cv, rows), AsCost)
  {
    KeepMapAgree(cv, DataRows(rows));
  }

  // ---------------------------------------------------------------------------
  // Field-level properties
  // ---------------------------------------------------------------------------

  /** Whether `parseFloat` of the cell yields a number. */
  predicate Parses(cv: Conversions, c: Cell)
  {
    c.Num? || (c.Text? && cv.parseFloat(c.text).Some?)
  }

  /**
   * The three amounts are the numeric values of cells 1-3 divided by 10000;
   * the rate is the numeric value of cell 4, unscaled; a cell that does not
   * parse (blank, missing, non-numeric text) contributes 0.
   */
  lemma RowFields(cv: Conversions, row: Row)
    ensures ToRevenue(cv, row).currentMonthRevenue * WanDivisor == NumberOf(cv, CellAt(row, 1))
    ensures ToRevenue(cv, row).yearToDateRevenue * WanDivisor == NumberOf(cv, CellAt(row, 2))
    ensures ToRevenue(cv, row).budgetAmount * WanDivisor == NumberOf(cv, CellAt(row, 3))
    ensures ToRevenue(cv, row).completionRate == NumberOf(cv, CellAt(row, 4))
    ensures forall c :: 1 <= c <= 4 && !Parses(cv, CellAt(row, c)) ==> NumberOf(cv, CellAt(row, c)) == 0.0
    ensures forall c :: 1 <= c <= 4 && CellAt(row, c).Num? ==> NumberOf(cv, CellAt(row, c)) == CellAt(row, c).number
  {
  }

  /** Cells from column 6 on never affect a record. */
  lemma ExtraColumnsIgnored(cv: Conversions, row: Row, row': Row)
    requires forall c :: 0 <= c < 6 ==> CellAt(row, c) == CellAt(row', c)
    ensures ToRevenue(cv, row) == ToRevenue(cv, row')
    ensures ToCost(cv, row) == ToCost(cv, row')
  {
  }

  /** The header row is skipped by position, whatever it holds. */
  lemma HeaderIgnored(cv: Conversions, rows: seq<Row>, header: Row)
    requires |rows| >= 1
    ensures NormalizeRevenue(cv, [header] + rows[1..]) == NormalizeRevenue(cv, rows)
    ensures NormalizeCost(cv, [header] + rows[1..]) == NormalizeCost(cv, rows)
  {
  }

  /**
   * A worked row: label "A", 10,000,000 this month, 137,000,000 year to date,
   * a blank budget, a rate of 91.33 and department "Dept1".
   */
  lemma ExampleRow(cv: Conversions, header: Row)
    requires ValidConversions(cv)
    requires cv.parseFloat("10000000") == Some(10000000.0)
    requires cv.parseFloat("137000000") == Some(137000000.0)
    requires cv.parseFloat("") == None
    requires cv.parseFloat("91.33") == Some(91.33)
    ensures NormalizeRevenue(cv, [header, [Text("A"), Text("10000000"), Text("137000000"), Text(""), Text("91.33"), Text("Dept1")]])
         == [FinancialData("A", 1000.0, 13700.0, 0.0, 91.33, "Dept1")]
  {
    var row := [Text("A"), Text("10000000"), Text("137000000"), Text(""), Text("91.33"), Text("Dept1")];
    var rows := [header, row];
    assert DataRows(rows) == [row];
    assert MapRevenue(cv, [row]) == [ToRevenue(cv, row)];
    assert KeepRevenue([ToRevenue(cv, row)]) == [ToRevenue(cv, row)] by {
      assert [ToRevenue(cv, row)][1..] == [];
    }
  }
}
