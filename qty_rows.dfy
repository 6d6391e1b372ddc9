/** The shape shared by update_server_qty.py and update_switch_qty.py: in each
    table row having a cell that mentions a product name, a cell whose stripped
    text is "2" becomes "1", and a cell mentioning the old row sum has it
    replaced by the new one. Body paragraphs are not touched. */
module QuantityFix {
  import opened Text
  import opened Docx

  /** One cell of a marked row: the quantity check, then the sum check on the
      cell's text as it is after the first. */
  function FixCell(c: Cell, oldSum: string, newSum: string): Cell
    requires |oldSum| > 0
  {
    var c1 := if Strip(CellText(c)) == "2" then SetCellText("1") else c;
    if Contains(CellText(c1), oldSum) then SetCellText(ReplaceAll(CellText(c1), oldSum, newSum)) else c1
  }

  /** A row after the script: fixed when some cell mentions `marker`, else as it was. */
  function FixRow(row: seq<Cell>, marker: string, oldSum: string, newSum: string): (r: seq<Cell>)
    requires |oldSum| > 0
    ensures |r| == |row|
  {
    if RowHas(row, marker) then seq(|row|, j requires 0 <= j < |row| => FixCell(row[j], oldSum, newSum))
    else row
  }

  /** The document after the script. */
  function Fixed(d: Document, marker: string, oldSum: string, newSum: string): Document
    requires |oldSum| > 0
  {
    Document(d.paragraphs,
      seq(|d.tables|, i requires 0 <= i < |d.tables| =>
        Table(seq(|d.tables[i].rows|, m requires 0 <= m < |d.tables[i].rows| =>
          FixRow(d.tables[i].rows[m], marker, oldSum, newSum)))))
  }

  /** The script's nested loops over every row of every table. */
  method FixQuantities(d: Document, marker: string, oldSum: string, newSum: string) returns (r: Document)
    requires |oldSum| > 0
    ensures r == Fixed(d, marker, oldSum, newSum)
  {
    var tables: seq<Table> := [];
    var i := 0;
    while i < |d.tables|
      invariant 0 <= i <= |d.tables| && |tables| == i
      invariant forall n :: 0 <= n < i ==> tables[n] == Fixed(d, marker, oldSum, newSum).tables[n]
    {
      var rows := FixTable(d.tables[i], marker, oldSum, newSum);
      assert rows == Fixed(d, marker, oldSum, newSum).tables[i].rows;
      tables := tables + [Table(rows)];
      i := i + 1;
    }
    r := Document(d.paragraphs, tables);
  }

  /** The loop over the rows of one table. */
  method FixTable(t: Table, marker: string, oldSum: string, newSum: string) returns (rows: seq<seq<Cell>>)
    requires |oldSum| > 0
    ensures |rows| == |t.rows|
    ensures forall n :: 0 <= n < |rows| ==> rows[n] == FixRow(t.rows[n], marker, oldSum, newSum)
  {
    rows := [];
    var m := 0;
    while m < |t.rows|
      invariant 0 <= m <= |t.rows| && |rows| == m
      invariant forall n :: 0 <= n < m ==> rows[n] == FixRow(t.rows[n], marker, oldSum, newSum)
    {
      var row := t.rows[m];
      var marked := RowMentions(row, marker);
      if marked {
        row := FixCells(row, oldSum, newSum);
      }
      rows := rows + [row];
      m := m + 1;
    }
  }

  /** The loop over the cells of a marked row. */
  method FixCells(row: seq<Cell>, oldSum: string, newSum: string) returns (cells: seq<Cell>)
    requires |oldSum| > 0
    ensures |cells| == |row|
    ensures forall n :: 0 <= n < |row| ==> cells[n] == FixCell(row[n], oldSum, newSum)
  {
    cells := [];
    var j := 0;
    while j < |row|
      invariant 0 <= j <= |row| && |cells| == j
      invariant forall n :: 0 <= n < j ==> cells[n] == FixCell(row[n], oldSum, newSum)
    {
      var c := row[j];
      if Strip(CellText(c)) == "2" {
        c := SetCellText("1");
      }
      if Contains(CellText(c), oldSum) {
        c := SetCellText(ReplaceAll(CellText(c), oldSum, newSum));
      }
      assert c == FixCell(row[j], oldSum, newSum);
      cells := cells + [c];
      j := j + 1;
    }
  }

  /** Body paragraphs, the table count and the row count of each table stay as
      they were, and rows without the product name are unchanged. */
  lemma FixedKeepsShape(d: Document, marker: string, oldSum: string, newSum: string)
    requires |oldSum| > 0
    ensures var r := Fixed(d, marker, oldSum, newSum);
      && r.paragraphs == d.paragraphs && |r.tables| == |d.tables|
      && forall i :: 0 <= i < |d.tables| ==> (
           && |r.tables[i].rows| == |d.tables[i].rows|
           && forall m :: 0 <= m < |d.tables[i].rows| && !RowHas(d.tables[i].rows[m], marker) ==>
                r.tables[i].rows[m] == d.tables[i].rows[m])
  {
  }

  /** In a marked row, a cell reading "2" up to surrounding whitespace now reads
      exactly "1", provided "1" does not mention the old sum. */
  lemma QuantityCellBecomesOne(c: Cell, oldSum: string, newSum: string)
    requires |oldSum| > 1 && Strip(CellText(c)) == "2"
    ensures FixCell(c, oldSum, newSum) == Cell(["1"])
  {
    if Contains("1", oldSum) {
      ContainsIff("1", oldSum);
    }
  }

  /** In a marked row, a cell that does not read "2" and mentions the old sum
      becomes one paragraph holding its text with every old sum replaced. */
  lemma SumCellRewritten(c: Cell, oldSum: string, newSum: string)
    requires |oldSum| > 0 && Strip(CellText(c)) != "2" && Contains(CellText(c), oldSum)
    ensures FixCell(c, oldSum, newSum) == Cell([ReplaceAll(CellText(c), oldSum, newSum)])
  {
  }

  /** A cell of a marked row that neither reads "2" nor mentions the old sum is kept. */
  lemma OtherCellKept(c: Cell, oldSum: string, newSum: string)
    requires |oldSum| > 0 && Strip(CellText(c)) != "2" && !Contains(CellText(c), oldSum)
    ensures FixCell(c, oldSum, newSum) == c
  {
  }
}
