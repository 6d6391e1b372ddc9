/** replace_switches.py: in every table row, a cell mentioning MES5324 has that
    name replaced by MES2300-24 and marks the row as a switch row; otherwise a
    cell mentioning MES2324 has that name replaced. In switch rows the price
    499 000 then becomes 139 000. Finally every body paragraph gets both
    renames. The script's own `replacements` list is never used. */
module ReplaceSwitches {
  import opened Text
  import opened Docx

  const NewModel: string := "MES2300-24"
  const SwitchModel: string := "MES5324"
  const OldModel: string := "MES2324"
  const OldPrice: string := "499 000"
  const NewPrice: string := "139 000"

  /** The rename step for one cell: MES5324 first, MES2324 only otherwise. */
  function RenameCell(c: Cell): Cell {
    if Contains(CellText(c), SwitchModel) then Cell(ReplaceEach(c.paragraphs, SwitchModel, NewModel))
    else if Contains(CellText(c), OldModel) then Cell(ReplaceEach(c.paragraphs, OldModel, NewModel))
    else c
  }

  /** The price step for one cell of a switch row; `cell.text = ...` leaves a
      single paragraph. */
  function RepriceCell(c: Cell): Cell {
    if Contains(CellText(c), OldPrice) then SetCellText(ReplaceAll(CellText(c), OldPrice, NewPrice)) else c
  }

  /** A row after the script: every cell renamed, then, if some cell mentioned
      MES5324 before renaming, every cell repriced. */
  function SwitchRow(row: seq<Cell>): (r: seq<Cell>)
    ensures |r| == |row|
  {
    var renamed := seq(|row|, j requires 0 <= j < |row| => RenameCell(row[j]));
    if RowHas(row, SwitchModel) then seq(|row|, j requires 0 <= j < |row| => RepriceCell(renamed[j]))
    else renamed
  }

  /** A body paragraph after the final pass. */
  function BodyParagraph(p: string): string {
    ReplaceInParagraph(ReplaceInParagraph(p, OldModel, NewModel), SwitchModel, NewModel)
  }

  /** The document after the script. */
  function Switched(d: Document): Document {
    Document(
      seq(|d.paragraphs|, k requires 0 <= k < |d.paragraphs| => BodyParagraph(d.paragraphs[k])),
      seq(|d.tables|, i requires 0 <= i < |d.tables| =>
        Table(seq(|d.tables[i].rows|, m requires 0 <= m < |d.tables[i].rows| => SwitchRow(d.tables[i].rows[m])))))
  }

  /** One row: the rename loop, which also sets the switch-row flag, then the
      price loop when the flag is set. */
  method ProcessRow(row: seq<Cell>) returns (r: seq<Cell>)
    ensures r == SwitchRow(row)
  {
    var isSwitchRow := false;
    var cells: seq<Cell> := [];
    var j := 0;
    while j < |row|
      invariant 0 <= j <= |row| && |cells| == j
      invariant forall m :: 0 <= m < j ==> cells[m] == RenameCell(row[m])
      invariant isSwitchRow <==> exists m :: 0 <= m < j && Contains(CellText(row[m]), SwitchModel)
    {
      var c := row[j];
      if Contains(CellText(c), SwitchModel) {
        isSwitchRow := true;
        var ps := ReplaceTextInParagraphs(c.paragraphs, SwitchModel, NewModel);
        c := Cell(ps);
      } else if Contains(CellText(c), OldModel) {
        var ps := ReplaceTextInParagraphs(c.paragraphs, OldModel, NewModel);
        c := Cell(ps);
      }
      cells := cells + [c];
      j := j + 1;
    }
    if isSwitchRow {
      var priced: seq<Cell> := [];
      j := 0;
      while j < |cells|
        invariant 0 <= j <= |cells| && |priced| == j
        invariant forall m :: 0 <= m < j ==> priced[m] == RepriceCell(cells[m])
      {
        var c := cells[j];
        if Contains(CellText(c), OldPrice) {
          c := SetCellText(ReplaceAll(CellText(c), OldPrice, NewPrice));
        }
        priced := priced + [c];
        j := j + 1;
      }
      cells := priced;
    }
    r := cells;
  }

  /** The script: every row of every table, then every body paragraph. */
  method ReplaceSwitches(d: Document) returns (r: Document)
    ensures r == Switched(d)
  {
    var tables: seq<Table> := [];
    var i := 0;
    while i < |d.tables|
      invariant 0 <= i <= |d.tables| && |tables| == i
      invariant forall n :: 0 <= n < i ==> tables[n] == Switched(d).tables[n]
    {
      var rows: seq<seq<Cell>> := [];
      var m := 0;
      while m < |d.tables[i].rows|
        invariant 0 <= m <= |d.tables[i].rows| && |rows| == m
        invariant forall n :: 0 <= n < m ==> rows[n] == SwitchRow(d.tables[i].rows[n])
      {
        var row := ProcessRow(d.tables[i].rows[m]);
        rows := rows + [row];
        m := m + 1;
      }
      tables := tables + [Table(rows)];
      i := i + 1;
    }
    var ps: seq<string> := [];
    var k := 0;
    while k < |d.paragraphs|
      invariant 0 <= k <= |d.paragraphs| && |ps| == k
      invariant forall n :: 0 <= n < k ==> ps[n] == BodyParagraph(d.paragraphs[n])
    {
      var p := d.paragraphs[k];
      if Contains(p, OldModel) {
        p := ReplaceAll(p, OldModel, NewModel);
      }
      if Contains(p, SwitchModel) {
        p := ReplaceAll(p, SwitchModel, NewModel);
      }
      ps := ps + [p];
      k := k + 1;
    }
    r := Document(ps, tables);
  }

  /** Afterwards no body paragraph mentions either old switch model. */
  lemma BodyCleared(d: Document)
    ensures ParagraphsFree(Switched(d).paragraphs, SwitchModel)
    ensures ParagraphsFree(Switched(d).paragraphs, OldModel)
  {
    assert CannotCreate(OldModel, NewModel) && CannotCreate(SwitchModel, NewModel);
    forall k | 0 <= k < |d.paragraphs|
      ensures !Contains(BodyParagraph(d.paragraphs[k]), SwitchModel)
      ensures !Contains(BodyParagraph(d.paragraphs[k]), OldModel)
    {
      var p1 := ReplaceInParagraph(d.paragraphs[k], OldModel, NewModel);
      NoOccurrenceAfterReplace(d.paragraphs[k], OldModel, NewModel, OldModel);
      NoOccurrenceAfterReplace(p1, SwitchModel, NewModel, OldModel);
      NoOccurrenceAfterReplace(p1, SwitchModel, NewModel, SwitchModel);
    }
  }

  /** A row without MES5324 gets no price change: each of its cells only has
      MES2324 renamed, and a cell mentioning neither model is kept as it is. */
  lemma NonSwitchRowKeepsPrices(row: seq<Cell>)
    requires !RowHas(row, SwitchModel)
    ensures forall j :: 0 <= j < |row| ==>
      SwitchRow(row)[j] == (if Contains(CellText(row[j]), OldModel)
                            then Cell(ReplaceEach(row[j].paragraphs, OldModel, NewModel)) else row[j])
  {
  }

  /** In a switch row no cell mentions 499 000 afterwards, and every cell that
      did is left as a single paragraph. */
  lemma SwitchRowRepriced(row: seq<Cell>)
    requires RowHas(row, SwitchModel)
    ensures forall j :: 0 <= j < |row| ==> !Contains(CellText(SwitchRow(row)[j]), OldPrice)
    ensures forall j :: 0 <= j < |row| && Contains(CellText(RenameCell(row[j])), OldPrice) ==>
      |SwitchRow(row)[j].paragraphs| == 1
  {
    assert CannotCreate(OldPrice, NewPrice);
    forall j | 0 <= j < |row| ensures !Contains(CellText(SwitchRow(row)[j]), OldPrice) {
      var c := RenameCell(row[j]);
      if Contains(CellText(c), OldPrice) {
        NoOccurrenceAfterReplace(CellText(c), OldPrice, NewPrice, OldPrice);
      }
    }
  }

  /** A cell holding both names, in separate paragraphs, keeps MES2324: the
      rename of MES2324 is in the `elif` branch. */
  lemma BothNamesKeepOld()
    ensures var c := RenameCell(Cell([SwitchModel, OldModel]));
      c.paragraphs[1] == OldModel && Contains(CellText(c), OldModel)
  {
    var c0 := Cell([SwitchModel, OldModel]);
    ContainsWitness(SwitchModel, SwitchModel, 0);
    JoinContains(c0.paragraphs, "\n", 0, SwitchModel);
    var c := RenameCell(c0);
    assert !Contains(OldModel, SwitchModel);
    assert c.paragraphs[1] == OldModel;
    ContainsWitness(OldModel, OldModel, 0);
    JoinContains(c.paragraphs, "\n", 1, OldModel);
  }
}
