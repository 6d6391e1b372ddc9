/** remove_1c_from_docx.py: deletes from every table each row having a cell
    that mentions "1С:Предприятие", then each row having a cell that mentions
    "1С: Предприятие". Body paragraphs are not touched. */
module Remove1C {
  import opened Text
  import opened Docx

  const Name: string := "1С:Предприятие"
  const SpacedName: string := "1С: Предприятие"

  /** `remove_row_containing_text`, as a function of the table. */
  function RemoveRows(t: Table, text: string): Table {
    Table(Without(t.rows, Mentions(text)))
  }

  /** The document after the script. */
  function Removed(d: Document): Document {
    Document(d.paragraphs,
      seq(|d.tables|, i requires 0 <= i < |d.tables| => RemoveRows(RemoveRows(d.tables[i], Name), SpacedName)))
  }

  /** `remove_row_containing_text`: first the rows to delete are collected,
      each once, then they are removed. */
  method RemoveRowContainingText(t: Table, text: string) returns (u: Table)
    ensures u == RemoveRows(t, text)
  {
    var toDelete: seq<bool> := [];
    var i := 0;
    while i < |t.rows|
      invariant 0 <= i <= |t.rows| && |toDelete| == i
      invariant forall m :: 0 <= m < i ==> toDelete[m] == RowHas(t.rows[m], text)
    {
      var hit := RowMentions(t.rows[i], text);
      toDelete := toDelete + [hit];
      i := i + 1;
    }
    var kept: seq<seq<Cell>> := [];
    i := 0;
    while i < |t.rows|
      invariant 0 <= i <= |t.rows|
      invariant kept == Without(t.rows[..i], Mentions(text))
    {
      WithoutSnoc(t.rows, i, Mentions(text));
      if !toDelete[i] {
        kept := kept + [t.rows[i]];
      }
      i := i + 1;
    }
    assert t.rows[..|t.rows|] == t.rows;
    u := Table(kept);
  }

  /** The script: both spellings, table by table. */
  method Remove1C(d: Document) returns (r: Document)
    ensures r == Removed(d)
  {
    var tables: seq<Table> := [];
    var i := 0;
    while i < |d.tables|
      invariant 0 <= i <= |d.tables| && |tables| == i
      invariant forall n :: 0 <= n < i ==> tables[n] == RemoveRows(RemoveRows(d.tables[n], Name), SpacedName)
    {
      var t := RemoveRowContainingText(d.tables[i], Name);
      t := RemoveRowContainingText(t, SpacedName);
      tables := tables + [t];
      i := i + 1;
    }
    r := Document(d.paragraphs, tables);
  }

  /** A row is kept iff no cell of it mentions either spelling; the kept rows
      keep their order, and body paragraphs are unchanged. */
  lemma RemovedRows(d: Document, i: nat, row: seq<Cell>)
    requires i < |d.tables|
    ensures Removed(d).paragraphs == d.paragraphs
    ensures row in Removed(d).tables[i].rows <==>
      row in d.tables[i].rows && !RowHas(row, Name) && !RowHas(row, SpacedName)
    ensures Removed(d).tables[i].rows == Without(d.tables[i].rows, Either(Mentions(Name), Mentions(SpacedName)))
  {
    WithoutTwice(d.tables[i].rows, Mentions(Name), Mentions(SpacedName));
    WithoutMembers(d.tables[i].rows, Either(Mentions(Name), Mentions(SpacedName)), row);
  }
}
