/** A python-docx document as the editing scripts see it: body paragraphs and
    top-level tables, a table being rows of cells and a cell a list of paragraph
    texts. Also the two helpers every editing script carries a copy of,
    `replace_text_in_paragraph` and `replace_text_in_table`. */
module Docx {
  import opened Text

  datatype Cell = Cell(paragraphs: seq<string>)
  datatype Table = Table(rows: seq<seq<Cell>>)
  datatype Document = Document(paragraphs: seq<string>, tables: seq<Table>)

  /** python-docx `cell.text`: the cell's paragraphs joined by line breaks. */
  function CellText(c: Cell): string {
    Join(c.paragraphs, "\n")
  }

  /** python-docx `cell.text = s`: the cell is emptied and given one paragraph `s`. */
  function SetCellText(s: string): (c: Cell)
    ensures CellText(c) == s && |c.paragraphs| == 1
  {
    Cell([s])
  }

  /** Some cell of the row has text containing `w`. */
  predicate RowHas(row: seq<Cell>, w: string) {
    exists j :: 0 <= j < |row| && Contains(CellText(row[j]), w)
  }

  /** `replace_text_in_paragraph`: the paragraph is rewritten only when it
      contains `pat`; the guard changes nothing, since replacing an absent
      string is the identity. */
  function ReplaceInParagraph(p: string, pat: string, rep: string): (r: string)
    requires |pat| > 0
    ensures r == ReplaceAll(p, pat, rep)
    ensures !Contains(p, pat) ==> r == p
  {
    if Contains(p, pat) then ReplaceAll(p, pat, rep)
    else ReplaceAbsent(p, pat, rep); p
  }

  /** `replace_text_in_paragraph` applied to each paragraph of a list. */
  function ReplaceEach(ps: seq<string>, pat: string, rep: string): (qs: seq<string>)
    requires |pat| > 0
    ensures |qs| == |ps|
  {
    seq(|ps|, k requires 0 <= k < |ps| => ReplaceInParagraph(ps[k], pat, rep))
  }

  /** The cell step of `replace_text_in_table`: only a cell whose text contains
      `pat` has its paragraphs visited. */
  function ReplaceInCell(c: Cell, pat: string, rep: string): Cell
    requires |pat| > 0
  {
    if Contains(CellText(c), pat) then Cell(ReplaceEach(c.paragraphs, pat, rep)) else c
  }

  /** `replace_text_in_table`, as a function of the table. */
  function ReplaceTable(t: Table, pat: string, rep: string): (u: Table)
    requires |pat| > 0
    ensures |u.rows| == |t.rows|
    ensures forall i :: 0 <= i < |t.rows| ==> |u.rows[i]| == |t.rows[i]|
  {
    Table(seq(|t.rows|, i requires 0 <= i < |t.rows| =>
      seq(|t.rows[i]|, j requires 0 <= j < |t.rows[i]| => ReplaceInCell(t.rows[i][j], pat, rep))))
  }

  /** No paragraph of the list contains `w`. */
  predicate ParagraphsFree(ps: seq<string>, w: string) {
    forall k :: 0 <= k < |ps| ==> !Contains(ps[k], w)
  }

  /** No paragraph of any cell of the table contains `w`. */
  predicate TableFree(t: Table, w: string) {
    forall i, j :: 0 <= i < |t.rows| && 0 <= j < |t.rows[i]| ==> ParagraphsFree(t.rows[i][j].paragraphs, w)
  }

  /** No body paragraph and no table paragraph contains `w`. */
  predicate DocumentFree(d: Document, w: string) {
    ParagraphsFree(d.paragraphs, w) && forall i :: 0 <= i < |d.tables| ==> TableFree(d.tables[i], w)
  }

  /** Skipping the cells whose text lacks `pat` is the same as visiting every
      cell: no paragraph of such a cell contains `pat` either. */
  lemma ReplaceInCellVisitsAll(c: Cell, pat: string, rep: string)
    requires |pat| > 0
    ensures ReplaceInCell(c, pat, rep) == Cell(ReplaceEach(c.paragraphs, pat, rep))
  {
    if !Contains(CellText(c), pat) {
      forall k | 0 <= k < |c.paragraphs|
        ensures ReplaceInParagraph(c.paragraphs[k], pat, rep) == c.paragraphs[k]
      {
        if Contains(c.paragraphs[k], pat) {
          JoinContains(c.paragraphs, "\n", k, pat);
        }
      }
    }
  }

  /** After the replacement no paragraph contains `pat`, provided `rep` cannot
      recreate it. */
  lemma ReplaceEachClears(ps: seq<string>, pat: string, rep: string)
    requires |pat| > 0 && CannotCreate(pat, rep)
    ensures ParagraphsFree(ReplaceEach(ps, pat, rep), pat)
  {
    forall k | 0 <= k < |ps| ensures !Contains(ReplaceEach(ps, pat, rep)[k], pat) {
      NoOccurrenceAfterReplace(ps[k], pat, rep, pat);
    }
  }

  /** A replacement that cannot create `x` keeps a list free of `x` free of it. */
  lemma ReplaceEachKeepsFree(ps: seq<string>, pat: string, rep: string, x: string)
    requires |pat| > 0 && CannotCreate(x, rep) && ParagraphsFree(ps, x)
    ensures ParagraphsFree(ReplaceEach(ps, pat, rep), x)
  {
    forall k | 0 <= k < |ps| ensures !Contains(ReplaceEach(ps, pat, rep)[k], x) {
      NoOccurrenceAfterReplace(ps[k], pat, rep, x);
    }
  }

  /** After `replace_text_in_table` no cell paragraph of the table contains `pat`. */
  lemma ReplaceTableClears(t: Table, pat: string, rep: string)
    requires |pat| > 0 && CannotCreate(pat, rep)
    ensures TableFree(ReplaceTable(t, pat, rep), pat)
  {
    var u := ReplaceTable(t, pat, rep);
    forall i, j | 0 <= i < |u.rows| && 0 <= j < |u.rows[i]|
      ensures ParagraphsFree(u.rows[i][j].paragraphs, pat)
    {
      ReplaceInCellVisitsAll(t.rows[i][j], pat, rep);
      ReplaceEachClears(t.rows[i][j].paragraphs, pat, rep);
    }
  }

  /** A table replacement that cannot create `x` keeps a table free of `x` free of it. */
  lemma ReplaceTableKeepsFree(t: Table, pat: string, rep: string, x: string)
    requires |pat| > 0 && CannotCreate(x, rep) && TableFree(t, x)
    ensures TableFree(ReplaceTable(t, pat, rep), x)
  {
    var u := ReplaceTable(t, pat, rep);
    forall i, j | 0 <= i < |u.rows| && 0 <= j < |u.rows[i]|
      ensures ParagraphsFree(u.rows[i][j].paragraphs, x)
    {
      ReplaceInCellVisitsAll(t.rows[i][j], pat, rep);
      ReplaceEachKeepsFree(t.rows[i][j].paragraphs, pat, rep, x);
    }
  }

  /** Replacing twice is replacing once, for every paragraph of a table. */
  lemma ReplaceTableIdempotent(t: Table, pat: string, rep: string)
    requires |pat| > 0 && CannotCreate(pat, rep)
    ensures ReplaceTable(ReplaceTable(t, pat, rep), pat, rep) == ReplaceTable(t, pat, rep)
  {
    var u := ReplaceTable(t, pat, rep);
    var v := ReplaceTable(u, pat, rep);
    forall i, j | 0 <= i < |u.rows| && 0 <= j < |u.rows[i]| ensures v.rows[i][j] == u.rows[i][j] {
      var c := t.rows[i][j];
      ReplaceInCellVisitsAll(c, pat, rep);
      ReplaceInCellVisitsAll(u.rows[i][j], pat, rep);
      forall k | 0 <= k < |c.paragraphs|
        ensures ReplaceInParagraph(ReplaceInParagraph(c.paragraphs[k], pat, rep), pat, rep)
             == ReplaceInParagraph(c.paragraphs[k], pat, rep)
      {
        ReplaceIdempotent(c.paragraphs[k], pat, rep);
      }
    }
    assert forall i :: 0 <= i < |u.rows| ==> v.rows[i] == u.rows[i];
  }

  /** One `(old, new)` pair of a replacement list. */
  datatype Replacement = Replacement(pat: string, rep: string)

  predicate NonEmptyPatterns(rs: seq<Replacement>) {
    forall k :: 0 <= k < |rs| ==> |rs[k].pat| > 0
  }

  /** The pairs applied to one paragraph in list order, each only where its
      old text is present. */
  function ApplyReplacements(p: string, rs: seq<Replacement>): string
    requires NonEmptyPatterns(rs)
    decreases |rs|
  {
    if |rs| == 0 then p else ApplyReplacements(ReplaceInParagraph(p, rs[0].pat, rs[0].rep), rs[1..])
  }

  /** A paragraph containing none of the old texts is left as it is. */
  lemma {:induction false} ApplyReplacementsAbsent(p: string, rs: seq<Replacement>)
    requires NonEmptyPatterns(rs)
    requires forall k :: 0 <= k < |rs| ==> !Contains(p, rs[k].pat)
    ensures ApplyReplacements(p, rs) == p
    decreases |rs|
  {
    if |rs| > 0 {
      ApplyReplacementsAbsent(p, rs[1..]);
    }
  }

  /** Which rows a deleting script removes. */
  datatype RowTest =
    | Mentions(text: string)                 // some cell's text contains `text`
    | MentionsBoth(first: string, second: string)  // one cell's text contains both
    | Either(left: RowTest, right: RowTest)

  predicate Drops(test: RowTest, row: seq<Cell>) {
    match test
    case Mentions(w) => RowHas(row, w)
    case MentionsBoth(a, b) => exists j :: 0 <= j < |row| && Contains(CellText(row[j]), a) && Contains(CellText(row[j]), b)
    case Either(l, r) => Drops(l, row) || Drops(r, row)
  }

  /** The rows `test` does not drop, in their original order: what is left after
      collecting the matching rows and removing each from its table. */
  function Without(rows: seq<seq<Cell>>, test: RowTest): seq<seq<Cell>>
    decreases |rows|
  {
    if |rows| == 0 then []
    else (if Drops(test, rows[0]) then [] else [rows[0]]) + Without(rows[1..], test)
  }

  /** A row survives iff it was there and is not dropped. */
  lemma {:induction false} WithoutMembers(rows: seq<seq<Cell>>, test: RowTest, row: seq<Cell>)
    ensures row in Without(rows, test) <==> row in rows && !Drops(test, row)
    decreases |rows|
  {
    if |rows| > 0 {
      WithoutMembers(rows[1..], test, row);
      assert rows == [rows[0]] + rows[1..];
    }
  }

  /** Filtering commutes with concatenation, so the surviving rows keep their order. */
  lemma {:induction false} WithoutConcat(a: seq<seq<Cell>>, b: seq<seq<Cell>>, test: RowTest)
    ensures Without(a + b, test) == Without(a, test) + Without(b, test)
    decreases |a|
  {
    if |a| == 0 {
      assert a + b == b;
    } else {
      assert (a + b)[1..] == a[1..] + b;
      WithoutConcat(a[1..], b, test);
    }
  }

  /** Filtering a prefix one row longer adds that row unless it is dropped. */
  lemma WithoutSnoc(rows: seq<seq<Cell>>, i: nat, test: RowTest)
    requires i < |rows|
    ensures Without(rows[..i + 1], test) == Without(rows[..i], test) + (if Drops(test, rows[i]) then [] else [rows[i]])
  {
    assert rows[..i + 1] == rows[..i] + [rows[i]];
    WithoutConcat(rows[..i], [rows[i]], test);
    assert [rows[i]][1..] == [];
  }

  /** Filtering twice drops the rows either filter drops. */
  lemma {:induction false} WithoutTwice(rows: seq<seq<Cell>>, t1: RowTest, t2: RowTest)
    ensures Without(Without(rows, t1), t2) == Without(rows, Either(t1, t2))
    decreases |rows|
  {
    if |rows| > 0 {
      WithoutTwice(rows[1..], t1, t2);
      var head := if Drops(t1, rows[0]) then [] else [rows[0]];
      WithoutConcat(head, Without(rows[1..], t1), t2);
      if !Drops(t1, rows[0]) {
        assert head[1..] == [];
      }
    }
  }

  /** The scripts' flag loop over a row's cells, leaving at the first cell whose
      text contains `marker`: true iff some cell does. */
  method RowMentions(row: seq<Cell>, marker: string) returns (found: bool)
    ensures found <==> RowHas(row, marker)
  {
    found := false;
    var j := 0;
    while j < |row|
      invariant 0 <= j <= |row|
      invariant !found ==> forall m :: 0 <= m < j ==> !Contains(CellText(row[m]), marker)
      invariant found ==> RowHas(row, marker)
    {
      if Contains(CellText(row[j]), marker) {
        found := true;
        break;
      }
      j := j + 1;
    }
  }

  /** `replace_text_in_paragraph` over a list of paragraphs, one at a time. */
  method ReplaceTextInParagraphs(ps: seq<string>, pat: string, rep: string) returns (qs: seq<string>)
    requires |pat| > 0
    ensures qs == ReplaceEach(ps, pat, rep)
  {
    qs := [];
    var k := 0;
    while k < |ps|
      invariant 0 <= k <= |ps| && |qs| == k
      invariant forall m :: 0 <= m < k ==> qs[m] == ReplaceInParagraph(ps[m], pat, rep)
    {
      var p := ps[k];
      if Contains(p, pat) {
        p := ReplaceAll(p, pat, rep);
      }
      qs := qs + [p];
      k := k + 1;
    }
  }

  /** `replace_text_in_table`: row by row, cell by cell, the paragraphs of every
      cell whose text contains `pat`. */
  method ReplaceTextInTable(t: Table, pat: string, rep: string) returns (u: Table)
    requires |pat| > 0
    ensures u == ReplaceTable(t, pat, rep)
  {
    var rows: seq<seq<Cell>> := [];
    var i := 0;
    while i < |t.rows|
      invariant 0 <= i <= |t.rows| && |rows| == i
      invariant forall m :: 0 <= m < i ==> rows[m] == ReplaceTable(t, pat, rep).rows[m]
    {
      var row := t.rows[i];
      var cells: seq<Cell> := [];
      var j := 0;
      while j < |row|
        invariant 0 <= j <= |row| && |cells| == j
        invariant forall m :: 0 <= m < j ==> cells[m] == ReplaceInCell(row[m], pat, rep)
      {
        var c := row[j];
        if Contains(CellText(c), pat) {
          var ps := ReplaceTextInParagraphs(c.paragraphs, pat, rep);
          c := Cell(ps);
        }
        cells := cells + [c];
        j := j + 1;
      }
      rows := rows + [cells];
      i := i + 1;
    }
    u := Table(rows);
  }
}
