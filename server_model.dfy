/** replace_server_model.py: replaces the Graviton server name (Cyrillic and
    Latin spelling) by YADRO G4208P G3 and the price 3 750 000 by 32 151 159.
    Body paragraphs get the three pairs one after another; each table gets the
    first pair everywhere, then the second, then the third. */
module ReplaceServerModel {
  import opened Text
  import opened Docx

  const CyrillicName: string := "Гравитон С2122ИУ"
  const LatinName: string := "Graviton C2122IU"
  const OldPrice: string := "3 750 000"
  const NewName: string := "YADRO G4208P G3"
  const NewPrice: string := "32 151 159"

  function Replacements(): (rs: seq<Replacement>)
    ensures NonEmptyPatterns(rs)
  {
    [Replacement(CyrillicName, NewName), Replacement(LatinName, NewName), Replacement(OldPrice, NewPrice)]
  }

  /** Each pair of the list applied to the whole table before the next pair. */
  function ReplaceTableAll(t: Table, rs: seq<Replacement>): Table
    requires NonEmptyPatterns(rs)
    decreases |rs|
  {
    if |rs| == 0 then t else ReplaceTableAll(ReplaceTable(t, rs[0].pat, rs[0].rep), rs[1..])
  }

  /** The document after the script. */
  function Replaced(d: Document): Document {
    Document(seq(|d.paragraphs|, k requires 0 <= k < |d.paragraphs| => ApplyReplacements(d.paragraphs[k], Replacements())),
             seq(|d.tables|, i requires 0 <= i < |d.tables| => ReplaceTableAll(d.tables[i], Replacements())))
  }

  /** The script: for each body paragraph every pair in order, then for each
      table every pair in order. */
  method ReplaceServerModel(d: Document) returns (r: Document)
    ensures r == Replaced(d)
  {
    var rs := Replacements();
    var ps: seq<string> := [];
    var k := 0;
    while k < |d.paragraphs|
      invariant 0 <= k <= |d.paragraphs| && |ps| == k
      invariant forall m :: 0 <= m < k ==> ps[m] == ApplyReplacements(d.paragraphs[m], rs)
    {
      var p := d.paragraphs[k];
      var n := 0;
      while n < |rs|
        invariant 0 <= n <= |rs|
        invariant ApplyReplacements(p, rs[n..]) == ApplyReplacements(d.paragraphs[k], rs)
      {
        assert rs[n..][1..] == rs[n + 1..];
        if Contains(p, rs[n].pat) {
          p := ReplaceAll(p, rs[n].pat, rs[n].rep);
        }
        n := n + 1;
      }
      ps := ps + [p];
      k := k + 1;
    }
    var tables: seq<Table> := [];
    var i := 0;
    while i < |d.tables|
      invariant 0 <= i <= |d.tables| && |tables| == i
      invariant forall m :: 0 <= m < i ==> tables[m] == ReplaceTableAll(d.tables[m], rs)
    {
      var t := d.tables[i];
      var n := 0;
      while n < |rs|
        invariant 0 <= n <= |rs|
        invariant ReplaceTableAll(t, rs[n..]) == ReplaceTableAll(d.tables[i], rs)
      {
        assert rs[n..][1..] == rs[n + 1..];
        t := ReplaceTextInTable(t, rs[n].pat, rs[n].rep);
        n := n + 1;
      }
      tables := tables + [t];
      i := i + 1;
    }
    r := Document(ps, tables);
  }

  /** None of the new texts can give rise to an old text. */
  lemma NewTextsSafe()
    ensures CannotCreate(CyrillicName, NewName) && CannotCreate(LatinName, NewName)
    ensures CannotCreate(CyrillicName, NewPrice) && CannotCreate(LatinName, NewPrice)
    ensures CannotCreate(OldPrice, NewPrice)
  {
    CyrillicNameSafe();
    LatinNameSafe();
    assert NoCharFrom("3 750 000", '9', 0, true);
  }

  lemma CyrillicNameSafe()
    ensures CannotCreate(CyrillicName, NewName) && CannotCreate(CyrillicName, NewPrice)
  {
    assert NoCharFrom("Гравитон С2122ИУ", 'Y', 8, false);
    assert NoCharFrom("Гравитон С2122ИУ", 'Y', 1, false);
    assert NoCharFrom("Гравитон С2122ИУ", '3', 8, true);
    assert NoCharFrom("Гравитон С2122ИУ", '3', 0, true);
    assert NoCharFrom("Гравитон С2122ИУ", '3', 8, false);
    assert NoCharFrom("Гравитон С2122ИУ", '3', 1, false);
    assert NoCharFrom("Гравитон С2122ИУ", '9', 8, true);
    assert NoCharFrom("Гравитон С2122ИУ", '9', 0, true);
  }

  lemma LatinNameSafe()
    ensures CannotCreate(LatinName, NewName) && CannotCreate(LatinName, NewPrice)
  {
    assert NoCharFrom("Graviton C2122IU", 'Y', 8, false);
    assert NoCharFrom("Graviton C2122IU", 'Y', 1, false);
    assert NoCharFrom("Graviton C2122IU", '3', 8, true);
    assert NoCharFrom("Graviton C2122IU", '3', 0, true);
    assert NoCharFrom("Graviton C2122IU", '3', 8, false);
    assert NoCharFrom("Graviton C2122IU", '3', 1, false);
    assert NoCharFrom("Graviton C2122IU", '9', 8, true);
    assert NoCharFrom("Graviton C2122IU", '9', 0, true);
  }

  /** `u` is `t` with the pairs applied to every cell paragraph. */
  predicate AppliedPerParagraph(t: Table, u: Table, rs: seq<Replacement>)
    requires NonEmptyPatterns(rs)
  {
    && |u.rows| == |t.rows|
    && forall i :: 0 <= i < |t.rows| ==> (
         && |u.rows[i]| == |t.rows[i]|
         && forall j :: 0 <= j < |t.rows[i]| ==> (
              && |u.rows[i][j].paragraphs| == |t.rows[i][j].paragraphs|
              && forall k :: 0 <= k < |t.rows[i][j].paragraphs| ==>
                   u.rows[i][j].paragraphs[k] == ApplyReplacements(t.rows[i][j].paragraphs[k], rs)))
  }

  /** Applying the pairs table-wide one after another is the same as applying
      all of them to each cell paragraph in turn. */
  lemma {:induction false} TableAllIsPerParagraph(t: Table, rs: seq<Replacement>)
    requires NonEmptyPatterns(rs)
    ensures AppliedPerParagraph(t, ReplaceTableAll(t, rs), rs)
    decreases |rs|
  {
    var u := ReplaceTableAll(t, rs);
    if |rs| > 0 {
      var t1 := ReplaceTable(t, rs[0].pat, rs[0].rep);
      TableAllIsPerParagraph(t1, rs[1..]);
      assert u == ReplaceTableAll(t1, rs[1..]);
      forall i | 0 <= i < |t.rows|
        ensures |u.rows[i]| == |t.rows[i]|
        ensures forall j :: 0 <= j < |t.rows[i]| ==> (
                  && |u.rows[i][j].paragraphs| == |t.rows[i][j].paragraphs|
                  && forall k :: 0 <= k < |t.rows[i][j].paragraphs| ==>
                       u.rows[i][j].paragraphs[k] == ApplyReplacements(t.rows[i][j].paragraphs[k], rs))
      {
        forall j | 0 <= j < |t.rows[i]|
          ensures |u.rows[i][j].paragraphs| == |t.rows[i][j].paragraphs|
          ensures forall k :: 0 <= k < |t.rows[i][j].paragraphs| ==>
               u.rows[i][j].paragraphs[k] == ApplyReplacements(t.rows[i][j].paragraphs[k], rs)
        {
          ReplaceInCellVisitsAll(t.rows[i][j], rs[0].pat, rs[0].rep);
        }
      }
    } else {
      forall i | 0 <= i < |t.rows| ensures |u.rows[i]| == |t.rows[i]| {}
    }
  }

  /** Afterwards a paragraph mentions neither server name nor the old price. */
  lemma ParagraphCleared(p: string)
    ensures var q := ApplyReplacements(p, Replacements());
      !Contains(q, CyrillicName) && !Contains(q, LatinName) && !Contains(q, OldPrice)
  {
    NewTextsSafe();
    var p1 := ReplaceInParagraph(p, CyrillicName, NewName);
    var p2 := ReplaceInParagraph(p1, LatinName, NewName);
    var p3 := ReplaceInParagraph(p2, OldPrice, NewPrice);
    assert ApplyReplacements(p, Replacements()) == p3 by {
      var rs := Replacements();
      assert rs[1..][1..] == rs[2..];
      assert rs[2..][1..] == [];
    }
    NoOccurrenceAfterReplace(p, CyrillicName, NewName, CyrillicName);
    NoOccurrenceAfterReplace(p1, LatinName, NewName, CyrillicName);
    NoOccurrenceAfterReplace(p1, LatinName, NewName, LatinName);
    NoOccurrenceAfterReplace(p2, OldPrice, NewPrice, CyrillicName);
    NoOccurrenceAfterReplace(p2, OldPrice, NewPrice, LatinName);
    NoOccurrenceAfterReplace(p2, OldPrice, NewPrice, OldPrice);
  }

  /** Afterwards no paragraph of the document, in the body or in a table,
      mentions an old text. */
  lemma ReplacedClears(d: Document)
    ensures var r := Replaced(d);
      DocumentFree(r, CyrillicName) && DocumentFree(r, LatinName) && DocumentFree(r, OldPrice)
  {
    var r := Replaced(d);
    forall k | 0 <= k < |d.paragraphs|
      ensures !Contains(r.paragraphs[k], CyrillicName) && !Contains(r.paragraphs[k], LatinName)
      ensures !Contains(r.paragraphs[k], OldPrice)
    {
      ParagraphCleared(d.paragraphs[k]);
    }
    forall i | 0 <= i < |d.tables|
      ensures TableFree(r.tables[i], CyrillicName) && TableFree(r.tables[i], LatinName)
      ensures TableFree(r.tables[i], OldPrice)
    {
      var t := d.tables[i];
      TableAllIsPerParagraph(t, Replacements());
      forall a, b, k | 0 <= a < |t.rows| && 0 <= b < |t.rows[a]| && 0 <= k < |t.rows[a][b].paragraphs| {
        ParagraphCleared(t.rows[a][b].paragraphs[k]);
      }
    }
  }
}
