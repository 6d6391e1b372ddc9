/** remove_storage.py: collects, across every table, each row having a cell
    whose text mentions both "СХД" and "Raidix", or a cell mentioning
    "Aerodisk", and only then removes the collected rows from their tables.
    Body paragraphs and the remaining rows, including any total, are left
    as they were. */
module RemoveStorage {
  import opened Text
  import opened Docx

  const Storage: string := "СХД"
  const Raidix: string := "Raidix"
  const Aerodisk: string := "Aerodisk"

  /** The storage-row test: both words in one cell, or "Aerodisk" in a cell. */
  const StorageRow: RowTest := Either(MentionsBoth(Storage, Raidix), Mentions(Aerodisk))

  /** The document after the script. */
  function Removed(d: Document): Document {
    Document(d.paragraphs,
      seq(|d.tables|, i requires 0 <= i < |d.tables| => Table(Without(d.tables[i].rows, StorageRow))))
  }

  /** The per-row flag loop: the first cell with both words, or with
      "Aerodisk", ends the scan. */
  method IsStorageRow(row: seq<Cell>) returns (found: bool)
    ensures found <==> Drops(StorageRow, row)
  {
    found := false;
    var j := 0;
    while j < |row|
      invariant 0 <= j <= |row|
      invariant !found ==> forall m :: 0 <= m < j ==>
        !(Contains(CellText(row[m]), Storage) && Contains(CellText(row[m]), Raidix))
        && !Contains(CellText(row[m]), Aerodisk)
      invariant found ==> Drops(StorageRow, row)
    {
      var text := CellText(row[j]);
      if Contains(text, Storage) && Contains(text, Raidix) {
        found := true;
        break;
      }
      if Contains(text, Aerodisk) {
        found := true;
        break;
      }
      j := j + 1;
    }
  }

  /** `toDelete` holds the positions (table, row) of exactly the storage rows
      scanned so far, table `i` having been scanned up to row `m`. */
  ghost predicate Collected(d: Document, toDelete: seq<(int, int)>, i: int, m: int) {
    forall a, b :: (a, b) in toDelete <==>
      (&& 0 <= a < |d.tables| && 0 <= b < |d.tables[a].rows|
       && (a < i || (a == i && b < m))
       && Drops(StorageRow, d.tables[a].rows[b]))
  }

  /** The script: the scan over all tables, then the removal of each collected
      row from its own table. */
  method RemoveStorageRows(d: Document) returns (r: Document)
    ensures r == Removed(d)
  {
    var toDelete: seq<(int, int)> := [];
    var i := 0;
    while i < |d.tables|
      invariant 0 <= i <= |d.tables|
      invariant Collected(d, toDelete, i, 0)
    {
      var m := 0;
      while m < |d.tables[i].rows|
        invariant 0 <= m <= |d.tables[i].rows|
        invariant Collected(d, toDelete, i, m)
      {
        var hit := IsStorageRow(d.tables[i].rows[m]);
        if hit {
          toDelete := toDelete + [(i, m)];
        }
        m := m + 1;
      }
      i := i + 1;
    }
    var tables: seq<Table> := [];
    i := 0;
    while i < |d.tables|
      invariant 0 <= i <= |d.tables| && |tables| == i
      invariant forall n :: 0 <= n < i ==> tables[n] == Removed(d).tables[n]
    {
      var rows := d.tables[i].rows;
      var kept: seq<seq<Cell>> := [];
      var m := 0;
      while m < |rows|
        invariant 0 <= m <= |rows|
        invariant kept == Without(rows[..m], StorageRow)
      {
        WithoutSnoc(rows, m, StorageRow);
        if (i, m) !in toDelete {
          kept := kept + [rows[m]];
        }
        m := m + 1;
      }
      assert rows[..|rows|] == rows;
      tables := tables + [Table(kept)];
      i := i + 1;
    }
    r := Document(d.paragraphs, tables);
  }

  /** A row survives iff it was in its table and is not a storage row; body
      paragraphs and the number of tables are unchanged, and no table grows. */
  lemma RemovedRows(d: Document, i: nat, row: seq<Cell>)
    requires i < |d.tables|
    ensures Removed(d).paragraphs == d.paragraphs && |Removed(d).tables| == |d.tables|
    ensures row in Removed(d).tables[i].rows <==> row in d.tables[i].rows && !Drops(StorageRow, row)
    ensures |Removed(d).tables[i].rows| <= |d.tables[i].rows|
  {
    WithoutMembers(d.tables[i].rows, StorageRow, row);
    WithoutShorter(d.tables[i].rows, StorageRow);
  }

  lemma {:induction false} WithoutShorter(rows: seq<seq<Cell>>, test: RowTest)
    ensures |Without(rows, test)| <= |rows|
    decreases |rows|
  {
    if |rows| > 0 {
      WithoutShorter(rows[1..], test);
    }
  }

  /** "СХД" and "Raidix" in two different cells of a row do not make it a
      storage row. */
  lemma SplitCellsKept()
    ensures !Drops(StorageRow, [Cell([Storage]), Cell([Raidix])])
  {
    assert !Contains("СХД", "Raidix");
    assert !Contains("Raidix", "СХД");
    assert !Contains("СХД", "Aerodisk");
    assert !Contains("Raidix", "Aerodisk");
  }

  /** Both words in one cell do. */
  lemma OneCellDropped()
    ensures Drops(StorageRow, [Cell(["СХД Raidix"])])
  {
    var c := Cell(["СХД Raidix"]);
    assert CellText(c) == "СХД Raidix";
    ContainsWitness("СХД Raidix", Storage, 0);
    ContainsWitness("СХД Raidix", Raidix, 4);
    var row := [c];
    assert Contains(CellText(row[0]), Storage) && Contains(CellText(row[0]), Raidix);
    assert Drops(MentionsBoth(Storage, Raidix), row);
  }
}
