/** replace_switch_model.py: renames the switch model MES2324 to MES2300-24 in
    every body paragraph and then in every table of the document. */
module ReplaceSwitchModel {
  import opened Text
  import opened Docx

  const OldModel: string := "MES2324"
  const NewModel: string := "MES2300-24"

  /** The document after the script: body paragraphs renamed, then each table. */
  function Renamed(d: Document): Document {
    Document(ReplaceEach(d.paragraphs, OldModel, NewModel),
             seq(|d.tables|, i requires 0 <= i < |d.tables| => ReplaceTable(d.tables[i], OldModel, NewModel)))
  }

  /** The script's two passes over a document. */
  method RenameSwitchModel(d: Document) returns (r: Document)
    ensures r == Renamed(d)
  {
    var ps := ReplaceTextInParagraphs(d.paragraphs, OldModel, NewModel);
    var tables: seq<Table> := [];
    var i := 0;
    while i < |d.tables|
      invariant 0 <= i <= |d.tables| && |tables| == i
      invariant forall m :: 0 <= m < i ==> tables[m] == ReplaceTable(d.tables[m], OldModel, NewModel)
    {
      var t := ReplaceTextInTable(d.tables[i], OldModel, NewModel);
      tables := tables + [t];
      i := i + 1;
    }
    r := Document(ps, tables);
  }

  /** The new name cannot give rise to the old one. */
  lemma NewNameSafe()
    ensures CannotCreate(OldModel, NewModel)
  {
  }

  /** Afterwards no paragraph, in the body or in a table, mentions MES2324. */
  lemma RenamedClears(d: Document)
    ensures DocumentFree(Renamed(d), OldModel)
  {
    NewNameSafe();
    ReplaceEachClears(d.paragraphs, OldModel, NewModel);
    forall i | 0 <= i < |d.tables| ensures TableFree(Renamed(d).tables[i], OldModel) {
      ReplaceTableClears(d.tables[i], OldModel, NewModel);
    }
  }

  /** Running the script on its own output changes nothing more. */
  lemma RenamedIdempotent(d: Document)
    ensures Renamed(Renamed(d)) == Renamed(d)
  {
    NewNameSafe();
    var r := Renamed(d);
    forall k | 0 <= k < |d.paragraphs| ensures Renamed(r).paragraphs[k] == r.paragraphs[k] {
      ReplaceIdempotent(d.paragraphs[k], OldModel, NewModel);
    }
    forall i | 0 <= i < |d.tables| ensures Renamed(r).tables[i] == r.tables[i] {
      ReplaceTableIdempotent(d.tables[i], OldModel, NewModel);
    }
  }
}
