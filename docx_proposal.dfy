/** generateDocxProposal.ts: the single-variant DOCX exporter. It builds a
    four-column table (a bold shaded header, one row per item, a total row
    whose label spans three columns), places it after a heading naming the
    variant, follows it with the terms and a signature line, and saves the
    document under a name built from the variant and today's date. The
    currency formatter (`Intl.NumberFormat`), the clock and the packer are
    parameters or left out. */
module DocxProposal {
  import opened Text
  import opened Grouping
  import opened WordGen
  import opened Quote

  /** A table cell: its text, whether the text is bold, its alignment, its
      width in percent when one is set, its shading fill when one is set, and
      the number of columns it spans. */
  datatype Cell = Cell(text: string, bold: bool, align: Align, width: Option<nat>, fill: Option<string>, span: nat)

  /** The paragraphs whose wording never changes, by their role. */
  datatype FixedText = Title | Subtitle | Intro | TermsHeading | Term(n: nat) | Signature

  /** A block of the document's single section. */
  datatype Block =
    | Fixed(role: FixedText)
    | DateLine(date: string)
    | Heading(text: string)
    | Table(rows: seq<seq<Cell>>)

  /** What the exporter is handed: the declared `ProposalData`, or the
      `{variants}` object, which has no `variant`, `items` or `totalPrice`. */
  datatype Input =
    | Single(variant: Variant, items: seq<LineItem>, totalPrice: int)
    | VariantsOnly(variants: seq<Proposal>)

  /** The outcome of the call: the saved document and its file name, or the
      rejection of the returned promise. */
  datatype Outcome = Saved(doc: seq<Block>, fileName: string) | Rejected

  /** The wording of the fixed paragraphs. */
  function Wording(f: FixedText): string {
    match f
    case Title => "Коммерческое предложение"
    case Subtitle => "Локальный ИИ-агент для 1С:Предприятие"
    case Intro => "Предлагаем рассмотреть внедрение автономной системы искусственного интеллекта для автоматизации финансово-хозяйственных операций. Решение разворачивается в локальном контуре предприятия, обеспечивая полную конфиденциальность данных и соответствие требованиям импортозамещения."
    case TermsHeading => "Условия реализации"
    case Term(n) =>
      if n == 1 then "1. Цены на оборудование являются ориентировочными и уточняются на момент закупки."
      else if n == 2 then "2. Срок действия предложения: 30 календарных дней."
      else if n == 3 then "3. Условия оплаты: 50% предоплата, 50% после подписания акта приемки-передачи."
      else "4. Гарантия на работы: 12 месяцев с момента ввода в эксплуатацию."
    case Signature => "__________________________ / Подпись исполнителя"
  }

  function HeaderCell(text: string, align: Align, width: nat): Cell {
    Cell(text, true, align, Some(width), Some("E0E0E0"), 1)
  }

  /** The header row. */
  function HeaderRow(): seq<Cell> {
    [ HeaderCell("Наименование", Left, 50), HeaderCell("Кол-во", Center, 10),
      HeaderCell("Цена за ед.", Right, 20), HeaderCell("Сумма", Right, 20) ]
  }

  /** `generateTableRows` for one item: the name, the quantity centred, the
      formatted unit price and the formatted line amount right-aligned. */
  function ItemRow(it: LineItem, fmt: int -> string): seq<Cell> {
    [ Cell(it.name, false, Left, None, None, 1),
      Cell(Digits(it.qty), false, Center, None, None, 1),
      Cell(fmt(it.price), false, Right, None, None, 1),
      Cell(fmt(it.price * it.qty), false, Right, None, None, 1) ]
  }

  /** The total row: a bold label over three columns, then the given total. */
  function TotalRow(totalPrice: int, fmt: int -> string): seq<Cell> {
    [ Cell("ИТОГО:", true, Right, None, None, 3),
      Cell(fmt(totalPrice), true, Right, None, None, 1) ]
  }

  function ItemRows(items: seq<LineItem>, fmt: int -> string): (r: seq<seq<Cell>>)
    ensures |r| == |items|
    ensures forall k :: 0 <= k < |items| ==> r[k] == ItemRow(items[k], fmt)
  {
    seq(|items|, k requires 0 <= k < |items| => ItemRow(items[k], fmt))
  }

  /** `tableRows`: the header, the item rows in item order, the total row. */
  function TableRows(items: seq<LineItem>, totalPrice: int, fmt: int -> string): (r: seq<seq<Cell>>)
    ensures |r| == |items| + 2
    ensures r[0] == HeaderRow() && r[|r| - 1] == TotalRow(totalPrice, fmt)
    ensures forall k :: 0 <= k < |items| ==> r[k + 1] == ItemRow(items[k], fmt)
  {
    [HeaderRow()] + ItemRows(items, fmt) + [TotalRow(totalPrice, fmt)]
  }

  /** The number of columns a row covers. */
  function Columns(row: seq<Cell>): nat {
    if |row| == 0 then 0 else row[0].span + Columns(row[1..])
  }

  /** The sum of the widths a row sets. */
  function Widths(row: seq<Cell>): nat {
    if |row| == 0 then 0 else (if row[0].width.Some? then row[0].width.value else 0) + Widths(row[1..])
  }

  /** A four-cell row covers the sum of its cells' spans. */
  lemma ColumnsOfFour(row: seq<Cell>)
    requires |row| == 4
    ensures Columns(row) == row[0].span + row[1].span + row[2].span + row[3].span
    ensures Widths(row) == (if row[0].width.Some? then row[0].width.value else 0)
      + (if row[1].width.Some? then row[1].width.value else 0)
      + (if row[2].width.Some? then row[2].width.value else 0)
      + (if row[3].width.Some? then row[3].width.value else 0)
  {
    assert row[1..][1..] == row[2..] && row[2..][1..] == row[3..] && row[3..][1..] == [];
    assert Columns(row[3..]) == row[3].span;
    assert Columns(row[2..]) == row[2].span + row[3].span;
    assert Widths(row[3..]) == (if row[3].width.Some? then row[3].width.value else 0);
    assert Widths(row[2..]) == (if row[2].width.Some? then row[2].width.value else 0) + Widths(row[3..]);
  }

  /** Every row covers the four columns; the header's cells are bold and
      shaded E0E0E0 and their widths add up to the full 100 %. */
  lemma TableShape(items: seq<LineItem>, totalPrice: int, fmt: int -> string)
    ensures forall row :: row in TableRows(items, totalPrice, fmt) ==> Columns(row) == 4
    ensures Widths(HeaderRow()) == 100
    ensures forall c :: c in HeaderRow() ==> c.bold && c.fill == Some("E0E0E0")
  {
    var h := HeaderRow();
    ColumnsOfFour(h);
    var t := TotalRow(totalPrice, fmt);
    assert t[1..][1..] == [];
    forall it: LineItem
      ensures Columns(ItemRow(it, fmt)) == 4
    {
      ColumnsOfFour(ItemRow(it, fmt));
    }
  }

  /** An item row reads back as its item: the name, the quantity the centred
      cell spells, and the amounts `fmt` gives. */
  lemma ItemRowReadsBack(it: LineItem, fmt: int -> string)
    ensures var r := ItemRow(it, fmt);
      && r[0].text == it.name
      && Value(r[1].text, ' ') == it.qty
      && r[2].text == fmt(it.price) && r[3].text == fmt(it.price * it.qty)
  {
    DigitsValue(it.qty, ' ');
  }

  /** The total row shows the total it is handed, whatever the items: the
      exporter does not recompute it. */
  lemma TotalIsGiven(a: seq<LineItem>, b: seq<LineItem>, totalPrice: int, fmt: int -> string)
    ensures var ra := TableRows(a, totalPrice, fmt); var rb := TableRows(b, totalPrice, fmt);
      ra[|ra| - 1] == rb[|rb| - 1] && ra[|ra| - 1][1].text == fmt(totalPrice)
  {
  }

  /** The variant heading: `'basic'` names the basic variant, any other
      value the optimal one. */
  function VariantHeading(v: Variant): (s: string)
    ensures s == "Конфигурация решения: Базовый вариант" <==> v == Basic
    ensures s == "Конфигурация решения: Оптимальный вариант" <==> v == Optimal
  {
    "Конфигурация решения: " + (if v == Basic then "Базовый вариант" else "Оптимальный вариант")
  }

  /** The value of `data.variant` as written into the file name. */
  function VariantKey(v: Variant): string {
    if v == Basic then "basic" else "optimal"
  }

  /** `Commercial_Proposal_<variant>_<date>.docx`, the date being the ISO
      timestamp up to its `T`. */
  function FileName(v: Variant, iso: string): (s: string)
    ensures StartsWith(s, "Commercial_Proposal_" + VariantKey(v) + "_")
    ensures EndsWith(s, ".docx")
  {
    var s := "Commercial_Proposal_" + VariantKey(v) + "_" + SplitHead(iso, "T") + ".docx";
    assert s[..|"Commercial_Proposal_" + VariantKey(v) + "_"|] == "Commercial_Proposal_" + VariantKey(v) + "_";
    assert s[|s| - 5..] == ".docx";
    s
  }

  /** For an ISO timestamp `<date>T<time>` the name carries exactly the date. */
  lemma FileNameDate(v: Variant, date: string, time: string)
    requires !Contains(date, "T")
    ensures FileName(v, date + "T" + time) == "Commercial_Proposal_" + VariantKey(v) + "_" + date + ".docx"
  {
    var iso := date + "T" + time;
    var h := SplitHead(iso, "T");
    assert OccursAt(iso, "T", |date|) by {
      assert iso[|date|..|date| + 1] == "T";
    }
    if |h| < |date| {
      assert h != iso;
      assert iso[|h|] == 'T';
      assert date[|h|..|h| + 1] == "T";
      ContainsWitness(date, "T", |h|);
    }
    assert h == iso[..|h|] == date;
  }

  /** The document of a single-variant call, in section order. */
  function Document(v: Variant, items: seq<LineItem>, totalPrice: int, fmt: int -> string, today: string): seq<Block> {
    [ Fixed(Title), Fixed(Subtitle), DateLine(today), Fixed(Intro),
      Heading(VariantHeading(v)), Table(TableRows(items, totalPrice, fmt)),
      Fixed(TermsHeading), Fixed(Term(1)), Fixed(Term(2)), Fixed(Term(3)), Fixed(Term(4)),
      Fixed(Signature) ]
  }

  /** The exporter. `{variants}` has no `items`, so `data.items.map` throws
      while the rows are built, and the promise rejects before any document
      or file exists. */
  function Generate(data: Input, fmt: int -> string, today: string, iso: string): (r: Outcome)
    ensures r.Rejected? <==> data.VariantsOnly?
    ensures r.Saved? ==> r.fileName == FileName(data.variant, iso)
  {
    match data
    case VariantsOnly(_) => Rejected
    case Single(v, items, totalPrice) => Saved(Document(v, items, totalPrice, fmt, today), FileName(v, iso))
  }

  /** A saved document holds exactly one table, right after the variant
      heading, and after it the terms heading, four terms and the signature. */
  lemma DocumentLayout(v: Variant, items: seq<LineItem>, totalPrice: int, fmt: int -> string, today: string)
    ensures var d := Document(v, items, totalPrice, fmt, today);
      && d[4] == Heading(VariantHeading(v)) && d[5] == Table(TableRows(items, totalPrice, fmt))
      && (forall k :: 0 <= k < |d| && d[k].Table? ==> k == 5)
      && d[6..] == [Fixed(TermsHeading), Fixed(Term(1)), Fixed(Term(2)), Fixed(Term(3)), Fixed(Term(4)), Fixed(Signature)]
  {
  }
}
